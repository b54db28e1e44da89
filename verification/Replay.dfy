/** A client's view of a chat, kept up to date only by notifications, is the list the store would return. */
module Replay {
  import opened Wrappers
  import opened ObjectIds
  import opened Entities
  import opened Events
  import opened ChatServer
  import opened Store
  import opened StoreFacts
  import opened Coherence

  // ---- Each event is one store operation ----

  /** The store operation an event asks for; none when it is rejected before reaching the store. */
  function OpOf(e: ChatEvent, now: int, freshId: ObjectId): Option<Op> {
    match (e.kind, e.details)
    case (NewMessage, Fields(d)) =>
      if FromHex(e.chatId).None? then None
      else Some(Save(SentMessage(FromHex(e.chatId).value, e.userId, d, now), freshId))
    case (UpdateMessage, MessageValue(m)) => Some(Save(m, freshId))
    case (EditMessage, Fields(d)) => Some(Change(d.id, SetContent(d.content)))
    case (HideMessage, Fields(d)) => Some(Change(d.id, if d.hidden then AddHidden(e.userId) else PullHidden(e.userId)))
    case (DeleteMessage, Fields(d)) => Some(Change(d.id, MarkDeleted))
    case (NewChat, ChatPointer(c)) => Some(AddChat(c.name, freshId))
    case _ => None
  }

  lemma EventsAreOps(s: StoreState, e: ChatEvent, now: int, freshId: ObjectId)
    ensures var op := OpOf(e, now, freshId);
            ApplyEvent(s, e, now, freshId).0 == if op.Some? then Apply(s, op.value) else s
  {
  }

  /** The id MongoDB generates for a new document. */
  predicate NewId(s: StoreState, id: ObjectId) {
    id != NIL_ID && FindDoc(s.docs, id).None?
  }

  // ---- What a client does with a notification ----

  function ReplaceById(view: seq<Message>, m: Message): (r: seq<Message>)
    ensures |r| == |view|
    ensures forall i :: 0 <= i < |view| ==> r[i] == if view[i].id == m.id then m else view[i]
  {
    seq(|view|, i requires 0 <= i < |view| => if view[i].id == m.id then m else view[i])
  }

  function MessageOfNote(n: ChatEvent): Option<Message> {
    match n.details
    case MessagePointer(m) => Some(Visible(ThroughJson(m)))
    case MessageValue(m) => Some(Visible(ThroughJson(m)))
    case _ => None
  }

  /** A new message is appended; every other message event replaces the message with that id, if it is shown. */
  function ApplyNote(view: seq<Message>, chat: ObjectId, n: ChatEvent): seq<Message> {
    if n.chatId != Hex(chat) || MessageOfNote(n).None? then view
    else if n.kind.NewMessage? then view + [MessageOfNote(n).value]
    else ReplaceById(view, MessageOfNote(n).value)
  }

  function Replayed(view: seq<Message>, chat: ObjectId, notes: seq<ChatEvent>): seq<Message>
    decreases |notes|
  {
    if notes == [] then view else Replayed(ApplyNote(view, chat, notes[0]), chat, notes[1..])
  }

  /** The notification an event leads to, if there is something to broadcast that can be encoded. */
  function NotesOf(e: ChatEvent, o: Outcome): seq<ChatEvent> {
    if o.Broadcast? && Encodable(o.details) then [e.(details := o.details)] else []
  }

  function FullView(s: StoreState, chat: ObjectId): seq<Message> {
    VisibleAll(ChatView(s, chat))
  }

  lemma VisibleUpdate(ms: seq<Message>, k: nat, m: Message)
    requires k < |ms|
    ensures VisibleAll(ms[k := m]) == VisibleAll(ms)[k := Visible(m)]
  {
  }

  lemma ReplaceAtPlace(view: seq<Message>, k: nat, m: Message)
    requires k < |view| && view[k].id == m.id
    requires forall i, j :: 0 <= i < j < |view| ==> view[i].id != view[j].id
    ensures ReplaceById(view, m) == view[k := m]
  {
  }

  lemma ReplaceAbsent(view: seq<Message>, m: Message)
    requires forall i :: 0 <= i < |view| ==> view[i].id != m.id
    ensures ReplaceById(view, m) == view
  {
  }

  lemma NotInOtherChat(s: StoreState, i: nat, chat: ObjectId)
    requires UniqueIds(s.docs) && i < |s.docs| && s.docs[i].chatId != chat
    ensures forall k :: 0 <= k < |ChatView(s, chat)| ==> ChatView(s, chat)[k].id != s.docs[i].id
  {
    var rows := Aggregate(s.docs, s.users, chat);
    AggregateMembers(s.docs, s.users, chat);
    forall k | 0 <= k < |rows| ensures rows[k].doc.id != s.docs[i].id {
      assert rows[k] in rows;
      var j :| 0 <= j < |s.docs| && s.docs[j] == rows[k].doc;
    }
  }

  lemma NotAnywhere(s: StoreState, id: ObjectId, chat: ObjectId)
    requires FindDoc(s.docs, id).None?
    ensures forall k :: 0 <= k < |ChatView(s, chat)| ==> ChatView(s, chat)[k].id != id
  {
    forall d | d in s.docs ensures d.id != id {
      var j :| 0 <= j < |s.docs| && s.docs[j] == d;
    }
    RowIds(s.docs, s.users, chat, id);
    forall k | 0 <= k < |ChatView(s, chat)| ensures ChatView(s, chat)[k].id != id {
      assert ChatView(s, chat)[k] in ChatView(s, chat);
    }
  }

  /** Replacing by id changes nothing in a chat's view exactly when the message is not in that chat, or is there
      just so. */
  lemma ReplaceIsIdleExactly(s: StoreState, m: Message, chat: ObjectId)
    requires WellFormed(s)
    ensures var i := FindDoc(s.docs, m.id);
            ReplaceById(FullView(s, chat), m) == FullView(s, chat) <==>
            (i.Some? && s.docs[i.value].chatId == chat ==> VisibleDoc(s, s.docs[i.value]) == Some(m))
  {
    var i := FindDoc(s.docs, m.id);
    if i.None? {
      NotAnywhere(s, m.id, chat);
      ReplaceAbsent(FullView(s, chat), m);
    } else if s.docs[i.value].chatId != chat {
      NotInOtherChat(s, i.value, chat);
      ReplaceAbsent(FullView(s, chat), m);
    } else {
      ViewAfterReplace(s, i.value, s.docs[i.value], chat);
      ViewIdsUnique(s.docs, s.users, chat);
      ReplaceAtPlace(FullView(s, chat), Place(s, i.value), m);
    }
  }

  /** One document replaced by another of the same id and chat, in terms of the full views before and after. */
  lemma ReplaceInViews(s: StoreState, s': StoreState, i: nat, d: Doc, chat: ObjectId)
    requires WellFormed(s) && i < |s.docs| && d.authorId in s.users
    requires d.id == s.docs[i].id && d.chatId == s.docs[i].chatId
    requires s'.docs == s.docs[i := d] && s'.users == s.users
    ensures FullView(s', chat) ==
            if chat == d.chatId then ReplaceById(FullView(s, chat), VisibleDoc(s, d).value) else FullView(s, chat)
    ensures ReplaceById(FullView(s, chat), VisibleDoc(s, d).value) == FullView(s, chat) <==>
            chat != d.chatId || VisibleDoc(s, s.docs[i]) == VisibleDoc(s, d)
  {
    FindUnique(s.docs, i);
    ReplaceIsIdleExactly(s, VisibleDoc(s, d).value, chat);
    ViewAfterReplace(s, i, d, chat);
    assert ChatView(s', chat) == ChatView(s.(docs := s.docs[i := d]), chat);
    if chat == d.chatId {
      ViewIdsUnique(s.docs, s.users, chat);
      VisibleUpdate(ChatView(s, chat), Place(s, i), ToInternal(d, s.users[d.authorId]));
      ReplaceAtPlace(FullView(s, chat), Place(s, i), VisibleDoc(s, d).value);
    }
  }

  lemma PostInViews(s: StoreState, m: Message, freshId: ObjectId, chat: ObjectId)
    requires Coherent(s) && m.id == NIL_ID && Legal(s, Save(m, freshId)) && SaveMessage(s, m, freshId).error.None?
    ensures var saved := SaveMessage(s, m, freshId);
            FullView(saved.state, chat) ==
            if chat == m.chatId then FullView(s, chat) + [Visible(ThroughJson(saved.message))] else FullView(s, chat)
  {
    UserLookupRefinesDatabase(s, m.authorId);
    var (s1, u) := GetUserById(s, m.authorId);
    var saved := SaveMessage(s, m, freshId);
    VisibleOfStored(saved.message, u.value, s.users);
    var d := FromInternal(saved.message);
    ViewAfterInsert(s, d, chat);
    assert ChatView(saved.state, chat) == ChatView(s.(docs := s.docs + [d]), chat);
    if chat == m.chatId {
      VisibleSnoc(ChatView(s, chat), ToInternal(d, s.users[d.authorId]));
    }
  }

  lemma VisibleSnoc(ms: seq<Message>, m: Message)
    ensures VisibleAll(ms + [m]) == VisibleAll(ms) + [Visible(m)]
  {
  }

  lemma UntouchedViews(s: StoreState, s': StoreState, chat: ObjectId)
    requires AuthorsKnown(s.docs, s.users) && s'.docs == s.docs
    requires forall u :: u in s.users ==> u in s'.users && s'.users[u] == s.users[u]
    ensures FullView(s', chat) == FullView(s, chat)
  {
    AggregateUsersGrow(s.docs, s.users, s'.users, chat);
  }

  lemma ReplayedOne(view: seq<Message>, chat: ObjectId, n: ChatEvent)
    ensures Replayed(view, chat, [n]) == ApplyNote(view, chat, n)
  {
  }

  lemma PostChangesViews(s: StoreState, m: Message, freshId: ObjectId, chat: ObjectId)
    requires Coherent(s) && m.id == NIL_ID && Legal(s, Save(m, freshId))
    ensures var saved := SaveMessage(s, m, freshId);
      && (saved.error.None? <==> Known(s, m.authorId))
      && FullView(saved.state, chat) ==
         if saved.error.None? && chat == m.chatId then FullView(s, chat) + [Visible(ThroughJson(saved.message))]
         else FullView(s, chat)
  {
    UserLookupRefinesDatabase(s, m.authorId);
    if SaveMessage(s, m, freshId).error.None? {
      PostInViews(s, m, freshId, chat);
    } else {
      UntouchedViews(s, SaveMessage(s, m, freshId).state, chat);
    }
  }

  // ---- When the notification of an event says what the event did ----

  predicate Known(s: StoreState, userText: string) {
    FromHex(userText).Some? && FromHex(userText).value in s.users
  }

  /** A post that is stored must use the chat id the system prints, and its time must be encodable. */
  predicate PostReaches(s: StoreState, e: ChatEvent, now: int) {
    FromHex(e.chatId).Some? && Known(s, e.userId) ==> Canonical(e.chatId) && YEAR_0 <= now < YEAR_10000
  }

  /** An edit, hide, show or delete must name the chat of the message, and its times must be encodable, unless it
      changes nothing. */
  predicate TouchReaches(s: StoreState, chatText: string, idText: string, t: Touch) {
    FromHex(idText).Some? && FindDoc(s.docs, FromHex(idText).value).Some? ==>
      var d := s.docs[FindDoc(s.docs, FromHex(idText).value).value];
      (chatText == Hex(d.chatId) && DocTimesFit(d)) || ApplyTouch(d, t) == d
  }

  /** An update by a known author must name a message by its id, keep its chat and be addressed to it, unless it
      changes nothing visible. The broadcast of one that failed must not differ from what that chat shows already. */
  predicate UpdateReaches(s: StoreState, chatText: string, m: Message) {
    var i := FindDoc(s.docs, m.id);
    if !Known(s, m.authorId) then
      i.Some? && chatText == Hex(s.docs[i.value].chatId) ==>
        VisibleDoc(s, s.docs[i.value]) == Some(Visible(ThroughJson(m)))
    else
      && m.id != NIL_ID
      && (i.Some? ==>
            && m.chatId == s.docs[i.value].chatId
            && (chatText == Hex(m.chatId) || VisibleDoc(s, s.docs[i.value]) == VisibleDoc(s, FromInternal(m))))
  }

  predicate Reaches(s: StoreState, e: ChatEvent, now: int) {
    match (e.kind, e.details)
    case (NewMessage, Fields(_)) => PostReaches(s, e, now)
    case (UpdateMessage, MessageValue(m)) => UpdateReaches(s, e.chatId, m)
    case (EditMessage, Fields(d)) => TouchReaches(s, e.chatId, d.id, SetContent(d.content))
    case (HideMessage, Fields(d)) =>
      TouchReaches(s, e.chatId, d.id, if d.hidden then AddHidden(e.userId) else PullHidden(e.userId))
    case (DeleteMessage, Fields(d)) => TouchReaches(s, e.chatId, d.id, MarkDeleted)
    case _ => true
  }

  /** Applying the notifications to the full view before gives the full view after, for every chat. */
  ghost predicate Follows(s: StoreState, s': StoreState, notes: seq<ChatEvent>) {
    forall chat: ObjectId :: FullView(s', chat) == Replayed(FullView(s, chat), chat, notes)
  }

  lemma MessageNoteReplayed(view: seq<Message>, chat: ObjectId, e: ChatEvent, details: Details)
    requires details.MessagePointer? || details.MessageValue?
    ensures Replayed(view, chat, NotesOf(e, Broadcast(details))) ==
            if !Encodable(details) || e.chatId != Hex(chat) then view
            else if e.kind.NewMessage? then view + [Visible(ThroughJson(details.m))]
            else ReplaceById(view, Visible(ThroughJson(details.m)))
  {
    ReplayedOne(view, chat, e.(details := details));
  }

  lemma PostOutcome(s: StoreState, e: ChatEvent, now: int, freshId: ObjectId)
    requires e.kind.NewMessage? && e.details.Fields? && FromHex(e.chatId).Some?
    ensures var saved := SaveMessage(s, SentMessage(FromHex(e.chatId).value, e.userId, e.details.fields, now), freshId);
      && ApplyEvent(s, e, now, freshId) ==
         (saved.state, if saved.error.Some? then Failed else Broadcast(MessagePointer(saved.message)))
      && (TimesFit(saved.message) <==> YEAR_0 <= now < YEAR_10000)
  {
  }

  lemma PostInOneView(s: StoreState, e: ChatEvent, now: int, freshId: ObjectId, chat: ObjectId)
    requires Coherent(s) && NewId(s, freshId)
    requires e.kind.NewMessage? && e.details.Fields? && FromHex(e.chatId).Some?
    ensures var (s', o) := ApplyEvent(s, e, now, freshId);
            FullView(s', chat) == Replayed(FullView(s, chat), chat, NotesOf(e, o)) <==>
            chat != FromHex(e.chatId).value || PostReaches(s, e, now)
  {
    var m := SentMessage(FromHex(e.chatId).value, e.userId, e.details.fields, now);
    PostOutcome(s, e, now, freshId);
    PostChangesViews(s, m, freshId, chat);
    HexRoundTrip(chat);
    if Known(s, e.userId) {
      MessageNoteReplayed(FullView(s, chat), chat, e, MessagePointer(SaveMessage(s, m, freshId).message));
    }
  }

  /** How the view of one chat compares with its replay when a document is replaced and its note sent, or not. */
  lemma ReplacementFollowsExactly(
    s: StoreState, s': StoreState, i: nat, d: Doc, e: ChatEvent, details: Details, chat: ObjectId)
    requires WellFormed(s) && i < |s.docs| && d.authorId in s.users
    requires d.id == s.docs[i].id && d.chatId == s.docs[i].chatId
    requires s'.docs == s.docs[i := d] && s'.users == s.users
    requires !e.kind.NewMessage? && (details.MessagePointer? || details.MessageValue?)
    requires Visible(ThroughJson(details.m)) == VisibleDoc(s, d).value
    ensures FullView(s', chat) == Replayed(FullView(s, chat), chat, NotesOf(e, Broadcast(details))) <==>
            chat != d.chatId || (e.chatId == Hex(d.chatId) && Encodable(details)) ||
            VisibleDoc(s, s.docs[i]) == VisibleDoc(s, d)
  {
    ReplaceInViews(s, s', i, d, chat);
    MessageNoteReplayed(FullView(s, chat), chat, e, details);
  }

  lemma TouchInOneView(s: StoreState, e: ChatEvent, idText: string, t: Touch, chat: ObjectId)
    requires WellFormed(s) && TouchMessage(s, idText, t).1.Ok? && !e.kind.NewMessage?
    ensures var d := s.docs[FindDoc(s.docs, FromHex(idText).value).value];
            var (s', r) := TouchMessage(s, idText, t);
            FullView(s', chat) == Replayed(FullView(s, chat), chat, NotesOf(e, FromStore(r))) <==>
            chat != d.chatId || (e.chatId == Hex(d.chatId) && DocTimesFit(d)) || ApplyTouch(d, t) == d
  {
    TouchAlwaysInvalidates(s, idText, t);
    var (s', r) := TouchMessage(s, idText, t);
    var i := FindDoc(s.docs, FromHex(idText).value).value;
    var d := ApplyTouch(s.docs[i], t);
    assert TimesFit(r.value) <==> DocTimesFit(s.docs[i]);
    assert VisibleDoc(s, s.docs[i]) == VisibleDoc(s, d) <==> d == s.docs[i];
    ReplacementFollowsExactly(s, s', i, d, e, MessagePointer(r.value), chat);
  }

  lemma NothingFollowsNothing(s: StoreState)
    ensures Follows(s, s, [])
  {
  }

  lemma TouchFollowsExactly(s: StoreState, e: ChatEvent, idText: string, t: Touch)
    requires WellFormed(s) && !e.kind.NewMessage?
    ensures var (s', r) := TouchMessage(s, idText, t);
            Follows(s, s', NotesOf(e, FromStore(r))) <==> TouchReaches(s, e.chatId, idText, t)
  {
    TouchAlwaysInvalidates(s, idText, t);
    var (s', r) := TouchMessage(s, idText, t);
    if r.Ok? {
      var d := s.docs[FindDoc(s.docs, FromHex(idText).value).value];
      forall chat: ObjectId
        ensures FullView(s', chat) == Replayed(FullView(s, chat), chat, NotesOf(e, FromStore(r))) <==>
                chat != d.chatId || (e.chatId == Hex(d.chatId) && DocTimesFit(d)) || ApplyTouch(d, t) == d
      {
        TouchInOneView(s, e, idText, t, chat);
      }
      TouchInOneView(s, e, idText, t, d.chatId);
    } else {
      NothingFollowsNothing(s);
    }
  }

  // ---- Updates ----

  lemma FailedUpdateFollowsExactly(s: StoreState, s': StoreState, e: ChatEvent, m: Message)
    requires WellFormed(s) && s'.docs == s.docs && s'.users == s.users && !e.kind.NewMessage?
    ensures var i := FindDoc(s.docs, m.id);
            Follows(s, s', NotesOf(e, Broadcast(MessageValue(m)))) <==>
            (i.Some? && e.chatId == Hex(s.docs[i.value].chatId) ==>
               VisibleDoc(s, s.docs[i.value]) == Some(Visible(ThroughJson(m))))
  {
    var i := FindDoc(s.docs, m.id);
    forall chat: ObjectId
      ensures FullView(s', chat) == Replayed(FullView(s, chat), chat, NotesOf(e, Broadcast(MessageValue(m)))) <==>
              e.chatId != Hex(chat) ||
              (i.Some? && s.docs[i.value].chatId == chat ==>
                 VisibleDoc(s, s.docs[i.value]) == Some(Visible(ThroughJson(m))))
    {
      UntouchedViews(s, s', chat);
      ReplaceIsIdleExactly(s, Visible(ThroughJson(m)), chat);
      MessageNoteReplayed(FullView(s, chat), chat, e, MessageValue(m));
    }
    if i.Some? {
      HexInjective(s.docs[i.value].chatId, s.docs[i.value].chatId);
    }
  }

  /** An update without an id becomes a new document that no replacement can show. */
  lemma InsertingUpdateNeverFollows(s: StoreState, e: ChatEvent, m: Message, freshId: ObjectId)
    requires Coherent(s) && NewId(s, freshId) && m.id == NIL_ID && Known(s, m.authorId) && !e.kind.NewMessage?
    ensures var saved := SaveMessage(s, m, freshId);
            !Follows(s, saved.state, NotesOf(e, Broadcast(MessageValue(saved.message))))
  {
    var saved := SaveMessage(s, m, freshId);
    PostChangesViews(s, m, freshId, m.chatId);
    MessageNoteReplayed(FullView(s, m.chatId), m.chatId, e, MessageValue(saved.message));
  }

  /** A message that leaves its chat leaves the view there, and no replacement removes anything. */
  lemma MovingUpdateNeverFollows(s: StoreState, s': StoreState, i: nat, d: Doc, e: ChatEvent, m: Message)
    requires WellFormed(s) && i < |s.docs| && d.chatId != s.docs[i].chatId && !e.kind.NewMessage?
    requires s'.docs == s.docs[i := d] && s'.users == s.users
    ensures !Follows(s, s', NotesOf(e, Broadcast(MessageValue(m))))
  {
    var source := s.docs[i].chatId;
    MoveSplits(s, i, d, FromRows(Aggregate(s.docs[..i], s.users, source)),
               FromRows(Aggregate(s.docs[i + 1..], s.users, source)));
    assert ChatView(s', source) == ChatView(s.(docs := s.docs[i := d]), source);
    MessageNoteReplayed(FullView(s, source), source, e, MessageValue(m));
    assert |FullView(s', source)| < |FullView(s, source)|;
  }

  lemma UpdateFollowsExactly(s: StoreState, e: ChatEvent, m: Message, freshId: ObjectId)
    requires Coherent(s) && NewId(s, freshId) && !e.kind.NewMessage?
    ensures var saved := SaveMessage(s, m, freshId);
            Follows(s, saved.state, NotesOf(e, Broadcast(MessageValue(saved.message)))) <==>
            UpdateReaches(s, e.chatId, m)
  {
    UserLookupRefinesDatabase(s, m.authorId);
    var saved := SaveMessage(s, m, freshId);
    var i := FindDoc(s.docs, m.id);
    if !Known(s, m.authorId) || (m.id != NIL_ID && i.None?) {
      FailedUpdateFollowsExactly(s, saved.state, e, saved.message);
    } else if m.id == NIL_ID {
      InsertingUpdateNeverFollows(s, e, m, freshId);
    } else if m.chatId != s.docs[i.value].chatId {
      MovingUpdateNeverFollows(s, saved.state, i.value, FromInternal(m), e, saved.message);
    } else {
      SavedUpdateFollowsExactly(s, e, m, freshId);
    }
  }

  lemma SavedUpdateFollowsExactly(s: StoreState, e: ChatEvent, m: Message, freshId: ObjectId)
    requires Coherent(s) && !e.kind.NewMessage? && Known(s, m.authorId) && m.id != NIL_ID
    requires FindDoc(s.docs, m.id).Some? && m.chatId == s.docs[FindDoc(s.docs, m.id).value].chatId
    ensures var saved := SaveMessage(s, m, freshId);
            Follows(s, saved.state, NotesOf(e, Broadcast(MessageValue(saved.message)))) <==>
            UpdateReaches(s, e.chatId, m)
  {
    UserLookupRefinesDatabase(s, m.authorId);
    var saved := SaveMessage(s, m, freshId);
    var i := FindDoc(s.docs, m.id).value;
    var d := FromInternal(m);
    VisibleOfStored(m, saved.message.author, s.users);
    forall chat: ObjectId
      ensures FullView(saved.state, chat) ==
              Replayed(FullView(s, chat), chat, NotesOf(e, Broadcast(MessageValue(saved.message)))) <==>
              chat != m.chatId || e.chatId == Hex(m.chatId) || VisibleDoc(s, s.docs[i]) == VisibleDoc(s, d)
    {
      ReplacementFollowsExactly(s, saved.state, i, d, e, MessageValue(saved.message), chat);
    }
    ReplacementFollowsExactly(s, saved.state, i, d, e, MessageValue(saved.message), m.chatId);
  }

  // ---- Any event ----

  lemma PostFollowsExactly(s: StoreState, e: ChatEvent, now: int, freshId: ObjectId)
    requires Coherent(s) && NewId(s, freshId) && e.kind.NewMessage? && e.details.Fields?
    ensures var (s', o) := ApplyEvent(s, e, now, freshId);
            Follows(s, s', NotesOf(e, o)) <==> PostReaches(s, e, now)
  {
    if FromHex(e.chatId).Some? {
      forall chat: ObjectId
        ensures var (s', o) := ApplyEvent(s, e, now, freshId);
                FullView(s', chat) == Replayed(FullView(s, chat), chat, NotesOf(e, o)) <==>
                chat != FromHex(e.chatId).value || PostReaches(s, e, now)
      {
        PostInOneView(s, e, now, freshId, chat);
      }
      PostInOneView(s, e, now, freshId, FromHex(e.chatId).value);
    } else {
      NothingFollowsNothing(s);
    }
  }

  lemma OtherEventFollows(s: StoreState, e: ChatEvent, now: int, freshId: ObjectId)
    requires AuthorsKnown(s.docs, s.users) && (e.details.ChatPointer? || ApplyEvent(s, e, now, freshId) == (s, Failed))
    ensures var (s', o) := ApplyEvent(s, e, now, freshId);
            Follows(s, s', NotesOf(e, o))
  {
    var (s', o) := ApplyEvent(s, e, now, freshId);
    forall chat: ObjectId ensures FullView(s', chat) == Replayed(FullView(s, chat), chat, NotesOf(e, o)) {
      UntouchedViews(s, s', chat);
      if o.Broadcast? {
        ReplayedOne(FullView(s, chat), chat, e.(details := o.details));
      }
    }
  }

  /** For every event there is: replaying its notification, or nothing if there is none, follows the store in every
      chat exactly under the condition that `Reaches` spells out. */
  lemma EventReplaysExactly(s: StoreState, e: ChatEvent, now: int, freshId: ObjectId)
    requires Coherent(s) && NewId(s, freshId)
    ensures var (s', o) := ApplyEvent(s, e, now, freshId);
            Follows(s, s', NotesOf(e, o)) <==> Reaches(s, e, now)
  {
    match (e.kind, e.details)
    case (NewMessage, Fields(d)) => PostFollowsExactly(s, e, now, freshId);
    case (UpdateMessage, MessageValue(m)) => UpdateFollowsExactly(s, e, m, freshId);
    case (EditMessage, Fields(d)) => TouchFollowsExactly(s, e, d.id, SetContent(d.content));
    case (HideMessage, Fields(d)) =>
      TouchFollowsExactly(s, e, d.id, if d.hidden then AddHidden(e.userId) else PullHidden(e.userId));
    case (DeleteMessage, Fields(d)) => TouchFollowsExactly(s, e, d.id, MarkDeleted);
    case _ => OtherEventFollows(s, e, now, freshId);
  }

  // ---- A whole log ----

  /** One processed delivery, or a read, an expiry or a registration in between. */
  datatype Entry = Event(e: ChatEvent, now: int, freshId: ObjectId) | Background(op: Op)

  predicate InBackground(op: Op) {
    op.Read? || op.FindUser? || op.Expire? || op.AddUser?
  }

  predicate EntryOk(s: StoreState, entry: Entry) {
    match entry
    case Event(e, now, freshId) => NewId(s, freshId) && Reaches(s, e, now)
    case Background(op) => InBackground(op)
  }

  function Process(s: StoreState, entry: Entry): (StoreState, seq<ChatEvent>) {
    match entry
    case Event(e, now, freshId) =>
      var (s', o) := ApplyEvent(s, e, now, freshId);
      (s', NotesOf(e, o))
    case Background(op) => (Apply(s, op), [])
  }

  function ProcessAll(s: StoreState, log: seq<Entry>): (StoreState, seq<ChatEvent>)
    decreases |log|
  {
    if log == [] then (s, [])
    else
      var (s', notes) := Process(s, log[0]);
      var (s'', more) := ProcessAll(s', log[1..]);
      (s'', notes + more)
  }

  predicate LogOk(s: StoreState, log: seq<Entry>)
    decreases |log|
  {
    log != [] ==> EntryOk(s, log[0]) && LogOk(Process(s, log[0]).0, log[1..])
  }

  lemma ReachingEventKeepsCoherence(s: StoreState, e: ChatEvent, now: int, freshId: ObjectId)
    requires Coherent(s) && NewId(s, freshId) && Reaches(s, e, now)
    ensures Coherent(ApplyEvent(s, e, now, freshId).0)
  {
    EventsAreOps(s, e, now, freshId);
    var op := OpOf(e, now, freshId);
    if op.Some? {
      if op.value.Save? && !Known(s, op.value.m.authorId) {
        UserLookupRefinesDatabase(s, op.value.m.authorId);
      } else {
        ApplyKeepsCoherence(s, op.value);
      }
    }
  }

  lemma EntryReplays(s: StoreState, entry: Entry, chat: ObjectId)
    requires Coherent(s) && EntryOk(s, entry)
    ensures var (s', notes) := Process(s, entry);
            Coherent(s') && FullView(s', chat) == Replayed(FullView(s, chat), chat, notes)
  {
    match entry
    case Event(e, now, freshId) =>
      EventReplaysExactly(s, e, now, freshId);
      ReachingEventKeepsCoherence(s, e, now, freshId);
    case Background(op) =>
      ApplyKeepsCoherence(s, op);
      if op.FindUser? {
        UserLookupRefinesDatabase(s, op.text);
      }
      UntouchedViews(s, Apply(s, op), chat);
  }

  lemma {:induction false} ReplayedConcat(view: seq<Message>, chat: ObjectId, a: seq<ChatEvent>, b: seq<ChatEvent>)
    ensures Replayed(view, chat, a + b) == Replayed(Replayed(view, chat, a), chat, b)
    decreases |a|
  {
    if a == [] {
      assert a + b == b;
    } else {
      assert (a + b)[1..] == a[1..] + b;
      ReplayedConcat(ApplyNote(view, chat, a[0]), chat, a[1..], b);
    }
  }

  /** Main result: from a chat's full list at any point of the log, replaying the later notifications yields
      exactly the list the store has at the later point. */
  lemma {:induction false} ReplayYieldsStore(s: StoreState, log: seq<Entry>, chat: ObjectId)
    requires Coherent(s) && LogOk(s, log)
    ensures var (s', notes) := ProcessAll(s, log);
            FullView(s', chat) == Replayed(FullView(s, chat), chat, notes)
    decreases |log|
  {
    if log == [] {
    } else {
      var (s1, notes) := Process(s, log[0]);
      var (s2, more) := ProcessAll(s1, log[1..]);
      EntryReplays(s, log[0], chat);
      ReplayYieldsStore(s1, log[1..], chat);
      ReplayedConcat(FullView(s, chat), chat, notes, more);
    }
  }
}

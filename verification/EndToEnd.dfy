/** From the web app's publishing functions through the JSON codec and the chat server's handler to the stored
    document and to the notification every hub decodes: each request has exactly the effect its name says. */
module EndToEnd {
  import opened Wrappers
  import opened ObjectIds
  import opened Entities
  import opened Events
  import opened Codec
  import opened ChatServer
  import opened Store
  import opened StoreFacts
  import opened Coherence
  import opened Replay
  import opened StoreAnswers

  function Deliver(s: StoreState, e: ChatEvent, now: int, freshId: ObjectId): Handling {
    HandleDelivery(s, EncodeEvent(e), now, freshId, true)
  }

  /** Every hub decodes one notification, of this type, in this chat and from this user, showing `d`. */
  ghost predicate ShownToHubs(s: StoreState, h: Handling, kind: EventType, chat: string, user: string, d: Doc) {
    && |h.sent| == 1 && d.authorId in s.users
    && var note := DecodeNotification(EncodeEvent(h.sent[0]));
       && note.Ok? && note.value.MessageChanged?
       && note.value.code == TypeCode(kind) && note.value.chatId == chat && note.value.userId == user
       && ReadsAs(note.value.m, d, s.users[d.authorId])
  }

  /** The delivery is acknowledged once and `d` is shown to the hubs. When the times of `d` cannot be encoded, it is
      acknowledged twice and nothing is sent. */
  ghost predicate Announces(s: StoreState, h: Handling, kind: EventType, chat: string, user: string, d: Doc) {
    if DocTimesFit(d) then h.acks == 1 && h.end == Succeeded && ShownToHubs(s, h, kind, chat, user, d)
    else h.acks == 2 && h.end == ReturnedError && h.sent == []
  }

  lemma BroadcastSends(s: StoreState, e: ChatEvent, now: int, freshId: ObjectId, s': StoreState, m: Message)
    requires Published(e) && e.details.Fields?
    requires ApplyEvent(s, e, now, freshId) == (s', Broadcast(MessagePointer(m)))
    ensures Deliver(s, e, now, freshId) ==
            if TimesFit(m) then Handling(s', 1, [e.(details := MessagePointer(m))], Succeeded)
            else Handling(s', 2, [], ReturnedError)
  {
    EventRoundTrip(e);
    PublishedDetails(e);
  }

  lemma PointerShown(s: StoreState, h: Handling, e: ChatEvent, m: Message, d: Doc)
    requires !e.kind.NewChat? && h.sent == [e.(details := MessagePointer(m))]
    requires d.authorId in s.users && ReadsAs(m, d, s.users[d.authorId])
    ensures ShownToHubs(s, h, e.kind, e.chatId, e.userId, d)
  {
    NotificationRoundTrip(e.kind, e.chatId, e.userId, MessagePointer(m));
    assert e.(details := MessagePointer(m)) == ChatEvent(e.kind, e.chatId, e.userId, MessagePointer(m));
  }

  /** What a delivered event does once the handler has an after-image to broadcast. */
  lemma AfterImageAnnounced(
    s: StoreState, e: ChatEvent, now: int, freshId: ObjectId, s': StoreState, m: Message, d: Doc)
    requires Published(e) && e.details.Fields? && !e.kind.NewChat?
    requires ApplyEvent(s, e, now, freshId) == (s', Broadcast(MessagePointer(m)))
    requires d.authorId in s.users && (DocTimesFit(d) <==> TimesFit(m))
    requires ReadsAs(m, d, s.users[d.authorId])
    ensures Deliver(s, e, now, freshId).state == s'
    ensures Announces(s, Deliver(s, e, now, freshId), e.kind, e.chatId, e.userId, d)
  {
    BroadcastSends(s, e, now, freshId, s', m);
    if TimesFit(m) {
      PointerShown(s, Deliver(s, e, now, freshId), e, m, d);
    }
  }

  lemma TouchAnnounced(s: StoreState, e: ChatEvent, i: nat, t: Touch, now: int, freshId: ObjectId)
    requires WellFormed(s) && i < |s.docs| && Published(e) && e.details.Fields? && !e.kind.NewChat?
    requires var (s', r) := TouchMessage(s, Hex(s.docs[i].id), t);
             ApplyEvent(s, e, now, freshId) == (s', FromStore(r))
    ensures Deliver(s, e, now, freshId).state == TouchMessage(s, Hex(s.docs[i].id), t).0
    ensures Deliver(s, e, now, freshId).state.docs == s.docs[i := ApplyTouch(s.docs[i], t)]
    ensures Announces(s, Deliver(s, e, now, freshId), e.kind, e.chatId, e.userId, ApplyTouch(s.docs[i], t))
  {
    HexRoundTrip(s.docs[i].id);
    FindUnique(s.docs, i);
    TouchAlwaysInvalidates(s, Hex(s.docs[i].id), t);
    TouchShowsDocument(s, Hex(s.docs[i].id), t);
    var (s', r) := TouchMessage(s, Hex(s.docs[i].id), t);
    AfterImageAnnounced(s, e, now, freshId, s', r.value, ApplyTouch(s.docs[i], t));
  }

  /** An edit changes the content of that message and nothing else, and is announced in the chat it was asked for. */
  lemma EditReachesStore(s: StoreState, i: nat, chat: string, content: string, now: int, freshId: ObjectId)
    requires WellFormed(s) && i < |s.docs|
    ensures var h := Deliver(s, EditMessageEvent(chat, Hex(s.docs[i].id), content), now, freshId);
            var d' := s.docs[i].(content := content);
            h.state.docs == s.docs[i := d'] && Announces(s, h, EditMessage, chat, "", d')
  {
    TouchAnnounced(s, EditMessageEvent(chat, Hex(s.docs[i].id), content), i, SetContent(content), now, freshId);
  }

  lemma DeleteReachesStore(s: StoreState, i: nat, chat: string, now: int, freshId: ObjectId)
    requires WellFormed(s) && i < |s.docs|
    ensures var h := Deliver(s, DeleteMessageEvent(chat, Hex(s.docs[i].id)), now, freshId);
            var d' := s.docs[i].(deleted := true);
            h.state.docs == s.docs[i := d'] && Announces(s, h, DeleteMessage, chat, "", d')
  {
    TouchAnnounced(s, DeleteMessageEvent(chat, Hex(s.docs[i].id)), i, MarkDeleted, now, freshId);
  }

  /** A hide or show decides the requesting user's membership of the hidden list and nobody else's. */
  lemma HideReachesStore(s: StoreState, i: nat, chat: string, user: string, isHidden: bool, now: int, freshId: ObjectId)
    requires WellFormed(s) && i < |s.docs|
    ensures var h := Deliver(s, HideMessageEvent(chat, Hex(s.docs[i].id), user, isHidden), now, freshId);
      && |h.state.docs| == |s.docs|
      && var d' := h.state.docs[i];
      && h.state.docs == s.docs[i := d']
      && d' == s.docs[i].(hiddenFor := d'.hiddenFor)
      && (forall u :: u in d'.hiddenFor <==> if u == user then isHidden else u in s.docs[i].hiddenFor)
      && Announces(s, h, HideMessage, chat, user, d')
  {
    TouchAnnounced(s, HideMessageEvent(chat, Hex(s.docs[i].id), user, isHidden), i,
                   if isHidden then AddHidden(user) else PullHidden(user), now, freshId);
  }

  lemma PostStored(s: StoreState, chat: ObjectId, d: MessageEventDetails, author: ObjectId, now: int, freshId: ObjectId)
    requires WellFormed(s) && author in s.users
    ensures var saved := SaveMessage(s, SentMessage(chat, Hex(author), d, now), freshId);
            var doc := Doc(freshId, chat, author, d.content, d.kind, ToMillis(now), ToMillis(now), "sent", [], false);
      && saved.error.None?
      && saved.state.docs == s.docs + [doc]
      && ReadsAs(saved.message, doc, s.users[author])
      && (DocTimesFit(doc) <==> TimesFit(saved.message))
  {
    HexRoundTrip(author);
    UserLookupRefinesDatabase(s, Hex(author));
  }

  /** A new message by a known user is stored last, as sent, with the server's clock and no trace of the web app's
      copy but its text and type. */
  lemma PostReachesStore(s: StoreState, chat: ObjectId, m: Message, author: ObjectId, now: int, freshId: ObjectId)
    requires WellFormed(s) && author in s.users
    ensures var e := NewMessageEvent(Hex(chat), m, Hex(author));
            var d := Doc(freshId, chat, author, m.content, m.kind, ToMillis(now), ToMillis(now), "sent", [], false);
            var h := Deliver(s, e, now, freshId);
            h.state.docs == s.docs + [d] && Announces(s, h, NewMessage, Hex(chat), Hex(author), d)
  {
    var e := NewMessageEvent(Hex(chat), m, Hex(author));
    var d := Doc(freshId, chat, author, m.content, m.kind, ToMillis(now), ToMillis(now), "sent", [], false);
    HexRoundTrip(chat);
    PostStored(s, chat, e.details.fields, author, now, freshId);
    var saved := SaveMessage(s, SentMessage(chat, Hex(author), e.details.fields, now), freshId);
    AfterImageAnnounced(s, e, now, freshId, saved.state, saved.message, d);
  }

  lemma UpdateStored(s: StoreState, i: nat, m: Message, freshId: ObjectId)
    requires WellFormed(s) && i < |s.docs| && m.id == s.docs[i].id && m.id != NIL_ID
    requires Known(s, m.authorId)
    ensures var saved := SaveMessage(s, m, freshId);
      && saved.error.None? && WellFormed(saved.state)
      && saved.state.docs == s.docs[i := FromInternal(m)]
      && ReadsAs(saved.message, FromInternal(m), s.users[FromHex(m.authorId).value])
  {
    UserLookupRefinesDatabase(s, m.authorId);
    FindUnique(s.docs, i);
  }

  /** An update-message event by a known author overwrites the stored message and is always acknowledged once: the
      times it carries were decoded from JSON. */
  lemma UpdateReachesStore(s: StoreState, i: nat, m: Message, chat: string, user: string, now: int, freshId: ObjectId)
    requires WellFormed(s) && i < |s.docs| && m.id == s.docs[i].id && m.id != NIL_ID
    requires Known(s, m.authorId) && HasText(m.createdAt) && HasText(m.modifiedAt)
    ensures var h := Deliver(s, UpdateMessageEvent(chat, m, user), now, freshId);
      && h.acks == 1
      && h.state.docs == s.docs[i := FromInternal(m)] && WellFormed(h.state)
      && ShownToHubs(s, h, UpdateMessage, chat, user, FromInternal(m))
  {
    var e := UpdateMessageEvent(chat, m, user);
    EventRoundTrip(e);
    UpdateStored(s, i, ThroughJson(m), freshId);
    NotificationRoundTrip(UpdateMessage, chat, user, MessageValue(SaveMessage(s, ThroughJson(m), freshId).message));
  }

  // ---- Requests addressed to the message's own chat ----

  /** An edit, a delete and a hide or show that are asked for in the chat of the message, with times that can be
      encoded, do what their notification says: replaying it gives the store's new list in every chat. */
  lemma RequestsFollow(
    s: StoreState, i: nat, content: string, user: string, isHidden: bool, now: int, freshId: ObjectId)
    requires Coherent(s) && i < |s.docs| && DocTimesFit(s.docs[i]) && NewId(s, freshId)
    ensures var chat, id := Hex(s.docs[i].chatId), Hex(s.docs[i].id);
      && RequestFollows(s, EditMessageEvent(chat, id, content), now, freshId)
      && RequestFollows(s, DeleteMessageEvent(chat, id), now, freshId)
      && RequestFollows(s, HideMessageEvent(chat, id, user, isHidden), now, freshId)
  {
    var chat, id := Hex(s.docs[i].chatId), Hex(s.docs[i].id);
    HexRoundTrip(s.docs[i].id);
    FindUnique(s.docs, i);
    OneRequestFollows(s, EditMessageEvent(chat, id, content), now, freshId);
    OneRequestFollows(s, DeleteMessageEvent(chat, id), now, freshId);
    OneRequestFollows(s, HideMessageEvent(chat, id, user, isHidden), now, freshId);
  }

  ghost predicate RequestFollows(s: StoreState, e: ChatEvent, now: int, freshId: ObjectId) {
    Reaches(s, e, now) && Follows(s, Deliver(s, e, now, freshId).state, Deliver(s, e, now, freshId).sent)
  }

  lemma OneRequestFollows(s: StoreState, e: ChatEvent, now: int, freshId: ObjectId)
    requires Coherent(s) && NewId(s, freshId) && Published(e) && e.details.Fields? && Reaches(s, e, now)
    requires e.kind.NewMessage? ==> FromHex(e.chatId).Some?
    ensures RequestFollows(s, e, now, freshId)
  {
    EventRoundTrip(e);
    EventReplaysExactly(s, e, now, freshId);
  }

  /** So does a post by a known user, with the clock in the four-digit years. */
  lemma PostFollows(s: StoreState, chat: ObjectId, m: Message, author: ObjectId, now: int, freshId: ObjectId)
    requires Coherent(s) && author in s.users && NewId(s, freshId) && YEAR_0 <= now < YEAR_10000
    ensures RequestFollows(s, NewMessageEvent(Hex(chat), m, Hex(author)), now, freshId)
  {
    HexRoundTrip(chat);
    OneRequestFollows(s, NewMessageEvent(Hex(chat), m, Hex(author)), now, freshId);
  }

  /** A message whose times do not fit is edited in the store, acknowledged twice and announced to nobody. */
  lemma EditOfLateMessage(s: StoreState, i: nat, chat: string, content: string, now: int, freshId: ObjectId)
    requires WellFormed(s) && i < |s.docs| && !DocTimesFit(s.docs[i])
    ensures var h := Deliver(s, EditMessageEvent(chat, Hex(s.docs[i].id), content), now, freshId);
      && h.acks == 2 && h.sent == []
      && h.state.docs == s.docs[i := s.docs[i].(content := content)]
  {
    EditReachesStore(s, i, chat, content, now, freshId);
  }

  lemma LateTimeIsStoredLate(m: Message)
    ensures DocTimesFit(FromInternal(m)) <==> TimesFit(m)
  {
  }

  /** Such a message is within reach: an update-message event may carry a time whose year has four digits in its own
      zone but not in UTC, where MongoDB returns it. It is stored and announced, and the next edit acknowledges
      twice. */
  lemma LateTimeIsAcknowledgedTwice(
    s: StoreState, i: nat, m: Message, user: string, content: string, now: int, freshId: ObjectId)
    requires WellFormed(s) && i < |s.docs| && m.id == s.docs[i].id && m.id != NIL_ID
    requires Known(s, m.authorId) && HasText(m.createdAt) && HasText(m.modifiedAt) && !TimesFit(m)
    ensures var update := Deliver(s, UpdateMessageEvent(Hex(m.chatId), m, user), now, freshId);
            var edit := EditMessageEvent(Hex(m.chatId), Hex(m.id), content);
            update.acks == 1 && Deliver(update.state, edit, now, freshId).acks == 2
  {
    UpdateReachesStore(s, i, m, Hex(m.chatId), user, now, freshId);
    var update := Deliver(s, UpdateMessageEvent(Hex(m.chatId), m, user), now, freshId);
    LateTimeIsStoredLate(m);
    assert update.state.docs[i] == FromInternal(m);
    EditOfLateMessage(update.state, i, Hex(m.chatId), content, now, freshId);
  }

  // ---- How often a delivery is acknowledged ----

  /** The edit, hide, show or delete finds a message whose times cannot be encoded. */
  predicate FindsLateMessage(s: StoreState, idText: string) {
    && FromHex(idText).Some? && FindDoc(s.docs, FromHex(idText).value).Some?
    && !DocTimesFit(s.docs[FindDoc(s.docs, FromHex(idText).value).value])
  }

  /** What can be told from the event, the store and the clock before handling. */
  predicate AcknowledgedTwice(s: StoreState, e: ChatEvent, now: int) {
    match (e.kind, e.details)
    case (NewMessage, Fields(_)) =>
      FromHex(e.chatId).Some? && Known(s, e.userId) && !(YEAR_0 <= now < YEAR_10000)
    case (EditMessage, Fields(d)) => FindsLateMessage(s, d.id)
    case (HideMessage, Fields(d)) => FindsLateMessage(s, d.id)
    case (DeleteMessage, Fields(d)) => FindsLateMessage(s, d.id)
    case _ => false
  }

  lemma TouchEncodes(s: StoreState, idText: string, t: Touch)
    requires WellFormed(s)
    ensures var o := FromStore(TouchMessage(s, idText, t).1);
            o.Broadcast? && !Encodable(o.details) <==> FindsLateMessage(s, idText)
  {
    TouchAlwaysInvalidates(s, idText, t);
  }

  lemma PostEncodes(s: StoreState, e: ChatEvent, now: int, freshId: ObjectId)
    requires WellFormed(s) && e.kind.NewMessage? && e.details.Fields?
    ensures var o := ApplyEvent(s, e, now, freshId).1;
            o.Broadcast? && !Encodable(o.details) <==> AcknowledgedTwice(s, e, now)
  {
    if FromHex(e.chatId).Some? {
      PostOutcome(s, e, now, freshId);
      UserLookupRefinesDatabase(s, e.userId);
    }
  }

  lemma EventEncodes(s: StoreState, e: ChatEvent, now: int, freshId: ObjectId)
    requires WellFormed(s)
    ensures var o := ApplyEvent(s, e, now, freshId).1;
            o.Broadcast? && !Encodable(o.details) <==> AcknowledgedTwice(s, e, now)
  {
    match (e.kind, e.details)
    case (NewMessage, Fields(_)) => PostEncodes(s, e, now, freshId);
    case (EditMessage, Fields(d)) => TouchEncodes(s, d.id, SetContent(d.content));
    case (HideMessage, Fields(d)) =>
      TouchEncodes(s, d.id, if d.hidden then AddHidden(e.userId) else PullHidden(e.userId));
    case (DeleteMessage, Fields(d)) => TouchEncodes(s, d.id, MarkDeleted);
    case _ =>
  }

  /** For every body at all, whatever the broker does: no acknowledgement exactly for a post to a malformed chat id, two
      exactly for a post by a known user when the clock is out of the four-digit years and for an edit, hide, show or
      delete of a stored message that is, and one otherwise. */
  lemma AcknowledgementsExactly(s: StoreState, body: Json, now: int, freshId: ObjectId, accepted: bool)
    requires WellFormed(s)
    ensures HandleDelivery(s, body, now, freshId, accepted).acks ==
            if PoisonPost(body) then 0
            else if DecodeEvent(body).Ok? && AcknowledgedTwice(s, DecodeEvent(body).value, now) then 2
            else 1
  {
    AckCount(s, body, now, freshId, accepted);
    if DecodeEvent(body).Ok? {
      EventEncodes(s, DecodeEvent(body).value, now, freshId);
    }
  }

  /** A post by an unknown user stores nothing and announces nothing, and is still acknowledged. */
  lemma PostByStranger(s: StoreState, chat: ObjectId, m: Message, author: string, now: int, freshId: ObjectId)
    requires WellFormed(s) && (FromHex(author).Some? ==> FromHex(author).value !in s.users)
    ensures var h := Deliver(s, NewMessageEvent(Hex(chat), m, author), now, freshId);
            h.state == s && h.acks == 1 && h.sent == [] && h.end == ReturnedError
  {
    HexRoundTrip(chat);
    EventRoundTrip(NewMessageEvent(Hex(chat), m, author));
    UserLookupRefinesDatabase(s, author);
  }

  /** A new chat is stored under a new id, and every hub learns that id and the name. */
  lemma NewChatReachesHubs(s: StoreState, name: string, now: int, freshId: ObjectId)
    ensures var h := Deliver(s, AddChatEvent(name), now, freshId);
      && h.state == s.(chats := s.chats + [ChatDoc(freshId, name)])
      && h.acks == 1 && |h.sent| == 1
      && DecodeNotification(EncodeEvent(h.sent[0])) == Ok(ChatAdded(ChatInfo(Hex(freshId), name)))
  {
    EventRoundTrip(AddChatEvent(name));
    ChatNotificationRoundTrip("", "", ChatInfo(Hex(freshId), name));
  }
}

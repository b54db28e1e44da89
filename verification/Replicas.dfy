/** The chat server and any number of web-app hubs: the server handles one delivery at a time and broadcasts its
    notification to the queue of every hub, and each hub consumes its queue at its own pace. */
module Replicas {
  import opened Wrappers
  import opened ObjectIds
  import opened Entities
  import opened Events
  import opened ChatServer
  import opened Store
  import opened Coherence
  import opened Replay
  import opened Views

  /** A chat's list between its load and its show. `missed` is history: what the hub consumed since the load. */
  datatype Loading = Loading(chat: ObjectId, loaded: seq<Message>, missed: seq<ChatEvent>)

  /** What a client shows. All but the first two fields are history: what was loaded, what the hub consumed between the
      load and the show and since the show, and the messages the hub had been notified of at the show. */
  datatype View = View(
    chat: ObjectId, shown: seq<Message>,
    loaded: seq<Message>, missed: seq<ChatEvent>, drawn: seq<ChatEvent>, seen: nat)

  /** A hub: the chats it knows by id, the notifications it has not processed, and what its clients are loading or
      showing. A client shows one chat at a time. */
  datatype Hub = Hub(
    chats: map<string, string>, queue: seq<ChatEvent>, loadings: map<nat, Loading>, views: map<nat, View>)

  /** `unsent` holds the notification of the delivery that was applied last, until it is broadcast. */
  datatype Net = Net(store: StoreState, unsent: seq<ChatEvent>, hubs: map<nat, Hub>)

  datatype Act =
    | Deliver(e: ChatEvent, now: int, freshId: ObjectId)
    | Between(op: Op)
    | FanOut
    | StartHub(h: nat)
    | Consume(h: nat)
    | Load(h: nat, c: nat, chat: ObjectId)
    | Show(h: nat, c: nat)

  /** The ids and names of the stored chats. */
  function ChatMap(chats: seq<ChatDoc>): map<string, string> {
    if chats == [] then map[]
    else ChatMap(chats[..|chats| - 1])[Hex(chats[|chats| - 1].id) := chats[|chats| - 1].name]
  }

  function LearnChat(chats: map<string, string>, n: ChatEvent): map<string, string> {
    if n.kind.NewChat? && n.details.ChatPointer? then chats[n.details.chat.id := n.details.chat.name] else chats
  }

  function LearnAll(chats: map<string, string>, notes: seq<ChatEvent>): map<string, string>
    decreases |notes|
  {
    if notes == [] then chats else LearnAll(LearnChat(chats, notes[0]), notes[1..])
  }

  function Pending(y: Net, h: nat): seq<ChatEvent>
    requires h in y.hubs
  {
    y.hubs[h].queue + y.unsent
  }

  predicate EnabledAct(y: Net, a: Act) {
    match a
    case Deliver(_, _, _) => y.unsent == []
    case Between(op) => InBackground(op)
    case FanOut => true
    case StartHub(h) => h !in y.hubs
    case Consume(h) => h in y.hubs && y.hubs[h].queue != []
    case Load(h, _, chat) => h in y.hubs && Hex(chat) in y.hubs[h].chats
    case Show(h, c) => h in y.hubs && c in y.hubs[h].loadings
  }

  /** The hub draws a notification into the open views; it ignores those of chats it does not know. */
  function Draw(v: View, n: ChatEvent, known: bool): View {
    v.(shown := if known then ApplyNote(v.shown, v.chat, n) else v.shown, drawn := v.drawn + [n])
  }

  function ConsumeOne(hub: Hub): Hub
    requires hub.queue != []
  {
    var n := hub.queue[0];
    Hub(LearnChat(hub.chats, n), hub.queue[1..],
        map c | c in hub.loadings :: hub.loadings[c].(missed := hub.loadings[c].missed + [n]),
        map c | c in hub.views :: Draw(hub.views[c], n, n.chatId in hub.chats))
  }

  /** A client switches to the chat: its old window gets no more messages, and the store's read, from the cache or from
      the database, is what it will show. A read that fails leaves it without either. */
  function StartLoad(hub: Hub, c: nat, chat: ObjectId, read: Result<seq<Message>, StoreError>): Hub {
    hub.(views := hub.views - {c},
         loadings := if read.Err? then hub.loadings - {c}
                     else hub.loadings[c := Loading(chat, VisibleAll(read.value), [])])
  }

  /** The list loaded replaces the window. */
  function ShowLoaded(hub: Hub, c: nat, size: nat, pending: seq<ChatEvent>): Hub
    requires c in hub.loadings
  {
    var l := hub.loadings[c];
    var seen := size - PostCount(pending, l.chat);
    hub.(loadings := hub.loadings - {c},
         views := hub.views[c := View(l.chat, l.loaded, l.loaded, l.missed, [], if seen >= 0 then seen else 0)])
  }

  function NextNet(y: Net, a: Act): Net
    requires EnabledAct(y, a)
  {
    match a
    case Deliver(e, now, freshId) =>
      var (s, o) := ApplyEvent(y.store, e, now, freshId);
      y.(store := s, unsent := NotesOf(e, o))
    case Between(op) => y.(store := Apply(y.store, op))
    case FanOut =>
      y.(unsent := [], hubs := map h | h in y.hubs :: y.hubs[h].(queue := y.hubs[h].queue + y.unsent))
    case StartHub(h) => y.(hubs := y.hubs[h := Hub(ChatMap(y.store.chats), [], map[], map[])])
    case Consume(h) => y.(hubs := y.hubs[h := ConsumeOne(y.hubs[h])])
    case Load(h, c, chat) =>
      var (s, read) := GetMessages(y.store, Hex(chat));
      y.(store := s, hubs := y.hubs[h := StartLoad(y.hubs[h], c, chat, read)])
    case Show(h, c) =>
      var size := |FullView(y.store, y.hubs[h].loadings[c].chat)|;
      y.(hubs := y.hubs[h := ShowLoaded(y.hubs[h], c, size, Pending(y, h))])
  }

  const EMPTY_NET := Net(EMPTY_STORE, [], map[])

  ghost predicate NetRun(y: Net, run: seq<Act>)
    decreases |run|
  {
    run != [] ==> EnabledAct(y, run[0]) && NetRun(NextNet(y, run[0]), run[1..])
  }

  ghost function NetAfter(y: Net, run: seq<Act>): Net
    requires NetRun(y, run)
    decreases |run|
  {
    if run == [] then y else NetAfter(NextNet(y, run[0]), run[1..])
  }

  // ---- Chats: any run, whatever the events ----

  ghost predicate ChatsInv(y: Net) {
    && LearnAll(ChatMap(y.store.chats), y.unsent) == ChatMap(y.store.chats)
    && forall h :: h in y.hubs ==> LearnAll(y.hubs[h].chats, Pending(y, h)) == ChatMap(y.store.chats)
  }

  lemma {:induction false} LearnAllConcat(chats: map<string, string>, a: seq<ChatEvent>, b: seq<ChatEvent>)
    ensures LearnAll(chats, a + b) == LearnAll(LearnAll(chats, a), b)
    decreases |a|
  {
    if a == [] {
      assert a + b == b;
    } else {
      assert (a + b)[1..] == a[1..] + b;
      LearnAllConcat(LearnChat(chats, a[0]), a[1..], b);
    }
  }

  lemma LearnOne(chats: map<string, string>, n: ChatEvent)
    ensures LearnAll(chats, [n]) == LearnChat(chats, n)
  {
  }

  lemma SaveKeepsChats(s: StoreState, m: Message, freshId: ObjectId)
    ensures SaveMessage(s, m, freshId).state.chats == s.chats
  {
  }

  lemma TouchKeepsChats(s: StoreState, idText: string, t: Touch)
    ensures TouchMessage(s, idText, t).0.chats == s.chats
  {
  }

  /** Only a new-chat event changes the stored chats, and only its notification names one. */
  lemma OtherEventsKeepChats(s: StoreState, e: ChatEvent, now: int, freshId: ObjectId)
    requires !(e.kind.NewChat? && e.details.ChatPointer?)
    ensures var (s', o) := ApplyEvent(s, e, now, freshId);
            s'.chats == s.chats && (o.Broadcast? ==> !o.details.ChatPointer?)
  {
    match (e.kind, e.details)
    case (NewMessage, Fields(d)) =>
      if FromHex(e.chatId).Some? {
        SaveKeepsChats(s, SentMessage(FromHex(e.chatId).value, e.userId, d, now), freshId);
      }
    case (UpdateMessage, MessageValue(m)) => SaveKeepsChats(s, m, freshId);
    case (EditMessage, Fields(d)) => TouchKeepsChats(s, d.id, SetContent(d.content));
    case (HideMessage, Fields(d)) =>
      TouchKeepsChats(s, d.id, if d.hidden then AddHidden(e.userId) else PullHidden(e.userId));
    case (DeleteMessage, Fields(d)) => TouchKeepsChats(s, d.id, MarkDeleted);
    case _ =>
  }

  lemma DeliverChats(s: StoreState, e: ChatEvent, now: int, freshId: ObjectId)
    ensures var (s', o) := ApplyEvent(s, e, now, freshId);
      && LearnAll(ChatMap(s.chats), NotesOf(e, o)) == ChatMap(s'.chats)
      && LearnAll(ChatMap(s'.chats), NotesOf(e, o)) == ChatMap(s'.chats)
  {
    var (s', o) := ApplyEvent(s, e, now, freshId);
    if o.Broadcast? {
      LearnOne(ChatMap(s.chats), e.(details := o.details));
      LearnOne(ChatMap(s'.chats), e.(details := o.details));
    }
    if e.kind.NewChat? && e.details.ChatPointer? {
      assert s'.chats[..|s'.chats| - 1] == s.chats;
    } else {
      OtherEventsKeepChats(s, e, now, freshId);
    }
  }

  lemma BackgroundKeepsChats(s: StoreState, op: Op)
    requires InBackground(op)
    ensures Apply(s, op).chats == s.chats
  {
  }

  lemma DeliverKeepsChatsInv(y: Net, e: ChatEvent, now: int, freshId: ObjectId)
    requires ChatsInv(y) && EnabledAct(y, Deliver(e, now, freshId))
    ensures ChatsInv(NextNet(y, Deliver(e, now, freshId)))
  {
    var y' := NextNet(y, Deliver(e, now, freshId));
    DeliverChats(y.store, e, now, freshId);
    forall h | h in y'.hubs ensures LearnAll(y'.hubs[h].chats, Pending(y', h)) == ChatMap(y'.store.chats) {
      assert Pending(y', h) == Pending(y, h) + y'.unsent;
      LearnAllConcat(y.hubs[h].chats, Pending(y, h), y'.unsent);
    }
  }

  lemma ConsumeKeepsChats(y: Net, h: nat)
    requires EnabledAct(y, Consume(h))
    ensures var y' := NextNet(y, Consume(h));
            LearnAll(y'.hubs[h].chats, Pending(y', h)) == LearnAll(y.hubs[h].chats, Pending(y, h))
  {
    assert Pending(NextNet(y, Consume(h)), h) == Pending(y, h)[1..] && Pending(y, h)[0] == y.hubs[h].queue[0];
  }

  lemma OtherActKeepsChats(y: Net, a: Act, h: nat)
    requires ChatsInv(y) && EnabledAct(y, a) && !a.Deliver? && !a.Consume? && h in NextNet(y, a).hubs
    ensures var y' := NextNet(y, a);
            LearnAll(y'.hubs[h].chats, Pending(y', h)) == ChatMap(y.store.chats)
  {
    var y' := NextNet(y, a);
    if a == StartHub(h) {
      assert Pending(y', h) == y.unsent;
    } else {
      assert Pending(y', h) == Pending(y, h) && y'.hubs[h].chats == y.hubs[h].chats;
    }
  }

  lemma ConsumeKeepsChatsInv(y: Net, h: nat)
    requires ChatsInv(y) && EnabledAct(y, Consume(h))
    ensures ChatsInv(NextNet(y, Consume(h)))
  {
    var y' := NextNet(y, Consume(h));
    ConsumeKeepsChats(y, h);
    forall g | g in y'.hubs && g != h ensures LearnAll(y'.hubs[g].chats, Pending(y', g)) == ChatMap(y.store.chats) {
      assert Pending(y', g) == Pending(y, g);
    }
  }

  lemma ActKeepsChatsInv(y: Net, a: Act)
    requires ChatsInv(y) && EnabledAct(y, a)
    ensures ChatsInv(NextNet(y, a))
  {
    if a.Deliver? {
      DeliverKeepsChatsInv(y, a.e, a.now, a.freshId);
    } else if a.Consume? {
      ConsumeKeepsChatsInv(y, a.h);
    } else {
      if a.Between? {
        BackgroundKeepsChats(y.store, a.op);
      }
      forall h | h in NextNet(y, a).hubs
        ensures LearnAll(NextNet(y, a).hubs[h].chats, Pending(NextNet(y, a), h)) == ChatMap(y.store.chats)
      {
        OtherActKeepsChats(y, a, h);
      }
    }
  }

  lemma {:induction false} RunKeepsChatsInv(y: Net, run: seq<Act>)
    requires ChatsInv(y) && NetRun(y, run)
    ensures ChatsInv(NetAfter(y, run))
    decreases |run|
  {
    if run == [] {
    } else {
      ActKeepsChatsInv(y, run[0]);
      RunKeepsChatsInv(NextNet(y, run[0]), run[1..]);
    }
  }

  /** Main result, for any events at all and at every moment of every run: the chats of a hub and their names, with its
      pending notifications learnt, are those of the store. */
  lemma ChatsConverge(run: seq<Act>, h: nat)
    requires NetRun(EMPTY_NET, run) && h in NetAfter(EMPTY_NET, run).hubs
    ensures var y := NetAfter(EMPTY_NET, run);
      && LearnAll(y.hubs[h].chats, Pending(y, h)) == ChatMap(y.store.chats)
      && (Pending(y, h) == [] ==> y.hubs[h].chats == ChatMap(y.store.chats))
  {
    RunKeepsChatsInv(EMPTY_NET, run);
  }

  lemma {:induction false} LearnedIds(chats: map<string, string>, notes: seq<ChatEvent>)
    ensures LearnAll(chats, notes).Keys ==
            chats.Keys + set n | n in notes && n.kind.NewChat? && n.details.ChatPointer? :: n.details.chat.id
    decreases |notes|
  {
    if notes == [] {
    } else {
      LearnedIds(LearnChat(chats, notes[0]), notes[1..]);
      assert notes == [notes[0]] + notes[1..];
    }
  }

  /** The chat ids in a hub, together with those in its pending new-chat notifications, are the ids in the store. */
  lemma ChatIdsConverge(run: seq<Act>, h: nat)
    requires NetRun(EMPTY_NET, run) && h in NetAfter(EMPTY_NET, run).hubs
    ensures var y := NetAfter(EMPTY_NET, run);
            y.hubs[h].chats.Keys +
            (set n | n in Pending(y, h) && n.kind.NewChat? && n.details.ChatPointer? :: n.details.chat.id)
            == ChatMap(y.store.chats).Keys
  {
    var y := NetAfter(EMPTY_NET, run);
    ChatsConverge(run, h);
    LearnedIds(y.hubs[h].chats, Pending(y, h));
  }

  // ---- Views: runs in which every notification says what its event did ----

  ghost predicate NewEverywhere(y: Net, id: ObjectId) {
    forall h, i :: h in y.hubs && 0 <= i < |Pending(y, h)| && MessageOfNote(Pending(y, h)[i]).Some? ==>
      MessageOfNote(Pending(y, h)[i]).value.id != id
  }

  ghost predicate FaithfulAct(y: Net, a: Act) {
    a.Deliver? ==> NewId(y.store, a.freshId) && NewEverywhere(y, a.freshId) && Reaches(y.store, a.e, a.now)
  }

  ghost predicate FaithfulRun(y: Net, run: seq<Act>)
    decreases |run|
  {
    run != [] ==> EnabledAct(y, run[0]) && FaithfulAct(y, run[0]) && FaithfulRun(NextNet(y, run[0]), run[1..])
  }

  ghost predicate LoadingOk(l: Loading, chats: map<string, string>, pending: seq<ChatEvent>, full: seq<Message>) {
    Hex(l.chat) in chats && LeadsTo(l.loaded, l.chat, l.missed + pending, full)
  }

  ghost predicate ViewOk(v: View, chats: map<string, string>, pending: seq<ChatEvent>, full: seq<Message>) {
    && Hex(v.chat) in chats
    && v.shown == Replayed(v.loaded, v.chat, v.drawn)
    && LeadsTo(v.loaded, v.chat, v.missed + (v.drawn + pending), full)
    && EndsWith(v.seen, v.chat, v.drawn + pending, full)
  }

  ghost predicate QueueOk(pending: seq<ChatEvent>, s: StoreState) {
    forall chat: ObjectId :: Explained(pending, chat, FullView(s, chat)) && Ordered(pending, chat)
  }

  ghost predicate HubOk(hub: Hub, unsent: seq<ChatEvent>, s: StoreState) {
    var pending := hub.queue + unsent;
    && QueueOk(pending, s)
    && (forall c :: c in hub.loadings ==>
          LoadingOk(hub.loadings[c], hub.chats, pending, FullView(s, hub.loadings[c].chat)))
    && (forall c :: c in hub.views ==> ViewOk(hub.views[c], hub.chats, pending, FullView(s, hub.views[c].chat)))
  }

  ghost predicate NetInv(y: Net) {
    && Coherent(y.store)
    && QueueOk(y.unsent, y.store)
    && (forall h :: h in y.hubs ==> HubOk(y.hubs[h], y.unsent, y.store))
  }

  lemma ExplainedOn(notes: seq<ChatEvent>, more: seq<ChatEvent>, chat: ObjectId, full: seq<Message>)
    requires Explained(notes, chat, full)
    ensures Explained(notes + more, chat, Replayed(full, chat, more))
  {
    var before :| Replayed(before, chat, notes) == full;
    ReplayedConcat(before, chat, notes, more);
  }

  lemma ExplainedRest(notes: seq<ChatEvent>, chat: ObjectId, full: seq<Message>)
    requires notes != [] && Explained(notes, chat, full) && Ordered(notes, chat)
    ensures Explained(notes[1..], chat, full) && Ordered(notes[1..], chat)
  {
    var before :| Replayed(before, chat, notes) == full;
    assert Replayed(ApplyNote(before, chat, notes[0]), chat, notes[1..]) == full;
  }

  lemma NothingIsExplained(chat: ObjectId, full: seq<Message>)
    ensures Explained([], chat, full) && Ordered([], chat)
  {
    assert Replayed(full, chat, []) == full;
  }

  /** The notification of a post carries the new id. */
  lemma PostNoteIsNew(s: StoreState, e: ChatEvent, now: int, freshId: ObjectId, chat: ObjectId)
    ensures var notes := NotesOf(e, ApplyEvent(s, e, now, freshId).1);
            |notes| <= 1 && (notes != [] && PostsTo(notes[0], chat) ==> MessageOfNote(notes[0]).value.id == freshId)
  {
    if e.kind.NewMessage? && e.details.Fields? && FromHex(e.chatId).Some? {
      PostOutcome(s, e, now, freshId);
    }
  }

  // ---- One hub, one step ----

  lemma LoadingOn(
    l: Loading, chats: map<string, string>, pending: seq<ChatEvent>, full: seq<Message>, more: seq<ChatEvent>)
    requires LoadingOk(l, chats, pending, full)
    ensures LoadingOk(l, chats, pending + more, Replayed(full, l.chat, more))
  {
    Shift([], l.missed, pending, more);
    LeadsOn(l.loaded, l.chat, l.missed + pending, more, full);
  }

  lemma Shift<T>(a: seq<T>, b: seq<T>, c: seq<T>, d: seq<T>)
    ensures b + c + d == b + (c + d)
    ensures a + (b + c) + d == a + (b + (c + d))
  {
  }

  lemma ViewOn(v: View, chats: map<string, string>, pending: seq<ChatEvent>, full: seq<Message>, more: seq<ChatEvent>)
    requires ViewOk(v, chats, pending, full)
    ensures ViewOk(v, chats, pending + more, Replayed(full, v.chat, more))
  {
    Shift(v.missed, v.drawn, pending, more);
    LeadsOn(v.loaded, v.chat, v.missed + (v.drawn + pending), more, full);
    EndsOn(v.seen, v.chat, v.drawn + pending, more, full);
  }

  lemma OrderedOn(notes: seq<ChatEvent>, more: seq<ChatEvent>, chat: ObjectId, freshId: ObjectId)
    requires Ordered(notes, chat) && |more| <= 1
    requires forall i :: 0 <= i < |notes| && MessageOfNote(notes[i]).Some? ==>
               MessageOfNote(notes[i]).value.id != freshId
    requires more != [] && PostsTo(more[0], chat) ==> MessageOfNote(more[0]).value.id == freshId
    ensures Ordered(notes + more, chat)
  {
  }

  lemma HubAfterDelivery(hub: Hub, s: StoreState, s': StoreState, notes: seq<ChatEvent>, freshId: ObjectId)
    requires HubOk(hub, [], s) && Follows(s, s', notes) && |notes| <= 1
    requires forall i :: 0 <= i < |hub.queue| && MessageOfNote(hub.queue[i]).Some? ==>
               MessageOfNote(hub.queue[i]).value.id != freshId
    requires forall chat: ObjectId :: notes != [] && PostsTo(notes[0], chat) ==>
               MessageOfNote(notes[0]).value.id == freshId
    ensures HubOk(hub, notes, s')
  {
    assert hub.queue + [] == hub.queue;
    forall chat: ObjectId
      ensures Explained(hub.queue + notes, chat, FullView(s', chat)) && Ordered(hub.queue + notes, chat)
    {
      assert Explained(hub.queue, chat, FullView(s, chat)) && Ordered(hub.queue, chat);
      ExplainedOn(hub.queue, notes, chat, FullView(s, chat));
      OrderedOn(hub.queue, notes, chat, freshId);
    }
    forall c | c in hub.loadings
      ensures LoadingOk(hub.loadings[c], hub.chats, hub.queue + notes, FullView(s', hub.loadings[c].chat))
    {
      LoadingOn(hub.loadings[c], hub.chats, hub.queue, FullView(s, hub.loadings[c].chat), notes);
    }
    forall c | c in hub.views
      ensures ViewOk(hub.views[c], hub.chats, hub.queue + notes, FullView(s', hub.views[c].chat))
    {
      ViewOn(hub.views[c], hub.chats, hub.queue, FullView(s, hub.views[c].chat), notes);
    }
  }

  ghost predicate SameViews(s: StoreState, s': StoreState) {
    forall chat: ObjectId :: FullView(s', chat) == FullView(s, chat)
  }

  lemma HubAfterRead(hub: Hub, unsent: seq<ChatEvent>, s: StoreState, s': StoreState)
    requires HubOk(hub, unsent, s) && SameViews(s, s')
    ensures HubOk(hub, unsent, s')
  {
    var pending := hub.queue + unsent;
    forall chat: ObjectId ensures Explained(pending, chat, FullView(s', chat)) && Ordered(pending, chat) {
      assert Explained(pending, chat, FullView(s, chat)) && Ordered(pending, chat);
    }
  }

  lemma HubAfterFanOut(hub: Hub, unsent: seq<ChatEvent>, s: StoreState)
    requires HubOk(hub, unsent, s)
    ensures HubOk(hub.(queue := hub.queue + unsent), [], s)
  {
    assert hub.queue + unsent + [] == hub.queue + unsent;
  }

  lemma DrawnOk(v: View, chats: map<string, string>, n: ChatEvent, rest: seq<ChatEvent>, full: seq<Message>)
    requires ViewOk(v, chats, [n] + rest, full)
    ensures ViewOk(Draw(v, n, n.chatId in chats), chats, rest, full)
  {
    Shift(v.missed, v.drawn, [n], rest);
    ReplayedConcat(v.loaded, v.chat, v.drawn, [n]);
    ReplayedOne(v.shown, v.chat, n);
  }

  lemma MissedOk(l: Loading, chats: map<string, string>, n: ChatEvent, rest: seq<ChatEvent>, full: seq<Message>)
    requires LoadingOk(l, chats, [n] + rest, full)
    ensures LoadingOk(l.(missed := l.missed + [n]), chats, rest, full)
  {
    Shift([], l.missed, [n], rest);
  }

  lemma QueueAfterConsume(n: ChatEvent, rest: seq<ChatEvent>, s: StoreState)
    requires QueueOk([n] + rest, s)
    ensures QueueOk(rest, s)
  {
    assert ([n] + rest)[1..] == rest;
    forall chat: ObjectId ensures Explained(rest, chat, FullView(s, chat)) && Ordered(rest, chat) {
      ExplainedRest([n] + rest, chat, FullView(s, chat));
    }
  }

  lemma HubAfterConsume(hub: Hub, unsent: seq<ChatEvent>, s: StoreState)
    requires HubOk(hub, unsent, s) && hub.queue != []
    ensures HubOk(ConsumeOne(hub), unsent, s)
  {
    var n, rest := hub.queue[0], hub.queue[1..] + unsent;
    assert hub.queue + unsent == [n] + rest;
    QueueAfterConsume(n, rest, s);
    forall c | c in hub.loadings
      ensures LoadingOk(ConsumeOne(hub).loadings[c], hub.chats, rest, FullView(s, hub.loadings[c].chat))
    {
      MissedOk(hub.loadings[c], hub.chats, n, rest, FullView(s, hub.loadings[c].chat));
    }
    forall c | c in hub.views
      ensures ViewOk(ConsumeOne(hub).views[c], hub.chats, rest, FullView(s, hub.views[c].chat))
    {
      DrawnOk(hub.views[c], hub.chats, n, rest, FullView(s, hub.views[c].chat));
    }
  }

  /** What a load holds: all of the chat after a miss, its first hundred messages after a hit. */
  lemma LoadHoldsPrefix(s: StoreState, chat: ObjectId)
    requires Coherent(s)
    ensures var (s', read) := GetMessages(s, Hex(chat));
            var full := FullView(s, chat);
      && read.Ok? && SameViews(s, s')
      && |read.value| == (if Hex(chat) in s.lists && |full| > CACHE_LIMIT then CACHE_LIMIT else |full|)
      && VisibleAll(read.value) == full[..|read.value|]
  {
    ReadReturnsViewOrHead(s, chat);
    var s' := GetMessages(s, Hex(chat)).0;
    assert VisibleAll(Head(ChatView(s, chat))) == Head(FullView(s, chat));
    forall c: ObjectId ensures FullView(s', c) == FullView(s, c) {
      UntouchedViews(s, s', c);
    }
  }

  lemma LoadedOk(s: StoreState, chats: map<string, string>, pending: seq<ChatEvent>, chat: ObjectId, loaded: nat)
    requires QueueOk(pending, s) && Hex(chat) in chats && loaded <= |FullView(s, chat)|
    ensures LoadingOk(Loading(chat, FullView(s, chat)[..loaded], []), chats, pending, FullView(s, chat))
  {
    assert Explained(pending, chat, FullView(s, chat)) && Ordered(pending, chat);
    LoadedLeads(pending, chat, FullView(s, chat), loaded);
    assert [] + pending == pending;
  }

  lemma HubAfterLoad(hub: Hub, unsent: seq<ChatEvent>, s: StoreState, c: nat, chat: ObjectId)
    requires Coherent(s) && HubOk(hub, unsent, s) && Hex(chat) in hub.chats
    ensures var (s', read) := GetMessages(s, Hex(chat));
            HubOk(StartLoad(hub, c, chat, read), unsent, s')
  {
    var (s', read) := GetMessages(s, Hex(chat));
    LoadHoldsPrefix(s, chat);
    HubAfterRead(hub, unsent, s, s');
    LoadedOk(s', hub.chats, hub.queue + unsent, chat, |read.value|);
  }

  lemma ShownOk(l: Loading, chats: map<string, string>, pending: seq<ChatEvent>, full: seq<Message>)
    requires LoadingOk(l, chats, pending, full) && Explained(pending, l.chat, full)
    ensures PostCount(pending, l.chat) <= |full|
    ensures var seen := |full| - PostCount(pending, l.chat);
            ViewOk(View(l.chat, l.loaded, l.loaded, l.missed, [], seen), chats, pending, full)
  {
    PostedEnds(pending, l.chat, full);
    assert [] + pending == pending;
  }

  lemma HubAfterShow(hub: Hub, unsent: seq<ChatEvent>, s: StoreState, c: nat)
    requires HubOk(hub, unsent, s) && c in hub.loadings
    ensures HubOk(ShowLoaded(hub, c, |FullView(s, hub.loadings[c].chat)|, hub.queue + unsent), unsent, s)
  {
    var l := hub.loadings[c];
    assert Explained(hub.queue + unsent, l.chat, FullView(s, l.chat));
    ShownOk(l, hub.chats, hub.queue + unsent, FullView(s, l.chat));
  }

  lemma FreshHubOk(chats: map<string, string>, unsent: seq<ChatEvent>, s: StoreState)
    requires QueueOk(unsent, s)
    ensures HubOk(Hub(chats, [], map[], map[]), unsent, s)
  {
    assert [] + unsent == unsent;
  }

  // ---- The whole net ----

  lemma NothingPendingOk(s: StoreState)
    ensures QueueOk([], s)
  {
    forall chat: ObjectId ensures Explained([], chat, FullView(s, chat)) && Ordered([], chat) {
      NothingIsExplained(chat, FullView(s, chat));
    }
  }

  lemma DeliverKeepsInv(y: Net, e: ChatEvent, now: int, freshId: ObjectId)
    requires NetInv(y) && EnabledAct(y, Deliver(e, now, freshId)) && FaithfulAct(y, Deliver(e, now, freshId))
    ensures NetInv(NextNet(y, Deliver(e, now, freshId)))
  {
    var y' := NextNet(y, Deliver(e, now, freshId));
    EventReplaysExactly(y.store, e, now, freshId);
    ReachingEventKeepsCoherence(y.store, e, now, freshId);
    PostNoteIsNew(y.store, e, now, freshId, NIL_ID);
    forall chat: ObjectId
      ensures Explained(y'.unsent, chat, FullView(y'.store, chat)) && Ordered(y'.unsent, chat)
      ensures y'.unsent != [] && PostsTo(y'.unsent[0], chat) ==> MessageOfNote(y'.unsent[0]).value.id == freshId
    {
      PostNoteIsNew(y.store, e, now, freshId, chat);
      assert Replayed(FullView(y.store, chat), chat, y'.unsent) == FullView(y'.store, chat);
    }
    forall h | h in y.hubs ensures HubOk(y.hubs[h], y'.unsent, y'.store) {
      assert Pending(y, h) == y.hubs[h].queue;
      HubAfterDelivery(y.hubs[h], y.store, y'.store, y'.unsent, freshId);
    }
  }

  lemma BackgroundKeepsInv(y: Net, op: Op)
    requires NetInv(y) && InBackground(op)
    ensures NetInv(y.(store := Apply(y.store, op)))
  {
    var s' := Apply(y.store, op);
    forall chat: ObjectId
      ensures FullView(s', chat) == FullView(y.store, chat)
      ensures Explained(y.unsent, chat, FullView(s', chat)) && Ordered(y.unsent, chat)
    {
      EntryReplays(y.store, Background(op), chat);
      assert Explained(y.unsent, chat, FullView(y.store, chat)) && Ordered(y.unsent, chat);
    }
    EntryReplays(y.store, Background(op), NIL_ID);
    forall h | h in y.hubs ensures HubOk(y.hubs[h], y.unsent, s') {
      HubAfterRead(y.hubs[h], y.unsent, y.store, s');
    }
  }

  lemma FanOutKeepsInv(y: Net)
    requires NetInv(y)
    ensures NetInv(NextNet(y, FanOut))
  {
    NothingPendingOk(y.store);
    forall h | h in y.hubs ensures HubOk(NextNet(y, FanOut).hubs[h], [], y.store) {
      HubAfterFanOut(y.hubs[h], y.unsent, y.store);
    }
  }

  lemma LoadKeepsInv(y: Net, h: nat, c: nat, chat: ObjectId)
    requires NetInv(y) && EnabledAct(y, Load(h, c, chat))
    ensures NetInv(NextNet(y, Load(h, c, chat)))
  {
    BackgroundKeepsInv(y, Read(Hex(chat)));
    HubAfterLoad(y.hubs[h], y.unsent, y.store, c, chat);
  }

  lemma ActKeepsInv(y: Net, a: Act)
    requires NetInv(y) && EnabledAct(y, a) && FaithfulAct(y, a)
    ensures NetInv(NextNet(y, a))
  {
    match a
    case Deliver(e, now, freshId) => DeliverKeepsInv(y, e, now, freshId);
    case Between(op) => BackgroundKeepsInv(y, op);
    case FanOut => FanOutKeepsInv(y);
    case StartHub(h) => FreshHubOk(ChatMap(y.store.chats), y.unsent, y.store);
    case Consume(h) => HubAfterConsume(y.hubs[h], y.unsent, y.store);
    case Load(h, c, chat) => LoadKeepsInv(y, h, c, chat);
    case Show(h, c) => HubAfterShow(y.hubs[h], y.unsent, y.store, c);
  }

  lemma {:induction false} RunKeepsNetInv(y: Net, run: seq<Act>)
    requires NetInv(y) && FaithfulRun(y, run)
    ensures NetRun(y, run) && NetInv(NetAfter(y, run))
    decreases |run|
  {
    if run == [] {
    } else {
      ActKeepsInv(y, run[0]);
      RunKeepsNetInv(NextNet(y, run[0]), run[1..]);
    }
  }

  lemma EmptyNetInv()
    ensures NetInv(EMPTY_NET)
  {
    EmptyStoreIsCoherent();
    NothingPendingOk(EMPTY_STORE);
  }

  /** What a view becomes, once what is pending is drawn as well. */
  ghost predicate Becomes(v: View, pending: seq<ChatEvent>, full: seq<Message>) {
    var after := v.drawn + pending;
    && v.seen <= |full|
    && Replayed(v.shown, v.chat, pending) == FinalAll(after, v.chat, v.loaded) + full[v.seen..]
    && (Replayed(v.shown, v.chat, pending) == full <==>
          |v.loaded| == v.seen && AllCaught(v.loaded, v.chat, v.missed, after))
  }

  lemma ViewBecomes(v: View, chats: map<string, string>, pending: seq<ChatEvent>, full: seq<Message>)
    requires ViewOk(v, chats, pending, full)
    ensures Becomes(v, pending, full)
  {
    ReplayedConcat(v.loaded, v.chat, v.drawn, pending);
    EndsCount(v.seen, v.chat, v.drawn + pending, full);
    LoadingIsSafeExactly(v.loaded, v.chat, v.missed, v.drawn + pending, full);
  }

  /** Main result, at every moment of every run whose notifications say what their events did, for every client: what
      it shows, with the pending notifications drawn, is what it loaded, at the last replacements since the show,
      followed by every message its hub was notified of since the show. It is the store's list exactly when it had
      loaded the messages its hub was notified of at the show, and no replacement consumed between load and show is
      missing for good. */
  lemma ViewsConverge(run: seq<Act>, h: nat, c: nat)
    requires FaithfulRun(EMPTY_NET, run)
    ensures NetRun(EMPTY_NET, run)
    ensures var y := NetAfter(EMPTY_NET, run);
            h in y.hubs && c in y.hubs[h].views ==>
              Becomes(y.hubs[h].views[c], Pending(y, h), FullView(y.store, y.hubs[h].views[c].chat))
  {
    EmptyNetInv();
    RunKeepsNetInv(EMPTY_NET, run);
    var y := NetAfter(EMPTY_NET, run);
    if h in y.hubs && c in y.hubs[h].views {
      var v := y.hubs[h].views[c];
      assert HubOk(y.hubs[h], y.unsent, y.store);
      ViewBecomes(v, y.hubs[h].chats, Pending(y, h), FullView(y.store, v.chat));
    }
  }

  /** Nothing has changed for any other client of any hub, nor what each hub knows and has still to consume. */
  ghost predicate SameForOthers(y: Net, y': Net, h: nat, c: nat) {
    && y'.unsent == y.unsent && y'.hubs.Keys == y.hubs.Keys
    && (forall k :: k in y.hubs && k != h ==> y'.hubs[k] == y.hubs[k])
    && h in y.hubs && y'.hubs[h].chats == y.hubs[h].chats && y'.hubs[h].queue == y.hubs[h].queue
    && y'.hubs[h].loadings - {c} == y.hubs[h].loadings - {c} && y'.hubs[h].views - {c} == y.hubs[h].views - {c}
  }

  lemma LoadSparesOthers(y: Net, h: nat, c: nat, chat: ObjectId)
    requires EnabledAct(y, Load(h, c, chat))
    ensures SameForOthers(y, NextNet(y, Load(h, c, chat)), h, c) && c !in NextNet(y, Load(h, c, chat)).hubs[h].views
  {
  }

  lemma ShowSparesOthers(y: Net, h: nat, c: nat)
    requires EnabledAct(y, Show(h, c))
    ensures SameForOthers(y, NextNet(y, Show(h, c)), h, c) && c !in NextNet(y, Show(h, c)).hubs[h].loadings
  {
  }

  lemma LoadFinds(y: Net, h: nat, c: nat, chat: ObjectId)
    requires EnabledAct(y, Load(h, c, chat)) && GetMessages(y.store, Hex(chat)).1.Ok?
    ensures var loadings := NextNet(y, Load(h, c, chat)).hubs[h].loadings;
            c in loadings && loadings[c] == Loading(chat, VisibleAll(GetMessages(y.store, Hex(chat)).1.value), [])
  {
  }

  lemma ShowFinds(y: Net, h: nat, c: nat)
    requires EnabledAct(y, Show(h, c))
    ensures var l, views := y.hubs[h].loadings[c], NextNet(y, Show(h, c)).hubs[h].views;
            var seen := |FullView(y.store, l.chat)| - PostCount(Pending(y, h), l.chat);
            c in views && views[c] == View(l.chat, l.loaded, l.loaded, l.missed, [], if seen >= 0 then seen else 0)
  {
  }

  /** What a load holds, in every such run: all of the chat, or the hundred that are cached; and nothing missed yet. The
      client's old window is closed and no other is touched. */
  lemma WhatALoadHolds(run: seq<Act>, h: nat, c: nat, chat: ObjectId)
    requires FaithfulRun(EMPTY_NET, run) && NetRun(EMPTY_NET, run)
    requires EnabledAct(NetAfter(EMPTY_NET, run), Load(h, c, chat))
    ensures var y := NetAfter(EMPTY_NET, run);
            var full := FullView(y.store, chat);
            var size := if Hex(chat) in y.store.lists && |full| > 100 then 100 else |full|;
            var y' := NextNet(y, Load(h, c, chat));
      && c in y'.hubs[h].loadings && y'.hubs[h].loadings[c] == Loading(chat, full[..size], [])
      && c !in y'.hubs[h].views && SameForOthers(y, y', h, c)
  {
    EmptyNetInv();
    RunKeepsNetInv(EMPTY_NET, run);
    var y := NetAfter(EMPTY_NET, run);
    LoadHoldsPrefix(y.store, chat);
    LoadFinds(y, h, c, chat);
    LoadSparesOthers(y, h, c, chat);
  }

  /** What a show finds, in every such run: the list as loaded, against all but the posts still pending then. */
  lemma WhatAShowFinds(run: seq<Act>, h: nat, c: nat)
    requires FaithfulRun(EMPTY_NET, run) && NetRun(EMPTY_NET, run)
    requires EnabledAct(NetAfter(EMPTY_NET, run), Show(h, c))
    ensures var y := NetAfter(EMPTY_NET, run);
            var l := y.hubs[h].loadings[c];
            var y' := NextNet(y, Show(h, c));
            var views := y'.hubs[h].views;
      && c in views && views[c].chat == l.chat && c !in y'.hubs[h].loadings && SameForOthers(y, y', h, c)
      && views[c].loaded == views[c].shown == l.loaded && views[c].missed == l.missed && views[c].drawn == []
      && views[c].seen == |FullView(y.store, l.chat)| - PostCount(Pending(y, h), l.chat)
  {
    EmptyNetInv();
    RunKeepsNetInv(EMPTY_NET, run);
    var y := NetAfter(EMPTY_NET, run);
    assert HubOk(y.hubs[h], y.unsent, y.store);
    var l := y.hubs[h].loadings[c];
    assert Explained(Pending(y, h), l.chat, FullView(y.store, l.chat));
    PostedEnds(Pending(y, h), l.chat, FullView(y.store, l.chat));
    ShowFinds(y, h, c);
    ShowSparesOthers(y, h, c);
  }
}

/** The hub under concurrency: its operations split where they take and release the chats lock and each chat's own
    lock, with new-chat notifications arriving whenever the chats lock is free. The client-metas lock serialises the
    three client operations, so at most one of them is under way. */
module HubSteps {
  import opened Wrappers
  import opened HubState

  /** The client operation that holds the metas lock, and where it stands. */
  datatype Task =
    | Entering(chat: string, c: Client)                     // its metadata exists
    | Left(chat: string, c: Client)                         // disconnected from its current chat
    | Sweeping(chat: string, c: Client, todo: set<string>)  // holds the chats lock, disconnecting everywhere
    | Joining(chat: string, c: Client)                      // holds the chats lock, about to connect
    | Recording(chat: string, c: Client)                    // holds the chats lock, connected
    | Leaving(c: Client)                                    // about to disconnect from its current chat
    | Removing(c: Client)                                   // holds the chats lock, about to clear its current chat
    | Forgetting(c: Client)                                 // holds the chats lock, about to drop the metadata

  /** `covered` is history: for each id, the chats it was put into by an initial connection or entered later, since its
      last removal, and that were not replaced since. */
  datatype System = System(hub: State, holder: Option<Task>, covered: map<string, set<string>>, history: History)

  /** A client id in a chat. */
  datatype Slot = Slot(id: string, chat: string)

  /** `brought`: the client with which the last step on this id put it into this chat, until it was removed or the chat
      replaced. `firsts`: the client of the connection with which the metadata of this id began. */
  datatype History = History(brought: map<Slot, Client>, firsts: map<string, Client>)

  function Bring(y: System, chat: string, c: Client): History {
    if chat in y.hub.chats then y.history.(brought := y.history.brought[Slot(c.id, chat) := c]) else y.history
  }

  function TakeOut(y: System, chat: string, id: string): History {
    y.history.(brought := y.history.brought - {Slot(id, chat)})
  }

  function Open(y: System, c: Client): History {
    if c.id in y.history.firsts then y.history else y.history.(firsts := y.history.firsts[c.id := c])
  }

  datatype Action =
    | StartConnect(chat: string, c: Client)
    | StartDisconnect(c: Client)
    | StartRemove(c: Client)
    | Advance
    | SweepOne(chat: string)
    | ChatArrives(chat: string)

  predicate HoldsChatsLock(t: Task) {
    t.Sweeping? || t.Joining? || t.Recording? || t.Removing? || t.Forgetting?
  }

  predicate Enabled(y: System, a: Action) {
    match a
    case StartConnect(_, _) => y.holder.None?
    case StartDisconnect(_) => y.holder.None?
    case StartRemove(_) => y.holder.None?
    case Advance => y.holder.Some? && (y.holder.value.Sweeping? ==> y.holder.value.todo == {})
    case SweepOne(k) => y.holder.Some? && y.holder.value.Sweeping? && k in y.holder.value.todo
    case ChatArrives(_) => y.holder.None? || !HoldsChatsLock(y.holder.value)
  }

  function Cover(covered: map<string, set<string>>, id: string, chat: string): map<string, set<string>> {
    covered[id := (if id in covered then covered[id] else {}) + {chat}]
  }

  function AdvanceTask(y: System, t: Task): System {
    match t
    case Entering(chat, c) =>
      y.(hub := DisconnectFrom(y.hub, CurrentOf(y.hub, c.id), c), holder := Some(Left(chat, c)),
         history := Bring(y, CurrentOf(y.hub, c.id), c))
    case Left(chat, c) =>
      y.(holder := Some(if chat == "" then Sweeping(chat, c, y.hub.chats.Keys) else Joining(chat, c)))
    case Sweeping(chat, c, _) => y.(holder := Some(Joining(chat, c)))
    case Joining(chat, c) =>
      if chat in y.hub.chats then
        System(ConnectTo(y.hub, chat, c), Some(Recording(chat, c)), Cover(y.covered, c.id, chat), Bring(y, chat, c))
      else y.(holder := None)
    case Recording(chat, c) => y.(hub := SetCurrent(y.hub, c.id, chat), holder := None)
    case Leaving(c) =>
      y.(hub := DisconnectFrom(y.hub, CurrentOf(y.hub, c.id), c), holder := None,
         history := Bring(y, CurrentOf(y.hub, c.id), c))
    case Removing(c) =>
      System(RemoveFromCurrent(y.hub, c), Some(Forgetting(c)), y.covered - {c.id},
             if c.id in y.hub.metas then TakeOut(y, CurrentOf(y.hub, c.id), c.id) else y.history)
    case Forgetting(c) =>
      y.(hub := y.hub.(metas := y.hub.metas - {c.id}), holder := None,
         history := y.history.(firsts := y.history.firsts - {c.id}))
  }

  function Next(y: System, a: Action): System
    requires Enabled(y, a)
  {
    match a
    case StartConnect(chat, c) =>
      y.(hub := WithMeta(y.hub, c), holder := Some(Entering(chat, c)), history := Open(y, c))
    case StartDisconnect(c) => if c.id in y.hub.metas then y.(holder := Some(Leaving(c))) else y
    case StartRemove(c) => y.(holder := Some(Removing(c)))
    case Advance => AdvanceTask(y, y.holder.value)
    case SweepOne(k) =>
      var t := y.holder.value;
      System(DisconnectFrom(y.hub, k, t.c), Some(t.(todo := t.todo - {k})), Cover(y.covered, t.c.id, k),
             Bring(y, k, t.c))
    case ChatArrives(k) =>
      var brought := map slot | slot in y.history.brought && slot.chat != k :: y.history.brought[slot];
      y.(hub := AddChat(y.hub, k), covered := map id | id in y.covered :: y.covered[id] - {k},
         history := y.history.(brought := brought))
  }

  const START := System(State(map[], map[]), None, map[], History(map[], map[]))

  ghost predicate EnabledRun(y: System, run: seq<Action>)
    decreases |run|
  {
    run != [] ==> Enabled(y, run[0]) && EnabledRun(Next(y, run[0]), run[1..])
  }

  ghost function After(y: System, run: seq<Action>): System
    requires EnabledRun(y, run)
    decreases |run|
  {
    if run == [] then y else After(Next(y, run[0]), run[1..])
  }

  // ---- Invariants ----

  predicate ConnectedIn(h: State, id: string, chat: string) {
    chat in h.chats && id in h.chats[chat].connected
  }

  predicate DisconnectedIn(h: State, id: string, chat: string) {
    chat in h.chats && id in h.chats[chat].disconnected
  }

  /** The metadata of the id exists and names the chat as current. */
  predicate Names(h: State, id: string, chat: string) {
    id in h.metas && h.metas[id].current == chat
  }

  ghost predicate NowhereConnected(h: State, id: string) {
    forall k :: !ConnectedIn(h, id, k)
  }

  ghost predicate TaskInv(y: System) {
    match y.holder
    case None => true
    case Some(Entering(_, c)) => c.id in y.hub.metas
    case Some(Left(_, c)) => c.id in y.hub.metas && NowhereConnected(y.hub, c.id)
    case Some(Sweeping(_, c, todo)) =>
      && c.id in y.hub.metas && NowhereConnected(y.hub, c.id) && todo <= y.hub.chats.Keys
      && (forall k :: k in y.hub.chats && k !in todo ==> c.id in y.covered && k in y.covered[c.id])
    case Some(Joining(chat, c)) =>
      && c.id in y.hub.metas && NowhereConnected(y.hub, c.id)
      && (chat == "" ==> forall k :: k in y.hub.chats ==> c.id in y.covered && k in y.covered[c.id])
    case Some(Recording(chat, c)) => c.id in y.hub.metas && forall k :: ConnectedIn(y.hub, c.id, k) ==> k == chat
    case Some(Leaving(c)) => c.id in y.hub.metas
    case Some(Removing(_)) => true
    case Some(Forgetting(c)) => NowhereConnected(y.hub, c.id) && c.id !in y.covered
  }

  /** The id is the one a connection has joined to a chat without having recorded it yet. */
  predicate BeingRecorded(y: System, id: string) {
    y.holder.Some? && y.holder.value.Recording? && y.holder.value.c.id == id
  }

  ghost predicate SystemInv(y: System) {
    && (forall k :: k in y.hub.chats ==> MembersOk(y.hub.chats[k]))
    && (forall id, k :: ConnectedIn(y.hub, id, k) && !BeingRecorded(y, id) ==> Names(y.hub, id, k))
    && (forall id, k :: id in y.covered && k in y.covered[id] ==>
          ConnectedIn(y.hub, id, k) || DisconnectedIn(y.hub, id, k))
    && TaskInv(y)
  }

  lemma StartKeepsInv(y: System, a: Action)
    requires SystemInv(y) && Enabled(y, a) && (a.StartConnect? || a.StartDisconnect? || a.StartRemove?)
    ensures SystemInv(Next(y, a))
  {
    var y' := Next(y, a);
    assert forall id, k :: ConnectedIn(y'.hub, id, k) <==> ConnectedIn(y.hub, id, k);
    assert forall id, k :: DisconnectedIn(y'.hub, id, k) <==> DisconnectedIn(y.hub, id, k);
    assert forall id, k :: Names(y.hub, id, k) ==> Names(y'.hub, id, k);
  }

  lemma DisconnectEffect(h: State, chat: string, c: Client)
    ensures var h' := DisconnectFrom(h, chat, c);
      && h'.metas == h.metas && h'.chats.Keys == h.chats.Keys
      && (forall id, k :: ConnectedIn(h', id, k) <==> ConnectedIn(h, id, k) && !(k == chat && id == c.id))
      && (forall id, k :: DisconnectedIn(h', id, k) <==>
            DisconnectedIn(h, id, k) || (k in h.chats && k == chat && id == c.id))
      && ((forall k :: k in h.chats ==> MembersOk(h.chats[k])) ==> forall k :: k in h'.chats ==> MembersOk(h'.chats[k]))
  {
  }

  lemma LeaveKeepsInv(y: System)
    requires SystemInv(y) && y.holder.Some? && (y.holder.value.Entering? || y.holder.value.Leaving?)
    ensures SystemInv(Next(y, Advance))
  {
    var c := y.holder.value.c;
    var y' := Next(y, Advance);
    DisconnectEffect(y.hub, CurrentOf(y.hub, c.id), c);
    assert forall k :: ConnectedIn(y.hub, c.id, k) ==> k == CurrentOf(y.hub, c.id);
  }

  lemma SweepKeepsInv(y: System, chat: string)
    requires SystemInv(y) && Enabled(y, SweepOne(chat))
    ensures SystemInv(Next(y, SweepOne(chat)))
  {
    var t := y.holder.value;
    var y' := Next(y, SweepOne(chat));
    DisconnectEffect(y.hub, chat, t.c);
  }

  lemma ConnectEffect(h: State, chat: string, c: Client)
    requires chat in h.chats
    ensures var h' := ConnectTo(h, chat, c);
      && h'.metas == h.metas && h'.chats.Keys == h.chats.Keys
      && (forall id, k :: ConnectedIn(h', id, k) <==> ConnectedIn(h, id, k) || (k == chat && id == c.id))
      && (forall id, k :: DisconnectedIn(h', id, k) <==> DisconnectedIn(h, id, k) && !(k == chat && id == c.id))
      && ((forall k :: k in h.chats ==> MembersOk(h.chats[k])) ==> forall k :: k in h'.chats ==> MembersOk(h'.chats[k]))
  {
  }

  lemma ConnectKeepsInv(y: System)
    requires SystemInv(y) && y.holder.Some? && y.holder.value.Joining?
    ensures SystemInv(Next(y, Advance))
  {
    var y' := Next(y, Advance);
    if y.holder.value.chat in y.hub.chats {
      ConnectEffect(y.hub, y.holder.value.chat, y.holder.value.c);
      assert forall id, k :: Names(y'.hub, id, k) <==> Names(y.hub, id, k);
      assert forall id, k :: id in y'.covered && k in y'.covered[id] ==>
        (id in y.covered && k in y.covered[id]) || (id == y.holder.value.c.id && k == y.holder.value.chat);
    }
  }

  lemma RecordKeepsInv(y: System)
    requires SystemInv(y) && y.holder.Some? && y.holder.value.Recording?
    ensures SystemInv(Next(y, Advance))
  {
    var y' := Next(y, Advance);
    assert forall id, k :: ConnectedIn(y'.hub, id, k) <==> ConnectedIn(y.hub, id, k);
    assert forall id, k :: DisconnectedIn(y'.hub, id, k) <==> DisconnectedIn(y.hub, id, k);
    forall id, k | ConnectedIn(y'.hub, id, k) ensures Names(y'.hub, id, k) {
      assert ConnectedIn(y.hub, id, k);
      if id != y.holder.value.c.id {
        assert !BeingRecorded(y, id) && Names(y.hub, id, k);
      }
    }
  }

  lemma RemoveEffect(h: State, c: Client)
    ensures var h' := RemoveFromCurrent(h, c);
      && h'.metas == h.metas && h'.chats.Keys == h.chats.Keys
      && (forall id, k :: ConnectedIn(h', id, k) <==> ConnectedIn(h, id, k) && !(id == c.id && Names(h, id, k)))
      && (forall id, k :: id != c.id ==> (DisconnectedIn(h', id, k) <==> DisconnectedIn(h, id, k)))
      && ((forall k :: k in h.chats ==> MembersOk(h.chats[k])) ==> forall k :: k in h'.chats ==> MembersOk(h'.chats[k]))
  {
  }

  lemma RemoveKeepsInv(y: System)
    requires SystemInv(y) && y.holder.Some? && y.holder.value.Removing?
    ensures SystemInv(Next(y, Advance))
  {
    var y' := Next(y, Advance);
    var c := y.holder.value.c;
    RemoveEffect(y.hub, c);
    assert forall id, k :: Names(y'.hub, id, k) <==> Names(y.hub, id, k);
    assert forall id :: !BeingRecorded(y, id) && !BeingRecorded(y', id);
  }

  lemma ForgetKeepsInv(y: System)
    requires SystemInv(y) && y.holder.Some? && y.holder.value.Forgetting?
    ensures SystemInv(Next(y, Advance))
  {
    var y' := Next(y, Advance);
    var c := y.holder.value.c;
    assert forall id, k :: ConnectedIn(y'.hub, id, k) <==> ConnectedIn(y.hub, id, k);
    assert forall id, k :: DisconnectedIn(y'.hub, id, k) <==> DisconnectedIn(y.hub, id, k);
    assert forall id, k :: id != c.id && Names(y.hub, id, k) ==> Names(y'.hub, id, k);
    assert forall k :: !ConnectedIn(y.hub, c.id, k);
  }

  lemma ArrivalKeepsInv(y: System, chat: string)
    requires SystemInv(y) && Enabled(y, ChatArrives(chat))
    ensures SystemInv(Next(y, ChatArrives(chat)))
  {
    var y' := Next(y, ChatArrives(chat));
    assert forall id, k :: ConnectedIn(y'.hub, id, k) <==> ConnectedIn(y.hub, id, k) && k != chat;
    assert forall id, k :: DisconnectedIn(y'.hub, id, k) <==> DisconnectedIn(y.hub, id, k) && k != chat;
    assert forall id, k :: Names(y'.hub, id, k) <==> Names(y.hub, id, k);
  }

  lemma ActionKeepsInv(y: System, a: Action)
    requires SystemInv(y) && Enabled(y, a)
    ensures SystemInv(Next(y, a))
  {
    match a
    case SweepOne(k) => SweepKeepsInv(y, k);
    case ChatArrives(k) => ArrivalKeepsInv(y, k);
    case Advance =>
      match y.holder.value {
        case Entering(_, _) => LeaveKeepsInv(y);
        case Leaving(_) => LeaveKeepsInv(y);
        case Joining(_, _) => ConnectKeepsInv(y);
        case Recording(_, _) => RecordKeepsInv(y);
        case Removing(_) => RemoveKeepsInv(y);
        case Forgetting(_) => ForgetKeepsInv(y);
        case _ =>
      }
    case _ => StartKeepsInv(y, a);
  }

  lemma {:induction false} RunKeepsInv(y: System, run: seq<Action>)
    requires SystemInv(y) && EnabledRun(y, run)
    ensures SystemInv(After(y, run))
    decreases |run|
  {
    if run == [] {
    } else {
      ActionKeepsInv(y, run[0]);
      RunKeepsInv(Next(y, run[0]), run[1..]);
    }
  }

  // ---- Main results ----

  /** In every state of every run, an id is connected in at most one chat; and whenever no client operation is under
      way, the chat it is connected in is the one its metadata names. */
  lemma SingleActiveChat(run: seq<Action>)
    requires EnabledRun(START, run)
    ensures var y := After(START, run);
      && (forall id, k, k' :: ConnectedIn(y.hub, id, k) && ConnectedIn(y.hub, id, k') ==> k == k')
      && (y.holder.None? ==> forall id, k :: ConnectedIn(y.hub, id, k) ==> Names(y.hub, id, k))
  {
    RunKeepsInv(START, run);
    var y := After(START, run);
    forall id, k, k' | ConnectedIn(y.hub, id, k) && ConnectedIn(y.hub, id, k') ensures k == k' {
      if !BeingRecorded(y, id) {
        assert Names(y.hub, id, k) && Names(y.hub, id, k');
      }
    }
  }

  /** In every state of every run, each covered id is in exactly one of the two maps of each chat it covers. */
  lemma Coverage(run: seq<Action>)
    requires EnabledRun(START, run)
    ensures var y := After(START, run);
            forall id, k :: id in y.covered && k in y.covered[id] ==>
              (ConnectedIn(y.hub, id, k) && !DisconnectedIn(y.hub, id, k)) ||
              (DisconnectedIn(y.hub, id, k) && !ConnectedIn(y.hub, id, k))
  {
    RunKeepsInv(START, run);
  }

  /** The initial connection covers every chat there is, a later connection covers the chat it enters, and nothing
      but removal of the id or replacement of the chat takes a covered chat away. */
  lemma CoverageIsGained(run: seq<Action>, a: Action)
    requires EnabledRun(START, run) && Enabled(After(START, run), a)
    ensures var y := After(START, run);
            var y' := Next(y, a);
      && (y.holder.Some? && y.holder.value.Joining? && y.holder.value.chat == "" ==>
            forall k :: k in y.hub.chats ==> y.holder.value.c.id in y.covered && k in y.covered[y.holder.value.c.id])
      && (y'.holder.Some? && y'.holder.value.Recording? ==>
            y'.holder.value.c.id in y'.covered && y'.holder.value.chat in y'.covered[y'.holder.value.c.id])
      && (forall id, k :: id in y.covered && k in y.covered[id] && !(id in y'.covered && k in y'.covered[id]) ==>
            a == ChatArrives(k) || (y.holder.Some? && y.holder.value.Removing? && y.holder.value.c.id == id))
  {
    RunKeepsInv(START, run);
  }

  /** In every state of every run, a message notification calls each id held by the chat exactly once. */
  lemma BroadcastExactness(run: seq<Action>, chat: string, calls: seq<Call>)
    requires EnabledRun(START, run) && chat in After(START, run).hub.chats
    requires BroadcastCalls(After(START, run).hub.chats[chat], calls)
    ensures CalledExactly(After(START, run).hub.chats[chat], calls)
  {
    RunKeepsInv(START, run);
    BroadcastIsExact(After(START, run).hub.chats[chat], calls);
  }

  // ---- Which client object is held ----

  /** This client is the one that the last step on the id brought to the chat. */
  predicate Brought(y: System, id: string, chat: string, c: Client) {
    Slot(id, chat) in y.history.brought && y.history.brought[Slot(id, chat)] == c
  }

  ghost predicate ObjectsInv(y: System) {
    && (forall id, k :: ConnectedIn(y.hub, id, k) ==> Brought(y, id, k, y.hub.chats[k].connected[id]))
    && (forall id, k :: DisconnectedIn(y.hub, id, k) ==> Brought(y, id, k, y.hub.chats[k].disconnected[id]))
    && (forall id :: id in y.hub.metas <==> id in y.history.firsts)
    && (forall id :: id in y.hub.metas ==> y.hub.metas[id].client == y.history.firsts[id])
  }

  lemma ObjectsAfterDisconnect(y: System, chat: string, c: Client, y': System)
    requires ObjectsInv(y) && y'.hub == DisconnectFrom(y.hub, chat, c)
    requires y'.history == Bring(y, chat, c)
    ensures ObjectsInv(y')
  {
  }

  lemma ObjectsAfterConnect(y: System, chat: string, c: Client, y': System)
    requires ObjectsInv(y) && chat in y.hub.chats && y'.hub == ConnectTo(y.hub, chat, c)
    requires y'.history == Bring(y, chat, c)
    ensures ObjectsInv(y')
  {
  }

  lemma ObjectsAfterRemoval(y: System)
    requires ObjectsInv(y) && y.holder.Some? && y.holder.value.Removing?
    ensures ObjectsInv(Next(y, Advance))
  {
  }

  lemma ObjectsAfterArrival(y: System, chat: string)
    requires ObjectsInv(y) && Enabled(y, ChatArrives(chat))
    ensures ObjectsInv(Next(y, ChatArrives(chat)))
  {
    var y' := Next(y, ChatArrives(chat));
    assert forall id, k :: ConnectedIn(y'.hub, id, k) <==> ConnectedIn(y.hub, id, k) && k != chat;
    assert forall id, k :: DisconnectedIn(y'.hub, id, k) <==> DisconnectedIn(y.hub, id, k) && k != chat;
  }

  lemma ObjectsAfterMetas(y: System, y': System)
    requires ObjectsInv(y) && y'.hub.chats == y.hub.chats && y'.history.brought == y.history.brought
    requires forall id :: id in y'.hub.metas <==> id in y'.history.firsts
    requires forall id :: id in y'.hub.metas ==> y'.hub.metas[id].client == y'.history.firsts[id]
    ensures ObjectsInv(y')
  {
    assert forall id, k :: ConnectedIn(y'.hub, id, k) <==> ConnectedIn(y.hub, id, k);
    assert forall id, k :: DisconnectedIn(y'.hub, id, k) <==> DisconnectedIn(y.hub, id, k);
  }

  lemma AdvanceKeepsObjects(y: System)
    requires ObjectsInv(y) && Enabled(y, Advance)
    ensures ObjectsInv(Next(y, Advance))
  {
    var t, y' := y.holder.value, Next(y, Advance);
    match t
    case Entering(_, c) => ObjectsAfterDisconnect(y, CurrentOf(y.hub, c.id), c, y');
    case Leaving(c) => ObjectsAfterDisconnect(y, CurrentOf(y.hub, c.id), c, y');
    case Joining(chat, c) =>
      if chat in y.hub.chats {
        ObjectsAfterConnect(y, chat, c, y');
      } else {
        ObjectsAfterMetas(y, y');
      }
    case Removing(_) => ObjectsAfterRemoval(y);
    case Forgetting(_) => ObjectsAfterMetas(y, y');
    case Recording(_, _) => ObjectsAfterMetas(y, y');
    case Left(_, _) => ObjectsAfterMetas(y, y');
    case Sweeping(_, _, _) => ObjectsAfterMetas(y, y');
  }

  lemma {:induction false} RunKeepsObjects(y: System, run: seq<Action>)
    requires ObjectsInv(y) && EnabledRun(y, run)
    ensures ObjectsInv(After(y, run))
    decreases |run|
  {
    if run == [] {
    } else {
      match run[0] {
        case Advance => AdvanceKeepsObjects(y);
        case SweepOne(k) => ObjectsAfterDisconnect(y, k, y.holder.value.c, Next(y, run[0]));
        case ChatArrives(k) => ObjectsAfterArrival(y, k);
        case StartConnect(_, _) => ObjectsAfterMetas(y, Next(y, run[0]));
        case StartDisconnect(_) => ObjectsAfterMetas(y, Next(y, run[0]));
        case StartRemove(_) => ObjectsAfterMetas(y, Next(y, run[0]));
      }
      RunKeepsObjects(Next(y, run[0]), run[1..]);
    }
  }

  /** Over every run: the object a chat holds for an id is the one that the last step on this id brought there, and the
      metadata names the client of the connection it began with. */
  lemma ObjectsAreThoseBrought(run: seq<Action>, id: string, chat: string)
    requires EnabledRun(START, run)
    ensures var y := After(START, run);
      && (ConnectedIn(y.hub, id, chat) ==> Brought(y, id, chat, y.hub.chats[chat].connected[id]))
      && (DisconnectedIn(y.hub, id, chat) ==> Brought(y, id, chat, y.hub.chats[chat].disconnected[id]))
      && (id in y.hub.metas <==> id in y.history.firsts)
      && (id in y.hub.metas ==> y.hub.metas[id].client == y.history.firsts[id])
  {
    RunKeepsObjects(START, run);
  }

  /** In every state of every run, a message notification reaches as connected exactly the clients last brought to the
      chat by the steps on the ids connected there, each once; and likewise as disconnected. */
  lemma BroadcastReachesThoseBrought(run: seq<Action>, chat: string, calls: seq<Call>, c: Client)
    requires EnabledRun(START, run) && chat in After(START, run).hub.chats
    requires BroadcastCalls(After(START, run).hub.chats[chat], calls)
    ensures var y := After(START, run);
      && (Call(c, true) in calls <==> ConnectedIn(y.hub, c.id, chat) && Brought(y, c.id, chat, c))
      && (Call(c, false) in calls <==> DisconnectedIn(y.hub, c.id, chat) && Brought(y, c.id, chat, c))
      && (forall i, j :: 0 <= i < j < |calls| ==> calls[i].client.id != calls[j].client.id)
  {
    ObjectsAreThoseBrought(run, c.id, chat);
    BroadcastExactness(run, chat, calls);
  }

  // ---- An operation that is not interleaved does what the hub's method does ----

  ghost function SweepAll(y: System, order: seq<string>): System
    requires y.holder.Some? && y.holder.value.Sweeping? && Enumerates(order, y.holder.value.todo)
    ensures SweepAll(y, order).holder.Some? && SweepAll(y, order).holder.value == y.holder.value.(todo := {})
    decreases |order|
  {
    if order == [] then y
    else
      assert Enumerates(order[1..], y.holder.value.todo - {order[0]}) by {
        assert forall i :: 0 <= i < |order| - 1 ==> order[1..][i] == order[i + 1];
      }
      SweepAll(Next(y, SweepOne(order[0])), order[1..])
  }

  /** Whatever order the map iteration takes, the sweep disconnects the client in every chat. */
  lemma {:induction false} SweepDisconnectsAll(y: System, order: seq<string>)
    requires y.holder.Some? && y.holder.value.Sweeping? && Enumerates(order, y.holder.value.todo)
    requires y.holder.value.todo <= y.hub.chats.Keys
    ensures var c := y.holder.value.c;
            SweepAll(y, order).hub == y.hub.(chats := map k | k in y.hub.chats ::
              if k in y.holder.value.todo then Disconnect(y.hub.chats[k], c) else y.hub.chats[k])
    decreases |order|
  {
    if order == [] {
    } else {
      assert Enumerates(order[1..], y.holder.value.todo - {order[0]}) by {
        assert forall i :: 0 <= i < |order| - 1 ==> order[1..][i] == order[i + 1];
      }
      SweepDisconnectsAll(Next(y, SweepOne(order[0])), order[1..]);
    }
  }

  lemma ConnectLeaves(y: System, chat: string, c: Client)
    requires y.holder.None?
    ensures var left := Next(Next(Next(y, StartConnect(chat, c)), Advance), Advance);
            var h := WithMeta(y.hub, c);
      && left.hub == DisconnectFrom(h, h.metas[c.id].current, c)
      && left.hub.chats.Keys == y.hub.chats.Keys
      && left.holder == Some(if chat == "" then Sweeping(chat, c, y.hub.chats.Keys) else Joining(chat, c))
  {
  }

  lemma ConnectJoins(y: System, chat: string, c: Client)
    requires y.holder == Some(Joining(chat, c))
    ensures var joined := Next(y, Advance);
            var finished := if joined.holder.Some? then Next(joined, Advance) else joined;
      && finished.holder.None?
      && finished.hub == if chat in y.hub.chats then SetCurrent(ConnectTo(y.hub, chat, c), c.id, chat) else y.hub
  {
  }

  /** A connection run in one go has the effect of `ConnectClient`, whatever the order of its sweep. */
  lemma ConnectUninterrupted(y: System, chat: string, c: Client, order: seq<string>)
    requires y.holder.None? && Enumerates(order, y.hub.chats.Keys)
    ensures var left := Next(Next(Next(y, StartConnect(chat, c)), Advance), Advance);
            var joining := if chat == "" then Next(SweepAll(left, order), Advance) else left;
            var joined := Next(joining, Advance);
            var finished := if joined.holder.Some? then Next(joined, Advance) else joined;
            finished.holder.None? && finished.hub == ConnectClient(y.hub, chat, c)
  {
    var left := Next(Next(Next(y, StartConnect(chat, c)), Advance), Advance);
    ConnectLeaves(y, chat, c);
    if chat == "" {
      SweepDisconnectsAll(left, order);
      assert SweepAll(left, order).hub == DisconnectAll(left.hub, c);
      ConnectJoins(Next(SweepAll(left, order), Advance), chat, c);
    } else {
      ConnectJoins(left, chat, c);
    }
  }

  lemma DisconnectUninterrupted(y: System, c: Client)
    requires y.holder.None?
    ensures var left := Next(y, StartDisconnect(c));
            var finished := if left.holder.Some? then Next(left, Advance) else left;
            finished.holder.None? && finished.hub == DisconnectClient(y.hub, c)
  {
  }

  lemma RemoveUninterrupted(y: System, c: Client)
    requires y.holder.None?
    ensures var finished := Next(Next(Next(y, StartRemove(c)), Advance), Advance);
            finished.holder.None? && finished.hub == RemoveClient(y.hub, c)
  {
  }
}

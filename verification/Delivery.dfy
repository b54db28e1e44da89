/** The work queue between the web apps and the chat server: acknowledgement after processing, redelivery of what
    was not acknowledged when a connection is lost, a loop of a lost connection that is still finishing its delivery
    while the next connection's loop has begun, and a second acknowledgement, which makes the broker close the
    channel. */
module Delivery {
  import opened Wrappers
  import opened ObjectIds
  import opened Entities
  import opened Events
  import opened Codec
  import opened ChatServer
  import S = Store
  import opened Coherence
  import opened Replay

  /** A delivery being handled: its store call is still to come, or came with this result; `again` tells that it is
      going to be acknowledged twice. */
  datatype Work = Work(tag: nat, applied: Option<bool>, again: bool)

  /** What the clock and MongoDB supplied to one store call. */
  datatype Input = Input(now: int, freshId: ObjectId)

  /** Published bodies are known by their position. `work` is indexed by connection: each has one loop. `owing` tells
      that the current loop has acknowledged once and will do so again, `consuming` that the channel is open. The rest
      is history: what the current connection's loop has fetched, the tags of the store calls that succeeded, in order,
      with their inputs, what was acknowledged after such a call, and what was handed back to the queue. */
  datatype System = System(
    bodies: seq<Json>, ready: seq<nat>, unacked: set<nat>, acked: set<nat>,
    connection: nat, buffered: seq<nat>, work: map<nat, Work>, owing: bool, consuming: bool, store: S.StoreState,
    fetched: seq<nat>, effects: seq<nat>, inputs: seq<Input>, ackedAfterSuccess: set<nat>, redelivered: set<nat>)

  datatype Action =
    | Publish(body: Json)
    | Deliver
    | Fetch
    | ApplyToStore(c: nat, now: int, freshId: ObjectId)
    | Acknowledge(c: nat)
    | AcknowledgeAgain(requeued: seq<nat>)
    | Between(op: Op)
    | LoseConnection(requeued: seq<nat>)
    | CrashServer(requeued: seq<nat>)

  /** The event of the body was decoded and its store call returned no error. */
  predicate StoreSucceeds(s: S.StoreState, body: Json, now: int, freshId: ObjectId) {
    && DecodeEvent(body).Ok?
    && var e := DecodeEvent(body).value;
    && ApplyEvent(s, e, now, freshId).1.Broadcast?
    && (e.kind.UpdateMessage? && e.details.MessageValue? ==> S.SaveMessage(s, e.details.m, freshId).error.None?)
  }

  ghost predicate Lists(tags: seq<nat>, all: set<nat>) {
    && (forall i :: 0 <= i < |tags| ==> tags[i] in all)
    && (forall t :: t in all ==> t in tags)
    && (forall i, j :: 0 <= i < j < |tags| ==> tags[i] != tags[j])
  }

  ghost predicate Enabled(y: System, a: Action) {
    match a
    case Publish(_) => true
    case Deliver => y.ready != [] && y.consuming
    case Fetch => y.buffered != [] && y.connection !in y.work && !y.owing
    case ApplyToStore(c, now, freshId) =>
      c in y.work && y.work[c].applied.None? && y.work[c].tag < |y.bodies| && !PoisonPost(y.bodies[y.work[c].tag])
    case Acknowledge(c) => c in y.work && y.work[c].applied.Some?
    case AcknowledgeAgain(requeued) => y.owing && Lists(requeued, y.unacked)
    case Between(op) => InBackground(op)
    case LoseConnection(requeued) => Lists(requeued, y.unacked)
    case CrashServer(requeued) => Lists(requeued, y.unacked)
  }

  /** A channel is gone: what was not acknowledged goes back to the queue and what was buffered is dropped. With the
      connection lost as well, the next one comes with a new consumer; without, nobody consumes. */
  function Lost(y: System, requeued: seq<nat>, reconnects: bool): System {
    y.(ready := requeued + y.ready, unacked := {}, connection := y.connection + 1, buffered := [],
       owing := false, consuming := reconnects, fetched := [], redelivered := y.redelivered + y.unacked)
  }

  function Next(y: System, a: Action): System
    requires Enabled(y, a)
  {
    match a
    case Publish(body) => y.(bodies := y.bodies + [body], ready := y.ready + [|y.bodies|])
    case Deliver =>
      y.(ready := y.ready[1..], unacked := y.unacked + {y.ready[0]}, buffered := y.buffered + [y.ready[0]])
    case Fetch =>
      y.(buffered := y.buffered[1..], work := y.work[y.connection := Work(y.buffered[0], None, false)],
         fetched := y.fetched + [y.buffered[0]])
    case ApplyToStore(c, now, freshId) =>
      var tag := y.work[c].tag;
      var ok := StoreSucceeds(y.store, y.bodies[tag], now, freshId);
      var handled := HandleDelivery(y.store, y.bodies[tag], now, freshId, true);
      y.(work := y.work[c := Work(tag, Some(ok), handled.acks == 2)],
         store := handled.state,
         effects := if ok then y.effects + [tag] else y.effects,
         inputs := if ok then y.inputs + [Input(now, freshId)] else y.inputs)
    case Acknowledge(c) =>
      var w := y.work[c];
      if c != y.connection then y.(work := y.work - {c})
      else y.(work := y.work - {c}, unacked := y.unacked - {w.tag}, acked := y.acked + {w.tag}, owing := w.again,
              ackedAfterSuccess := y.ackedAfterSuccess + (if w.applied == Some(true) then {w.tag} else {}))
    case AcknowledgeAgain(requeued) => Lost(y, requeued, false)
    case Between(op) => y.(store := Apply(y.store, op))
    case LoseConnection(requeued) => Lost(y, requeued, true)
    case CrashServer(requeued) => Lost(y, requeued, true).(work := map[])
  }

  const START := System([], [], {}, {}, 0, [], map[], false, true, S.EMPTY_STORE, [], [], [], {}, {})

  ghost predicate EnabledRun(y: System, run: seq<Action>)
    decreases |run|
  {
    run != [] ==> Enabled(y, run[0]) && EnabledRun(Next(y, run[0]), run[1..])
  }

  ghost function After(y: System, run: seq<Action>): System
    requires EnabledRun(y, run)
    decreases |run|
  {
    if run == [] then y else After(Next(y, run[0]), run[1..])
  }

  // ---- Conservation ----

  /** The number of places among ready, unacknowledged and acknowledged where the tag is. */
  ghost function Places(y: System, t: nat): nat {
    multiset(y.ready)[t] + (if t in y.unacked then 1 else 0) + (if t in y.acked then 1 else 0)
  }

  ghost predicate Conserved(y: System) {
    forall t: nat :: Places(y, t) == if t < |y.bodies| then 1 else 0
  }

  /** Buffered deliveries and the one the current loop works on are distinct and unacknowledged. */
  ghost predicate LoopInv(y: System) {
    && (forall i :: 0 <= i < |y.buffered| ==> y.buffered[i] in y.unacked)
    && (forall i, j :: 0 <= i < j < |y.buffered| ==> y.buffered[i] != y.buffered[j])
    && (y.connection in y.work ==> y.work[y.connection].tag in y.unacked && y.work[y.connection].tag !in y.buffered)
    && (forall c :: c in y.work ==> c <= y.connection && y.work[c].tag < |y.bodies|)
    && (forall c :: c in y.work && c != y.connection ==> y.work[c].tag in y.redelivered)
    && (forall t :: t in y.redelivered ==> t < |y.bodies|)
  }

  /** Whether the current loop or an acknowledgement accounts for a stored effect of the tag. */
  predicate Accounted(y: System, t: nat) {
    || t in y.ackedAfterSuccess
    || (y.connection in y.work && y.work[y.connection].tag == t && y.work[y.connection].applied == Some(true))
  }

  ghost predicate EffectInv(y: System) {
    && y.ackedAfterSuccess <= y.acked
    && (forall t :: t in y.ackedAfterSuccess ==> t in y.effects)
    && (forall c :: c in y.work && y.work[c].applied == Some(true) ==> y.work[c].tag in y.effects)
    && (forall t: nat :: t !in y.redelivered ==> multiset(y.effects)[t] == if Accounted(y, t) then 1 else 0)
  }

  ghost predicate SystemInv(y: System) {
    Conserved(y) && LoopInv(y) && EffectInv(y)
  }

  lemma {:induction false} ListsCount(tags: seq<nat>, all: set<nat>, t: nat)
    requires Lists(tags, all)
    ensures multiset(tags)[t] == if t in all then 1 else 0
  {
    if t in all {
      var i :| 0 <= i < |tags| && tags[i] == t;
      assert tags == tags[..i] + [t] + tags[i + 1..];
      assert t !in tags[..i] && t !in tags[i + 1..];
    } else {
      assert t !in tags;
    }
  }

  /** The actions that end with the channel gone. */
  predicate Loses(a: Action) {
    a.LoseConnection? || a.CrashServer? || a.AcknowledgeAgain?
  }

  lemma LossConserves(y: System, a: Action)
    requires Conserved(y) && Enabled(y, a) && Loses(a)
    ensures Conserved(Next(y, a))
  {
    forall t: nat ensures Places(Next(y, a), t) == if t < |y.bodies| then 1 else 0 {
      assert Places(y, t) == if t < |y.bodies| then 1 else 0;
      ListsCount(a.requeued, y.unacked, t);
    }
  }

  lemma AckConserves(y: System, c: nat)
    requires Conserved(y) && LoopInv(y) && Enabled(y, Acknowledge(c))
    ensures Conserved(Next(y, Acknowledge(c)))
  {
    var y' := Next(y, Acknowledge(c));
    forall t: nat ensures Places(y', t) == if t < |y.bodies| then 1 else 0 {
      assert Places(y, t) == if t < |y.bodies| then 1 else 0;
      if c == y.connection {
        assert Places(y, y.work[c].tag) == 1;
      }
    }
  }

  lemma DeliverConserves(y: System)
    requires Conserved(y) && Enabled(y, Deliver)
    ensures Conserved(Next(y, Deliver))
  {
    var y' := Next(y, Deliver);
    assert y.ready == [y.ready[0]] + y.ready[1..];
    assert Places(y, y.ready[0]) == if y.ready[0] < |y.bodies| then 1 else 0;
    forall t: nat ensures Places(y', t) == if t < |y.bodies| then 1 else 0 {
      assert Places(y, t) == if t < |y.bodies| then 1 else 0;
    }
  }

  lemma ActionConserves(y: System, a: Action)
    requires Conserved(y) && LoopInv(y) && Enabled(y, a)
    ensures Conserved(Next(y, a))
  {
    if Loses(a) {
      LossConserves(y, a);
    } else if a.Acknowledge? {
      AckConserves(y, a.c);
    } else if a.Deliver? {
      DeliverConserves(y);
    } else {
      forall t: nat ensures Places(Next(y, a), t) == if t < |Next(y, a).bodies| then 1 else 0 {
        assert Places(y, t) == if t < |y.bodies| then 1 else 0;
      }
    }
  }

  lemma UnackedIsElsewhere(y: System, t: nat)
    requires Conserved(y) && t in y.unacked
    ensures t < |y.bodies| && t !in y.ready && t !in y.acked
  {
    assert Places(y, t) == if t < |y.bodies| then 1 else 0;
  }

  lemma LossKeepsLoop(y: System, a: Action)
    requires Conserved(y) && LoopInv(y) && Enabled(y, a) && Loses(a)
    ensures LoopInv(Next(y, a))
  {
    forall t | t in y.unacked ensures t < |y.bodies| {
      UnackedIsElsewhere(y, t);
    }
  }

  lemma DeliverKeepsLoop(y: System)
    requires Conserved(y) && LoopInv(y) && Enabled(y, Deliver)
    ensures LoopInv(Next(y, Deliver))
  {
    assert y.ready[0] in y.ready;
    if y.ready[0] in y.unacked {
      UnackedIsElsewhere(y, y.ready[0]);
    }
    assert y.ready[0] !in y.buffered;
  }

  lemma AckKeepsLoop(y: System, c: nat)
    requires LoopInv(y) && Enabled(y, Acknowledge(c))
    ensures LoopInv(Next(y, Acknowledge(c)))
  {
    if c == y.connection {
      assert forall i :: 0 <= i < |y.buffered| ==> y.buffered[i] in y.buffered;
    }
  }

  lemma ActionKeepsLoop(y: System, a: Action)
    requires Conserved(y) && LoopInv(y) && Enabled(y, a)
    ensures LoopInv(Next(y, a))
  {
    if Loses(a) {
      LossKeepsLoop(y, a);
    } else if a.Acknowledge? {
      AckKeepsLoop(y, a.c);
    } else if a.Deliver? {
      DeliverKeepsLoop(y);
    } else if a.Fetch? {
      UnackedIsElsewhere(y, y.buffered[0]);
      assert y.buffered[0] !in y.buffered[1..];
    }
  }

  /** A delivery that is handed back was not acknowledged, and what is left is what was acknowledged. */
  lemma LossKeepsEffects(y: System, a: Action)
    requires SystemInv(y) && Enabled(y, a) && Loses(a)
    ensures EffectInv(Next(y, a))
  {
    var y' := Next(y, a);
    forall t: nat | t !in y'.redelivered ensures multiset(y'.effects)[t] == if Accounted(y', t) then 1 else 0 {
      assert multiset(y.effects)[t] == if Accounted(y, t) then 1 else 0;
    }
  }

  lemma AckKeepsEffects(y: System, c: nat)
    requires SystemInv(y) && Enabled(y, Acknowledge(c))
    ensures EffectInv(Next(y, Acknowledge(c)))
  {
    var y' := Next(y, Acknowledge(c));
    forall t: nat | t !in y'.redelivered ensures multiset(y'.effects)[t] == if Accounted(y', t) then 1 else 0 {
      assert multiset(y.effects)[t] == if Accounted(y, t) then 1 else 0;
    }
  }

  lemma CountSnoc(effects: seq<nat>, tag: nat, t: nat)
    ensures multiset(effects + [tag])[t] == multiset(effects)[t] + (if t == tag then 1 else 0)
  {
  }

  lemma EffectsAfterApply(y: System, y': System, c: nat, ok: bool, again: bool)
    requires SystemInv(y) && c in y.work && y.work[c].applied.None?
    requires y'.work == y.work[c := Work(y.work[c].tag, Some(ok), again)]
    requires y'.effects == if ok then y.effects + [y.work[c].tag] else y.effects
    requires y'.connection == y.connection && y'.redelivered == y.redelivered
    requires y'.acked == y.acked && y'.ackedAfterSuccess == y.ackedAfterSuccess
    ensures EffectInv(y')
  {
    var tag := y.work[c].tag;
    if tag in y.unacked {
      UnackedIsElsewhere(y, tag);
    }
    forall t: nat | t !in y.redelivered ensures multiset(y'.effects)[t] == if Accounted(y', t) then 1 else 0 {
      assert multiset(y.effects)[t] == if Accounted(y, t) then 1 else 0;
      CountSnoc(y.effects, tag, t);
    }
  }

  lemma ApplyKeepsEffects(y: System, c: nat, now: int, freshId: ObjectId)
    requires SystemInv(y) && Enabled(y, ApplyToStore(c, now, freshId))
    ensures EffectInv(Next(y, ApplyToStore(c, now, freshId)))
  {
    var body := y.bodies[y.work[c].tag];
    EffectsAfterApply(y, Next(y, ApplyToStore(c, now, freshId)), c, StoreSucceeds(y.store, body, now, freshId),
                      HandleDelivery(y.store, body, now, freshId, true).acks == 2);
  }

  lemma ActionKeepsEffects(y: System, a: Action)
    requires SystemInv(y) && Enabled(y, a)
    ensures EffectInv(Next(y, a))
  {
    if Loses(a) {
      LossKeepsEffects(y, a);
    } else if a.Acknowledge? {
      AckKeepsEffects(y, a.c);
    } else if a.ApplyToStore? {
      ApplyKeepsEffects(y, a.c, a.now, a.freshId);
    } else {
      var y' := Next(y, a);
      forall t: nat | t !in y'.redelivered ensures multiset(y'.effects)[t] == if Accounted(y', t) then 1 else 0 {
        assert multiset(y.effects)[t] == if Accounted(y, t) then 1 else 0;
      }
    }
  }

  lemma ActionKeepsInv(y: System, a: Action)
    requires SystemInv(y) && Enabled(y, a)
    ensures SystemInv(Next(y, a))
  {
    ActionConserves(y, a);
    ActionKeepsLoop(y, a);
    ActionKeepsEffects(y, a);
  }

  lemma {:induction false} RunKeepsInv(y: System, run: seq<Action>)
    requires SystemInv(y) && EnabledRun(y, run)
    ensures SystemInv(After(y, run))
    decreases |run|
  {
    if run == [] {
    } else {
      ActionKeepsInv(y, run[0]);
      RunKeepsInv(Next(y, run[0]), run[1..]);
    }
  }

  /** Main result: over any run with any losses and crashes, every published event is in exactly one of ready,
      unacknowledged and acknowledged; one acknowledged after its store call succeeded has a stored effect, and one
      that was never redelivered has exactly one, or none if its store call has not succeeded. */
  lemma AtLeastOnce(run: seq<Action>)
    requires EnabledRun(START, run)
    ensures var y := After(START, run);
      && (forall t: nat :: Places(y, t) == if t < |y.bodies| then 1 else 0)
      && (forall t :: t in y.ackedAfterSuccess ==> t in y.acked && t in y.effects)
      && (forall t :: t in y.acked && t !in y.redelivered ==>
            multiset(y.effects)[t] == if t in y.ackedAfterSuccess then 1 else 0)
  {
    RunKeepsInv(START, run);
    var y := After(START, run);
    forall t | t in y.acked && t !in y.redelivered
      ensures multiset(y.effects)[t] == if t in y.ackedAfterSuccess then 1 else 0
    {
      assert Places(y, t) == if t < |y.bodies| then 1 else 0;
    }
  }

  // ---- In which order deliveries are handled ----

  function TagsFrom(n: nat, count: nat): (r: seq<nat>)
    ensures |r| == count
    ensures forall i :: 0 <= i < count ==> r[i] == n + i
  {
    seq(count, i => n + i)
  }

  /** What the current connection has had to do with, in the order of the queue. */
  function Line(y: System): seq<nat> {
    y.fetched + y.buffered + y.ready
  }

  /** The loop works on what it fetched last. */
  predicate WorksOnLast(y: System) {
    && (forall c :: c in y.work ==> c <= y.connection)
    && (y.connection in y.work ==> y.fetched != [] && y.work[y.connection].tag == y.fetched[|y.fetched| - 1])
  }

  lemma HeadMoves<T>(a: seq<T>, b: seq<T>, c: seq<T>)
    requires b != []
    ensures a + b + c == a + [b[0]] + b[1..] + c
    ensures c + a + b == c + (a + [b[0]]) + b[1..]
  {
    assert b == [b[0]] + b[1..];
  }

  lemma StepKeepsWorksOnLast(y: System, a: Action)
    requires WorksOnLast(y) && Enabled(y, a)
    ensures WorksOnLast(Next(y, a))
  {
  }

  lemma StepKeepsLine(y: System, a: Action)
    requires Enabled(y, a) && !Loses(a)
    ensures Next(y, a).connection == y.connection
    ensures Line(Next(y, a)) == Line(y) + (if a.Publish? then [|y.bodies|] else [])
  {
    if a.Fetch? {
      HeadMoves(y.fetched, y.buffered, y.ready);
    } else if a.Deliver? {
      HeadMoves(y.buffered, y.ready, y.fetched);
    }
  }

  lemma TagsGrow(n: nat, count: nat)
    ensures TagsFrom(n, count + 1) == [n] + TagsFrom(n + 1, count)
    ensures TagsFrom(n, count + 1) == TagsFrom(n, count) + [n + count]
    ensures TagsFrom(n, 0) == []
  {
  }

  lemma {:induction false} RunKeepsWorksOnLast(y: System, run: seq<Action>)
    requires WorksOnLast(y) && EnabledRun(y, run)
    ensures WorksOnLast(After(y, run))
    decreases |run|
  {
    if run == [] {
    } else {
      StepKeepsWorksOnLast(y, run[0]);
      RunKeepsWorksOnLast(Next(y, run[0]), run[1..]);
    }
  }

  ghost predicate NoLoss(run: seq<Action>) {
    forall i :: 0 <= i < |run| ==> !Loses(run[i])
  }

  lemma LineGrows(line: seq<nat>, n: nat, count: nat)
    ensures line + [n] + TagsFrom(n + 1, count) == line + TagsFrom(n, count + 1)
    ensures line + TagsFrom(n, 0) == line
    ensures line + [] == line
  {
    TagsGrow(n, count);
    TagsGrow(n, 0);
  }

  lemma {:induction false} RunKeepsLine(y: System, run: seq<Action>)
    requires EnabledRun(y, run) && NoLoss(run)
    ensures |After(y, run).bodies| >= |y.bodies|
    ensures Line(After(y, run)) == Line(y) + TagsFrom(|y.bodies|, |After(y, run).bodies| - |y.bodies|)
    decreases |run|
  {
    if run == [] {
      LineGrows(Line(y), |y.bodies|, 0);
    } else {
      StepKeepsLine(y, run[0]);
      RunKeepsLine(Next(y, run[0]), run[1..]);
      LineGrows(Line(y), |y.bodies|, |After(y, run).bodies| - |Next(y, run[0]).bodies|);
    }
  }

  lemma OrderSince(y: System, since: seq<Action>)
    requires WorksOnLast(y) && EnabledRun(y, since) && NoLoss(since)
    ensures var y' := After(y, since);
      && WorksOnLast(y') && |y'.bodies| >= |y.bodies|
      && Line(y') == Line(y) + TagsFrom(|y.bodies|, |y'.bodies| - |y.bodies|)
  {
    RunKeepsWorksOnLast(y, since);
    RunKeepsLine(y, since);
  }

  /** After any losses, the loop of one connection fetches the tags exactly in the order in which they stood in the
      queue when it began, first those that were handed back, then those that were ready, then those published since,
      and works on what it fetched last. */
  lemma FetchedInQueueOrder(run: seq<Action>, loss: Action, since: seq<Action>)
    requires EnabledRun(START, run) && Enabled(After(START, run), loss) && Loses(loss)
    requires EnabledRun(Next(After(START, run), loss), since)
    requires NoLoss(since)
    ensures var y0 := After(START, run);
            var y := After(Next(y0, loss), since);
      && Lists(loss.requeued, y0.unacked) && WorksOnLast(y) && |y.bodies| >= |y0.bodies|
      && Line(y) == loss.requeued + y0.ready + TagsFrom(|y0.bodies|, |y.bodies| - |y0.bodies|)
  {
    RunKeepsWorksOnLast(START, run);
    LossBeginsLine(After(START, run), loss);
    OrderSince(Next(After(START, run), loss), since);
  }

  lemma LossBeginsLine(y: System, loss: Action)
    requires WorksOnLast(y) && Enabled(y, loss) && Loses(loss)
    ensures Lists(loss.requeued, y.unacked) && WorksOnLast(Next(y, loss))
    ensures Next(y, loss).bodies == y.bodies && Line(Next(y, loss)) == loss.requeued + y.ready
  {
    assert [] + [] + (loss.requeued + y.ready) == loss.requeued + y.ready;
  }

  ghost predicate Increasing(tags: seq<nat>) {
    forall i, j :: 0 <= i < j < |tags| ==> tags[i] < tags[j]
  }

  /** With one connection, effects are of fetched tags only, in order, and the one being worked on comes last. */
  ghost predicate OneLineInv(y: System) {
    && WorksOnLast(y) && y.connection == 0
    && (forall k :: 0 <= k < |y.fetched| ==> y.fetched[k] == k)
    && Increasing(y.effects)
    && (forall i :: 0 <= i < |y.effects| ==> y.effects[i] < |y.fetched|)
    && (0 in y.work && y.work[0].applied.None? ==> forall i :: 0 <= i < |y.effects| ==> y.effects[i] < |y.fetched| - 1)
  }

  lemma FetchKeepsOneLine(y: System)
    requires OneLineInv(y) && Enabled(y, Fetch) && y.buffered[0] == |y.fetched|
    ensures OneLineInv(Next(y, Fetch))
  {
  }

  lemma ApplyKeepsOneLine(y: System, y': System, c: nat, ok: bool, again: bool)
    requires OneLineInv(y) && c in y.work && y.work[c].applied.None?
    requires y'.work == y.work[c := Work(y.work[c].tag, Some(ok), again)]
    requires y'.effects == if ok then y.effects + [y.work[c].tag] else y.effects
    requires y'.connection == y.connection && y'.fetched == y.fetched
    ensures OneLineInv(y')
  {
    assert c == 0 && y.work[0].tag == |y.fetched| - 1;
  }

  lemma StepKeepsOneLine(y: System, a: Action)
    requires OneLineInv(y) && Enabled(y, a) && !Loses(a)
    requires a.Fetch? ==> y.buffered[0] == |y.fetched|
    ensures OneLineInv(Next(y, a))
  {
    if a.Fetch? {
      FetchKeepsOneLine(y);
    } else if a.ApplyToStore? {
      var body := y.bodies[y.work[a.c].tag];
      ApplyKeepsOneLine(y, Next(y, a), a.c, StoreSucceeds(y.store, body, a.now, a.freshId),
                        HandleDelivery(y.store, body, a.now, a.freshId, true).acks == 2);
    } else {
      StepKeepsWorksOnLast(y, a);
    }
  }

  lemma {:induction false} RunKeepsOneLine(y: System, run: seq<Action>)
    requires OneLineInv(y) && EnabledRun(y, run) && Line(y) == TagsFrom(0, |y.bodies|) && NoLoss(run)
    ensures OneLineInv(After(y, run)) && Line(After(y, run)) == TagsFrom(0, |After(y, run).bodies|)
    decreases |run|
  {
    if run == [] {
    } else {
      if run[0].Fetch? {
        assert Line(y)[|y.fetched|] == y.buffered[0];
      }
      StepKeepsOneLine(y, run[0]);
      StepKeepsLine(y, run[0]);
      TagsGrow(0, |y.bodies|);
      RunKeepsOneLine(Next(y, run[0]), run[1..]);
    }
  }

  /** Main result: while no channel is lost, deliveries are handled in the order of publication: the tags fetched are 0,
      1, 2 and so on, and the store calls that succeed are of increasing tags, so the documents are those asked for in
      publication order. */
  lemma HandledInPublicationOrder(run: seq<Action>)
    requires EnabledRun(START, run) && NoLoss(run)
    ensures var y := After(START, run);
      && y.fetched + y.buffered + y.ready == TagsFrom(0, |y.bodies|)
      && WorksOnLast(y)
      && Increasing(y.effects) && (forall i :: 0 <= i < |y.effects| ==> y.effects[i] < |y.fetched|)
  {
    TagsGrow(0, 0);
    RunKeepsOneLine(START, run);
  }

  /** An acknowledgement ends the work on its delivery. On the current connection the broker forgets the delivery; on
      one that was lost it changes nothing there, so what went back to the queue is delivered once more. */
  lemma LateAcknowledgement(y: System, c: nat)
    requires Conserved(y) && LoopInv(y) && Enabled(y, Acknowledge(c))
    ensures var y' := Next(y, Acknowledge(c));
            var tag := y.work[c].tag;
      && c !in y'.work && (forall d :: d in y.work && d != c ==> d in y'.work && y'.work[d] == y.work[d])
      && y'.ready == y.ready && y'.buffered == y.buffered && y'.store == y.store
      && (c != y.connection ==> y'.unacked == y.unacked && y'.acked == y.acked && Places(y', tag) == Places(y, tag))
      && (c == y.connection ==> tag in y'.acked && tag !in y'.unacked && tag !in y'.ready)
  {
    assert Places(y, y.work[c].tag) == 1;
  }

  /** A crash ends every loop: until something is fetched anew, nothing reaches the store. */
  lemma {:induction false} NothingAppliesWithoutLoops(y: System, since: seq<Action>)
    requires y.work == map[] && EnabledRun(y, since)
    requires forall i :: 0 <= i < |since| ==> !since[i].Fetch?
    ensures After(y, since).effects == y.effects && After(y, since).work == map[]
    decreases |since|
  {
    if since == [] {
    } else {
      NothingAppliesWithoutLoops(Next(y, since[0]), since[1..]);
    }
  }

  lemma CrashEndsEveryLoop(y: System, requeued: seq<nat>, since: seq<Action>)
    requires Enabled(y, CrashServer(requeued)) && EnabledRun(Next(y, CrashServer(requeued)), since)
    requires forall i :: 0 <= i < |since| ==> !since[i].Fetch?
    ensures After(Next(y, CrashServer(requeued)), since).effects == y.effects
  {
    NothingAppliesWithoutLoops(Next(y, CrashServer(requeued)), since);
  }

  // ---- After a second acknowledgement ----

  /** With the channel closed, nothing is out for delivery; and a loop that owes an acknowledgement works on nothing. */
  ghost predicate ChannelInv(y: System) {
    && (y.owing ==> y.connection !in y.work)
    && (!y.consuming ==> y.unacked == {} && y.buffered == [] && y.connection !in y.work && !y.owing)
    && (forall c :: c in y.work ==> c <= y.connection)
  }

  lemma {:induction false} RunKeepsChannelInv(y: System, run: seq<Action>)
    requires ChannelInv(y) && EnabledRun(y, run)
    ensures ChannelInv(After(y, run))
    decreases |run|
  {
    if run == [] {
    } else {
      RunKeepsChannelInv(Next(y, run[0]), run[1..]);
    }
  }

  lemma {:induction false} StuckFrom(y: System, run: seq<Action>)
    requires ChannelInv(y) && !y.consuming && EnabledRun(y, run)
    requires forall i :: 0 <= i < |run| ==> !run[i].LoseConnection? && !run[i].CrashServer?
    ensures var y' := After(y, run);
      && !y'.consuming && y'.unacked == {} && y'.acked == y.acked
      && |y'.bodies| >= |y.bodies|
      && y'.ready == y.ready + TagsFrom(|y.bodies|, |y'.bodies| - |y.bodies|)
    decreases |run|
  {
    if run == [] {
      TagsGrow(|y.bodies|, 0);
    } else {
      var y1 := Next(y, run[0]);
      StuckFrom(y1, run[1..]);
      TagsGrow(|y.bodies|, |After(y, run).bodies| - |y1.bodies|);
    }
  }

  /** A second acknowledgement hands every unacknowledged delivery back to the queue, and from then on, while the
      connection stays up, nothing is delivered or acknowledged any more: every event published since joins the ready
      ones. It is also the only step that stops the consumer. */
  lemma SecondAcknowledgementStopsConsumer(run: seq<Action>, requeued: seq<nat>, more: seq<Action>)
    requires EnabledRun(START, run) && Enabled(After(START, run), AcknowledgeAgain(requeued))
    requires EnabledRun(Next(After(START, run), AcknowledgeAgain(requeued)), more)
    requires forall i :: 0 <= i < |more| ==> !more[i].LoseConnection? && !more[i].CrashServer?
    ensures var y := After(START, run);
            var y' := After(Next(y, AcknowledgeAgain(requeued)), more);
      && Lists(requeued, y.unacked)
      && !y'.consuming && y'.unacked == {} && y'.acked == y.acked
      && |y'.bodies| >= |y.bodies|
      && y'.ready == requeued + y.ready + TagsFrom(|y.bodies|, |y'.bodies| - |y.bodies|)
  {
    RunKeepsChannelInv(START, run);
    StuckFrom(Next(After(START, run), AcknowledgeAgain(requeued)), more);
  }

  /** No other step stops the consumer, and it is owed exactly after the first acknowledgement of such a delivery. */
  lemma ConsumerStopsExactly(y: System, a: Action)
    requires Enabled(y, a) && y.consuming
    ensures !Next(y, a).consuming <==> a.AcknowledgeAgain?
    ensures Next(y, a).owing && !y.owing <==>
            a.Acknowledge? && a.c == y.connection && y.work[a.c].again && !y.owing
  {
  }

  // ---- What the effects left in the store ----

  /** A document without the three fields that edits, hides and deletes change. */
  function Outline(d: Doc): Doc {
    d.(content := "", hiddenFor := [], deleted := false)
  }

  function Outlines(docs: seq<Doc>): (r: seq<Doc>)
    ensures |r| == |docs|
    ensures forall i :: 0 <= i < |docs| ==> r[i] == Outline(docs[i])
  {
    seq(|docs|, i requires 0 <= i < |docs| => Outline(docs[i]))
  }

  /** What one event asks the database to hold: a post or an update without an id adds a document, an update with an
      id overwrites that document, and no other event adds, moves or removes one. */
  function Ask(asked: seq<Doc>, e: ChatEvent, input: Input): seq<Doc> {
    match (e.kind, e.details)
    case (NewMessage, Fields(d)) =>
      asked + [Doc(input.freshId, FromHex(e.chatId).GetOr(NIL_ID), FromHex(e.userId).GetOr(NIL_ID), "", d.kind,
                   ToMillis(input.now), ToMillis(input.now), "sent", [], false)]
    case (UpdateMessage, MessageValue(m)) =>
      if m.id == NIL_ID then asked + [Outline(FromInternal(m)).(id := input.freshId)]
      else if S.FindDoc(asked, m.id).Some? then asked[S.FindDoc(asked, m.id).value := Outline(FromInternal(m))]
      else asked
    case _ => asked
  }

  function AskChat(asked: seq<ChatDoc>, e: ChatEvent, input: Input): seq<ChatDoc> {
    if e.kind.NewChat? && e.details.ChatPointer? then asked + [ChatDoc(input.freshId, e.details.chat.name)] else asked
  }

  /** What all effects ask for, in their order. */
  function Asked(bodies: seq<Json>, effects: seq<nat>, inputs: seq<Input>): (seq<Doc>, seq<ChatDoc>)
    requires |inputs| == |effects|
  {
    if effects == [] then ([], [])
    else
      var n := |effects| - 1;
      var (docs, chats) := Asked(bodies, effects[..n], inputs[..n]);
      if effects[n] < |bodies| && DecodeEvent(bodies[effects[n]]).Ok? then
        var e := DecodeEvent(bodies[effects[n]]).value;
        (Ask(docs, e, inputs[n]), AskChat(chats, e, inputs[n]))
      else (docs, chats)
  }

  ghost predicate StoredAsAsked(y: System) {
    && |y.inputs| == |y.effects|
    && (forall i :: 0 <= i < |y.effects| ==> y.effects[i] < |y.bodies|)
    && (Outlines(y.store.docs), y.store.chats) == Asked(y.bodies, y.effects, y.inputs)
  }

  lemma {:induction false} AskedOfMoreBodies(bodies: seq<Json>, more: seq<Json>, effects: seq<nat>, inputs: seq<Input>)
    requires |inputs| == |effects| && forall i :: 0 <= i < |effects| ==> effects[i] < |bodies|
    ensures Asked(bodies + more, effects, inputs) == Asked(bodies, effects, inputs)
  {
    if effects == [] {
    } else {
      AskedOfMoreBodies(bodies, more, effects[..|effects| - 1], inputs[..|effects| - 1]);
    }
  }

  lemma {:induction false} FindOutline(docs: seq<Doc>, id: ObjectId)
    ensures S.FindDoc(Outlines(docs), id) == S.FindDoc(docs, id)
  {
    if docs == [] {
    } else {
      assert Outlines(docs)[..|docs| - 1] == Outlines(docs[..|docs| - 1]);
      FindOutline(docs[..|docs| - 1], id);
    }
  }

  lemma OutlinesSnoc(docs: seq<Doc>, d: Doc)
    ensures Outlines(docs + [d]) == Outlines(docs) + [Outline(d)]
  {
  }

  lemma OutlinesUpdate(docs: seq<Doc>, i: nat, d: Doc)
    requires i < |docs|
    ensures Outlines(docs[i := d]) == Outlines(docs)[i := Outline(d)]
  {
  }

  lemma SaveOutlines(s: S.StoreState, m: Message, freshId: ObjectId)
    ensures var saved := S.SaveMessage(s, m, freshId);
      && saved.state.chats == s.chats
      && (saved.error.Some? ==> saved.state.docs == s.docs)
      && (saved.error.None? && m.id == NIL_ID ==>
            Outlines(saved.state.docs) == Outlines(s.docs) + [Outline(FromInternal(m)).(id := freshId)])
      && (saved.error.None? && m.id != NIL_ID ==>
            && S.FindDoc(Outlines(s.docs), m.id).Some?
            && Outlines(saved.state.docs) ==
               Outlines(s.docs)[S.FindDoc(Outlines(s.docs), m.id).value := Outline(FromInternal(m))])
  {
    var saved := S.SaveMessage(s, m, freshId);
    FindOutline(s.docs, m.id);
    if saved.error.None? {
      if m.id == NIL_ID {
        OutlinesSnoc(s.docs, FromInternal(m.(id := freshId)));
      } else {
        OutlinesUpdate(s.docs, S.FindDoc(s.docs, m.id).value, FromInternal(m));
      }
    }
  }

  lemma OutlinesAfterTouch(docs: seq<Doc>, i: nat, t: S.Touch)
    requires i < |docs|
    ensures Outlines(docs[i := S.ApplyTouch(docs[i], t)]) == Outlines(docs)
  {
  }

  lemma TouchOutlines(s: S.StoreState, idText: string, t: S.Touch)
    ensures var s' := S.TouchMessage(s, idText, t).0;
            Outlines(s'.docs) == Outlines(s.docs) && s'.chats == s.chats
  {
    if FromHex(idText).Some? && S.FindDoc(s.docs, FromHex(idText).value).Some? {
      OutlinesAfterTouch(s.docs, S.FindDoc(s.docs, FromHex(idText).value).value, t);
    }
  }

  lemma EventStoresAsAsked(s: S.StoreState, e: ChatEvent, now: int, freshId: ObjectId)
    ensures var (s', o) := ApplyEvent(s, e, now, freshId);
            var ok := o.Broadcast? &&
                      (e.kind.UpdateMessage? && e.details.MessageValue? ==>
                         S.SaveMessage(s, e.details.m, freshId).error.None?);
      && Outlines(s'.docs) == (if ok then Ask(Outlines(s.docs), e, Input(now, freshId)) else Outlines(s.docs))
      && s'.chats == (if ok then AskChat(s.chats, e, Input(now, freshId)) else s.chats)
  {
    match (e.kind, e.details)
    case (NewMessage, Fields(d)) =>
      if FromHex(e.chatId).Some? {
        SaveOutlines(s, SentMessage(FromHex(e.chatId).value, e.userId, d, now), freshId);
      }
    case (UpdateMessage, MessageValue(m)) => SaveOutlines(s, m, freshId);
    case (EditMessage, Fields(d)) => TouchOutlines(s, d.id, S.SetContent(d.content));
    case (HideMessage, Fields(d)) =>
      TouchOutlines(s, d.id, if d.hidden then S.AddHidden(e.userId) else S.PullHidden(e.userId));
    case (DeleteMessage, Fields(d)) => TouchOutlines(s, d.id, S.MarkDeleted);
    case _ =>
  }

  lemma EffectStoresAsAsked(s: S.StoreState, body: Json, now: int, freshId: ObjectId)
    requires !PoisonPost(body)
    ensures var s' := HandleDelivery(s, body, now, freshId, true).state;
            var ok := StoreSucceeds(s, body, now, freshId);
      && (ok ==> DecodeEvent(body).Ok?)
      && Outlines(s'.docs) ==
         (if ok then Ask(Outlines(s.docs), DecodeEvent(body).value, Input(now, freshId)) else Outlines(s.docs))
      && s'.chats == (if ok then AskChat(s.chats, DecodeEvent(body).value, Input(now, freshId)) else s.chats)
  {
    if DecodeEvent(body).Ok? {
      EventStoresAsAsked(s, DecodeEvent(body).value, now, freshId);
    }
  }

  lemma StepStoresAsAsked(y: System, c: nat, now: int, freshId: ObjectId)
    requires StoredAsAsked(y) && Enabled(y, ApplyToStore(c, now, freshId))
    ensures StoredAsAsked(Next(y, ApplyToStore(c, now, freshId)))
  {
    var y' := Next(y, ApplyToStore(c, now, freshId));
    EffectStoresAsAsked(y.store, y.bodies[y.work[c].tag], now, freshId);
    if y'.effects != y.effects {
      assert y'.effects[..|y.effects|] == y.effects && y'.inputs[..|y.effects|] == y.inputs;
    }
  }

  lemma BackgroundKeepsDocuments(s: S.StoreState, op: Op)
    requires InBackground(op)
    ensures Apply(s, op).docs == s.docs && Apply(s, op).chats == s.chats
  {
  }

  lemma {:induction false} RunStoresAsAsked(y: System, run: seq<Action>)
    requires StoredAsAsked(y) && EnabledRun(y, run)
    ensures StoredAsAsked(After(y, run))
    decreases |run|
  {
    if run == [] {
    } else {
      match run[0] {
        case ApplyToStore(c, now, freshId) => StepStoresAsAsked(y, c, now, freshId);
        case Publish(body) => AskedOfMoreBodies(y.bodies, [body], y.effects, y.inputs);
        case Between(op) => BackgroundKeepsDocuments(y.store, op);
        case _ =>
      }
      RunStoresAsAsked(Next(y, run[0]), run[1..]);
    }
  }

  /** In every run, with any redeliveries, losses and crashes, the documents are those the successful effects asked
      for, one by one and in their order: id, chat, author, type and times, whatever was edited, hidden or deleted
      since; and so are the chats with their names. What failed or was rejected left no trace. */
  lemma DocumentsAreEffects(run: seq<Action>)
    requires EnabledRun(START, run)
    ensures var y := After(START, run);
      && |y.inputs| == |y.effects|
      && Outlines(y.store.docs) == Asked(y.bodies, y.effects, y.inputs).0
      && y.store.chats == Asked(y.bodies, y.effects, y.inputs).1
  {
    RunStoresAsAsked(START, run);
  }
}

/** The AMQP client that redials a lost connection and sets its publishers and consumers up again.
    What the broker answers to each call is a parameter. */
module Reconnect {
  import opened Wrappers

  /** Connections are numbered in the order they were opened. */
  datatype Channel = NoChannel | OpenOn(conn: nat) | ClosedOn(conn: nat)

  /** `tag` tells consumer objects apart. */
  datatype Consumer = Consumer(tag: nat, queue: Option<string>, routingKey: string, exchange: Option<string>)

  /** A delivery loop of the consumer with this tag, fed by this connection. */
  datatype Loop = Loop(consumer: nat, conn: nat)

  datatype PublisherFault = PublisherOk | ChannelRefused | ExchangeRefused(index: nat)

  datatype ConsumerFault = ConsumerOk | ConsumerRefused

  datatype Publisher = Publisher(exchanges: seq<string>, ch: Channel)

  /** Up: set up on the current connection. Down: the connection is lost. Redialed: a new one is open,
      and the resetup pass has yet to run. */
  datatype Phase = Up | Down | Redialed

  /** `conn` is nil after a failed dial. Registration has two steps: what is joining has been set up and is about to
      be appended to its list. `objects` numbers what was set up. */
  datatype State = State(
    conn: Option<nat>, dials: nat, phase: Phase, objects: nat,
    publishers: seq<Publisher>, joiningPublishers: map<nat, Publisher>,
    consumers: seq<Consumer>, joiningConsumers: map<nat, Consumer>, loops: seq<Loop>)

  /** After the first dial, which succeeded. */
  const DIALED := State(Some(0), 1, Up, 0, [], map[], [], map[], [])

  // ---- Single calls ----

  /** On a nil or lost connection no channel opens; a refused declaration closes the channel it was made on. */
  function SetupPublisher(p: Publisher, conn: Option<nat>, fault: PublisherFault): Publisher {
    if conn.None? then p
    else if fault.ChannelRefused? then p.(ch := NoChannel)
    else if fault.ExchangeRefused? && fault.index < |p.exchanges| then p.(ch := ClosedOn(conn.value))
    else p.(ch := OpenOn(conn.value))
  }

  predicate PublisherSucceeds(p: Publisher, conn: Option<nat>, fault: PublisherFault) {
    conn.Some? && !fault.ChannelRefused? && (fault.ExchangeRefused? ==> fault.index >= |p.exchanges|)
  }

  predicate ConsumerSucceeds(c: Consumer, conn: Option<nat>, fault: ConsumerFault) {
    conn.Some? && c.queue.Some? && fault.ConsumerOk?
  }

  function Unless(down: bool, fault: PublisherFault): PublisherFault {
    if down then ChannelRefused else fault
  }

  function UnlessC(down: bool, fault: ConsumerFault): ConsumerFault {
    if down then ConsumerRefused else fault
  }

  function WithoutConn(loops: seq<Loop>, conn: nat): (r: seq<Loop>)
    ensures forall l :: l in r <==> l in loops && l.conn != conn
  {
    if loops == [] then [] else (if loops[0].conn == conn then [] else [loops[0]]) + WithoutConn(loops[1..], conn)
  }

  function Closed(p: Publisher, conn: nat): Publisher {
    if p.ch == OpenOn(conn) then p.(ch := ClosedOn(conn)) else p
  }

  // ---- Actions ----

  datatype Action =
    | SetUpPublisher(exchanges: seq<string>, pubFault: PublisherFault)
    | AppendPublisher(tag: nat)
    | SetUpConsumer(queue: Option<string>, routingKey: string, exchange: Option<string>, conFault: ConsumerFault)
    | AppendConsumer(tag: nat)
    | Lose
    | FailDial
    | Redial
    | Resetup(pubFaults: seq<PublisherFault>, conFaults: seq<ConsumerFault>)

  predicate Enabled(s: State, a: Action) {
    match a
    case AppendPublisher(tag) => tag in s.joiningPublishers
    case AppendConsumer(tag) => tag in s.joiningConsumers
    case Lose => s.phase.Up?
    case FailDial => s.phase.Down?
    case Redial => s.phase.Down?
    case Resetup(ps, cs) => s.phase.Redialed? && |ps| == |s.publishers| && |cs| == |s.consumers|
    case _ => true
  }

  /** The first loop of a pass: one publisher after the other, going on after a failure. */
  function ResetPublishers(ps: seq<Publisher>, conn: Option<nat>, faults: seq<PublisherFault>): (r: seq<Publisher>)
    requires |ps| == |faults|
    ensures |r| == |ps|
    ensures forall i :: 0 <= i < |ps| ==> r[i] == SetupPublisher(ps[i], conn, faults[i])
  {
    seq(|ps|, i requires 0 <= i < |ps| => SetupPublisher(ps[i], conn, faults[i]))
  }

  function StartedLoop(c: Consumer, conn: Option<nat>, fault: ConsumerFault): seq<Loop> {
    if ConsumerSucceeds(c, conn, fault) then [Loop(c.tag, conn.value)] else []
  }

  /** The second loop: the delivery loops it starts for the first `n` consumers, one where the setup succeeds. */
  function StartedLoops(cs: seq<Consumer>, conn: Option<nat>, faults: seq<ConsumerFault>, n: nat): seq<Loop>
    requires |cs| == |faults| && n <= |cs|
  {
    if n == 0 then []
    else StartedLoops(cs, conn, faults, n - 1) + StartedLoop(cs[n - 1], conn, faults[n - 1])
  }

  lemma StartedNext(before: seq<Loop>, cs: seq<Consumer>, conn: Option<nat>, faults: seq<ConsumerFault>, n: nat)
    requires |cs| == |faults| && n < |cs|
    ensures before + StartedLoops(cs, conn, faults, n) + StartedLoop(cs[n], conn, faults[n]) ==
            before + StartedLoops(cs, conn, faults, n + 1)
  {
  }

  function Next(s: State, a: Action): State
    requires Enabled(s, a)
  {
    match a
    case SetUpPublisher(exchanges, fault) =>
      var p := Publisher(exchanges, NoChannel);
      var f := Unless(s.phase.Down?, fault);
      if PublisherSucceeds(p, s.conn, f) then
        s.(objects := s.objects + 1,
           joiningPublishers := s.joiningPublishers[s.objects := SetupPublisher(p, s.conn, f)])
      else s
    case AppendPublisher(tag) =>
      s.(publishers := s.publishers + [s.joiningPublishers[tag]], joiningPublishers := s.joiningPublishers - {tag})
    case SetUpConsumer(queue, routingKey, exchange, fault) =>
      var c := Consumer(s.objects, queue, routingKey, exchange);
      if ConsumerSucceeds(c, s.conn, UnlessC(s.phase.Down?, fault)) then
        s.(objects := s.objects + 1, joiningConsumers := s.joiningConsumers[s.objects := c],
           loops := s.loops + [Loop(s.objects, s.conn.value)])
      else s
    case AppendConsumer(tag) =>
      s.(consumers := s.consumers + [s.joiningConsumers[tag]], joiningConsumers := s.joiningConsumers - {tag})
    case Lose =>
      if s.conn.None? then s.(phase := Down)
      else
        var conn := s.conn.value;
        s.(phase := Down, loops := WithoutConn(s.loops, conn),
           publishers := seq(|s.publishers|, i requires 0 <= i < |s.publishers| => Closed(s.publishers[i], conn)),
           joiningPublishers := map t | t in s.joiningPublishers :: Closed(s.joiningPublishers[t], conn))
    case FailDial => s.(conn := None)
    case Redial => s.(conn := Some(s.dials), dials := s.dials + 1, phase := Redialed)
    case Resetup(pubFaults, conFaults) =>
      s.(phase := Up, publishers := ResetPublishers(s.publishers, s.conn, pubFaults),
         loops := s.loops + StartedLoops(s.consumers, s.conn, conFaults, |s.consumers|))
  }

  ghost predicate EnabledRun(s: State, run: seq<Action>)
    decreases |run|
  {
    run != [] ==> Enabled(s, run[0]) && EnabledRun(Next(s, run[0]), run[1..])
  }

  ghost function After(s: State, run: seq<Action>): State
    requires EnabledRun(s, run)
    decreases |run|
  {
    if run == [] then s else After(Next(s, run[0]), run[1..])
  }

  /** A registration that nothing interrupts: set up and, if that succeeds, append. */
  function NewPublisher(s: State, exchanges: seq<string>, fault: PublisherFault): State {
    var s1 := Next(s, SetUpPublisher(exchanges, fault));
    if s1.objects != s.objects then Next(s1, AppendPublisher(s.objects)) else s1
  }

  function RegisterConsumer(
    s: State, queue: Option<string>, routingKey: string, exchange: Option<string>, fault: ConsumerFault): State
  {
    var s1 := Next(s, SetUpConsumer(queue, routingKey, exchange, fault));
    if s1.objects != s.objects then Next(s1, AppendConsumer(s.objects)) else s1
  }

  // ---- Invariant ----

  ghost predicate DistinctTags(cs: seq<Consumer>) {
    forall i, j :: 0 <= i < j < |cs| ==> cs[i].tag != cs[j].tag
  }

  ghost predicate IsTag(cs: seq<Consumer>, tag: nat) {
    exists j :: 0 <= j < |cs| && cs[j].tag == tag
  }

  ghost predicate ConsumersInv(s: State) {
    && DistinctTags(s.consumers)
    && (forall j :: 0 <= j < |s.consumers| ==>
          s.consumers[j].queue.Some? && s.consumers[j].tag < s.objects && s.consumers[j].tag !in s.joiningConsumers)
    && (forall t :: t in s.joiningConsumers ==>
          t < s.objects && s.joiningConsumers[t].tag == t && s.joiningConsumers[t].queue.Some?)
  }

  /** Live delivery loops are on the current connection, of consumers that are registered or joining; a joining one has
      at most one. */
  ghost predicate LoopsInv(s: State) {
    && (s.phase.Down? ==> s.loops == [])
    && (forall l :: l in s.loops ==>
          s.conn == Some(l.conn) && (IsTag(s.consumers, l.consumer) || l.consumer in s.joiningConsumers))
    && (forall t :: t in s.joiningConsumers && s.conn.Some? ==> multiset(s.loops)[Loop(t, s.conn.value)] <= 1)
  }

  ghost predicate StateInv(s: State) {
    && (!s.phase.Down? ==> s.conn.Some?)
    && (s.conn.Some? ==> s.conn.value < s.dials)
    && ConsumersInv(s) && LoopsInv(s)
  }

  ghost predicate DistinctLoops(loops: seq<Loop>) {
    forall i, j :: 0 <= i < j < |loops| ==> loops[i] != loops[j]
  }

  /** The loops started are those of the consumers whose setup succeeds, each once. */
  lemma {:induction false} StartedExactly(cs: seq<Consumer>, conn: Option<nat>, faults: seq<ConsumerFault>, n: nat)
    requires |cs| == |faults| && n <= |cs| && DistinctTags(cs)
    ensures forall l :: l in StartedLoops(cs, conn, faults, n) ==>
              exists i :: 0 <= i < n && ConsumerSucceeds(cs[i], conn, faults[i]) && l == Loop(cs[i].tag, conn.value)
    ensures forall i :: 0 <= i < n && ConsumerSucceeds(cs[i], conn, faults[i]) ==>
              Loop(cs[i].tag, conn.value) in StartedLoops(cs, conn, faults, n)
    ensures DistinctLoops(StartedLoops(cs, conn, faults, n))
  {
    if n == 0 {
    } else {
      var front := StartedLoops(cs, conn, faults, n - 1);
      StartedExactly(cs, conn, faults, n - 1);
      assert forall l :: l in front ==> l.consumer != cs[n - 1].tag;
      assert forall i :: 0 <= i < |front| ==> front[i] in front;
    }
  }

  lemma DistinctCount(loops: seq<Loop>, l: Loop)
    requires DistinctLoops(loops)
    ensures multiset(loops)[l] == if l in loops then 1 else 0
  {
    if l in loops {
      var i :| 0 <= i < |loops| && loops[i] == l;
      assert loops == loops[..i] + [l] + loops[i + 1..];
      assert l !in loops[..i] && l !in loops[i + 1..];
    }
  }

  lemma StartedCount(cs: seq<Consumer>, conn: Option<nat>, faults: seq<ConsumerFault>, j: nat)
    requires |cs| == |faults| && j < |cs| && conn.Some? && DistinctTags(cs)
    ensures multiset(StartedLoops(cs, conn, faults, |cs|))[Loop(cs[j].tag, conn.value)] ==
            if ConsumerSucceeds(cs[j], conn, faults[j]) then 1 else 0
  {
    var r := StartedLoops(cs, conn, faults, |cs|);
    StartedExactly(cs, conn, faults, |cs|);
    DistinctCount(r, Loop(cs[j].tag, conn.value));
    if Loop(cs[j].tag, conn.value) in r {
      var i :| 0 <= i < |cs| && ConsumerSucceeds(cs[i], conn, faults[i]) &&
               Loop(cs[j].tag, conn.value) == Loop(cs[i].tag, conn.value);
      assert i == j;
    }
  }

  lemma NotStarted(cs: seq<Consumer>, conn: Option<nat>, faults: seq<ConsumerFault>, tag: nat)
    requires |cs| == |faults| && conn.Some? && DistinctTags(cs) && !IsTag(cs, tag)
    ensures Loop(tag, conn.value) !in StartedLoops(cs, conn, faults, |cs|)
    ensures multiset(StartedLoops(cs, conn, faults, |cs|))[Loop(tag, conn.value)] == 0
  {
    StartedExactly(cs, conn, faults, |cs|);
  }

  lemma {:induction false} NoLoopSurvives(loops: seq<Loop>, conn: nat)
    requires forall l :: l in loops ==> l.conn == conn
    ensures WithoutConn(loops, conn) == []
  {
    if loops == [] {
    } else {
      assert loops[0] in loops;
      NoLoopSurvives(loops[1..], conn);
    }
  }

  lemma CountInConcat(a: seq<Loop>, b: seq<Loop>, l: Loop)
    ensures multiset(a + b)[l] == multiset(a)[l] + multiset(b)[l]
  {
  }

  lemma ResetupKeepsLoops(s: State, pubFaults: seq<PublisherFault>, conFaults: seq<ConsumerFault>)
    requires StateInv(s) && Enabled(s, Resetup(pubFaults, conFaults))
    ensures LoopsInv(Next(s, Resetup(pubFaults, conFaults)))
  {
    var started := StartedLoops(s.consumers, s.conn, conFaults, |s.consumers|);
    StartedExactly(s.consumers, s.conn, conFaults, |s.consumers|);
    forall t | t in s.joiningConsumers ensures multiset(s.loops + started)[Loop(t, s.conn.value)] <= 1 {
      NotStarted(s.consumers, s.conn, conFaults, t);
      CountInConcat(s.loops, started, Loop(t, s.conn.value));
    }
  }

  lemma SetUpKeepsLoops(s: State, a: Action)
    requires StateInv(s) && a.SetUpConsumer?
    ensures LoopsInv(Next(s, a))
  {
    var s' := Next(s, a);
    if s' != s {
      var last := Loop(s.objects, s.conn.value);
      assert last !in s.loops by {
        assert !IsTag(s.consumers, s.objects) && s.objects !in s.joiningConsumers;
      }
      forall t | t in s'.joiningConsumers ensures multiset(s'.loops)[Loop(t, s.conn.value)] <= 1 {
        CountInConcat(s.loops, [last], Loop(t, s.conn.value));
      }
    }
  }

  lemma AppendKeepsLoops(s: State, tag: nat)
    requires StateInv(s) && tag in s.joiningConsumers
    ensures LoopsInv(Next(s, AppendConsumer(tag)))
  {
    var s' := Next(s, AppendConsumer(tag));
    assert s'.consumers[|s.consumers|].tag == tag;
    forall l | l in s'.loops ensures IsTag(s'.consumers, l.consumer) || l.consumer in s'.joiningConsumers {
      if IsTag(s.consumers, l.consumer) {
        var j :| 0 <= j < |s.consumers| && s.consumers[j].tag == l.consumer;
        assert s'.consumers[j].tag == l.consumer;
      }
    }
  }

  lemma NextKeepsConsumers(s: State, a: Action)
    requires ConsumersInv(s) && Enabled(s, a)
    ensures ConsumersInv(Next(s, a))
  {
    if a.AppendConsumer? {
      var s' := Next(s, a);
      assert s'.consumers[|s.consumers|] == s.joiningConsumers[a.tag];
      assert forall j :: 0 <= j < |s.consumers| ==> s'.consumers[j] == s.consumers[j];
    }
  }

  lemma LossKeepsLoops(s: State, a: Action)
    requires StateInv(s) && Enabled(s, a) && (a.Lose? || a.FailDial? || a.Redial?)
    ensures Next(s, a).loops == [] && LoopsInv(Next(s, a))
  {
    if a.Lose? && s.conn.Some? {
      NoLoopSurvives(s.loops, s.conn.value);
    }
  }

  lemma NextKeepsInv(s: State, a: Action)
    requires StateInv(s) && Enabled(s, a)
    ensures StateInv(Next(s, a))
  {
    NextKeepsConsumers(s, a);
    match a
    case Resetup(pubFaults, conFaults) => ResetupKeepsLoops(s, pubFaults, conFaults);
    case SetUpConsumer(_, _, _, _) => SetUpKeepsLoops(s, a);
    case AppendConsumer(tag) => AppendKeepsLoops(s, tag);
    case SetUpPublisher(_, _) =>
    case AppendPublisher(_) =>
    case _ => LossKeepsLoops(s, a);
  }

  lemma {:induction false} RunKeepsInv(s: State, run: seq<Action>)
    requires StateInv(s) && EnabledRun(s, run)
    ensures StateInv(After(s, run))
    decreases |run|
  {
    if run == [] {
    } else {
      NextKeepsInv(s, run[0]);
      RunKeepsInv(Next(s, run[0]), run[1..]);
    }
  }

  // ---- A pass ----

  /** The consumer with this tag has a live delivery loop. */
  predicate Live(s: State, tag: nat) {
    s.conn.Some? && Loop(tag, s.conn.value) in s.loops
  }

  /** Every registered publisher's channel and exactly one live loop per registered consumer are on the current
      connection, and no loop is on another. */
  ghost predicate Restored(s: State) {
    && s.conn.Some?
    && (forall i :: 0 <= i < |s.publishers| ==> s.publishers[i].ch == OpenOn(s.conn.value))
    && (forall j :: 0 <= j < |s.consumers| ==> multiset(s.loops)[Loop(s.consumers[j].tag, s.conn.value)] == 1)
    && (forall l :: l in s.loops ==> l.conn == s.conn.value)
  }

  /** What one pass does from any state with the invariant. */
  lemma PassFrom(s: State, pubFaults: seq<PublisherFault>, conFaults: seq<ConsumerFault>, j: nat)
    requires StateInv(s) && Enabled(s, Resetup(pubFaults, conFaults)) && j < |s.consumers|
    ensures var s' := Next(s, Resetup(pubFaults, conFaults));
            var l := Loop(s.consumers[j].tag, s.conn.value);
            multiset(s'.loops)[l] == multiset(s.loops)[l] + (if conFaults[j].ConsumerOk? then 1 else 0)
  {
    StartedCount(s.consumers, s.conn, conFaults, j);
    CountInConcat(s.loops, StartedLoops(s.consumers, s.conn, conFaults, |s.consumers|),
                  Loop(s.consumers[j].tag, s.conn.value));
  }

  /** The channel after a setup: open on the new connection exactly when nothing was refused, gone exactly when the
      channel itself was refused, and closed by the broker otherwise. */
  predicate SetUpAs(after: Publisher, before: Publisher, conn: Option<nat>, fault: PublisherFault) {
    && conn.Some?
    && (after.ch == OpenOn(conn.value) <==> PublisherSucceeds(before, conn, fault))
    && (after.ch == NoChannel <==> fault.ChannelRefused?)
    && (after.ch == ClosedOn(conn.value) <==> !PublisherSucceeds(before, conn, fault) && !fault.ChannelRefused?)
  }

  lemma PublishersOfPass(s: State, pubFaults: seq<PublisherFault>, conFaults: seq<ConsumerFault>)
    requires StateInv(s) && Enabled(s, Resetup(pubFaults, conFaults))
    ensures var s' := Next(s, Resetup(pubFaults, conFaults));
      && |s'.publishers| == |s.publishers|
      && forall i :: 0 <= i < |s.publishers| ==>
           && s'.publishers[i].exchanges == s.publishers[i].exchanges
           && SetUpAs(s'.publishers[i], s.publishers[i], s.conn, pubFaults[i])
  {
  }

  /** A pass after any run: each publisher and consumer is set up on the new connection exactly when its own setup
      succeeds, the registered lists keep their content and order, and no loop of an older connection is left. */
  lemma PassIsExact(run: seq<Action>, pubFaults: seq<PublisherFault>, conFaults: seq<ConsumerFault>)
    requires EnabledRun(DIALED, run) && Enabled(After(DIALED, run), Resetup(pubFaults, conFaults))
    ensures var s := After(DIALED, run);
            var s' := Next(s, Resetup(pubFaults, conFaults));
      && s.conn.Some? && s'.conn == s.conn && s'.consumers == s.consumers
      && |s'.publishers| == |s.publishers|
      && (forall i :: 0 <= i < |s.publishers| ==>
            && s'.publishers[i].exchanges == s.publishers[i].exchanges
            && SetUpAs(s'.publishers[i], s.publishers[i], s.conn, pubFaults[i]))
      && (forall j :: 0 <= j < |s.consumers| ==>
            multiset(s'.loops)[Loop(s.consumers[j].tag, s.conn.value)] ==
            multiset(s.loops)[Loop(s.consumers[j].tag, s.conn.value)] + (if conFaults[j].ConsumerOk? then 1 else 0))
      && (forall l :: l in s'.loops ==> l.conn == s.conn.value)
  {
    RunKeepsInv(DIALED, run);
    var s := After(DIALED, run);
    ResetupKeepsLoops(s, pubFaults, conFaults);
    PublishersOfPass(s, pubFaults, conFaults);
    forall j | 0 <= j < |s.consumers|
      ensures multiset(Next(s, Resetup(pubFaults, conFaults)).loops)[Loop(s.consumers[j].tag, s.conn.value)] ==
              multiset(s.loops)[Loop(s.consumers[j].tag, s.conn.value)] + (if conFaults[j].ConsumerOk? then 1 else 0)
    {
      PassFrom(s, pubFaults, conFaults, j);
    }
  }

  /** The pass restores everything exactly when no registered consumer has a live loop already. */
  lemma RestoredFrom(s: State, pubFaults: seq<PublisherFault>, conFaults: seq<ConsumerFault>)
    requires StateInv(s) && Enabled(s, Resetup(pubFaults, conFaults))
    requires forall i :: 0 <= i < |s.publishers| ==> PublisherSucceeds(s.publishers[i], s.conn, pubFaults[i])
    requires forall j :: 0 <= j < |s.consumers| ==> conFaults[j].ConsumerOk?
    ensures Restored(Next(s, Resetup(pubFaults, conFaults))) <==>
            forall j :: 0 <= j < |s.consumers| ==> !Live(s, s.consumers[j].tag)
  {
    var s' := Next(s, Resetup(pubFaults, conFaults));
    ResetupKeepsLoops(s, pubFaults, conFaults);
    PublishersOfPass(s, pubFaults, conFaults);
    forall j | 0 <= j < |s.consumers|
      ensures multiset(s'.loops)[Loop(s.consumers[j].tag, s.conn.value)] == 1 <==> !Live(s, s.consumers[j].tag)
    {
      PassFrom(s, pubFaults, conFaults, j);
      assert Live(s, s.consumers[j].tag) <==> multiset(s.loops)[Loop(s.consumers[j].tag, s.conn.value)] > 0;
    }
  }

  // ---- Registration around a redial ----

  predicate Registers(a: Action) {
    a.SetUpPublisher? || a.AppendPublisher? || a.SetUpConsumer? || a.AppendConsumer?
  }

  /** The state in which a pass begins: any run, a redial, and the registration steps before the pass gets going. */
  ghost predicate PassMayStart(run: seq<Action>, between: seq<Action>) {
    && EnabledRun(DIALED, run) && Enabled(After(DIALED, run), Redial)
    && EnabledRun(Next(After(DIALED, run), Redial), between)
    && forall i :: 0 <= i < |between| ==> Registers(between[i])
  }

  ghost function BeforePass(run: seq<Action>, between: seq<Action>): State
    requires PassMayStart(run, between)
  {
    After(Next(After(DIALED, run), Redial), between)
  }

  /** Since the redial, exactly the consumers set up since, those with tags from `first` on, have a live loop. */
  ghost predicate LiveSince(s: State, first: nat) {
    && (forall l :: l in s.loops ==> l.consumer >= first)
    && (forall t :: t in s.joiningConsumers && t >= first ==> Live(s, t))
    && (forall j :: 0 <= j < |s.consumers| && s.consumers[j].tag >= first ==> Live(s, s.consumers[j].tag))
  }

  predicate AppendsOnly(a: Action, first: nat) {
    a.AppendConsumer? ==> a.tag < first
  }

  /** Every registered consumer was set up before. */
  ghost predicate OlderThan(s: State, first: nat) {
    forall j :: 0 <= j < |s.consumers| ==> s.consumers[j].tag < first
  }

  lemma OneBetween(s: State, a: Action, first: nat)
    requires StateInv(s) && s.phase.Redialed? && Enabled(s, a) && Registers(a)
    requires LiveSince(s, first) && first <= s.objects
    ensures var s' := Next(s, a);
      && s'.phase.Redialed? && s'.conn == s.conn && first <= s'.objects && LiveSince(s', first)
      && (OlderThan(s', first) <==> OlderThan(s, first) && AppendsOnly(a, first))
  {
    var s' := Next(s, a);
    if a.AppendConsumer? {
      assert s'.consumers[|s.consumers|].tag == a.tag;
      assert forall j :: 0 <= j < |s.consumers| ==> s'.consumers[j] == s.consumers[j];
    }
  }

  ghost predicate AllAppendOnly(between: seq<Action>, first: nat) {
    forall i :: 0 <= i < |between| ==> AppendsOnly(between[i], first)
  }

  lemma AppendsCons(a: Action, rest: seq<Action>, first: nat)
    ensures AllAppendOnly([a] + rest, first) <==> AppendsOnly(a, first) && AllAppendOnly(rest, first)
  {
    assert ([a] + rest)[0] == a && forall i :: 0 <= i < |rest| ==> ([a] + rest)[i + 1] == rest[i];
  }

  lemma {:induction false} AllBetween(s: State, between: seq<Action>, first: nat)
    requires StateInv(s) && s.phase.Redialed? && EnabledRun(s, between)
    requires forall i :: 0 <= i < |between| ==> Registers(between[i])
    requires LiveSince(s, first) && first <= s.objects
    ensures StateInv(After(s, between)) && LiveSince(After(s, between), first)
    ensures OlderThan(After(s, between), first) <==> OlderThan(s, first) && AllAppendOnly(between, first)
    decreases |between|
  {
    if between == [] {
    } else {
      assert between == [between[0]] + between[1..];
      OneBetween(s, between[0], first);
      NextKeepsInv(s, between[0]);
      AppendsCons(between[0], between[1..], first);
      AllBetween(Next(s, between[0]), between[1..], first);
    }
  }

  /** Main result: after any losses and failed dials, a pass in which every setup succeeds restores everything exactly
      when no consumer was both set up and appended between the redial and the pass. One that was ends up with two
      loops; one set up before the redial, or appended after the pass began, does no harm here. */
  lemma RestoredExactly(
    run: seq<Action>, between: seq<Action>, pubFaults: seq<PublisherFault>, conFaults: seq<ConsumerFault>)
    requires PassMayStart(run, between) && Enabled(BeforePass(run, between), Resetup(pubFaults, conFaults))
    requires var s := BeforePass(run, between);
      && (forall i :: 0 <= i < |s.publishers| ==> PublisherSucceeds(s.publishers[i], s.conn, pubFaults[i]))
      && (forall j :: 0 <= j < |s.consumers| ==> conFaults[j].ConsumerOk?)
    ensures Restored(Next(BeforePass(run, between), Resetup(pubFaults, conFaults))) <==>
            AllAppendOnly(between, After(DIALED, run).objects)
  {
    RunKeepsInv(DIALED, run);
    var s0 := Next(After(DIALED, run), Redial);
    NextKeepsInv(After(DIALED, run), Redial);
    AllBetween(s0, between, s0.objects);
    var s := BeforePass(run, between);
    RestoredFrom(s, pubFaults, conFaults);
    assert forall j :: 0 <= j < |s.consumers| ==> (Live(s, s.consumers[j].tag) <==> s.consumers[j].tag >= s0.objects);
  }

  // ---- Registration around a loss ----

  lemma OneWhileJoining(s: State, a: Action, tag: nat)
    requires StateInv(s) && Enabled(s, a) && tag in s.joiningConsumers && a != AppendConsumer(tag)
    ensures tag in Next(s, a).joiningConsumers
    ensures Live(Next(s, a), tag) <==> Live(s, tag) && !a.Lose?
  {
    match a
    case Lose =>
      if s.conn.Some? {
        NoLoopSurvives(s.loops, s.conn.value);
      }
    case Resetup(pubFaults, conFaults) => NotStarted(s.consumers, s.conn, conFaults, tag);
    case _ =>
  }

  lemma {:induction false} AllWhileJoining(s: State, mid: seq<Action>, tag: nat)
    requires StateInv(s) && EnabledRun(s, mid) && tag in s.joiningConsumers && AppendConsumer(tag) !in mid
    ensures StateInv(After(s, mid)) && tag in After(s, mid).joiningConsumers
    ensures Live(After(s, mid), tag) <==> Live(s, tag) && Lose !in mid
    decreases |mid|
  {
    if mid == [] {
    } else {
      assert mid[0] in mid && mid == [mid[0]] + mid[1..];
      OneWhileJoining(s, mid[0], tag);
      NextKeepsInv(s, mid[0]);
      AllWhileJoining(Next(s, mid[0]), mid[1..], tag);
    }
  }

  /** Main result for a registration that straddles anything at all: the consumer that is finally appended has a live
      delivery loop exactly when the connection was not lost since it was set up, whatever passes came in between. */
  lemma StraddlingRegistration(
    run: seq<Action>, queue: Option<string>, routingKey: string, exchange: Option<string>, mid: seq<Action>)
    requires EnabledRun(DIALED, run)
    requires var s := After(DIALED, run);
             var s1 := Next(s, SetUpConsumer(queue, routingKey, exchange, ConsumerOk));
             s1 != s && EnabledRun(s1, mid) && AppendConsumer(s.objects) !in mid
    ensures var s := After(DIALED, run);
            var s2 := After(Next(s, SetUpConsumer(queue, routingKey, exchange, ConsumerOk)), mid);
      && Enabled(s2, AppendConsumer(s.objects))
      && IsTag(Next(s2, AppendConsumer(s.objects)).consumers, s.objects)
      && (Live(Next(s2, AppendConsumer(s.objects)), s.objects) <==> Lose !in mid)
  {
    RunKeepsInv(DIALED, run);
    var s := After(DIALED, run);
    var s1 := Next(s, SetUpConsumer(queue, routingKey, exchange, ConsumerOk));
    NextKeepsInv(s, SetUpConsumer(queue, routingKey, exchange, ConsumerOk));
    AllWhileJoining(s1, mid, s.objects);
    var s2 := After(s1, mid);
    assert Next(s2, AppendConsumer(s.objects)).consumers[|s2.consumers|].tag == s.objects;
  }

  /** While the connection stays up and everything is restored, a step of a registration keeps it so, except an append
      of what was set up on a connection that is gone. */
  lemma RegistrationKeepsRestoredExactly(s: State, a: Action)
    requires StateInv(s) && Restored(s) && s.phase.Up? && Registers(a) && Enabled(s, a)
    ensures Restored(Next(s, a)) <==>
            && (a.AppendPublisher? ==> s.joiningPublishers[a.tag].ch == OpenOn(s.conn.value))
            && (a.AppendConsumer? ==> Live(s, a.tag))
  {
    var s' := Next(s, a);
    if a.AppendPublisher? {
      assert s'.publishers[|s.publishers|] == s.joiningPublishers[a.tag];
      assert forall i :: 0 <= i < |s.publishers| ==> s'.publishers[i] == s.publishers[i];
    } else if a.AppendConsumer? {
      AppendedCount(s, a.tag);
    } else if a.SetUpConsumer? {
      SetUpCounts(s, a);
    }
  }

  lemma AppendedCount(s: State, tag: nat)
    requires StateInv(s) && Restored(s) && tag in s.joiningConsumers
    ensures Restored(Next(s, AppendConsumer(tag))) <==> Live(s, tag)
  {
    var s' := Next(s, AppendConsumer(tag));
    assert s'.consumers[|s.consumers|].tag == tag;
    assert forall j :: 0 <= j < |s.consumers| ==> s'.consumers[j] == s.consumers[j];
    assert multiset(s.loops)[Loop(tag, s.conn.value)] == 1 <==> Live(s, tag);
  }

  lemma SetUpCounts(s: State, a: Action)
    requires StateInv(s) && Restored(s) && a.SetUpConsumer?
    ensures Restored(Next(s, a))
  {
    var s' := Next(s, a);
    forall j | 0 <= j < |s.consumers| ensures multiset(s'.loops)[Loop(s.consumers[j].tag, s.conn.value)] == 1 {
      CountInConcat(s.loops, [Loop(s.objects, s.conn.value)], Loop(s.consumers[j].tag, s.conn.value));
    }
  }

  // ---- What is registered is what was asked for ----

  /** An uninterrupted registration of a consumer succeeds exactly when the connection is up, a queue is named and
      nothing is refused; then the last consumer is a new one with the queue, routing key and exchange asked for, its
      loop is live, and nothing else changed. Otherwise nothing changed at all. */
  lemma ConsumerRegisteredAsAsked(
    s: State, queue: Option<string>, routingKey: string, exchange: Option<string>, fault: ConsumerFault)
    requires StateInv(s)
    ensures var s' := RegisterConsumer(s, queue, routingKey, exchange, fault);
            var n := |s.consumers|;
            if !s.phase.Down? && queue.Some? && fault.ConsumerOk? then
              && |s'.consumers| == n + 1 && s'.consumers[..n] == s.consumers
              && s'.consumers[n].queue == queue && s'.consumers[n].routingKey == routingKey
              && s'.consumers[n].exchange == exchange
              && !IsTag(s.consumers, s'.consumers[n].tag)
              && Live(s', s'.consumers[n].tag) && |s'.loops| == |s.loops| + 1
              && s'.publishers == s.publishers && s'.conn == s.conn && s'.joiningConsumers == s.joiningConsumers
            else s' == s
  {
  }

  lemma PublisherRegisteredAsAsked(s: State, exchanges: seq<string>, fault: PublisherFault)
    requires StateInv(s) && s.objects !in s.joiningPublishers
    ensures var s' := NewPublisher(s, exchanges, fault);
            var n := |s.publishers|;
            if !s.phase.Down? && (fault.PublisherOk? || (fault.ExchangeRefused? && fault.index >= |exchanges|)) then
              && |s'.publishers| == n + 1 && s'.publishers[..n] == s.publishers
              && s'.publishers[n].exchanges == exchanges && s'.publishers[n].ch == OpenOn(s.conn.value)
              && s'.consumers == s.consumers && s'.loops == s.loops && s'.conn == s.conn
              && s'.joiningPublishers == s.joiningPublishers
            else s' == s
  {
  }

  lemma {:induction false} RunSnoc(s: State, run: seq<Action>)
    requires run != [] && EnabledRun(s, run)
    ensures var front := run[..|run| - 1];
            EnabledRun(s, front) && Enabled(After(s, front), run[|run| - 1]) &&
            After(s, run) == Next(After(s, front), run[|run| - 1])
    decreases |run|
  {
    if |run| == 1 {
      assert run[..0] == [] && run[1..] == [];
    } else {
      RunSnoc(Next(s, run[0]), run[1..]);
      assert run[1..][..|run| - 2] == run[..|run| - 1][1..];
    }
  }

  /** Some step of the run set this consumer up, as the next object then, for this queue, routing key and exchange. */
  ghost predicate Asked(run: seq<Action>, c: Consumer) {
    exists i :: 0 <= i < |run| && AskedAt(run, c, i)
  }

  ghost predicate AskedAt(run: seq<Action>, c: Consumer, i: nat)
    requires i < |run|
  {
    && run[i].SetUpConsumer? && run[i].queue == c.queue && run[i].routingKey == c.routingKey
    && run[i].exchange == c.exchange
    && EnabledRun(DIALED, run[..i]) && After(DIALED, run[..i]).objects == c.tag
  }

  ghost predicate AskedPublisher(run: seq<Action>, p: Publisher) {
    exists i :: 0 <= i < |run| && run[i].SetUpPublisher? && run[i].exchanges == p.exchanges
  }

  ghost predicate AllAsked(run: seq<Action>, s: State) {
    && (forall j :: 0 <= j < |s.consumers| ==> Asked(run, s.consumers[j]))
    && (forall t :: t in s.joiningConsumers ==> Asked(run, s.joiningConsumers[t]))
    && (forall i :: 0 <= i < |s.publishers| ==> AskedPublisher(run, s.publishers[i]))
    && (forall t :: t in s.joiningPublishers ==> AskedPublisher(run, s.joiningPublishers[t]))
  }

  lemma AskedLater(run: seq<Action>, a: Action)
    ensures forall c :: Asked(run, c) ==> Asked(run + [a], c)
    ensures forall p :: AskedPublisher(run, p) ==> AskedPublisher(run + [a], p)
  {
    forall c | Asked(run, c) ensures Asked(run + [a], c) {
      var i :| 0 <= i < |run| && AskedAt(run, c, i);
      assert (run + [a])[..i] == run[..i];
      assert AskedAt(run + [a], c, i);
    }
    forall p | AskedPublisher(run, p) ensures AskedPublisher(run + [a], p) {
      var i :| 0 <= i < |run| && run[i].SetUpPublisher? && run[i].exchanges == p.exchanges;
      assert (run + [a])[i] == run[i];
    }
  }

  /** The consumer that this set-up makes after the run. */
  ghost function NewConsumer(run: seq<Action>, a: Action): Consumer
    requires EnabledRun(DIALED, run) && a.SetUpConsumer?
  {
    Consumer(After(DIALED, run).objects, a.queue, a.routingKey, a.exchange)
  }

  lemma AskedNow(run: seq<Action>, a: Action)
    requires EnabledRun(DIALED, run)
    ensures a.SetUpConsumer? ==> Asked(run + [a], NewConsumer(run, a))
    ensures a.SetUpPublisher? ==> forall ch :: AskedPublisher(run + [a], Publisher(a.exchanges, ch))
  {
    assert (run + [a])[|run|] == a && (run + [a])[..|run|] == run;
    if a.SetUpConsumer? {
      assert AskedAt(run + [a], NewConsumer(run, a), |run|);
    }
  }

  lemma AppendsAsked(run: seq<Action>, s: State, a: Action)
    requires AllAsked(run, s) && Enabled(s, a) && (a.AppendConsumer? || a.AppendPublisher?)
    ensures AllAsked(run, Next(s, a))
  {
  }

  lemma PassKeepsAsked(run: seq<Action>, s: State, a: Action)
    requires AllAsked(run, s) && Enabled(s, a) && (a.Resetup? || a.Lose? || a.FailDial? || a.Redial?)
    ensures AllAsked(run, Next(s, a))
  {
    var s' := Next(s, a);
    forall i | 0 <= i < |s'.publishers| ensures AskedPublisher(run, s'.publishers[i]) {
      assert s'.publishers[i].exchanges == s.publishers[i].exchanges && AskedPublisher(run, s.publishers[i]);
    }
    forall t | t in s'.joiningPublishers ensures AskedPublisher(run, s'.joiningPublishers[t]) {
      assert s'.joiningPublishers[t].exchanges == s.joiningPublishers[t].exchanges;
      assert AskedPublisher(run, s.joiningPublishers[t]);
    }
  }

  lemma SetUpIsAsked(run: seq<Action>, a: Action)
    requires EnabledRun(DIALED, run) && Enabled(After(DIALED, run), a) && (a.SetUpConsumer? || a.SetUpPublisher?)
    requires AllAsked(run + [a], After(DIALED, run))
    ensures AllAsked(run + [a], Next(After(DIALED, run), a))
  {
    AskedNow(run, a);
  }

  /** Main result over every run: each consumer that is registered or joining has the queue, routing key and exchange of
      the very set-up that made it, and each such publisher the exchanges of a set-up. */
  lemma {:induction false} EverythingWasAsked(run: seq<Action>)
    requires EnabledRun(DIALED, run)
    ensures AllAsked(run, After(DIALED, run))
    decreases |run|
  {
    if run == [] {
    } else {
      var front, a := run[..|run| - 1], run[|run| - 1];
      RunSnoc(DIALED, run);
      assert front + [a] == run;
      EverythingWasAsked(front);
      AskedLater(front, a);
      var s := After(DIALED, front);
      assert AllAsked(run, s);
      if a.SetUpConsumer? || a.SetUpPublisher? {
        SetUpIsAsked(front, a);
      } else if a.AppendConsumer? || a.AppendPublisher? {
        AppendsAsked(run, s, a);
      } else {
        PassKeepsAsked(run, s, a);
      }
    }
  }

  // ---- Channels ----

  /** An open channel is on the current connection, which is up, and no channel is on a connection yet to come. */
  predicate ChannelOk(s: State, p: Publisher) {
    match p.ch
    case NoChannel => true
    case OpenOn(c) => s.conn == Some(c) && !s.phase.Down? && c < s.dials
    case ClosedOn(c) => c < s.dials
  }

  ghost predicate ChannelsInv(s: State) {
    && (s.conn.Some? ==> s.conn.value < s.dials)
    && (forall i :: 0 <= i < |s.publishers| ==> ChannelOk(s, s.publishers[i]))
    && (forall t :: t in s.joiningPublishers ==> ChannelOk(s, s.joiningPublishers[t]))
  }

  lemma NextKeepsChannels(s: State, a: Action)
    requires StateInv(s) && ChannelsInv(s) && Enabled(s, a)
    ensures ChannelsInv(Next(s, a))
  {
  }

  lemma {:induction false} RunKeepsChannels(s: State, run: seq<Action>)
    requires StateInv(s) && ChannelsInv(s) && EnabledRun(s, run)
    ensures ChannelsInv(After(s, run))
    decreases |run|
  {
    if run == [] {
    } else {
      NextKeepsInv(s, run[0]);
      NextKeepsChannels(s, run[0]);
      RunKeepsChannels(Next(s, run[0]), run[1..]);
    }
  }

  /** Over every run, an open channel is on the current connection and that is up; no loop outlives its connection;
      and a redial brings a new one that no channel is on and none was closed on. */
  lemma RedialIsNew(run: seq<Action>)
    requires EnabledRun(DIALED, run)
    ensures var s := After(DIALED, run);
      && (forall i :: 0 <= i < |s.publishers| && s.publishers[i].ch.OpenOn? ==>
            s.conn == Some(s.publishers[i].ch.conn) && !s.phase.Down?)
      && (Enabled(s, Redial) ==>
            var conn := Next(s, Redial).conn;
            && conn.Some? && conn != s.conn
            && forall i :: 0 <= i < |s.publishers| ==>
                 s.publishers[i].ch != OpenOn(conn.value) && s.publishers[i].ch != ClosedOn(conn.value))
      && (s.phase.Down? ==> s.loops == [])
  {
    RunKeepsInv(DIALED, run);
    RunKeepsChannels(DIALED, run);
    var s := After(DIALED, run);
    assert forall i :: 0 <= i < |s.publishers| ==> ChannelOk(s, s.publishers[i]);
  }
}

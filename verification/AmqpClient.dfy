/** The AMQP client as the program has it: objects whose fields are reassigned by dialing, by registration and by the
    resetup loops, each method proved against module Reconnect. */
module AmqpClient {
  import opened Wrappers
  import R = Reconnect

  class Publisher {
    const exchanges: seq<string>
    var ch: R.Channel

    ghost function Value(): R.Publisher
      reads this
    {
      R.Publisher(exchanges, ch)
    }

    constructor (exchanges: seq<string>)
      ensures Value() == R.Publisher(exchanges, R.NoChannel)
    {
      this.exchanges := exchanges;
      ch := R.NoChannel;
    }

    /** Open a channel and declare the exchanges one by one, stopping at the first refusal. */
    method Setup(conn: Option<nat>, fault: R.PublisherFault) returns (ok: bool)
      modifies this
      ensures Value() == R.SetupPublisher(old(Value()), conn, fault)
      ensures ok == R.PublisherSucceeds(old(Value()), conn, fault)
    {
      if conn.None? {
        return false;
      }
      if fault.ChannelRefused? {
        ch := R.NoChannel;
        return false;
      }
      ch := R.OpenOn(conn.value);
      for i := 0 to |exchanges|
        invariant ch == R.OpenOn(conn.value)
        invariant fault.ExchangeRefused? ==> fault.index >= i
      {
        if fault.ExchangeRefused? && fault.index == i {
          ch := R.ClosedOn(conn.value);
          return false;
        }
      }
      return true;
    }
  }

  class Client {
    var conn: Option<nat>
    var dials: nat
    var objects: nat
    var publishers: seq<Publisher>
    var consumers: seq<R.Consumer>
    var loops: seq<R.Loop>

    ghost predicate Valid()
      reads this
    {
      forall i, j :: 0 <= i < j < |publishers| ==> publishers[i] != publishers[j]
    }

    /** The phase is where the reconnecting goroutine stands. */
    ghost function State(phase: R.Phase): R.State
      reads this, publishers
    {
      R.State(conn, dials, phase, objects,
              seq(|publishers|, i requires 0 <= i < |publishers| reads this, publishers => publishers[i].Value()),
              map[],
              consumers, map[], loops)
    }

    /** The first dial; a failure is returned to the caller and there is no client. */
    constructor ()
      ensures Valid() && State(R.Up) == R.DIALED
    {
      conn, dials, objects := Some(0), 1, 0;
      publishers, consumers, loops := [], [], [];
    }

    method Dial(answered: bool) returns (ok: bool)
      modifies this`conn, this`dials
      ensures ok == answered
      ensures conn == if answered then Some(old(dials)) else None
      ensures dials == old(dials) + (if answered then 1 else 0)
      ensures answered ==> State(R.Redialed) == R.Next(old(State(R.Down)), R.Redial)
      ensures !answered ==> State(R.Down) == R.Next(old(State(R.Down)), R.FailDial)
    {
      if answered {
        conn := Some(dials);
        dials := dials + 1;
      } else {
        conn := None;
      }
      return answered;
    }

    /** The inner loop: dial until the broker answers, which it does after `failures` attempts. */
    method Redial(failures: nat)
      requires Valid()
      modifies this`conn, this`dials
      ensures Valid() && State(R.Redialed) == R.Next(old(State(R.Down)), R.Redial)
    {
      var tries := 0;
      var connected := false;
      while !connected
        invariant tries <= failures || connected
        invariant connected ==> conn == Some(old(dials)) && dials == old(dials) + 1
        invariant !connected ==> dials == old(dials)
        decreases !connected, failures - tries
      {
        connected := Dial(tries == failures);
        tries := tries + 1;
      }
    }

    method SetupConsumer(c: R.Consumer, fault: R.ConsumerFault) returns (ok: bool)
      modifies this`loops
      ensures ok == R.ConsumerSucceeds(c, conn, fault)
      ensures loops == old(loops) + R.StartedLoop(c, conn, fault)
    {
      if conn.None? || c.queue.None? || fault.ConsumerRefused? {
        return false;
      }
      loops := loops + [R.Loop(c.tag, conn.value)];
      return true;
    }

    /** The first resetup loop; a failed setup is logged and the loop goes on. */
    method ResetupPublishers(pubFaults: seq<R.PublisherFault>)
      requires Valid() && |pubFaults| == |publishers|
      modifies publishers
      ensures Valid()
      ensures forall i :: 0 <= i < |publishers| ==>
                publishers[i].Value() == R.SetupPublisher(old(publishers[i].Value()), conn, pubFaults[i])
    {
      for i := 0 to |publishers|
        invariant forall j :: 0 <= j < i ==>
                    publishers[j].Value() == R.SetupPublisher(old(publishers[j].Value()), conn, pubFaults[j])
        invariant forall j :: i <= j < |publishers| ==> publishers[j].Value() == old(publishers[j].Value())
      {
        var _ := publishers[i].Setup(conn, pubFaults[i]);
      }
    }

    /** The second resetup loop. */
    method ResetupConsumers(conFaults: seq<R.ConsumerFault>)
      requires |conFaults| == |consumers|
      modifies this`loops
      ensures loops == old(loops) + R.StartedLoops(consumers, conn, conFaults, |consumers|)
    {
      ghost var before := loops;
      var cs := consumers;
      for i := 0 to |cs|
        invariant loops == before + R.StartedLoops(cs, conn, conFaults, i)
      {
        var _ := SetupConsumer(cs[i], conFaults[i]);
        R.StartedNext(before, cs, conn, conFaults, i);
      }
    }

    method Resetup(pubFaults: seq<R.PublisherFault>, conFaults: seq<R.ConsumerFault>)
      requires Valid() && |pubFaults| == |publishers| && |conFaults| == |consumers|
      modifies this`loops, publishers
      ensures Valid() && publishers == old(publishers)
      ensures State(R.Up) == R.Next(old(State(R.Redialed)), R.Resetup(pubFaults, conFaults))
    {
      ResetupPublishers(pubFaults);
      ResetupConsumers(conFaults);
    }

    /** `down` tells whether the connection has been lost, which makes every call on it fail. The object is appended to
        the list only after it was set up; here nothing comes in between. */
    method NewPublisher(exchanges: seq<string>, fault: R.PublisherFault, ghost phase: R.Phase, down: bool)
      returns (p: Publisher?)
      requires Valid() && down == phase.Down?
      modifies this`publishers, this`objects
      ensures Valid() && State(phase) == R.NewPublisher(old(State(phase)), exchanges, fault)
      ensures p != null <==> R.PublisherSucceeds(R.Publisher(exchanges, R.NoChannel), conn, R.Unless(down, fault))
      ensures p != null ==> publishers == old(publishers) + [p]
      ensures p != null ==> p.exchanges == exchanges && p.ch == R.OpenOn(conn.value)
    {
      if conn.None? {
        return null;
      }
      var publisher := new Publisher(exchanges);
      var ok := publisher.Setup(conn, R.Unless(down, fault));
      if !ok {
        return null;
      }
      objects := objects + 1;
      publishers := publishers + [publisher];
      return publisher;
    }

    method RegisterConsumer(
      queue: Option<string>, routingKey: string, exchange: Option<string>, fault: R.ConsumerFault,
      ghost phase: R.Phase, down: bool)
      returns (ok: bool)
      requires Valid() && down == phase.Down?
      modifies this`consumers, this`loops, this`objects
      ensures Valid() && State(phase) == R.RegisterConsumer(old(State(phase)), queue, routingKey, exchange, fault)
      ensures ok <==> conn.Some? && queue.Some? && fault.ConsumerOk? && !down
      ensures ok ==> exists tag :: consumers == old(consumers) + [R.Consumer(tag, queue, routingKey, exchange)]
    {
      if conn.None? {
        return false;
      }
      var c := R.Consumer(objects, queue, routingKey, exchange);
      ok := SetupConsumer(c, R.UnlessC(down, fault));
      if ok {
        objects := objects + 1;
        consumers := consumers + [c];
      }
    }
  }
}

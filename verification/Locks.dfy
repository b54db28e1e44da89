/** The mutexes of one web app: every operation takes them in one order, so no set of goroutines can deadlock. */
module Locks {
  import opened Wrappers

  /** Client metas, the chats map, one chat's clients, the session table, one client's socket. */
  datatype Lock = Metas | Chats | Clients(chat: string) | Sessions | Socket(client: string)

  function Rank(l: Lock): (r: nat)
    ensures r <= 4
  {
    match l
    case Metas => 0
    case Chats => 1
    case Clients(_) => 2
    case Sessions => 3
    case Socket(_) => 4
  }

  datatype Instr = Acquire(l: Lock) | Release(l: Lock)

  // ---- The lock instructions of each operation ----

  /** A client being told of an event, with the number of times rendering consults the session table. */
  datatype Told = Told(client: string, lookups: nat)

  /** The operations, with the data that decides which locks they take: known chats are Some. */
  datatype Op =
    | GetChats
    | ConnectClient(current: Option<string>, sweep: seq<string>, target: Option<string>)
    | DisconnectClient(current: Option<string>)
    | RemoveClient(current: Option<string>)
    | NotifyMessage(chat: Option<string>, clients: seq<Told>)
    | NotifyNewChat(clients: seq<Told>)
    | Send(client: string)

  function Briefly(l: Lock): seq<Instr> { [Acquire(l), Release(l)] }

  function Around(l: Lock, inner: seq<Instr>): seq<Instr> { [Acquire(l)] + inner + [Release(l)] }

  function OneChat(chat: Option<string>): seq<Instr> {
    if chat.Some? then Briefly(Clients(chat.value)) else []
  }

  function EachChat(chats: seq<string>): seq<Instr> {
    if chats == [] then [] else Briefly(Clients(chats[0])) + EachChat(chats[1..])
  }

  function Lookups(n: nat): seq<Instr> {
    if n == 0 then [] else Briefly(Sessions) + Lookups(n - 1)
  }

  function EachClient(clients: seq<Told>): seq<Instr> {
    if clients == [] then []
    else Lookups(clients[0].lookups) + Briefly(Socket(clients[0].client)) + EachClient(clients[1..])
  }

  function Program(op: Op): seq<Instr> {
    match op
    case GetChats => Briefly(Chats)
    case ConnectClient(current, sweep, target) =>
      Around(Metas, Around(Chats, OneChat(current)) + Around(Chats, EachChat(sweep) + OneChat(target)))
    case DisconnectClient(current) => Around(Metas, Around(Chats, OneChat(current)))
    case RemoveClient(current) => Around(Metas, Around(Chats, OneChat(current)))
    case NotifyMessage(chat, clients) =>
      Briefly(Chats) + (if chat.Some? then Around(Clients(chat.value), EachClient(clients)) else [])
    case NotifyNewChat(clients) => Briefly(Chats) + Around(Metas, EachClient(clients))
    case Send(client) => Briefly(Socket(client))
  }

  // ---- Lock order ----

  /** The locks held after the instructions; None if a lock is taken out of order or one not held is released. */
  function Exec(held: set<Lock>, prog: seq<Instr>): Option<set<Lock>>
    decreases |prog|
  {
    if prog == [] then Some(held)
    else match prog[0]
      case Acquire(l) => if forall h :: h in held ==> Rank(h) < Rank(l) then Exec(held + {l}, prog[1..]) else None
      case Release(l) => if l in held then Exec(held - {l}, prog[1..]) else None
  }

  predicate Below(held: set<Lock>, rank: nat) {
    forall h :: h in held ==> Rank(h) < rank
  }

  lemma {:induction false} ExecConcat(held: set<Lock>, a: seq<Instr>, b: seq<Instr>)
    ensures Exec(held, a + b) == if Exec(held, a).Some? then Exec(Exec(held, a).value, b) else None
    decreases |a|
  {
    if a == [] {
      assert a + b == b;
    } else {
      assert (a + b)[1..] == a[1..] + b;
      match a[0]
      case Acquire(l) => ExecConcat(held + {l}, a[1..], b);
      case Release(l) => ExecConcat(held - {l}, a[1..], b);
    }
  }

  lemma ExecAround(held: set<Lock>, l: Lock, inner: seq<Instr>)
    requires Below(held, Rank(l)) && Exec(held + {l}, inner) == Some(held + {l})
    ensures Exec(held, Around(l, inner)) == Some(held)
  {
    ExecConcat(held, [Acquire(l)] + inner, [Release(l)]);
    ExecConcat(held, [Acquire(l)], inner);
    assert Exec(held, [Acquire(l)]) == Some(held + {l});
    assert held + {l} - {l} == held;
    assert Exec(held + {l}, [Release(l)]) == Some(held);
  }

  lemma ExecBriefly(held: set<Lock>, l: Lock)
    requires Below(held, Rank(l))
    ensures Exec(held, Briefly(l)) == Some(held)
  {
    assert Briefly(l) == Around(l, []);
    ExecAround(held, l, []);
  }

  lemma {:induction false} ExecEachChat(held: set<Lock>, chats: seq<string>)
    requires Below(held, 2)
    ensures Exec(held, EachChat(chats)) == Some(held)
  {
    if chats == [] {
    } else {
      ExecBriefly(held, Clients(chats[0]));
      ExecEachChat(held, chats[1..]);
      ExecConcat(held, Briefly(Clients(chats[0])), EachChat(chats[1..]));
    }
  }

  lemma {:induction false} ExecLookups(held: set<Lock>, n: nat)
    requires Below(held, 3)
    ensures Exec(held, Lookups(n)) == Some(held)
  {
    if n == 0 {
    } else {
      ExecBriefly(held, Sessions);
      ExecLookups(held, n - 1);
      ExecConcat(held, Briefly(Sessions), Lookups(n - 1));
    }
  }

  lemma {:induction false} ExecEachClient(held: set<Lock>, clients: seq<Told>)
    requires Below(held, 3)
    ensures Exec(held, EachClient(clients)) == Some(held)
  {
    if clients == [] {
    } else {
      var told := clients[0];
      ExecLookups(held, told.lookups);
      ExecBriefly(held, Socket(told.client));
      ExecEachClient(held, clients[1..]);
      ExecConcat(held, Lookups(told.lookups), Briefly(Socket(told.client)));
      ExecConcat(held, Lookups(told.lookups) + Briefly(Socket(told.client)), EachClient(clients[1..]));
    }
  }

  lemma ExecOneChat(held: set<Lock>, chat: Option<string>)
    requires Below(held, 2)
    ensures Exec(held, OneChat(chat)) == Some(held)
  {
    if chat.Some? {
      ExecBriefly(held, Clients(chat.value));
    }
  }

  /** Every operation takes its locks in increasing rank and has released them all at its end. */
  lemma ProgramsAreOrdered(op: Op)
    ensures Exec({}, Program(op)) == Some({})
  {
    var m := {} + {Metas};
    match op
    case GetChats => ExecBriefly({}, Chats);
    case ConnectClient(current, sweep, target) =>
      ExecOneChat(m + {Chats}, current);
      ExecAround(m, Chats, OneChat(current));
      ExecEachChat(m + {Chats}, sweep);
      ExecOneChat(m + {Chats}, target);
      ExecConcat(m + {Chats}, EachChat(sweep), OneChat(target));
      ExecAround(m, Chats, EachChat(sweep) + OneChat(target));
      ExecConcat(m, Around(Chats, OneChat(current)), Around(Chats, EachChat(sweep) + OneChat(target)));
      ExecAround({}, Metas, Around(Chats, OneChat(current)) + Around(Chats, EachChat(sweep) + OneChat(target)));
    case DisconnectClient(current) =>
      ExecOneChat(m + {Chats}, current);
      ExecAround(m, Chats, OneChat(current));
      ExecAround({}, Metas, Around(Chats, OneChat(current)));
    case RemoveClient(current) =>
      ExecOneChat(m + {Chats}, current);
      ExecAround(m, Chats, OneChat(current));
      ExecAround({}, Metas, Around(Chats, OneChat(current)));
    case NotifyMessage(chat, clients) =>
      ExecBriefly({}, Chats);
      if chat.Some? {
        ExecEachClient({} + {Clients(chat.value)}, clients);
        ExecAround({}, Clients(chat.value), EachClient(clients));
        ExecConcat({}, Briefly(Chats), Around(Clients(chat.value), EachClient(clients)));
      } else {
        assert Briefly(Chats) + [] == Briefly(Chats);
      }
    case NotifyNewChat(clients) =>
      ExecBriefly({}, Chats);
      ExecEachClient(m, clients);
      ExecAround({}, Metas, EachClient(clients));
      ExecConcat({}, Briefly(Chats), Around(Metas, EachClient(clients)));
    case Send(client) => ExecBriefly({}, Socket(client));
  }

  // ---- Which locks guard what ----

  /** The locks acquired, in order. */
  function Acquired(prog: seq<Instr>): seq<Lock> {
    if prog == [] then []
    else FirstLock(prog[0]) + Acquired(prog[1..])
  }

  function FirstLock(i: Instr): seq<Lock> {
    if i.Acquire? then [i.l] else []
  }

  lemma {:induction false} AcquiredConcat(a: seq<Instr>, b: seq<Instr>)
    ensures Acquired(a + b) == Acquired(a) + Acquired(b)
    decreases |a|
  {
    if a == [] {
      assert a + b == b;
    } else {
      assert (a + b)[0] == a[0] && (a + b)[1..] == a[1..] + b;
      AcquiredConcat(a[1..], b);
      Joined(FirstLock(a[0]), Acquired(a[1..]), Acquired(b));
    }
  }

  lemma Joined(a: seq<Lock>, b: seq<Lock>, c: seq<Lock>)
    ensures a + (b + c) == (a + b) + c
  {
  }

  lemma AcquiredAround(l: Lock, inner: seq<Instr>)
    ensures Acquired(Around(l, inner)) == [l] + Acquired(inner)
  {
    AcquiredConcat([Acquire(l)] + inner, [Release(l)]);
    AcquiredConcat([Acquire(l)], inner);
    assert [Acquire(l)][1..] == [] && [Release(l)][1..] == [];
    assert Acquired([Release(l)]) == [] && Acquired([Acquire(l)]) == [l];
  }

  lemma AcquiredBriefly(l: Lock)
    ensures Acquired(Briefly(l)) == [l]
  {
    AcquiredAround(l, []);
    assert Briefly(l) == Around(l, []);
  }

  function ClientLocks(chats: seq<string>): (r: seq<Lock>)
    ensures |r| == |chats| && forall i :: 0 <= i < |chats| ==> r[i] == Clients(chats[i])
  {
    seq(|chats|, i requires 0 <= i < |chats| => Clients(chats[i]))
  }

  function IfAny(chat: Option<string>): seq<string> {
    if chat.Some? then [chat.value] else []
  }

  lemma AcquiredOneChat(chat: Option<string>)
    ensures Acquired(OneChat(chat)) == ClientLocks(IfAny(chat))
  {
    if chat.Some? {
      AcquiredBriefly(Clients(chat.value));
    }
  }

  lemma {:induction false} AcquiredEachChat(chats: seq<string>)
    ensures Acquired(EachChat(chats)) == ClientLocks(chats)
  {
    if chats == [] {
    } else {
      AcquiredBriefly(Clients(chats[0]));
      AcquiredEachChat(chats[1..]);
      AcquiredConcat(Briefly(Clients(chats[0])), EachChat(chats[1..]));
      assert ClientLocks(chats) == [Clients(chats[0])] + ClientLocks(chats[1..]);
    }
  }

  lemma LeavingLocks(current: Option<string>)
    ensures Acquired(Around(Chats, OneChat(current))) == [Chats] + ClientLocks(IfAny(current))
  {
    AcquiredOneChat(current);
    AcquiredAround(Chats, OneChat(current));
  }

  lemma EnteringLocks(sweep: seq<string>, target: Option<string>)
    ensures Acquired(Around(Chats, EachChat(sweep) + OneChat(target))) ==
            [Chats] + (ClientLocks(sweep) + ClientLocks(IfAny(target)))
  {
    AcquiredEachChat(sweep);
    AcquiredOneChat(target);
    AcquiredConcat(EachChat(sweep), OneChat(target));
    AcquiredAround(Chats, EachChat(sweep) + OneChat(target));
  }

  /** Disconnecting and removing a client take the metas lock first, then the chats lock and under it the lock of the
      current chat, and no other lock. */
  lemma LeavingOperationsLock(op: Op, current: Option<string>)
    requires op == DisconnectClient(current) || op == RemoveClient(current)
    ensures Acquired(Program(op)) == [Metas] + ([Chats] + ClientLocks(IfAny(current)))
  {
    LeavingLocks(current);
    AcquiredAround(Metas, Around(Chats, OneChat(current)));
  }

  /** So does connecting, and then it takes the chats lock once more, under it the lock of each chat of the sweep in
      turn and then that of the chat entered. */
  lemma ConnectingLocks(current: Option<string>, sweep: seq<string>, target: Option<string>)
    ensures Acquired(Program(ConnectClient(current, sweep, target))) ==
            [Metas] + (([Chats] + ClientLocks(IfAny(current))) +
                       ([Chats] + (ClientLocks(sweep) + ClientLocks(IfAny(target)))))
  {
    var leave, enter := Around(Chats, OneChat(current)), Around(Chats, EachChat(sweep) + OneChat(target));
    LeavingLocks(current);
    EnteringLocks(sweep, target);
    AcquiredConcat(leave, enter);
    AcquiredAround(Metas, leave + enter);
  }

  function ToldLocks(clients: seq<Told>): seq<Lock> {
    if clients == [] then []
    else seq(clients[0].lookups, _ => Sessions) + [Socket(clients[0].client)] + ToldLocks(clients[1..])
  }

  lemma {:induction false} AcquiredLookups(n: nat)
    ensures Acquired(Lookups(n)) == seq(n, _ => Sessions)
  {
    if n == 0 {
    } else {
      AcquiredBriefly(Sessions);
      AcquiredLookups(n - 1);
      AcquiredConcat(Briefly(Sessions), Lookups(n - 1));
    }
  }

  lemma {:induction false} AcquiredEachClient(clients: seq<Told>)
    ensures Acquired(EachClient(clients)) == ToldLocks(clients)
  {
    if clients == [] {
    } else {
      var told := clients[0];
      AcquiredLookups(told.lookups);
      AcquiredBriefly(Socket(told.client));
      AcquiredEachClient(clients[1..]);
      AcquiredConcat(Lookups(told.lookups), Briefly(Socket(told.client)));
      AcquiredConcat(Lookups(told.lookups) + Briefly(Socket(told.client)), EachClient(clients[1..]));
    }
  }

  lemma BrieflyThenAround(first: Lock, l: Lock, clients: seq<Told>)
    ensures Acquired(Briefly(first) + Around(l, EachClient(clients))) == [first] + ([l] + ToldLocks(clients))
  {
    AcquiredBriefly(first);
    AcquiredEachClient(clients);
    AcquiredAround(l, EachClient(clients));
    AcquiredConcat(Briefly(first), Around(l, EachClient(clients)));
  }

  /** A message notification takes the chats lock, then the lock of the chat if it is known, and under that, client by
      client, the session table once per lookup and the socket once. */
  lemma MessagesLock(chat: Option<string>, clients: seq<Told>)
    ensures Acquired(Program(NotifyMessage(chat, clients))) ==
            [Chats] + (if chat.Some? then [Clients(chat.value)] + ToldLocks(clients) else [])
  {
    if chat.Some? {
      BrieflyThenAround(Chats, Clients(chat.value), clients);
    } else {
      AcquiredBriefly(Chats);
      assert Briefly(Chats) + [] == Briefly(Chats);
    }
  }

  /** A new-chat notification takes the chats lock and then, for all clients of the hub, the metas lock. */
  lemma NewChatsLock(clients: seq<Told>)
    ensures Acquired(Program(NotifyNewChat(clients))) == [Chats] + ([Metas] + ToldLocks(clients))
  {
    BrieflyThenAround(Chats, Metas, clients);
  }

  lemma SingleLocks(op: Op)
    ensures op.GetChats? ==> Acquired(Program(op)) == [Chats]
    ensures op.Send? ==> Acquired(Program(op)) == [Socket(op.client)]
  {
    match op
    case GetChats => AcquiredBriefly(Chats);
    case Send(client) => AcquiredBriefly(Socket(client));
    case _ =>
  }

  /** Whenever a lock of this rank is acquired, all of these are held. */
  predicate Guarded(held: set<Lock>, prog: seq<Instr>, rank: nat, guards: set<Lock>)
    decreases |prog|
  {
    if prog == [] then true
    else match prog[0]
      case Acquire(l) => (Rank(l) == rank ==> guards <= held) && Guarded(held + {l}, prog[1..], rank, guards)
      case Release(l) => Guarded(held - {l}, prog[1..], rank, guards)
  }

  lemma {:induction false} GuardedConcat(held: set<Lock>, a: seq<Instr>, b: seq<Instr>, rank: nat, guards: set<Lock>)
    requires Exec(held, a).Some? && Guarded(held, a, rank, guards) && Guarded(Exec(held, a).value, b, rank, guards)
    ensures Guarded(held, a + b, rank, guards)
    decreases |a|
  {
    if a == [] {
      assert a + b == b;
    } else {
      assert (a + b)[1..] == a[1..] + b;
      match a[0]
      case Acquire(l) => GuardedConcat(held + {l}, a[1..], b, rank, guards);
      case Release(l) => GuardedConcat(held - {l}, a[1..], b, rank, guards);
    }
  }

  lemma GuardedAround(held: set<Lock>, l: Lock, inner: seq<Instr>, rank: nat, guards: set<Lock>)
    requires Below(held, Rank(l)) && Exec(held + {l}, inner) == Some(held + {l})
    requires Rank(l) == rank ==> guards <= held
    requires Guarded(held + {l}, inner, rank, guards)
    ensures Guarded(held, Around(l, inner), rank, guards)
  {
    assert [Release(l)][1..] == [] && [Acquire(l)][1..] == [];
    GuardedConcat(held + {l}, inner, [Release(l)], rank, guards);
    GuardedConcat(held, [Acquire(l)], inner + [Release(l)], rank, guards);
    assert [Acquire(l)] + (inner + [Release(l)]) == Around(l, inner);
  }

  lemma GuardedBriefly(held: set<Lock>, l: Lock, rank: nat, guards: set<Lock>)
    requires Below(held, Rank(l)) && (Rank(l) == rank ==> guards <= held)
    ensures Guarded(held, Briefly(l), rank, guards)
  {
    GuardedAround(held, l, [], rank, guards);
    assert Briefly(l) == Around(l, []);
  }

  lemma {:induction false} GuardedEachChat(held: set<Lock>, chats: seq<string>, guards: set<Lock>)
    requires Below(held, 2) && guards <= held
    ensures Guarded(held, EachChat(chats), 2, guards)
  {
    if chats == [] {
    } else {
      GuardedBriefly(held, Clients(chats[0]), 2, guards);
      ExecBriefly(held, Clients(chats[0]));
      GuardedEachChat(held, chats[1..], guards);
      GuardedConcat(held, Briefly(Clients(chats[0])), EachChat(chats[1..]), 2, guards);
    }
  }

  lemma {:induction false} GuardedLookups(held: set<Lock>, n: nat, guards: set<Lock>)
    requires Below(held, 3)
    ensures Guarded(held, Lookups(n), 4, guards)
  {
    if n == 0 {
    } else {
      GuardedBriefly(held, Sessions, 4, guards);
      ExecBriefly(held, Sessions);
      GuardedLookups(held, n - 1, guards);
      GuardedConcat(held, Briefly(Sessions), Lookups(n - 1), 4, guards);
    }
  }

  lemma {:induction false} GuardedEachClient(held: set<Lock>, clients: seq<Told>, guards: set<Lock>)
    requires Below(held, 3) && guards <= held
    ensures Guarded(held, EachClient(clients), 4, guards)
  {
    if clients == [] {
    } else {
      var told := clients[0];
      GuardedLookups(held, told.lookups, guards);
      ExecLookups(held, told.lookups);
      GuardedBriefly(held, Socket(told.client), 4, guards);
      ExecBriefly(held, Socket(told.client));
      GuardedEachClient(held, clients[1..], guards);
      GuardedConcat(held, Lookups(told.lookups), Briefly(Socket(told.client)), 4, guards);
      ExecConcat(held, Lookups(told.lookups), Briefly(Socket(told.client)));
      GuardedConcat(held, Lookups(told.lookups) + Briefly(Socket(told.client)), EachClient(clients[1..]), 4, guards);
    }
  }

  lemma GuardedOneChat(held: set<Lock>, chat: Option<string>, guards: set<Lock>)
    requires Below(held, 2) && guards <= held
    ensures Guarded(held, OneChat(chat), 2, guards)
  {
    if chat.Some? {
      GuardedBriefly(held, Clients(chat.value), 2, guards);
    }
  }

  lemma LeavingGuarded(m: set<Lock>, current: Option<string>)
    requires m == {} + {Metas}
    ensures Exec(m, Around(Chats, OneChat(current))) == Some(m)
    ensures Guarded(m, Around(Chats, OneChat(current)), 2, {Metas, Chats})
  {
    GuardedOneChat(m + {Chats}, current, {Metas, Chats});
    ExecOneChat(m + {Chats}, current);
    GuardedAround(m, Chats, OneChat(current), 2, {Metas, Chats});
    ExecAround(m, Chats, OneChat(current));
  }

  lemma EnteringGuarded(m: set<Lock>, sweep: seq<string>, target: Option<string>)
    requires m == {} + {Metas}
    ensures Exec(m, Around(Chats, EachChat(sweep) + OneChat(target))) == Some(m)
    ensures Guarded(m, Around(Chats, EachChat(sweep) + OneChat(target)), 2, {Metas, Chats})
  {
    GuardedEachChat(m + {Chats}, sweep, {Metas, Chats});
    ExecEachChat(m + {Chats}, sweep);
    GuardedOneChat(m + {Chats}, target, {Metas, Chats});
    ExecOneChat(m + {Chats}, target);
    ExecConcat(m + {Chats}, EachChat(sweep), OneChat(target));
    GuardedConcat(m + {Chats}, EachChat(sweep), OneChat(target), 2, {Metas, Chats});
    GuardedAround(m, Chats, EachChat(sweep) + OneChat(target), 2, {Metas, Chats});
    ExecAround(m, Chats, EachChat(sweep) + OneChat(target));
  }

  /** A client operation touches a chat's clients only while it holds the metas and the chats lock. */
  lemma ClientOperationsGuarded(op: Op)
    requires op.ConnectClient? || op.DisconnectClient? || op.RemoveClient?
    ensures Guarded({}, Program(op), 2, {Metas, Chats})
  {
    var m := {} + {Metas};
    var leave := Around(Chats, OneChat(op.current));
    LeavingGuarded(m, op.current);
    if op.ConnectClient? {
      var enter := Around(Chats, EachChat(op.sweep) + OneChat(op.target));
      EnteringGuarded(m, op.sweep, op.target);
      GuardedConcat(m, leave, enter, 2, {Metas, Chats});
      ExecConcat(m, leave, enter);
      GuardedAround({}, Metas, leave + enter, 2, {Metas, Chats});
    } else {
      GuardedAround({}, Metas, leave, 2, {Metas, Chats});
    }
  }

  /** A message notification writes to sockets only while it holds the chat's clients, so the notifications of one chat
      reach every client in one order. */
  lemma MessagesGuarded(chat: string, clients: seq<Told>)
    ensures Guarded({}, Program(NotifyMessage(Some(chat), clients)), 4, {Clients(chat)})
  {
    var guards := {Clients(chat)};
    ExecBriefly({}, Chats);
    GuardedBriefly({}, Chats, 4, guards);
    GuardedEachClient({} + {Clients(chat)}, clients, guards);
    ExecEachClient({} + {Clients(chat)}, clients);
    GuardedAround({}, Clients(chat), EachClient(clients), 4, guards);
    GuardedConcat({}, Briefly(Chats), Around(Clients(chat), EachClient(clients)), 4, guards);
  }

  /** A new-chat notification writes to sockets only while it holds the metas lock. */
  lemma NewChatsGuarded(clients: seq<Told>)
    ensures Guarded({}, Program(NotifyNewChat(clients)), 4, {Metas})
  {
    ExecBriefly({}, Chats);
    GuardedBriefly({}, Chats, 4, {Metas});
    GuardedEachClient({} + {Metas}, clients, {Metas});
    ExecEachClient({} + {Metas}, clients);
    GuardedAround({}, Metas, EachClient(clients), 4, {Metas});
    GuardedConcat({}, Briefly(Chats), Around(Metas, EachClient(clients)), 4, {Metas});
  }

  // ---- Goroutines ----

  datatype Goroutine = Goroutine(held: set<Lock>, rest: seq<Instr>)

  type System = map<nat, Goroutine>

  datatype Action = Start(g: nat, op: Op) | Step(g: nat)

  predicate CanStep(y: System, g: nat) {
    && g in y && y[g].rest != []
    && (y[g].rest[0].Acquire? ==> forall h :: h in y ==> y[g].rest[0].l !in y[h].held)
  }

  predicate Enabled(y: System, a: Action) {
    match a
    case Start(g, _) => g in y ==> y[g].rest == []
    case Step(g) => CanStep(y, g)
  }

  function Next(y: System, a: Action): System
    requires Enabled(y, a)
  {
    match a
    case Start(g, op) => y[g := Goroutine({}, Program(op))]
    case Step(g) =>
      var i := y[g].rest[0];
      y[g := Goroutine(if i.Acquire? then y[g].held + {i.l} else y[g].held - {i.l}, y[g].rest[1..])]
  }

  ghost predicate EnabledRun(y: System, run: seq<Action>)
    decreases |run|
  {
    run != [] ==> Enabled(y, run[0]) && EnabledRun(Next(y, run[0]), run[1..])
  }

  ghost function After(y: System, run: seq<Action>): System
    requires EnabledRun(y, run)
    decreases |run|
  {
    if run == [] then y else After(Next(y, run[0]), run[1..])
  }

  /** What is left to do keeps the order and ends with every lock released, and no lock has two holders. */
  ghost predicate SystemInv(y: System) {
    && (forall g :: g in y ==> Exec(y[g].held, y[g].rest) == Some({}))
    && (forall g, h, l :: g in y && h in y && l in y[g].held && l in y[h].held ==> g == h)
  }

  lemma ActionKeepsInv(y: System, a: Action)
    requires SystemInv(y) && Enabled(y, a)
    ensures SystemInv(Next(y, a))
  {
    if a.Start? {
      ProgramsAreOrdered(a.op);
    }
  }

  lemma {:induction false} RunKeepsInv(y: System, run: seq<Action>)
    requires SystemInv(y) && EnabledRun(y, run)
    ensures SystemInv(After(y, run))
    decreases |run|
  {
    if run == [] {
    } else {
      ActionKeepsInv(y, run[0]);
      RunKeepsInv(Next(y, run[0]), run[1..]);
    }
  }

  /** Following a chain of blocked goroutines climbs the ranks, so it ends at one that can step. */
  lemma SomeoneCanStep(y: System, g: nat) returns (free: nat)
    requires SystemInv(y) && g in y && y[g].rest != []
    ensures CanStep(y, free)
    decreases if y[g].rest[0].Acquire? then 4 - Rank(y[g].rest[0].l) else 0
  {
    if CanStep(y, g) {
      return g;
    }
    var l := y[g].rest[0].l;
    var h :| h in y && l in y[h].held;
    assert y[h].rest != [];
    if CanStep(y, h) {
      return h;
    }
    assert Rank(l) < Rank(y[h].rest[0].l);
    free := SomeoneCanStep(y, h);
  }

  /** Main result: in every state reached by any number of goroutines running any operations over any chats and
      clients, if some goroutine has not finished then some goroutine can step. */
  lemma DeadlockFreedom(run: seq<Action>)
    requires EnabledRun(map[], run)
    requires exists g :: g in After(map[], run) && After(map[], run)[g].rest != []
    ensures exists g :: CanStep(After(map[], run), g)
  {
    RunKeepsInv(map[], run);
    var g :| g in After(map[], run) && After(map[], run)[g].rest != [];
    var free := SomeoneCanStep(After(map[], run), g);
  }
}

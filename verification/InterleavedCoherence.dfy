/** Coherence when store methods interleave call by call: it holds as long as, on each chat, a reader's
    window from its miss to its RPUSH, and a writer's window from its MongoDB write to its Redis call, never overlap
    with another window. With one sequential writer this is the promise made to any number of readers. */
module InterleavedCoherence {
  import opened Wrappers
  import opened ObjectIds
  import opened Entities
  import opened Store
  import opened StoreFacts
  import opened Coherence
  import opened Interleaving

  /** The chat whose documents this method has changed without having told the cache yet. */
  function WritesTo(proc: Proc): Option<ObjectId> {
    match proc
    case GettingUser(_, ForTouch(d)) => Some(d.chatId)
    case FindingUser(_, ForTouch(d)) => Some(d.chatId)
    case CachingUser(_, ForTouch(d)) => Some(d.chatId)
    case Writing(_, ForTouch(d)) => Some(d.chatId)
    case Pushing(m) => Some(m.chatId)
    case Dropping(m) => Some(m.chatId)
    case _ => None
  }

  /** The chat this method has missed in the cache and is about to populate. */
  function Repopulates(proc: Proc): Option<ObjectId> {
    match proc
    case Aggregating(text) => if Canonical(text) then FromHex(text) else None
    case Populating(text, _) => if Canonical(text) then FromHex(text) else None
    case _ => None
  }

  function Busy(proc: Proc): Option<ObjectId> {
    if WritesTo(proc).Some? then WritesTo(proc) else Repopulates(proc)
  }

  ghost predicate NoOverlap(y: System) {
    forall p, q :: p in y.procs && q in y.procs && p != q && Busy(y.procs[p]).Some? ==>
      Busy(y.procs[p]) != Busy(y.procs[q])
  }

  ghost predicate WriteInFlight(y: System, chat: ObjectId) {
    exists p :: p in y.procs && WritesTo(y.procs[p]) == Some(chat)
  }

  /** Generated ids are new, and saving a message that exists leaves it in the chat it is in. */
  predicate LegalAction(y: System, a: Action)
    requires Enabled(y, a)
  {
    a.Step? && y.procs[a.p].Writing? && y.procs[a.p].purpose.ForSave? ==>
      Legal(y.store, Save(y.procs[a.p].purpose.m, a.freshId))
  }

  /** A run in which no two windows on one chat are ever open together. */
  ghost predicate QuietRun(y: System, run: seq<Action>)
    decreases |run|
  {
    && NoOverlap(y)
    && (run != [] ==>
          && Enabled(y, run[0]) && LegalAction(y, run[0])
          && QuietRun(Next(y, run[0]), run[1..]))
  }

  // ---- What each method knows where it stands ----

  function LookupKey(purpose: Purpose): string {
    match purpose
    case ForSave(m) => m.authorId
    case ForTouch(d) => Hex(d.authorId)
  }

  ghost predicate AuthorOf(users: map<ObjectId, User>, u: User, purpose: Purpose) {
    var id := FromHex(LookupKey(purpose));
    id.Some? && id.value in users && WithoutPassword(u) == WithoutPassword(users[id.value])
  }

  /** Between the insertion and the push, a cached list agrees with everything but the new message. */
  ghost predicate AwaitsPush(s: StoreState, m: Message) {
    var view := ChatView(s, m.chatId);
    && view != []
    && Visible(ThroughJson(m)) == Visible(view[|view| - 1])
    && (Hex(m.chatId) in s.lists ==> SameHead(s.lists[Hex(m.chatId)], view[..|view| - 1]))
  }

  ghost predicate ProcInv(s: StoreState, proc: Proc) {
    match proc
    case Aggregating(text) => Canonical(text) ==> text !in s.lists
    case Populating(text, found) =>
      Canonical(text) ==> text !in s.lists && found == ChatView(s, FromHex(text).value)
    case GettingUser(key, purpose) =>
      key == LookupKey(purpose) && (purpose.ForTouch? ==> purpose.doc.authorId in s.users)
    case FindingUser(key, purpose) =>
      key == LookupKey(purpose) && (purpose.ForTouch? ==> purpose.doc.authorId in s.users)
    case CachingUser(u, purpose) =>
      u.id in s.users && s.users[u.id] == u && AuthorOf(s.users, u, purpose)
    case Writing(u, purpose) => AuthorOf(s.users, u, purpose)
    case Pushing(m) => AwaitsPush(s, m)
    case Trimming(_) => true
    case Dropping(_) => true
  }

  ghost predicate SystemInv(y: System) {
    && WellFormed(y.store)
    && NoEmptyLists(y.store)
    && (forall p :: p in y.procs ==> ProcInv(y.store, y.procs[p]))
    && (forall chat: ObjectId :: WriteInFlight(y, chat) || Agrees(y.store, chat))
  }

  // ---- Frames ----

  ghost predicate UsersGrow(s: StoreState, s': StoreState) {
    forall u :: u in s.users ==> u in s'.users && s'.users[u] == s.users[u]
  }

  ghost predicate SameChat(s: StoreState, s': StoreState, chat: ObjectId) {
    && ChatView(s', chat) == ChatView(s, chat)
    && (Hex(chat) in s'.lists <==> Hex(chat) in s.lists)
    && (Hex(chat) in s.lists ==> s'.lists[Hex(chat)] == s.lists[Hex(chat)])
  }

  lemma ProcFrame(s: StoreState, s': StoreState, proc: Proc)
    requires ProcInv(s, proc) && UsersGrow(s, s')
    requires Busy(proc).Some? ==> SameChat(s, s', Busy(proc).value)
    ensures ProcInv(s', proc)
  {
  }

  /** The chat whose documents or list the next call of this method changes. */
  function Touches(proc: Proc): Option<ObjectId> {
    match proc
    case Writing(_, ForSave(m)) => Some(m.chatId)
    case _ => Busy(proc)
  }

  lemma CallKeepsOtherChats(s: StoreState, proc: Proc, freshId: ObjectId, chat: ObjectId)
    requires WellFormed(s) && ProcInv(s, proc) && Touches(proc) != Some(chat) && !proc.Trimming?
    requires proc.Writing? && proc.purpose.ForSave? ==> Legal(s, Save(proc.purpose.m, freshId))
    ensures SameChat(s, Call(s, proc, freshId).0, chat)
  {
    HexIsCanonical(chat);
    HexRoundTrip(chat);
    match proc
    case Writing(u, ForSave(m)) =>
      if m.id == NIL_ID {
        ViewAfterInsert(s, FromInternal(m.(author := u, id := freshId)), chat);
      } else if FindDoc(s.docs, m.id).Some? {
        OtherRowsAfterReplace(s.docs, s.users, FindDoc(s.docs, m.id).value, FromInternal(m.(author := u)), chat);
      }
    case Writing(u, ForTouch(d)) => HexInjective(chat, d.chatId);
    case Pushing(m) => HexInjective(chat, m.chatId);
    case Dropping(m) => HexInjective(chat, m.chatId);
    case _ =>
  }

  lemma SaveCallKeepsWellFormed(s: StoreState, u: User, m: Message, freshId: ObjectId)
    requires WellFormed(s) && AuthorOf(s.users, u, ForSave(m)) && Legal(s, Save(m, freshId))
    ensures var s' := Call(s, Writing(u, ForSave(m)), freshId).0;
            WellFormed(s') && s' == s.(docs := s'.docs)
  {
    var d := FromInternal(m.(author := u, id := if m.id == NIL_ID then freshId else m.id));
    assert d.authorId in s.users;
  }

  lemma CallKeepsWellFormed(s: StoreState, proc: Proc, freshId: ObjectId)
    requires WellFormed(s) && NoEmptyLists(s) && ProcInv(s, proc)
    requires proc.Writing? && proc.purpose.ForSave? ==> Legal(s, Save(proc.purpose.m, freshId))
    ensures var s' := Call(s, proc, freshId).0;
            WellFormed(s') && NoEmptyLists(s') && s'.users == s.users
  {
    if proc.CachingUser? {
      HexRoundTrip(proc.user.id);
    } else if proc.Writing? && proc.purpose.ForSave? {
      SaveCallKeepsWellFormed(s, proc.user, proc.purpose.m, freshId);
    }
  }

  lemma InsertionAwaitsPush(s: StoreState, u: User, m: Message, freshId: ObjectId)
    requires WellFormed(s) && AuthorOf(s.users, u, ForSave(m)) && Agrees(s, m.chatId)
    ensures var added := m.(author := u, id := freshId);
            AwaitsPush(s.(docs := s.docs + [FromInternal(added)]), added)
  {
    var added := m.(author := u, id := freshId);
    var d := FromInternal(added);
    ViewAfterInsert(s, d, m.chatId);
    VisibleOfStored(m.(id := freshId), u, s.users);
    var view := ChatView(s.(docs := s.docs + [d]), m.chatId);
    assert view[..|view| - 1] == ChatView(s, m.chatId);
  }

  lemma CallAdvances(s: StoreState, proc: Proc, freshId: ObjectId)
    requires WellFormed(s) && ProcInv(s, proc)
    requires proc.Writing? && proc.purpose.ForSave? ==>
               Legal(s, Save(proc.purpose.m, freshId)) && Agrees(s, proc.purpose.m.chatId)
    ensures var (s', next) := Call(s, proc, freshId);
            next.Some? ==> ProcInv(s', next.value)
  {
    match proc
    case GettingUser(key, ForTouch(d)) => HexRoundTrip(d.authorId);
    case FindingUser(key, ForTouch(d)) => HexRoundTrip(d.authorId);
    case Writing(u, ForSave(m)) => InsertionAwaitsPush(s, u, m, freshId);
    case _ =>
  }

  lemma PushSettles(s: StoreState, m: Message)
    requires AwaitsPush(s, m)
    ensures Agrees(s.(lists := RPushX(s.lists, Hex(m.chatId), m)), m.chatId)
  {
  }

  lemma PopulateSettles(s: StoreState, text: string, found: seq<Message>, chat: ObjectId)
    requires text == Hex(chat) && text !in s.lists && found == ChatView(s, chat)
    ensures Agrees(s.(lists := RPush(s.lists, text, found)), chat)
  {
  }

  lemma TouchLookupGoesOn(s: StoreState, proc: Proc, freshId: ObjectId)
    requires ProcInv(s, proc) && WritesTo(proc).Some?
    requires proc.GettingUser? || proc.FindingUser? || proc.CachingUser?
    ensures var next := Call(s, proc, freshId).1;
            next.Some? && WritesTo(next.value) == WritesTo(proc)
  {
    HexRoundTrip(proc.purpose.doc.authorId);
  }

  /** The next call leaves the chat agreeing with the database, or its write still in flight. */
  ghost predicate Settles(s: StoreState, proc: Proc, freshId: ObjectId, chat: ObjectId) {
    var (s', next) := Call(s, proc, freshId);
    (next.Some? && WritesTo(next.value) == Some(chat)) || Agrees(s', chat)
  }

  lemma DeletionSettles(s: StoreState, proc: Proc, freshId: ObjectId, chat: ObjectId)
    requires WritesTo(proc) == Some(chat) && (proc.Writing? || proc.Dropping?)
    ensures Settles(s, proc, freshId, chat)
  {
  }

  lemma LoadSettles(s: StoreState, proc: Proc, freshId: ObjectId, chat: ObjectId)
    requires proc.Aggregating? && Agrees(s, chat)
    ensures Settles(s, proc, freshId, chat)
  {
  }

  lemma SaveSettles(s: StoreState, proc: Proc, freshId: ObjectId, chat: ObjectId)
    requires proc.Writing? && proc.purpose.ForSave? && proc.purpose.m.chatId == chat && Agrees(s, chat)
    ensures Settles(s, proc, freshId, chat)
  {
  }

  lemma ListCallSettles(s: StoreState, proc: Proc, freshId: ObjectId, chat: ObjectId)
    requires ProcInv(s, proc) && Touches(proc) == Some(chat) && (proc.Populating? || proc.Pushing?)
    ensures Settles(s, proc, freshId, chat)
  {
    if proc.Populating? {
      PopulateSettles(s, proc.text, proc.found, chat);
    } else {
      PushSettles(s, proc.m);
    }
  }

  /** A call that ends a window leaves its chat agreeing with the database. */
  lemma CallSettles(s: StoreState, proc: Proc, freshId: ObjectId, chat: ObjectId)
    requires WellFormed(s) && ProcInv(s, proc) && Touches(proc) == Some(chat)
    requires WritesTo(proc).None? ==> Agrees(s, chat)
    ensures Settles(s, proc, freshId, chat)
  {
    if proc.GettingUser? || proc.FindingUser? || proc.CachingUser? {
      TouchLookupGoesOn(s, proc, freshId);
    } else if proc.Populating? || proc.Pushing? {
      ListCallSettles(s, proc, freshId, chat);
    } else if proc.Aggregating? {
      LoadSettles(s, proc, freshId, chat);
    } else if proc.Writing? && proc.purpose.ForSave? {
      SaveSettles(s, proc, freshId, chat);
    } else {
      DeletionSettles(s, proc, freshId, chat);
    }
  }

  // ---- Each kind of action ----

  function Trimmed(s: StoreState, trimmed: ObjectId): StoreState {
    s.(lists := LTrim(s.lists, Hex(trimmed)))
  }

  lemma TrimKeepsHead(s: StoreState, trimmed: ObjectId, chat: ObjectId, view: seq<Message>)
    requires NoEmptyLists(s) && (Hex(chat) in s.lists ==> SameHead(s.lists[Hex(chat)], view))
    ensures var s' := Trimmed(s, trimmed);
            NoEmptyLists(s') && (Hex(chat) in s'.lists ==> SameHead(s'.lists[Hex(chat)], view))
  {
  }

  lemma TrimKeepsProcInv(s: StoreState, trimmed: ObjectId, proc: Proc)
    requires NoEmptyLists(s) && ProcInv(s, proc)
    ensures ProcInv(Trimmed(s, trimmed), proc)
  {
  }

  lemma TrimKeepsInv(y: System, p: nat, freshId: ObjectId)
    requires SystemInv(y) && p in y.procs && y.procs[p].Trimming?
    ensures SystemInv(Next(y, Step(p, freshId)))
  {
    var y' := Next(y, Step(p, freshId));
    var trimmed := y.procs[p].m.chatId;
    assert y'.store == Trimmed(y.store, trimmed);
    assert forall q :: q in y'.procs <==> q in y.procs && q != p;
    forall chat: ObjectId ensures WriteInFlight(y', chat) || Agrees(y'.store, chat) {
      if WriteInFlight(y, chat) {
        var q :| q in y.procs && WritesTo(y.procs[q]) == Some(chat);
        assert q in y'.procs;
      } else {
        assert Agrees(y.store, chat);
        TrimKeepsHead(y.store, trimmed, chat, ChatView(y.store, chat));
        assert ChatView(y'.store, chat) == ChatView(y.store, chat);
      }
    }
    forall q | q in y'.procs ensures ProcInv(y'.store, y'.procs[q]) {
      assert ProcInv(y.store, y.procs[q]);
      TrimKeepsProcInv(y.store, trimmed, y.procs[q]);
    }
    TrimKeepsHead(y.store, trimmed, trimmed, if Hex(trimmed) in y.store.lists then y.store.lists[Hex(trimmed)] else []);
  }

  lemma OthersAreElsewhere(y: System, p: nat, freshId: ObjectId, q: nat)
    requires p in y.procs && q in y.procs && p != q
    requires NoOverlap(y) && NoOverlap(Next(y, Step(p, freshId)))
    requires Busy(y.procs[q]).Some?
    ensures Touches(y.procs[p]) != Busy(y.procs[q]) || Call(y.store, y.procs[p], freshId).0 == y.store
  {
    var y' := Next(y, Step(p, freshId));
    assert q in y'.procs && y'.procs[q] == y.procs[q];
    var proc := y.procs[p];
    if proc.Writing? && proc.purpose.ForSave? {
      if p in y'.procs {
        assert Busy(y'.procs[p]) == Touches(proc);
      }
    } else {
      assert Busy(proc) == Touches(proc);
    }
  }

  lemma StepKeepsInv(y: System, p: nat, freshId: ObjectId)
    requires SystemInv(y) && p in y.procs && LegalAction(y, Step(p, freshId))
    requires NoOverlap(y) && NoOverlap(Next(y, Step(p, freshId)))
    ensures SystemInv(Next(y, Step(p, freshId)))
  {
    var proc := y.procs[p];
    var (s', next) := Call(y.store, proc, freshId);
    var y' := Next(y, Step(p, freshId));
    if proc.Trimming? {
      TrimKeepsInv(y, p, freshId);
      return;
    }
    assert ProcInv(y.store, proc);
    CallKeepsWellFormed(y.store, proc, freshId);
    forall q | q in y.procs && q != p ensures ProcInv(s', y.procs[q]) {
      var busy := Busy(y.procs[q]);
      if busy.Some? {
        OthersAreElsewhere(y, p, freshId, q);
        if s' != y.store {
          CallKeepsOtherChats(y.store, proc, freshId, busy.value);
        }
      }
      ProcFrame(y.store, s', y.procs[q]);
    }
    if next.Some? {
      if proc.Writing? && proc.purpose.ForSave? {
        StartOfWrite(y, p, freshId);
      }
      CallAdvances(y.store, proc, freshId);
    }
    forall chat: ObjectId ensures WriteInFlight(y', chat) || Agrees(s', chat) {
      StepAgreement(y, p, freshId, chat);
    }
  }

  /** When a save is about to write, nothing else is in flight on its chat, so the cache agrees there. */
  lemma StartOfWrite(y: System, p: nat, freshId: ObjectId)
    requires SystemInv(y) && p in y.procs && NoOverlap(Next(y, Step(p, freshId)))
    requires y.procs[p].Writing? && y.procs[p].purpose.ForSave?
    requires Call(y.store, y.procs[p], freshId).1.Some?
    ensures Agrees(y.store, y.procs[p].purpose.m.chatId)
  {
    var chat := y.procs[p].purpose.m.chatId;
    var y' := Next(y, Step(p, freshId));
    assert Busy(y'.procs[p]) == Some(chat);
    forall q | q in y.procs && q != p ensures WritesTo(y.procs[q]) != Some(chat) {
      assert q in y'.procs && y'.procs[q] == y.procs[q];
    }
    assert !WriteInFlight(y, chat);
  }

  lemma StepAgreement(y: System, p: nat, freshId: ObjectId, chat: ObjectId)
    requires SystemInv(y) && p in y.procs && LegalAction(y, Step(p, freshId)) && !y.procs[p].Trimming?
    requires NoOverlap(y) && NoOverlap(Next(y, Step(p, freshId)))
    ensures WriteInFlight(Next(y, Step(p, freshId)), chat) || Agrees(Next(y, Step(p, freshId)).store, chat)
  {
    var proc := y.procs[p];
    var (s', next) := Call(y.store, proc, freshId);
    var y' := Next(y, Step(p, freshId));
    if exists q :: q in y.procs && q != p && WritesTo(y.procs[q]) == Some(chat) {
      var q :| q in y.procs && q != p && WritesTo(y.procs[q]) == Some(chat);
      assert q in y'.procs && WritesTo(y'.procs[q]) == Some(chat);
    } else if Touches(proc) == Some(chat) {
      if WritesTo(proc).None? {
        assert !WriteInFlight(y, chat);
      }
      CallSettles(y.store, proc, freshId, chat);
      if next.Some? && WritesTo(next.value) == Some(chat) {
        assert p in y'.procs;
      }
    } else {
      assert !WriteInFlight(y, chat);
      assert Agrees(y.store, chat);
      CallKeepsOtherChats(y.store, proc, freshId, chat);
    }
  }

  /** A method that is elsewhere when document `i` changes. */
  lemma TouchStartFrame(s: StoreState, i: nat, d: Doc, proc: Proc)
    requires AuthorsKnown(s.docs, s.users) && i < |s.docs| && d.authorId in s.users && d.chatId == s.docs[i].chatId
    requires ProcInv(s, proc) && Busy(proc) != Some(d.chatId)
    ensures ProcInv(s.(docs := s.docs[i := d]), proc)
  {
    if Busy(proc).Some? {
      ViewAfterReplace(s, i, d, Busy(proc).value);
    }
    ProcFrame(s, s.(docs := s.docs[i := d]), proc);
  }

  lemma TouchStartAgreement(s: StoreState, i: nat, d: Doc, chat: ObjectId)
    requires AuthorsKnown(s.docs, s.users) && i < |s.docs| && d.authorId in s.users && d.chatId == s.docs[i].chatId
    requires chat != d.chatId && Agrees(s, chat)
    ensures Agrees(s.(docs := s.docs[i := d]), chat)
  {
    ViewAfterReplace(s, i, d, chat);
  }

  lemma TouchStartKeepsInv(y: System, p: nat, idText: string, t: Touch)
    requires SystemInv(y) && p !in y.procs
    requires NoOverlap(Next(y, StartTouch(p, idText, t)))
    ensures SystemInv(Next(y, StartTouch(p, idText, t)))
  {
    var y' := Next(y, StartTouch(p, idText, t));
    if y' != y {
      var i := FindDoc(y.store.docs, FromHex(idText).value).value;
      var d := ApplyTouch(y.store.docs[i], t);
      assert p in y'.procs && WritesTo(y'.procs[p]) == Some(d.chatId) == Busy(y'.procs[p]);
      forall q | q in y.procs ensures ProcInv(y'.store, y.procs[q]) {
        assert q in y'.procs && y'.procs[q] == y.procs[q] && ProcInv(y.store, y.procs[q]);
        TouchStartFrame(y.store, i, d, y.procs[q]);
      }
      forall chat: ObjectId ensures WriteInFlight(y', chat) || Agrees(y'.store, chat) {
        if WriteInFlight(y, chat) {
          var q :| q in y.procs && WritesTo(y.procs[q]) == Some(chat);
          assert q in y'.procs && y'.procs[q] == y.procs[q];
        } else if chat != d.chatId {
          assert Agrees(y.store, chat);
          TouchStartAgreement(y.store, i, d, chat);
        }
      }
    }
  }

  /** Starting a read or a save, expiring a user and adding one change no chat. */
  lemma OtherActionKeepsInv(y: System, a: Action)
    requires SystemInv(y) && Enabled(y, a) && !a.Step? && !a.StartTouch?
    ensures SystemInv(Next(y, a))
  {
    var y' := Next(y, a);
    forall chat: ObjectId ensures SameChat(y.store, y'.store, chat) {
      AggregateUsersGrow(y.store.docs, y.store.users, y'.store.users, chat);
    }
    forall q | q in y'.procs ensures ProcInv(y'.store, y'.procs[q]) {
      if q in y.procs {
        ProcFrame(y.store, y'.store, y.procs[q]);
      }
    }
    forall chat: ObjectId ensures WriteInFlight(y', chat) || Agrees(y'.store, chat) {
      assert SameChat(y.store, y'.store, chat);
      if WriteInFlight(y, chat) {
        var q :| q in y.procs && WritesTo(y.procs[q]) == Some(chat);
        assert q in y'.procs && y'.procs[q] == y.procs[q];
      } else {
        assert Agrees(y.store, chat);
      }
    }
  }

  lemma ActionKeepsInv(y: System, a: Action)
    requires SystemInv(y) && Enabled(y, a) && LegalAction(y, a)
    requires NoOverlap(y) && NoOverlap(Next(y, a))
    ensures SystemInv(Next(y, a))
  {
    match a
    case Step(p, freshId) => StepKeepsInv(y, p, freshId);
    case StartTouch(p, idText, t) => TouchStartKeepsInv(y, p, idText, t);
    case _ => OtherActionKeepsInv(y, a);
  }

  lemma {:induction false} QuietRunEnabled(y: System, run: seq<Action>)
    requires QuietRun(y, run)
    ensures EnabledRun(y, run)
    decreases |run|
  {
    if run == [] {
    } else {
      QuietRunEnabled(Next(y, run[0]), run[1..]);
    }
  }

  lemma {:induction false} QuietRunKeepsInv(y: System, run: seq<Action>)
    requires SystemInv(y) && QuietRun(y, run)
    ensures EnabledRun(y, run) && SystemInv(After(y, run))
    decreases |run|
  {
    QuietRunEnabled(y, run);
    if run == [] {
    } else {
      ActionKeepsInv(y, run[0]);
      QuietRunKeepsInv(Next(y, run[0]), run[1..]);
    }
  }

  /** Main result: after any run without overlapping windows, every chat on which no write is in flight
      has a cached list, if it has one at all, that is non-empty and agrees with the database on the first hundred. */
  lemma InterleavedCoherence(run: seq<Action>, chat: ObjectId)
    requires QuietRun(START, run)
    ensures EnabledRun(START, run)
    ensures var y := After(START, run);
      && NoEmptyLists(y.store)
      && (!WriteInFlight(y, chat) ==> Agrees(y.store, chat))
  {
    QuietRunKeepsInv(START, run);
  }
}

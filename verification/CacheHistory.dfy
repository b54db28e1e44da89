/** What a cached list may hold under every interleaving of readers and writers, with no assumption on overlap,
    on fresh ids, or on saves that move a message: only versions of messages the database really held in that chat. */
module CacheHistory {
  import opened ObjectIds
  import opened Entities
  import opened Store
  import opened StoreFacts
  import opened Coherence
  import opened Interleaving
  import opened InterleavedCoherence

  ghost predicate VersionIn(seen: set<Doc>, users: map<ObjectId, User>, chat: ObjectId, m: Message) {
    exists d :: d in seen && d.chatId == chat && d.authorId in users && ReadsAs(m, d, users[d.authorId])
  }

  ghost predicate AllVersions(seen: set<Doc>, users: map<ObjectId, User>, text: string, ms: seq<Message>) {
    FromHex(text).Some? && forall i :: 0 <= i < |ms| ==> VersionIn(seen, users, FromHex(text).value, ms[i])
  }

  ghost predicate ProcRemembers(s: StoreState, seen: set<Doc>, proc: Proc) {
    match proc
    case Populating(text, found) => AllVersions(seen, s.users, text, found)
    case GettingUser(key, purpose) => key == LookupKey(purpose)
    case FindingUser(key, purpose) => key == LookupKey(purpose)
    case CachingUser(u, purpose) => u.id in s.users && s.users[u.id] == u && AuthorOf(s.users, u, purpose)
    case Writing(u, purpose) => AuthorOf(s.users, u, purpose)
    case Pushing(m) => VersionIn(seen, s.users, m.chatId, ThroughJson(m))
    case _ => true
  }

  ghost predicate Remembers(y: System, seen: set<Doc>) {
    && UsersKeyed(y.store.users)
    && AuthorsKnown(y.store.docs, y.store.users)
    && UserCacheFaithful(y.store)
    && (forall d :: d in y.store.docs ==> d in seen)
    && (forall t :: t in y.store.lists ==> AllVersions(seen, y.store.users, t, y.store.lists[t]))
    && (forall p :: p in y.procs ==> ProcRemembers(y.store, seen, y.procs[p]))
  }

  function DocsOf(s: StoreState): set<Doc> {
    set d | d in s.docs
  }

  // ---- Growing history ----

  lemma VersionsGrow(seen: set<Doc>, more: set<Doc>, s: StoreState, s': StoreState, text: string, ms: seq<Message>)
    requires seen <= more && UsersGrow(s, s') && AllVersions(seen, s.users, text, ms)
    ensures AllVersions(more, s'.users, text, ms)
  {
  }

  lemma ProcStillRemembers(seen: set<Doc>, more: set<Doc>, s: StoreState, s': StoreState, proc: Proc)
    requires seen <= more && UsersGrow(s, s') && ProcRemembers(s, seen, proc)
    ensures ProcRemembers(s', more, proc)
  {
  }

  lemma ViewIsHistory(s: StoreState, seen: set<Doc>, text: string)
    requires UsersKeyed(s.users) && (forall d :: d in s.docs ==> d in seen) && FromHex(text).Some?
    ensures AllVersions(seen, s.users, text, ChatView(s, FromHex(text).value))
  {
    var chat := FromHex(text).value;
    var rows := Aggregate(s.docs, s.users, chat);
    AggregateMembers(s.docs, s.users, chat);
    forall i | 0 <= i < |rows| ensures VersionIn(seen, s.users, chat, ChatView(s, chat)[i]) {
      assert rows[i] in rows;
      assert rows[i].doc in seen;
      HexRoundTrip(rows[i].author.id);
    }
  }

  lemma JsonKeepsVersions(seen: set<Doc>, users: map<ObjectId, User>, text: string, ms: seq<Message>)
    requires AllVersions(seen, users, text, ms)
    ensures AllVersions(seen, users, text, ThroughJsonAll(ms))
  {
  }

  // ---- One call ----

  lemma ListCallRemembers(s: StoreState, seen: set<Doc>, proc: Proc, freshId: ObjectId)
    requires (forall t :: t in s.lists ==> AllVersions(seen, s.users, t, s.lists[t])) && ProcRemembers(s, seen, proc)
    ensures var lists := Call(s, proc, freshId).0.lists;
            forall t :: t in lists ==> AllVersions(seen, s.users, t, lists[t])
  {
    match proc
    case Populating(text, found) => JsonKeepsVersions(seen, s.users, text, found);
    case Pushing(m) => HexRoundTrip(m.chatId);
    case _ =>
  }

  lemma CallKeepsAuthors(s: StoreState, seen: set<Doc>, proc: Proc, freshId: ObjectId)
    requires AuthorsKnown(s.docs, s.users) && ProcRemembers(s, seen, proc)
    ensures var s' := Call(s, proc, freshId).0;
            s'.users == s.users && AuthorsKnown(s'.docs, s'.users)
  {
    if proc.Writing? && proc.purpose.ForSave? {
      assert FromInternal(proc.purpose.m).authorId in s.users;
    }
  }

  lemma CallKeepsUserCache(s: StoreState, seen: set<Doc>, proc: Proc, freshId: ObjectId)
    requires UserCacheFaithful(s) && ProcRemembers(s, seen, proc)
    ensures UserCacheFaithful(Call(s, proc, freshId).0)
  {
    if proc.CachingUser? {
      HexRoundTrip(proc.user.id);
    }
  }

  lemma InsertedIsVersion(s: StoreState, seen: set<Doc>, u: User, m: Message, freshId: ObjectId)
    requires UsersKeyed(s.users) && AuthorOf(s.users, u, ForSave(m))
    ensures var added := m.(author := u, id := freshId);
            var docs := s.docs + [FromInternal(added)];
            VersionIn(seen + DocsOf(s.(docs := docs)), s.users, m.chatId, ThroughJson(added))
  {
    var added := m.(author := u, id := freshId);
    var d := FromInternal(added);
    assert (s.docs + [d])[|s.docs|] == d;
    assert ReadsAs(ThroughJson(added), d, s.users[d.authorId]);
    assert d in seen + DocsOf(s.(docs := s.docs + [d]));
  }

  lemma CallNextRemembers(s: StoreState, seen: set<Doc>, proc: Proc, freshId: ObjectId)
    requires Remembers(System(s, map[]), seen) && ProcRemembers(s, seen, proc)
    ensures var (s', next) := Call(s, proc, freshId);
            next.Some? ==> ProcRemembers(s', seen + DocsOf(s'), next.value)
  {
    match proc
    case Aggregating(text) => if FromHex(text).Some? { ViewIsHistory(s, seen + DocsOf(s), text); }
    case Writing(u, ForSave(m)) =>
      if m.id == NIL_ID {
        InsertedIsVersion(s, seen, u, m, freshId);
      }
    case _ =>
  }

  lemma CallRemembers(s: StoreState, seen: set<Doc>, proc: Proc, freshId: ObjectId)
    requires Remembers(System(s, map[]), seen) && ProcRemembers(s, seen, proc)
    ensures var (s', next) := Call(s, proc, freshId);
            var more := seen + DocsOf(s');
      && s'.users == s.users
      && Remembers(System(s', map[]), more)
      && (next.Some? ==> ProcRemembers(s', more, next.value))
  {
    var s' := Call(s, proc, freshId).0;
    CallKeepsAuthors(s, seen, proc, freshId);
    CallKeepsUserCache(s, seen, proc, freshId);
    CallNextRemembers(s, seen, proc, freshId);
    ListCallRemembers(s, seen, proc, freshId);
    forall t | t in s'.lists ensures AllVersions(seen + DocsOf(s'), s'.users, t, s'.lists[t]) {
      VersionsGrow(seen, seen + DocsOf(s'), s, s', t, s'.lists[t]);
    }
  }

  lemma OthersStillRemember(y: System, y': System, seen: set<Doc>, more: set<Doc>, p: nat)
    requires (forall q :: q in y.procs ==> ProcRemembers(y.store, seen, y.procs[q]))
    requires seen <= more && UsersGrow(y.store, y'.store)
    requires forall q :: q in y'.procs && q != p ==> q in y.procs && y'.procs[q] == y.procs[q]
    requires p in y'.procs ==> ProcRemembers(y'.store, more, y'.procs[p])
    ensures forall q :: q in y'.procs ==> ProcRemembers(y'.store, more, y'.procs[q])
  {
  }

  lemma StepRemembers(y: System, seen: set<Doc>, p: nat, freshId: ObjectId)
    requires Remembers(y, seen) && p in y.procs
    ensures Remembers(Next(y, Step(p, freshId)), seen + DocsOf(Next(y, Step(p, freshId)).store))
  {
    var y' := Next(y, Step(p, freshId));
    CallRemembers(y.store, seen, y.procs[p], freshId);
    OthersStillRemember(y, y', seen, seen + DocsOf(y'.store), p);
  }

  lemma TouchStartKeepsDatabase(y: System, a: Action)
    requires AuthorsKnown(y.store.docs, y.store.users) && Enabled(y, a) && a.StartTouch?
    ensures var s' := Next(y, a).store;
            s' == y.store.(docs := s'.docs) && AuthorsKnown(s'.docs, s'.users)
  {
  }

  lemma OtherStartKeepsDatabase(y: System, a: Action)
    requires UsersKeyed(y.store.users) && AuthorsKnown(y.store.docs, y.store.users) && UserCacheFaithful(y.store)
    requires Enabled(y, a) && !a.Step? && !a.StartTouch?
    ensures var s' := Next(y, a).store;
      && UsersKeyed(s'.users) && AuthorsKnown(s'.docs, s'.users) && UserCacheFaithful(s')
      && UsersGrow(y.store, s') && s'.lists == y.store.lists
  {
  }

  lemma StartRemembers(y: System, seen: set<Doc>, a: Action)
    requires Remembers(y, seen) && Enabled(y, a) && !a.Step?
    ensures Remembers(Next(y, a), seen + DocsOf(Next(y, a).store))
  {
    var y' := Next(y, a);
    var more := seen + DocsOf(y'.store);
    if a.StartTouch? {
      TouchStartKeepsDatabase(y, a);
    } else {
      OtherStartKeepsDatabase(y, a);
    }
    forall t | t in y'.store.lists ensures AllVersions(more, y'.store.users, t, y'.store.lists[t]) {
      VersionsGrow(seen, more, y.store, y'.store, t, y.store.lists[t]);
    }
    forall p | p in y'.procs ensures ProcRemembers(y'.store, more, y'.procs[p]) {
      if p in y.procs {
        ProcStillRemembers(seen, more, y.store, y'.store, y.procs[p]);
      }
    }
  }

  lemma ActionRemembers(y: System, seen: set<Doc>, a: Action)
    requires Remembers(y, seen) && Enabled(y, a)
    ensures Remembers(Next(y, a), seen + DocsOf(Next(y, a).store))
  {
    if a.Step? {
      StepRemembers(y, seen, a.p, a.freshId);
    } else {
      StartRemembers(y, seen, a);
    }
  }

  // ---- Runs ----

  /** Every document of every state along a run. */
  ghost function Held(y: System, run: seq<Action>): set<Doc>
    requires EnabledRun(y, run)
    decreases |run|
  {
    DocsOf(y.store) + if run == [] then {} else Held(Next(y, run[0]), run[1..])
  }

  lemma {:induction false} PrefixEnabled(y: System, run: seq<Action>, j: nat)
    requires EnabledRun(y, run) && j <= |run|
    ensures EnabledRun(y, run[..j])
    decreases |run|
  {
    if j == 0 {
    } else {
      PrefixEnabled(Next(y, run[0]), run[1..], j - 1);
      assert run[..j][1..] == run[1..][..j - 1];
    }
  }

  ghost predicate HeldAt(y: System, run: seq<Action>, d: Doc, j: nat)
    requires EnabledRun(y, run)
  {
    j <= |run| && EnabledRun(y, run[..j]) && d in After(y, run[..j]).store.docs
  }

  lemma {:induction false} HeldMeansHeldAt(y: System, run: seq<Action>, d: Doc)
    requires EnabledRun(y, run) && d in Held(y, run)
    ensures exists j: nat :: HeldAt(y, run, d, j)
    decreases |run|
  {
    if d in DocsOf(y.store) {
      assert run[..0] == [];
      assert HeldAt(y, run, d, 0);
    } else {
      HeldMeansHeldAt(Next(y, run[0]), run[1..], d);
      var j: nat :| HeldAt(Next(y, run[0]), run[1..], d, j);
      PrefixEnabled(y, run, j + 1);
      assert run[..j + 1][1..] == run[1..][..j];
      assert HeldAt(y, run, d, j + 1);
    }
  }

  lemma {:induction false} RunRemembers(y: System, seen: set<Doc>, run: seq<Action>)
    requires Remembers(y, seen) && EnabledRun(y, run)
    ensures Remembers(After(y, run), seen + Held(y, run))
    decreases |run|
  {
    if run == [] {
      assert seen + Held(y, run) == seen;
    } else {
      var y' := Next(y, run[0]);
      ActionRemembers(y, seen, run[0]);
      RunRemembers(y', seen + DocsOf(y'.store), run[1..]);
      assert seen + DocsOf(y'.store) + Held(y', run[1..]) == seen + Held(y, run);
    }
  }

  /** The message `m` is what the database held, at some moment of the run, as document `d` of chat `chat`. */
  ghost predicate WasReal(run: seq<Action>, users: map<ObjectId, User>, chat: ObjectId, m: Message)
    requires EnabledRun(START, run)
  {
    exists d, j: nat :: HeldAt(START, run, d, j) && d.chatId == chat && d.authorId in users &&
                        ReadsAs(m, d, users[d.authorId])
  }

  /** Main result: whatever ran, in whatever order, a cached list never shows a message, a content or a flag
      that the database did not hold for that chat at some earlier moment. */
  lemma CacheHoldsOnlyHistory(run: seq<Action>, text: string, i: nat)
    requires EnabledRun(START, run)
    requires text in After(START, run).store.lists && i < |After(START, run).store.lists[text]|
    ensures FromHex(text).Some?
    ensures WasReal(run, After(START, run).store.users, FromHex(text).value, After(START, run).store.lists[text][i])
  {
    var y := After(START, run);
    RunRemembers(START, {}, run);
    var seen := {} + Held(START, run);
    assert AllVersions(seen, y.store.users, text, y.store.lists[text]);
    assert VersionIn(seen, y.store.users, FromHex(text).value, y.store.lists[text][i]);
    var d :| d in seen && d.chatId == FromHex(text).value && d.authorId in y.store.users &&
             ReadsAs(y.store.lists[text][i], d, y.store.users[d.authorId]);
    HeldMeansHeldAt(START, run, d);
  }
}

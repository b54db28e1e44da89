/** One reader's window against one writer's, call by call: which orders of their calls leave a wrong list, and when. */
module Windows {
  import opened Wrappers
  import opened ObjectIds
  import opened Entities
  import opened Store
  import opened StoreFacts
  import opened Coherence
  import opened Interleaving
  import opened InterleavedCoherence

  datatype Turn = R | W

  // ---- Two methods among any others ----

  /** The next call of method `p`, if it is still running. */
  function Call1(y: System, p: nat, freshId: ObjectId): System {
    if p in y.procs then Next(y, Step(p, freshId)) else y
  }

  /** The reader `p` and the writer `q` take their calls in this order. */
  function Turns(y: System, order: seq<Turn>, p: nat, q: nat, freshId: ObjectId): System
    decreases |order|
  {
    if order == [] then y else Turns(Call1(y, if order[0].R? then p else q, freshId), order[1..], p, q, freshId)
  }

  /** The part of the system that the two act on. */
  datatype Duo = Duo(store: StoreState, reader: Option<Proc>, writer: Option<Proc>)

  function DuoTurn(d: Duo, t: Turn, freshId: ObjectId): Duo {
    match t
    case R =>
      if d.reader.None? then d
      else var (s, next) := Call(d.store, d.reader.value, freshId); Duo(s, next, d.writer)
    case W =>
      if d.writer.None? then d
      else var (s, next) := Call(d.store, d.writer.value, freshId); Duo(s, d.reader, next)
  }

  function DuoTurns(d: Duo, order: seq<Turn>, freshId: ObjectId): Duo
    decreases |order|
  {
    if order == [] then d else DuoTurns(DuoTurn(d, order[0], freshId), order[1..], freshId)
  }

  function ProcAt(y: System, p: nat): Option<Proc> {
    if p in y.procs then Some(y.procs[p]) else None
  }

  function DuoOf(y: System, p: nat, q: nat): Duo {
    Duo(y.store, ProcAt(y, p), ProcAt(y, q))
  }

  lemma {:induction false} TurnsAreDuoTurns(y: System, order: seq<Turn>, p: nat, q: nat, freshId: ObjectId)
    requires p != q
    ensures DuoOf(Turns(y, order, p, q, freshId), p, q) == DuoTurns(DuoOf(y, p, q), order, freshId)
    decreases |order|
  {
    if order == [] {
    } else {
      var y' := Call1(y, if order[0].R? then p else q, freshId);
      assert DuoOf(y', p, q) == DuoTurn(DuoOf(y, p, q), order[0], freshId);
      TurnsAreDuoTurns(y', order[1..], p, q, freshId);
    }
  }

  lemma DuoTurnsCons(d: Duo, t: Turn, order: seq<Turn>, freshId: ObjectId)
    ensures DuoTurns(d, [t] + order, freshId) == DuoTurns(DuoTurn(d, t, freshId), order, freshId)
  {
    assert ([t] + order)[1..] == order;
  }

  /** The six orders of two calls of each method. */
  predicate TwoEach(order: seq<Turn>) {
    order == [W, W, R, R] || order == [W, R, W, R] || order == [W, R, R, W] ||
    order == [R, W, W, R] || order == [R, W, R, W] || order == [R, R, W, W]
  }

  // ---- A reader against an insertion ----

  function Added(m: Message, u: User, freshId: ObjectId): Message {
    m.(author := u, id := freshId)
  }

  function Inserted(s: StoreState, m: Message, u: User, freshId: ObjectId): StoreState {
    s.(docs := s.docs + [FromInternal(Added(m, u, freshId))])
  }

  function WithList(s: StoreState, chat: ObjectId, list: seq<Message>): StoreState {
    s.(lists := s.lists[Hex(chat) := list])
  }

  function Populated(s: StoreState, chat: ObjectId, view: seq<Message>): StoreState {
    if view == [] then s else WithList(s, chat, ThroughJsonAll(view))
  }

  lemma LoadTurn(s: StoreState, chat: ObjectId, w: Option<Proc>, freshId: ObjectId)
    ensures DuoTurn(Duo(s, Some(Aggregating(Hex(chat))), w), R, freshId) ==
            Duo(s, Some(Populating(Hex(chat), ChatView(s, chat))), w)
  {
    HexRoundTrip(chat);
  }

  lemma PopulateTurn(s: StoreState, chat: ObjectId, view: seq<Message>, w: Option<Proc>, freshId: ObjectId)
    requires Hex(chat) !in s.lists
    ensures DuoTurn(Duo(s, Some(Populating(Hex(chat), view)), w), R, freshId) == Duo(Populated(s, chat, view), None, w)
  {
    assert [] + ThroughJsonAll(view) == ThroughJsonAll(view);
  }

  lemma InsertTurn(s: StoreState, m: Message, u: User, r: Option<Proc>, freshId: ObjectId)
    requires m.id == NIL_ID
    ensures DuoTurn(Duo(s, r, Some(Writing(u, ForSave(m)))), W, freshId) ==
            Duo(Inserted(s, m, u, freshId), r, Some(Pushing(Added(m, u, freshId))))
  {
  }

  /** The push and, if it found a list, the trim. */
  lemma PushTurn(s: StoreState, m: Message, r: Option<Proc>, freshId: ObjectId)
    ensures DuoTurn(Duo(s, r, Some(Pushing(m))), W, freshId) ==
            if Hex(m.chatId) !in s.lists then Duo(s, r, None)
            else Duo(WithList(s, m.chatId, s.lists[Hex(m.chatId)] + [ThroughJson(m)]), r, Some(Trimming(m)))
  {
  }

  lemma TrimTurn(s: StoreState, m: Message, r: Option<Proc>, freshId: ObjectId)
    requires Hex(m.chatId) in s.lists
    ensures DuoTurn(Duo(s, r, Some(Trimming(m))), W, freshId) ==
            Duo(WithList(s, m.chatId, Head(s.lists[Hex(m.chatId)])), r, None)
  {
  }

  /** A list whose head is judged against the view of the chat. */
  lemma AgreesWithList(s: StoreState, chat: ObjectId, list: seq<Message>)
    ensures Agrees(WithList(s, chat, list), chat) <==> SameHead(list, ChatView(s, chat))
    ensures SameHead(Head(list), ChatView(s, chat)) <==> SameHead(list, ChatView(s, chat))
  {
    assert ChatView(WithList(s, chat, list), chat) == ChatView(s, chat);
  }

  lemma PopulatedAgrees(s: StoreState, chat: ObjectId, view: seq<Message>)
    requires Hex(chat) !in s.lists
    ensures Agrees(Populated(s, chat, view), chat) <==> view == [] || SameHead(view, ChatView(s, chat))
  {
    AgreesWithList(s, chat, ThroughJsonAll(view));
    JsonIsInvisible(view);
    assert SameHead(ThroughJsonAll(view), ChatView(s, chat)) <==> SameHead(view, ChatView(s, chat));
  }

  lemma ViewGrows(s: StoreState, m: Message, u: User, freshId: ObjectId) returns (x: Message)
    requires WellFormed(s) && AuthorOf(s.users, u, ForSave(m))
    ensures ChatView(Inserted(s, m, u, freshId), m.chatId) == ChatView(s, m.chatId) + [x]
    ensures Visible(ThroughJson(Added(m, u, freshId))) == Visible(x)
  {
    var d := FromInternal(Added(m, u, freshId));
    ViewAfterInsert(s, d, m.chatId);
    VisibleOfStored(m.(id := freshId), u, s.users);
    x := ToInternal(d, s.users[d.authorId]);
  }

  lemma ShortAgainstLong(view: seq<Message>, x: Message)
    ensures SameHead(view, view + [x]) <==> |view| >= CACHE_LIMIT
  {
    if |view| >= CACHE_LIMIT {
      assert Head(view + [x]) == Head(view);
    } else {
      assert |VisibleAll(Head(view))| != |VisibleAll(Head(view + [x]))|;
    }
  }

  lemma PushedTwice(view: seq<Message>, j: Message)
    ensures SameHead(ThroughJsonAll(view) + [j], view) <==> |view| >= CACHE_LIMIT
  {
    JsonIsInvisible(view);
    ShortAgainstLong(ThroughJsonAll(view), j);
    var js := ThroughJsonAll(view);
    if |view| >= CACHE_LIMIT {
      assert Head(js + [j]) == Head(js);
    } else {
      assert |VisibleAll(Head(js + [j]))| != |VisibleAll(Head(view))|;
    }
  }

  lemma ThreeTurns(d: Duo, a: Turn, b: Turn, c: Turn, rest: seq<Turn>, freshId: ObjectId)
    ensures DuoTurns(d, [a, b, c] + rest, freshId) ==
            DuoTurns(DuoTurn(DuoTurn(DuoTurn(d, a, freshId), b, freshId), c, freshId), rest, freshId)
  {
    assert [a, b, c] + rest == [a] + ([b] + ([c] + rest));
    DuoTurnsCons(d, a, [b] + ([c] + rest), freshId);
    DuoTurnsCons(DuoTurn(d, a, freshId), b, [c] + rest, freshId);
    DuoTurnsCons(DuoTurn(DuoTurn(d, a, freshId), b, freshId), c, rest, freshId);
  }

  lemma TwoTurns(d: Duo, a: Turn, b: Turn, freshId: ObjectId)
    ensures DuoTurns(d, [a, b], freshId) == DuoTurn(DuoTurn(d, a, freshId), b, freshId)
  {
    assert [a, b] == [a] + ([b] + []);
    DuoTurnsCons(d, a, [b] + [], freshId);
    DuoTurnsCons(DuoTurn(d, a, freshId), b, [], freshId);
  }

  /** The reader populates last. */
  lemma PopulateLast(s: StoreState, chat: ObjectId, view: seq<Message>, freshId: ObjectId)
    requires Hex(chat) !in s.lists
    ensures DuoTurns(Duo(s, Some(Populating(Hex(chat), view)), None), [R, W], freshId) ==
            Duo(Populated(s, chat, view), None, None)
  {
    PopulateTurn(s, chat, view, None, freshId);
    TwoTurns(Duo(s, Some(Populating(Hex(chat), view)), None), R, W, freshId);
  }

  /** The writer pushes and trims last. */
  lemma PushLast(s: StoreState, m: Message, view: seq<Message>, freshId: ObjectId)
    requires Hex(m.chatId) !in s.lists
    ensures DuoTurns(Duo(Populated(s, m.chatId, view), None, Some(Pushing(m))), [W, W], freshId) ==
            var list := Head(ThroughJsonAll(view) + [ThroughJson(m)]);
            Duo(if view == [] then s else WithList(s, m.chatId, list), None, None)
  {
    var s2 := Populated(s, m.chatId, view);
    TwoTurns(Duo(s2, None, Some(Pushing(m))), W, W, freshId);
    PushTurn(s2, m, None, freshId);
    if view != [] {
      var s3 := WithList(s2, m.chatId, ThroughJsonAll(view) + [ThroughJson(m)]);
      TrimTurn(s3, m, None, freshId);
      var list := Head(s3.lists[Hex(m.chatId)]);
      assert WithList(s3, m.chatId, list) == WithList(s, m.chatId, list);
    }
  }

  /** The whole of one order, up to the call that may be left over for the writer: a trim. */
  function Outcome(s: StoreState, m: Message, u: User, freshId: ObjectId, order: seq<Turn>): Duo {
    DuoTurns(Duo(s, Some(Aggregating(Hex(m.chatId))), Some(Writing(u, ForSave(m)))), order + [W], freshId)
  }

  lemma WriteFirst(s: StoreState, m: Message, u: User, freshId: ObjectId)
    requires m.id == NIL_ID && Hex(m.chatId) !in s.lists
    ensures var s1 := Inserted(s, m, u, freshId);
            var view := ChatView(s1, m.chatId);
            var pushing := Some(Pushing(Added(m, u, freshId)));
      && Outcome(s, m, u, freshId, [W, W, R, R]) ==
         DuoTurns(Duo(s1, Some(Populating(Hex(m.chatId), view)), None), [R, W], freshId)
      && Outcome(s, m, u, freshId, [W, R, W, R]) ==
         DuoTurns(Duo(s1, Some(Populating(Hex(m.chatId), view)), None), [R, W], freshId)
      && Outcome(s, m, u, freshId, [W, R, R, W]) ==
         DuoTurns(Duo(Populated(s1, m.chatId, view), None, pushing), [W, W], freshId)
  {
    var added := Added(m, u, freshId);
    var s1 := Inserted(s, m, u, freshId);
    var view := ChatView(s1, m.chatId);
    var start := Duo(s, Some(Aggregating(Hex(m.chatId))), Some(Writing(u, ForSave(m))));
    InsertTurn(s, m, u, Some(Aggregating(Hex(m.chatId))), freshId);
    PushTurn(s1, added, Some(Aggregating(Hex(m.chatId))), freshId);
    PushTurn(s1, added, Some(Populating(Hex(m.chatId), view)), freshId);
    LoadTurn(s1, m.chatId, None, freshId);
    LoadTurn(s1, m.chatId, Some(Pushing(added)), freshId);
    PopulateTurn(s1, m.chatId, view, Some(Pushing(added)), freshId);
    ThreeTurns(start, W, W, R, [R, W], freshId);
    ThreeTurns(start, W, R, W, [R, W], freshId);
    ThreeTurns(start, W, R, R, [W, W], freshId);
    assert [W, W, R, R] + [W] == [W, W, R] + [R, W] && [W, R, W, R] + [W] == [W, R, W] + [R, W];
    assert [W, R, R, W] + [W] == [W, R, R] + [W, W];
  }

  lemma LoadFirst(s: StoreState, m: Message, u: User, freshId: ObjectId)
    requires m.id == NIL_ID && Hex(m.chatId) !in s.lists
    ensures var s1 := Inserted(s, m, u, freshId);
            var view := ChatView(s, m.chatId);
            var pushing := Some(Pushing(Added(m, u, freshId)));
      && Outcome(s, m, u, freshId, [R, W, W, R]) ==
         DuoTurns(Duo(s1, Some(Populating(Hex(m.chatId), view)), None), [R, W], freshId)
      && Outcome(s, m, u, freshId, [R, W, R, W]) ==
         DuoTurns(Duo(Populated(s1, m.chatId, view), None, pushing), [W, W], freshId)
      && Outcome(s, m, u, freshId, [R, R, W, W]) ==
         DuoTurns(Duo(Populated(s1, m.chatId, view), None, pushing), [W, W], freshId)
  {
    var added := Added(m, u, freshId);
    var s1 := Inserted(s, m, u, freshId);
    var view := ChatView(s, m.chatId);
    var populating := Some(Populating(Hex(m.chatId), view));
    var start := Duo(s, Some(Aggregating(Hex(m.chatId))), Some(Writing(u, ForSave(m))));
    LoadTurn(s, m.chatId, Some(Writing(u, ForSave(m))), freshId);
    InsertTurn(s, m, u, populating, freshId);
    PushTurn(s1, added, populating, freshId);
    PopulateTurn(s1, m.chatId, view, Some(Pushing(added)), freshId);
    PopulateTurn(s, m.chatId, view, Some(Writing(u, ForSave(m))), freshId);
    InsertTurn(Populated(s, m.chatId, view), m, u, None, freshId);
    assert Inserted(Populated(s, m.chatId, view), m, u, freshId) == Populated(s1, m.chatId, view);
    ThreeTurns(start, R, W, W, [R, W], freshId);
    ThreeTurns(start, R, W, R, [W, W], freshId);
    ThreeTurns(start, R, R, W, [W, W], freshId);
    assert [R, W, W, R] + [W] == [R, W, W] + [R, W] && [R, W, R, W] + [W] == [R, W, R] + [W, W];
    assert [R, R, W, W] + [W] == [R, R, W] + [W, W];
  }

  /** The two orders that can go wrong, and the sizes of the chat, before the insertion, at which they do not. */
  predicate SafeOrder(order: seq<Turn>, size: nat) {
    if order == [W, R, R, W] then size + 1 >= CACHE_LIMIT
    else if order == [R, W, W, R] then size == 0 || size >= CACHE_LIMIT
    else true
  }

  /** The message pushed on top of what the reader populated: once too often, or just right. */
  lemma PushedAgrees(s1: StoreState, m: Message, view: seq<Message>)
    requires view != []
    ensures Agrees(WithList(s1, m.chatId, Head(ThroughJsonAll(view) + [ThroughJson(m)])), m.chatId) <==>
            SameHead(ThroughJsonAll(view) + [ThroughJson(m)], ChatView(s1, m.chatId))
  {
    AgreesWithList(s1, m.chatId, Head(ThroughJsonAll(view) + [ThroughJson(m)]));
    AgreesWithList(s1, m.chatId, ThroughJsonAll(view) + [ThroughJson(m)]);
  }

  lemma LoadedNew(s: StoreState, m: Message, u: User, freshId: ObjectId, order: seq<Turn>)
    requires WellFormed(s) && AuthorOf(s.users, u, ForSave(m)) && m.id == NIL_ID && Hex(m.chatId) !in s.lists
    requires order == [W, W, R, R] || order == [W, R, W, R] || order == [W, R, R, W]
    ensures Agrees(Outcome(s, m, u, freshId, order).store, m.chatId) <==> SafeOrder(order, |ChatView(s, m.chatId)|)
    ensures Outcome(s, m, u, freshId, order).reader.None? && Outcome(s, m, u, freshId, order).writer.None?
  {
    var x := ViewGrows(s, m, u, freshId);
    var s1 := Inserted(s, m, u, freshId);
    var view := ChatView(s1, m.chatId);
    WriteFirst(s, m, u, freshId);
    if order == [W, R, R, W] {
      PushLast(s1, Added(m, u, freshId), view, freshId);
      PushedAgrees(s1, Added(m, u, freshId), view);
      PushedTwice(view, ThroughJson(Added(m, u, freshId)));
    } else {
      PopulateLast(s1, m.chatId, view, freshId);
      PopulatedAgrees(s1, m.chatId, view);
    }
  }

  lemma LoadedBefore(s: StoreState, m: Message, u: User, freshId: ObjectId, order: seq<Turn>)
    requires WellFormed(s) && AuthorOf(s.users, u, ForSave(m)) && m.id == NIL_ID && Hex(m.chatId) !in s.lists
    requires order == [R, W, W, R] || order == [R, W, R, W] || order == [R, R, W, W]
    ensures Agrees(Outcome(s, m, u, freshId, order).store, m.chatId) <==> SafeOrder(order, |ChatView(s, m.chatId)|)
    ensures Outcome(s, m, u, freshId, order).reader.None? && Outcome(s, m, u, freshId, order).writer.None?
  {
    var x := ViewGrows(s, m, u, freshId);
    var s1 := Inserted(s, m, u, freshId);
    var view := ChatView(s, m.chatId);
    LoadFirst(s, m, u, freshId);
    if order == [R, W, W, R] {
      PopulateLast(s1, m.chatId, view, freshId);
      PopulatedAgrees(s1, m.chatId, view);
      ShortAgainstLong(view, x);
    } else {
      PushLast(s1, Added(m, u, freshId), view, freshId);
      if view != [] {
        PushedAgrees(s1, Added(m, u, freshId), view);
        JsonIsInvisible(view);
        PushAgrees(ThroughJsonAll(view), view, ThroughJson(Added(m, u, freshId)), x);
      }
    }
  }

  /** Main result for an insertion: of the six orders of its two calls and a reader's two, among any other methods, the
      chat ends up wrong in just two. If the reader loads the new message and populates before the push, the message
      is there twice, unless the chat then fills the hundred; if the whole insertion falls between load and
      population, the message is missing, unless the chat was empty or already filled the hundred. */
  lemma ReaderAgainstInsertion(y: System, p: nat, q: nat, m: Message, u: User, freshId: ObjectId, order: seq<Turn>)
    requires p != q && ProcAt(y, p) == Some(Aggregating(Hex(m.chatId))) && ProcAt(y, q) == Some(Writing(u, ForSave(m)))
    requires WellFormed(y.store) && AuthorOf(y.store.users, u, ForSave(m)) && m.id == NIL_ID
    requires Hex(m.chatId) !in y.store.lists && TwoEach(order)
    ensures var y' := Turns(y, order + [W], p, q, freshId);
      && p !in y'.procs && q !in y'.procs
      && (Agrees(y'.store, m.chatId) <==> SafeOrder(order, |ChatView(y.store, m.chatId)|))
  {
    TurnsAreDuoTurns(y, order + [W], p, q, freshId);
    if order[0].W? {
      LoadedNew(y.store, m, u, freshId, order);
    } else {
      LoadedBefore(y.store, m, u, freshId, order);
    }
  }

  // ---- A reader against an edit, hide, show, delete or re-save ----

  /** The document was written; the next call deletes the chat's list. */
  predicate AboutToDelete(w: Proc, chat: ObjectId) {
    || (w.Writing? && w.purpose.ForTouch? && w.purpose.doc.chatId == chat)
    || (w.Dropping? && w.m.chatId == chat)
  }

  function Deleted(s: StoreState, chat: ObjectId): StoreState {
    s.(lists := Del(s.lists, Hex(chat)))
  }

  lemma DeleteTurn(s: StoreState, w: Proc, chat: ObjectId, r: Option<Proc>, freshId: ObjectId)
    requires AboutToDelete(w, chat)
    ensures DuoTurn(Duo(s, r, Some(w)), W, freshId) == Duo(Deleted(s, chat), r, None)
  {
  }

  lemma SplicedHeads(view: seq<Message>, k: nat, x: Message)
    requires k < |view|
    ensures SameHead(view, view[k := x]) <==> k >= CACHE_LIMIT || Visible(view[k]) == Visible(x)
  {
    var a, b := VisibleAll(Head(view)), VisibleAll(Head(view[k := x]));
    if k < CACHE_LIMIT {
      assert a[k] == Visible(view[k]) && b[k] == Visible(x);
      if Visible(view[k]) == Visible(x) {
        assert a == b;
      }
    } else {
      assert Head(view) == Head(view[k := x]);
    }
  }

  lemma OldViewAgrees(s: StoreState, i: nat, d: Doc)
    requires i < |s.docs| && AuthorsKnown(s.docs, s.users) && d.authorId in s.users
    requires d.id == s.docs[i].id && d.chatId == s.docs[i].chatId
    ensures SameHead(ChatView(s, d.chatId), ChatView(s.(docs := s.docs[i := d]), d.chatId)) <==>
            Place(s, i) >= CACHE_LIMIT || VisibleDoc(s, s.docs[i]) == VisibleDoc(s, d)
  {
    ViewAfterReplace(s, i, d, d.chatId);
    SplicedHeads(ChatView(s, d.chatId), Place(s, i), ToInternal(d, s.users[d.authorId]));
  }

  lemma DeleteThenPopulate(s1: StoreState, w: Proc, chat: ObjectId, view: seq<Message>, freshId: ObjectId)
    requires AboutToDelete(w, chat)
    ensures DuoTurns(Duo(s1, Some(Populating(Hex(chat), view)), Some(w)), [W, R], freshId) ==
            Duo(Populated(Deleted(s1, chat), chat, view), None, None)
    ensures Agrees(Populated(Deleted(s1, chat), chat, view), chat) <==> view == [] || SameHead(view, ChatView(s1, chat))
  {
    TwoTurns(Duo(s1, Some(Populating(Hex(chat), view)), Some(w)), W, R, freshId);
    DeleteTurn(s1, w, chat, Some(Populating(Hex(chat), view)), freshId);
    PopulateTurn(Deleted(s1, chat), chat, view, None, freshId);
    PopulatedAgrees(Deleted(s1, chat), chat, view);
    assert ChatView(Deleted(s1, chat), chat) == ChatView(s1, chat);
  }

  /** Main result for a replacement of document `i` by `d`, written after the reader's load: if the deletion comes
      before the population the old view is cached, which is right exactly when the message lies beyond the hundred or
      nothing visible changed; if it comes after, there is no list. */
  lemma ReaderAgainstReplacement(y: System, p: nat, q: nat, s: StoreState, i: nat, d: Doc, freshId: ObjectId)
    requires p != q && WellFormed(s) && i < |s.docs| && d.authorId in s.users
    requires d.id == s.docs[i].id && d.chatId == s.docs[i].chatId
    requires y.store.docs == s.docs[i := d] && y.store.users == s.users
    requires ProcAt(y, p) == Some(Populating(Hex(d.chatId), ChatView(s, d.chatId)))
    requires q in y.procs && AboutToDelete(y.procs[q], d.chatId)
    ensures Agrees(Turns(y, [W, R], p, q, freshId).store, d.chatId) <==>
            Place(s, i) >= CACHE_LIMIT || VisibleDoc(s, s.docs[i]) == VisibleDoc(s, d)
    ensures Hex(d.chatId) !in Turns(y, [R, W], p, q, freshId).store.lists
  {
    TurnsAreDuoTurns(y, [W, R], p, q, freshId);
    TurnsAreDuoTurns(y, [R, W], p, q, freshId);
    DeleteThenPopulate(y.store, y.procs[q], d.chatId, ChatView(s, d.chatId), freshId);
    OldViewAgrees(s, i, d);
    ViewAfterReplace(s, i, d, d.chatId);
    assert ChatView(y.store, d.chatId) == ChatView(s.(docs := s.docs[i := d]), d.chatId);
    DeleteLast(y.store, y.procs[q], d.chatId, ChatView(s, d.chatId), freshId);
  }

  lemma DeleteLast(s1: StoreState, w: Proc, chat: ObjectId, view: seq<Message>, freshId: ObjectId)
    requires AboutToDelete(w, chat)
    ensures Hex(chat) !in DuoTurns(Duo(s1, Some(Populating(Hex(chat), view)), Some(w)), [R, W], freshId).store.lists
  {
    var d := Duo(s1, Some(Populating(Hex(chat), view)), Some(w));
    TwoTurns(d, R, W, freshId);
    DeleteTurn(DuoTurn(d, R, freshId).store, w, chat, None, freshId);
  }

  /** A load that comes after the document was written does no harm, whenever the deletion comes. */
  lemma LateLoadIsHarmless(y: System, p: nat, q: nat, chat: ObjectId, freshId: ObjectId)
    requires p != q && ProcAt(y, p) == Some(Populating(Hex(chat), ChatView(y.store, chat)))
    requires q in y.procs && AboutToDelete(y.procs[q], chat)
    ensures Agrees(Turns(y, [W, R], p, q, freshId).store, chat)
    ensures Agrees(Turns(y, [R, W], p, q, freshId).store, chat)
  {
    TurnsAreDuoTurns(y, [W, R], p, q, freshId);
    TurnsAreDuoTurns(y, [R, W], p, q, freshId);
    DeleteThenPopulate(y.store, y.procs[q], chat, ChatView(y.store, chat), freshId);
    DeleteLast(y.store, y.procs[q], chat, ChatView(y.store, chat), freshId);
  }

  // ---- A reader against a reader ----

  /** What two populations of the same view leave. */
  function TwicePopulated(s: StoreState, chat: ObjectId, view: seq<Message>): StoreState {
    if view == [] then s else WithList(s, chat, ThroughJsonAll(view) + ThroughJsonAll(view))
  }

  lemma DoubledList(view: seq<Message>)
    requires view != []
    ensures SameHead(ThroughJsonAll(view) + ThroughJsonAll(view), view) <==> |view| >= CACHE_LIMIT
  {
    var js := ThroughJsonAll(view);
    JsonIsInvisible(view);
    if |view| >= CACHE_LIMIT {
      assert Head(js + js) == Head(js);
    } else {
      assert |VisibleAll(Head(js + js))| != |VisibleAll(Head(view))|;
    }
  }

  function Swapped(d: Duo): Duo {
    Duo(d.store, d.writer, d.reader)
  }

  function Other(t: Turn): Turn {
    if t.R? then W else R
  }

  lemma SwappedTurn(d: Duo, t: Turn, freshId: ObjectId)
    ensures DuoTurn(Swapped(d), Other(t), freshId) == Swapped(DuoTurn(d, t, freshId))
  {
  }

  /** Two readers that both missed, one of them still to load and the other to populate, or both to populate. */
  lemma BothPopulate(s: StoreState, chat: ObjectId, freshId: ObjectId)
    requires Hex(chat) !in s.lists
    ensures var view := ChatView(s, chat);
            var reading, loaded := Some(Aggregating(Hex(chat))), Some(Populating(Hex(chat), view));
            var done := Duo(TwicePopulated(s, chat, view), None, None);
      && DuoTurns(Duo(s, loaded, loaded), [R, W], freshId) == done
      && DuoTurns(Duo(s, loaded, loaded), [W, R], freshId) == done
      && DuoTurns(Duo(Populated(s, chat, view), None, reading), [W, W], freshId) == done
      && DuoTurns(Duo(Populated(s, chat, view), reading, None), [R, R], freshId) == done
  {
    var view := ChatView(s, chat);
    var reading, loaded := Some(Aggregating(Hex(chat))), Some(Populating(Hex(chat), view));
    var once := Populated(s, chat, view);
    PopulateTurn(s, chat, view, loaded, freshId);
    SwappedTurn(Duo(s, loaded, loaded), R, freshId);
    PopulateAgain(s, chat, view, freshId);
    SwappedTurn(Duo(once, loaded, None), R, freshId);
    assert ChatView(once, chat) == view;
    LoadTurn(once, chat, None, freshId);
    SwappedTurn(Duo(once, reading, None), R, freshId);
    TwoTurns(Duo(s, loaded, loaded), R, W, freshId);
    TwoTurns(Duo(s, loaded, loaded), W, R, freshId);
    TwoTurns(Duo(once, None, reading), W, W, freshId);
    TwoTurns(Duo(once, reading, None), R, R, freshId);
  }

  lemma PopulateAgain(s: StoreState, chat: ObjectId, view: seq<Message>, freshId: ObjectId)
    requires Hex(chat) !in s.lists
    ensures DuoTurn(Duo(Populated(s, chat, view), Some(Populating(Hex(chat), view)), None), R, freshId) ==
            Duo(TwicePopulated(s, chat, view), None, None)
  {
    if view != [] {
      var js := ThroughJsonAll(view);
      assert WithList(Populated(s, chat, view), chat, js + js) == WithList(s, chat, js + js);
    }
  }

  /** Loads before populations, or one whole read before the other, from the moment both have missed. */
  lemma BothRead(s: StoreState, chat: ObjectId, freshId: ObjectId, order: seq<Turn>)
    requires Hex(chat) !in s.lists && TwoEach(order)
    ensures var reading := Some(Aggregating(Hex(chat)));
            DuoTurns(Duo(s, reading, reading), order, freshId) ==
            Duo(TwicePopulated(s, chat, ChatView(s, chat)), None, None)
  {
    var reading, loaded := Some(Aggregating(Hex(chat))), Some(Populating(Hex(chat), ChatView(s, chat)));
    var start := Duo(s, reading, reading);
    var first := DuoTurn(start, order[0], freshId);
    BothPopulate(s, chat, freshId);
    LoadTurn(s, chat, reading, freshId);
    SwappedTurn(start, R, freshId);
    LoadTurn(s, chat, loaded, freshId);
    SwappedTurn(Duo(s, reading, loaded), R, freshId);
    PopulateTurn(s, chat, ChatView(s, chat), reading, freshId);
    SwappedTurn(Duo(s, loaded, reading), R, freshId);
    FourTurns(start, order, freshId);
  }

  lemma FourTurns(d: Duo, order: seq<Turn>, freshId: ObjectId)
    requires |order| == 4
    ensures DuoTurns(d, order, freshId) ==
            DuoTurns(DuoTurn(DuoTurn(d, order[0], freshId), order[1], freshId), [order[2], order[3]], freshId)
  {
    assert order == [order[0]] + ([order[1]] + [order[2], order[3]]);
    DuoTurnsCons(d, order[0], [order[1]] + [order[2], order[3]], freshId);
    DuoTurnsCons(DuoTurn(d, order[0], freshId), order[1], [order[2], order[3]], freshId);
  }

  /** Main result for two readers that have both missed, in whatever order they go on, among any other methods: the
      chat ends up in its list twice, which is right exactly when it is empty or already fills the hundred. */
  lemma ReaderAgainstReader(y: System, p: nat, q: nat, chat: ObjectId, freshId: ObjectId, order: seq<Turn>)
    requires p != q && ProcAt(y, p) == ProcAt(y, q) == Some(Aggregating(Hex(chat)))
    requires Hex(chat) !in y.store.lists && TwoEach(order)
    ensures var y' := Turns(y, order, p, q, freshId);
            var size := |ChatView(y.store, chat)|;
      && p !in y'.procs && q !in y'.procs
      && (Agrees(y'.store, chat) <==> size == 0 || size >= CACHE_LIMIT)
  {
    var view := ChatView(y.store, chat);
    TurnsAreDuoTurns(y, order, p, q, freshId);
    BothRead(y.store, chat, freshId, order);
    if view != [] {
      AgreesWithList(y.store, chat, ThroughJsonAll(view) + ThroughJsonAll(view));
      DoubledList(view);
    }
  }

  // ---- A writer against a writer ----

  /** Two insertions into one cached chat: `a` was written to the database first, as `x`, and `b`, which becomes `z`, is
      still to be written. `view` is what the database held before both. */
  datatype Pair = Pair(view: seq<Message>, a: Message, x: Message, m: Message, u: User, b: Message, z: Message)

  /** Where an insertion stands after so many of its calls: write, push, trim. */
  function StageOf(added: Message, m: Message, u: User, calls: nat): Option<Proc> {
    if calls == 0 then Some(Writing(u, ForSave(m)))
    else if calls == 1 then Some(Pushing(added))
    else if calls == 2 then Some(Trimming(added))
    else None
  }

  /** The calls each has made, of write, push and trim, and the pushes in their order. */
  datatype Track = Track(rs: nat, ws: nat, pushes: seq<Turn>)

  function Advance(k: Track, t: Turn): Track {
    match t
    case R => Track(k.rs + 1, k.ws, if k.rs == 1 then k.pushes + [R] else k.pushes)
    case W => Track(k.rs, k.ws + 1, if k.ws == 1 then k.pushes + [W] else k.pushes)
  }

  function AdvanceAll(k: Track, order: seq<Turn>): Track
    decreases |order|
  {
    if order == [] then k else AdvanceAll(Advance(k, order[0]), order[1..])
  }

  /** The order's outcome, from the moment the first insertion is in the database. */
  function TrackOf(order: seq<Turn>): Track {
    AdvanceAll(Track(1, 0, []), order)
  }

  function Pushed(c: Pair, pushes: seq<Turn>): seq<Message> {
    if pushes == [] then c.view
    else Pushed(c, pushes[..|pushes| - 1]) + [if pushes[|pushes| - 1].R? then c.x else c.z]
  }

  ghost predicate PairOk(c: Pair, freshId: ObjectId) {
    && c.m.id == NIL_ID && c.b == Added(c.m, c.u, freshId) && c.a.chatId == c.m.chatId && c.x.id != c.z.id
    && Visible(ThroughJson(c.a)) == Visible(c.x) && Visible(ThroughJson(c.b)) == Visible(c.z)
  }

  ghost predicate Tracked(d: Duo, c: Pair, k: Track) {
    && d.reader == StageOf(c.a, c.m, c.u, k.rs) && d.writer == StageOf(c.b, c.m, c.u, k.ws)
    && ChatView(d.store, c.m.chatId) == c.view + [c.x] + (if k.ws == 0 then [] else [c.z])
    && (k.ws == 0 ==> ChatView(Inserted(d.store, c.m, c.u, c.b.id), c.m.chatId) == c.view + [c.x] + [c.z])
    && Hex(c.m.chatId) in d.store.lists
    && SameHead(d.store.lists[Hex(c.m.chatId)], Pushed(c, k.pushes))
  }

  /** A push or a trim of one of the two on the cached list. */
  lemma ListTurn(
    s: StoreState, added: Message, chat: ObjectId, calls: nat, c: Pair, pushes: seq<Turn>, t: Turn, freshId: ObjectId)
    requires added.chatId == chat && (calls == 1 || calls == 2)
    requires Hex(chat) in s.lists && SameHead(s.lists[Hex(chat)], Pushed(c, pushes))
    requires Visible(ThroughJson(added)) == Visible(if t.R? then c.x else c.z)
    ensures var (s', next) := Call(s, if calls == 1 then Pushing(added) else Trimming(added), freshId);
      && next == StageOf(added, added, added.author, calls + 1)
      && s' == s.(lists := s'.lists) && Hex(chat) in s'.lists
      && SameHead(s'.lists[Hex(chat)], Pushed(c, if calls == 1 then pushes + [t] else pushes))
  {
    if calls == 1 {
      PushAgrees(s.lists[Hex(chat)], Pushed(c, pushes), ThroughJson(added), if t.R? then c.x else c.z);
      assert (pushes + [t])[..|pushes|] == pushes;
    } else {
      TrimAgrees(s.lists[Hex(chat)], Pushed(c, pushes));
    }
  }

  lemma ReaderSlotTurn(d: Duo, c: Pair, k: Track, freshId: ObjectId)
    requires PairOk(c, freshId) && Tracked(d, c, k) && k.rs >= 1
    ensures Tracked(DuoTurn(d, R, freshId), c, Advance(k, R))
  {
    if k.rs <= 2 {
      ListTurn(d.store, c.a, c.m.chatId, k.rs, c, k.pushes, R, freshId);
      var s' := DuoTurn(d, R, freshId).store;
      assert ChatView(s', c.m.chatId) == ChatView(d.store, c.m.chatId);
      assert ChatView(Inserted(s', c.m, c.u, c.b.id), c.m.chatId) ==
             ChatView(Inserted(d.store, c.m, c.u, c.b.id), c.m.chatId);
    }
  }

  lemma WriterSlotTurn(d: Duo, c: Pair, k: Track, freshId: ObjectId)
    requires PairOk(c, freshId) && Tracked(d, c, k)
    ensures Tracked(DuoTurn(d, W, freshId), c, Advance(k, W))
  {
    if k.ws == 0 {
      InsertTurn(d.store, c.m, c.u, d.reader, freshId);
    } else if k.ws <= 2 {
      ListTurn(d.store, c.b, c.m.chatId, k.ws, c, k.pushes, W, freshId);
      assert ChatView(DuoTurn(d, W, freshId).store, c.m.chatId) == ChatView(d.store, c.m.chatId);
    }
  }

  /** Each pushes at its second call, and only then. */
  predicate Consistent(k: Track) {
    && k.rs >= 1
    && (k.rs == 1 && k.ws <= 1 ==> k.pushes == [])
    && (k.rs >= 2 && k.ws <= 1 ==> k.pushes == [R])
    && (k.rs == 1 && k.ws >= 2 ==> k.pushes == [W])
    && (k.rs >= 2 && k.ws >= 2 ==> k.pushes == [R, W] || k.pushes == [W, R])
  }

  lemma {:induction false} AllConsistent(k: Track, order: seq<Turn>)
    requires Consistent(k)
    ensures Consistent(AdvanceAll(k, order))
    decreases |order|
  {
    if order == [] {
    } else {
      AllConsistent(Advance(k, order[0]), order[1..]);
    }
  }

  lemma OneTurn(d: Duo, c: Pair, k: Track, t: Turn, freshId: ObjectId)
    requires PairOk(c, freshId) && Tracked(d, c, k) && k.rs >= 1
    ensures Tracked(DuoTurn(d, t, freshId), c, Advance(k, t)) && Advance(k, t).rs >= 1
  {
    match t
    case R => ReaderSlotTurn(d, c, k, freshId);
    case W => WriterSlotTurn(d, c, k, freshId);
  }

  lemma {:induction false} AllTurns(d: Duo, c: Pair, order: seq<Turn>, k: Track, freshId: ObjectId)
    requires PairOk(c, freshId) && Tracked(d, c, k) && k.rs >= 1
    ensures Tracked(DuoTurns(d, order, freshId), c, AdvanceAll(k, order))
    decreases |order|
  {
    if order == [] {
    } else {
      OneTurn(d, c, k, order[0], freshId);
      AllTurns(DuoTurn(d, order[0], freshId), c, order[1..], Advance(k, order[0]), freshId);
    }
  }

  lemma CrossedHeads(list: seq<Message>, view: seq<Message>, x: Message, z: Message)
    requires x.id != z.id && SameHead(list, view + [z] + [x])
    ensures SameHead(list, view + [x] + [z]) <==> |view| >= CACHE_LIMIT
  {
    var one, other := view + [x] + [z], view + [z] + [x];
    if |view| >= CACHE_LIMIT {
      assert Head(one) == Head(other);
    } else {
      assert VisibleAll(Head(one))[|view|].id == x.id && VisibleAll(Head(other))[|view|].id == z.id;
    }
  }

  lemma PushedBoth(c: Pair)
    ensures Pushed(c, [R, W]) == c.view + [c.x] + [c.z]
    ensures Pushed(c, [W, R]) == c.view + [c.z] + [c.x]
  {
    PushedOne(c, R);
    PushedOne(c, W);
    assert [R, W][..1] == [R] && [W, R][..1] == [W];
  }

  lemma PushedOne(c: Pair, t: Turn)
    ensures Pushed(c, [t]) == c.view + [if t.R? then c.x else c.z]
  {
    assert [t][..0] == [];
  }

  lemma BothDone(d: Duo, c: Pair, order: seq<Turn>, freshId: ObjectId)
    requires PairOk(c, freshId) && Tracked(d, c, Track(1, 0, []))
    requires TrackOf(order).rs >= 3 && TrackOf(order).ws >= 3
    ensures var d' := DuoTurns(d, order, freshId);
      && d'.reader.None? && d'.writer.None?
      && (Agrees(d'.store, c.m.chatId) <==> TrackOf(order).pushes == [R, W] || |c.view| >= CACHE_LIMIT)
  {
    AllTurns(d, c, order, Track(1, 0, []), freshId);
    AllConsistent(Track(1, 0, []), order);
    PushedBoth(c);
    if TrackOf(order).pushes == [W, R] {
      CrossedHeads(DuoTurns(d, order, freshId).store.lists[Hex(c.m.chatId)], c.view, c.x, c.z);
    }
  }

  lemma PairTracked(s: StoreState, c: Pair)
    requires c.a.chatId == c.m.chatId && Hex(c.m.chatId) in s.lists
    requires ChatView(s, c.m.chatId) == c.view + [c.x] && SameHead(s.lists[Hex(c.m.chatId)], c.view)
    requires ChatView(Inserted(s, c.m, c.u, c.b.id), c.m.chatId) == c.view + [c.x] + [c.z]
    ensures Tracked(Duo(s, Some(Pushing(c.a)), Some(Writing(c.u, ForSave(c.m)))), c, Track(1, 0, []))
  {
    assert c.view + [c.x] + [] == c.view + [c.x];
  }

  lemma ViewGrowsAnew(s: StoreState, m: Message, u: User, freshId: ObjectId, x: Message) returns (z: Message)
    requires WellFormed(s) && AuthorOf(s.users, u, ForSave(m)) && NewDocId(s, freshId)
    requires x in ChatView(s, m.chatId)
    ensures ChatView(Inserted(s, m, u, freshId), m.chatId) == ChatView(s, m.chatId) + [z]
    ensures Visible(ThroughJson(Added(m, u, freshId))) == Visible(z) && x.id != z.id
  {
    z := ViewGrows(s, m, u, freshId);
    NewIdIsElsewhere(s, freshId, m.chatId);
    NewIdOfView(s, m, u, freshId, z);
  }

  lemma LastAwaited(s: StoreState, a: Message) returns (view: seq<Message>, x: Message)
    requires AwaitsPush(s, a)
    ensures ChatView(s, a.chatId) == view + [x] && Visible(ThroughJson(a)) == Visible(x)
    ensures Hex(a.chatId) in s.lists ==> SameHead(s.lists[Hex(a.chatId)], view)
  {
    var now := ChatView(s, a.chatId);
    view, x := now[..|now| - 1], now[|now| - 1];
  }

  lemma PairStarts(s: StoreState, a: Message, m: Message, u: User, freshId: ObjectId) returns (c: Pair)
    requires WellFormed(s) && AwaitsPush(s, a) && AuthorOf(s.users, u, ForSave(m))
    requires m.id == NIL_ID && m.chatId == a.chatId && NewDocId(s, freshId) && Hex(a.chatId) in s.lists
    ensures PairOk(c, freshId) && c.m == m && ChatView(s, a.chatId) == c.view + [c.x]
    ensures Tracked(Duo(s, Some(Pushing(a)), Some(Writing(u, ForSave(m)))), c, Track(1, 0, []))
  {
    var view, x := LastAwaited(s, a);
    var z := ViewGrowsAnew(s, m, u, freshId, x);
    c := Pair(view, a, x, m, u, Added(m, u, freshId), z);
    PairTracked(s, c);
  }

  /** Main result for two insertions into one cached chat, from the moment the first is in the database, in any order of
      their remaining calls and among any other methods, once both are done: the list is right exactly when they pushed
      in the order in which they were written, or the chat already filled the hundred. */
  lemma WriterAgainstWriter(
    y: System, p: nat, q: nat, a: Message, m: Message, u: User, freshId: ObjectId, order: seq<Turn>)
    requires p != q && ProcAt(y, p) == Some(Pushing(a)) && ProcAt(y, q) == Some(Writing(u, ForSave(m)))
    requires WellFormed(y.store) && AwaitsPush(y.store, a) && AuthorOf(y.store.users, u, ForSave(m))
    requires m.id == NIL_ID && m.chatId == a.chatId && NewDocId(y.store, freshId)
    requires Hex(a.chatId) in y.store.lists && TrackOf(order).rs >= 3 && TrackOf(order).ws >= 3
    ensures var y' := Turns(y, order, p, q, freshId);
      && p !in y'.procs && q !in y'.procs
      && (Agrees(y'.store, a.chatId) <==>
            TrackOf(order).pushes == [R, W] || |ChatView(y.store, a.chatId)| > CACHE_LIMIT)
  {
    var c := PairStarts(y.store, a, m, u, freshId);
    TurnsAreDuoTurns(y, order, p, q, freshId);
    BothDone(DuoOf(y, p, q), c, order, freshId);
  }

  predicate NewDocId(s: StoreState, id: ObjectId) {
    FindDoc(s.docs, id).None?
  }

  lemma NewIdIsElsewhere(s: StoreState, id: ObjectId, chat: ObjectId)
    requires NewDocId(s, id)
    ensures forall k :: 0 <= k < |ChatView(s, chat)| ==> ChatView(s, chat)[k].id != id
  {
    forall d | d in s.docs ensures d.id != id {
      var j :| 0 <= j < |s.docs| && s.docs[j] == d;
    }
    RowIds(s.docs, s.users, chat, id);
    assert forall k :: 0 <= k < |ChatView(s, chat)| ==> ChatView(s, chat)[k] in ChatView(s, chat);
  }

  lemma NewIdOfView(s: StoreState, m: Message, u: User, freshId: ObjectId, z: Message)
    requires AuthorOf(s.users, u, ForSave(m))
    requires ChatView(Inserted(s, m, u, freshId), m.chatId) == ChatView(s, m.chatId) + [z]
    ensures z.id == freshId
  {
    var d := FromInternal(Added(m, u, freshId));
    ViewAfterInsert(s, d, m.chatId);
    assert (ChatView(s, m.chatId) + [z])[|ChatView(s, m.chatId)|] == z;
  }
}

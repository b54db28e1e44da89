/** The cached list of a chat agrees with the database, after any sequence of store operations. */
module Coherence {
  import opened ObjectIds
  import opened Entities
  import opened Store
  import opened StoreFacts

  /** A list and a view agree on what a reader of positions 0..99 can see. */
  ghost predicate SameHead(list: seq<Message>, view: seq<Message>) {
    VisibleAll(Head(list)) == VisibleAll(Head(view))
  }

  ghost predicate Agrees(s: StoreState, chat: ObjectId) {
    Hex(chat) in s.lists ==> SameHead(s.lists[Hex(chat)], ChatView(s, chat))
  }

  ghost predicate NoEmptyLists(s: StoreState) {
    forall t :: t in s.lists ==> s.lists[t] != []
  }

  ghost predicate Coherent(s: StoreState) {
    && WellFormed(s)
    && NoEmptyLists(s)
    && forall chat: ObjectId :: Agrees(s, chat)
  }

  // ---- Operations and runs ----

  datatype Op =
    | Save(m: Message, freshId: ObjectId)
    | Change(idText: string, touch: Touch)
    | Read(chatText: string)
    | FindUser(text: string)
    | Expire(text: string)
    | AddUser(user: User, userId: ObjectId)
    | AddChat(name: string, newChatId: ObjectId)

  function Apply(s: StoreState, op: Op): StoreState {
    match op
    case Save(m, freshId) => SaveMessage(s, m, freshId).state
    case Change(idText, t) => TouchMessage(s, idText, t).0
    case Read(chatText) => GetMessages(s, chatText).0
    case FindUser(text) => GetUserById(s, text).0
    case Expire(text) => s.(userCache := s.userCache - {text})
    case AddUser(u, freshId) => CreateUser(s, u, freshId).0
    case AddChat(name, freshId) => SaveChat(s, name, freshId).0
  }

  function Run(s: StoreState, ops: seq<Op>): StoreState
    decreases |ops|
  {
    if ops == [] then s else Run(Apply(s, ops[0]), ops[1..])
  }

  /** Generated ids are new, and saving a message that exists leaves it in the chat it is in. */
  predicate Legal(s: StoreState, op: Op) {
    op.Save? ==>
      if op.m.id == NIL_ID then op.freshId != NIL_ID && FindDoc(s.docs, op.freshId).None?
      else FindDoc(s.docs, op.m.id).Some? ==> s.docs[FindDoc(s.docs, op.m.id).value].chatId == op.m.chatId
  }

  predicate LegalRun(s: StoreState, ops: seq<Op>)
    decreases |ops|
  {
    ops == [] || (Legal(s, ops[0]) && LegalRun(Apply(s, ops[0]), ops[1..]))
  }

  // ---- One push, one trim ----

  lemma VisibleOfStored(m: Message, u: User, users: map<ObjectId, User>)
    requires UsersKeyed(users) && FromHex(m.authorId).Some? && FromHex(m.authorId).value in users
    requires WithoutPassword(u) == WithoutPassword(users[FromHex(m.authorId).value])
    ensures Visible(ThroughJson(m.(author := u))) ==
            Visible(ToInternal(FromInternal(m.(author := u)), users[FromHex(m.authorId).value]))
  {
  }

  lemma PushAgrees(list: seq<Message>, view: seq<Message>, x: Message, y: Message)
    requires SameHead(list, view) && Visible(x) == Visible(y)
    ensures SameHead(list + [x], view + [y])
  {
  }

  lemma TrimAgrees(list: seq<Message>, view: seq<Message>)
    requires SameHead(list, view)
    ensures SameHead(Head(list), view)
  {
  }

  lemma JsonIsInvisible(ms: seq<Message>)
    ensures VisibleAll(ThroughJsonAll(ms)) == VisibleAll(ms)
    ensures SameHead(ThroughJsonAll(ms), ms)
  {
  }

  // ---- Each operation keeps the store coherent ----

  lemma TrimKeepsAgreement(s: StoreState, trimmed: ObjectId, chat: ObjectId)
    requires Agrees(s, chat)
    ensures Agrees(s.(lists := LTrim(s.lists, Hex(trimmed))), chat)
  {
    HexInjective(chat, trimmed);
    assert ChatView(s.(lists := LTrim(s.lists, Hex(trimmed))), chat) == ChatView(s, chat);
    if chat == trimmed && Hex(chat) in s.lists {
      TrimAgrees(s.lists[Hex(chat)], ChatView(s, chat));
    }
  }

  lemma PushKeepsAgreement(s: StoreState, doc: Doc, added: Message, chat: ObjectId)
    requires Agrees(s, chat) && doc.authorId in s.users && doc.chatId == added.chatId
    requires Visible(ThroughJson(added)) == Visible(ToInternal(doc, s.users[doc.authorId]))
    ensures Agrees(s.(docs := s.docs + [doc], lists := RPushX(s.lists, Hex(added.chatId), added)), chat)
  {
    var pushed := s.(docs := s.docs + [doc], lists := RPushX(s.lists, Hex(added.chatId), added));
    ViewAfterInsert(s, doc, chat);
    assert ChatView(pushed, chat) == ChatView(s.(docs := s.docs + [doc]), chat);
    HexInjective(chat, added.chatId);
    if chat == added.chatId && Hex(chat) in s.lists {
      PushAgrees(s.lists[Hex(chat)], ChatView(s, chat), ThroughJson(added), ToInternal(doc, s.users[doc.authorId]));
    }
  }

  /** The state between the push and the trim of an insertion. */
  function Pushed(s: StoreState, m: Message, author: User, freshId: ObjectId): StoreState {
    var added := m.(author := author, id := freshId);
    s.(docs := s.docs + [FromInternal(added)], lists := RPushX(s.lists, Hex(m.chatId), added))
  }

  lemma InsertKeepsCoherence(s: StoreState, m: Message, author: User, freshId: ObjectId)
    requires Coherent(s) && FindDoc(s.docs, freshId).None?
    requires FromHex(m.authorId).Some? && FromHex(m.authorId).value in s.users
    requires WithoutPassword(author) == WithoutPassword(s.users[FromHex(m.authorId).value])
    ensures var pushed := Pushed(s, m, author, freshId);
      && Coherent(pushed)
      && Coherent(pushed.(lists := LTrim(pushed.lists, Hex(m.chatId))))
  {
    var added := m.(author := author, id := freshId);
    var doc := FromInternal(added);
    var pushed := Pushed(s, m, author, freshId);
    var trimmed := pushed.(lists := LTrim(pushed.lists, Hex(m.chatId)));
    VisibleOfStored(added, author, s.users);
    forall chat: ObjectId ensures Agrees(pushed, chat) && Agrees(trimmed, chat) {
      assert Agrees(s, chat);
      PushKeepsAgreement(s, doc, added, chat);
      TrimKeepsAgreement(pushed, m.chatId, chat);
    }
  }

  lemma ReplaceKeepsCoherence(s: StoreState, s': StoreState, i: nat, d: Doc)
    requires Coherent(s) && i < |s.docs|
    requires d.id == s.docs[i].id && d.chatId == s.docs[i].chatId && d.authorId in s.users
    requires s' == s.(docs := s.docs[i := d], lists := Del(s.lists, Hex(d.chatId)), userCache := s'.userCache)
    requires UserCacheFaithful(s')
    ensures Coherent(s')
  {
    forall chat: ObjectId ensures Agrees(s', chat) {
      ViewAfterReplace(s, i, d, chat);
      HexInjective(chat, d.chatId);
      assert Agrees(s, chat);
      assert ChatView(s', chat) == ChatView(s.(docs := s.docs[i := d]), chat);
    }
  }

  /** Referential integrity: the author lookup after an update never fails, so no update skips the invalidation. */
  lemma TouchAlwaysInvalidates(s: StoreState, idText: string, t: Touch)
    requires WellFormed(s)
    ensures var (s', r) := TouchMessage(s, idText, t);
      && (r.Ok? <==> FromHex(idText).Some? && FindDoc(s.docs, FromHex(idText).value).Some?)
      && (r.Ok? ==>
            var i := FindDoc(s.docs, FromHex(idText).value).value;
            var d := ApplyTouch(s.docs[i], t);
            && d.id == s.docs[i].id && d.chatId == s.docs[i].chatId && d.authorId == s.docs[i].authorId
            && s' == s.(docs := s.docs[i := d], lists := Del(s.lists, Hex(d.chatId)), userCache := s'.userCache)
            && UserCacheFaithful(s')
            && WithoutPassword(r.value.author) == WithoutPassword(s.users[d.authorId])
            && r.value == ToInternal(d, r.value.author))
      && (r.Err? ==> s' == s)
  {
    if FromHex(idText).Some? && FindDoc(s.docs, FromHex(idText).value).Some? {
      var i := FindDoc(s.docs, FromHex(idText).value).value;
      var d := ApplyTouch(s.docs[i], t);
      HexRoundTrip(d.authorId);
      UserLookupRefinesDatabase(s.(docs := s.docs[i := d]), Hex(d.authorId));
    }
  }

  lemma TouchKeepsCoherence(s: StoreState, idText: string, t: Touch)
    requires Coherent(s)
    ensures Coherent(TouchMessage(s, idText, t).0)
  {
    var (s', r) := TouchMessage(s, idText, t);
    TouchAlwaysInvalidates(s, idText, t);
    if r.Ok? {
      var i := FindDoc(s.docs, FromHex(idText).value).value;
      ReplaceKeepsCoherence(s, s', i, ApplyTouch(s.docs[i], t));
    }
  }

  lemma LookupKeepsCoherence(s: StoreState, text: string)
    requires Coherent(s)
    ensures Coherent(GetUserById(s, text).0)
  {
    UserLookupRefinesDatabase(s, text);
    var s' := GetUserById(s, text).0;
    forall chat: ObjectId ensures Agrees(s', chat) {
      assert Agrees(s, chat);
    }
  }

  lemma SaveKeepsCoherence(s: StoreState, m: Message, freshId: ObjectId)
    requires Coherent(s) && Legal(s, Save(m, freshId))
    ensures Coherent(SaveMessage(s, m, freshId).state)
  {
    UserLookupRefinesDatabase(s, m.authorId);
    LookupKeepsCoherence(s, m.authorId);
    var (s1, u) := GetUserById(s, m.authorId);
    if u.Ok? {
      if m.id == NIL_ID {
        InsertKeepsCoherence(s1, m, u.value, freshId);
      } else if FindDoc(s.docs, m.id).Some? {
        ReplaceKeepsCoherence(s1, SaveMessage(s, m, freshId).state, FindDoc(s.docs, m.id).value,
                              FromInternal(m.(author := u.value)));
      }
    }
  }

  lemma ReadKeepsCoherence(s: StoreState, text: string)
    requires Coherent(s)
    ensures Coherent(GetMessages(s, text).0)
  {
    var s' := GetMessages(s, text).0;
    forall chat: ObjectId ensures Agrees(s', chat) {
      assert Agrees(s, chat);
      HexRoundTrip(chat);
      JsonIsInvisible(ChatView(s, chat));
      assert [] + ThroughJsonAll(ChatView(s, chat)) == ThroughJsonAll(ChatView(s, chat));
    }
  }

  lemma AddUserKeepsCoherence(s: StoreState, u: User, freshId: ObjectId)
    requires Coherent(s)
    ensures Coherent(CreateUser(s, u, freshId).0)
  {
    var s' := CreateUser(s, u, freshId).0;
    forall chat: ObjectId ensures Agrees(s', chat) {
      assert Agrees(s, chat);
      AggregateUsersGrow(s.docs, s.users, s'.users, chat);
    }
  }

  lemma ApplyKeepsCoherence(s: StoreState, op: Op)
    requires Coherent(s) && Legal(s, op)
    ensures Coherent(Apply(s, op))
  {
    match op
    case Save(m, freshId) => SaveKeepsCoherence(s, m, freshId);
    case Change(idText, t) => TouchKeepsCoherence(s, idText, t);
    case Read(text) => ReadKeepsCoherence(s, text);
    case FindUser(text) => LookupKeepsCoherence(s, text);
    case Expire(text) =>
      forall chat: ObjectId ensures Agrees(Apply(s, op), chat) {
        assert Agrees(s, chat);
      }
    case AddUser(u, freshId) => AddUserKeepsCoherence(s, u, freshId);
    case AddChat(name, freshId) =>
      forall chat: ObjectId ensures Agrees(Apply(s, op), chat) {
        assert Agrees(s, chat);
      }
  }

  /** Main result: whatever operations were run, the store is coherent. */
  lemma {:induction false} RunKeepsCoherence(s: StoreState, ops: seq<Op>)
    requires Coherent(s) && LegalRun(s, ops)
    ensures Coherent(Run(s, ops))
    decreases |ops|
  {
    if ops == [] {
    } else {
      ApplyKeepsCoherence(s, ops[0]);
      RunKeepsCoherence(Apply(s, ops[0]), ops[1..]);
    }
  }

  /** Referential integrity over every run: no author is missing, so the join lists each document of a chat once. */
  lemma JoinIsTotal(ops: seq<Op>, chat: ObjectId)
    requires LegalRun(EMPTY_STORE, ops)
    ensures var s := Run(EMPTY_STORE, ops);
      && AuthorsKnown(s.docs, s.users)
      && |ChatView(s, chat)| == |ChatDocs(s.docs, chat)|
      && forall i :: 0 <= i < |ChatView(s, chat)| ==>
           ChatDocs(s.docs, chat)[i].authorId in s.users &&
           ChatView(s, chat)[i] == ToInternal(ChatDocs(s.docs, chat)[i], s.users[ChatDocs(s.docs, chat)[i].authorId])
  {
    EmptyStoreIsCoherent();
    RunKeepsCoherence(EMPTY_STORE, ops);
    JoinDropsNothing(Run(EMPTY_STORE, ops).docs, Run(EMPTY_STORE, ops).users, chat);
  }

  lemma EmptyStoreIsCoherent()
    ensures Coherent(EMPTY_STORE)
  {
  }

  /** What a read returns: the whole chat on a miss, exactly its first hundred messages on a hit. */
  lemma ReadReturnsViewOrHead(s: StoreState, chat: ObjectId)
    requires Coherent(s)
    ensures var r := GetMessages(s, Hex(chat)).1;
      && r.Ok?
      && VisibleAll(r.value) ==
         if Hex(chat) in s.lists then VisibleAll(Head(ChatView(s, chat))) else VisibleAll(ChatView(s, chat))
  {
    assert Agrees(s, chat);
    HexRoundTrip(chat);
  }

  // ---- Where coherence stops ----

  /** A read by `text` in state `s` shows what the database has, at least on the first hundred messages. */
  ghost predicate ReadCorrect(s: StoreState, text: string)
    requires FromHex(text).Some?
  {
    var r := GetMessages(s, text).1;
    r.Ok? && SameHead(r.value, ChatView(s, FromHex(text).value))
  }

  ghost predicate AlwaysReadCorrectly(text: string)
    requires FromHex(text).Some?
  {
    forall ops :: LegalRun(EMPTY_STORE, ops) ==> ReadCorrect(Run(EMPTY_STORE, ops), text)
  }

  function PlainMessage(chat: ObjectId, author: ObjectId): Message {
    Message(NIL_ID, chat, Hex(author), "hello", "text", 0, 0, "sent", [], false, NO_USER)
  }

  lemma RunCons(s: StoreState, op: Op, ops: seq<Op>)
    ensures Run(s, [op] + ops) == Run(Apply(s, op), ops)
    ensures LegalRun(s, [op] + ops) <==> Legal(s, op) && LegalRun(Apply(s, op), ops)
  {
    assert ([op] + ops)[1..] == ops;
  }

  lemma RunOfFour(s: StoreState, a: Op, b: Op, c: Op, d: Op, s1: StoreState, s2: StoreState, s3: StoreState)
    requires s1 == Apply(s, a) && s2 == Apply(s1, b) && s3 == Apply(s2, c)
    requires Legal(s, a) && Legal(s1, b) && Legal(s2, c) && Legal(s3, d)
    ensures LegalRun(s, [a] + ([b] + ([c] + ([d] + []))))
    ensures Run(s, [a] + ([b] + ([c] + ([d] + [])))) == Apply(s3, d)
  {
    RunCons(s3, d, []);
    RunCons(s2, c, [d] + []);
    RunCons(s1, b, [c] + ([d] + []));
    RunCons(s, a, [b] + ([c] + ([d] + [])));
  }

  /** Two insertions into one chat with a read by `text` between them. */
  lemma AliasMissesInsertion(
    text: string, author: User, first: ObjectId, second: ObjectId, s1: StoreState, s4: StoreState)
    requires FromHex(text).Some? && !Canonical(text)
    requires s1 == EMPTY_STORE.(users := map[author.id := author])
    requires first != NIL_ID && second != NIL_ID && first != second
    requires var m := PlainMessage(FromHex(text).value, author.id);
             s4 == Apply(Apply(Apply(s1, Save(m, first)), Read(text)), Save(m, second))
    ensures text in s4.lists && |s4.lists[text]| == 1
    ensures |ChatView(s4, FromHex(text).value)| == 2
    ensures Legal(s1, Save(PlainMessage(FromHex(text).value, author.id), first))
    ensures var m := PlainMessage(FromHex(text).value, author.id);
            Legal(Apply(Apply(s1, Save(m, first)), Read(text)), Save(m, second))
  {
    var chat := FromHex(text).value;
    var m := PlainMessage(chat, author.id);
    HexRoundTrip(author.id);
    var s2 := Apply(s1, Save(m, first));
    var d1 := FromInternal(m.(id := first));
    assert s2.docs == [d1] && s2.lists == map[] && s2.users == s1.users;
    AggregateOne(d1, s2.users, chat);
    var s3 := Apply(s2, Read(text));
    assert s3 == s2.(lists := s3.lists) && text in s3.lists && |s3.lists[text]| == 1;
    var d2 := FromInternal(m.(id := second));
    assert s4.docs == [d1] + [d2] && s4.users == s1.users;
    AggregateConcat([d1], [d2], s4.users, chat);
    AggregateOne(d2, s4.users, chat);
  }

  lemma OneEntryIsStale(s: StoreState, text: string)
    requires FromHex(text).Some? && text in s.lists && |s.lists[text]| == 1 && |ChatView(s, FromHex(text).value)| == 2
    ensures !ReadCorrect(s, text)
  {
    assert |VisibleAll(Head(GetMessages(s, text).1.value))| == 1;
    assert |VisibleAll(Head(ChatView(s, FromHex(text).value)))| == 2;
  }

  lemma OneStaleRun(ops: seq<Op>, text: string)
    requires FromHex(text).Some? && LegalRun(EMPTY_STORE, ops) && !ReadCorrect(Run(EMPTY_STORE, ops), text)
    ensures !AlwaysReadCorrectly(text)
  {
  }

  lemma FourStepsToStale(text: string, a: Op, b: Op, c: Op, d: Op, s1: StoreState, s2: StoreState, s3: StoreState)
    requires s1 == Apply(EMPTY_STORE, a) && s2 == Apply(s1, b) && s3 == Apply(s2, c)
    requires Legal(EMPTY_STORE, a) && Legal(s1, b) && Legal(s2, c) && Legal(s3, d)
    requires FromHex(text).Some? && !ReadCorrect(Apply(s3, d), text)
    ensures !AlwaysReadCorrectly(text)
  {
    RunOfFour(EMPTY_STORE, a, b, c, d, s1, s2, s3);
    OneStaleRun([a] + ([b] + ([c] + ([d] + []))), text);
  }

  lemma OneUserStore(author: User)
    requires author.id != NIL_ID
    ensures Apply(EMPTY_STORE, AddUser(author, author.id)) == EMPTY_STORE.(users := map[author.id := author])
  {
  }

  lemma AliasRunIsStale(text: string, author: User, first: ObjectId, second: ObjectId)
    requires FromHex(text).Some? && !Canonical(text)
    requires author.id != NIL_ID && first != NIL_ID && second != NIL_ID && first != second
    ensures !AlwaysReadCorrectly(text)
  {
    var m := PlainMessage(FromHex(text).value, author.id);
    var add, post, read, again := AddUser(author, author.id), Save(m, first), Read(text), Save(m, second);
    var s1 := Apply(EMPTY_STORE, add);
    OneUserStore(author);
    AliasMissesInsertion(text, author, first, second, s1, Apply(Apply(Apply(s1, post), read), again));
    OneEntryIsStale(Apply(Apply(Apply(s1, post), read), again), text);
    FourStepsToStale(text, add, post, read, again, s1, Apply(s1, post), Apply(Apply(s1, post), read));
  }

  /** An id told by its first byte. */
  function IdOf(b: byte): ObjectId {
    [b, 0, 0, 0, 0, 0, 0, 0, 0, 0, 0, 0]
  }

  lemma IdsDiffer(a: byte, b: byte)
    ensures IdOf(a) == IdOf(b) <==> a == b
    ensures IdOf(0) == NIL_ID
  {
    assert IdOf(a)[0] == a && IdOf(b)[0] == b;
  }

  lemma AliasGoesStale(text: string)
    requires FromHex(text).Some? && !Canonical(text)
    ensures !AlwaysReadCorrectly(text)
  {
    IdsDiffer(1, 0);
    IdsDiffer(2, 0);
    IdsDiffer(3, 0);
    IdsDiffer(2, 3);
    AliasRunIsStale(text, User(IdOf(1), "a", "p"), IdOf(2), IdOf(3));
  }

  /** Reading is right in every run exactly for the texts the system itself prints. */
  lemma ReadsAreRightExactlyForCanonicalTexts(text: string)
    requires FromHex(text).Some?
    ensures AlwaysReadCorrectly(text) <==> Canonical(text)
  {
    if Canonical(text) {
      forall ops | LegalRun(EMPTY_STORE, ops) ensures ReadCorrect(Run(EMPTY_STORE, ops), text) {
        EmptyStoreIsCoherent();
        RunKeepsCoherence(EMPTY_STORE, ops);
        ReadReturnsViewOrHead(Run(EMPTY_STORE, ops), FromHex(text).value);
      }
    } else {
      AliasGoesStale(text);
    }
  }

  lemma SpliceHeads(a: seq<Message>, x: Message, b: seq<Message>)
    requires forall m :: m in b ==> m.id != x.id
    ensures SameHead(a + [x] + b, a + b) <==> |a| >= CACHE_LIMIT
  {
    var with, without := a + [x] + b, a + b;
    if |a| >= CACHE_LIMIT {
      assert Head(with) == a[..CACHE_LIMIT] == Head(without);
    } else {
      assert VisibleAll(Head(with))[|a|].id == x.id;
      if b != [] {
        assert b[0] in b;
        assert VisibleAll(Head(without))[|a|].id == b[0].id;
      }
    }
  }

  lemma RowIds(docs: seq<Doc>, users: map<ObjectId, User>, chat: ObjectId, id: ObjectId)
    requires forall d :: d in docs ==> d.id != id
    ensures forall m :: m in FromRows(Aggregate(docs, users, chat)) ==> m.id != id
  {
  }

  lemma FromRowsConcat(a: seq<Row>, b: seq<Row>)
    ensures FromRows(a + b) == FromRows(a) + FromRows(b)
  {
  }

  lemma RowsOfMove(docs: seq<Doc>, users: map<ObjectId, User>, i: nat, d: Doc)
    requires i < |docs| && docs[i].authorId in users && d.chatId != docs[i].chatId
    ensures var source := docs[i].chatId;
            var p, q := Aggregate(docs[..i], users, source), Aggregate(docs[i + 1..], users, source);
      && Aggregate(docs, users, source) == p + [Row(docs[i], users[docs[i].authorId])] + q
      && Aggregate(docs[i := d], users, source) == p + q
  {
    var source := docs[i].chatId;
    assert docs[i := docs[i]] == docs;
    AggregateSplit(docs, i, docs[i], users, source);
    AggregateSplit(docs, i, d, users, source);
    AggregateOne(docs[i], users, source);
    AggregateOne(d, users, source);
    assert Aggregate(docs[..i], users, source) + [] == Aggregate(docs[..i], users, source);
  }

  /** The view of the old chat before and after document `i` leaves it for another. */
  lemma MoveSplits(s: StoreState, i: nat, d: Doc, a: seq<Message>, b: seq<Message>)
    requires i < |s.docs| && s.docs[i].authorId in s.users && d.chatId != s.docs[i].chatId
    requires a == FromRows(Aggregate(s.docs[..i], s.users, s.docs[i].chatId))
    requires b == FromRows(Aggregate(s.docs[i + 1..], s.users, s.docs[i].chatId))
    ensures ChatView(s, s.docs[i].chatId) == a + [ToInternal(s.docs[i], s.users[s.docs[i].authorId])] + b
    ensures ChatView(s.(docs := s.docs[i := d]), s.docs[i].chatId) == a + b
  {
    var source := s.docs[i].chatId;
    RowsOfMove(s.docs, s.users, i, d);
    var p, q := Aggregate(s.docs[..i], s.users, source), Aggregate(s.docs[i + 1..], s.users, source);
    var r := [Row(s.docs[i], s.users[s.docs[i].authorId])];
    FromRowsConcat(p + r, q);
    FromRowsConcat(p, r);
    FromRowsConcat(p, q);
  }

  lemma MoveAgreesWithSource(s: StoreState, i: nat, d: Doc)
    requires UniqueIds(s.docs) && AuthorsKnown(s.docs, s.users) && i < |s.docs|
    requires d.chatId != s.docs[i].chatId && Agrees(s, s.docs[i].chatId)
    ensures Agrees(s.(docs := s.docs[i := d]), s.docs[i].chatId) <==>
            Hex(s.docs[i].chatId) !in s.lists || Place(s, i) >= CACHE_LIMIT
  {
    var a := FromRows(Aggregate(s.docs[..i], s.users, s.docs[i].chatId));
    var b := FromRows(Aggregate(s.docs[i + 1..], s.users, s.docs[i].chatId));
    var x := ToInternal(s.docs[i], s.users[s.docs[i].authorId]);
    MoveSplits(s, i, d, a, b);
    RowIds(s.docs[i + 1..], s.users, s.docs[i].chatId, s.docs[i].id);
    SpliceHeads(a, x, b);
  }

  lemma MoveAgreesElsewhere(s: StoreState, s': StoreState, i: nat, d: Doc, chat: ObjectId)
    requires i < |s.docs| && chat != s.docs[i].chatId && Agrees(s, chat)
    requires s'.docs == s.docs[i := d] && s'.users == s.users && s'.lists == Del(s.lists, Hex(d.chatId))
    ensures Agrees(s', chat)
  {
    HexInjective(chat, d.chatId);
    if chat != d.chatId {
      OtherRowsAfterReplace(s.docs, s.users, i, d, chat);
    }
  }

  lemma MoveAgreesAtSource(s: StoreState, s': StoreState, i: nat, d: Doc)
    requires UniqueIds(s.docs) && AuthorsKnown(s.docs, s.users) && i < |s.docs|
    requires d.chatId != s.docs[i].chatId && Agrees(s, s.docs[i].chatId)
    requires s'.docs == s.docs[i := d] && s'.users == s.users && s'.lists == Del(s.lists, Hex(d.chatId))
    ensures Agrees(s', s.docs[i].chatId) <==> Hex(s.docs[i].chatId) !in s.lists || Place(s, i) >= CACHE_LIMIT
  {
    HexInjective(s.docs[i].chatId, d.chatId);
    MoveAgreesWithSource(s, i, d);
    assert ChatView(s', s.docs[i].chatId) == ChatView(s.(docs := s.docs[i := d]), s.docs[i].chatId);
  }

  /** Saving an existing message under another chat drops only the new chat's list. The old chat stays
      coherent exactly when it had no cached list, or the message lay beyond the cached hundred. */
  lemma MovingAMessage(s: StoreState, m: Message, freshId: ObjectId)
    requires Coherent(s) && m.id != NIL_ID && GetUserById(s, m.authorId).1.Ok?
    requires FindDoc(s.docs, m.id).Some? && s.docs[FindDoc(s.docs, m.id).value].chatId != m.chatId
    ensures var i := FindDoc(s.docs, m.id).value;
            var source := s.docs[i].chatId;
            var s' := SaveMessage(s, m, freshId).state;
      && (Agrees(s', source) <==> Hex(source) !in s.lists || Place(s, i) >= CACHE_LIMIT)
      && (forall chat: ObjectId :: chat != source ==> Agrees(s', chat))
  {
    var i := FindDoc(s.docs, m.id).value;
    var s' := SaveMessage(s, m, freshId).state;
    UserLookupRefinesDatabase(s, m.authorId);
    assert Agrees(s, s.docs[i].chatId);
    MoveAgreesAtSource(s, s', i, FromInternal(m));
    forall chat: ObjectId | chat != s.docs[i].chatId ensures Agrees(s', chat) {
      assert Agrees(s, chat);
      MoveAgreesElsewhere(s, s', i, FromInternal(m), chat);
    }
  }
}

/** What the store's answers say, field by field, and what each operation leaves for the next one to find. */
module StoreAnswers {
  import opened Wrappers
  import opened ObjectIds
  import opened Entities
  import opened Store
  import opened StoreFacts
  import opened Coherence

  // ---- Messages that are read ----

  /** Each message names its author by a text of the author's own id. */
  ghost predicate AuthorsMatch(ms: seq<Message>) {
    forall i :: 0 <= i < |ms| ==> FromHex(ms[i].authorId) == Some(ms[i].author.id)
  }

  ghost predicate CacheAuthorsMatch(s: StoreState) {
    forall t :: t in s.lists ==> AuthorsMatch(s.lists[t])
  }

  lemma ViewAuthorsMatch(s: StoreState, chat: ObjectId)
    ensures AuthorsMatch(ChatView(s, chat)) && AuthorsMatch(ThroughJsonAll(ChatView(s, chat)))
  {
    var view := ChatView(s, chat);
    forall i | 0 <= i < |view| ensures FromHex(view[i].authorId) == Some(view[i].author.id) {
      HexRoundTrip(view[i].author.id);
    }
  }

  lemma SaveKeepsAuthors(s: StoreState, m: Message, freshId: ObjectId)
    requires WellFormed(s) && CacheAuthorsMatch(s)
    ensures CacheAuthorsMatch(SaveMessage(s, m, freshId).state)
  {
    UserLookupRefinesDatabase(s, m.authorId);
    var (s1, u) := GetUserById(s, m.authorId);
    if u.Ok? {
      assert FromHex(m.authorId) == Some(u.value.id);
    }
  }

  lemma TouchKeepsAuthors(s: StoreState, idText: string, t: Touch)
    requires WellFormed(s) && CacheAuthorsMatch(s)
    ensures CacheAuthorsMatch(TouchMessage(s, idText, t).0)
  {
    TouchAlwaysInvalidates(s, idText, t);
  }

  lemma ReadKeepsAuthors(s: StoreState, text: string)
    requires CacheAuthorsMatch(s)
    ensures CacheAuthorsMatch(GetMessages(s, text).0)
  {
    if FromHex(text).Some? {
      ViewAuthorsMatch(s, FromHex(text).value);
    }
  }

  lemma ApplyKeepsAuthors(s: StoreState, op: Op)
    requires WellFormed(s) && CacheAuthorsMatch(s)
    ensures CacheAuthorsMatch(Apply(s, op))
  {
    match op
    case Save(m, freshId) => SaveKeepsAuthors(s, m, freshId);
    case Change(idText, t) => TouchKeepsAuthors(s, idText, t);
    case Read(text) => ReadKeepsAuthors(s, text);
    case FindUser(text) => UserLookupRefinesDatabase(s, text);
    case _ =>
  }

  lemma {:induction false} RunKeepsAuthors(s: StoreState, ops: seq<Op>)
    requires Coherent(s) && CacheAuthorsMatch(s) && LegalRun(s, ops)
    ensures CacheAuthorsMatch(Run(s, ops))
    decreases |ops|
  {
    if ops == [] {
    } else {
      ApplyKeepsAuthors(s, ops[0]);
      ApplyKeepsCoherence(s, ops[0]);
      RunKeepsAuthors(Apply(s, ops[0]), ops[1..]);
    }
  }

  /** The `k`-th message of a read from the database, as its document and author say it. */
  lemma MissShowsDocument(s: StoreState, chat: ObjectId, k: nat)
    requires WellFormed(s) && Hex(chat) !in s.lists && k < |ChatDocs(s.docs, chat)|
    ensures var r := GetMessages(s, Hex(chat)).1;
            var d := ChatDocs(s.docs, chat)[k];
      && r.Ok? && |r.value| == |ChatDocs(s.docs, chat)| && d.authorId in s.users
      && ReadsAs(r.value[k], d, s.users[d.authorId])
      && r.value[k].authorId == Hex(d.authorId) && r.value[k].author == s.users[d.authorId]
      && r.value[k].createdAt == d.createdAt && r.value[k].modifiedAt == d.modifiedAt
  {
    HexRoundTrip(chat);
    JoinDropsNothing(s.docs, s.users, chat);
    HexRoundTrip(ChatDocs(s.docs, chat)[k].authorId);
  }

  lemma HitShowsDocument(s: StoreState, chat: ObjectId, k: nat)
    requires Coherent(s) && CacheAuthorsMatch(s) && Hex(chat) in s.lists && k < |Head(ChatDocs(s.docs, chat))|
    ensures var r := GetMessages(s, Hex(chat)).1;
            var d := ChatDocs(s.docs, chat)[k];
      && r.Ok? && |r.value| == |Head(ChatDocs(s.docs, chat))| && d.authorId in s.users
      && ReadsAs(r.value[k], d, s.users[d.authorId])
  {
    ReadReturnsViewOrHead(s, chat);
    JoinDropsNothing(s.docs, s.users, chat);
    var r, view := GetMessages(s, Hex(chat)).1.value, ChatView(s, chat);
    var d := ChatDocs(s.docs, chat)[k];
    assert |VisibleAll(r)| == |VisibleAll(Head(view))|;
    assert VisibleAll(r)[k] == VisibleAll(Head(view))[k];
    assert AuthorsMatch(s.lists[Hex(chat)]) && r[k] == s.lists[Hex(chat)][k];
    ReadsAsExactly(r[k], d, s.users[d.authorId]);
  }

  /** Main result over every run: a read returns the chat's documents in order, all of them on a miss and the first
      hundred on a hit, each with the document's own values and its author's id and name. */
  lemma ReadShowsDocuments(ops: seq<Op>, chat: ObjectId, k: nat)
    requires LegalRun(EMPTY_STORE, ops)
    requires var docs := ChatDocs(Run(EMPTY_STORE, ops).docs, chat);
             k < if Hex(chat) in Run(EMPTY_STORE, ops).lists then |Head(docs)| else |docs|
    ensures var s := Run(EMPTY_STORE, ops);
            var docs := ChatDocs(s.docs, chat);
            var r := GetMessages(s, Hex(chat)).1;
      && r.Ok? && |r.value| == (if Hex(chat) in s.lists then |Head(docs)| else |docs|)
      && docs[k].authorId in s.users
      && ReadsAs(r.value[k], docs[k], s.users[docs[k].authorId])
      && (Hex(chat) !in s.lists ==> r.value[k].authorId == Hex(docs[k].authorId))
  {
    EmptyStoreIsCoherent();
    RunKeepsCoherence(EMPTY_STORE, ops);
    RunKeepsAuthors(EMPTY_STORE, ops);
    var s := Run(EMPTY_STORE, ops);
    if Hex(chat) in s.lists {
      HitShowsDocument(s, chat, k);
    } else {
      MissShowsDocument(s, chat, k);
    }
  }

  /** Over every run, whatever is cached or read names its author by the author's own id. */
  lemma AuthorsMatchEverywhere(ops: seq<Op>, text: string)
    requires LegalRun(EMPTY_STORE, ops)
    ensures var s := Run(EMPTY_STORE, ops);
      && (text in s.lists ==> AuthorsMatch(s.lists[text]))
      && (GetMessages(s, text).1.Ok? ==> AuthorsMatch(GetMessages(s, text).1.value))
  {
    EmptyStoreIsCoherent();
    RunKeepsAuthors(EMPTY_STORE, ops);
    var s := Run(EMPTY_STORE, ops);
    if FromHex(text).Some? {
      ViewAuthorsMatch(s, FromHex(text).value);
    }
  }

  /** What an edit, hide, show or delete returns is its document after the change, by the author. */
  lemma TouchShowsDocument(s: StoreState, idText: string, t: Touch)
    requires WellFormed(s) && TouchMessage(s, idText, t).1.Ok?
    ensures var (s', r) := TouchMessage(s, idText, t);
            var i := FindDoc(s.docs, FromHex(idText).value).value;
            var d := s'.docs[i];
      && FromHex(idText) == Some(d.id) && d.authorId in s.users
      && ReadsAs(r.value, d, s.users[d.authorId]) && r.value.authorId == Hex(d.authorId)
      && r.value.createdAt == d.createdAt && r.value.modifiedAt == d.modifiedAt
  {
    TouchAlwaysInvalidates(s, idText, t);
    HexRoundTrip(s.docs[FindDoc(s.docs, FromHex(idText).value).value].authorId);
  }

  // ---- What the caches keep for the next call ----

  /** A lookup that finds a user leaves it in the cache under its own id, so that the next lookup is a hit; nothing else
      in the cache changes. The errors are told apart. */
  lemma LookupCaches(s: StoreState, text: string)
    requires UsersKeyed(s.users) && UserCacheFaithful(s)
    ensures var (s', r) := GetUserById(s, text);
      && (r.Ok? ==> Hex(FromHex(text).value) in s'.userCache
                    && GetUserById(s', Hex(FromHex(text).value)).0 == s')
      && (forall t :: t in s.userCache ==> t in s'.userCache && s'.userCache[t] == s.userCache[t])
      && (forall t :: t in s'.userCache && t !in s.userCache ==> r.Ok? && t == Hex(FromHex(text).value))
      && (r.Err? ==> s' == s && r.error == (if FromHex(text).None? then ParseId else NoSuchUser))
  {
    UserLookupRefinesDatabase(s, text);
  }

  /** A read that misses a chat with messages fills its list with all of them, and a read that hits changes nothing. */
  lemma ReadPopulates(s: StoreState, chat: ObjectId)
    requires Coherent(s)
    ensures var (s', r) := GetMessages(s, Hex(chat));
      && s' == s.(lists := s'.lists)
      && (forall t :: t != Hex(chat) ==> (t in s'.lists <==> t in s.lists))
      && (forall t :: t in s.lists ==> t in s'.lists && s'.lists[t] == s.lists[t])
      && (Hex(chat) in s'.lists <==> ChatView(s, chat) != [])
      && (Hex(chat) in s'.lists && Hex(chat) !in s.lists ==> |s'.lists[Hex(chat)]| == |ChatDocs(s.docs, chat)|)
  {
    HexRoundTrip(chat);
    JoinDropsNothing(s.docs, s.users, chat);
    assert Agrees(s, chat);
    if Hex(chat) in s.lists {
      assert |VisibleAll(Head(s.lists[Hex(chat)]))| == |VisibleAll(Head(ChatView(s, chat)))|;
    }
  }

  lemma MalformedIdsAreRefused(s: StoreState, text: string, t: Touch)
    requires NoEmptyLists(s) && FromHex(text).None?
    ensures TouchMessage(s, text, t) == (s, Err(ParseId))
    ensures text !in s.lists ==> GetMessages(s, text) == (s, Err(ParseId))
  {
  }

  lemma UnknownMessagesAreRefused(s: StoreState, id: ObjectId, t: Touch)
    requires FindDoc(s.docs, id).None?
    ensures TouchMessage(s, Hex(id), t) == (s, Err(NoSuchMessage))
  {
    HexRoundTrip(id);
  }

  // ---- Saving ----

  /** A save, case by case: what is stored, what is cached, and what is written into the caller's message. */
  lemma SaveCaseByCase(s: StoreState, m: Message, freshId: ObjectId)
    requires WellFormed(s)
    ensures var saved := SaveMessage(s, m, freshId);
            var known := FromHex(m.authorId).Some? && FromHex(m.authorId).value in s.users;
      && saved.state.users == s.users && saved.state.chats == s.chats
      && (!known ==> saved.state == s && saved.message == m && saved.error ==
                     Some(if FromHex(m.authorId).None? then ParseId else NoSuchUser))
      && (known ==> saved.message.author.id == FromHex(m.authorId).value
                    && saved.message.author.name == s.users[FromHex(m.authorId).value].name
                    && saved.message == m.(author := saved.message.author, id := saved.message.id))
      && (known && m.id == NIL_ID ==> saved.error.None? && saved.message.id == freshId)
      && (known && m.id != NIL_ID ==> saved.message.id == m.id)
      && (known && m.id != NIL_ID && FindDoc(s.docs, m.id).None? ==>
            saved.error == Some(NothingUpdated) && saved.state.docs == s.docs && saved.state.lists == s.lists)
      && (known && m.id != NIL_ID && FindDoc(s.docs, m.id).Some? ==> saved.error.None?)
  {
    UserLookupRefinesDatabase(s, m.authorId);
    LookupCaches(s, m.authorId);
  }

  /** What is stored by a save that succeeds: the caller's message, with whole milliseconds and the author as an id,
      after all other documents or in the place it had; the others stay. */
  lemma SaveStores(s: StoreState, m: Message, freshId: ObjectId)
    requires WellFormed(s) && SaveMessage(s, m, freshId).error.None?
    ensures var saved := SaveMessage(s, m, freshId);
            var i := if m.id == NIL_ID then |s.docs| else FindDoc(s.docs, m.id).GetOr(0);
      && i < |saved.state.docs| && |saved.state.docs| == |s.docs| + (if m.id == NIL_ID then 1 else 0)
      && (forall j :: 0 <= j < |s.docs| && j != i ==> saved.state.docs[j] == s.docs[j])
      && var d := saved.state.docs[i];
      && d.id == saved.message.id && FromHex(m.authorId) == Some(d.authorId) && d.authorId in s.users
      && ReadsAs(saved.message, d, s.users[d.authorId])
      && d.createdAt <= m.createdAt < d.createdAt + 1_000_000 && d.modifiedAt <= m.modifiedAt < d.modifiedAt + 1_000_000
      && (Hex(m.chatId) in saved.state.lists ==> m.id == NIL_ID && |saved.state.lists[Hex(m.chatId)]| <= 100)
  {
    UserLookupRefinesDatabase(s, m.authorId);
  }

  // ---- Users ----

  /** A user that is accepted is kept as given, password included, under its id, and replaces nobody. */
  lemma NewUserIsKept(s: StoreState, u: User, freshId: ObjectId)
    ensures var (s', r) := CreateUser(s, u, freshId);
            var id := if u.id == NIL_ID then freshId else u.id;
      && (r.Ok? <==> id !in s.users)
      && (r.Ok? ==> r.value.id == id && r.value.name == u.name && r.value.password == u.password
                    && id in s'.users && s'.users[id] == r.value && s' == s.(users := s'.users))
      && (forall other :: other != id ==> (other in s'.users <==> other in s.users))
      && (forall other :: other in s.users ==> other in s'.users && s'.users[other] == s.users[other])
      && (r.Err? ==> s' == s && r.error == DuplicateId)
  {
  }

  lemma ApplyKeepsUsers(s: StoreState, op: Op)
    requires UsersKeyed(s.users) && UserCacheFaithful(s)
    ensures forall u :: u in s.users ==> u in Apply(s, op).users && Apply(s, op).users[u] == s.users[u]
    ensures forall u :: u in Apply(s, op).users && u !in s.users ==>
              op.AddUser? && Apply(s, op).users[u] == op.user.(id := u)
  {
    match op
    case Save(m, freshId) => UserLookupRefinesDatabase(s, m.authorId);
    case Change(idText, t) =>
      if FromHex(idText).Some? && FindDoc(s.docs, FromHex(idText).value).Some? {
        var d := ApplyTouch(s.docs[FindDoc(s.docs, FromHex(idText).value).value], t);
        UserLookupRefinesDatabase(s, Hex(d.authorId));
      }
    case FindUser(text) => UserLookupRefinesDatabase(s, text);
    case _ =>
  }

  /** Over every run, the users are those that were added, with the names and passwords they were added with, and they
      never change. */
  lemma {:induction false} UsersAreThoseAdded(s: StoreState, ops: seq<Op>)
    requires Coherent(s) && LegalRun(s, ops)
    ensures var s' := Run(s, ops);
      && (forall u :: u in s.users ==> u in s'.users && s'.users[u] == s.users[u])
      && (forall u :: u in s'.users && u !in s.users ==>
            exists k :: 0 <= k < |ops| && ops[k].AddUser? && s'.users[u] == ops[k].user.(id := u))
    decreases |ops|
  {
    if ops == [] {
    } else {
      var s1, s' := Apply(s, ops[0]), Run(s, ops);
      ApplyKeepsUsers(s, ops[0]);
      ApplyKeepsCoherence(s, ops[0]);
      UsersAreThoseAdded(s1, ops[1..]);
      forall u | u in s'.users && u !in s.users
        ensures exists k :: 0 <= k < |ops| && ops[k].AddUser? && s'.users[u] == ops[k].user.(id := u)
      {
        if u !in s1.users {
          var k :| 0 <= k < |ops[1..]| && ops[1..][k].AddUser? && s'.users[u] == ops[1..][k].user.(id := u);
          assert ops[k + 1] == ops[1..][k];
        } else {
          assert ops[0].AddUser?;
        }
      }
    }
  }
}

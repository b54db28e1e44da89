/** How one change of the documents changes the joined view of each chat, and what the user cache may answer. */
module StoreFacts {
  import opened Wrappers
  import opened ObjectIds
  import opened Entities
  import opened Store

  ghost predicate UniqueIds(docs: seq<Doc>) {
    forall i, j :: 0 <= i < j < |docs| ==> docs[i].id != docs[j].id
  }

  ghost predicate AuthorsKnown(docs: seq<Doc>, users: map<ObjectId, User>) {
    forall i :: 0 <= i < |docs| ==> docs[i].authorId in users
  }

  ghost predicate UsersKeyed(users: map<ObjectId, User>) {
    forall u :: u in users ==> users[u].id == u
  }

  /** Every cached user is the database's user of that text, minus the password. */
  ghost predicate CacheMirrors(cache: map<string, User>, users: map<ObjectId, User>) {
    forall t :: t in cache ==>
      Canonical(t) && FromHex(t).value in users && cache[t] == WithoutPassword(users[FromHex(t).value])
  }

  ghost predicate UserCacheFaithful(s: StoreState) {
    CacheMirrors(s.userCache, s.users)
  }

  ghost predicate WellFormed(s: StoreState) {
    && UniqueIds(s.docs)
    && AuthorsKnown(s.docs, s.users)
    && UsersKeyed(s.users)
    && UserCacheFaithful(s)
  }

  /** The documents of one chat, in insertion order. */
  function ChatDocs(docs: seq<Doc>, chat: ObjectId): seq<Doc> {
    if docs == [] then []
    else ChatDocs(docs[..|docs| - 1], chat) + (if docs[|docs| - 1].chatId == chat then [docs[|docs| - 1]] else [])
  }

  // ---- The join distributes over the document sequence ----

  lemma {:induction false} AggregateConcat(a: seq<Doc>, b: seq<Doc>, users: map<ObjectId, User>, chat: ObjectId)
    ensures Aggregate(a + b, users, chat) == Aggregate(a, users, chat) + Aggregate(b, users, chat)
  {
    if b == [] {
      assert a + b == a;
    } else {
      AggregateConcat(a, b[..|b| - 1], users, chat);
      assert (a + b)[..|a + b| - 1] == a + b[..|b| - 1];
    }
  }

  lemma AggregateOne(d: Doc, users: map<ObjectId, User>, chat: ObjectId)
    ensures Aggregate([d], users, chat) ==
            if d.chatId == chat && d.authorId in users then [Row(d, users[d.authorId])] else []
  {
  }

  lemma AggregateSplit(docs: seq<Doc>, i: nat, d: Doc, users: map<ObjectId, User>, chat: ObjectId)
    requires i < |docs|
    ensures Aggregate(docs[i := d], users, chat) ==
            Aggregate(docs[..i], users, chat) + Aggregate([d], users, chat) + Aggregate(docs[i + 1..], users, chat)
  {
    assert docs[i := d] == docs[..i] + [d] + docs[i + 1..];
    AggregateConcat(docs[..i] + [d], docs[i + 1..], users, chat);
    AggregateConcat(docs[..i], [d], users, chat);
  }

  lemma {:induction false} AggregateUsersGrow(
    docs: seq<Doc>, users: map<ObjectId, User>, more: map<ObjectId, User>, chat: ObjectId)
    requires AuthorsKnown(docs, users)
    requires forall u :: u in users ==> u in more && more[u] == users[u]
    ensures Aggregate(docs, more, chat) == Aggregate(docs, users, chat)
  {
    if docs == [] {
    } else {
      AggregateUsersGrow(docs[..|docs| - 1], users, more, chat);
    }
  }

  /** Referential integrity makes the inner join total: it lists each of the chat's documents once, in order. */
  lemma {:induction false} JoinDropsNothing(docs: seq<Doc>, users: map<ObjectId, User>, chat: ObjectId)
    requires AuthorsKnown(docs, users)
    ensures |Aggregate(docs, users, chat)| == |ChatDocs(docs, chat)|
    ensures forall i :: 0 <= i < |ChatDocs(docs, chat)| ==>
              && ChatDocs(docs, chat)[i] in docs
              && ChatDocs(docs, chat)[i].authorId in users
              && Aggregate(docs, users, chat)[i] ==
                 Row(ChatDocs(docs, chat)[i], users[ChatDocs(docs, chat)[i].authorId])
  {
    if docs == [] {
    } else {
      JoinDropsNothing(docs[..|docs| - 1], users, chat);
    }
  }

  lemma {:induction false} AggregateMembers(docs: seq<Doc>, users: map<ObjectId, User>, chat: ObjectId)
    ensures forall r :: r in Aggregate(docs, users, chat) ==>
              r.doc in docs && r.doc.chatId == chat && r.doc.authorId in users && r.author == users[r.doc.authorId]
  {
    if docs == [] {
    } else {
      AggregateMembers(docs[..|docs| - 1], users, chat);
    }
  }

  // ---- The view of each chat after an insertion or a replacement ----

  lemma ViewAfterInsert(s: StoreState, d: Doc, chat: ObjectId)
    requires d.authorId in s.users
    ensures ChatView(s.(docs := s.docs + [d]), chat) ==
            ChatView(s, chat) + (if d.chatId == chat then [ToInternal(d, s.users[d.authorId])] else [])
  {
  }

  /** The place a document has in the view of its chat. */
  function Place(s: StoreState, i: nat): nat
    requires i < |s.docs|
  {
    |Aggregate(s.docs[..i], s.users, s.docs[i].chatId)|
  }

  lemma SpliceUpdate<T>(a: seq<T>, x: T, y: T, b: seq<T>)
    ensures |a| < |a + [x] + b| && (a + [x] + b)[|a|] == x
    ensures (a + [x] + b)[|a| := y] == a + [y] + b
  {
  }

  lemma RowsAfterReplace(docs: seq<Doc>, users: map<ObjectId, User>, i: nat, d: Doc)
    requires i < |docs| && docs[i].authorId in users
    requires d.chatId == docs[i].chatId && d.authorId in users
    ensures var rows := Aggregate(docs, users, d.chatId);
            var k := |Aggregate(docs[..i], users, d.chatId)|;
      && k < |rows| && rows[k] == Row(docs[i], users[docs[i].authorId])
      && Aggregate(docs[i := d], users, d.chatId) == rows[k := Row(d, users[d.authorId])]
  {
    assert docs[i := docs[i]] == docs;
    AggregateSplit(docs, i, docs[i], users, d.chatId);
    AggregateSplit(docs, i, d, users, d.chatId);
    AggregateOne(docs[i], users, d.chatId);
    AggregateOne(d, users, d.chatId);
    SpliceUpdate(Aggregate(docs[..i], users, d.chatId), Row(docs[i], users[docs[i].authorId]),
                 Row(d, users[d.authorId]), Aggregate(docs[i + 1..], users, d.chatId));
  }

  lemma OtherRowsAfterReplace(docs: seq<Doc>, users: map<ObjectId, User>, i: nat, d: Doc, chat: ObjectId)
    requires i < |docs| && docs[i].chatId != chat && d.chatId != chat
    ensures Aggregate(docs[i := d], users, chat) == Aggregate(docs, users, chat)
  {
    assert docs[i := docs[i]] == docs;
    AggregateSplit(docs, i, docs[i], users, chat);
    AggregateSplit(docs, i, d, users, chat);
    AggregateOne(docs[i], users, chat);
    AggregateOne(d, users, chat);
  }

  lemma FromRowsUpdate(rows: seq<Row>, k: nat, r: Row)
    requires k < |rows|
    ensures FromRows(rows[k := r]) == FromRows(rows)[k := ToInternal(r.doc, r.author)]
  {
  }

  lemma ViewAfterReplace(s: StoreState, i: nat, d: Doc, chat: ObjectId)
    requires i < |s.docs| && AuthorsKnown(s.docs, s.users)
    requires d.chatId == s.docs[i].chatId && d.authorId in s.users
    ensures Place(s, i) < |ChatView(s, d.chatId)|
    ensures ChatView(s, d.chatId)[Place(s, i)] == ToInternal(s.docs[i], s.users[s.docs[i].authorId])
    ensures ChatView(s.(docs := s.docs[i := d]), chat) ==
            if chat == d.chatId then ChatView(s, chat)[Place(s, i) := ToInternal(d, s.users[d.authorId])]
            else ChatView(s, chat)
  {
    RowsAfterReplace(s.docs, s.users, i, d);
    if chat == d.chatId {
      FromRowsUpdate(Aggregate(s.docs, s.users, chat), Place(s, i), Row(d, s.users[d.authorId]));
    } else {
      OtherRowsAfterReplace(s.docs, s.users, i, d, chat);
    }
  }

  lemma {:induction false} ViewIdsUnique(docs: seq<Doc>, users: map<ObjectId, User>, chat: ObjectId)
    requires UniqueIds(docs)
    ensures forall i, j :: 0 <= i < j < |Aggregate(docs, users, chat)| ==>
              Aggregate(docs, users, chat)[i].doc.id != Aggregate(docs, users, chat)[j].doc.id
  {
    if docs == [] {
    } else {
      var front := docs[..|docs| - 1];
      ViewIdsUnique(front, users, chat);
      AggregateMembers(front, users, chat);
      var rows := Aggregate(front, users, chat);
      forall i | 0 <= i < |rows| ensures rows[i].doc.id != docs[|docs| - 1].id {
        assert rows[i] in rows;
      }
    }
  }

  lemma FindUnique(docs: seq<Doc>, i: nat)
    requires UniqueIds(docs) && i < |docs|
    ensures FindDoc(docs, docs[i].id) == Some(i)
  {
  }

  /** What readers can see of a document. */
  function VisibleDoc(s: StoreState, d: Doc): Option<Message> {
    if d.authorId in s.users then Some(Visible(ToInternal(d, s.users[d.authorId]))) else None
  }

  // ---- The user cache ----

  /** `GetUserById` answers from the cache or the database, and no caller can tell which, up to the password:
      it finds exactly the users the database has, and it leaves the cache faithful and all else alone. */
  lemma UserLookupRefinesDatabase(s: StoreState, text: string)
    requires UsersKeyed(s.users) && UserCacheFaithful(s)
    ensures var (s', r) := GetUserById(s, text);
      && (r.Ok? <==> FromHex(text).Some? && FromHex(text).value in s.users)
      && (r.Ok? ==> WithoutPassword(r.value) == WithoutPassword(s.users[FromHex(text).value]))
      && s'.(userCache := s.userCache) == s
      && UserCacheFaithful(s')
  {
    forall id | id in s.users ensures Canonical(Hex(id)) && FromHex(Hex(id)) == Some(id) {
      HexRoundTrip(id);
    }
  }

  /** Forgetting cached users, one or all, changes no answer. */
  lemma ExpiryChangesNoAnswer(s: StoreState, expired: set<string>, text: string)
    requires UsersKeyed(s.users) && UserCacheFaithful(s)
    ensures var before := GetUserById(s, text).1;
            var after := GetUserById(s.(userCache := s.userCache - expired), text).1;
      && (before.Ok? <==> after.Ok?)
      && (before.Ok? ==> WithoutPassword(before.value) == WithoutPassword(after.value))
      && (before.Err? ==> before == after)
  {
  }
}

/** The store as the program has it: objects whose methods change the collections and the cache in place,
    each proved to do exactly what the corresponding function of module Store says. */
module StoreService {
  import opened Wrappers
  import opened ObjectIds
  import opened Entities
  import S = Store
  import opened StoreFacts

  class RedisStore {
    var lists: map<string, seq<Message>>
    var users: map<string, User>

    constructor ()
      ensures lists == map[] && users == map[]
    {
      lists, users := map[], map[];
    }

    method InsertMessage(m: Message)
      modifies this`lists
      ensures lists == S.LTrim(S.RPushX(old(lists), Hex(m.chatId), m), Hex(m.chatId))
    {
      var k := Hex(m.chatId);
      var length := 0;
      if k in lists {
        lists := lists[k := lists[k] + [ThroughJson(m)]];
        length := |lists[k]|;
      }
      if length > 0 {
        lists := S.LTrim(lists, k);
      }
    }

    method UpdateMessage(m: Message)
      modifies this`lists
      ensures lists == S.Del(old(lists), Hex(m.chatId))
    {
      lists := lists - {Hex(m.chatId)};
    }

    /** Positions 0 to 99 of the list; a missing one reads as empty. */
    method GetMessages(chatText: string) returns (ms: seq<Message>)
      ensures |ms| <= 100
      ensures forall i :: 0 <= i < |ms| ==> chatText in lists && i < |lists[chatText]| && ms[i] == lists[chatText][i]
      ensures chatText in lists && |ms| < 100 ==> |ms| == |lists[chatText]|
      ensures ms == S.LRange(lists, chatText)
    {
      if chatText !in lists {
        return [];
      }
      ms := lists[chatText];
      if |ms| > 100 {
        ms := ms[..100];
      }
    }

    method PopulateMessages(chatText: string, ms: seq<Message>)
      modifies this`lists
      ensures lists == S.RPush(old(lists), chatText, ms)
    {
      var items: seq<Message> := [];
      for i := 0 to |ms|
        invariant items == S.ThroughJsonAll(ms[..i])
      {
        items := items + [ThroughJson(ms[i])];
      }
      assert ms[..|ms|] == ms;
      if items == [] {
        return;
      }
      lists := lists[chatText := (if chatText in lists then lists[chatText] else []) + items];
    }

    /** Keeps the user under its own id text, and with it the mirror of any database that has this user. */
    method InsertUser(u: User)
      modifies this`users
      ensures users == old(users)[Hex(u.id) := WithoutPassword(u)]
      ensures forall database :: CacheMirrors(old(users), database) && u.id in database && database[u.id] == u ==>
                CacheMirrors(users, database)
    {
      HexRoundTrip(u.id);
      users := users[Hex(u.id) := WithoutPassword(u)];
    }

    /** A hit is the user that any mirrored database has under the text, so a hit and a lookup there cannot differ
        but in the password. A user cached under the text is always found. */
    method GetUser(text: string) returns (u: Option<User>)
      ensures forall database :: CacheMirrors(users, database) && u.Some? ==>
                FromHex(text).Some? && FromHex(text).value in database
                && u.value == WithoutPassword(database[FromHex(text).value])
      ensures u.Some? <==> text in users
      ensures u.Some? ==> u.value == users[text]
    {
      if text in users {
        return Some(users[text]);
      }
      return None;
    }
  }

  class MongodbStore {
    const cache: RedisStore
    var docs: seq<Doc>
    var users: map<ObjectId, User>
    var chats: seq<ChatDoc>

    ghost function State(): S.StoreState
      reads this, cache
    {
      S.StoreState(docs, users, chats, cache.lists, cache.users)
    }

    constructor (cache: RedisStore)
      ensures this.cache == cache
      ensures docs == [] && users == map[] && chats == []
      ensures cache.users == map[] ==> Mirrored()
    {
      this.cache := cache;
      docs, users, chats := [], map[], [];
    }

    /** The users are filed under their ids, and the cache holds only what the database has. Every method keeps this:
        a lookup caches what it found, and users are only ever added. */
    ghost predicate Mirrored()
      reads this, cache
    {
      UsersKeyed(users) && CacheMirrors(cache.users, users)
    }

    method GetUserById(text: string) returns (r: Result<User, S.StoreError>)
      modifies cache`users
      ensures (State(), r) == S.GetUserById(old(State()), text)
      ensures old(Mirrored()) ==> Mirrored()
      ensures old(Mirrored()) && r.Ok? ==>
                FromHex(text).Some? && FromHex(text).value in users
                && WithoutPassword(r.value) == WithoutPassword(users[FromHex(text).value])
    {
      var hit := cache.GetUser(text);
      if hit.Some? {
        return Ok(hit.value);
      }
      var id := FromHex(text);
      if id.None? {
        return Err(S.ParseId);
      }
      if id.value !in users {
        return Err(S.NoSuchUser);
      }
      var u := users[id.value];
      cache.InsertUser(u);
      return Ok(u);
    }

    /** The body that `UpdateMessageContent`, `SetHideMessage` and `DeleteMessage` have in common. */
    method UpdateAndInvalidate(idText: string, t: S.Touch) returns (r: Result<Message, S.StoreError>)
      modifies this`docs, cache
      ensures (State(), r) == S.TouchMessage(old(State()), idText, t)
      ensures old(Mirrored()) ==> Mirrored()
    {
      var id := FromHex(idText);
      if id.None? {
        return Err(S.ParseId);
      }
      var i := S.FindDoc(docs, id.value);
      if i.None? {
        return Err(S.NoSuchMessage);
      }
      var doc := S.ApplyTouch(docs[i.value], t);
      docs := docs[i.value := doc];
      var user := GetUserById(Hex(doc.authorId));
      if user.Err? {
        return Err(user.error);
      }
      var m := ToInternal(doc, user.value);
      cache.UpdateMessage(m);
      return Ok(m);
    }

    method UpdateMessageContent(id: string, content: string) returns (r: Result<Message, S.StoreError>)
      modifies this`docs, cache
      ensures (State(), r) == S.TouchMessage(old(State()), id, S.SetContent(content))
      ensures old(Mirrored()) ==> Mirrored()
    {
      r := UpdateAndInvalidate(id, S.SetContent(content));
    }

    method SetHideMessage(id: string, userId: string, value: bool) returns (r: Result<Message, S.StoreError>)
      modifies this`docs, cache
      ensures (State(), r) ==
              S.TouchMessage(old(State()), id, if value then S.AddHidden(userId) else S.PullHidden(userId))
      ensures old(Mirrored()) ==> Mirrored()
    {
      var operation := if value then S.AddHidden(userId) else S.PullHidden(userId);
      r := UpdateAndInvalidate(id, operation);
    }

    method DeleteMessage(id: string) returns (r: Result<Message, S.StoreError>)
      modifies this`docs, cache
      ensures (State(), r) == S.TouchMessage(old(State()), id, S.MarkDeleted)
      ensures old(Mirrored()) ==> Mirrored()
    {
      r := UpdateAndInvalidate(id, S.MarkDeleted);
    }

    method GetMessages(chatText: string) returns (r: Result<seq<Message>, S.StoreError>)
      modifies cache`lists
      ensures (State(), r) == S.GetMessages(old(State()), chatText)
    {
      var ms := cache.GetMessages(chatText);
      if |ms| > 0 {
        return Ok(ms);
      }
      var id := FromHex(chatText);
      if id.None? {
        return Err(S.ParseId);
      }
      var results := S.Aggregate(docs, users, id.value);
      var rmsgs: seq<Message> := [];
      for i := 0 to |results|
        invariant rmsgs == S.FromRows(results[..i])
      {
        rmsgs := rmsgs + [ToInternal(results[i].doc, results[i].author)];
      }
      assert results[..|results|] == results;
      cache.PopulateMessages(chatText, rmsgs);
      return Ok(rmsgs);
    }

    /** Go's pointer argument becomes the result `m'`: the message with the author and id written into it. */
    method SaveMessage(m: Message, freshId: ObjectId) returns (m': Message, error: Option<S.StoreError>)
      modifies this`docs, cache
      ensures S.Saved(State(), m', error) == S.SaveMessage(old(State()), m, freshId)
      ensures old(Mirrored()) ==> Mirrored()
    {
      m' := m;
      var user := GetUserById(m.authorId);
      if user.Err? {
        return m', Some(user.error);
      }
      m' := m'.(author := user.value);
      if m'.id == NIL_ID {
        docs := docs + [FromInternal(m').(id := freshId)];
        m' := m'.(id := freshId);
        cache.InsertMessage(m');
      } else {
        var i := S.FindDoc(docs, m'.id);
        if i.None? {
          return m', Some(S.NothingUpdated);
        }
        docs := docs[i.value := FromInternal(m')];
        cache.UpdateMessage(m');
      }
      return m', None;
    }

    method CreateUser(u: User, freshId: ObjectId) returns (r: Result<User, S.StoreError>)
      modifies this`users
      ensures (State(), r) == S.CreateUser(old(State()), u, freshId)
      ensures old(Mirrored()) ==> Mirrored()
    {
      var u' := if u.id == NIL_ID then u.(id := freshId) else u;
      if u'.id in users {
        return Err(S.DuplicateId);
      }
      users := users[u'.id := u'];
      return Ok(u');
    }

    method SaveChat(name: string, freshId: ObjectId) returns (id: string)
      modifies this`chats
      ensures (State(), id) == S.SaveChat(old(State()), name, freshId)
    {
      chats := chats + [ChatDoc(freshId, name)];
      return Hex(freshId);
    }

    /** The id and name of every chat, in the order they were saved. */
    method GetChats() returns (r: seq<(string, string)>)
      ensures |r| == |chats|
      ensures forall i :: 0 <= i < |chats| ==> r[i] == (Hex(chats[i].id), chats[i].name)
    {
      r := [];
      for i := 0 to |chats|
        invariant |r| == i
        invariant forall j :: 0 <= j < i ==> r[j] == (Hex(chats[j].id), chats[j].name)
      {
        r := r + [(Hex(chats[i].id), chats[i].name)];
      }
    }
  }
}

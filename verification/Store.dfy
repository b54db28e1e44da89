/** What each store operation does to the database and to the cache, one function per Redis or MongoDB call
    and one per store method. Calls that reach Redis or MongoDB succeed; the ids MongoDB generates are parameters. */
module Store {
  import opened Wrappers
  import opened ObjectIds
  import opened Entities

  /** The documents in insertion order, the users by id, the chats, and Redis. The Redis key of a chat's list is
      "chat:" + text + ":messages" and the key of a user is "user:" + text; the maps here are indexed by that text. */
  datatype StoreState = StoreState(
    docs: seq<Doc>,
    users: map<ObjectId, User>,
    chats: seq<ChatDoc>,
    lists: map<string, seq<Message>>,
    userCache: map<string, User>)

  const EMPTY_STORE := StoreState([], map[], [], map[], map[])

  datatype StoreError = ParseId | NoSuchUser | NoSuchMessage | NothingUpdated | DuplicateId

  // ---- Redis ----

  const CACHE_LIMIT: nat := 100

  function Head<T>(s: seq<T>): seq<T> {
    if |s| <= CACHE_LIMIT then s else s[..CACHE_LIMIT]
  }

  function ThroughJsonAll(ms: seq<Message>): (js: seq<Message>)
    ensures |js| == |ms|
    ensures forall i :: 0 <= i < |ms| ==> js[i] == ThroughJson(ms[i])
  {
    seq(|ms|, i requires 0 <= i < |ms| => ThroughJson(ms[i]))
  }

  /** RPUSHX: append only to a list that exists. */
  function RPushX(lists: map<string, seq<Message>>, key: string, m: Message): map<string, seq<Message>> {
    if key in lists then lists[key := lists[key] + [ThroughJson(m)]] else lists
  }

  /** LTRIM key 0 99. */
  function LTrim(lists: map<string, seq<Message>>, key: string): map<string, seq<Message>> {
    if key in lists then lists[key := Head(lists[key])] else lists
  }

  function Del(lists: map<string, seq<Message>>, key: string): map<string, seq<Message>> {
    lists - {key}
  }

  /** RPUSH: with no items Redis reports an error and creates no key. */
  function RPush(lists: map<string, seq<Message>>, key: string, ms: seq<Message>): map<string, seq<Message>> {
    if ms == [] then lists
    else lists[key := (if key in lists then lists[key] else []) + ThroughJsonAll(ms)]
  }

  /** LRANGE key 0 99: a missing key reads as an empty list. */
  function LRange(lists: map<string, seq<Message>>, key: string): seq<Message> {
    if key in lists then Head(lists[key]) else []
  }

  // ---- MongoDB ----

  datatype Row = Row(doc: Doc, author: User)

  /** The match, lookup and unwind pipeline: an inner join of one chat's documents with the users. */
  function Aggregate(docs: seq<Doc>, users: map<ObjectId, User>, chat: ObjectId): seq<Row> {
    if docs == [] then [] else
      var last := docs[|docs| - 1];
      Aggregate(docs[..|docs| - 1], users, chat) +
      (if last.chatId == chat && last.authorId in users then [Row(last, users[last.authorId])] else [])
  }

  function FromRows(rows: seq<Row>): (ms: seq<Message>)
    ensures |ms| == |rows|
    ensures forall i :: 0 <= i < |rows| ==> ms[i] == ToInternal(rows[i].doc, rows[i].author)
  {
    seq(|rows|, i requires 0 <= i < |rows| => ToInternal(rows[i].doc, rows[i].author))
  }

  /** The truth about one chat: every message of it, joined with its author. */
  function ChatView(s: StoreState, chat: ObjectId): seq<Message> {
    FromRows(Aggregate(s.docs, s.users, chat))
  }

  function FindDoc(docs: seq<Doc>, id: ObjectId): (r: Option<nat>)
    ensures r.Some? ==> r.value < |docs| && docs[r.value].id == id
    ensures r.None? ==> forall i :: 0 <= i < |docs| ==> docs[i].id != id
  {
    if docs == [] then None
    else if docs[|docs| - 1].id == id then Some(|docs| - 1)
    else FindDoc(docs[..|docs| - 1], id)
  }

  /** The update documents of the edit, hide, show and delete operations. */
  datatype Touch = SetContent(content: string) | AddHidden(user: string) | PullHidden(user: string) | MarkDeleted

  function Without(users: seq<string>, user: string): (r: seq<string>)
    ensures forall u :: u in r <==> u in users && u != user
  {
    if users == [] then []
    else (if users[0] == user then [] else [users[0]]) + Without(users[1..], user)
  }

  function ApplyTouch(d: Doc, t: Touch): Doc {
    match t
    case SetContent(content) => d.(content := content)
    case AddHidden(user) => if user in d.hiddenFor then d else d.(hiddenFor := d.hiddenFor + [user])
    case PullHidden(user) => d.(hiddenFor := Without(d.hiddenFor, user))
    case MarkDeleted => d.(deleted := true)
  }

  // ---- The store methods ----

  function GetUserById(s: StoreState, text: string): (StoreState, Result<User, StoreError>) {
    if text in s.userCache then (s, Ok(s.userCache[text]))
    else match FromHex(text)
      case None => (s, Err(ParseId))
      case Some(id) =>
        if id !in s.users then (s, Err(NoSuchUser))
        else (s.(userCache := s.userCache[Hex(s.users[id].id) := WithoutPassword(s.users[id])]), Ok(s.users[id]))
  }

  /** Edit, hide, show and delete: change the document, look the author up, drop the chat's list. */
  function TouchMessage(s: StoreState, idText: string, t: Touch): (StoreState, Result<Message, StoreError>) {
    match FromHex(idText)
    case None => (s, Err(ParseId))
    case Some(id) =>
      match FindDoc(s.docs, id)
      case None => (s, Err(NoSuchMessage))
      case Some(i) =>
        var doc := ApplyTouch(s.docs[i], t);
        var (s', user) := GetUserById(s.(docs := s.docs[i := doc]), Hex(doc.authorId));
        if user.Err? then (s', Err(user.error))
        else
          var m := ToInternal(doc, user.value);
          (s'.(lists := Del(s'.lists, Hex(m.chatId))), Ok(m))
  }

  function GetMessages(s: StoreState, chatText: string): (StoreState, Result<seq<Message>, StoreError>) {
    var cached := LRange(s.lists, chatText);
    if cached != [] then (s, Ok(cached))
    else match FromHex(chatText)
      case None => (s, Err(ParseId))
      case Some(chat) =>
        var ms := ChatView(s, chat);
        (s.(lists := RPush(s.lists, chatText, ms)), Ok(ms))
  }

  datatype Saved = Saved(state: StoreState, message: Message, error: Option<StoreError>)

  /** `SaveMessage` also writes the author, and for a new message the id, into the message it was given. */
  function SaveMessage(s: StoreState, m: Message, freshId: ObjectId): Saved {
    var (s', user) := GetUserById(s, m.authorId);
    if user.Err? then Saved(s', m, Some(user.error))
    else
      var m' := m.(author := user.value);
      if m.id == NIL_ID then
        var added := m'.(id := freshId);
        var key := Hex(m.chatId);
        var lists := LTrim(RPushX(s'.lists, key, added), key);
        Saved(s'.(docs := s'.docs + [FromInternal(added)], lists := lists), added, None)
      else
        match FindDoc(s'.docs, m.id)
        case None => Saved(s', m', Some(NothingUpdated))
        case Some(i) =>
          Saved(s'.(docs := s'.docs[i := FromInternal(m')], lists := Del(s'.lists, Hex(m.chatId))), m', None)
  }

  function CreateUser(s: StoreState, u: User, freshId: ObjectId): (StoreState, Result<User, StoreError>) {
    var u' := if u.id == NIL_ID then u.(id := freshId) else u;
    if u'.id in s.users then (s, Err(DuplicateId))
    else (s.(users := s.users[u'.id := u']), Ok(u'))
  }

  function SaveChat(s: StoreState, name: string, freshId: ObjectId): (StoreState, string) {
    (s.(chats := s.chats + [ChatDoc(freshId, name)]), Hex(freshId))
  }
}

/** Events as JSON trees: what Go's encoder writes and what the two decoders accept. */
module Codec {
  import opened Wrappers
  import opened ObjectIds
  import opened Entities
  import opened Events

  /** Times are a leaf of their own; their text form is left to the encoder. */
  datatype Json =
    | JNull
    | JBool(b: bool)
    | JInt(n: int)
    | JString(s: string)
    | JTime(ns: int)
    | JArray(items: seq<Json>)
    | JObject(members: map<string, Json>)

  /** `NilChat` is not an error the hub reports: it goes on with a nil chat and panics. */
  datatype DecodeError = WrongType | BadId | NoDetails | UnknownEvent | NilChat

  /** The zero value of Go's time: the start of year 1. */
  const ZERO_TIME := -62135596800 * 1_000_000_000

  // ---- Encoding ----

  function TypeCode(t: EventType): int {
    match t
    case NewMessage => 0
    case UpdateMessage => 1
    case EditMessage => 2
    case HideMessage => 3
    case DeleteMessage => 4
    case PinMessage => 5
    case NewChat => 6
  }

  function EncodeUser(u: User): Json {
    JObject(map["id" := JString(Hex(u.id)), "name" := JString(u.name)])
  }

  function EncodeStrings(ss: seq<string>): Json {
    JArray(seq(|ss|, i requires 0 <= i < |ss| => JString(ss[i])))
  }

  function EncodeMessage(m: Message): Json {
    JObject(map[
      "id" := JString(Hex(m.id)), "chatId" := JString(Hex(m.chatId)), "authorId" := JString(m.authorId),
      "content" := JString(m.content), "type" := JString(m.kind),
      "createdAt" := JTime(m.createdAt), "modifiedAt" := JTime(m.modifiedAt),
      "status" := JString(m.status), "hiddenFor" := EncodeStrings(m.hiddenFor),
      "deleted" := JBool(m.deleted), "author" := EncodeUser(m.author)])
  }

  function EncodeFields(d: MessageEventDetails): Json {
    JObject(map[
      "id" := JString(d.id), "content" := JString(d.content), "type" := JString(d.kind),
      "status" := JString(d.status), "hidden" := JBool(d.hidden), "deleted" := JBool(d.deleted)])
  }

  function EncodeChat(c: ChatInfo): Json {
    JObject(map["Id" := JString(c.id), "Name" := JString(c.name)])
  }

  function EncodeDetails(d: Details): Json {
    match d
    case Fields(fields) => EncodeFields(fields)
    case MessageValue(m) => EncodeMessage(m)
    case MessagePointer(m) => EncodeMessage(m)
    case ChatPointer(c) => EncodeChat(c)
  }

  function EncodeEvent(e: ChatEvent): Json {
    JObject(map[
      "type" := JInt(TypeCode(e.kind)), "chatId" := JString(e.chatId),
      "userId" := JString(e.userId), "details" := EncodeDetails(e.details)])
  }

  // ---- Decoding: a missing or null member leaves the zero value ----

  type Members = map<string, Json>

  /** The members of an object; null decodes as a value with no member set. */
  function AsMembers(j: Json): Result<Members, DecodeError> {
    match j
    case JObject(ms) => Ok(ms)
    case JNull => Ok(map[])
    case _ => Err(WrongType)
  }

  function Member(ms: Members, name: string): Json {
    if name in ms then ms[name] else JNull
  }

  function AsString(j: Json): Result<string, DecodeError> {
    match j
    case JString(s) => Ok(s)
    case JNull => Ok("")
    case _ => Err(WrongType)
  }

  function AsBool(j: Json): Result<bool, DecodeError> {
    match j
    case JBool(b) => Ok(b)
    case JNull => Ok(false)
    case _ => Err(WrongType)
  }

  function AsTime(j: Json): Result<int, DecodeError> {
    match j
    case JTime(t) => Ok(t)
    case JNull => Ok(ZERO_TIME)
    case _ => Err(WrongType)
  }

  function IdOfText(s: string): Result<ObjectId, DecodeError> {
    if s == "" then Ok(NIL_ID)
    else if FromHex(s).Some? then Ok(FromHex(s).value)
    else Err(BadId)
  }

  /** As a text, or in the extended form {"$oid": text}. */
  function AsObjectId(j: Json): Result<ObjectId, DecodeError> {
    match j
    case JString(s) => IdOfText(s)
    case JNull => Ok(NIL_ID)
    case JObject(ms) => if "$oid" in ms && ms["$oid"].JString? then IdOfText(ms["$oid"].s) else Err(BadId)
    case _ => Err(WrongType)
  }

  function AsStrings(j: Json): Result<seq<string>, DecodeError> {
    match j
    case JArray(items) =>
      if forall i :: 0 <= i < |items| ==> AsString(items[i]).Ok? then
        Ok(seq(|items|, i requires 0 <= i < |items| && AsString(items[i]).Ok? => AsString(items[i]).value))
      else Err(WrongType)
    case JNull => Ok([])
    case _ => Err(WrongType)
  }

  function DecodeUser(j: Json): Result<User, DecodeError> {
    match AsMembers(j)
    case Err(e) => Err(e)
    case Ok(ms) =>
      var id, name := AsObjectId(Member(ms, "id")), AsString(Member(ms, "name"));
      if id.Err? then Err(id.error) else if name.Err? then Err(name.error)
      else Ok(User(id.value, name.value, ""))
  }

  function DecodeMessage(j: Json): Result<Message, DecodeError> {
    match AsMembers(j)
    case Err(e) => Err(e)
    case Ok(ms) => MessageOf(ms)
  }

  function MessageOf(ms: Members): Result<Message, DecodeError> {
    var id, chatId := AsObjectId(Member(ms, "id")), AsObjectId(Member(ms, "chatId"));
    var authorId, content := AsString(Member(ms, "authorId")), AsString(Member(ms, "content"));
    var kind, status := AsString(Member(ms, "type")), AsString(Member(ms, "status"));
    var createdAt, modifiedAt := AsTime(Member(ms, "createdAt")), AsTime(Member(ms, "modifiedAt"));
    var hiddenFor, deleted := AsStrings(Member(ms, "hiddenFor")), AsBool(Member(ms, "deleted"));
    var author := DecodeUser(Member(ms, "author"));
    if id.Err? then Err(id.error) else if chatId.Err? then Err(chatId.error)
    else if author.Err? then Err(author.error)
    else if authorId.Err? || content.Err? || kind.Err? || status.Err? || createdAt.Err? || modifiedAt.Err?
            || hiddenFor.Err? || deleted.Err? then Err(WrongType)
    else Ok(Message(id.value, chatId.value, authorId.value, content.value, kind.value, createdAt.value,
                    modifiedAt.value, status.value, hiddenFor.value, deleted.value, author.value))
  }

  function DecodeFields(j: Json): Result<MessageEventDetails, DecodeError> {
    match AsMembers(j)
    case Err(e) => Err(e)
    case Ok(ms) =>
      var id, content := AsString(Member(ms, "id")), AsString(Member(ms, "content"));
      var kind, status := AsString(Member(ms, "type")), AsString(Member(ms, "status"));
      var hidden, deleted := AsBool(Member(ms, "hidden")), AsBool(Member(ms, "deleted"));
      if id.Err? || content.Err? || kind.Err? || status.Err? || hidden.Err? || deleted.Err? then Err(WrongType)
      else Ok(MessageEventDetails(id.value, content.value, kind.value, status.value, hidden.value, deleted.value))
  }

  function DecodeChat(j: Json): Result<ChatInfo, DecodeError> {
    match AsMembers(j)
    case Err(e) => Err(e)
    case Ok(ms) =>
      var id, name := AsString(Member(ms, "Id")), AsString(Member(ms, "Name"));
      if id.Err? || name.Err? then Err(WrongType) else Ok(ChatInfo(id.value, name.value))
  }

  function TypeOfCode(n: int): Option<EventType> {
    if n == 0 then Some(NewMessage) else if n == 1 then Some(UpdateMessage)
    else if n == 2 then Some(EditMessage) else if n == 3 then Some(HideMessage)
    else if n == 4 then Some(DeleteMessage) else if n == 5 then Some(PinMessage)
    else if n == 6 then Some(NewChat) else None
  }

  datatype Envelope = Envelope(code: int, chatId: string, userId: string, raw: Option<Json>)

  /** The part both decoders share: the details stay raw, and a missing member stays empty. */
  function DecodeEnvelope(j: Json): Result<Envelope, DecodeError> {
    match AsMembers(j)
    case Err(e) => Err(e)
    case Ok(ms) =>
      var code := Member(ms, "type");
      var chatId, userId := AsString(Member(ms, "chatId")), AsString(Member(ms, "userId"));
      if !(code.JInt? || code.JNull?) || chatId.Err? || userId.Err? then Err(WrongType)
      else Ok(Envelope(if code.JInt? then code.n else 0, chatId.value, userId.value,
                       if "details" in ms then Some(ms["details"]) else None))
  }

  /** The event type decides the type of the details. */
  function DetailsOf(kind: EventType, raw: Json): Result<Details, DecodeError> {
    match kind
    case UpdateMessage => (var d := DecodeMessage(raw); if d.Ok? then Ok(MessageValue(d.value)) else Err(d.error))
    case NewChat => (var d := DecodeChat(raw); if d.Ok? then Ok(ChatPointer(d.value)) else Err(d.error))
    case _ => (var d := DecodeFields(raw); if d.Ok? then Ok(Fields(d.value)) else Err(d.error))
  }

  /** The chat server's decoder. */
  function DecodeEvent(j: Json): Result<ChatEvent, DecodeError> {
    match DecodeEnvelope(j)
    case Err(e) => Err(e)
    case Ok(env) =>
      if TypeOfCode(env.code).None? then Err(UnknownEvent)
      else if env.raw.None? then Err(NoDetails)
      else
        var kind := TypeOfCode(env.code).value;
        var details := DetailsOf(kind, env.raw.value);
        if details.Err? then Err(details.error)
        else Ok(ChatEvent(kind, env.chatId, env.userId, details.value))
  }

  datatype Notification =
    | ChatAdded(chat: ChatInfo)
    | MessageChanged(code: int, chatId: string, userId: string, m: Message)

  /** The hub's decoder: the details of every event but a new chat are a whole message. */
  function DecodeNotification(j: Json): Result<Notification, DecodeError> {
    match DecodeEnvelope(j)
    case Err(e) => Err(e)
    case Ok(env) => NotificationOf(env)
  }

  function NotificationOf(env: Envelope): Result<Notification, DecodeError> {
    if env.raw.None? then Err(NoDetails)
    else if env.code == TypeCode(NewChat) then
      if env.raw == Some(JNull) then Err(NilChat)
      else (var d := DecodeChat(env.raw.value); if d.Ok? then Ok(ChatAdded(d.value)) else Err(d.error))
    else
      (var d := DecodeMessage(env.raw.value);
       if d.Ok? then Ok(MessageChanged(env.code, env.chatId, env.userId, d.value)) else Err(d.error))
  }

  // ---- Round trips ----

  lemma StringsRoundTrip(ss: seq<string>)
    ensures AsStrings(EncodeStrings(ss)) == Ok(ss)
  {
    var items := EncodeStrings(ss).items;
    assert forall i :: 0 <= i < |ss| ==> AsString(items[i]) == Ok(ss[i]);
    assert AsStrings(EncodeStrings(ss)).value == ss;
  }

  lemma ObjectIdRoundTrip(id: ObjectId)
    ensures AsObjectId(JString(Hex(id))) == Ok(id)
  {
    HexRoundTrip(id);
  }

  ghost predicate HasMembersOf(ms: Members, m: Message) {
    && Member(ms, "id") == JString(Hex(m.id)) && Member(ms, "chatId") == JString(Hex(m.chatId))
    && Member(ms, "authorId") == JString(m.authorId) && Member(ms, "content") == JString(m.content)
    && Member(ms, "type") == JString(m.kind) && Member(ms, "status") == JString(m.status)
    && Member(ms, "createdAt") == JTime(m.createdAt) && Member(ms, "modifiedAt") == JTime(m.modifiedAt)
    && Member(ms, "hiddenFor") == EncodeStrings(m.hiddenFor) && Member(ms, "deleted") == JBool(m.deleted)
    && Member(ms, "author") == EncodeUser(m.author)
  }

  lemma EncodedMembers(m: Message)
    ensures HasMembersOf(EncodeMessage(m).members, m)
  {
  }

  lemma MessageOfMembers(ms: Members, m: Message)
    requires HasMembersOf(ms, m)
    ensures MessageOf(ms) == Ok(ThroughJson(m))
  {
    ObjectIdRoundTrip(m.id);
    ObjectIdRoundTrip(m.chatId);
    ObjectIdRoundTrip(m.author.id);
    StringsRoundTrip(m.hiddenFor);
    assert DecodeUser(EncodeUser(m.author)) == Ok(WithoutPassword(m.author));
  }

  /** A message survives JSON except for its author's password. */
  lemma MessageRoundTrip(m: Message)
    ensures DecodeMessage(EncodeMessage(m)) == Ok(ThroughJson(m))
  {
    EncodedMembers(m);
    MessageOfMembers(EncodeMessage(m).members, m);
  }

  /** What the receiver of an event gets: a pointer to a message arrives as a message without the password. */
  function Received(e: ChatEvent): ChatEvent {
    if e.details.MessagePointer? then e.(details := MessageValue(ThroughJson(e.details.m))) else e
  }

  lemma FieldsRoundTrip(d: MessageEventDetails)
    ensures DecodeFields(EncodeFields(d)) == Ok(d)
  {
  }

  lemma ChatRoundTrip(c: ChatInfo)
    ensures DecodeChat(EncodeChat(c)) == Ok(c)
  {
  }

  lemma EnvelopeRoundTrip(e: ChatEvent)
    ensures DecodeEnvelope(EncodeEvent(e)) ==
            Ok(Envelope(TypeCode(e.kind), e.chatId, e.userId, Some(EncodeDetails(e.details))))
  {
  }

  /** Events built by the publishing functions have details of the type their receiver expects, as pointer or value. */
  lemma PublishedDetails(e: ChatEvent)
    requires Published(e)
    ensures !e.kind.PinMessage?
    ensures if e.kind.UpdateMessage? then e.details.MessagePointer?
            else if e.kind.NewChat? then e.details.ChatPointer?
            else e.details.Fields?
  {
  }

  lemma DetailsRoundTrip(e: ChatEvent)
    requires if e.kind.UpdateMessage? then e.details.MessagePointer?
             else if e.kind.NewChat? then e.details.ChatPointer?
             else e.details.Fields?
    ensures DetailsOf(e.kind, EncodeDetails(e.details)) == Ok(Received(e).details)
  {
    match e.details
    case MessagePointer(m) => MessageRoundTrip(m);
    case Fields(d) => FieldsRoundTrip(d);
    case ChatPointer(c) => ChatRoundTrip(c);
  }

  lemma EventRoundTrip(e: ChatEvent)
    requires Published(e)
    ensures DecodeEvent(EncodeEvent(e)) == Ok(Received(e))
  {
    PublishedDetails(e);
    EnvelopeRoundTrip(e);
    DetailsRoundTrip(e);
    assert TypeOfCode(TypeCode(e.kind)) == Some(e.kind);
  }

  /** The type each handler asserts for its argument; there is no handler for a pin. */
  predicate HandlerAccepts(kind: EventType, d: Details) {
    match kind
    case UpdateMessage => d.MessageValue?
    case NewChat => d.ChatPointer?
    case PinMessage => false
    case _ => d.Fields?
  }

  /** Any tree at all: what decodes is accepted by its handler, except a pin. */
  lemma DecodedEventsPassTheirAssertion(j: Json)
    requires DecodeEvent(j).Ok?
    ensures HandlerAccepts(DecodeEvent(j).value.kind, DecodeEvent(j).value.details) <==>
            !DecodeEvent(j).value.kind.PinMessage?
  {
  }

  lemma NotifiedMessage(env: Envelope, m: Message)
    requires env.code != TypeCode(NewChat) && env.raw == Some(EncodeMessage(m))
    ensures NotificationOf(env) == Ok(MessageChanged(env.code, env.chatId, env.userId, ThroughJson(m)))
  {
    MessageRoundTrip(m);
  }

  /** The chat server's after-image of a message reaches every hub whole, minus the password. */
  lemma NotificationRoundTrip(kind: EventType, chatId: string, userId: string, d: Details)
    requires !kind.NewChat? && (d.MessageValue? || d.MessagePointer?)
    ensures DecodeNotification(EncodeEvent(ChatEvent(kind, chatId, userId, d))) ==
            Ok(MessageChanged(TypeCode(kind), chatId, userId, ThroughJson(d.m)))
  {
    EnvelopeRoundTrip(ChatEvent(kind, chatId, userId, d));
    NotifiedMessage(Envelope(TypeCode(kind), chatId, userId, Some(EncodeDetails(d))), d.m);
  }

  lemma ChatNotificationRoundTrip(chatId: string, userId: string, chat: ChatInfo)
    ensures DecodeNotification(EncodeEvent(ChatEvent(NewChat, chatId, userId, ChatPointer(chat)))) ==
            Ok(ChatAdded(chat))
  {
  }

  // ---- The form on the wire ----

  /** The event types in the order of their codes. */
  const EVENT_TYPES: seq<EventType> :=
    [NewMessage, UpdateMessage, EditMessage, HideMessage, DeleteMessage, PinMessage, NewChat]

  lemma CodesCountUp(t: EventType, n: int)
    ensures 0 <= TypeCode(t) < |EVENT_TYPES| && EVENT_TYPES[TypeCode(t)] == t
    ensures TypeOfCode(n) == if 0 <= n < |EVENT_TYPES| then Some(EVENT_TYPES[n]) else None
  {
  }

  /** What is missing, or null, is the zero value of its type. */
  lemma MissingIsZero()
    ensures DecodeFields(JObject(map[])) == DecodeFields(JNull) == Ok(NO_FIELDS)
    ensures DecodeChat(JObject(map[])) == DecodeChat(JNull) == Ok(ChatInfo("", ""))
    ensures DecodeMessage(JObject(map[])) == DecodeMessage(JNull) ==
            Ok(Message(NIL_ID, NIL_ID, "", "", "", ZERO_TIME, ZERO_TIME, "", [], false, NO_USER))
  {
  }

  /** An event is refused whole when its envelope does not decode, its code is unknown or it has no details. */
  lemma EventRefused(j: Json)
    ensures DecodeEvent(j).Ok? ==>
              && DecodeEnvelope(j).Ok? && DecodeEnvelope(j).value.raw.Some?
              && 0 <= DecodeEnvelope(j).value.code < |EVENT_TYPES|
              && DecodeEvent(j).value.kind == EVENT_TYPES[DecodeEnvelope(j).value.code]
              && DecodeEvent(j).value.chatId == DecodeEnvelope(j).value.chatId
              && DecodeEvent(j).value.userId == DecodeEnvelope(j).value.userId
  {
  }

  ghost predicate HasFieldsOf(ms: Members, d: MessageEventDetails) {
    && Member(ms, "id") == JString(d.id) && Member(ms, "content") == JString(d.content)
    && Member(ms, "type") == JString(d.kind) && Member(ms, "status") == JString(d.status)
    && Member(ms, "hidden") == JBool(d.hidden) && Member(ms, "deleted") == JBool(d.deleted)
  }

  ghost predicate HasChatOf(ms: Members, c: ChatInfo) {
    Member(ms, "Id") == JString(c.id) && Member(ms, "Name") == JString(c.name)
  }

  lemma EncodedFields(d: MessageEventDetails)
    ensures EncodeFields(d).JObject? && HasFieldsOf(EncodeFields(d).members, d)
  {
  }

  /** The members by which the other programs know an event's details, for each kind of details. */
  lemma DetailsOnTheWire(d: Details)
    ensures EncodeDetails(d).JObject?
    ensures var ms := EncodeDetails(d).members;
            match d
            case Fields(fields) => HasFieldsOf(ms, fields)
            case MessageValue(m) => HasMembersOf(ms, m)
            case MessagePointer(m) => HasMembersOf(ms, m)
            case ChatPointer(c) => HasChatOf(ms, c)
  {
    match d
    case Fields(fields) => EncodedFields(fields);
    case MessageValue(m) => EncodedMembers(m);
    case MessagePointer(m) => EncodedMembers(m);
    case ChatPointer(c) =>
  }

  /** And those of the event itself. */
  lemma EventOnTheWire(e: ChatEvent)
    ensures EncodeEvent(e).JObject?
    ensures var ms := EncodeEvent(e).members;
      && Member(ms, "type") == JInt(TypeCode(e.kind))
      && Member(ms, "chatId") == JString(e.chatId) && Member(ms, "userId") == JString(e.userId)
      && Member(ms, "details") == EncodeDetails(e.details)
  {
  }

  // ---- What is accepted ----

  predicate TextOrNull(j: Json) { j.JString? || j.JNull? }

  predicate BoolOrNull(j: Json) { j.JBool? || j.JNull? }

  predicate TimeOrNull(j: Json) { j.JTime? || j.JNull? }

  predicate IdText(s: string) { s == "" || HexText(s) }

  /** A text that is empty or parses, such a text in the extended form, or null. */
  predicate IdOrNull(j: Json) {
    || j.JNull? || (j.JString? && IdText(j.s))
    || (j.JObject? && "$oid" in j.members && j.members["$oid"].JString? && IdText(j.members["$oid"].s))
  }

  predicate TextsOrNull(j: Json) {
    j.JNull? || (j.JArray? && forall i :: 0 <= i < |j.items| ==> TextOrNull(j.items[i]))
  }

  predicate UserOrNull(j: Json) {
    j.JNull? || (j.JObject? && IdOrNull(Member(j.members, "id")) && TextOrNull(Member(j.members, "name")))
  }

  /** The details of an edit, hide, delete or post are accepted exactly when every known member has its type. */
  lemma FieldsAcceptedExactly(ms: Members)
    ensures DecodeFields(JObject(ms)).Ok? <==>
            && TextOrNull(Member(ms, "id")) && TextOrNull(Member(ms, "content")) && TextOrNull(Member(ms, "type"))
            && TextOrNull(Member(ms, "status")) && BoolOrNull(Member(ms, "hidden")) && BoolOrNull(Member(ms, "deleted"))
  {
  }

  lemma IdAcceptedExactly(j: Json)
    ensures AsObjectId(j).Ok? <==> IdOrNull(j)
    ensures AsObjectId(j).Ok? && j.JString? && j.s != "" ==> FromHex(j.s) == Some(AsObjectId(j).value)
    ensures AsObjectId(j).Ok? && j.JObject? ==> AsObjectId(j) == AsObjectId(j.members["$oid"])
  {
  }

  lemma TextsAcceptedExactly(j: Json)
    ensures AsStrings(j).Ok? <==> TextsOrNull(j)
  {
    if j.JArray? {
      assert forall i :: 0 <= i < |j.items| ==> (AsString(j.items[i]).Ok? <==> TextOrNull(j.items[i]));
    }
  }

  lemma UserAcceptedExactly(j: Json)
    ensures DecodeUser(j).Ok? <==> UserOrNull(j)
  {
    if j.JObject? {
      IdAcceptedExactly(Member(j.members, "id"));
    }
  }

  /** And a message exactly when its ids parse and every other known member has its type. */
  lemma MessageAcceptedExactly(ms: Members)
    ensures DecodeMessage(JObject(ms)).Ok? <==>
            && IdOrNull(Member(ms, "id")) && IdOrNull(Member(ms, "chatId")) && UserOrNull(Member(ms, "author"))
            && TextOrNull(Member(ms, "authorId")) && TextOrNull(Member(ms, "content"))
            && TextOrNull(Member(ms, "type")) && TextOrNull(Member(ms, "status"))
            && TimeOrNull(Member(ms, "createdAt")) && TimeOrNull(Member(ms, "modifiedAt"))
            && TextsOrNull(Member(ms, "hiddenFor")) && BoolOrNull(Member(ms, "deleted"))
  {
    IdAcceptedExactly(Member(ms, "id"));
    IdAcceptedExactly(Member(ms, "chatId"));
    UserAcceptedExactly(Member(ms, "author"));
    TextsAcceptedExactly(Member(ms, "hiddenFor"));
  }

  /** Why an event is refused: its code is unknown, or the code is known and there are no details; and a hub that is
      sent a null chat meets it after decoding, and no other notification does that. */
  lemma RefusalsToldApart(j: Json)
    requires DecodeEnvelope(j).Ok?
    ensures var code, raw := DecodeEnvelope(j).value.code, DecodeEnvelope(j).value.raw;
      && (DecodeEvent(j) == Err(UnknownEvent) <==> !(0 <= code < |EVENT_TYPES|))
      && (DecodeEvent(j) == Err(NoDetails) <==> 0 <= code < |EVENT_TYPES| && raw.None?)
      && (DecodeNotification(j) == Err(NoDetails) <==> raw.None?)
      && (DecodeNotification(j) == Err(NilChat) <==> raw == Some(JNull) && code == |EVENT_TYPES| - 1)
  {
    ErrorsOfMembers(DecodeEnvelope(j).value.raw.GetOr(JNull));
  }

  /** Members are refused for their type or for an id that does not parse, and for nothing else. */
  lemma ErrorsOfMembers(j: Json)
    ensures DecodeMessage(j).Err? ==> DecodeMessage(j).error.WrongType? || DecodeMessage(j).error.BadId?
    ensures DecodeFields(j).Err? ==> DecodeFields(j).error.WrongType?
    ensures DecodeChat(j).Err? ==> DecodeChat(j).error.WrongType?
  {
  }

  /** A text that is no id where an id is expected is reported as such, whatever else is wrong with the message. */
  lemma BadIdReported(ms: Members, s: string)
    requires !IdText(s)
    ensures Member(ms, "id") == JString(s) ==> DecodeMessage(JObject(ms)) == Err(BadId)
    ensures IdOrNull(Member(ms, "id")) && Member(ms, "chatId") == JString(s) ==>
              DecodeMessage(JObject(ms)) == Err(BadId)
  {
    IdAcceptedExactly(Member(ms, "id"));
  }
}

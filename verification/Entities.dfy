/** The values that move through the system: users, messages as the program holds them, and documents as MongoDB
    holds them. */
module Entities {
  import opened Wrappers
  import opened ObjectIds

  datatype User = User(id: ObjectId, name: string, password: string)

  const NO_USER := User(NIL_ID, "", "")

  /** The in-memory message. Times are nanoseconds since the epoch. */
  datatype Message = Message(
    id: ObjectId, chatId: ObjectId, authorId: string, content: string, kind: string,
    createdAt: int, modifiedAt: int, status: string, hiddenFor: seq<string>, deleted: bool, author: User)

  /** The stored document: the author is a reference, not a copy. */
  datatype Doc = Doc(
    id: ObjectId, chatId: ObjectId, authorId: ObjectId, content: string, kind: string,
    createdAt: int, modifiedAt: int, status: string, hiddenFor: seq<string>, deleted: bool)

  datatype ChatDoc = ChatDoc(id: ObjectId, name: string)

  /** BSON dates keep whole milliseconds, rounding down. */
  function ToMillis(ns: int): (t: int)
    ensures t <= ns < t + 1_000_000 && t % 1_000_000 == 0
  {
    ns / 1_000_000 * 1_000_000
  }

  /** An author text that does not parse is logged and stored as the nil id. */
  function FromInternal(m: Message): Doc {
    Doc(m.id, m.chatId, FromHex(m.authorId).GetOr(NIL_ID), m.content, m.kind,
        ToMillis(m.createdAt), ToMillis(m.modifiedAt), m.status, m.hiddenFor, m.deleted)
  }

  function ToInternal(d: Doc, author: User): Message {
    Message(d.id, d.chatId, Hex(author.id), d.content, d.kind,
            d.createdAt, d.modifiedAt, d.status, d.hiddenFor, d.deleted, author)
  }

  /** The JSON form of a user has no password field. */
  function WithoutPassword(u: User): User { u.(password := "") }

  /** What comes back from Redis after a message was stored there as JSON. */
  function ThroughJson(m: Message): Message { m.(author := WithoutPassword(m.author)) }

  /** The view of a message on which the cache and the database can agree: no password, whole
      milliseconds, and the author text in the form the database join prints it. */
  function Visible(m: Message): Message {
    m.(authorId := Hex(m.author.id), author := WithoutPassword(m.author),
       createdAt := ToMillis(m.createdAt), modifiedAt := ToMillis(m.modifiedAt))
  }

  function VisibleAll(ms: seq<Message>): (vs: seq<Message>)
    ensures |vs| == |ms|
    ensures forall i :: 0 <= i < |ms| ==> vs[i] == Visible(ms[i])
  {
    seq(|ms|, i requires 0 <= i < |ms| => Visible(ms[i]))
  }

  /** The message says what this document and its author say, field by field; it may carry a finer time, another
      spelling of the author's id and another password. */
  predicate ReadsAs(m: Message, d: Doc, u: User) {
    && m.id == d.id && m.chatId == d.chatId && m.content == d.content && m.kind == d.kind
    && m.status == d.status && m.hiddenFor == d.hiddenFor && m.deleted == d.deleted
    && ToMillis(m.createdAt) == ToMillis(d.createdAt) && ToMillis(m.modifiedAt) == ToMillis(d.modifiedAt)
    && FromHex(m.authorId) == Some(d.authorId)
    && m.author.id == d.authorId && m.author.name == u.name
  }

  /** Being the same in all that is visible means just that. */
  lemma ReadsAsExactly(m: Message, d: Doc, u: User)
    requires u.id == d.authorId && FromHex(m.authorId) == Some(m.author.id)
    ensures ReadsAs(m, d, u) <==> Visible(m) == Visible(ToInternal(d, u))
  {
    HexInjective(m.author.id, u.id);
    var a, b := Visible(m), Visible(ToInternal(d, u));
    assert a == b <==>
           && a.id == b.id && a.chatId == b.chatId && a.authorId == b.authorId && a.content == b.content
           && a.kind == b.kind && a.createdAt == b.createdAt && a.modifiedAt == b.modifiedAt
           && a.status == b.status && a.hiddenFor == b.hiddenFor && a.deleted == b.deleted && a.author == b.author;
  }
}

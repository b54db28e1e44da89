/** The chat server's handler: decode a delivery, apply it to the store, broadcast the after-image, acknowledge. */
module ChatServer {
  import opened Wrappers
  import opened ObjectIds
  import opened Entities
  import opened Events
  import opened Codec
  import S = Store
  import opened StoreService

  /** What applying one event comes to: details to broadcast, an error, or a panic that stops the process. */
  datatype Outcome = Broadcast(details: Details) | Failed | Panics

  function SentMessage(chat: ObjectId, authorId: string, d: MessageEventDetails, now: int): Message {
    Message(NIL_ID, chat, authorId, d.content, d.kind, now, now, "sent", [], false, NO_USER)
  }

  function FromStore(r: Result<Message, S.StoreError>): Outcome {
    if r.Ok? then Broadcast(MessagePointer(r.value)) else Failed
  }

  /** The effect of one decoded event. `now` and `freshId` come from the clock and from MongoDB. */
  function ApplyEvent(s: S.StoreState, e: ChatEvent, now: int, freshId: ObjectId): (S.StoreState, Outcome) {
    match (e.kind, e.details)
    case (NewMessage, Fields(d)) =>
      if FromHex(e.chatId).None? then (s, Panics)
      else
        var saved := S.SaveMessage(s, SentMessage(FromHex(e.chatId).value, e.userId, d, now), freshId);
        (saved.state, if saved.error.Some? then Failed else Broadcast(MessagePointer(saved.message)))
    case (UpdateMessage, MessageValue(m)) =>
      var saved := S.SaveMessage(s, m, freshId);
      (saved.state, Broadcast(MessageValue(saved.message)))
    case (EditMessage, Fields(d)) =>
      var (s', r) := S.TouchMessage(s, d.id, S.SetContent(d.content));
      (s', FromStore(r))
    case (HideMessage, Fields(d)) =>
      var (s', r) := S.TouchMessage(s, d.id, if d.hidden then S.AddHidden(e.userId) else S.PullHidden(e.userId));
      (s', FromStore(r))
    case (DeleteMessage, Fields(d)) =>
      var (s', r) := S.TouchMessage(s, d.id, S.MarkDeleted);
      (s', FromStore(r))
    case (NewChat, ChatPointer(c)) =>
      var (s', id) := S.SaveChat(s, c.name, freshId);
      (s', Broadcast(ChatPointer(ChatInfo(id, c.name))))
    case _ => (s, Failed)
  }

  // ---- What can be encoded ----

  /** The first moment of year 0 and of year 10000, in UTC. */
  const YEAR_0 := -62_167_219_200 * 1_000_000_000
  const YEAR_10000 := 253_402_300_800 * 1_000_000_000

  /** Go's encoder refuses a time whose year has not four digits. */
  predicate TimesFit(m: Message) {
    YEAR_0 <= m.createdAt < YEAR_10000 && YEAR_0 <= m.modifiedAt < YEAR_10000
  }

  /** The largest offset from UTC that a time's text may carry. */
  const MAX_OFFSET := (23 * 60 + 59) * 60 * 1_000_000_000

  /** Some zone gives this time a year of four digits, so JSON can carry it. */
  predicate HasText(ns: int) {
    YEAR_0 - MAX_OFFSET <= ns < YEAR_10000 + MAX_OFFSET
  }

  const DAY := 24 * 60 * 60 * 1_000_000_000

  /** The epoch is day 719528 of the calendar, which repeats every four hundred years, and year 0 is a leap year. */
  lemma Calendar()
    ensures YEAR_0 == -719_528 * DAY && YEAR_10000 == YEAR_0 + 25 * 146_097 * DAY && ZERO_TIME == YEAR_0 + 366 * DAY
  {
  }

  predicate DocTimesFit(d: Doc) {
    YEAR_0 <= d.createdAt < YEAR_10000 && YEAR_0 <= d.modifiedAt < YEAR_10000
  }

  /** What MongoDB or the clock gave has its times in UTC; what came as JSON keeps the zone it came with, and the year
      that was decoded there. */
  predicate Encodable(d: Details) {
    d.MessagePointer? ==> TimesFit(d.m)
  }

  /** Everything one delivery does: the new store, the acknowledgements, the notifications, and how it ended. */
  datatype Handling = Handling(state: S.StoreState, acks: nat, sent: seq<ChatEvent>, end: HandleEnd)

  datatype HandleEnd = Succeeded | ReturnedError | Panicked

  /** `accepted` says whether the broker takes the notification. */
  function HandleDelivery(s: S.StoreState, body: Json, now: int, freshId: ObjectId, accepted: bool): Handling {
    match DecodeEvent(body)
    case Err(_) => Handling(s, 1, [], ReturnedError)
    case Ok(e) =>
      match ApplyEvent(s, e, now, freshId)
      case (s', Panics) => Handling(s', 0, [], Panicked)
      case (s', Failed) => Handling(s', 1, [], ReturnedError)
      case (s', Broadcast(details)) =>
        if !Encodable(details) then Handling(s', 2, [], ReturnedError)
        else if !accepted then Handling(s', 1, [], ReturnedError)
        else Handling(s', 1, [e.(details := details)], Succeeded)
  }

  class Delivery {
    const body: Json
    var acks: nat

    constructor (body: Json)
      ensures this.body == body && acks == 0
    {
      this.body := body;
      acks := 0;
    }

    method Ack()
      modifies this`acks
      ensures acks == old(acks) + 1
    {
      acks := acks + 1;
    }
  }

  class Publisher {
    var sent: seq<ChatEvent>

    constructor ()
      ensures sent == []
    {
      sent := [];
    }

    method Publish(e: ChatEvent, accepted: bool) returns (ok: bool)
      modifies this`sent
      ensures ok == accepted
      ensures sent == if accepted then old(sent) + [e] else old(sent)
    {
      if accepted {
        sent := sent + [e];
      }
      return accepted;
    }
  }

  class Handler {
    const store: MongodbStore

    constructor (store: MongodbStore)
      ensures this.store == store
    {
      this.store := store;
    }

    method Apply(e: ChatEvent, now: int, freshId: ObjectId) returns (r: Outcome)
      modifies store, store.cache
      ensures (store.State(), r) == ApplyEvent(old(store.State()), e, now, freshId)
    {
      match (e.kind, e.details)
      case (NewMessage, Fields(d)) =>
        var chat := FromHex(e.chatId);
        if chat.None? {
          return Panics;
        }
        var msg, error := store.SaveMessage(SentMessage(chat.value, e.userId, d, now), freshId);
        return if error.Some? then Failed else Broadcast(MessagePointer(msg));
      case (UpdateMessage, MessageValue(m)) =>
        var msg, _ := store.SaveMessage(m, freshId);
        return Broadcast(MessageValue(msg));
      case (EditMessage, Fields(d)) =>
        var edited := store.UpdateMessageContent(d.id, d.content);
        return FromStore(edited);
      case (HideMessage, Fields(d)) =>
        var hidden := store.SetHideMessage(d.id, e.userId, d.hidden);
        return FromStore(hidden);
      case (DeleteMessage, Fields(d)) =>
        var deleted := store.DeleteMessage(d.id);
        return FromStore(deleted);
      case (NewChat, ChatPointer(c)) =>
        var id := store.SaveChat(c.name, freshId);
        return Broadcast(ChatPointer(ChatInfo(id, c.name)));
      case _ =>
        return Failed;
    }

    /** `broadcast`, which acknowledges the delivery itself when the notification cannot be encoded. */
    method SendNotification(d: Delivery, pub: Publisher, e: ChatEvent, accepted: bool) returns (ok: bool)
      modifies d`acks, pub`sent
      ensures ok == (Encodable(e.details) && accepted)
      ensures d.acks == old(d.acks) + (if Encodable(e.details) then 0 else 1)
      ensures pub.sent == if ok then old(pub.sent) + [e] else old(pub.sent)
    {
      if !Encodable(e.details) {
        d.Ack();
        return false;
      }
      ok := pub.Publish(e, accepted);
    }

    method Handle(d: Delivery, pub: Publisher, now: int, freshId: ObjectId, accepted: bool) returns (end: HandleEnd)
      modifies d`acks, pub`sent, store, store.cache
      ensures var h := HandleDelivery(old(store.State()), d.body, now, freshId, accepted);
        && store.State() == h.state
        && d.acks == old(d.acks) + h.acks
        && pub.sent == old(pub.sent) + h.sent
        && end == h.end
    {
      var event := DecodeEvent(d.body);
      if event.Err? {
        d.Ack();
        return ReturnedError;
      }
      var outcome := Apply(event.value, now, freshId);
      if outcome.Panics? {
        return Panicked;
      }
      if outcome.Failed? {
        d.Ack();
        return ReturnedError;
      }
      var ok := SendNotification(d, pub, event.value.(details := outcome.details), accepted);
      d.Ack();
      return if ok then Succeeded else ReturnedError;
    }
  }

  /** The delivery is a new message for a chat text that does not parse: building the message panics. */
  predicate PoisonPost(body: Json) {
    && DecodeEvent(body).Ok?
    && DecodeEvent(body).value.kind.NewMessage?
    && FromHex(DecodeEvent(body).value.chatId).None?
  }

  /** The number of acknowledgements, for every delivery: none exactly when handling panics, two exactly when there
      was something to broadcast that could not be encoded, and one otherwise. What was sent had reached the store. */
  lemma AckCount(s: S.StoreState, body: Json, now: int, freshId: ObjectId, accepted: bool)
    ensures var h := HandleDelivery(s, body, now, freshId, accepted);
            var (s', o) :=
              if DecodeEvent(body).Ok? then ApplyEvent(s, DecodeEvent(body).value, now, freshId) else (s, Failed);
      && h.state == s'
      && (h.acks == 0 <==> PoisonPost(body))
      && (h.acks == 2 <==> o.Broadcast? && !Encodable(o.details))
      && (h.acks == 1 <==> !PoisonPost(body) && (o.Broadcast? ==> Encodable(o.details)))
      && (h.sent != [] <==> o.Broadcast? && Encodable(o.details) && accepted)
      && (h.sent != [] <==> h.end == Succeeded)
      && (h.acks == 0 ==> h.state == s)
  {
  }

  /** A published post is never acknowledged exactly when its chat id is malformed. */
  lemma PostIsPoisonExactly(chat: string, m: Message, author: string)
    ensures PoisonPost(EncodeEvent(NewMessageEvent(chat, m, author))) <==> FromHex(chat).None?
  {
    EventRoundTrip(NewMessageEvent(chat, m, author));
  }

  /** How handling ends: in a panic exactly for a post to a malformed chat id, in success exactly when a notification
      was sent, and in an error otherwise. What cannot be decoded, and a pin, is acknowledged once and does nothing
      else. */
  lemma EndsExactly(s: S.StoreState, body: Json, now: int, freshId: ObjectId, accepted: bool)
    ensures var h := HandleDelivery(s, body, now, freshId, accepted);
      && (h.end == Panicked <==> PoisonPost(body))
      && (h.end == Succeeded <==> |h.sent| == 1)
      && (h.end != Succeeded <==> h.sent == [])
      && (h.end == Succeeded ==> DecodeEvent(body).Ok? && h.sent[0].(details := DecodeEvent(body).value.details) ==
                                                          DecodeEvent(body).value)
      && (DecodeEvent(body).Err? || DecodeEvent(body).value.kind.PinMessage? ==>
            h == Handling(s, 1, [], ReturnedError))
  {
    if DecodeEvent(body).Ok? {
      DecodedEventsPassTheirAssertion(body);
    }
  }
}

/** Event dispatch from the message bus: the Pub/Sub push handler backed by
    Firestore (broadcaster-api/src/services/pubsub-handler.js) and its
    MongoDB-backed twin (broadcaster-api/src/controllers/subscription.controller.js).
    Each handler checks the push envelope, decodes the event, resolves its
    recipient against the registry, writes a notification frame to every target
    with per-target failure isolation, asks the store to mark the notification
    delivered when there were targets, and acknowledges the bus. */
module Dispatch {
  import opened Wrappers
  import opened Registry
  import opened Sse

  /** The push body `{message: {data}}`. `None` is an absent field; an empty `data` is falsy. */
  datatype Envelope = Envelope(message: Option<PushMessage>)
  datatype PushMessage = PushMessage(data: Option<string>)

  /** The decoded event, as far as the handlers read it. An absent `recipient` makes
      the read of `recipient.type` throw. */
  datatype BusEvent = BusEvent(messageId: string, recipient: Option<Recipient>, notification: Json, sender: Option<Json>)

  /** The pubsub handler's frame payload: exactly these four keys. */
  datatype DeliveryPayload = DeliveryPayload(messageId: string, notification: Json, recipient: Recipient, timestamp: string)

  /** The controller's frame payload: `status`, `createdAt` and `deliveredAt` come from
      the stored record and are absent (`undefined`, dropped by JSON) without one. */
  datatype StoredPayload = StoredPayload(
    messageId: string, notification: Json, recipient: Recipient, sender: Option<Json>,
    status: Option<string>, createdAt: Option<string>, deliveredAt: Option<string>, timestamp: string)

  /** A stored notification, as far as the broadcaster reads and updates it. */
  datatype StoredRecord = StoredRecord(status: string, createdAt: Option<string>, deliveredAt: Option<string>)

  /** The durable store, keyed by `messageId`. */
  type Store = map<string, StoredRecord>

  /** What the handler did, in order: a chunk written to a response, a store read, a store update. */
  datatype Effect = Sent(write: Write) | StoreRead(id: string) | StoreMarkDelivered(id: string)

  /** The HTTP answer: status code and body. */
  datatype Reply = Reply(code: nat, body: string)

  const InvalidFormat: Reply := Reply(400, "Invalid message format")

  function Ack(body: string): Reply {
    Reply(200, body)
  }

  /** `message` and `message.data` are present and truthy. */
  predicate WellFormedEnvelope(e: Envelope) {
    e.message.Some? && e.message.value.data.Some? && e.message.value.data.value != ""
  }

  function Data(e: Envelope): string
    requires WellFormedEnvelope(e)
  {
    e.message.value.data.value
  }

  /** Decoding succeeded and the event names a recipient, so routing can start. */
  predicate Routable(d: Option<BusEvent>) {
    d.Some? && d.value.recipient.Some?
  }

  /** `markAsDelivered`: status `delivered` and a fresh `deliveredAt`; a missing
      document is left missing. */
  function MarkDelivered(store: Store, id: string, now: string): (store': Store)
    ensures store'.Keys == store.Keys
    ensures id in store ==>
      store'[id].status == "delivered" && store'[id].deliveredAt == Some(now) && store'[id].createdAt == store[id].createdAt
    ensures forall k :: k in store && k != id ==> store'[k] == store[k]
  {
    if id in store then store[id := store[id].(status := "delivered", deliveredAt := Some(now))] else store
  }

  /** The delivered mark is unconditional: a notification already read goes back to `delivered`
      when the bus redelivers it to a connected user. */
  lemma MarkDeliveredOverwritesRead(store: Store, id: string, now: string)
    requires id in store && store[id].status == "read"
    ensures MarkDelivered(store, id, now)[id].status == "delivered"
  {
  }

  /** Recipient resolution, the same three-way split in both handlers. */
  function Resolve(reg: State, rcp: Recipient): seq<Conn> {
    if rcp.kind == Individual then
      match LookupUser(reg, rcp.id)
      case Some(c) => [c]
      case None => []
    else if rcp.kind == Group then GroupConns(reg, rcp.id)
    else if rcp.kind == Broadcast then AllUserConns(reg)
    else []
  }

  /** An individual gets its one registered response or nothing; a group gets its list;
      a broadcast gets every user's response once and nothing registered only under a
      group; any other type gets nothing. */
  lemma ResolveTargets(reg: State, rcp: Recipient)
    requires WellFormed(reg)
    ensures rcp.kind == Individual ==>
      && |Resolve(reg, rcp)| <= 1
      && (Resolve(reg, rcp) == [] <==> rcp.id !in reg.users)
      && forall c :: c in Resolve(reg, rcp) ==> c == reg.users[rcp.id]
    ensures rcp.kind == Group ==>
      && Resolve(reg, rcp) == GroupConns(reg, rcp.id)
      && (Resolve(reg, rcp) == [] <==> rcp.id !in reg.groups)
    ensures rcp.kind == Broadcast ==>
      && |Resolve(reg, rcp)| == |reg.users|
      && forall c :: c in Resolve(reg, rcp) <==> c in reg.users.Values
    ensures rcp.kind !in {Individual, Group, Broadcast} ==> Resolve(reg, rcp) == []
  {
    BroadcastTargets(reg);
  }

  /** Each write of the fan-out, as a trace entry. */
  function AsEffects(ws: seq<Write>): seq<Effect> {
    seq(|ws|, k requires 0 <= k < |ws| => Sent(ws[k]))
  }

  /** The controller's payload: identity and content from the bus event, status and
      timestamps from the record read just before. */
  function ComposeStoredPayload(ev: BusEvent, rcp: Recipient, rec: Option<StoredRecord>, now: string): (p: StoredPayload)
    ensures p.messageId == ev.messageId && p.notification == ev.notification && p.recipient == rcp && p.sender == ev.sender
    ensures rec.None? ==> p.status.None? && p.createdAt.None? && p.deliveredAt.None?
    ensures rec.Some? ==> p.status == Some(rec.value.status) && p.createdAt == rec.value.createdAt && p.deliveredAt == rec.value.deliveredAt
    ensures p.timestamp == now
  {
    match rec
    case None => StoredPayload(ev.messageId, ev.notification, rcp, ev.sender, None, None, None, now)
    case Some(r) => StoredPayload(ev.messageId, ev.notification, rcp, ev.sender, Some(r.status), r.createdAt, r.deliveredAt, now)
  }

  /** A second delivery of an event shows the first delivery: the record read back after
      `markAsDelivered` gives status `delivered` and the first delivery's time, even when
      the notification had been read in between the creation and the first delivery. */
  lemma RedeliveryShowsEarlierDelivery(ev: BusEvent, rcp: Recipient, store: Store, now1: string, now2: string)
    requires ev.messageId in store
    ensures var p := ComposeStoredPayload(ev, rcp, Some(MarkDelivered(store, ev.messageId, now1)[ev.messageId]), now2);
      && p.status == Some("delivered") && p.deliveredAt == Some(now1)
      && p.createdAt == store[ev.messageId].createdAt && p.timestamp == now2
  {
  }

  /** `POST /pubsub-handler` with the Firestore store, whose `markAsDelivered` swallows
      its own failures. `decode` is base64 decoding followed by `JSON.parse` (`None`: it
      threw); `encode` is `JSON.stringify`; `accepts(i)` is how many writes the i-th
      target takes before one throws. The handler reads nothing from the store, so only
      `UpdateFails` concerns it. */
  method PubSubHandler(reg: State, store: Store, envelope: Envelope, decode: string -> Option<BusEvent>,
                       encode: DeliveryPayload -> string, now: string, accepts: nat -> nat, fault: StoreFault)
    returns (reply: Reply, effects: seq<Effect>, sent: nat, store': Store)
    ensures !WellFormedEnvelope(envelope) ==> reply == InvalidFormat && effects == [] && store' == store
    ensures WellFormedEnvelope(envelope) ==> reply.code == 200
    ensures WellFormedEnvelope(envelope) && !Routable(decode(Data(envelope))) ==>
      reply == Ack("ERROR") && effects == [] && store' == store
    ensures WellFormedEnvelope(envelope) && Routable(decode(Data(envelope))) ==>
      var ev := decode(Data(envelope)).value;
      var targets := Resolve(reg, ev.recipient.value);
      var chunks := NotificationChunks(encode(DeliveryPayload(ev.messageId, ev.notification, ev.recipient.value, now)), ev.messageId);
      && reply == Ack("OK")
      && sent == SentCount(chunks, accepts, |targets|)
      && effects == AsEffects(Writes(targets, chunks, accepts, |targets|))
                    + (if targets == [] then [] else [StoreMarkDelivered(ev.messageId)])
      && store' == (if targets != [] && fault != UpdateFails then MarkDelivered(store, ev.messageId, now) else store)
  {
    if !WellFormedEnvelope(envelope) {
      return InvalidFormat, [], 0, store;
    }
    var decoded := decode(Data(envelope));
    if !Routable(decoded) {
      return Ack("ERROR"), [], 0, store;
    }
    var ev := decoded.value;
    var rcp := ev.recipient.value;
    var targets := Resolve(reg, rcp);
    effects, sent, store' := [], 0, store;
    if |targets| > 0 {
      var json := encode(DeliveryPayload(ev.messageId, ev.notification, rcp, now));
      var writes;
      sent, writes := FanOut(targets, NotificationChunks(json, ev.messageId), accepts);
      effects := AsEffects(writes) + [StoreMarkDelivered(ev.messageId)];
      // a failing update is caught inside the Firestore service
      store' := if fault != UpdateFails then MarkDelivered(store, ev.messageId, now) else store;
    }
    reply := Ack("OK");
  }

  /** `subscriptionHandler`, with the MongoDB store whose calls rethrow their failures:
      the record is read once before any write and only when there are targets. */
  method SubscriptionHandler(reg: State, store: Store, envelope: Envelope, decode: string -> Option<BusEvent>,
                             encode: StoredPayload -> string, now: string, accepts: nat -> nat, fault: StoreFault)
    returns (reply: Reply, effects: seq<Effect>, sent: nat, store': Store)
    ensures !WellFormedEnvelope(envelope) ==> reply == InvalidFormat && effects == [] && store' == store
    ensures WellFormedEnvelope(envelope) ==> reply.code == 200
    ensures WellFormedEnvelope(envelope) && !Routable(decode(Data(envelope))) ==>
      reply == Ack("ERROR") && effects == [] && store' == store
    ensures WellFormedEnvelope(envelope) && Routable(decode(Data(envelope))) ==>
      var ev := decode(Data(envelope)).value;
      var targets := Resolve(reg, ev.recipient.value);
      var rec := if ev.messageId in store then Some(store[ev.messageId]) else None;
      var chunks := NotificationChunks(encode(ComposeStoredPayload(ev, ev.recipient.value, rec, now)), ev.messageId);
      && (targets == [] ==> reply == Ack("OK") && effects == [] && store' == store)
      && (targets != [] && fault == ReadFails ==>
            reply == Ack("ERROR") && effects == [StoreRead(ev.messageId)] && store' == store)
      && (targets != [] && fault != ReadFails ==>
            && sent == SentCount(chunks, accepts, |targets|)
            && effects == [StoreRead(ev.messageId)] + AsEffects(Writes(targets, chunks, accepts, |targets|))
                          + [StoreMarkDelivered(ev.messageId)]
            && reply == (if fault == UpdateFails then Ack("ERROR") else Ack("OK"))
            && store' == (if fault == UpdateFails then store else MarkDelivered(store, ev.messageId, now)))
  {
    if !WellFormedEnvelope(envelope) {
      return InvalidFormat, [], 0, store;
    }
    var decoded := decode(Data(envelope));
    if !Routable(decoded) {
      return Ack("ERROR"), [], 0, store;
    }
    var ev := decoded.value;
    var rcp := ev.recipient.value;
    var targets := Resolve(reg, rcp);
    effects, sent, store' := [], 0, store;
    if |targets| > 0 {
      effects := [StoreRead(ev.messageId)];
      if fault == ReadFails {
        return Ack("ERROR"), effects, 0, store;
      }
      var rec := if ev.messageId in store then Some(store[ev.messageId]) else None;
      var json := encode(ComposeStoredPayload(ev, rcp, rec, now));
      var writes;
      sent, writes := FanOut(targets, NotificationChunks(json, ev.messageId), accepts);
      effects := effects + AsEffects(writes) + [StoreMarkDelivered(ev.messageId)];
      if fault == UpdateFails {
        return Ack("ERROR"), effects, sent, store;
      }
      store' := MarkDelivered(store, ev.messageId, now);
    }
    reply := Ack("OK");
  }
}

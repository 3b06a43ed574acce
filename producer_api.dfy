/** The producer API's notification routes (pushify-api/src/routes/notifications.js):
    `POST /notifications` validates a request, builds the stored document, writes it
    to the store and publishes it to the bus; `GET /notifications` lists a user's
    notifications by status; `PATCH /notifications/:id/read` marks one read after an
    ownership check. The store is an abstract map from message id to document; the
    generated id, the clock and the outcome of each external call are parameters. */
module ProducerApi {
  import opened Wrappers

  // ---------------------------------------------------------------------------
  // Requests, documents and responses
  // ---------------------------------------------------------------------------

  /** The `notification` object of a POST body; `None` is an absent (or empty, hence falsy) field. */
  datatype NotificationInput = NotificationInput(
    kind: Option<string>, priority: Option<string>, title: Option<string>,
    content: Option<string>, category: Option<string>)

  /** The `recipient` object of a POST body. */
  datatype RecipientInput = RecipientInput(kind: Option<string>, id: Option<string>)

  datatype PostBody = PostBody(notification: Option<NotificationInput>, sender: Option<Json>, recipient: Option<RecipientInput>)

  /** The stored `notification` sub-document, every field filled in. */
  datatype Content = Content(kind: string, priority: string, title: string, content: string, category: string)

  /** The stored sender: the one the request gave, or the built-in system sender. */
  datatype SenderField = Supplied(value: Json) | System(id: string, name: string)

  /** A stored notification document. */
  datatype Document = Document(
    messageId: string, createdAt: string, notification: Content, sender: SenderField,
    recipient: Recipient, status: string, deliveredAt: Option<string>, readAt: Option<string>)

  datatype ResponseBody =
    | Error(error: string)
    | Queued(messageId: string)
    | Listing(userId: string, status: string, count: nat, notifications: seq<Json>)
    | NoContent

  datatype Response = Response(code: nat, body: ResponseBody)

  const NotificationFieldsMissing: string := "Missing required fields: notification.title, notification.content"
  const RecipientFieldsMissing: string := "Missing required fields: recipient.type, recipient.id"
  const UserIdMissing: string := "Missing required parameter: userId"

  predicate Truthy(s: Option<string>) {
    s.Some? && s.value != ""
  }

  /** `value || fallback`. */
  function OrDefault(s: Option<string>, fallback: string): (r: string)
    ensures Truthy(s) ==> r == s.value
    ensures !Truthy(s) ==> r == fallback
  {
    if Truthy(s) then s.value else fallback
  }

  // ---------------------------------------------------------------------------
  // POST /notifications
  // ---------------------------------------------------------------------------

  predicate NotificationOk(body: PostBody) {
    body.notification.Some? && Truthy(body.notification.value.title) && Truthy(body.notification.value.content)
  }

  predicate RecipientOk(body: PostBody) {
    body.recipient.Some? && Truthy(body.recipient.value.kind) && Truthy(body.recipient.value.id)
  }

  /** The validation of a POST body, the notification fields checked before the
      recipient fields: the message of the first check that fails, if any. */
  function CheckPost(body: PostBody): (error: Option<string>)
    ensures error == Some(NotificationFieldsMissing) <==> !NotificationOk(body)
    ensures error == Some(RecipientFieldsMissing) <==> NotificationOk(body) && !RecipientOk(body)
    ensures error == None <==> NotificationOk(body) && RecipientOk(body)
  {
    if !NotificationOk(body) then Some(NotificationFieldsMissing)
    else if !RecipientOk(body) then Some(RecipientFieldsMissing)
    else None
  }

  /** The document stored for a valid request: defaults for `type`, `priority` and
      `category`, title and content as given, the system sender when none was given,
      the recipient reduced to its type and id, and the `pending` status. */
  function BuildDocument(body: PostBody, messageId: string, now: string): (doc: Document)
    requires NotificationOk(body) && RecipientOk(body)
    ensures doc.messageId == messageId && doc.createdAt == now
    ensures doc.notification.title == body.notification.value.title.value
    ensures doc.notification.content == body.notification.value.content.value
    ensures doc.recipient == Recipient(body.recipient.value.kind.value, body.recipient.value.id.value)
    ensures doc.status == "pending" && doc.deliveredAt == None && doc.readAt == None
    ensures body.sender.Some? <==> doc.sender.Supplied?
    ensures body.sender.Some? ==> doc.sender.value == body.sender.value
  {
    var n := body.notification.value;
    Document(
      messageId, now,
      Content(OrDefault(n.kind, "info"), OrDefault(n.priority, "normal"), n.title.value, n.content.value,
              OrDefault(n.category, "message")),
      if body.sender.Some? then Supplied(body.sender.value) else System("system", "Sistema"),
      Recipient(body.recipient.value.kind.value, body.recipient.value.id.value),
      "pending", None, None)
  }

  /** The defaults: a falsy `type`, `priority`, `category` or sender is replaced, a
      truthy one kept. */
  lemma DocumentDefaults(body: PostBody, messageId: string, now: string)
    requires NotificationOk(body) && RecipientOk(body)
    ensures var doc := BuildDocument(body, messageId, now);
      var n := body.notification.value;
      && (doc.notification.kind == "info" <== !Truthy(n.kind))
      && (doc.notification.priority == "normal" <== !Truthy(n.priority))
      && (doc.notification.category == "message" <== !Truthy(n.category))
      && (Truthy(n.kind) ==> doc.notification.kind == n.kind.value)
      && (Truthy(n.priority) ==> doc.notification.priority == n.priority.value)
      && (Truthy(n.category) ==> doc.notification.category == n.category.value)
      && (body.sender.None? ==> doc.sender == System("system", "Sistema"))
  {
  }

  /** The external calls of a POST, in order. */
  datatype PostEffect = StoreCreate(doc: Document) | Publish(doc: Document)

  /** `POST /notifications`. `createOk` and `publishOk` say whether the store write and
      the publish succeed; a failure of either is answered 500. */
  function Post(body: PostBody, messageId: string, now: string, createOk: bool, publishOk: bool): (out: (Response, seq<PostEffect>))
    ensures CheckPost(body).Some? ==> out == (Response(400, Error(CheckPost(body).value)), [])
    ensures CheckPost(body).None? ==>
      var doc := BuildDocument(body, messageId, now);
      && out.1 == (if createOk then [StoreCreate(doc), Publish(doc)] else [StoreCreate(doc)])
      && out.0 == (if createOk && publishOk then Response(202, Queued(messageId))
                   else Response(500, Error("Failed to create notification")))
    ensures out.0.code == 202 <==> CheckPost(body).None? && createOk && publishOk
  {
    match CheckPost(body)
    case Some(error) => (Response(400, Error(error)), [])
    case None =>
      var doc := BuildDocument(body, messageId, now);
      if !createOk then (Response(500, Error("Failed to create notification")), [StoreCreate(doc)])
      else if !publishOk then (Response(500, Error("Failed to create notification")), [StoreCreate(doc), Publish(doc)])
      else (Response(202, Queued(messageId)), [StoreCreate(doc), Publish(doc)])
  }

  /** Nothing is published that was not stored first, and an accepted request was
      both stored and published, under the id it returns. */
  lemma PostStoresBeforePublishing(body: PostBody, messageId: string, now: string, createOk: bool, publishOk: bool)
    ensures var (resp, effects) := Post(body, messageId, now, createOk, publishOk);
      && (forall i :: 0 <= i < |effects| && effects[i].Publish? ==>
            i > 0 && effects[i - 1] == StoreCreate(effects[i].doc))
      && (resp.code == 202 ==>
            resp.body == Queued(messageId) && |effects| == 2
            && effects[0].StoreCreate? && effects[1].Publish? && effects[1].doc.messageId == messageId)
  {
  }

  // ---------------------------------------------------------------------------
  // GET /notifications
  // ---------------------------------------------------------------------------

  /** The status queried: `pending` only when the parameter is absent; an empty one stays empty. */
  function QueryStatus(status: Option<string>): (s: string)
    ensures status.None? ==> s == "pending"
    ensures status.Some? ==> s == status.value
  {
    if status.None? then "pending" else status.value
  }

  /** `GET /notifications?userId&status`. `fetch(userId, status)` is the store query,
      `None` when it throws. */
  function Get(userId: Option<string>, status: Option<string>, fetch: (string, string) -> Option<seq<Json>>): (resp: Response)
    ensures !Truthy(userId) ==> resp == Response(400, Error(UserIdMissing))
    ensures Truthy(userId) && fetch(userId.value, QueryStatus(status)).None? ==> resp.code == 500
    ensures Truthy(userId) && fetch(userId.value, QueryStatus(status)).Some? ==>
      var list := fetch(userId.value, QueryStatus(status)).value;
      resp.code == 200 && resp.body == Listing(userId.value, QueryStatus(status), |list|, list)
  {
    if !Truthy(userId) then Response(400, Error(UserIdMissing))
    else
      var s := QueryStatus(status);
      match fetch(userId.value, s)
      case None => Response(500, Error("Failed to fetch notifications"))
      case Some(list) => Response(200, Listing(userId.value, s, |list|, list))
  }

  // ---------------------------------------------------------------------------
  // PATCH /notifications/:id/read
  // ---------------------------------------------------------------------------

  type Store = map<string, Document>

  /** Whether `userId` may mark `doc` read: only an individual notification is
      restricted, to its own recipient. */
  predicate MayMarkRead(doc: Document, userId: string) {
    !(doc.recipient.kind == Individual && doc.recipient.id != userId)
  }

  /** The store's `markAsRead`: status `read` and the read time, other fields kept. */
  function MarkAsRead(store: Store, id: string, now: string): (store': Store)
    requires id in store
    ensures store'.Keys == store.Keys
    ensures store'[id].status == "read" && store'[id].readAt == Some(now)
    ensures store'[id].(status := store[id].status, readAt := store[id].readAt) == store[id]
    ensures forall other :: other in store && other != id ==> store'[other] == store[other]
  {
    store[id := store[id].(status := "read", readAt := Some(now))]
  }

  /** `PATCH /notifications/:id/read?userId`. `fault` is a failing store read
      (`getNotificationById`) or update (`markAsRead`), both answered 500. */
  function Patch(store: Store, id: string, userId: Option<string>, now: string, fault: StoreFault): (out: (Response, Store))
    ensures out.0.code == 400 <==> !Truthy(userId)
    ensures out.0.code == 404 <==> Truthy(userId) && fault != ReadFails && id !in store
    ensures out.0.code == 403 <==> Truthy(userId) && fault != ReadFails && id in store && !MayMarkRead(store[id], userId.value)
    ensures out.0.code == 204 <==>
      Truthy(userId) && fault == NoFault && id in store && MayMarkRead(store[id], userId.value)
    ensures out.0.code == 204 ==> out == (Response(204, NoContent), MarkAsRead(store, id, now))
    ensures out.0.code != 204 ==> out.1 == store
    ensures out.0.code in {400, 403, 404, 204, 500}
  {
    if !Truthy(userId) then (Response(400, Error(UserIdMissing)), store)
    else if fault == ReadFails then (Response(500, Error("Failed to mark notification as read")), store)
    else if id !in store then (Response(404, Error("Notification not found")), store)
    else if !MayMarkRead(store[id], userId.value) then (Response(403, Error("Unauthorized")), store)
    else if fault != NoFault then (Response(500, Error("Failed to mark notification as read")), store)
    else (Response(204, NoContent), MarkAsRead(store, id, now))
  }

  /** Group and broadcast notifications are never refused with 403, whoever asks. */
  lemma SharedNotificationsNever403(store: Store, id: string, userId: Option<string>, now: string, fault: StoreFault)
    requires id in store && store[id].recipient.kind != Individual
    ensures Patch(store, id, userId, now, fault).0.code != 403
  {
  }

  /** An individual notification is only ever marked read by its own recipient. */
  lemma OnlyRecipientMarksIndividual(store: Store, id: string, userId: Option<string>, now: string, fault: StoreFault)
    requires id in store && store[id].recipient.kind == Individual
    ensures Patch(store, id, userId, now, fault).1 != store ==> userId == Some(store[id].recipient.id)
  {
  }

  /** Marking again keeps the document read; only the read time moves. */
  lemma PatchTwiceStaysRead(store: Store, id: string, userId: Option<string>, now1: string, now2: string)
    requires Patch(store, id, userId, now1, NoFault).0.code == 204
    ensures var once := Patch(store, id, userId, now1, NoFault).1;
      var twice := Patch(once, id, userId, now2, NoFault);
      && twice.0.code == 204
      && twice.1 == MarkAsRead(store, id, now2)
  {
    var once := MarkAsRead(store, id, now1);
    assert once[id].recipient == store[id].recipient;
    assert once[id := once[id].(status := "read", readAt := Some(now2))] == MarkAsRead(store, id, now2);
  }
}

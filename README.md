# pushify-poc notification pipeline, modelled in Dafny

This project models the decision core of the pushify-poc notification system. It proves properties of that model.

The system has five parts:

- **Producer API.** It accepts a notification over HTTP, stores it as `pending` and publishes it to a message bus.
- **Broadcaster.** It keeps a registry of open server-sent-events (SSE) responses, keyed by user and by group. For each bus event it works out the target responses and writes a notification frame to each. It then marks the notification `delivered` in its store.
- **SSE endpoint.** Each open stream registers itself, sends heartbeats and cleans up after itself.
- **Legacy Redis route.** It pushes data-only frames.
- **Web app store.** A list of notifications in the browser, with an unread count, merging of redelivered notifications, marking as read and age-based cleanup. A small module builds the web app's endpoint URLs.

The modules follow the source files:

| module | file | models |
|---|---|---|
| `Wrappers` | `wrappers.dfy` | `Option`, the recipient descriptor `{type, id}`, store faults |
| `Registry` | `registry.dfy` | `broadcaster-api/src/connections.js`. The pure state functions come first, then the `ConnectionManager` class. Each method of the class is proved to move its fields exactly as the matching function does. |
| `Sse` | `sse.dfy` | The event-stream frames, in the format of the WHATWG HTML Living Standard, section 9.2 (Server-sent events). Also the per-target fan-out loop with its per-target `try`/`catch`. |
| `Dispatch` | `dispatch.dfy` | `broadcaster-api/src/services/pubsub-handler.js` and `broadcaster-api/src/controllers/subscription.controller.js` |
| `Stream` | `stream.dfy` | `broadcaster-api/src/routes/stream.js`: a `Session` object driven by heartbeat ticks and by `close` and `error` events |
| `RedisRouting` | `redis.dfy` | `broadcaster-api/src/services/redis-subscriber.js` |
| `ClientStore` | `client_store.dfy` | `web-app/src/stores/notifications.js`: pure list functions, then the `NotificationStore` class |
| `ProducerApi` | `producer_api.dfy` | `pushify-api/src/routes/notifications.js` |
| `Endpoints` | `endpoints.dfy` | `web-app/src/utils/environments.js` |

## Modelling conventions

- **Responses.** An Express response object is a `Conn` handle. The source compares responses by identity (`indexOf`, `===`), so handle equality stands for that comparison.
- **Registry iteration order.** The registry's `users` Map also carries `order`, its keys in insertion order. `Array.from(users.values())`, the broadcast target list, yields values in that order.
- **Failing writes.** A response that fails is given as `accepts(i)`: the number of writes the i-th target takes before a write throws.
- **Outside calls.** Parameters stand for each of these:
  - `JSON.parse` and `JSON.stringify`
  - base64 decoding
  - the clock
  - `uuidv4`
  - the outcome of each store or bus call
- **Effect traces.** An effect trace records the calls a handler makes, in order.
- **Falsy fields.** A field that JavaScript would treat as falsy (`undefined`, `null`, the empty string) is `None`, or `""` where the model keeps a plain string.
- **Registry behind the MongoDB controller.** `subscription.controller.js` imports its registry from `../sse-connection-manager`, and `sse-connection-manager.js` is not part of this model. It is taken to be the same registry as `connections.js`: the controller uses only `getUserConnection`, `getGroupConnections` and `users`.

## Notable behaviour the proofs pin down

- **Stale cleanup.** `cleanupConnection(u, r)` deletes `u`'s entry whatever response it holds. So the cleanup of a stale stream removes a newer stream registered under the same user (`Registry.StaleCleanupDropsNewerRegistration`).
- **Repeated cleanup.** A second cleanup changes nothing exactly when `r` sat in each group at most once.
  - When `r` sat in every group at most once, the second cleanup is a no-op (`Registry.CleanupIdempotent`).
  - When some group holds `r` twice, the second cleanup removes another copy (`Registry.CleanupNotIdempotentWithDuplicates`).
- **Delivered overwrites read.** The broadcaster's `markAsDelivered` overwrites a `read` status with `delivered` (`Dispatch.MarkDeliveredOverwritesRead`).
- **Client badge.** The web app never downgrades a `read` entry on redelivery (`ClientStore.MergeNeverDowngrades`).
- **Unescaped URLs.** URL builders splice identifiers in without escaping, so different arguments can give the same URL (`Endpoints.MarkAsReadNotInjective`, `Endpoints.GetByUserNotEscaped`). A user id holding `/`, `?` or `#` does not reach its own stream (`Endpoints.StreamUrlNotEscaped`).
- **Unescaped frames.** The bus message id and the stream's user id are written into event-stream frames as they are. A CR in the message id cuts the `id` line (`Sse.MessageIdWithReturnCutsIdLine`). The route percent-decodes the user id, so a user id holding `%0A` adds a line to the `connected` frame (`Sse.ConnectedUserIdInjectsLine`).

## Model

| member | source | states |
|---|---|---|
| `Registry.IndexOf` | broadcaster-api/src/connections.js:64 | The result is -1 exactly when the response is absent. Otherwise it is the first position holding it. |
| `Registry.RemoveFirst` | broadcaster-api/src/connections.js:64-67 | `indexOf`, then `splice(index, 1)` only when the index is above -1. Its contract is stated by `RemoveFirstShape`. |
| `Registry.RemoveFirstShape` | broadcaster-api/src/connections.js:64-67 | `indexOf` plus `splice(index, 1)` removes exactly one occurrence, the first. The rest keep their order, and an absent response leaves the list as it was. |
| `Registry.RemoveFirstIdempotent` | broadcaster-api/src/connections.js:64-67 | A second removal changes nothing when the response occurred at most once. |
| `Registry.RemoveFirstNotIdempotentWithDuplicates` | broadcaster-api/src/connections.js:64-67 | For any list holding the response two or more times, a second removal changes the list again. With `RemoveFirstIdempotent`, a second removal is a no-op exactly when the response occurred at most once. |
| `Registry.Without` | broadcaster-api/src/connections.js:52 | The Map's key order after `delete`: exactly the other keys, still without repeats. |
| `Registry.ValuesInOrderAt` | broadcaster-api/src/connections.js:20 | `users.values()` yields one value per key, in key insertion order. |
| `Registry.DistinctCard` | broadcaster-api/src/connections.js:20 | A key order without repeats has as many distinct keys as entries. |
| `Registry.AddUser` | broadcaster-api/src/connections.js:32-35 | The user now maps to the new response, replacing any earlier one. Other users and all groups are unchanged, and well-formedness is kept. |
| `Registry.LookupUser` | broadcaster-api/src/connections.js:79-81 | `users.get(userId)`: the stored response, or nothing (`undefined`). |
| `Registry.GroupConns` | broadcaster-api/src/connections.js:86-88 | `groups.get(groupId) \|\| []`. |
| `Registry.AllUserConns` | broadcaster-api/src/services/pubsub-handler.js:50 | `Array.from(users.values())`. Its contract is stated by `BroadcastTargets`. |
| `Registry.AddToGroup` | broadcaster-api/src/connections.js:40-46 | The group's list gains the response at its end; it is created when missing. Other groups and the users are unchanged. |
| `Registry.RemoveUser` | broadcaster-api/src/connections.js:51-56 | The user is gone, other users and the groups are unchanged, and an unknown user changes nothing. |
| `Registry.DropFromGroup` | broadcaster-api/src/connections.js:61-74 | The group's list loses its first copy of the response. The key is deleted exactly when the list becomes empty, and other keys are untouched. |
| `Registry.RemoveFromGroup` | broadcaster-api/src/connections.js:61-74 | As `DropFromGroup`, on the whole registry. An unknown group or an absent response changes nothing. |
| `Registry.CleanupGroups` | broadcaster-api/src/connections.js:106-109 | The groups map after the loop has called `removeUserFromGroup` on every key. `CleanStep` and `ConnectionManager.CleanupConnection` tie it to the loop. |
| `Registry.Cleanup` | broadcaster-api/src/connections.js:103-110 | The user's entry is gone, whatever response it held. Every group loses one copy of the response and is deleted when left empty. Other users are unchanged. |
| `Registry.BroadcastTargets` | broadcaster-api/src/services/pubsub-handler.js:49-50 | `Array.from(users.values())` holds one response per registered user, in Map order. It holds exactly the registered responses and nothing that is only in a group. |
| `Registry.CleanupIdempotent` | broadcaster-api/src/connections.js:103-110 | A second cleanup changes nothing when the response occurred at most once in every group. |
| `Registry.CleanupGroupsIdempotent` | broadcaster-api/src/connections.js:105-109 | The group part of the same: the per-group removal loop run twice equals run once. |
| `Registry.CleanupNotIdempotentWithDuplicates` | broadcaster-api/src/connections.js:103-110 | For any registry where some group holds the response two or more times, a second cleanup changes the registry again. This is the converse of `CleanupIdempotent`. |
| `Registry.StaleCleanupDropsNewerRegistration` | broadcaster-api/src/connections.js:103-104 | Cleanup keyed on the user alone removes a newer response registered after the stale one. |
| `Registry.UserRemovalKeepsGroups` | broadcaster-api/src/connections.js:51-56 | Removing a user's entry leaves that response in the groups it joined. |
| `Registry.CleanStep` | broadcaster-api/src/connections.js:105-109 | One iteration of the cleanup loop advances the partly cleaned groups map by one key. |
| `Registry.ConnectionManager.constructor` | broadcaster-api/src/connections.js:17-27 | A new manager is empty and well formed. |
| `Registry.ConnectionManager.AddUserConnection` | broadcaster-api/src/connections.js:32-35 | The fields become `AddUser` of the old ones, and the invariant is kept. |
| `Registry.ConnectionManager.AddUserToGroup` | broadcaster-api/src/connections.js:40-46 | The fields become `AddToGroup` of the old ones. |
| `Registry.ConnectionManager.RemoveUserConnection` | broadcaster-api/src/connections.js:51-56 | The fields become `RemoveUser` of the old ones. |
| `Registry.ConnectionManager.RemoveUserFromGroup` | broadcaster-api/src/connections.js:61-74 | The fields become `RemoveFromGroup` of the old ones: `indexOf`, then `splice`, then deleting the emptied key. |
| `Registry.ConnectionManager.GetUserConnection` | broadcaster-api/src/connections.js:79-81 | Returns the user's response, or nothing for an unknown user. |
| `Registry.ConnectionManager.GetGroupConnections` | broadcaster-api/src/connections.js:86-88 | Returns the group's list, or the empty list for an unknown group. |
| `Registry.ConnectionManager.GetConnectionCount` | broadcaster-api/src/connections.js:93-98 | Returns the number of user keys and of group keys. |
| `Registry.ConnectionManager.CleanupConnection` | broadcaster-api/src/connections.js:103-110 | The loop over every group key leaves the fields equal to `Cleanup` of the old ones. |
| `Sse.ConcatThree` | broadcaster-api/src/services/pubsub-handler.js:71-73 | A helper for the layout proofs: `Concat` of three chunks is their concatenation. It models no source line of its own; it is how the three writes become one frame. |
| `Sse.ConcatTwo` | broadcaster-api/src/routes/stream.js:56-57 | A helper for the layout proofs: `Concat` of two chunks is their concatenation. It models no source line of its own; it is how the two writes become one frame. |
| `Sse.NotificationChunks` | broadcaster-api/src/services/pubsub-handler.js:71-73 | The three writes of a notification event. `NotificationFrameLayout` and `NotificationFrameLines` state what they form. |
| `Sse.ConnectedChunks` | broadcaster-api/src/routes/stream.js:56-57 | The two writes of the `connected` event. `ConnectedFrameLayout` and `ConnectedFrameLines` state what they form. |
| `Sse.DataOnlyChunks` | broadcaster-api/src/services/redis-subscriber.js:71 | The single write of the Redis route. `DataOnlyFrameLayout` states what it forms. |
| `Sse.SplitLines` | broadcaster-api/src/services/pubsub-handler.js:71-73 | A stream splits into at least one line. As in the WHATWG standard, a line ends at CRLF, a lone LF or a lone CR, and no line holds a terminator. |
| `Sse.SplitLinesAfterLine` | broadcaster-api/src/services/pubsub-handler.js:71-73 | A line without terminators, followed by a line feed, is the first line of what follows. |
| `Sse.SplitLinesAfterReturn` | broadcaster-api/src/services/pubsub-handler.js:73 | A line without terminators, followed by a lone carriage return, is the first line too. |
| `Sse.NotificationFrameLayout` | broadcaster-api/src/services/pubsub-handler.js:71-73 | The three writes are the fields `event: notification`, `data` and `id`, then the blank line. |
| `Sse.NotificationFrameLines` | broadcaster-api/src/controllers/subscription.controller.js:87-89 | When the JSON and the id hold neither CR nor LF, a reader sees exactly three field lines and then the blank line that dispatches the event. |
| `Sse.MessageIdWithReturnCutsIdLine` | broadcaster-api/src/services/pubsub-handler.js:73 | The message id is written unescaped. If it holds a CR, the reader's `id` line ends at the CR, and the rest of the id becomes a line of its own. |
| `Sse.ConnectedFrameLines` | broadcaster-api/src/routes/stream.js:56-57 | When the user id holds neither CR nor LF, a reader sees the `connected` frame as an event line, a data line and the blank line, with no `id` line. |
| `Sse.ConnectedUserIdInjectsLine` | broadcaster-api/src/routes/stream.js:15-57 | The user id is interpolated unescaped. A line feed in it ends the data line, and the rest becomes a line of its own, so `u1%0Aid: x` adds an `id` field. |
| `Sse.ConnectedFrameLayout` | broadcaster-api/src/routes/stream.js:56-57 | The `connected` frame is an event line and a data line holding `{"userId", "timestamp"}`, with no `id` line. |
| `Sse.HeartbeatFrameLayout` | broadcaster-api/src/routes/stream.js:65-66 | A heartbeat is `event: heartbeat` and `data: ping`, then the blank line. |
| `Sse.DataOnlyFrameLayout` | broadcaster-api/src/services/redis-subscriber.js:71 | The Redis frame is a single data line and the blank line, with no event or id line. |
| `Sse.FrameWrites` | broadcaster-api/src/services/pubsub-handler.js:70-74 | A target that throws at its k-th write receives exactly the first k chunks, in order. |
| `Sse.Writes` | broadcaster-api/src/services/pubsub-handler.js:68-79 | The writes of the fan-out over the first n targets: at most n times the number of chunks. Each write goes to one of those targets and carries one of the frame's chunks. |
| `Sse.SentCount` | broadcaster-api/src/services/pubsub-handler.js:67-75 | The count never exceeds the number of targets. It equals that number when every target takes every write, and is 0 when none does. |
| `Sse.WritesPrefix` | broadcaster-api/src/services/pubsub-handler.js:68-79 | The writes to the first m targets are a prefix of the writes to the first n, for m ≤ n. |
| `Sse.FanOutIsolation` | broadcaster-api/src/services/pubsub-handler.js:68-79 | A target that takes every write gets the whole frame, contiguously and in order, whatever the targets before or after it do. |
| `Sse.FanOut` | broadcaster-api/src/services/pubsub-handler.js:67-79 | The loop's writes and `sentCount` are those of `Writes` and `SentCount`. A throwing write abandons only its own target. |
| `Dispatch.MarkDelivered` | broadcaster-api/src/services/firestore.js:16-27 | Status `delivered` and a fresh `deliveredAt` for the document. A missing document stays missing, and other documents are unchanged. |
| `Dispatch.MarkDeliveredOverwritesRead` | broadcaster-api/src/services/firestore.js:19-22 | A notification already `read` is set back to `delivered`. |
| `Dispatch.Resolve` | broadcaster-api/src/services/pubsub-handler.js:37-51 | The target list both handlers build; subscription.controller.js:28-44 is the same split. Its contract is stated by `ResolveTargets`. |
| `Dispatch.ResolveTargets` | broadcaster-api/src/services/pubsub-handler.js:37-51 | An individual gets its one registered response or nothing. A group gets its list, empty exactly for an unknown group. A broadcast gets every user's response exactly once. Any other type gets nothing. |
| `Dispatch.ComposeStoredPayload` | broadcaster-api/src/controllers/subscription.controller.js:65-74 | The identity and content come from the bus event. Status and timestamps come from the stored record, and are absent when there is none. |
| `Dispatch.RedeliveryShowsEarlierDelivery` | broadcaster-api/src/controllers/subscription.controller.js:54-74 | A redelivery, read back after `markAsDelivered`, shows status `delivered` and the first delivery's time. |
| `Dispatch.PubSubHandler` | broadcaster-api/src/services/pubsub-handler.js:15-99 | A malformed envelope gives 400 with no effect, and everything else gives 200. Undecodable input or a missing recipient gives `ERROR` with no effect. Otherwise the answer is `OK`; with targets, the frame is fanned out and then one `markAsDelivered` follows, whose failure is swallowed. |
| `Dispatch.SubscriptionHandler` | broadcaster-api/src/controllers/subscription.controller.js:4-117 | The same checks. With no targets the store is not touched. With targets there is one read before any write, then the fan-out, then one update. A failing read or update gives `ERROR`, still 200. |
| `Stream.Session.Open` | broadcaster-api/src/routes/stream.js:43-63 | Registers the response under the user id and joins no group. Writes the `connected` frame and starts the heartbeat. |
| `Stream.Session.Teardown` | broadcaster-api/src/routes/stream.js:79-80 | Clears the timer and runs `cleanupConnection`. Afterwards the user id is unregistered. |
| `Stream.Session.Tick` | broadcaster-api/src/routes/stream.js:63-72 | When active and both writes succeed, the two heartbeat chunks are written. A throwing write keeps the chunks before it, then cancels and cleans up. A cleared timer does nothing. |
| `Stream.Session.OnClose` | broadcaster-api/src/routes/stream.js:77-81 | Cancels the heartbeat and cleans up; the user id ends unregistered. |
| `Stream.Session.OnError` | broadcaster-api/src/routes/stream.js:83-87 | The same teardown as `close`. |
| `Stream.HandleStream` | broadcaster-api/src/routes/stream.js:14-46 | An empty user id gives 400 and leaves the registry alone. Otherwise the response is registered and a session is opened. |
| `Stream.HeartbeatFailureThenClose` | broadcaster-api/src/routes/stream.js:67-81 | A failed heartbeat followed by `close` leaves the registry as after a single cleanup, when the response is at most once in each group. |
| `RedisRouting.AsWrittenWrites` | broadcaster-api/src/services/redis-subscriber.js:39-76 | As written there is at most one write. It happens exactly for a parsed message with a notification, an individual recipient that is registered, and a write that succeeds. |
| `RedisRouting.Frame` | broadcaster-api/src/services/redis-subscriber.js:71 | `sendToConnection`'s one chunk, `data: <JSON>` and the blank line. |
| `RedisRouting.AsWrittenBroadcastReachesNobody` | broadcaster-api/src/services/redis-subscriber.js:61-65 | A broadcast with a user connected writes nothing as written. The intended fan-out writes that user's frame. |
| `RedisRouting.HandleNotification` | broadcaster-api/src/services/redis-subscriber.js:39-76 | Parse failure, a missing notification or a missing recipient writes nothing. An individual recipient gets one write. A broadcast fans out to every registered response, and any other type writes nothing. |
| `RedisRouting.SingleChunkWrites` | broadcaster-api/src/services/redis-subscriber.js:63-65 | When every response takes its write, each target gets the chunk once, in order. |
| `RedisRouting.BroadcastReachesEveryUser` | broadcaster-api/src/services/redis-subscriber.js:61-65 | The intended broadcast makes one write per registered user and reaches each user's response. |
| `ClientStore.UnreadCount` | web-app/src/stores/notifications.js:36-44 | Counts the `pending` or `delivered` entries. It is zero exactly when none is unread, and the full length exactly when all are. |
| `ClientStore.UnreadCountUpdate` | web-app/src/stores/notifications.js:36-44 | Replacing one entry moves the count by the difference of the two entries. |
| `ClientStore.IndexOfId` | web-app/src/stores/notifications.js:62 | The result is -1 exactly when the id is absent. Otherwise it is the first entry with that id. |
| `ClientStore.Merge` | web-app/src/stores/notifications.js:64-84 | A pending entry confirmed delivered becomes `delivered`, with the incoming `deliveredAt` or else now. Otherwise status and `readAt` are kept. All other fields come from the incoming notification. |
| `ClientStore.MergeNeverDowngrades` | web-app/src/stores/notifications.js:75-84 | A `read` entry stays `read`, and whether an entry is unread never changes. |
| `ClientStore.Added` | web-app/src/stores/notifications.js:53-87 | A new id is put first, followed by the old list unchanged. A known id keeps the length and replaces only its first entry, with the merge. |
| `ClientStore.AddedKeepsIdsUnique` | web-app/src/stores/notifications.js:55-86 | Unique message ids stay unique. |
| `ClientStore.AddedUnreadCount` | web-app/src/stores/notifications.js:36-87 | A new unread id raises the badge by one. A redelivery leaves it unchanged. |
| `ClientStore.MarkedRead` | web-app/src/stores/notifications.js:89-98 | Only the first entry with the id becomes `read`, and `readAt` is untouched. An unknown id changes nothing. |
| `ClientStore.MarkedReadIdempotent` | web-app/src/stores/notifications.js:89-98 | Marking twice equals marking once. |
| `ClientStore.MarkedReadUnreadCount` | web-app/src/stores/notifications.js:36-98 | Marking an unread entry lowers the badge by one. Anything else leaves it. |
| `ClientStore.Cutoff` | web-app/src/stores/notifications.js:118-119 | The cutoff instant: `CLEANUP_DAYS` (7) days of 86 400 000 ms before now. |
| `ClientStore.DateOf` | web-app/src/stores/notifications.js:122 | `new Date(createdAt \|\| timestamp)`: the creation date when present, else the timestamp. |
| `ClientStore.Fresh` | web-app/src/stores/notifications.js:122-123 | Kept exactly when the date is valid and strictly after the cutoff. An invalid date compares false. |
| `ClientStore.FreshOnly` | web-app/src/stores/notifications.js:121-124 | Keeps exactly the entries whose date (`createdAt`, else `timestamp`) is valid and after the cutoff, in their order. Each fresh entry is kept as many times as it occurs, and no stale entry is kept. Equal length means nothing was dropped. |
| `ClientStore.FreshOnlyIdempotent` | web-app/src/stores/notifications.js:117-131 | A second cleanup with the same cutoff drops nothing. |
| `ClientStore.FreshOnlyDropsStale` | web-app/src/stores/notifications.js:121-126 | The list shrinks exactly when some entry is not fresh. |
| `ClientStore.NotificationStore.Load` | web-app/src/stores/notifications.js:10-18 | The list is the stored one, or empty when nothing readable is stored. |
| `ClientStore.NotificationStore.SetNotifications` | web-app/src/stores/notifications.js:47-51 | Replaces the list and saves it. |
| `ClientStore.NotificationStore.FindIndex` | web-app/src/stores/notifications.js:55-62 | The scan returns `IndexOfId` of the list. |
| `ClientStore.NotificationStore.AddNotification` | web-app/src/stores/notifications.js:53-87 | The list becomes `Added` of the old one and is saved. |
| `ClientStore.NotificationStore.MarkNotificationAsRead` | web-app/src/stores/notifications.js:89-98 | The list becomes `MarkedRead` of the old one. It is saved only when the id was found. |
| `ClientStore.NotificationStore.CleanOldNotifications` | web-app/src/stores/notifications.js:117-131 | The list becomes the fresh entries for now minus seven days. It is replaced and saved only when something was dropped. |
| `ClientStore.NotificationStore.SetMarkAsReadFunction` | web-app/src/stores/notifications.js:136-138 | Records whether a mark-as-read function is installed. |
| `ClientStore.NotificationStore.MarkAsRead` | web-app/src/stores/notifications.js:140-147 | Hands the id to the installed function and changes nothing else. Otherwise it marks the id read locally, saving exactly when the id was found. |
| `ProducerApi.OrDefault` | pushify-api/src/routes/notifications.js:44-48 | `value \|\| fallback`. |
| `ProducerApi.CheckPost` | pushify-api/src/routes/notifications.js:22-32 | The notification error arises exactly when the notification, its title or its content is missing. The recipient error arises exactly when those are present but the recipient, its type or its id is not. The body passes otherwise. |
| `ProducerApi.BuildDocument` | pushify-api/src/routes/notifications.js:39-64 | Title and content are kept verbatim. The recipient is reduced to type and id, and the given sender is kept. Status is `pending`, with no `deliveredAt` and no `readAt`. |
| `ProducerApi.DocumentDefaults` | pushify-api/src/routes/notifications.js:43-54 | `type`, `priority`, `category` and sender take `info`, `normal`, `message` and the system sender exactly when missing. |
| `ProducerApi.Post` | pushify-api/src/routes/notifications.js:17-90 | 400 with no effect for an invalid body. Otherwise the store write comes first and the publish only after it succeeds. 202 comes exactly when both succeed; any failure gives 500. |
| `ProducerApi.PostStoresBeforePublishing` | pushify-api/src/routes/notifications.js:69-81 | Every publish directly follows the store write of the same document. A 202 response carries the id of the document stored and published. |
| `ProducerApi.QueryStatus` | pushify-api/src/routes/notifications.js:98 | `pending` exactly when the parameter is absent; an empty status stays empty. |
| `ProducerApi.Get` | pushify-api/src/routes/notifications.js:96-125 | No user id gives 400. A failing query gives 500. Otherwise the response echoes the user id and status and lists the notifications with their count. |
| `ProducerApi.MarkAsRead` | pushify-api/src/services/firestore.js:70-76 | The document gets status `read` and a `readAt`, with every other field and document kept. |
| `ProducerApi.Patch` | pushify-api/src/routes/notifications.js:131-167 | 400 exactly without a user id. 404 exactly for an unknown id. 403 exactly for an individual notification addressed to someone else. 204 exactly when it was marked read. Any failure gives 500, and only a 204 changes the store. |
| `ProducerApi.SharedNotificationsNever403` | pushify-api/src/routes/notifications.js:150-152 | Group and broadcast notifications are never refused with 403. |
| `ProducerApi.OnlyRecipientMarksIndividual` | pushify-api/src/routes/notifications.js:150-155 | Only the addressed user ever marks an individual notification read. |
| `ProducerApi.PatchTwiceStaysRead` | pushify-api/src/routes/notifications.js:131-158 | A second PATCH succeeds again and leaves the document read, with the later read time. |
| `Endpoints.Find` | web-app/src/utils/environments.js:30-35 | The first position of a character, or -1 exactly when it is absent. |
| `Endpoints.GetByUser` | web-app/src/utils/environments.js:30-33 | `GET_BY_USER`: the `&status=` segment only for a truthy status. `GetByUserRoundTrip` and `GetByUserDefaultHasNoStatus` state what it builds. |
| `Endpoints.GetByUserRoundTrip` | web-app/src/utils/environments.js:30-33 | The user id (without `&`) and the status are read back from the URL by `ParseGetByUser`, the model's own inverse of the builder. |
| `Endpoints.FindAfter` | web-app/src/utils/environments.js:31-35 | The first occurrence of a separator is the one right after a part that holds none. |
| `Endpoints.ParseUserQueryWithStatus` | web-app/src/utils/environments.js:31-33 | A user id without `&` followed by a status segment reads back as that id and status. |
| `Endpoints.GetByUserDefaultHasNoStatus` | web-app/src/utils/environments.js:30 | With the default status, the URL is the prefix and the user id, with no `&status=` segment. |
| `Endpoints.GetByUserNotEscaped` | web-app/src/utils/environments.js:31 | A user id holding `&status=read` gives the URL of a status query. |
| `Endpoints.MarkAsReadUrl` | web-app/src/utils/environments.js:34-35 | `MARK_AS_READ`. `MarkAsReadRoundTrip` and `MarkAsReadNotInjective` state what it builds. |
| `Endpoints.MarkAsReadRoundTrip` | web-app/src/utils/environments.js:34-35 | The notification id (without `/`) and the user id are read back from the URL by `ParseMarkAsRead`, the model's own inverse of the builder. |
| `Endpoints.ParseReadPathOf` | web-app/src/utils/environments.js:35 | A notification id without `/` followed by the read segment reads back as that id and user id. |
| `Endpoints.MarkAsReadNotInjective` | web-app/src/utils/environments.js:35 | Two different id and user pairs give the same URL. |
| `Endpoints.StreamUrl` | web-app/src/utils/environments.js:41 | `SSE.STREAM`. `StreamUrlRoundTrip` and `StreamUrlNotEscaped` state what it builds. |
| `Endpoints.FirstOf` | broadcaster-api/src/routes/stream.js:14 | The first position holding one of the given characters, or the length when there is none. |
| `Endpoints.StreamUserOf` | broadcaster-api/src/routes/stream.js:14-15 | What the route reads back from the URL as built is non-empty and holds no `/`, `?` or `#`, and its `STREAM` URL begins the URL it was read from. Query and fragment are not part of the path. A trailing `/` is allowed. The browser's URL normalisation is not applied first. |
| `Endpoints.StreamUrlRoundTrip` | broadcaster-api/src/routes/stream.js:14-15 | A non-empty user id free of `/`, `?`, `#` and `%`, put in the `STREAM` URL, is the id `StreamUserOf` reads back from that URL as built. The browser's URL normalisation is not applied first. |
| `Endpoints.StreamUrlNotEscaped` | web-app/src/utils/environments.js:41 | A user id holding `/`, `?` or `#` is never the id the route reads back, and `a/b` reaches no stream route at all. |
| `Endpoints.GetEndpoint` | web-app/src/utils/environments.js:96-101 | Both branches return the entry unchanged. |

## Findings

| source | as written | input that shows it | evidently intended | confidence | as-written member | corrected member |
|---|---|---|---|---|---|---|
| broadcaster-api/src/services/redis-subscriber.js:61-65 | The broadcast branch calls `connections.getAllConnections()`. The connection manager defines no such method, so a TypeError is raised and swallowed by the `catch` in `handleNotification`. | A `notifications` message with recipient `{type: "broadcast"}` while user `u1` is connected: nothing is written. | Write the frame once to every registered user response. | not executed | `RedisRouting.AsWrittenWrites`, `RedisRouting.AsWrittenBroadcastReachesNobody` | `RedisRouting.HandleNotification`, `RedisRouting.BroadcastReachesEveryUser` |

## Left out

- I/O is not modelled:
  - Express routing
  - headers and `flushHeaders`
  - CORS
  - logging
  - `listen`
  - the health endpoints, which only report `getConnectionCount`
  - the Redis client's `connect`, `close` and `isConnected` bookkeeping
- The database and bus client wrappers are replaced by abstract stores and outcome parameters. The exception is the two update shapes the routes rely on: `markAsDelivered` and `markAsRead`. `createNotification` is recorded as a `StoreCreate` effect in `Post`'s trace, and no store gains the document. The store query behind `GET /notifications` (filter, order by `createdAt` descending, limit 50) is a parameter.
- JSON parsing and serialisation, base64 decoding, `uuidv4` and the clock are parameters. No property depends on their internals.
- Concurrency: the handlers' `await` points are treated as atomic. Registry changes made by other requests while a handler waits on the store are not modelled. Neither are overlapping heartbeat timers.
- The aliasing of the live group array returned by `getGroupConnections` is not modelled. Targets are a value snapshot of the registry.
- `Stream.Session.Open`: assumes the two `connected` writes succeed. A throw there would escape the route handler before the close and error handlers are attached.
- `ClientStore.Cutoff`: subtracts seven times 86 400 000 ms. `setDate` works in local calendar days, which differ around daylight-saving changes.
- `ClientStore.NotificationStore.Load`: the `localStorage` entry is given already parsed. Storage quota failures in `saveToStorage` (caught and logged) are not modelled; a save always succeeds.
- The store's setters `setConnectionStatus`, `setLatestNotification`, `clearLatestNotification` and `setInitialized` only assign a flag and are not modelled. Neither is the in-place aliasing of the object `find` returns in `markNotificationAsRead`.
- Date fields of client notifications are given as instants in milliseconds, or as absent or invalid. Date-string parsing is not modelled.
- Stored and sent objects keep only the fields the core reads or writes. All other fields travel as an opaque JSON text.
- `web-app/src/composables/useNotifications.js` is not part of this model. It covers fetch, EventSource reconnection and the installed mark-as-read function. `markAsRead` records the ids handed to that function instead.
- `Registry.BroadcastTargets` and the broadcast cases assume JavaScript Map insertion-order iteration, tracked by `order`.
- `Endpoints.StreamUserOf`: it reads the URL exactly as `STREAM` builds it, so two things in between are not modelled, and `StreamUrlRoundTrip` holds only for ids that neither of them changes.
  - Express percent-decodes `:userId`; the model reads the raw path segment. `StreamUrlRoundTrip` therefore requires an id without `%`.
  - `EventSource` first parses the URL with the WHATWG URL parser. That parser removes the dot segments `.` and `..`, turns `\` into `/`, strips tab, LF and CR, and strips trailing spaces and control characters. Ids such as `.`, `..`, `a\b` or `u1 ` therefore do not reach the route as built.
- `Endpoints.StreamUrlRoundTrip`: this is weaker than "the route reads the id back". It is stated against `StreamUserOf`, so it does not exclude the ids that the browser's URL parser rewrites, as listed in the line above.
- `Endpoints.ParseGetByUser`, `Endpoints.ParseMarkAsRead`: these are the model's own inverses of the URL builders, not the producer API's Express query parsing. That parsing decodes `+` and `%XX`, treats `#` as the start of a fragment, and ends the path at a `?` in the notification id. The round trips state that the builders lose no information, not what the server reads.

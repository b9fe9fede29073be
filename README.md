# Kubernetes monitoring backend — a verified model

This project models the core of a Go backend that watches a Kubernetes cluster and serves what it sees over HTTP. The model covers:

- **Events.** One namespace's core/v1 events are watched. Each is translated into a domain event and stored in a Postgres `events` table. `GET /events` reads them back ordered by last timestamp, newest first, up to a limit. The last timestamp is the zero time for every event that was not deleted, so most rows tie; see "## Left out" for how the model orders ties.
- **Nodes and pods.** Usage read from Prometheus is joined with the node and pod lists, giving one entry per node or pod with usage, capacity, requests, limits, roles and status.
- **Telegram alerts.** Subscriptions live in a `telegram_alerts` table with create, update, delete, get and list operations. The service sends messages through bot clients, which it caches by token. The HTTP handlers validate ids and bodies, and their replies never show the bot token.
- **Start-up strings.** The Postgres connection URI, and the PEM wrapping of the Casdoor certificate and of the auth key.

External parties become parameters:

- What the Kubernetes watch delivers is a trace of inputs. Each (re)connection is an oracle giving a watcher, an error, or both; a failed call may give no watcher at all (Go's nil interface). After a failed re-watch the loop keeps whatever the call gave. When that is no watcher, the next `select` panics on `watcher.ResultChan()` and the model ends the run as panicked.
- Prometheus is an oracle from query text to reply.
- Telegram is the outcome of creating a bot and of sending.
- For each statement, the database is an optional error.

Tables are classes holding a sequence of rows. Go's integer semantics are written out where they matter: truncating division, the int64 range, `strconv.ParseInt`/`Atoi` in base 10, and `%d`.

| file | models |
|---|---|
| `wrappers.dfy`, `goint.dfy`, `decimal.dfy`, `seqs.dfy`, `strings.dfy`, `ordering.dfy` | Option/Result, Go integer division and MiB conversion, base-10 parsing and formatting, filtering, splitting text, `ORDER BY ... DESC` |
| `event_types.dfy`, `kube_events.dfy` | the domain event; translation of a core/v1 Event and the watch / re-watch / cancel loop |
| `event_store.dfy`, `event_service.dfy`, `event_controller.dfy` | the `events` table, the watch-to-store forwarding, `GET /events` |
| `nodes.dfy`, `pods.dfy` | node and pod metrics |
| `alert_types.dfy`, `alert_repository.dfy`, `alert_service.dfy`, `alert_controller.dfy` | Telegram alerts: types, table, service with bot cache, HTTP handlers |
| `database_dsn.dfy`, `env_config.dfy` | the Postgres URI and the PEM wrapping |

## Model

| member | source | states |
|---|---|---|
| GoInt.Quot | internal/infrastructure/kubernetes/nodes.go:99-100 | Go's `/` truncates toward zero: the quotient times the divisor stays on the dividend's side of zero, within one divisor of it |
| GoInt.MiBOfNonNegative | internal/infrastructure/kubernetes/nodes.go:99-100 | `/ 1024 / 1024` of a non-negative byte count is its floor division by 1048576 |
| GoInt.MiBIsOdd | internal/infrastructure/kubernetes/pods.go:53-56 | a negative quantity converts to the negation of its magnitude's MiB, rounding toward zero |
| Decimal.ParseInt64 | internal/domain/alerts/telegram_alert_service.go:87 | an accepted text is a non-empty run of digits after an optional sign, and its value lies in the int64 range; a negative value needs a leading '-' |
| Decimal.FormatNatReadsBack | internal/infrastructure/kubernetes/nodes.go:107 | `%d` of a natural number is a non-empty digit string whose value is that number |
| Decimal.ParseSignedDigits | internal/application/api/event_controller.go:31-32 | an optional sign and a non-empty digit run are accepted exactly when the value is in the int64 range, and give that value; leading zeros, '+' and "-0" included |
| Decimal.FormatThenParse | internal/application/api/event_controller.go:29-31 | parsing what `%d` printed gives back every int64 |
| KubeEvents.Translate | internal/infrastructure/kubernetes/events.go:43-57 | each domain field comes from its core/v1 field; the involved object is "kind/name"; the last timestamp is the deletion timestamp, or zero time without one |
| KubeEvents.InvolvedObjectReadsBack | internal/infrastructure/kubernetes/events.go:43 | when the kind holds no '/', splitting the involved object at the first '/' gives kind and name back |
| KubeEvents.Live | internal/infrastructure/kubernetes/events.go:60-63 | the longest cancel-free prefix of the trace |
| KubeEvents.Handled | internal/infrastructure/kubernetes/events.go:23-36 | the loop handles inputs up to the end of the trace, the first cancellation, or the first point where it holds no watcher |
| KubeEvents.HandledIsLive | internal/infrastructure/kubernetes/events.go:23-63 | while every Watch call gives a watcher, the loop handles exactly the cancel-free prefix |
| KubeEvents.WatchEvents | internal/infrastructure/kubernetes/events.go:12-69 | a failed first watch is returned as the error; otherwise the loop's run is the reference run: events translated in order, one re-watch per closed channel, a panic once the watcher held is nil, otherwise the watcher stopped on cancel |
| KubeEvents.EmittedInOrder | internal/infrastructure/kubernetes/events.go:59 | the events sent for two consecutive stretches of input are those of the first followed by those of the second |
| KubeEvents.EmittedExactly | internal/infrastructure/kubernetes/events.go:38-42 | an event is sent exactly when some input carried a core/v1 Event that translates to it |
| KubeEvents.OneEventPerCoreEvent | internal/infrastructure/kubernetes/events.go:38-59 | a core/v1 Event yields exactly one domain event; any other object yields none |
| KubeEvents.NothingAfterCancel | internal/infrastructure/kubernetes/events.go:60-63 | after a cancellation nothing more is sent, and the watcher held is stopped, provided every Watch call so far gave one |
| KubeEvents.RunsUntilCancelled | internal/infrastructure/kubernetes/events.go:23-36 | without cancellation, and with a watcher from every Watch call, every event is sent, the loop keeps running, and the namespace is watched once plus once per closed channel |
| KubeEvents.ReconnectContinues | internal/infrastructure/kubernetes/events.go:26-35 | when the re-watch gives a watcher, with an error or without, a closed channel loses no event before or after it, and every re-watch is for the same namespace |
| KubeEvents.FailedRewatchPanics | internal/infrastructure/kubernetes/events.go:25-33 | a re-watch that gives no watcher ends the loop in a panic: nothing after the closure is read, not even a cancellation |
| KubeEvents.ClosuresAppend | internal/infrastructure/kubernetes/events.go:26 | closures of consecutive stretches add up |
| KubeEvents.OrderAcrossReconnect | internal/infrastructure/kubernetes/events.go:23-63 | for event, close, event, cancel, event: two events in order, two watch calls, the second watcher stopped |
| EventStore.Query | internal/infrastructure/database/events_pg_repository.go:46 | only rows of the namespace, ordered by last timestamp descending, at most `limit` of them, and all matching rows when fewer exist |
| EventStore.QueryReturnsNewest | internal/infrastructure/database/events_pg_repository.go:46 | a row of the namespace left out by the limit is no newer than any row returned |
| EventStore.EventTable.SaveEvent | internal/infrastructure/database/events_pg_repository.go:22-38 | the event is appended with all ten fields; on a database error nothing is stored and the error is returned unchanged |
| EventStore.EventTable.GetEvents | internal/infrastructure/database/events_pg_repository.go:40-58 | a non-positive limit is rejected before any query; a query failure is wrapped; otherwise the table's query result |
| Events.Stored | internal/domain/events/event_service.go:42-45 | the rows a sequence of saves stores is at most one per event |
| Events.StoredAllWhenNoErrors | internal/domain/events/event_service.go:42-45 | with no save failing, every received event is stored in order |
| Events.StoredExactly | internal/domain/events/event_service.go:42-45 | a failed save loses only its own event: an event is stored exactly when a call saving it succeeded |
| Events.StoredNoneWhenAllFail | internal/domain/events/event_service.go:43-45 | with every save failing nothing is stored, and the loop goes on |
| Events.EventService.StartWatching | internal/domain/events/event_service.go:33-53 | a failed watch is returned and nothing is stored; otherwise each event the watch sends is saved once, in order, and no error is reported |
| Events.EventService.GetEvents | internal/domain/events/event_service.go:55-57 | the repository's answer, unchanged |
| EventController.ServiceArguments | internal/application/api/event_controller.go:28-36 | the limit is rejected exactly when it is not a base-10 integer or not positive; otherwise the service gets the namespace as given and that limit |
| EventController.ListEvents | internal/application/api/event_controller.go:27-49 | 400 exactly when the limit is rejected, 500 exactly when the service fails, 200 exactly otherwise; a 200 carries the service's events unchanged with `total` their count, and an error reply only its message ("invalid limit parameter" or "failed to list events") |
| EventController.RejectedLimitSkipsService | internal/application/api/event_controller.go:32-35 | a rejected limit gives the same reply whatever the service would have answered |
| EventController.AbsentLimitMeansHundred | internal/application/api/event_controller.go:29 | without a limit parameter the service is asked for 100 events |
| EventController.EmptyLimitRejected | internal/application/api/event_controller.go:29-35 | an empty limit parameter is given as is, not defaulted, and is rejected |
| EventController.NonPositiveLimitRejected | internal/application/api/event_controller.go:32 | zero and every negative limit are rejected |
| EventController.ReplyFromTable | internal/application/api/event_controller.go:38-48 | over the table, a valid request is answered with the table's query result |
| Nodes.GetNodeMetrics | internal/infrastructure/kubernetes/nodes.go:30-79 | a list error is returned; otherwise one metric per node whose two queries both answer, in list order |
| Nodes.FailingNodeIsSkipped | internal/infrastructure/kubernetes/nodes.go:42-45 | a node whose CPU or memory query fails contributes nothing, and the other nodes are kept |
| Nodes.HealthyNodeIsKept | internal/infrastructure/kubernetes/nodes.go:46-75 | a node whose queries both answer contributes exactly one metric, in its place |
| Nodes.GetNodeRoles | internal/infrastructure/kubernetes/nodes.go:120-129 | "control-plane" and "worker" are listed exactly when their labels exist, control-plane first, nothing else |
| Nodes.GetNodeStatus | internal/infrastructure/kubernetes/nodes.go:131-138 | "Ready" exactly when some condition is Ready/True, otherwise "NotReady" |
| Nodes.FirstNamed | internal/infrastructure/kubernetes/nodes.go:84-93 | none exactly when no node has the name; otherwise a node of the list with that name |
| Nodes.FirstNamedAt | internal/infrastructure/kubernetes/nodes.go:85-89 | the lookup stops at the first node with the name |
| Nodes.NodeFromMetrics | internal/infrastructure/kubernetes/nodes.go:81-118 | one entry per metric whose node is listed, in metric order, the others skipped |
| Nodes.JoinedExactly | internal/infrastructure/kubernetes/nodes.go:83-115 | an entry is produced exactly for a metric some node is named after, from that metric and the first such node |
| Nodes.UsageReadsBack | internal/infrastructure/kubernetes/nodes.go:107-110 | stripping "m" or "Mi" from a usage column leaves the decimal text of the millicores or of the MiB |
| Nodes.GetNodes | internal/infrastructure/kubernetes/nodes.go:16-28 | either list error is returned; otherwise the metrics of the first list joined with the second list |
| Pods.PodCpuUsage | internal/infrastructure/kubernetes/pods.go:101-111 | no error exactly when the query answers a non-empty vector, and then its first sample; on any error 0 |
| Pods.PodMemoryUsage | internal/infrastructure/kubernetes/pods.go:113-123 | no error exactly when the query answers a non-empty vector, and then its first sample in MiB; on any error 0 |
| Pods.PodEntry | internal/infrastructure/kubernetes/pods.go:20-96 | usage, requests, limits, restarts and start time of a pod; a percentage is present exactly when its limit is positive |
| Pods.GetPods | internal/infrastructure/kubernetes/pods.go:13-99 | a list error is returned; otherwise exactly one entry per pod, in list order, whatever the usage queries answer |
| Pods.FailedUsageShowsZero | internal/infrastructure/kubernetes/pods.go:27-37 | failed usage queries leave the pod listed with usage 0 |
| Pods.NoContainersNoLimits | internal/infrastructure/kubernetes/pods.go:40-69 | a pod without containers has zero requests and limits and no percentages |
| Pods.SubMebibyteLimitHasNoPercent | internal/infrastructure/kubernetes/pods.go:56-69 | a memory limit below 1 MiB truncates to 0, so no memory percentage is given |
| AlertTypes.ToResponse | internal/application/api/telegram_alert_controller.go:37-44 | the response together with the bot token gives back the alert |
| AlertTypes.FromResponse | internal/domain/alerts/telegram_alert.go:23-31 | the rebuilt alert carries the token supplied |
| AlertTypes.ResponseHidesToken | internal/domain/alerts/telegram_alert.go:23-31 | the response does not depend on the bot token |
| AlertTypes.ResponseKeepsTheRest | internal/application/api/telegram_alert_controller.go:37-44 | alerts with equal responses differ at most in the token |
| AlertRepository.Inserted | internal/infrastructure/database/telegram_alert_repository.go:22-31 | the stored row takes the five written columns from the input, and its id and creation time from the table |
| AlertRepository.Overwritten | internal/infrastructure/database/telegram_alert_repository.go:46-54 | an updated row keeps its id and creation time and takes the rest from the input |
| AlertRepository.Updated | internal/infrastructure/database/telegram_alert_repository.go:45-60 | the rows with the id are overwritten, every other row is unchanged, the row count stays |
| AlertRepository.FindById | internal/infrastructure/database/telegram_alert_repository.go:75-80 | a row is found exactly when some row has the id, and it is a row of the table with that id |
| AlertRepository.FindsTheRow | internal/infrastructure/database/telegram_alert_repository.go:75-80 | with distinct ids the row found is the one row with that id |
| AlertRepository.FilterKeepsDistinct | internal/infrastructure/database/telegram_alert_repository.go:63-66 | deleting rows keeps the ids distinct |
| AlertRepository.UpdateKeepsIds | internal/infrastructure/database/telegram_alert_repository.go:46-54 | an update never changes an id |
| AlertRepository.UpdateOfMissingIdChangesNothing | internal/infrastructure/database/telegram_alert_repository.go:55-59 | updating an id no row has leaves the table as it was |
| AlertRepository.DeleteOfMissingIdChangesNothing | internal/infrastructure/database/telegram_alert_repository.go:67-71 | deleting an id no row has leaves the table as it was |
| AlertRepository.DeleteRemovesOnlyThatId | internal/infrastructure/database/telegram_alert_repository.go:63-66 | after a delete no row has the id, and every other row keeps its multiplicity |
| AlertRepository.ListingsAreFromTheTable | internal/infrastructure/database/telegram_alert_repository.go:87-112 | a listed alert is a row of the table and, for the namespace listing, exactly a row of that namespace |
| AlertRepository.AlertTable.constructor | internal/infrastructure/database/telegram_alert_repository.go:14-19 | an empty table whose serial starts at 1 |
| AlertRepository.AlertTable.CreateAlert | internal/infrastructure/database/telegram_alert_repository.go:21-43 | a failed insert stores nothing; otherwise one row is appended with a fresh id; a failed id scan is reported although the row stays; the caller's alert is not updated |
| AlertRepository.AlertTable.UpdateAlert | internal/infrastructure/database/telegram_alert_repository.go:45-60 | the update over the table, or no change on a database error; a missing id is no error; ids stay distinct |
| AlertRepository.AlertTable.DeleteAlert | internal/infrastructure/database/telegram_alert_repository.go:62-72 | the rows with the id are removed, or none on a database error; a missing id is no error |
| AlertRepository.AlertTable.GetAlert | internal/infrastructure/database/telegram_alert_repository.go:74-85 | the row with the id, and the no-rows error exactly when no row has it |
| AlertRepository.AlertTable.GetAlertsByNamespace | internal/infrastructure/database/telegram_alert_repository.go:87-99 | exactly the namespace's rows, each once, newest first |
| AlertRepository.AlertTable.GetAllAlerts | internal/infrastructure/database/telegram_alert_repository.go:101-112 | all rows, each once, newest first |
| AlertService.BotLookup | internal/domain/alerts/telegram_alert_service.go:56-79 | cached entries are kept as they were, only the token's entry can be added, and a returned bot is the one cached under the token |
| AlertService.CachedBotStays | internal/domain/alerts/telegram_alert_service.go:77 | once cached, a token keeps the same bot across any sequence of lookups |
| AlertService.LaterLookupsAgree | internal/domain/alerts/telegram_alert_service.go:58-63 | every later lookup of a cached token returns the same bot and leaves the cache as it is |
| AlertService.TelegramAlertService.GetBot | internal/domain/alerts/telegram_alert_service.go:56-79 | a hit returns the cached bot and creates none; a miss creates one and caches it on success; a failed creation changes nothing |
| AlertService.TelegramAlertService.SendAlert | internal/domain/alerts/telegram_alert_service.go:81-103 | no bot: its error and nothing sent; a chat id that is not a base-10 int64: "invalid chat ID" and nothing sent, the bot staying cached; otherwise the message with the thread as reply-to is sent and a send error is wrapped |
| AlertService.TelegramAlertService.CreateAlert | internal/domain/alerts/telegram_alert_service.go:32-34 | the repository's create, its effect and error unchanged: the new row takes the current serial, which advances only when the insert succeeds |
| AlertService.TelegramAlertService.UpdateAlert | internal/domain/alerts/telegram_alert_service.go:36-38 | the repository's update, unchanged |
| AlertService.TelegramAlertService.DeleteAlert | internal/domain/alerts/telegram_alert_service.go:40-42 | the repository's delete, unchanged |
| AlertService.TelegramAlertService.GetAlert | internal/domain/alerts/telegram_alert_service.go:44-46 | the repository's answer, unchanged |
| AlertService.TelegramAlertService.GetAlertsByNamespace | internal/domain/alerts/telegram_alert_service.go:48-50 | the repository's answer, unchanged |
| AlertService.TelegramAlertService.GetAllAlerts | internal/domain/alerts/telegram_alert_service.go:52-54 | the repository's answer, unchanged |
| AlertController.ToResponses | internal/application/api/telegram_alert_controller.go:137-147 | one response per alert, in order, each its token-free mapping |
| AlertController.TelegramAlertController.CreateAlert | internal/application/api/telegram_alert_controller.go:24-46 | an unbindable body gives 400 and stores nothing; a failure gives 500; success gives 201 echoing the body's id and time, not the ones stored |
| AlertController.TelegramAlertController.UpdateAlert | internal/application/api/telegram_alert_controller.go:48-78 | the path id is checked first, then the body, and neither failure touches the table; the path id replaces the body's; the id serial never moves |
| AlertController.TelegramAlertController.DeleteAlert | internal/application/api/telegram_alert_controller.go:80-95 | a bad path id gives 400 and deletes nothing; otherwise the delete, then 500 or the fixed message; the id serial never moves |
| AlertController.TelegramAlertController.GetAlert | internal/application/api/telegram_alert_controller.go:97-121 | a bad path id gives 400; a missing row or failed query gives 500; otherwise 200 with the row's token-free response |
| AlertController.TelegramAlertController.GetAlertsByNamespace | internal/application/api/telegram_alert_controller.go:123-153 | an empty namespace gives 400; otherwise one response per listed alert in order, and `total` is their count |
| AlertController.TelegramAlertController.GetAllAlerts | internal/application/api/telegram_alert_controller.go:155-179 | one response per alert in order, and `total` is their count, or 500 |
| DatabaseDsn.Dsn | pkg/database.go:34-39 | the URI starts with "postgres://"; its length is that of the components plus the separators, with credentials only when user and password are both non-empty, so nothing is escaped; settings without separators read back as the settings it keeps |
| DatabaseDsn.Kept | pkg/database.go:35-36 | a user without a password, or a password without a user, is dropped together with the other |
| DatabaseDsn.NoEscaping | pkg/database.go:38 | nothing is escaped: credentials that join to the same "user:pass" text give the same URI |
| DatabaseDsn.NoEscapingExample | pkg/database.go:38 | user "a:b" with password "c" and user "a" with password "b:c" give the same URI |
| EnvConfig.Wrap | internal/config/env.go:98-99 | a PEM block is the header line, the body and the footer line, each recoverable by position |
| EnvConfig.Unwrap | internal/config/env.go:98-103 | a body found between header and footer wraps back to the text it came from |
| EnvConfig.UnwrapOfWrap | internal/config/env.go:98-103 | unwrapping a wrapped body gives it back |
| EnvConfig.WrapKeys | internal/config/env.go:98-103 | the certificate is wrapped only when its raw form is non-empty, otherwise left as it was; the public key is always the wrapped auth key |
| EnvConfig.WrappedKeysReadBack | internal/config/env.go:99-103 | stripping the header and footer lines gives back the raw certificate and the auth key |
| EnvConfig.EmptyKeyStillWrapped | internal/config/env.go:103 | an empty auth key gives a PEM block with an empty body |
| EnvConfig.WrapKeysTwice | internal/config/env.go:98-103 | running the step twice gives what running it once gives |

## Left out

- Concurrency is modelled as a sequential trace. The watch goroutine, the forwarding goroutine, `select` and the bot-cache lock are not modelled. The model follows each event straight from the watch to `SaveEvent`, so it does not capture the forwarder reading zero-valued events from the closed channel after a cancellation.
- When an item and a cancellation are ready together, `select` picks one at random; the trace fixes one order.
- KubeEvents.WatchEvents: whether a failed Watch call also gives a watcher is left to the oracle. The Kubernetes client library, which is not part of this model, gives none, and then the loop panics (FailedRewatchPanics). If a failed call does give a watcher, the loop keeps receiving from it, and what that watcher's channel does is the library's behaviour. The one-second and five-second sleeps are not modelled.
- KubeEvents.WatchEvents: cancelling the context can also close the watcher's channel, and `select` may see the closure first. The re-watch under the cancelled context then fails, and with no watcher the loop panics instead of returning. A trace can express this as a closure followed by a failed re-watch, but the model does not tie the closure to the cancellation.
- KubeEvents.NothingAfterCancel: the stop of the watcher assumes the watch goroutine gets back to its `select`. If it is blocked in the unbuffered send (internal/infrastructure/kubernetes/events.go:59) when the forwarder returns on cancellation (internal/domain/events/event_service.go:46-47), it stays blocked, and the watcher is never stopped. The model does not capture this.
- Events.EventService.StartWatching: the saves it lists assume the process survives the run. When the run ends in a panic (`Panicked`), the Go process dies, and the last event handed to the forwarding goroutine may never reach SaveEvent. The ensures still list it among the saves.
- EventStore.Query: `ORDER BY last_timestamp DESC LIMIT n` leaves open both the order of rows with equal timestamps and which of them a limit keeps. The model fixes both: ties keep storage order, so the earliest-stored rows are returned. The last timestamp is the zero time for every event that was not deleted, so most rows tie, and Postgres may return any `limit` of them. The properties that hold whatever the database picks are stated on Query: right namespace, descending timestamps, at most `limit` rows, all of them when fewer exist, and QueryReturnsNewest.
- EventStore.EventTable.GetEvents: returns Query's choice among tied rows; see EventStore.Query.
- EventController.ReplyFromTable: answers with Query's choice among tied rows; see EventStore.Query.
- AlertRepository.ByNamespaceResult: `ORDER BY created_at DESC` leaves the order of rows with equal creation times open; the model keeps their storage order.
- AlertRepository.AllResult: ties in `created_at` keep storage order, as in ByNamespaceResult.
- AlertRepository.AlertTable.GetAlertsByNamespace: returns ByNamespaceResult's order among ties; the multiset of rows returned is exact.
- AlertRepository.AlertTable.GetAllAlerts: returns AllResult's order among ties; the multiset of rows returned is exact.
- KubeEvents.WatchEvents: the watch notification's type (added, modified, deleted) is ignored, as in the source: every core/v1 Event is sent.
- The domain event struct in internal/domain/events/events.go is not part of this model: it has a numeric ID and a single timestamp, and the watch code uses the ten-field form modelled here.
- Floating point. The CPU and memory percentages are modelled as the numerator and denominator they are computed from. A percentage that is present or absent is modelled as exactly that. Prometheus samples are already integers in the model, so the float-to-int64 conversion of a sample is part of the oracle.
- Nodes.GetNodes: `GetNodes` and `getNodeMetrics` in internal/infrastructure/kubernetes/client.go duplicate those in nodes.go; the nodes.go versions are modelled.
- Pods.PodEntry: the start time is taken as its RFC 3339 text; time formatting is library code.
- Error texts built by `strconv`, the Kubernetes client, the database driver or Telegram are not modelled. Errors are kept as their cause, wrapped by the constructor that names the source's message.
- `time.Now`, `time.Sleep`, logging, JSON binding and encoding, and routing are not modelled. The pod, node and namespace HTTP controllers are not modelled either: they only call time parsing and the Kubernetes client.
- Database: the URI is not parsed by the driver, the connection is not pinged and the migration is not run. Table defaults are parameters: the serial id and the creation time. A failed insert is assumed not to consume a serial value. CreateAlert calls `NamedQuery` (internal/infrastructure/database/telegram_alert_repository.go:31), which the `Database` interface (pkg/database.go:15-25) does not declare. The model treats that call as one insert that either stores the row and yields its id or fails.
- EnvConfig: loading the settings with Viper (internal/config/env.go:48-96) is not modelled; only the wrapping step after it is.
- The watched-namespace repository is not part of this model.
- JWT parsing (pkg/tokenutil/tokenutil.go) and the dependency-injection wiring are not part of this model.

# Identity-request status service — a Dafny model

This project models the core of a small Spring service. A caller starts an
*identity request* and later learns whether it was approved ("complete") or
rejected. Progress is reported over a web socket.

- The **request store** (`IdentityRequestManager`) keeps one mutable
  `IdentityRequest` record per id. It creates records and resolves them
  (complete/reject, with the approving principal's `upn`). It hands out
  immutable snapshots (`IdentityRequestState`). A periodic sweep expires
  in-progress requests after 10 minutes and is meant to evict every request
  after 60.
- The **subscription registry** (`CancelableFutureStorage`) maps a
  subscription key to the future of a recurring publisher task. Its `remove`
  cancels the task and only takes out a task that is done or whose cancel
  succeeded. Its `replace` cancels the task it displaces. Its inherited `put`
  cancels nothing.
- The **web-socket controller** (`WebSocketAuthorizeController`) handles three
  events:
  - subscribe: build the key, schedule a publisher and file its future;
  - unsubscribe: remove every key of that session and subscription id;
  - disconnect: remove every key of that session.

  Each run of a publisher reads the request's state, sends it to the key's
  user on `/queue/requestResolved` with an `identityRequestId` header, and
  removes its own entry.

Files and modules:

| file | module | models |
|---|---|---|
| `wrappers.dfy` | `Wrappers` | `Option`, which stands for Java's `null` |
| `identity_request.dfy` | `Request` | `IdentityRequest`, `Status`, `IdentityRequestState` |
| `identity_request_manager.dfy` | `RequestManager` | `IdentityRequestManager`: a class over a map of record objects; `Contents()` is its abstract value, and `Swept`/`Resolved` are the specification functions its methods are proved against |
| `cancelable_future_storage.dfy` | `FutureStorage` | `CancelableFutureStorage` and the `ScheduledFuture` handle it stores |
| `web_socket_authorize_controller.dfy` | `AuthorizeController` | the controller, `IdentityRequestSubscriptionKey`, and the publisher's run |
| `scenarios.dfy` | `Scenarios` | end-to-end client runs checked against the contracts alone |

Modelling choices:

- The clock reading (`LocalDateTime.now()`) is an `Instant` parameter in milliseconds. The fresh id (`UUID.randomUUID()`) is a parameter.
- The executor is the caller: a scheduled run of a publisher is one call of `PublisherTick`.
- Whether a `cancel` wins its race with the task is an input (`cancelSucceeds`).
- A run of a periodic task that throws completes its future. The model sets the state to `Done`.
- A delivery is appended to the controller's `sent` sequence.

Where the documented design of the system and its code disagree, the model follows the code. Two
of the points below also depend on the two defects under "## Findings"; each says which version of
the code it is about.

- A new record has no status at all (`null`), not `InProgress`. The sweep only expires records whose status is `IN_PROGRESS`, so a request nobody resolves is never expired, by either version of the sweep.
  - Under the corrected sweep it is evicted after 60 minutes (`RequestManager.UnresolvedNeverExpires`).
  - Under the sweep as written nothing is ever evicted, because the sweep throws at the first record past 60 minutes (`RequestManager.SweepAsWrittenThrows`).
- `put` is not overridden. Subscribing twice under one key overwrites the first future without cancelling it.
  - Under the corrected key the displaced task keeps running, can no longer be found, and delivers again on every run (`Scenarios.DoubleSubscribeLeaksFirstTask`).
  - Under the key as written every task polls the user name instead of the request. Its first run finds no state, throws and is done, leaving a done future filed until unsubscribe or disconnect (`Scenarios.AsBuiltKeyNeverDelivers`).
- The publisher does not check the status. It delivers on the first state it can read, including one with no status (`Scenarios.UnresolvedRequestIsDelivered`).
- When the request is missing, the publisher dereferences `null` and throws. Nothing is delivered and the task is never run again.

## Model

| member | source | states |
|---|---|---|
| Request.AllStatuses | src/main/java/com/truu/hiring/service/IdentityRequest.java:7-9 | there are exactly four statuses |
| Request.StatusInAll | src/main/java/com/truu/hiring/service/IdentityRequest.java:7-9 | every status is one of the four |
| Request.IdentityRequest.constructor | src/main/java/com/truu/hiring/service/IdentityRequest.java:16-19 | a new record has its id, the current time as creation time, and neither status nor upn |
| Request.IdentityRequest.SetStatus | src/main/java/com/truu/hiring/service/IdentityRequest.java:29-31 | sets the status and leaves the upn alone |
| Request.IdentityRequest.SetUpn | src/main/java/com/truu/hiring/service/IdentityRequest.java:41-43 | sets the upn and leaves the status alone |
| RequestManager.ExpireIfDue | src/main/java/com/truu/hiring/service/IdentityRequestManager.java:66-68 | a record ends expired iff it was expired already, or was in progress with creation + 10 min strictly before now; the only status change is in-progress to expired; id, creation time and upn are kept |
| RequestManager.Swept | src/main/java/com/truu/hiring/service/IdentityRequestManager.java:61-73 | the intended sweep: a record stays iff creation + 60 min is not before now, and each survivor is the expiry test applied to it; records stay filed under their own ids |
| RequestManager.ExpireIfDueLater | src/main/java/com/truu/hiring/service/IdentityRequestManager.java:66-68 | applying the expiry test at t1 and then at t2 >= t1 is applying it once at t2 |
| RequestManager.SweptLater | src/main/java/com/truu/hiring/service/IdentityRequestManager.java:61-73 | a sweep at t1 followed by one at t2 >= t1 equals one sweep at t2, so repeated sweeps are idempotent |
| RequestManager.SweptNeverRestartsProgress | src/main/java/com/truu/hiring/service/IdentityRequestManager.java:66-68 | a record in progress after a sweep was in progress before and not yet overdue |
| RequestManager.UnresolvedNeverExpires | src/main/java/com/truu/hiring/service/IdentityRequestManager.java:22-26 | a created, never-resolved record survives a sweep iff it is not due for eviction, and then still has no status |
| RequestManager.SweepAsWritten | src/main/java/com/truu/hiring/service/IdentityRequestManager.java:61-73 | the sweep as written, over one iteration order: it gives each walked record the expiry test and stops with `threw` at the first record past 60 min; it keeps every key, and each record is either unchanged or expiry-tested |
| RequestManager.SweepAsWrittenThrows | src/main/java/com/truu/hiring/service/IdentityRequestManager.java:69-71 | as written, the sweep throws iff some record it walks is due for eviction |
| RequestManager.SweepAsWrittenWalk | src/main/java/com/truu/hiring/service/IdentityRequestManager.java:65-68 | with nothing due for eviction, the walk expires exactly the walked records and leaves the others as they were |
| RequestManager.SweepAsWrittenAgrees | src/main/java/com/truu/hiring/service/IdentityRequestManager.java:61-73 | with nothing due for eviction, the as-written sweep equals the intended one in every iteration order |
| RequestManager.SweepAsWrittenDiffers | src/main/java/com/truu/hiring/service/IdentityRequestManager.java:64-71 | with a record due for eviction, the as-written sweep throws and keeps it, where the intended sweep removes it |
| RequestManager.SweepAsWrittenExample | src/main/java/com/truu/hiring/service/IdentityRequestManager.java:61-73 | a request created at 0 and swept just after 60 minutes: as written, it is expired, kept, and the sweep throws; intended, the store is empty |
| RequestManager.Resolved | src/main/java/com/truu/hiring/service/IdentityRequestManager.java:28-46 | resolving keeps the key set, sets status and upn of that id only if present, and changes no other record |
| RequestManager.ResolveOverwrites | src/main/java/com/truu/hiring/service/IdentityRequestManager.java:38-45 | resolution has no status guard: a completed, rejected or expired request is overwritten |
| RequestManager.IdentityRequestManager.constructor | src/main/java/com/truu/hiring/service/IdentityRequestManager.java:20 | the store starts empty |
| RequestManager.IdentityRequestManager.CreateRequest | src/main/java/com/truu/hiring/service/IdentityRequestManager.java:22-26 | files a fresh record (now, no status, no upn) under its id, keeps every other entry and returns that record |
| RequestManager.IdentityRequestManager.CompleteRequest | src/main/java/com/truu/hiring/service/IdentityRequestManager.java:28-36 | returns whether the id exists; the store becomes `Resolved(old, id, Complete, upn)`; `shouldDelete` changes nothing |
| RequestManager.IdentityRequestManager.RejectRequest | src/main/java/com/truu/hiring/service/IdentityRequestManager.java:38-46 | returns whether the id exists; the store becomes `Resolved(old, id, Rejected, upn)` |
| RequestManager.IdentityRequestManager.GetRequestState | src/main/java/com/truu/hiring/service/IdentityRequestManager.java:48-59 | a snapshot iff the id exists (else `null`), holding that record's id, status and upn |
| RequestManager.IdentityRequestManager.ProcessRequests | src/main/java/com/truu/hiring/service/IdentityRequestManager.java:61-73 | the corrected sweep: the store becomes `Swept(old, now)`, every surviving record is the same object as before, and every record it walked, evicted ones included, got the expiry test in place |
| RequestManager.IdentityRequestManager.SweepEntry | src/main/java/com/truu/hiring/service/IdentityRequestManager.java:66-71 | one step of the sweep: the record gets the expiry test and its entry is removed iff it is due for eviction |
| FutureStorage.AfterCancel | src/main/java/com/truu/hiring/web/WebSocketAuthorizeController.java:262 | after a cancel no task is pending, and a task that was done or cancelled already is unchanged |
| FutureStorage.Future.constructor | src/main/java/com/truu/hiring/web/WebSocketAuthorizeController.java:155-160 | a newly scheduled task is pending |
| FutureStorage.Future.IsDone | src/main/java/com/truu/hiring/web/WebSocketAuthorizeController.java:257 | `isDone` holds iff the task completed (including by throwing) or was cancelled |
| FutureStorage.Future.Cancel | src/main/java/com/truu/hiring/web/WebSocketAuthorizeController.java:262 | cancel returns true iff the task was pending and the cancel won; the state becomes `AfterCancel` |
| FutureStorage.CancelableFutureStorage.constructor | src/main/java/com/truu/hiring/web/WebSocketAuthorizeController.java:53 | the registry starts empty |
| FutureStorage.CancelableFutureStorage.Put | src/main/java/com/truu/hiring/web/WebSocketAuthorizeController.java:161 | the inherited put overwrites, returns the previous future, and does not cancel it |
| FutureStorage.CancelableFutureStorage.Remove | src/main/java/com/truu/hiring/web/WebSocketAuthorizeController.java:254-273 | an entry is taken out and returned iff it exists and is done or its cancel succeeds, else `null` and no change; a present pending task is cancelled; no pending task ever leaves the map |
| FutureStorage.CancelableFutureStorage.RemoveKey | src/main/java/com/truu/hiring/web/WebSocketAuthorizeController.java:239-242 | `remove(key)` is `remove(key, true)` |
| FutureStorage.CancelableFutureStorage.Replace | src/main/java/com/truu/hiring/web/WebSocketAuthorizeController.java:275-282 | only a present key is replaced; the displaced future is returned and cancelled with interruption; an absent key changes nothing |
| AuthorizeController.NewKey | src/main/java/com/truu/hiring/web/WebSocketAuthorizeController.java:195-203 | the key's constructor takes the user name third and the request id fourth |
| AuthorizeController.KeyAsBuilt | src/main/java/com/truu/hiring/web/WebSocketAuthorizeController.java:78-83 | the key the subscribe handler builds: its request id is the user name and its user name is the request id |
| AuthorizeController.KeyIntended | src/main/java/com/truu/hiring/web/WebSocketAuthorizeController.java:78-83 | the corrected key: every field holds its own argument |
| AuthorizeController.KeyAsBuiltPollsUserName | src/main/java/com/truu/hiring/web/WebSocketAuthorizeController.java:78-83 | with a user name that is not a request id, the key as built polls an id missing from the store; the intended key polls the request and addresses the user. `Scenarios.AsBuiltKeyNeverDelivers` carries this through `PublisherTick`: nothing is sent, the task is done and its entry stays |
| AuthorizeController.KeyEquals | src/main/java/com/truu/hiring/web/WebSocketAuthorizeController.java:205-218 | `equals` holds iff the two keys are the same value, i.e. all four fields agree |
| AuthorizeController.Wrap32 | src/main/java/com/truu/hiring/web/WebSocketAuthorizeController.java:221-223 | Java `int` wrap-around: a value in the 32-bit range congruent modulo 2^32 |
| AuthorizeController.StringHash | src/main/java/com/truu/hiring/web/WebSocketAuthorizeController.java:221-223 | each field's hash code lies in the 32-bit range |
| AuthorizeController.KeyHash | src/main/java/com/truu/hiring/web/WebSocketAuthorizeController.java:221-223 | `Objects.hash` over the four fields lies in the 32-bit range |
| AuthorizeController.KeyHashAgrees | src/main/java/com/truu/hiring/web/WebSocketAuthorizeController.java:205-223 | keys that are `equals` have equal hash codes |
| AuthorizeController.UnsubscribeTargets | src/main/java/com/truu/hiring/web/WebSocketAuthorizeController.java:107-111 | the targeted keys are exactly the registered keys whose session id and subscription id both match |
| AuthorizeController.DisconnectTargets | src/main/java/com/truu/hiring/web/WebSocketAuthorizeController.java:136-138 | the targeted keys are exactly the registered keys of the session |
| AuthorizeController.DisconnectCoversUnsubscribe | src/main/java/com/truu/hiring/web/WebSocketAuthorizeController.java:107-138 | a disconnect targets every key an unsubscribe in the same session targets |
| AuthorizeController.WebSocketAuthorizeController.constructor | src/main/java/com/truu/hiring/web/WebSocketAuthorizeController.java:47-54 | binds the request manager, starts with an empty registry and nothing sent |
| AuthorizeController.WebSocketAuthorizeController.HandleSubscribe | src/main/java/com/truu/hiring/web/WebSocketAuthorizeController.java:68-90 | fails iff there is no user, changing nothing; otherwise a fresh pending task is filed under `KeyIntended(...)`, the corrected key and not the swapped key lines 78-83 build, and a displaced task is left running |
| AuthorizeController.WebSocketAuthorizeController.StartToPublishResolutionEvents | src/main/java/com/truu/hiring/web/WebSocketAuthorizeController.java:150-162 | schedules a fresh pending task and files it with `put` |
| AuthorizeController.WebSocketAuthorizeController.HandleUnsubscribe | src/main/java/com/truu/hiring/web/WebSocketAuthorizeController.java:99-121 | every matching key is removed as `remove(key)` removes it; non-matching entries and their tasks are untouched |
| AuthorizeController.WebSocketAuthorizeController.HandleDisconnect | src/main/java/com/truu/hiring/web/WebSocketAuthorizeController.java:130-148 | every key of the session is removed as `remove(key)` removes it; other sessions are untouched |
| AuthorizeController.WebSocketAuthorizeController.RemoveEach | src/main/java/com/truu/hiring/web/WebSocketAuthorizeController.java:113-115 | `remove(key)` applied to each key of a snapshot: an entry is kept iff it is not targeted or its pending task could not be cancelled |
| AuthorizeController.WebSocketAuthorizeController.PublisherTick | src/main/java/com/truu/hiring/web/WebSocketAuthorizeController.java:164-185 | delivers iff the request exists, and then appends exactly one message with the snapshot for the key's user and removes the key; otherwise sends nothing and the task is done |

## Left out

- Threads and concurrency: the executor's worker thread, the web requests and the sweep run concurrently in the source. Here each operation is one atomic step. A `cancelSucceeds` input stands for the race between a cancel and a running task.
- The schedule: the 1000 ms first run and 500 ms delay of publishers and the 60 s delay of the sweep. The caller decides when `PublisherTick` and `ProcessRequests` run.
- `@Scheduled` logs a sweep that throws and runs it again on the next delay. Only the single run is modelled, in `SweepAsWritten`.
- Logging, the STOMP header accessors and the Spring `@EventListener` destination filter. The event handlers take the session id, subscription id, request id and optional user directly.
- `SimpMessagingTemplate`: delivery is appended to `sent`. A send that fails would throw before the self-removal; that path is not modelled.
- HandleSubscribe: an absent `identityRequestId` header (a `null` id) is not modelled. Ids are strings. A missing user is modelled.
- HandleSubscribe: the handler's own wrapping of a failure into `IllegalStateException` is modelled as `ok == false`.
- The same goes for unsubscribe and disconnect, whose loops cannot throw in the model.
- Thread interruption: `mayInterruptIfRunning` is recorded in the cancelled state. Its effect on a running task is not modelled.
- StringHash: characters are Dafny `char`s, not UTF-16 code units. For characters outside the Basic Multilingual Plane the value differs from Java's `String.hashCode`.
- Wrap32, StringHash, KeyHash, KeyHashAgrees: they model the key's `hashCode` (lines 221-223) and its agreement with `equals`, but nothing else relies on them. The registry map keys on Dafny value equality, which `KeyEquals` shows coincides with `equals`.
- `toString` of the subscription key is not modelled (it only feeds logging).
- `IdentityController`, the application entry point, the configuration classes and the tests are not part of this model.
- Records are created with an explicit `now` instead of reading the clock in the constructor. Time is integer milliseconds, not `LocalDateTime`.

## Findings

| source | as written | input that shows it | evidently intended | confidence | as-written member | corrected member |
|---|---|---|---|---|---|---|
| src/main/java/com/truu/hiring/service/IdentityRequestManager.java:64-71 | `iterator.remove()` is called on a second iterator that was never advanced, so it throws `IllegalStateException` at the first record due for eviction. No record is ever evicted, and records later in iteration order are not expired in that run either. | a store holding one in-progress request created at 0, swept at 60 min + 1 ms | remove every record whose creation + 60 min is before now, and expire the rest as due | high (not executed) | RequestManager.SweepAsWrittenDiffers | RequestManager.IdentityRequestManager.ProcessRequests |
| src/main/java/com/truu/hiring/web/WebSocketAuthorizeController.java:78-83 | the subscribe handler passes the request id third and the user name fourth, but the key's constructor (195-198) takes the user name third. The publisher then polls the user name as a request id and would address the request id as a user. | a subscription by user `bob` to request `r1`: the key holds request id `bob` and user `r1` | build the key with the user name third and the request id fourth | high (not executed) | AuthorizeController.KeyAsBuiltPollsUserName | AuthorizeController.WebSocketAuthorizeController.HandleSubscribe |

# Inbound message filter gate and float supervisor of the Corda firewall

This project models two cooperating services of the Corda firewall's bridge/float split.

- **The inbound message filter gate** (`SimpleMessageFilterService`). It sits between the AMQP receiver and the node's local Artemis broker. Its session/producer pair follows the aggregated status of three dependencies: the audit service, the broker connection service and the sender service. Each inbound message goes through four checks: the legal name parses, the payload is non-empty, the topic is a legitimate inbox, and every header is whitelisted. A message that passes is forwarded with only its whitelisted headers plus the bridged certificate subject. A message that fails is dropped, or handed back for redelivery. A bounded write-once cache of duplicate ids turns repeated forwarding failures of one message into trace-level logs.
- **The float supervisor** (`FloatSupervisorServiceImpl`). It owns an AMQP listener and, in FloatOuter mode only, a float control listener. It refuses a FloatOuter configuration that carries HA settings. Its own active status mirrors the AND of its sub-services' statuses.

The model is organised by module:

- `Liveness`: the status aggregator (`ServiceStateCombiner`). It holds the latest status of each dependency and derives their logical AND.
- `FirewallConfig`: the configuration both services read.
- `MessageFilter`: the pure decision logic. This is validation, the duplicate id and the forwarded message. It includes the loop that copies the whitelisted headers and `InboundEvents`, the ordered trace of effects of one `sendMessageToLocalBroker` call, with the lemmas about that trace.
- `FilterService`: the deduplication cache and the gate as classes. Their methods are specified against the `MessageFilter` functions.
- `FloatSupervisor`: the construction check and the supervisor class, whose `start` and `stop` record their steps in order.
- `FilterScenarios`: the decision logic proved for two concrete messages.

The model records the externally visible effects listed here in an ordered `events` trace: audit events, `complete`/`release` dispositions, sends, error/trace logs, closing the producer and session, connection bounces, setting `active`, subscribing and unsubscribing. Order properties such as "producer closed before session" and "stop goes inactive first" are stated on that trace.

Collaborators that are outside the model are parameters:
- the legal name parser and `validateReceiveTopic`, as function-valued fields of `Oracles`;
- the outcome of opening a session and a producer (`SessionAttempt`);
- whether the synchronous send returns normally (`sendSucceeds`);
- each dependency's status change (`DependencyChanged`);
- the broker's send acknowledgement (`SendAcknowledged`).

Behaviour of the code worth noting:
- **The flag is set even when opening fails.** When the aggregated status becomes true and opening the session or producer fails, the code bounces the connection and still sets `active` to true (`SimpleMessageFilterService.kt:47-62`). A later message then fails to forward and is handed back for redelivery.
- **Hand-off on success.** After a successful synchronous send the code records the accepted audit event and calls `release()` at once. The acknowledgement handler only calls `complete(true)`.
- **The supervisor's start order.** The supervisor subscribes to its aggregator first, then starts the listener, then the control service.
- **The supervisor's dependency list.** The aggregator keeps the dependency list it was built with. After `stop` sets the control service to null, the aggregator of a FloatOuter process still includes the stopped control service.

The aggregator's own source is not part of this model. It is modelled as the AND of the latest reported statuses. A subscriber receives the current value when it subscribes, then one delivery each time the AND changes. The header name `sender-subject-name` for the bridged certificate subject comes from Corda's `P2PMessagingHeaders`. `ArtemisMessagingComponent` is not part of this model.

## Model

| member | source | states |
|---|---|---|
| `Liveness.AllActive` | bridge/src/main/kotlin/net/corda/bridge/services/filter/SimpleMessageFilterService.kt:35 | the aggregated status is true iff every dependency's latest status is true |
| `Liveness.OneDownIsDown` | bridge/src/main/kotlin/net/corda/bridge/services/filter/SimpleMessageFilterService.kt:35 | one dependency reporting down drives the aggregated status down |
| `Liveness.UpOnlyWhenAllUp` | bridge/src/main/kotlin/net/corda/bridge/services/supervisors/FloatSupervisorServiceImpl.kt:39 | after one dependency reports, the aggregate is up iff that report is up and every other dependency is up |
| `Liveness.ServiceStateCombiner.Update` | bridge/src/main/kotlin/net/corda/bridge/services/supervisors/FloatSupervisorServiceImpl.kt:39 | a status report replaces that dependency's status; subscribers are notified exactly when the aggregate changes |
| `MessageFilter.Validate` | bridge/src/main/kotlin/net/corda/bridge/services/filter/SimpleMessageFilterService.kt:76-86 | valid iff the name parses, the payload is non-empty, the topic is a legitimate inbox for the parsed name and every header key is whitelisted; the reported error is the first failing check, in that order |
| `MessageFilter.MessageId` | bridge/src/main/kotlin/net/corda/bridge/services/filter/SimpleMessageFilterService.kt:101 | the id is present iff the `_AMQ_DUPL_ID` property exists with a non-null value, and it is that value |
| `MessageFilter.ForwardedMessageContents` | bridge/src/main/kotlin/net/corda/bridge/services/filter/SimpleMessageFilterService.kt:108-115 | the forwarded message is durable; its headers are exactly the whitelisted input headers with their values, plus the bridged subject set to the sender's legal name; its body is the payload |
| `MessageFilter.BuildArtemisMessage` | bridge/src/main/kotlin/net/corda/bridge/services/filter/SimpleMessageFilterService.kt:108-115 | the header-copying loop over the whitelist builds exactly the forwarded message |
| `MessageFilter.ExactlyOneDisposition` | bridge/src/main/kotlin/net/corda/bridge/services/filter/SimpleMessageFilterService.kt:88-138 | every path of one call disposes of the message exactly once (`complete` or `release`), as its last effect |
| `MessageFilter.CompletedOnceOverLifetime` | bridge/src/main/kotlin/net/corda/bridge/services/filter/SimpleMessageFilterService.kt:88-138 | over one call plus the acknowledgement of its send, the message gets exactly one `complete`: a forwarded message is released in the call and completed by the acknowledgement, every other path completes it in the call and leaves nothing to acknowledge |
| `MessageFilter.OccurrencesAppend` | bridge/src/main/kotlin/net/corda/bridge/services/filter/SimpleMessageFilterService.kt:88-138 | the count of dispositions, or of any kind of effect, over a concatenated trace is the sum of the counts of its parts |
| `MessageFilter.InactiveRedelivers` | bridge/src/main/kotlin/net/corda/bridge/services/filter/SimpleMessageFilterService.kt:89-93 | an inactive gate records one drop audit ("dependencies down") and calls `complete(false)`; nothing is validated or sent |
| `MessageFilter.InvalidIsConsumed` | bridge/src/main/kotlin/net/corda/bridge/services/filter/SimpleMessageFilterService.kt:94-100 | a message failing validation gets one drop audit carrying the cause and `complete(true)`; nothing is sent |
| `MessageFilter.DisallowedHeaderIsConsumed` | bridge/src/main/kotlin/net/corda/bridge/services/filter/SimpleMessageFilterService.kt:85 | a message carrying any non-whitelisted header is dropped and consumed |
| `MessageFilter.SentOnlyWhenAccepted` | bridge/src/main/kotlin/net/corda/bridge/services/filter/SimpleMessageFilterService.kt:102-122 | a send happens iff the gate is active, the message is valid, session and producer exist and the send succeeds; it goes to the inbound topic carrying the forwarded message; an accepted audit happens iff a send does; on that path the trace is exactly the send, then the accepted audit, then `release()` |
| `MessageFilter.ForwardFailureRedelivers` | bridge/src/main/kotlin/net/corda/bridge/services/filter/SimpleMessageFilterService.kt:123-137 | a forwarding failure ends in `complete(false)`; it logs at trace level iff the id is present and already cached, and always at error level without an id |
| `FilterService.DedupCache.constructor` | bridge/src/main/kotlin/net/corda/bridge/services/filter/SimpleMessageFilterService.kt:41-44 | the cache starts empty with the configured maximum size |
| `FilterService.DedupCache.PutIfAbsent` | bridge/src/main/kotlin/net/corda/bridge/services/filter/SimpleMessageFilterService.kt:124-126 | write-once: a present key returns its value and changes nothing; an absent key returns null and is stored when the cache can hold anything; no other entry gains or changes value; the size bound holds |
| `FilterService.DedupCache.Expire` | bridge/src/main/kotlin/net/corda/bridge/services/filter/SimpleMessageFilterService.kt:41-44 | expiry removes exactly that entry and keeps the size bound |
| `FilterService.TeardownOrder` | bridge/src/main/kotlin/net/corda/bridge/services/filter/SimpleMessageFilterService.kt:56-61 | teardown closes the producer before the session; with only one of them open it closes exactly that one, with neither open nothing |
| `FilterService.ActivationOutcome` | bridge/src/main/kotlin/net/corda/bridge/services/filter/SimpleMessageFilterService.kt:47-62 | the callback's last step sets `active` to the signal; it bounces iff the signal is true and opening failed; a false signal leaves no session or producer; a successful open holds the new pair |
| `FilterService.SimpleMessageFilterService.constructor` | bridge/src/main/kotlin/net/corda/bridge/services/filter/SimpleMessageFilterService.kt:26-44 | the gate starts unsubscribed and inactive with no session or producer; its whitelist is the configured header list as a set; its aggregator is over three dependencies |
| `FilterService.SimpleMessageFilterService.ActiveChanged` | bridge/src/main/kotlin/net/corda/bridge/services/filter/SimpleMessageFilterService.kt:47-63 | the activation callback's new session, producer, `active` flag and effects, for each signal and opening outcome |
| `FilterService.SimpleMessageFilterService.Start` | bridge/src/main/kotlin/net/corda/bridge/services/filter/SimpleMessageFilterService.kt:46-64 | records the subscription, then the callback's effects for the delivered status; afterwards the gate is active iff all three dependencies are |
| `FilterService.SimpleMessageFilterService.DependencyChanged` | bridge/src/main/kotlin/net/corda/bridge/services/filter/SimpleMessageFilterService.kt:47-63 | a dependency report runs the callback only while subscribed and only if the aggregate changed; the gate stays active iff subscribed and all dependencies are active |
| `FilterService.SimpleMessageFilterService.Stop` | bridge/src/main/kotlin/net/corda/bridge/services/filter/SimpleMessageFilterService.kt:66-74 | from any state, closes the producer then the session, sets `active` false, unsubscribes if subscribed; afterwards no session, producer or subscription; a repeated stop changes no state |
| `FilterService.SimpleMessageFilterService.SendMessageToLocalBroker` | bridge/src/main/kotlin/net/corda/bridge/services/filter/SimpleMessageFilterService.kt:88-138 | appends exactly the trace `InboundEvents` gives; the failure path alone touches the cache, and only with an id, storing it write-once as the value for itself; the cache always maps each id to itself |
| `FilterService.SimpleMessageFilterService.SendAcknowledged` | bridge/src/main/kotlin/net/corda/bridge/services/filter/SimpleMessageFilterService.kt:118 | the send's acknowledgement handler calls `complete(true)` on the original message, at most once per send, and changes nothing else |
| `FilterService.RepeatedForwardFailures` | bridge/src/main/kotlin/net/corda/bridge/services/filter/SimpleMessageFilterService.kt:123-137 | any number of consecutive forwarding failures sharing an id, each from a missing session or producer or from a send that throws, append exactly `FailureTrace`: the first logged at error level unless the id was cached, every later one at trace level when the cache can hold an entry, each followed by `complete(false)` |
| `MessageFilter.FailureTraceLevels` | bridge/src/main/kotlin/net/corda/bridge/services/filter/SimpleMessageFilterService.kt:123-137 | in the trace of n consecutive failures only the first log can be at error level, every later entry is a trace-level log or `complete(false)`, and there are exactly n `complete(false)` |
| `FilterScenarios.WhitelistedHeadersForwarded` | bridge/src/main/kotlin/net/corda/bridge/services/filter/SimpleMessageFilterService.kt:108-122 | with whitelist {A, B, C}, headers {A, B} and payload "abc": forwarded with headers A, B and the bridged subject and the same payload, then audited as accepted and released |
| `FilterScenarios.UnlistedHeaderDropped` | bridge/src/main/kotlin/net/corda/bridge/services/filter/SimpleMessageFilterService.kt:85 | header Z outside the whitelist: dropped with a disallowed-header reason and consumed, nothing sent |
| `FloatSupervisor.StartOrder` | bridge/src/main/kotlin/net/corda/bridge/services/supervisors/FloatSupervisorServiceImpl.kt:45-51 | start subscribes first, then starts the listener, then the control service, and the control service only if present |
| `FloatSupervisor.StopOrder` | bridge/src/main/kotlin/net/corda/bridge/services/supervisors/FloatSupervisorServiceImpl.kt:53-60 | stop first goes inactive, stops the control service (if present) before the listener, and unsubscribes last |
| `FloatSupervisor.FloatSupervisorService.constructor` | bridge/src/main/kotlin/net/corda/bridge/services/supervisors/FloatSupervisorServiceImpl.kt:29-43 | a passing configuration builds an unsubscribed, inactive supervisor; the control service exists iff FloatOuter; the aggregator is over one or two dependencies; nothing is started |
| `FloatSupervisor.FloatSupervisorService.Start` | bridge/src/main/kotlin/net/corda/bridge/services/supervisors/FloatSupervisorServiceImpl.kt:45-51 | start's steps in order; afterwards the supervisor is subscribed and active iff its aggregate is |
| `FloatSupervisor.FloatSupervisorService.DependencyChanged` | bridge/src/main/kotlin/net/corda/bridge/services/supervisors/FloatSupervisorServiceImpl.kt:46-48 | while subscribed, `active` equals the AND of the listener's and, when created, the control service's status; it is set only when that AND changes |
| `FloatSupervisor.FloatSupervisorService.Stop` | bridge/src/main/kotlin/net/corda/bridge/services/supervisors/FloatSupervisorServiceImpl.kt:53-60 | stop's steps in order; afterwards inactive, unsubscribed, with no control service |
| `FloatSupervisor.Create` | bridge/src/main/kotlin/net/corda/bridge/services/supervisors/FloatSupervisorServiceImpl.kt:29-43 | construction fails iff FloatOuter with HA settings, before the control service is created and before anything is started; otherwise the control service is present iff FloatOuter and the aggregator covers the listener plus the control service exactly when it is present |
| `FloatSupervisor.StopThenRestart` | bridge/src/main/kotlin/net/corda/bridge/services/supervisors/FloatSupervisorServiceImpl.kt:50-56 | after stop, a later start starts only the listener, and a second stop does not stop the control service again |

## Left out

- Asynchrony and concurrency: RxJava subscriptions, their error handlers and concurrent delivery are left out. Each status change, message and acknowledgement is one discrete method call, and the acknowledgement is always modelled after the send call returns.
- `FilterService.SimpleMessageFilterService.Start`: requires that the gate is not already subscribed. Starting twice in the source leaks the first subscription, and its callbacks keep firing; the model does not track leaked subscriptions.
- `MessageFilter.ExactlyOneDisposition`: counts the dispositions of one call, so on the forwarding path `release()` counts and the acknowledgement's later `complete(true)` does not; the whole life of a message is covered by `CompletedOnceOverLifetime`, which counts `complete` calls only. Both hold on the assumption that the audit calls `packetDropEvent` and `packetAcceptedEvent` and the call `release()` return normally. In the source, if `packetAcceptedEvent` or `release()` throws after a successful send, the catch block logs the failure and calls `complete(false)` on a message the broker already holds; its acknowledgement handler then also calls `complete(true)`. If `packetDropEvent` throws, the message gets no disposition at all. Exceptions from the audit service and from `release()` are not modelled.
- Sub-service status reports: stopping the listener or the control service does not change the status the aggregator holds for it; every status change arrives only as a `DependencyChanged` call. So the model does not show that after `stop` a FloatOuter supervisor keeps waiting on its dropped control service.
- `FloatSupervisor.FloatSupervisorService.Start`: requires that the supervisor is not already subscribed, for the same reason. Starting twice would also start the sub-services twice.
- Artemis client objects: `ClientSession`, `ClientProducer`, `createSession` and its arguments, `createMessage` and `send` are foreign library calls. They are replaced by abstract handles, an outbound-message value, the `SessionAttempt` outcome and the `sendSucceeds` flag. Exceptions thrown by `close()` are not modelled.
- `FilterService.DedupCache.PutIfAbsent`: when the cache is full, which entry is evicted is left arbitrary; Caffeine's eviction policy is not modelled. The default maximum size of 100, read from a system property, is a constructor argument.
- The 10-second expire-after-write is not timed. `DedupCache.Expire` removes an entry at a time the model leaves open.
- The audit sink, the logger and the log levels other than error/trace are abstract events. Messages are datatype constructors, not formatted strings. This covers warn and debug logs, `measureMilliAndNanoTime`, and the console logger the supervisor subscribes in `init`.
- `CordaX500Name.parse` and `validateReceiveTopic` are abstract oracles. Their implementations are not part of this model. Every parse failure is modelled as `InvalidLegalName`; in the source only an `IllegalArgumentException` from `parse` becomes "Invalid Legal Name", while any other exception from `parse` or from `validateReceiveTopic` reaches the same catch with its own message. Only the reason in the drop audit differs; the message is consumed either way.
- The listener and control services themselves (`BridgeAMQPListenerServiceImpl`, `FloatControlListenerService`) are not part of this model. That includes the listener's `extSourceSupplier`, which reads the control service's CRL source. Their status reports arrive as `DependencyChanged` calls.
- The other source files are not modelled: `NotaryLoader.kt` (reflective loading), `CashSelectionSQLServerImpl.kt` (SQL plumbing), `InternalRPCMessagingClient.kt` (broker client setup) and `PlatformVersionSwitches.kt` (constants only).

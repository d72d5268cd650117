# Electric-vehicle charging network over MQTT — verified model of its core

The system simulates a network of charging stations ("carregadores") for
electric cars. The stations talk over an MQTT broker:

- **Stations** (`Carregador`) move between *free* and *charging*.
  - A car connects, the station charges it in ticks, and then finishes.
  - Each change is published: an event (`inicio_carga`, `fim_carga`) on `carregadores/<id>/eventos` and a status record (`livre`, `ocupado`) on `carregadores/<id>/status`.
  - Every event carries a Lamport timestamp.
  - A station registers an `offline` record as its last will.
- **Billing** listens to all station events, merges their timestamps into its own Lamport clock and publishes transactions on `billing/transacoes`. There are two drafts that behave differently:
  - `backend/billing.py` bills every complete `fim_carga` at 0.75 BRL per kWh and then stores the transaction;
  - `billing.py` tracks sessions in `sessoes_ativas` and bills a `fim_carga` only when its car has an open session, at a random cost.
- **The gateway** (`api/main.py`, and the older `api.py` with the same logic) keeps:
  - the latest status record per charger;
  - a log of the last 50 events;
  - the list of connected WebSocket viewers.

The Dafny modules follow these components:

| module | file | models |
|---|---|---|
| `Wrappers` | wrappers.dfy | `Option` |
| `Messages` | messages.dfy | decoded payloads (a record of `Option` fields, one per `.get` lookup), topic names, Python truthiness and the substring test `in` |
| `Lamport` | lamport.dfy | `LamportClock` (both identical copies, modelled once) and the pure merge rule |
| `ChargingStation` | station.dfy | `Carregador`: the class, the transition functions it is proved against, the publishing protocol it keeps |
| `FixedRateBilling` | billing_fixed_rate.dfy | `backend/billing.py`: message handling, the fixed-rate transaction, the bounded connection retry of `run` |
| `SessionBilling` | billing_sessions.dfy | `billing.py`: the `sessoes_ativas` map, orphan ends, no double billing |
| `Gateway` | gateway.dfy | `app_state` and `on_message`, and `ConnectionManager` |
| `EndToEnd` | end_to_end.dfy | properties across components: a station's events billed in order, one charging session through both billing drafts, the last will reaching the gateway |

Modelling choices:

- Publishing is appending to an outbox. For the station this is a `seq<Msg>`. For the fixed-rate billing it is a sequence of effects: a publish, then a storage call with its outcome. For the session billing it is a sequence of transactions.
- `Carregador`, both `BillingService` classes and `AppState` have a `Model()` function returning a value of a state datatype. Each of their state-changing methods ensures that the new `Model()` is a transition function applied to the old one. The `Carregador` methods other than `Shutdown` also state the new fields directly.
- `LamportClock` (one `time` field) and `ConnectionManager` (one `activeConnections` field) have no `Model()`; their methods state the new field directly.
- The properties are lemmas about those transition functions. Three classes also carry an invariant in their method contracts:
  - the `Carregador` methods `OnMessage`, `FinalizarCarregamento`, `SimularCarregamento` and `Shutdown` preserve the publishing protocol `Consistent`, and `ConectarCarro` preserves it for a non-empty car. `PublicarEvento` and `PublicarStatus` are building blocks that can break it on their own (a `fim_carga` published on a free station), so they state only the new state;
  - the fixed-rate `BillingService` methods preserve `StampsOrdered`;
  - `AppState.OnMessage` preserves the 50-event cap.
  The session `BillingService`, `LamportClock` and `ConnectionManager` methods state only their new state.
- Randomness is supplied as parameters:
  - the charging increment (in [0.5, 2.0]);
  - the session billing's cost;
  - the outcome of each connection attempt and of each storage call.
- Energy and cost are `real`.

Two results worth knowing:

- **A transaction is stamped at least two past the event it bills.** Both drafts stamp `max(clock, T) + 2`, where T is the event's timestamp: exactly T + 2 while the billing clock is not ahead of T, more otherwise (`FixedRateBilling.TransactionStamp`, `SessionBilling.TransactionStamp`). For example, a station publishes `inicio_carga` at 1 and `fim_carga` at 2 to a billing clock that reads 2 after the first event. The billing merges to 3 and then calls `send_event`, so the transaction carries 4, not 3. `EndToEnd.SessionAtABilledByBothServices` states 4.
- **The station's own-message filter is a substring test.** A station whose id occurs inside another station's id (station "1" and station "11") ignores that station's events. `ChargingStation.OwnIdSubstringIgnored` states this behaviour as written. The effect is wider: a station whose id occurs in the fixed parts of the topic (`carregadores/` or `/eventos`, so ids such as "a", "e" or "s") ignores every station's events (`ChargingStation.TopicPrefixIdIgnoresAll`, `ChargingStation.TopicSuffixIdIgnoresAll`).

## Model

| member | source | states |
|---|---|---|
| `Lamport.Merge` | backend/lamport_clock.py:25-31 | the merge result exceeds both the local and the received counter and is one more than one of them, i.e. `max(time, T) + 1` (same lines in lamport_clock.py) |
| `Lamport.Apply` | backend/lamport_clock.py:8-31 | one call on the counter: the new value (also the returned one) exceeds the old counter; `tick` and `send_event` add exactly 1, and `receive_event(T)` exceeds T (same lines in lamport_clock.py) |
| `Lamport.MergeAgain` | backend/lamport_clock.py:30 | receiving the same remote timestamp a second time still advances the clock, by exactly one |
| `Lamport.Returned` | lamport_clock.py:8-31 | one returned timestamp per call in a call sequence |
| `Lamport.ReturnedStrictlyIncrease` | lamport_clock.py:13-30 | over any sequence of `tick`/`send_event`/`receive_event` calls, every returned value exceeds the starting counter, the returned values strictly increase, and `receive_event(T)` returns more than T (same lines in backend/lamport_clock.py) |
| `Lamport.LamportClock.constructor` | backend/lamport_clock.py:4-6 | a new clock reads 0 (lamport_clock.py:4-6 likewise) |
| `Lamport.LamportClock.Tick` | backend/lamport_clock.py:8-14 | adds exactly 1 and returns the new value |
| `Lamport.LamportClock.SendEvent` | backend/lamport_clock.py:16-23 | adds exactly 1 and returns the new value, the outgoing timestamp |
| `Lamport.LamportClock.ReceiveEvent` | backend/lamport_clock.py:25-31 | sets the counter to the merge of the old counter and T, and returns it |
| `Lamport.LamportClock.GetTime` | backend/lamport_clock.py:33-35 | returns the counter and changes nothing |
| `Lamport.SendReceiveSendExample` | backend/lamport_clock.py:16-31 | a fresh clock's `send_event` gives 1, `receive_event(5)` gives 6 and the next `send_event` gives 7 |
| `Messages.EventosTopic` | backend/carregador.py:17 | the topic `carregadores/<id>/eventos` a station publishes its events on (no contract; its properties are in `TopicsContainTheirKind`) |
| `Messages.StatusTopic` | backend/carregador.py:18 | the topic `carregadores/<id>/status` a station publishes its status on (no contract; its properties are in `TopicsContainTheirKind`) |
| `Messages.TopicsContainTheirKind` | backend/carregador.py:17-18 | a station's status topic contains "status" and its id, and its events topic contains "eventos" and its id |
| `Messages.ContainsAt` | backend/carregador.py:55 | an occurrence of the id at a known position makes the substring test true |
| `Messages.Contains` | backend/carregador.py:55 | Python's `sub in s` on strings: the pattern occurs at some position of the string; the same test picks the branch at api/main.py:74,78 and api.py:64,68 |
| `Messages.Truthy` | backend/carregador.py:93 | Python truthiness of an optional string: `None` and `""` are false; the same test decides at backend/carregador.py:86,103, backend/billing.py:66 and api/main.py:76 |
| `ChargingStation.LastWill` | backend/carregador.py:29-34 | the last-will record: a status of this station reading `offline`, no car, 0 kWh |
| `ChargingStation.StatusOf` | backend/carregador.py:84-89 | the status record built from the state: this station, `ocupado` when a car is connected and `livre` otherwise, the car and the energy |
| `ChargingStation.ToPayload` | backend/carregador.py:73-78 | the JSON object a subscriber decodes from a published message (no contract): an event carries charger, car, `acao` and timestamp, and energy only when it is the `fim_carga` of lines 108-114; a status (lines 84-89) carries charger, status, car and energy, and no `acao` or timestamp |
| `ChargingStation.PublishEvento` | backend/carregador.py:70-79 | the clock advances by 1, car and energy are unchanged, and exactly one message is appended: an event of this station with the given `acao`, the new clock value as timestamp and no energy field |
| `ChargingStation.PublishStatus` | backend/carregador.py:82-90 | clock, car and energy are unchanged, and exactly one message is appended: a status of this station naming the connected car, reading `ocupado` exactly when a car is connected |
| `ChargingStation.Connect` | backend/carregador.py:92-100 | with a car connected nothing changes; otherwise car := c, energy := 0, the clock advances by 1 and two messages are appended, and the station is charging exactly when c is non-empty |
| `ChargingStation.Finish` | backend/carregador.py:102-119 | the station ends free; when it was free nothing changes; otherwise the clock advances by 1, the energy is kept and two messages are appended |
| `ChargingStation.Charge` | backend/carregador.py:121-126 | the car and the clock are unchanged; when free nothing changes; otherwise the energy grows by the increment and one message is appended |
| `ChargingStation.Receive` | backend/carregador.py:53-67 | only the clock can change and it never goes back; a topic containing the own id changes nothing |
| `ChargingStation.Stop` | backend/carregador.py:147-150 | the station ends free; a free station is left as it is |
| `ChargingStation.Consistent` | backend/carregador.py:82-119 | the publishing protocol: clock and energy non-negative, every status of this station reads `ocupado` exactly when it names a car, the event log is well formed, and the station is charging exactly when the log has odd length, its last event then naming the connected car |
| `ChargingStation.ValidOp` | backend/carregador.py:124 | the moves `run` can make (no contract). It ranges over the datatype `ChargingStation.Op` (a car arriving, a charging tick, a charge completing, a delivery, a shutdown). A valid move names a non-empty car, since `Carro_{randint(100, 999)}` at line 138 is never empty, or a charging increment in [0.5, 2.0] as `uniform` at line 124 draws. `StepConsistent`, `RunConsistent` and the end-to-end lemmas require it |
| `ChargingStation.Step` | backend/carregador.py:134-150 | any move of the station keeps its id, never moves the clock back and never withdraws a published message |
| `ChargingStation.Run` | backend/carregador.py:134-152 | the same over any sequence of moves |
| `ChargingStation.OddIsMod` | backend/carregador.py:92-119 | the recursive parity used by the protocol agrees with `n % 2 == 1` |
| `ChargingStation.EventosAppend` | backend/carregador.py:79 | the event log of two outboxes in sequence is the concatenation of their event logs |
| `ChargingStation.SessionAt` | backend/carregador.py:99-111 | in an alternating log, position 2m holds an `inicio_carga` and position 2m+1, if present, a `fim_carga`; with matching ends, that `fim_carga` names the same car and carries an energy reading |
| `ChargingStation.EventLogIndexed` | backend/carregador.py:92-119 | a well-formed event log has, at every position: this station's id; timestamps in (0, clock] that strictly increase; `inicio_carga` and `fim_carga` alternating from `inicio_carga`; and each `fim_carga` naming the car of the `inicio_carga` before it and carrying an energy reading |
| `ChargingStation.InitialConsistent` | backend/carregador.py:9-14 | a new station (free, no energy, clock 0, nothing published) satisfies the publishing protocol |
| `ChargingStation.AppendEventOk` | backend/carregador.py:72-79 | appending the next event with the next timestamp, in alternation, keeps the event log well formed |
| `ChargingStation.EventLogLater` | backend/carregador.py:64 | a clock that has moved forward does not spoil the event log |
| `ChargingStation.StatusesAppend` | backend/carregador.py:82-90 | status records that each read `ocupado` exactly when they name a car can be appended to such an outbox |
| `ChargingStation.ConnectConsistent` | backend/carregador.py:92-100 | connecting a non-empty car keeps the protocol (an `inicio_carga`, then an `ocupado` status) |
| `ChargingStation.FinishShape` | backend/carregador.py:107-119 | finishing a charging station advances the clock by 1, clears the car, keeps the energy, and appends the `fim_carga` with car, timestamp and energy, then a `livre` status |
| `ChargingStation.FinishConsistent` | backend/carregador.py:102-119 | finishing keeps the protocol: the `fim_carga` closes the open session with its car |
| `ChargingStation.ChargeConsistent` | backend/carregador.py:121-126 | a charging tick keeps the protocol; it publishes only a status |
| `ChargingStation.ReceiveConsistent` | backend/carregador.py:53-67 | a delivery only advances the clock and so keeps the protocol |
| `ChargingStation.StepConsistent` | backend/carregador.py:134-150 | every move the simulation can make (non-empty car names, increments in [0.5, 2.0]) keeps the protocol |
| `ChargingStation.RunConsistent` | backend/carregador.py:134-152 | any run of such moves from a consistent station keeps the protocol |
| `ChargingStation.OwnIdSubstringIgnored` | backend/carregador.py:55-56 | an events topic whose station id contains this station's id is ignored entirely, whatever the payload |
| `ChargingStation.TopicPrefixIdIgnoresAll` | backend/carregador.py:55-56 | a station whose id occurs in the fixed prefix `carregadores/` of the events topic (for example "a" or "r") ignores the events of every station |
| `ChargingStation.TopicSuffixIdIgnoresAll` | backend/carregador.py:55-56 | likewise for an id occurring in the fixed suffix `/eventos` (for example "e" or "s") |
| `ChargingStation.EmptyCarIdLeavesStationFree` | backend/carregador.py:86-99 | connecting the falsy car id "" publishes an `inicio_carga` but a `livre` status and leaves the station free, so the next car publishes a second `inicio_carga` |
| `ChargingStation.Carregador.constructor` | backend/carregador.py:9-14 | a new station is free, has consumed 0.0 kWh, has published nothing and its fresh clock reads 0; it satisfies the publishing protocol, which `OnMessage`, `FinalizarCarregamento`, `SimularCarregamento` and `Shutdown` preserve, and `ConectarCarro` preserves for a non-empty car |
| `ChargingStation.Carregador.OnMessage` | backend/carregador.py:53-67 | a topic containing the own id changes nothing; otherwise a timestamp T sets the clock to `max(clock, T) + 1`, and no timestamp (or an undecodable payload) leaves it alone; protocol preserved |
| `ChargingStation.Carregador.PublicarEvento` | backend/carregador.py:70-79 | the clock advances by 1 and one event is appended with that timestamp and `carro_id or carro_conectado`; nothing else changes |
| `ChargingStation.Carregador.PublicarStatus` | backend/carregador.py:82-90 | one status is appended, `ocupado` exactly when a car is connected, with the car and the energy; the clock is untouched |
| `ChargingStation.Carregador.ConectarCarro` | backend/carregador.py:92-100 | with a car connected nothing changes; otherwise car := c, energy := 0, the clock advances by 1, and an `inicio_carga` for c with that timestamp is followed by a status; protocol preserved for a non-empty car |
| `ChargingStation.Carregador.FinalizarCarregamento` | backend/carregador.py:102-119 | when free nothing changes; otherwise the clock advances by 1, a `fim_carga` with the car, that timestamp and the energy is followed by a `livre` status, the car is cleared and the energy kept; protocol preserved |
| `ChargingStation.Carregador.SimularCarregamento` | backend/carregador.py:121-126 | when free nothing changes; otherwise the energy strictly grows by the increment and one `ocupado` status is appended, the clock untouched; protocol preserved |
| `ChargingStation.Carregador.Shutdown` | backend/carregador.py:147-150 | an active session is finished, so the station ends free; protocol preserved |
| `FixedRateBilling.Transacoes` | backend/billing.py:78 | the published transactions, in publish order: at most one per effect |
| `FixedRateBilling.TransacoesPublished` | backend/billing.py:78 | each listed transaction was published by one of the effects |
| `FixedRateBilling.TransacoesAppend` | backend/billing.py:78-82 | the transactions of two effect sequences in a row are the concatenation |
| `FixedRateBilling.TransacoesOfPublishAndSave` | backend/billing.py:78-82 | a publish followed by a storage call, successful or not, adds exactly one published transaction |
| `FixedRateBilling.Billable` | backend/billing.py:62-66 | an event is billed when its `acao` is `fim_carga`, its car is truthy and it carries an energy reading |
| `FixedRateBilling.Process` | backend/billing.py:61-84 | an event that is not a complete `fim_carga` changes nothing; a complete one advances the clock by 1 (the `send_event`) and appends exactly two effects |
| `FixedRateBilling.Handle` | backend/billing.py:51-59 | effects are only appended and the clock never goes back; a timestamped message leaves the clock above its timestamp |
| `FixedRateBilling.HandleBillsOnce` | backend/billing.py:51-84 | a decodable, timestamped, complete `fim_carga` publishes one transaction copying car, charger and energy, costing energy × 0.75, stamped `merge + 1` (at least T + 2), then calls storage; any other message publishes and stores nothing; a timestamped message that is not billable only sets the clock to `max(time, T) + 1`, and one without a timestamp or undecodable changes nothing |
| `FixedRateBilling.TransactionStamp` | backend/billing.py:55-74 | a billed event's transaction is stamped `max(clock, T) + 2`, exactly T + 2 when the clock is not ahead of T |
| `FixedRateBilling.HandleAll` | backend/billing.py:51-59 | handling messages never withdraws an effect |
| `FixedRateBilling.HandleAllBillsEveryDelivery` | backend/billing.py:61-82 | no session tracking: over any deliveries, exactly one more transaction per billable message |
| `FixedRateBilling.DuplicateBilledTwice` | backend/billing.py:61-82 | a redelivered `fim_carga` is billed twice, with the same car, charger, energy and cost and a later timestamp |
| `FixedRateBilling.HandleKeepsStampsOrdered` | backend/billing.py:55-74 | one message keeps transaction timestamps strictly increasing and bounded by the clock |
| `FixedRateBilling.HandleAllKeepsStampsOrdered` | backend/billing.py:55-74 | the same over any sequence of deliveries |
| `FixedRateBilling.BrokerHost` | backend/billing.py:15 | the broker host is the `MQTT_BROKER_HOST` variable, or "localhost" when it is unset |
| `FixedRateBilling.ConnectWithRetries` | backend/billing.py:86-113 | returns without connecting exactly when `DATABASE_URL` is unset or empty, or the broker host is empty; otherwise makes at most 5 attempts, retrying only on the caught connection errors: it serves after attempt k when the first k attempts were refused, propagates any other exception, and gives up exactly when all 5 are refused |
| `FixedRateBilling.BillingService.constructor` | backend/billing.py:37-44 | clock 0 and no effects |
| `FixedRateBilling.BillingService.ProcessarEvento` | backend/billing.py:61-84 | the new state is the processing of the event; transaction timestamps stay ordered |
| `FixedRateBilling.BillingService.OnMessage` | backend/billing.py:51-59 | merge then process only for a decodable payload with a timestamp; transaction timestamps stay ordered |
| `SessionBilling.Process` | billing.py:36-63 | transactions are only appended, at most one per event, and exactly one when a `fim_carga` finds its car's session; the clock never goes back; any `acao` other than `inicio_carga` and `fim_carga` changes nothing |
| `SessionBilling.Handle` | billing.py:26-34 | transactions are only appended, at most one per message, and the clock never goes back; an undecodable or timestamp-less payload changes nothing |
| `SessionBilling.HandleCases` | billing.py:26-63 | undecodable or timestamp-less payloads change nothing (the `KeyError` path); `inicio_carga` inserts or overwrites the car's session with charger, timestamp and `carregando`, leaving other keys; `fim_carga` with a session publishes one transaction with the session's charger, stamped `merge + 1` (greater than the event's timestamp), and removes the key; `fim_carga` without a session and any other `acao` change only the clock |
| `SessionBilling.HandleAll` | billing.py:26-34 | successive `on_message` callbacks folded over a sequence of deliveries (no contract; `HandleAllSnoc` and `HandleAllClaims` state its properties) |
| `SessionBilling.TransactionStamp` | billing.py:26-59 | a `fim_carga` that finds its car's session publishes one transaction stamped `max(clock, T) + 2`, exactly T + 2 when the clock is not ahead of T |
| `SessionBilling.HandleAllSnoc` | billing.py:26-34 | handling one more delivery after a sequence is one more step |
| `SessionBilling.OneStartTwoEndsBillsOnce` | billing.py:49-63 | one start followed by two ends for the same car yields exactly one transaction, of the start's charger and the first end's cost, and no session left |
| `SessionBilling.HandleClaims` | billing.py:36-63 | one message raises a car's billed-plus-open count by at most one, and only if it is an `inicio_carga` for that car |
| `SessionBilling.HandleAllClaims` | billing.py:36-63 | over any deliveries, billed transactions plus an open session for a car never exceed what there was plus its `inicio_carga` deliveries |
| `SessionBilling.BilledAtMostOncePerStart` | billing.py:36-63 | from a fresh service a car is billed at most once per `inicio_carga` delivered for it |
| `SessionBilling.BillingService.constructor` | billing.py:7-10 | clock 0, no sessions, nothing published |
| `SessionBilling.BillingService.ProcessarEvento` | billing.py:36-63 | the new state is the processing of the event with the drawn cost |
| `SessionBilling.BillingService.OnMessage` | billing.py:26-34 | merge then process only for a decodable payload with a timestamp |
| `Gateway.Handle` | api/main.py:68-90 | the event log never grows beyond 50 (api.py:58-79 likewise) |
| `Gateway.HandleCases` | api/main.py:68-90 | undecodable payloads change nothing; the `status` test comes first; a status with a truthy charger id k sets k's record to the payload, adds k to the keys, and leaves other records and the event log alone; one without an id changes nothing; an event is appended with eviction and leaves the records alone; other topics change nothing (api.py:58-79 likewise) |
| `Gateway.AppendEvento` | api/main.py:79-82 | below the cap the payload is simply appended; a log within the cap stays within it (api.py:69-72 likewise) |
| `Gateway.HandleAll` | api/main.py:68-90 | successive `on_message` callbacks folded over a sequence of messages (no contract; `HandleAllEventWindow` states its property) |
| `Gateway.LastN` | api/main.py:81-82 | the last n elements: at most n, and at most the whole |
| `Gateway.LastNOfLastN` | api/main.py:79-82 | trimming before appending more and trimming once at the end give the same window |
| `Gateway.AppendEventoIsWindow` | api/main.py:79-82 | `append` then `pop(0)` above 50 keeps the last 50 |
| `Gateway.StepWindow` | api.py:68-72 | one message, seen through the window of the last 50 events |
| `Gateway.HandleAllEventWindow` | api/main.py:74-82 | FIFO: after any messages, interleaved with status records, the log holds the last 50 of the old log followed by the events received, in arrival order (api.py:64-72 likewise) |
| `Gateway.HandleAllStep` | api/main.py:74-82 | the first message of a sequence, handled and seen through the window of the last 50, keeps the log within the cap |
| `Gateway.MissingCharNotContained` | api/main.py:74 | a character of the pattern missing from the topic rules out the substring test |
| `Gateway.EventosTopicIsNoStatusTopic` | api/main.py:74-78 | an events topic (of a station whose id has no 'u') fails the `status` test and passes the `eventos` test |
| `Gateway.FiftyOneEventsEvictTheFirst` | api/main.py:79-82 | 51 events into an empty log leave events 2..51 |
| `Gateway.EventPayloadsOfEventTopics` | api.py:68-69 | messages all on an events topic contribute all their payloads, in order |
| `Gateway.FirstIndex` | api/main.py:40 | the position of the first occurrence of a viewer |
| `Gateway.RemoveFirst` | api/main.py:39-40 | `list.remove`: one element fewer exactly when the viewer is registered (api.py:29-30 likewise) |
| `Gateway.RemoveFirstMultiset` | api/main.py:39-40 | removal takes out one occurrence of the viewer and nothing else, counted with multiplicity |
| `Gateway.RemoveFirstSplits` | api/main.py:39-40 | `list.remove` takes out exactly the first occurrence and keeps the rest in order |
| `Gateway.RemoveFirstAbsent` | api.py:29-30 | removing an unregistered viewer changes nothing |
| `Gateway.ConnectionManager.constructor` | api/main.py:32-33 | no connected viewers |
| `Gateway.ConnectionManager.Connect` | api/main.py:35-37 | the viewer is appended (api.py:25-27 likewise) |
| `Gateway.ConnectionManager.Disconnect` | api/main.py:39-40 | reports removal exactly when the viewer was registered, then the first occurrence is taken out and the others keep their order; otherwise nothing changes (api.py:29-30 likewise) |
| `Gateway.AppState.constructor` | api/main.py:50-53 | no records, empty event log |
| `Gateway.AppState.OnMessage` | api.py:58-79 | the new state is the handled message; the log stays within 50 |
| `EndToEnd.BillStart` | billing.py:40-46 | a station's `inicio_carga` opens its car's session with this charger and timestamp |
| `EndToEnd.BillEnd` | billing.py:49-63 | the matching `fim_carga` closes it and bills it with this charger |
| `EndToEnd.DeliverNext` | billing.py:26-34 | delivering one more event of the log is one more step |
| `EndToEnd.BillPair` | billing.py:36-63 | delivering one more start-end pair after m closed sessions leaves m + 1 closed sessions, the new transaction naming that pair's car and the station |
| `EndToEnd.BillSessions` | billing.py:36-63 | the first m completed sessions of a station's log, delivered in order, give m transactions, each naming the session's car and the station, and no open session |
| `EndToEnd.BillLog` | billing.py:36-63 | a whole well-formed log delivered in order: one transaction per completed session, the trailing start open if any |
| `EndToEnd.BillWhole` | billing.py:36-63 | a log of complete sessions leaves no session open |
| `EndToEnd.BillOpenTail` | billing.py:40-46 | a log ending in a start leaves exactly that session open |
| `EndToEnd.InOrderDeliveryBillsEachSessionOnce` | billing.py:26-63 | for one cost value given to every delivery (no clause depends on the cost, while billing.py:52 draws a new one per `fim_carga`), any simulated run of a station, its events delivered in order to a fresh session billing, bills each completed session exactly once and in order, with the station and the car; no session is open when the station is free, and exactly its car's while it charges |
| `EndToEnd.SessionAtABilledByBothServices` | backend/billing.py:51-82 | that session publishes `inicio_carga` at 1 and `fim_carga` at 2 with 3.4 kWh; the session billing opens then bills it with charger "A" at timestamp 4; the fixed-rate billing bills 3.4 kWh at 2.55 with timestamp 4 |
| `EndToEnd.LastWillMarksChargerOffline` | backend/carregador.py:29-34 | the last-will record on a station's status topic makes the gateway's record for that charger read `offline`, with the event log unchanged |

## Left out

- MQTT plumbing is left out: client construction, `connect`, `subscribe`, `loop_start`/`loop_forever`/`loop_stop`/`disconnect`, and the `will_set` registration. Only the last-will payload is kept, as `ChargingStation.LastWill`.
- The clock's `threading.Lock` is left out. Each method is one atomic step of a single-threaded class.
- The random simulation loop of `Carregador.run` is left out: `random.random`, `randint`, `uniform` and `time.sleep`. It is replaced by arbitrary sequences of moves (`ChargingStation.Op`) with car names non-empty and increments in [0.5, 2.0].
- billing.py's random cost is left out; it is the parameter `custo`.
- Floating point is not modelled. Energy and cost are `real` and `round(..., 2)` is not modelled: published energies and the fixed-rate cost are unrounded.
- FixedRateBilling.HandleBillsOnce: states the cost as energy × 0.75 without the rounding to two decimals.
- `salvar_transacao_db` and the database are left out. A storage call is an effect that records the transaction and whether it succeeded; a failed save undoes nothing.
- JSON decoding is not modelled. A payload that fails to decode is modelled as `None`, and a decoded object as a record of `Option` fields, so an absent key and JSON `null` are both `None`. Non-object JSON and values of the wrong type are not modelled.
- In both billing drafts, a `timestamp` key present with value `null` would raise an uncaught `TypeError` in `max`. The model treats it as an absent timestamp, which changes nothing.
- The retry delay `time.sleep(retry_delay)` between connection attempts is left out.
- The outcome of each connection attempt is a parameter. `loop_forever` after a successful connection is left out.
- `broadcast`/`send_text`, `websocket.accept`, the WebSocket endpoint, the FastAPI endpoints (`carregadores_ativos`, `billing_process`, `subprocess.Popen`) and CORS are left out as transport and process plumbing. A viewer is an identity (`Gateway.Viewer`).
- Gateway.ConnectionManager.Disconnect: an unregistered viewer makes `list.remove` raise `ValueError`. The model reports this as `removed == false` with nothing changed, and does not model the exception reaching the caller.
- Print and logging side effects are left out.
- The gateway stores each decoded payload whole and serves it to viewers. In the model a payload holds only the seven fields some consumer reads, so a stored record keeps only those fields, and other keys a publisher adds are not modelled.

# VOLTRIX charging system — a Dafny model

VOLTRIX manages electric-vehicle charging. This project models its core logic in Dafny and proves properties of that model. The core has three parts.

- **Charging sessions.** The Central System speaks OCPP 2.0.1 to the Charge Points. It keeps the shared lists of EVSEs (charging points) and EVs, and updates them on StatusNotification, ReserveNow and TransactionEvent. Each simulated Charge Point boots, authorizes, reports its status, starts and ends transactions and sends meter samples. Beside OCPP, each EVSE runs a small JSON "ISO 15118" server that an EV client dials. The server answers the client's requests and forwards charging start and stop to the EVSE's Charge Point. A FastAPI backend (`main.py`) adds EVSEs, changes their status, plugs EVs in, updates the state of charge, assigns reservations and estimates charging time, all on the same in-memory lists.
- **Table-driven automata.** `automata_processor` runs condition-guarded DFA and NFA steps with exit, transition and entry actions. `engine` drives a JSON-defined automaton with a state history. `conditions` holds the context predicates registered as guards.
- **The station service.** A Flask application (`app.py`) keeps stations, vehicles and reservations in database tables. It validates station statuses, runs the connect, disconnect, plug, start and stop routes, creates and cancels reservations, cleans up expired reservations and does the charge-time and range arithmetic.

## How the model is built

Modules follow the source files:

| module | source file |
|---|---|
| `Common` | helpers (option type, Python list indexing, integer text) |
| `Identifiers` | identifiers built inline (`"CP_" + id`, `9001 + id`) |
| `IsoMessages` | `iso15118/messages.py` |
| `Ocpp` | OCPP 2.0.1 messages and enumerations |
| `EvseModel`, `EvModel` | `models/evse.py`, `models/ev.py` |
| `SharedState` | `state.py` |
| `CentralSystem`, `CsmsEndpointModel` | `server/central_system.py` |
| `ChargePointModel`, `StationRunner` | `server/charge_point.py` |
| `EvseServerModel` | `iso15118/evse_server.py` |
| `EvClientModel` | `iso15118/ev_client.py` |
| `MainApi`, `MainEvApi` | `main.py` |
| `PyValues`, `Conditions` | `automata/conditions.py` |
| `AutomataTypes`, `AutomataProcessor`, `Engine` | `automata/automata_types.py`, `automata_processor.py`, `engine.py` |
| `StationService` | `app.py` |

The model takes the same form as the source:

- **Classes for objects updated in place.** These are the EVSE, the EV, the Charge Point, the Central System's end of a connection, the EV client, the shared state, the automaton, the engine and the station database.
- **Outbound calls append to a sequence.** Each OCPP call goes into an `outbox`, and each ISO 15118 message into a socket's `sent`. Replies from the other side are method parameters.
- **Loops stay loops.** The bind and unbind loops, the state-of-charge loop, the meter loop, the cleanup, the initial-state search and the possible-events scan are methods with loop invariants.
- **State-changing methods are proved against functions.** Each such method is specified by a pure function of the old state, for example `UpdateStatusEffect`, `DfaEvent`, `NfaEvent`, `Cleanup` or `Executed`. Lemmas then prove what the source promises about those functions.
- **Python behaviour is written out.** Exceptions become error variants, and negative list indices count from the end. `int()` truncates toward zero. Truthiness, `dict.get` defaults and the ordering of comparisons follow Python.
- **The source's inconsistencies are kept, not fixed.** Three examples:
  - An EV's `connected_evse_id` holds the EVSE's name in `main.py` but its id in `central_system.py` (`EvseLink`).
  - `app.py` writes `'charging'` and `'Reserved'`, neither of which is in `VALID_STATUSES`.
  - `isStationAvailable` accepts only the upper-case "AVAILABLE".

Floating-point numbers are modelled as `real`, and datetimes as seconds. Clocks, generated time stamps and distances are parameters.

## Model

| member | source | states |
|---|---|---|
| Common.PyIndex | VOLTRIX-CSMS-git/app/backend/main.py:264-266 | a list index is accepted exactly in the range Python accepts, a negative one counting from the end; anything else is an IndexError |
| Common.Lower | app.py:467 | lower-casing keeps the length and lowers each ASCII capital |
| Common.IntToStringInjective | VOLTRIX-CSMS-git/app/backend/main.py:188 | two integers print the same decimal text exactly when they are equal |
| Identifiers.StationId | VOLTRIX-CSMS-git/app/backend/main.py:188 | the Charge Point identity of an EVSE starts with "CP_" |
| Identifiers.StationIdRoundTrip | VOLTRIX/app/backend/iso15118/evse_server.py:126 | the EVSE id is recovered from its Charge Point identity |
| Identifiers.StationIdInjective | VOLTRIX-CSMS-git/app/backend/main.py:188 | two EVSEs share a Charge Point identity only when their ids are equal |
| Identifiers.ParseStationIdCanonical | VOLTRIX/app/backend/server/central_system.py:160 | an identity without leading zeros is exactly the identity of the id it parses to |
| Identifiers.IsoPort | VOLTRIX-CSMS-git/app/backend/main.py:193 | the ISO 15118 port of an EVSE is 9001 plus its id, so distinct EVSEs get distinct ports |
| Identifiers.EvseOfIsoPort | VOLTRIX-CSMS-git/app/backend/main.py:193 | the port determines the EVSE it serves |
| Identifiers.EvClientUri | VOLTRIX-CSMS-git/app/backend/main.py:283-284 | the EV dials ws://localhost: followed by exactly the EVSE's ISO port |
| IsoMessages.ParseMessageType | VOLTRIX/app/backend/iso15118/messages.py:3-38 | a string parses to a tag only when it is that tag's value |
| IsoMessages.WireRoundTrip | VOLTRIX/app/backend/iso15118/messages.py:3-38 | every tag's value parses back to that tag |
| IsoMessages.ParseMessageTypeComplete | VOLTRIX/app/backend/iso15118/messages.py:3-38 | a string parses to nothing exactly when no tag has it as value |
| IsoMessages.WireInjective | VOLTRIX/app/backend/iso15118/messages.py:3-38 | two tags have the same value only when they are the same tag |
| IsoMessages.TagIndex | VOLTRIX/app/backend/iso15118/messages.py:3-38 | each tag sits at its declaration position in the tag list |
| IsoMessages.TwelveTags | VOLTRIX/app/backend/iso15118/messages.py:3-38 | there are exactly twelve tags, each listed once |
| IsoMessages.ResponseTo | VOLTRIX/app/backend/iso15118/messages.py:3-38 | the tag answering a request is a response tag, and a response is never answered |
| IsoMessages.RequestResponsePairs | VOLTRIX/app/backend/iso15118/messages.py:4-38 | exactly the five request tags have an answering response; the status update and the completion notification answer nothing |
| IsoMessages.Channel.Send | VOLTRIX/app/backend/iso15118/evse_server.py:59 | a sent message is appended to what the socket carried |
| IsoMessages.Fields | VOLTRIX/app/backend/iso15118/evse_server.py:36 | a payload that is not a JSON object yields no fields, any object yields its fields |
| Ocpp.ReserveNowStatusValueAccepted | VOLTRIX/app/backend/server/central_system.py:151 | only the Accepted reply reads as "Accepted" |
| CentralSystem.BootReply | VOLTRIX/app/backend/server/central_system.py:26-32 | every station is accepted with a 10 second heartbeat interval at the current time |
| CentralSystem.AuthorizeReply | VOLTRIX/app/backend/server/central_system.py:36-40 | every token is accepted |
| CentralSystem.FindEvse | VOLTRIX/app/backend/server/central_system.py:46 | the first EVSE with the id, or none exactly when no EVSE has it |
| CentralSystem.StatusNotificationSpec | VOLTRIX/app/backend/server/central_system.py:44-58 | only the first EVSE with the id changes, only when the status text is a connector status, and it then shows that status |
| CentralSystem.StatusNotificationIdempotent | VOLTRIX/app/backend/server/central_system.py:44-58 | repeating a status notification changes nothing more |
| CentralSystem.StatusNotificationShown | VOLTRIX/app/backend/server/central_system.py:50-51 | after notifying a status the EVSE holds that status |
| CentralSystem.OnStatusNotification | VOLTRIX/app/backend/server/central_system.py:44-58 | the EVSE list becomes the notification's effect and the EV list is unchanged |
| CentralSystem.ReserveNowSpec | VOLTRIX/app/backend/server/central_system.py:62-73 | accepted exactly when the first EVSE with the id is Available; then only it is reserved for the token, otherwise rejected with no change |
| CentralSystem.ReserveNowExclusive | VOLTRIX/app/backend/server/central_system.py:66-70 | once accepted, a second reservation of the same EVSE is rejected and keeps the first token |
| CentralSystem.OnReserveNow | VOLTRIX/app/backend/server/central_system.py:62-73 | the EVSE list and the reply are the reservation's effect and the EV list is unchanged |
| CentralSystem.FindTransactionEv | VOLTRIX/app/backend/server/central_system.py:98 | the first EV bound to the EVSE id or named by the token, or none exactly when no EV matches |
| CentralSystem.TransactionSpec | VOLTRIX/app/backend/server/central_system.py:90-114 | Started starts charging on the EVSE and binds the matching EV by id; Ended stops it and unbinds the EV only when bound to that EVSE; an unknown EVSE or event changes nothing |
| CentralSystem.TransactionEvseRoundTrip | VOLTRIX/app/backend/server/central_system.py:103-109 | Started then Ended leaves the EVSE as a plain stop would |
| CentralSystem.TransactionEvRoundTrip | VOLTRIX/app/backend/server/central_system.py:105-111 | Started then Ended leaves the matching EV unbound and every other EV unchanged |
| CentralSystem.TransactionRoundTrip | VOLTRIX/app/backend/server/central_system.py:90-114 | a Started and an Ended event together stop the EVSE and unbind the matching EV |
| CentralSystem.ApplyTransactionToEvse | VOLTRIX/app/backend/server/central_system.py:97-109 | the EVSE list becomes the transaction's EVSE effect |
| CentralSystem.ApplyTransactionToEvs | VOLTRIX/app/backend/server/central_system.py:98-111 | the EV list becomes the transaction's EV effect |
| CentralSystem.OnTransactionEvent | VOLTRIX/app/backend/server/central_system.py:90-114 | both lists become the transaction's effect |
| CentralSystem.ReserveReplySpec | VOLTRIX/app/backend/server/central_system.py:151-154 | only an Accepted reply marks the first EVSE with the id Reserved, keeping its EV; nothing else changes |
| CentralSystem.ReserveEvseById | VOLTRIX/app/backend/server/central_system.py:131-156 | with no connected Charge Point it fails and changes nothing; otherwise it takes the next reservation id, sends one ReserveNow and applies the reply |
| CentralSystem.SendReserveNow | VOLTRIX/app/backend/server/central_system.py:139-148 | the counter grows by one and exactly one ReserveNow with the old counter is sent |
| CentralSystem.MarkReserved | VOLTRIX/app/backend/server/central_system.py:152-154 | the EVSE list becomes the Accepted reply's effect |
| CentralSystem.StripLeading | VOLTRIX/app/backend/server/central_system.py:160 | only leading slashes are removed, and all of them |
| CentralSystem.StripTrailing | VOLTRIX/app/backend/server/central_system.py:160 | only trailing slashes are removed, and all of them |
| CentralSystem.Strip | VOLTRIX/app/backend/server/central_system.py:160 | the result has no slash at either end |
| CentralSystem.StripClean | VOLTRIX/app/backend/server/central_system.py:160 | a path without slashes at its ends is kept as it is |
| CentralSystem.StripIdempotent | VOLTRIX/app/backend/server/central_system.py:160 | stripping twice is stripping once |
| CentralSystem.StationPathKey | VOLTRIX/app/backend/server/central_system.py:159-163 | the path "/CP_<id>" registers the station under its own Charge Point identity |
| CentralSystem.OnConnect | VOLTRIX/app/backend/server/central_system.py:159-164 | a fresh endpoint is registered under the stripped path and nothing else changes |
| EvseModel.ParseStatus | VOLTRIX/app/backend/models/evse.py:8 | a text parses to the connector status whose value it is, and to nothing when no status has that value |
| EvseModel.StatusValueRoundTrip | VOLTRIX/app/backend/models/evse.py:43 | every connector status is recovered from its value |
| EvseModel.IsBusyStatus | VOLTRIX/app/backend/models/evse.py:13-17 | busy means occupied or reserved, and a busy EVSE is never available; `Evse.IsAvailable` and `Evse.IsBusy` apply these two tests to the EVSE's status |
| EvseModel.TimeText | VOLTRIX/app/backend/models/evse.py:45-46 | a time is rendered exactly when it is set |
| EvseModel.Evse.constructor | VOLTRIX/app/backend/models/evse_base.py:10 | an EVSE is built only with a positive maximum power, with no EV and no session times |
| EvseModel.Evse.Reserve | VOLTRIX/app/backend/models/evse.py:19-21 | the EVSE becomes the reservation view of its old state |
| EvseModel.Evse.StartCharging | VOLTRIX/app/backend/models/evse.py:23-25 | the EVSE becomes the start-charging view of its old state |
| EvseModel.Evse.StopCharging | VOLTRIX/app/backend/models/evse.py:27-31 | the EVSE becomes the stop-charging view of its old state |
| EvseModel.Evse.ToDict | VOLTRIX/app/backend/models/evse.py:33-47 | the status field parses back to the EVSE's status, times appear exactly when set, and id, EV and power are copied |
| EvseModel.ReserveView | VOLTRIX/app/backend/models/evse.py:19-21 | reserved for the given EV; times, id, name and power untouched |
| EvseModel.StartChargingView | VOLTRIX/app/backend/models/evse.py:23-25 | occupied from now; the EV and the finish time kept |
| EvseModel.StopChargingView | VOLTRIX/app/backend/models/evse.py:27-31 | available with no EV and both times cleared |
| EvseModel.StopMakesAvailable | VOLTRIX/app/backend/models/evse.py:13-31 | after a stop the EVSE is available and not busy |
| EvseModel.SessionCycle | VOLTRIX/app/backend/models/evse.py:13-31 | reserve and start keep the EVSE busy and the EV recorded; stopping afterwards equals stopping straight away |
| EvModel.RequiredEnergy | VOLTRIX-CSMS-git/app/backend/models/ev.py:12-15 | no energy is needed at or above the target; otherwise the missing percentage of the capacity, never negative |
| EvModel.RangeAt | VOLTRIX-CSMS-git/app/backend/models/ev.py:17-23 | a range exists exactly when the consumption is non-zero, and range times consumption is the stored energy |
| EvModel.RangeMonotonic | VOLTRIX-CSMS-git/app/backend/models/ev.py:17-23 | a higher charge never gives a shorter range |
| EvModel.Ev.constructor | VOLTRIX-CSMS-git/app/backend/models/ev.py:5-10 | the EV holds the given fields and is bound to no EVSE |
| EvModel.Ev.ToDict | VOLTRIX-CSMS-git/app/backend/models/ev.py:25-39 | the dictionary raises exactly when the range does, and carries the range (`Ev.EstimatedRangeKm`) and the required energy (`Ev.RequiredEnergyKWh`) |
| EvModel.TargetRangeCoversEstimated | VOLTRIX-CSMS-git/app/backend/models/ev.py:17-23 | with a target above the current charge, the target range (`Ev.TargetRangeKm`) is at least the current range (`Ev.EstimatedRangeKm`) |
| ChargePointModel.CancelIfPending | VOLTRIX-CSMS-git/app/backend/server/charge_point.py:154-155 | a running meter task is cancelled, any other task is left as it is, and the result is never running |
| ChargePointModel.TransactionIdInjective | VOLTRIX-CSMS-git/app/backend/server/charge_point.py:75 | with the fixed-width clock text, two transaction ids are equal exactly when they name the same Charge Point and the same second |
| ChargePointModel.MeterSamples | VOLTRIX-CSMS-git/app/backend/server/charge_point.py:159-201 | the meter loop sends one sample per wake-up |
| ChargePointModel.MeterSamplesSnoc | VOLTRIX-CSMS-git/app/backend/server/charge_point.py:159-201 | one more wake-up appends exactly one sample, numbered after the earlier ones |
| ChargePointModel.MeterSamplesValues | VOLTRIX-CSMS-git/app/backend/server/charge_point.py:170-195 | sample j of a run reads 1234 + 10 * j Wh, 230 V and 16 A for the run's EVSE |
| ChargePointModel.MeterEnergyIncreasing | VOLTRIX-CSMS-git/app/backend/server/charge_point.py:170-195 | the energy readings of a run strictly increase |
| ChargePointModel.BootSequence | VOLTRIX-CSMS-git/app/backend/server/charge_point.py:40-50 | the boot notification is always sent first; only an Accepted reply is followed by an Authorize and a StatusNotification with the initial status |
| ChargePointModel.StationReserveNowReply | VOLTRIX-CSMS-git/app/backend/server/charge_point.py:223-230 | the station accepts every reservation |
| ChargePointModel.ChargePoint.constructor | VOLTRIX-CSMS-git/app/backend/server/charge_point.py:33-37 | a new station has no meter task, no transaction and has sent nothing |
| ChargePointModel.ChargePoint.Call | VOLTRIX-CSMS-git/app/backend/server/charge_point.py:47 | a call appends one request to what the station sent and changes nothing else |
| ChargePointModel.ChargePoint.SendAuthorizeRequest | VOLTRIX-CSMS-git/app/backend/server/charge_point.py:53-59 | one Authorize request with the token is sent and nothing else changes |
| ChargePointModel.ChargePoint.SendStatusNotification | VOLTRIX-CSMS-git/app/backend/server/charge_point.py:62-70 | one StatusNotification with the given status, connector and EVSE is sent and nothing else changes |
| ChargePointModel.ChargePoint.SendBootNotification | VOLTRIX-CSMS-git/app/backend/server/charge_point.py:40-50 | the boot sequence for the reply is sent and nothing else changes |
| ChargePointModel.ChargePoint.SendTransactionEventStarted | VOLTRIX-CSMS-git/app/backend/server/charge_point.py:73-113 | a transaction id is derived from the station and the clock, one Started event is sent, the transaction is active and a fresh meter task runs for the EVSE |
| ChargePointModel.ChargePoint.SendTransactionEventEnded | VOLTRIX-CSMS-git/app/backend/server/charge_point.py:116-156 | fails exactly when no transaction was ever started; otherwise one Ended event with the current transaction id is sent, the transaction is inactive and a running meter task is cancelled |
| ChargePointModel.ChargePoint.RunMeterTask | VOLTRIX-CSMS-git/app/backend/server/charge_point.py:159-201 | while the transaction is active every wake-up sends the next sample; an inactive transaction ends the meter loop without sending |
| ChargePointModel.ChargePoint.PlugInVehicle | VOLTRIX-CSMS-git/app/backend/server/charge_point.py:214-216 | one StatusNotification saying Occupied is sent for the EVSE |
| ChargePointModel.Session | VOLTRIX-CSMS-git/app/backend/server/charge_point.py:73-201 | a start, a run of the meter task and an end send exactly Started, the samples and Ended with one transaction id, and leave the meter task cancelled |
| CsmsEndpointModel.CsmsEndpoint.constructor | VOLTRIX/app/backend/server/central_system.py:162 | a new Central System end carries the connection's identity and has sent nothing |
| CsmsEndpointModel.CsmsEndpoint.Call | VOLTRIX/app/backend/server/central_system.py:124 | a call appends one request to what the Central System sent |
| CsmsEndpointModel.CsmsEndpoint.PlugInVehicle | VOLTRIX/app/backend/server/central_system.py:117-125 | one StatusNotification saying Occupied is sent for the EVSE |
| StationRunner.RunChargePoint | VOLTRIX/app/backend/server/charge_point.py:227-235 | a fresh station with the given identity and initial status is stored in the registry under its identity; nothing else in the shared state changes |
| StationRunner.ConnectStation | VOLTRIX/app/backend/server/charge_point.py:227-235 | both ends of a connection register under the station's identity; the entry left is the station only when the Central System wrote first, and other entries are kept |
| EvseServerModel.ReplyAnswersRequest | VOLTRIX/app/backend/iso15118/evse_server.py:31-121 | every reply the server sends is the response tag that answers the request it received |
| EvseServerModel.OnlyRequestsAnswered | VOLTRIX/app/backend/iso15118/evse_server.py:40-47 | a frame whose tag has no response gets no reply, and a frame that is forwarded is always answered first |
| EvseServerModel.StartReplyEchoesSession | VOLTRIX/app/backend/iso15118/evse_server.py:77-96 | the reply to a start request carries that request's session id and the server's time |
| EvseServerModel.ForwardKeyNoneIsNoStation | VOLTRIX/app/backend/iso15118/evse_server.py:126 | a frame without an EVSE id is never forwarded under a real station's identity |
| EvseServerModel.ProcessMessage | VOLTRIX/app/backend/iso15118/evse_server.py:31-143 | the socket carries exactly the reply; a start reaching a connected station starts its transaction and meter task; a stop ends it only when one was started |
| EvseServerModel.ClientRequestsReachOwnStation | VOLTRIX/app/backend/iso15118/evse_server.py:123-143 | the EV client's start and stop requests are forwarded to the Charge Point identity of the EVSE they name |
| EvClientModel.RequestsCarrySession | VOLTRIX-CSMS-git/app/backend/iso15118/ev_client.py:33-104 | every request the EV sends carries its session id, and start and stop also carry the EV, the EVSE and the stop reason |
| EvClientModel.RampSoc | VOLTRIX-CSMS-git/app/backend/iso15118/ev_client.py:120-124 | the charge rises in steps of five until it reaches 100, ending below 105, and stays put when it starts at 100 or more |
| EvClientModel.EvClient.constructor | VOLTRIX-CSMS-git/app/backend/iso15118/ev_client.py:11-16 | a new client holds its EV, EVSE and address, a session id derived from the EV and the clock, and no socket |
| EvClientModel.EvClient.SendConnectionRequest | VOLTRIX-CSMS-git/app/backend/iso15118/ev_client.py:33-48 | with a socket, one connection request is sent; without one nothing is sent |
| EvClientModel.EvClient.SendEvInformationRequest | VOLTRIX-CSMS-git/app/backend/iso15118/ev_client.py:51-63 | with a socket, one information request with the session id is sent |
| EvClientModel.EvClient.SendChargingStartRequest | VOLTRIX-CSMS-git/app/backend/iso15118/ev_client.py:66-85 | with a socket, one start request is sent |
| EvClientModel.EvClient.SendChargingStopRequest | VOLTRIX-CSMS-git/app/backend/iso15118/ev_client.py:88-104 | with a socket, one stop request is sent, with "UserStopped" when no reason is given |
| EvClientModel.EvClient.Connect | VOLTRIX-CSMS-git/app/backend/iso15118/ev_client.py:19-26 | the client keeps the socket, sends a connection request and then an information request, and starts one `monitor_soc` task after both are sent |
| EvClientModel.EvClient.MonitorSoc | VOLTRIX-CSMS-git/app/backend/iso15118/ev_client.py:118-127 | from 35 the charge reaches exactly 100 after 13 steps, and then one stop request with reason "FullyCharged" is sent |
| SharedState.EvseIdsBelowAppend | VOLTRIX-CSMS-git/app/backend/main.py:185-186 | appending an EVSE numbered with the counter and then raising the counter keeps every id below the counter |
| SharedState.State.constructor | VOLTRIX-CSMS-git/app/backend/state.py:5-10 | the shared state starts with empty lists and registries and the counters at 1 and 1000 |
| SharedState.State.AppendEvse | VOLTRIX-CSMS-git/app/backend/main.py:185-186 | the EVSE is appended, the counter grows by one and everything else is unchanged |
| SharedState.DistinctEvses | VOLTRIX-CSMS-git/app/backend/state.py:6-7 | two positions of the EVSE list never hold the same object |
| MainApi.PowerFor | VOLTRIX-CSMS-git/app/backend/main.py:171 | the power looked up for any model, known or not, lies between 7.4 and 350 kW |
| MainApi.CheckFormSpec | VOLTRIX-CSMS-git/app/backend/main.py:170-183 | `CheckForm`, the body checks of `add_evse`: a body is accepted exactly when every key is present and the status is a connector status value, and the accepted fields are the body's own |
| MainApi.AddEvse | VOLTRIX-CSMS-git/app/backend/main.py:166-201 | a rejected body answers 400 and changes nothing; an accepted one appends an EVSE numbered by the counter, raises the counter, and schedules its Charge Point and its ISO 15118 server |
| MainApi.AppendEvse | VOLTRIX-CSMS-git/app/backend/main.py:174-186 | the row appended is the new EVSE built from the accepted body with the counter's id |
| MainApi.AddedIdentifiersFresh | VOLTRIX-CSMS-git/app/backend/main.py:186-193 | the Charge Point identity and the ISO port of the next EVSE differ from those of every existing EVSE |
| MainApi.SummarySpec | VOLTRIX-CSMS-git/app/backend/main.py:209-217 | the total is the number of EVSEs and the connected count is the number of available, reserved or occupied ones, never more than the total |
| MainApi.BindFirstFreeSpec | VOLTRIX-CSMS-git/app/backend/main.py:241-245 | binding links only the first EV without an EVSE to the EVSE's name; with no free EV nothing changes |
| MainApi.UnbindFirstSpec | VOLTRIX-CSMS-git/app/backend/main.py:246-250 | unbinding clears only the first EV linked to the EVSE's name; with none linked nothing changes |
| MainApi.UnbindUndoesBind | VOLTRIX-CSMS-git/app/backend/main.py:241-250 | when no EV was linked to the name, unbinding after binding restores the EV list |
| MainApi.BindFirstFreeEv | VOLTRIX-CSMS-git/app/backend/main.py:242-245 | the binding loop leaves the EV list as the binding function describes |
| MainApi.UnbindFirstEv | VOLTRIX-CSMS-git/app/backend/main.py:247-250 | the unbinding loop leaves the EV list as the unbinding function describes |
| MainApi.UpdateStatusSpec | VOLTRIX-CSMS-git/app/backend/main.py:225-255 | a bad index or status changes nothing and answers an error; otherwise only that EVSE takes the status, a Central System end in the registry makes the handler fail with 500 before the EV links change, and Reserved binds, Unavailable unbinds, any other status leaves the EVs alone |
| MainApi.ReserveThenUnavailable | VOLTRIX-CSMS-git/app/backend/main.py:241-250 | reserving and then making an EVSE unavailable returns the EV list to what it was |
| MainApi.SetStatus | VOLTRIX-CSMS-git/app/backend/main.py:229 | only the EVSE at the index takes the new status |
| MainApi.UpdateEvseStatus | VOLTRIX-CSMS-git/app/backend/main.py:225-255 | both lists and the reply become the status update's effect, and a connected station is sent one StatusNotification with the new status |
| MainApi.ApplyStatus | VOLTRIX-CSMS-git/app/backend/main.py:229-250 | after a parsed status, only that EVSE changes, then the notification and the EV links follow the registry entry |
| MainApi.NotifyAndLink | VOLTRIX-CSMS-git/app/backend/main.py:232-250 | the notification is sent to a station, fails on a Central System end, and the EV links follow only when it did not fail |
| MainApi.UpdateStatusOnParsed | VOLTRIX-CSMS-git/app/backend/main.py:229-254 | once the status has parsed, the effect is the status change, then either the 500 failure or the EV links and "updated" |
| MainApi.NotifyStatus | VOLTRIX-CSMS-git/app/backend/main.py:232-238 | delivery fails exactly when the registry holds a Central System end; a station gets one StatusNotification |
| MainApi.LinkEvs | VOLTRIX-CSMS-git/app/backend/main.py:241-250 | the EV list becomes the link effect of the status and the EVSE list is unchanged |
| MainEvApi.PlugSpec | VOLTRIX-CSMS-git/app/backend/main.py:263-281 | `PlanPlug`, the checks of `plug_evse`: the plug proceeds exactly when the index reaches an EVSE, it is Reserved and its Charge Point identity is registered; every refusal is an HTTP error; the EV chosen is one linked to the EVSE's name, and none only when no EV is linked |
| MainEvApi.PlugEvse | VOLTRIX-CSMS-git/app/backend/main.py:258-292 | a refused plug changes nothing; otherwise the registered peer is sent one StatusNotification saying Occupied, only that EVSE becomes Occupied and the linked EV, if any, gets an ISO 15118 client |
| MainEvApi.PlugIn | VOLTRIX-CSMS-git/app/backend/main.py:277-287 | the peer is notified, the EVSE becomes Occupied and the client for the linked EV is started |
| MainEvApi.PlugPeer | VOLTRIX-CSMS-git/app/backend/main.py:277 | whichever end is registered sends one StatusNotification saying Occupied, and the lists are unchanged |
| MainEvApi.OccupyAndConnect | VOLTRIX-CSMS-git/app/backend/main.py:278-287 | only that EVSE becomes Occupied and the client for the linked EV is started |
| MainEvApi.ConnectEv | VOLTRIX-CSMS-git/app/backend/main.py:281-287 | the first EV linked to the EVSE's name gets a fresh client dialling the EVSE's ISO port, and a connect task is scheduled |
| MainEvApi.RegisterClient | VOLTRIX-CSMS-git/app/backend/main.py:285-286 | the client is stored under the EV's id, one connect task is appended, and the EVSE and EV tables are untouched |
| MainEvApi.ClampSoc | VOLTRIX-CSMS-git/app/backend/main.py:425 | the stored charge lies in 0..100 and equals the sent value whenever that value is already in range |
| MainEvApi.SocSpec | VOLTRIX-CSMS-git/app/backend/main.py:417-428 | `SocEffect`, the effect of `update_ev_soc`: the update succeeds exactly when a value is sent and an EV has the id; then only the first such EV takes the clamped value, otherwise nothing changes |
| MainEvApi.SocIdempotent | VOLTRIX-CSMS-git/app/backend/main.py:417-428 | sending the same charge twice has the effect of sending it once |
| MainEvApi.UpdateEvSoc | VOLTRIX-CSMS-git/app/backend/main.py:417-428 | the loop leaves the EV list and the reply as the charge update describes |
| MainEvApi.TruncateToInt | VOLTRIX-CSMS-git/app/backend/main.py:456 | Python's int() truncates toward zero |
| MainEvApi.EstimateSpec | VOLTRIX-CSMS-git/app/backend/main.py:435-460 | `GetEstimatedTime`, the reply of `get_estimated_time`: reservable exactly when the index reaches an EVSE, the EV exists, the EVSE is Available or Reserved with positive power and some energy is needed; a bad index and an unknown EV give their own reasons; a positive need gives the whole minutes of energy over power |
| MainEvApi.EstimateMonotonic | VOLTRIX-CSMS-git/app/backend/main.py:456 | needing more energy never gives a shorter estimate |
| MainEvApi.AssignSpec | VOLTRIX-CSMS-git/app/backend/main.py:463-479 | `AssignEffect`, the effect of `assign_reservation`: assigned exactly when the EV exists and the EVSE at the index is Available; then only that EVSE becomes Reserved and only the first EV with the id is linked to its name; otherwise nothing changes |
| MainEvApi.AssignExclusive | VOLTRIX-CSMS-git/app/backend/main.py:471-475 | after one assignment a second assignment of the same EVSE fails and changes nothing |
| MainEvApi.AssignThenPlug | VOLTRIX-CSMS-git/app/backend/main.py:258-292 | an assigned EVSE whose station is connected can be plugged, and the plug starts the client of the assigned EV when no other EV was linked |
| MainEvApi.AssignReservation | VOLTRIX-CSMS-git/app/backend/main.py:463-479 | both lists and the reply become the assignment's effect |
| MainEvApi.BindEv | VOLTRIX-CSMS-git/app/backend/main.py:474 | only that EV is linked; the EVSE list, the reservation counter, the registry and every registered peer's sent requests are unchanged |
| MainEvApi.OcppReserveSpec | VOLTRIX-CSMS-git/app/backend/main.py:482-497 | the request proceeds exactly when the EV exists and the index reaches an EVSE; an Accepted reply reserves that EVSE and links the EV to it, any other reply changes nothing |
| MainEvApi.FindEvseAt | VOLTRIX/app/backend/server/central_system.py:133 | with distinct ids, the EVSE looked up by its id is found at its own position |
| MainEvApi.OcppReserve | VOLTRIX-CSMS-git/app/backend/main.py:482-497 | a refusal changes no table, no counter and no peer; otherwise, when the station is connected, the counter rises by one and exactly one ReserveNow carrying the old counter, the EV's id and the EVSE's id is sent to it, the EVSE list takes the reply's effect and the EV is linked only on Accepted; an unconnected station fails with the counter unchanged |
| MainEvApi.ReserveAndBind | VOLTRIX-CSMS-git/app/backend/main.py:492-495 | the outcome is the reply when the station is connected and a failure otherwise, and the lists follow the outcome; a connected station gets exactly one ReserveNow carrying the old counter, which rises by one, and an unconnected one leaves the counter as it was |
| PyValues.PyEqReflexive | automata/conditions.py:85 | Python's `==` holds between a value and itself, through nested lists and dictionaries |
| PyValues.PyGreater | automata/conditions.py:61 | `>` on datetimes, numbers (bool counted as int) and strings is the usual order; it raises for every pair of kinds other than these and two lists |
| PyValues.PyGreaterEq | automata/conditions.py:185 | `>=` on datetimes, numbers (bool counted as int) and strings is the usual order; it raises for every pair of kinds other than these and two lists |
| PyValues.ListOrderOnPrefix | automata/conditions.py:185 | two lists that agree item by item up to the shorter length compare by length |
| PyValues.ListOrderFirstDifference | automata/conditions.py:185 | at the first position where two lists differ by `==`, that pair of items decides the comparison |
| PyValues.ListOrderReflexive | automata/conditions.py:185 | a list is `>=` itself and not `>` itself |
| Conditions.IsStationReservable | automata/conditions.py:19-32 | true exactly when `is_available` is present and truthy; always a boolean |
| Conditions.CanPlugInWithoutReservation | automata/conditions.py:34-47 | false exactly when `allow_direct_plugin` is present and falsy, so a missing key allows direct plug-in |
| Conditions.Expired | automata/conditions.py:49-74 | a missing expiry counts as expired; a datetime expiry has passed exactly when the clock is later; any other value cannot be compared |
| Conditions.IsReservationValid | automata/conditions.py:49-74 | false when the expiry is missing or has passed, raises when it cannot be compared, and otherwise compares the reservation's user with the requesting user |
| Conditions.IsWithinReservationTime | automata/conditions.py:139-153 | false without an expiry; with a datetime expiry, true exactly when the clock has not passed it; returns exactly when the expiry can be compared |
| Conditions.ValidReservationIsWithinTime | automata/conditions.py:49-153 | a valid reservation is always within its time window |
| Conditions.IsAutoClearable | automata/conditions.py:76-85 | false without a code list; with one, true exactly when the fault code (default "unknown") equals one of the codes |
| Conditions.IsMaintenanceCompleted | automata/conditions.py:87-102 | true without checks; with a dictionary, true exactly when every check is truthy; anything else raises |
| Conditions.IsMaintenanceCancellable | automata/conditions.py:104-122 | true without a status, otherwise exactly when the status is "scheduled" |
| Conditions.IsStationAvailable | automata/conditions.py:124-137 | true exactly when the station status is the text "AVAILABLE" |
| Conditions.StationAvailableIsCaseSensitive | automata/conditions.py:124-137 | any status text with a lower-case letter, such as the stored "available", is refused |
| Conditions.CanStartCharging | automata/conditions.py:155-173 | true exactly when `vehicle_connected` is present and truthy |
| Conditions.CanRetry | automata/conditions.py:175-193 | with numeric counts, true exactly when the retry count (default 0) is below the maximum (default 3) |
| Conditions.CanRetryListCounts | automata/conditions.py:183-188 | list counts whose items agree up to the shorter length allow a retry exactly when the retry list is shorter |
| Conditions.CanRetryEqualLists | automata/conditions.py:183-188 | equal list counts exhaust the retries, as equal numbers do |
| Conditions.CanRetryMonotonic | automata/conditions.py:175-193 | once retries are exhausted, more retries stay exhausted |
| Conditions.FieldsPresent | automata/conditions.py:195-210 | for a dictionary, true exactly when every required field is present and truthy |
| Conditions.IsSufficientData | automata/conditions.py:195-210 | false without collected data; with a dictionary, true exactly when location, battery level and destination are all present and truthy |
| Conditions.HasStationResults | automata/conditions.py:212-229 | true exactly when `found_stations` is present and truthy |
| AutomataTypes.FirstInitial | automata/automata_types.py:57-60 | the id of the first initial state, or none exactly when no state is initial |
| AutomataTypes.PostInitState | automata/automata_types.py:54-60 | a truthy given state is kept; otherwise the first initial state is taken when there is one |
| AutomataTypes.Automata.constructor | automata/automata_types.py:42-80 | the fields are the given ones, the current state is settled as after construction, and an NFA with a current state starts from exactly that state |
| AutomataProcessor.Registry.constructor | automata/automata_processor.py:18-22 | both global registries start empty |
| AutomataProcessor.Registry.RegisterCondition | automata/automata_processor.py:25-33 | the condition is stored under its name, replacing any earlier one |
| AutomataProcessor.Registry.RegisterAction | automata/automata_processor.py:36-44 | the action is stored under its name, replacing any earlier one |
| AutomataProcessor.EvaluateCondition | automata/automata_processor.py:47-74 | no name or the name "None" passes; an unknown name fails; a registered condition passes exactly when it returns a truthy value, and one that raises fails |
| AutomataProcessor.ExecuteAction | automata/automata_processor.py:77-99 | a registered action other than "None" runs once; anything else runs nothing |
| AutomataProcessor.Calls | automata/automata_processor.py:77-99 | running a list of action names runs at most one action per name, all of them exactly when every name is registered |
| AutomataProcessor.EventContext | automata/automata_processor.py:163 | the context handed to conditions and actions keeps the caller's keys and adds the automaton and the transition |
| AutomataProcessor.StateById | automata/automata_processor.py:167 | the first state with the id, or none exactly when no state has it |
| AutomataProcessor.NameList | automata/automata_processor.py:168-184 | an optional hook name contributes one entry exactly when it is truthy |
| AutomataProcessor.HookNames | automata/automata_processor.py:166-184 | a transition records at most its exit, transition and entry actions, never an empty name, and always its own action when it has one |
| AutomataProcessor.FirstEnabled | automata/automata_processor.py:147-165 | the first transition leaving the current state on the event whose condition holds, or none exactly when no such transition exists |
| AutomataProcessor.DfaEvent | automata/automata_processor.py:132-200 | the result always reports the state the automaton was in |
| AutomataProcessor.DfaEventSpec | automata/automata_processor.py:132-200 | without a transition for the event the step fails with that message; it succeeds exactly when some enabled transition exists, then takes the first one, moves to its target and runs exactly its recorded actions; a failure changes nothing and runs nothing |
| AutomataProcessor.DfaEventTaken | automata/automata_processor.py:160-193 | when transition i is enabled and none before it is, the step moves to its target, records its exit, transition and entry action names and runs those actions |
| AutomataProcessor.DfaEventRefused | automata/automata_processor.py:152-200 | with no enabled transition the step keeps the state, runs nothing and reports "no transition" or "no enabled transition" according to whether any transition leaves the state on the event |
| AutomataProcessor.ProcessDfaEvent | automata/automata_processor.py:132-200 | the result, the new current state and the actions run are those of the DFA step |
| AutomataProcessor.NfaRun | automata/automata_processor.py:218-262 | with no transitions nothing is found |
| AutomataProcessor.NfaRunValid | automata/automata_processor.py:218-223 | the event is valid exactly when some transition leaves one of the current states on it |
| AutomataProcessor.NfaRunTargets | automata/automata_processor.py:231-262 | the new states are exactly the targets of the enabled transitions from any current state, and with none no action runs |
| AutomataProcessor.NfaRunTargetSet | automata/automata_processor.py:235-252 | a state is gathered exactly when it is the target of an enabled transition from a current state |
| AutomataProcessor.NfaRunNothingTaken | automata/automata_processor.py:235-258 | with no enabled transition nothing is gathered, recorded or run |
| AutomataProcessor.NfaEvent | automata/automata_processor.py:203-280 | the result always reports the state set the automaton was in |
| AutomataProcessor.NfaEventSpec | automata/automata_processor.py:203-280 | the step succeeds exactly when some transition is enabled from some current state, and then the new set is exactly their targets; a failure changes nothing and runs nothing; with no transition for the event the failure says so |
| AutomataProcessor.ProcessNfaEvent | automata/automata_processor.py:203-280 | the result, the new state set and the actions run are those of the NFA step, and after a success the current state is one of the new states |
| AutomataProcessor.CurrentSnapshot | automata/automata_processor.py:282-295 | a DFA reports its current state and an NFA its state set |
| AutomataProcessor.ProcessEvent | automata/automata_processor.py:102-129 | an event outside the alphabet fails and changes nothing; otherwise the DFA or NFA step is taken as the automaton's kind says |
| AutomataProcessor.ResetAutomata | automata/automata_processor.py:297-312 | with an initial state the automaton returns to it, an NFA to exactly that state; without one nothing changes |
| AutomataProcessor.NfaAgreesWithDfa | automata/automata_processor.py:132-280 | from a single state with exactly one enabled transition, the NFA step reaches the same state and records the same actions as the DFA step |
| AutomataProcessor.NfaRunSingle | automata/automata_processor.py:235-258 | from a single state with exactly one enabled transition, the NFA records exactly that transition's actions |
| Engine.InitialStates | automata/engine.py:33-42 | a given initial state is the start; otherwise the first state marked initial; otherwise none, and never more than one |
| Engine.FindInitialStates | automata/engine.py:33-42 | the loop finds the start state set |
| Engine.StateDefOf | automata/engine.py:155 | a state's definition is found exactly when some entry has its id |
| Engine.FirstTransition | automata/engine.py:106-117 | the first transition leaving the state on the event, or none exactly when there is none |
| Engine.PossibleEventsSpec | automata/engine.py:244-264 | the events offered are exactly those of some transition leaving the state, each listed once |
| Engine.PossibleEventsPrefix | automata/engine.py:256-262 | events found in a prefix of the transitions come first, in the same order |
| Engine.PossibleEventsFire | automata/engine.py:84-136 | a non-empty event is offered exactly when triggering it finds a transition |
| Engine.HandlerCall | automata/engine.py:156-177 | a hook runs exactly when its name is truthy and registered, and then runs once |
| Engine.ExecutedSpec | automata/engine.py:149-193 | when every hook completes all of them run, otherwise the ones run are the hooks up to the failing one |
| Engine.ExecutedAllPerformed | automata/engine.py:149-193 | when no hook raises, every hook runs, in order |
| Engine.ExecutedStops | automata/engine.py:149-193 | when some hook raises, the hooks run are a prefix of the list ending at the first one that raises |
| Engine.ExecutedConcat | automata/engine.py:149-193 | running two groups of hooks runs the second only when every hook of the first completed |
| Engine.AutomataEngine.constructor | automata/engine.py:19-52 | the engine keeps the definition, takes the default id, name and kind when absent, starts from the initial state set and has no history or handlers |
| Engine.AutomataEngine.RegisterActionHandler | automata/engine.py:54-62 | the handler is stored under the action name |
| Engine.AutomataEngine.RegisterConditionHandler | automata/engine.py:64-72 | the handler is stored under the condition name |
| Engine.AutomataEngine.TriggerEvent | automata/engine.py:84-136 | with no current state nothing fires; otherwise the first transition from a current state on the event fires, the engine moves to exactly its target and records one history entry; without one nothing changes |
| Engine.AutomataEngine.ApplyTransition | automata/engine.py:138-193 | the exit, transition and entry hooks run in order up to the first failure; the state moves only when the first two completed and the history grows only when all three did |
| Engine.AutomataEngine.RunPreMoveHooks | automata/engine.py:155-163 | the exit and transition hooks run up to the first failure and nothing changes |
| Engine.AutomataEngine.MoveAndEnter | automata/engine.py:166-186 | the state set moves as the kind says, the entry hook runs, and the history grows only when it completes |
| Engine.AutomataEngine.GetPossibleEvents | automata/engine.py:244-264 | no current state offers no event; otherwise the events leaving one current state |
| Engine.AutomataEngine.Reset | automata/engine.py:275-291 | the engine returns to its start state set with an empty history |
| StationService.NewStationStatus | app.py:466-467 | a missing status becomes "available", a text status is lower-cased, and anything else makes the handler fail |
| StationService.RouteStatus | app.py:584-638 | plug fails unless the station is "reserved" and start fails unless it is "occupied"; otherwise connect and stop give "available", disconnect "unavailable", plug "occupied" and start "charging" |
| StationService.ChargingIsNotValid | app.py:39 | the status start writes is not one the status routes accept |
| StationService.CapitalReservedIsNotValid | app.py:333 | the status a reservation writes is not an accepted status and differs from "reserved" |
| StationService.OnlyStartLeavesValidStatuses | app.py:584-638 | from an accepted status, a route writes an accepted status exactly when it is not start |
| StationService.ChargeSequence | app.py:605-638 | plug works exactly from "reserved"; plug, start and stop lead from "reserved" to "occupied", "charging" and back to "available"; a charging station cannot be plugged or started again |
| StationService.ReservedStationCannotBePlugged | app.py:333 | a station a reservation marked cannot be plugged, because the capitalised status is not "reserved" |
| StationService.StatusCaseHandling | app.py:274-276 | for every text whose lower-cased form is a listed status, adding a station stores the lower-cased form, while the status update accepts the text exactly when it has no capital letter |
| StationService.StatusCaseExample | app.py:466-469 | the instance of `StatusCaseHandling` for "AVAILABLE": adding a station turns "AVAILABLE" into "available" while the status update refuses "AVAILABLE" |
| StationService.ValidStatusesAreLower | app.py:39 | no listed status has a capital letter, so lower-casing keeps it |
| StationService.CalculateChargeTime | app.py:817-824 | zero minutes without a positive power; otherwise the minutes times the power are the missing percentage of the capacity times 0.6 |
| StationService.CalculateRange | app.py:826-829 | no charge, no capacity or no efficiency gives no range, and a full battery gives capacity times efficiency |
| StationService.ChargeTimeSign | app.py:817-824 | with positive capacity and power, the time is positive exactly when the target is above the current charge and zero exactly when they are equal |
| StationService.ChargeTimeAddsRange | app.py:817-829 | the range gained by charging from the current to the target level is the energy delivered in the charge time times the efficiency |
| StationService.DefaultReach | app.py:826-836 | with the default efficiency of 5 km per kWh (`DefaultEfficiency`), `IsStationReachable` holds exactly when the distance times 20 is at most the charge percentage times the capacity |
| StationService.ReachableMonotonic | app.py:831-836 | `IsStationReachable`, the reach test of `is_station_reachable`: more charge never makes a station unreachable |
| StationService.ReservationMinutes | app.py:309-310 | the minutes times the power are the missing percentage of the capacity times 0.6 |
| StationService.ReservationMinutesAgree | app.py:309-310 | with a positive power the reservation's own computation agrees with the charge-time function; with a negative power it gives a negative time where the function gives zero |
| StationService.UpdatedVehicle | app.py:641-690 | the update is refused exactly when a sent charge lies outside 0..100 or a sent capacity is not positive; otherwise sent fields replace old ones, the location only when both coordinates are sent, and the power is kept |
| StationService.UpdateKeepsSane | app.py:655-674 | an accepted update keeps the charge within 0..100 and the capacity positive |
| StationService.CleanupSpec | app.py:512-529 | `Cleanup`, the expired-reservation sweep: the cleanup keeps every station, sets to "available" exactly the stations in "reserved", "available" or "occupied" that have an expired reservation, and lists exactly those stations: every listed id was such a station and every station freed is listed |
| StationService.CleanupSkipsCapitalReserved | app.py:518-522 | a station a reservation marked "Reserved" is never released by the cleanup |
| StationService.CleanupIdempotent | app.py:512-529 | a second cleanup at the same time changes no station |
| StationService.CleanupKeepsWritten | app.py:518-522 | the cleanup writes only statuses of the kind the routes write |
| StationService.ConnectedIds | app.py:543-550 | the connected stations are stations |
| StationService.ConnectedCount | app.py:543-550 | the connected count never exceeds the number of stations |
| StationService.DisconnectedIds | app.py:895 | the stations still "Disconnected" are stations |
| StationService.SummaryCounts | app.py:543-550 | the connected count is the total less the stations still "Disconnected" |
| StationService.WrittenNotDisconnected | app.py:270-354 | no status a route, update or reservation writes is "Disconnected" |
| StationService.WriteKeepsConnected | app.py:584-638 | writing any status other than "Disconnected" into a station disconnects no station |
| StationService.ConnectedCountGrows | app.py:543-550 | when the connected stations only grow, the connected count does not drop |
| StationService.CleanupKeepsConnected | app.py:512-529 | the cleanup disconnects no station |
| StationService.Database.constructor | app.py:1000 | the tables start empty |
| StationService.Database.SeedChargingStations | app.py:872-899 | a table holding a station is left alone; an empty one receives the ten seed stations with their names and coordinates, all "Disconnected", so none counts as connected |
| StationService.Database.UpdateStationStatus | app.py:270-288 | `StatusAccepted` (`new_status in VALID_STATUSES`) decides the first check: an unaccepted status answers 400 and a missing station 404, both without change; otherwise only that station takes the status; the written statuses are kept and no connected station is disconnected |
| StationService.Database.AddStation | app.py:464-489 | a non-text status fails, an unaccepted lower-cased status answers 400, and a missing name or coordinate fails the NOT NULL columns of app.py:60-63, all without change; otherwise the new station is stored with its name, coordinates and the lower-cased status; no connected station is disconnected |
| StationService.Database.ApplyRoute | app.py:584-638 | a missing station answers 404 and a refused route 400, both without change; otherwise only that station takes the route's status, including connecting a seeded "Disconnected" station; no connected station is disconnected |
| StationService.Database.CreateReservation | app.py:291-354 | an incomplete form answers 400 and an unknown vehicle or station 404, a zero power fails, all without change; otherwise the station is marked "Reserved" and one reservation ending after the charge time is appended under an id no stored reservation has, so reservation ids stay distinct; no connected station is disconnected |
| StationService.Database.ReleaseStation | app.py:337-343 | the timer sets an existing station that is not available to "available" and changes nothing else; the written statuses are kept and no connected station is disconnected |
| StationService.Database.CancelReservation | app.py:492-509 | an unknown reservation answers 404 without change; otherwise the first one with the id is removed and its station, if it still exists, becomes "available"; with distinct reservation ids none is left with that id and the ids stay distinct; the written statuses are kept and no connected station is disconnected |
| StationService.Database.CleanupExpiredReservations | app.py:512-529 | the stations and the cleaned list are those of the cleanup; the written statuses are kept and no connected station is disconnected |
| StationService.Database.UpdateVehicleLocation | app.py:641-690 | an unknown vehicle answers 404 and a refused update 400, both without change; otherwise only that vehicle takes the update |
| StationService.QueryPercent | app.py:560-561 | a missing percentage takes its default and one `float()` cannot read raises |
| StationService.Database.EstimateReservationTime | app.py:557-581 | a percentage `float()` cannot read fails before anything else; then missing ids answer 400 and unknown ones 404; for known ids an estimate comes exactly when the power is not zero, and zero power fails; the estimate reports the station's status, is reservable exactly when it is "available", and its minutes times the power are the missing percentage (defaults 20 and 80) of the capacity times 0.6 |

## Left out

- Transport is not modelled: websocket connect and serve, `cp.start()`, the `ocpp` library's encoding, JSON parsing and dumping, and Flask, SQLAlchemy and FastAPI request handling. Outbound calls are appends to a sequence, replies from the other side are parameters, and request bodies arrive already parsed.
- Concurrency is not modelled: asyncio task creation, sleep intervals (10 s in one Charge Point copy, 5 s in the other), cancellation timing, the endless heartbeat and receive loops, and the Charge Point's and Central System's `now()`. Scheduled tasks are recorded as values in `SharedState.State.tasks`.
- Clocks are parameters: `datetime.now`/`utcnow`, the time part of transaction and session ids, and ISO 8601 formatting.
- Logging is left out: the logger, `automata/actions.py` (logging-only actions), and `EVClient.handle_response`, which only logs what it receives.
- The user interfaces are left out, and so are the XML automaton loaders, which only parse files into the definitions the model takes as input.
- The routes outside the modelled core are left out:
  - in `main.py`: listing EVSEs and statuses, the connect, disconnect, start and stop endpoints, and the EV listing;
  - in `app.py`: users and login, the vehicle and user-vehicle listings, `quick_action`, the smart suggestions, the reservation listings, `delete_station`, `seed_vehicles` and `test_automata_system`.
- `simple_distance` (the haversine distance) is floating-point trigonometry. A distance is an input to `StationService.IsStationReachable`.
- Float rounding (`round(...)` in replies) is left out.
- Error replies in `main.py` keep their code and the text the client receives. An `HTTPException` detail or a returned error body is kept as written. A caught exception whose `str(e)` the handler puts in the reply (`get_estimated_time`, `assign_reservation`) keeps that text. An exception no handler catches (the AttributeError in `update_evse_status`, the bad index in `ocpp_reserve`) is FastAPI's 500 with the body "Internal Server Error".
- Error replies in `app.py` are modelled by their HTTP code alone; their message texts are left out.
- `Common.Lower`: lower-cases ASCII letters only, not the whole of Unicode.
- `MainApi.PowerFor`: states only the bounds of the lookup table. The table itself is the constant `ModelPowerMap`, with 22.0 for an unknown model.
- `ChargePointModel.ChargePoint.RunMeterTask`: the meter loop runs for a given finite sequence of wake-ups. A second Started event leaves the earlier meter task running in the source; the model keeps only the newest task handle.
- `EvseServerModel.ProcessMessage`: a frame without `evse_id` is not forwarded. The source looks up "CP_None", a key no station registers under.
- `Engine.AutomataEngine.TriggerEvent`: the current state that `next(iter(current_states))` yields is an arbitrary member of the set, returned as a ghost value. `Engine.AutomataEngine.GetPossibleEvents` chooses the same way.
- `AutomataProcessor.ProcessNfaEvent`: `current_state` after a successful NFA step is stated only to be one of the new states, because `list(new_states)[0]` depends on set iteration order.
- `Engine`: transitions are records with every key present. The `dict.get` defaults for missing keys, `_evaluate_condition`, `register_event_handler`, `get_current_state_name`, `get_state_history` and `get_state_metadata` are left out.
- `Conditions`: `register_condition_handlers` only fills the engine's handler map and is left out. Datetimes in contexts are whole seconds. Comparisons between values of different kinds are a raised TypeError. Floats do not occur in contexts: numbers are `int` and `bool`.
- `AutomataProcessor`: the automaton and the transition placed into the context are opaque marker values.
- `StationService.Database.CreateReservation`: the `threading.Timer` is not scheduled. Its callback is the separate `StationService.Database.ReleaseStation`, and reservation ids are given by the caller as the database would assign them: an id no stored reservation has, as the primary key demands.
- `StationService.Database.AddStation`: the name and coordinates arrive as a text and numbers or missing; a value of another kind is not modelled.
- `StationService.Database.UpdateVehicleLocation`: a value `float()` cannot convert is `NotANumber` (answered 400). A `None` value, which raises TypeError in the source, is not modelled.
- `CentralSystem`: `on_heartbeat`, `on_meter_values` and `start_csms` only reply or log and are left out.

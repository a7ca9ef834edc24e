/** The per-EVSE ISO 15118 server (VOLTRIX/app/backend/iso15118/evse_server.py):
    it answers the simulated EV's four requests and forwards the start and
    stop of charging to the EVSE's Charge Point as OCPP TransactionEvents.
    The server holds no state of its own; each frame is handled against the
    shared Charge Point registry. */
module EvseServerModel {
  import opened Common
  import opened Identifiers
  import opened Ocpp
  import opened IsoMessages
  import opened ChargePointModel
  import opened SharedState

  /** The frame `handle_connection_request` sends; it ignores the payload. */
  function ConnectionResponseMessage(now: Timestamp): IsoMessage {
    IsoMessage(ConnectionResponse, now, StatusBody("Accepted"))
  }

  /** The fixed vehicle data `handle_ev_information` sends back. */
  function EvInformationResponseMessage(now: Timestamp): IsoMessage {
    IsoMessage(EVInformationResponse, now, EvInformationBody(60, 35, 80, 22))
  }

  function ChargingStartResponseMessage(sessionId: Option<string>, now: Timestamp): IsoMessage {
    IsoMessage(ChargingStartResponse, now, SessionStatusBody(sessionId, "Accepted", now))
  }

  function ChargingStopResponseMessage(sessionId: Option<string>, now: Timestamp): IsoMessage {
    IsoMessage(ChargingStopResponse, now, SessionStatusBody(sessionId, "Stopped", now))
  }

  /** What `process_message` sends back on the socket. A frame that is not
      JSON or not an object, an unknown or missing `message_type`, and a
      start or stop request whose payload is not an object (the `.get`
      raises before the reply is built) get no reply. */
  function Reply(frame: Inbound, now: Timestamp): (r: Option<IsoMessage>)
  {
    match frame
    case NotJson => None
    case NotAnObject => None
    case Envelope(messageType, payload) =>
      if messageType == Some(Wire(ConnectionRequest)) then Some(ConnectionResponseMessage(now))
      else if messageType == Some(Wire(EVInformationRequest)) then Some(EvInformationResponseMessage(now))
      else if messageType == Some(Wire(ChargingStartRequest)) then
        match Fields(payload)
        case None => None
        case Some(f) => Some(ChargingStartResponseMessage(f.sessionId, now))
      else if messageType == Some(Wire(ChargingStopRequest)) then
        match Fields(payload)
        case None => None
        case Some(f) => Some(ChargingStopResponseMessage(f.sessionId, now))
      else None
  }

  /** Which forwarding call follows the reply, with the `evse_id` it read
      from the payload. */
  datatype ForwardAction = NoForward | ForwardStart(evseId: Option<int>) | ForwardStop(evseId: Option<int>)

  function ForwardOf(frame: Inbound): (r: ForwardAction)
  {
    match frame
    case NotJson => NoForward
    case NotAnObject => NoForward
    case Envelope(messageType, payload) =>
      if messageType == Some(Wire(ChargingStartRequest)) then
        match Fields(payload)
        case None => NoForward
        case Some(f) => ForwardStart(f.evseId)
      else if messageType == Some(Wire(ChargingStopRequest)) then
        match Fields(payload)
        case None => NoForward
        case Some(f) => ForwardStop(f.evseId)
      else NoForward
  }

  /** Every reply answers the request it follows, with the matching Response
      tag. */
  lemma ReplyAnswersRequest(frame: Inbound, now: Timestamp)
    ensures Reply(frame, now).Some? ==>
              && frame.Envelope? && frame.messageType.Some?
              && ParseMessageType(frame.messageType.value).Some?
              && ResponseTo(ParseMessageType(frame.messageType.value).value) == Some(Reply(frame, now).value.messageType)
  {
  }

  /** One-way and response frames are never answered, and only a start or
      stop request that was answered is forwarded. */
  lemma OnlyRequestsAnswered(frame: Inbound, now: Timestamp)
    ensures (frame.Envelope? && frame.messageType.Some? && ParseMessageType(frame.messageType.value).Some?
             && ResponseTo(ParseMessageType(frame.messageType.value).value).None?) ==> Reply(frame, now).None?
    ensures !ForwardOf(frame).NoForward? ==> Reply(frame, now).Some?
  {
  }

  /** The reply to a session-carrying request echoes that session. */
  lemma StartReplyEchoesSession(evId: string, evseId: int, sessionId: string, sent: Timestamp, now: Timestamp)
    ensures Reply(Receive(IsoMessage(ChargingStartRequest, sent, ChargingStartBody(sessionId, evId, evseId, 20, 80))), now)
            == Some(ChargingStartResponseMessage(Some(sessionId), now))
  {
  }

  /** The registry key the forwarding calls look up: `f"CP_{evse_id}"`,
      which reads "CP_None" when the payload has no `evse_id`. */
  function ForwardKey(evseId: Option<int>): (key: string)
  {
    match evseId
    case None => "CP_None"
    case Some(id) => StationId(id)
  }

  /** A missing `evse_id` never addresses a real station's key. */
  lemma ForwardKeyNoneIsNoStation(id: int)
    ensures ForwardKey(None) != StationId(id)
  {
    StationIdRoundTrip(id);
    assert ParseStationId("CP_None").None? by {
      assert "CP_None"[3..] == "None";
      assert ParseInt("None").None?;
    }
  }

  /** The station Charge Point a frame's forwarding call reaches, if any.
      A Central System end registered under the key has no
      `send_transaction_event_*` method; the AttributeError is caught. */
  function ForwardTarget(st: State, frame: Inbound): (r: Option<ChargePoint>)
    reads st
  {
    var action := ForwardOf(frame);
    if action.NoForward? || action.evseId.None? then None
    else
      var key := ForwardKey(action.evseId);
      if key in st.chargePoints && st.chargePoints[key].StationSide? then Some(st.chargePoints[key].cp)
      else None
  }

  /** `process_message` on one frame. `now` is the server's timestamp,
      `stationNow` and `clock` the Charge Point's two clock readings. */
  method ProcessMessage(st: State, frame: Inbound, ws: Channel, now: Timestamp, stationNow: Timestamp, clock: string)
    modifies ws
    modifies if ForwardTarget(st, frame).Some? then {ForwardTarget(st, frame).value} else {}
    ensures ws.sent == old(ws.sent) + (if Reply(frame, now).Some? then [Reply(frame, now).value] else [])
    ensures ForwardTarget(st, frame).Some? && ForwardOf(frame).ForwardStart? ==>
              var cp := ForwardTarget(st, frame).value;
              var id := ForwardOf(frame).evseId.value;
              && cp.currentTransactionId == Some(TransactionId(cp.id, clock))
              && cp.outbox == old(cp.outbox) + [StartedEvent(id, stationNow, TransactionId(cp.id, clock))]
              && cp.transactionActive && cp.meterTask == Running(id, 0)
    ensures ForwardTarget(st, frame).Some? && ForwardOf(frame).ForwardStop? ==>
              var cp := ForwardTarget(st, frame).value;
              var id := ForwardOf(frame).evseId.value;
              && cp.currentTransactionId == old(cp.currentTransactionId)
              && (old(cp.currentTransactionId).None? ==>
                    cp.outbox == old(cp.outbox) && cp.meterTask == old(cp.meterTask)
                    && cp.transactionActive == old(cp.transactionActive))
              && (old(cp.currentTransactionId).Some? ==>
                    cp.outbox == old(cp.outbox) + [EndedEvent(id, stationNow, old(cp.currentTransactionId).value)]
                    && !cp.transactionActive && cp.meterTask == CancelIfPending(old(cp.meterTask)))
  {
    var reply := Reply(frame, now);
    if reply.Some? {
      ws.Send(reply.value);
    }
    var target := ForwardTarget(st, frame);
    if target.Some? {
      var cp := target.value;
      var id := ForwardOf(frame).evseId.value;
      if ForwardOf(frame).ForwardStart? {
        var _ := cp.SendTransactionEventStarted(id, stationNow, clock);
      } else {
        var _ := cp.SendTransactionEventEnded(id, stationNow);
      }
    }
  }

  /** The EV client's start and stop requests reach the Charge Point of the
      EVSE the client was built for. */
  lemma ClientRequestsReachOwnStation(evId: string, evseId: int, sessionId: string, reason: string, sent: Timestamp)
    ensures ForwardOf(Receive(IsoMessage(ChargingStartRequest, sent, ChargingStartBody(sessionId, evId, evseId, 20, 80))))
            == ForwardStart(Some(evseId))
    ensures ForwardOf(Receive(IsoMessage(ChargingStopRequest, sent, ChargingStopBody(sessionId, evId, evseId, reason))))
            == ForwardStop(Some(evseId))
    ensures ForwardKey(Some(evseId)) == StationId(evseId)
  {
  }
}

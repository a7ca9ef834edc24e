/** The JSON message set the simulated EV and the per-EVSE server exchange
    (VOLTRIX/app/backend/iso15118/messages.py). It borrows the ISO 15118 name
    but is its own small protocol: an envelope with a message type, a
    timestamp and a payload object. */
module IsoMessages {
  import opened Common

  /** The twelve `MessageType` members. */
  datatype MessageType =
    | ConnectionRequest | ConnectionResponse
    | EVInformationRequest | EVInformationResponse
    | ChargingStartRequest | ChargingStartResponse
    | ChargingStopRequest | ChargingStopResponse
    | ChargingStatusUpdate | ChargingCompleteNotification
    | DisconnectionRequest | DisconnectionResponse

  /** The member's value. The enum derives from `str`, so a member compares
      equal to exactly this string. */
  function Wire(t: MessageType): string {
    match t
    case ConnectionRequest => "ConnectionRequest"
    case ConnectionResponse => "ConnectionResponse"
    case EVInformationRequest => "EVInformationRequest"
    case EVInformationResponse => "EVInformationResponse"
    case ChargingStartRequest => "ChargingStartRequest"
    case ChargingStartResponse => "ChargingStartResponse"
    case ChargingStopRequest => "ChargingStopRequest"
    case ChargingStopResponse => "ChargingStopResponse"
    case ChargingStatusUpdate => "ChargingStatusUpdate"
    case ChargingCompleteNotification => "ChargingCompleteNotification"
    case DisconnectionRequest => "DisconnectionRequest"
    case DisconnectionResponse => "DisconnectionResponse"
  }

  const AllMessageTypes: seq<MessageType> := [
    ConnectionRequest, ConnectionResponse, EVInformationRequest, EVInformationResponse,
    ChargingStartRequest, ChargingStartResponse, ChargingStopRequest, ChargingStopResponse,
    ChargingStatusUpdate, ChargingCompleteNotification, DisconnectionRequest, DisconnectionResponse]

  /** `MessageType(value)`: the member whose value is `s`, if any. */
  function ParseMessageType(s: string): (r: Option<MessageType>)
    ensures r.Some? ==> Wire(r.value) == s
  {
    if s == "ConnectionRequest" then Some(ConnectionRequest)
    else if s == "ConnectionResponse" then Some(ConnectionResponse)
    else if s == "EVInformationRequest" then Some(EVInformationRequest)
    else if s == "EVInformationResponse" then Some(EVInformationResponse)
    else if s == "ChargingStartRequest" then Some(ChargingStartRequest)
    else if s == "ChargingStartResponse" then Some(ChargingStartResponse)
    else if s == "ChargingStopRequest" then Some(ChargingStopRequest)
    else if s == "ChargingStopResponse" then Some(ChargingStopResponse)
    else if s == "ChargingStatusUpdate" then Some(ChargingStatusUpdate)
    else if s == "ChargingCompleteNotification" then Some(ChargingCompleteNotification)
    else if s == "DisconnectionRequest" then Some(DisconnectionRequest)
    else if s == "DisconnectionResponse" then Some(DisconnectionResponse)
    else None
  }

  /** Reading a member's value back gives the member: the comparisons of raw
      `message_type` strings against members are exact. */
  lemma WireRoundTrip(t: MessageType)
    ensures ParseMessageType(Wire(t)) == Some(t)
  {
  }

  /** A string that is no member's value parses to nothing. */
  lemma ParseMessageTypeComplete(s: string)
    ensures ParseMessageType(s).None? <==> forall t: MessageType :: Wire(t) != s
  {
    if ParseMessageType(s).None? {
      forall t: MessageType ensures Wire(t) != s {
        WireRoundTrip(t);
      }
    }
  }

  /** The twelve tags have pairwise-distinct wire strings. */
  lemma WireInjective(a: MessageType, b: MessageType)
    ensures Wire(a) == Wire(b) <==> a == b
  {
    WireRoundTrip(a);
    WireRoundTrip(b);
  }

  /** The position of a tag in the declaration order. */
  function TagIndex(t: MessageType): (i: nat)
    ensures i < |AllMessageTypes| && AllMessageTypes[i] == t
  {
    match t
    case ConnectionRequest => 0
    case ConnectionResponse => 1
    case EVInformationRequest => 2
    case EVInformationResponse => 3
    case ChargingStartRequest => 4
    case ChargingStartResponse => 5
    case ChargingStopRequest => 6
    case ChargingStopResponse => 7
    case ChargingStatusUpdate => 8
    case ChargingCompleteNotification => 9
    case DisconnectionRequest => 10
    case DisconnectionResponse => 11
  }

  /** Exactly twelve tags, each listed once. */
  lemma TwelveTags()
    ensures |AllMessageTypes| == 12
    ensures forall t: MessageType :: t in AllMessageTypes
    ensures forall i, j :: 0 <= i < j < |AllMessageTypes| ==> AllMessageTypes[i] != AllMessageTypes[j]
  {
    forall t: MessageType ensures t in AllMessageTypes {
      var i := TagIndex(t);
    }
  }

  predicate IsResponse(t: MessageType) {
    t in {ConnectionResponse, EVInformationResponse, ChargingStartResponse, ChargingStopResponse, DisconnectionResponse}
  }

  /** The response tag that answers a request tag. */
  function ResponseTo(t: MessageType): (r: Option<MessageType>)
    ensures r.Some? ==> IsResponse(r.value) && !IsResponse(t)
  {
    match t
    case ConnectionRequest => Some(ConnectionResponse)
    case EVInformationRequest => Some(EVInformationResponse)
    case ChargingStartRequest => Some(ChargingStartResponse)
    case ChargingStopRequest => Some(ChargingStopResponse)
    case DisconnectionRequest => Some(DisconnectionResponse)
    case _ => None
  }

  /** Five exchanges have a Request and a Response tag; the status update
      and the completion notification are one-way. */
  lemma RequestResponsePairs()
    ensures forall t: MessageType :: ResponseTo(t).Some? <==>
      t in {ConnectionRequest, EVInformationRequest, ChargingStartRequest, ChargingStopRequest, DisconnectionRequest}
    ensures forall t: MessageType :: ResponseTo(t) != Some(ChargingStatusUpdate)
    ensures forall t: MessageType :: ResponseTo(t) != Some(ChargingCompleteNotification)
    ensures ResponseTo(ChargingStatusUpdate).None? && ResponseTo(ChargingCompleteNotification).None?
  {
  }

  /** The payload objects the two ends build. */
  datatype Payload =
    | ConnectionRequestBody(evId: string, evseId: int, sessionId: string, protocolVersion: string)
    | SessionBody(sessionId: string)
    | ChargingStartBody(sessionId: string, evId: string, evseId: int, energyAmountKWh: int, targetSoc: int)
    | ChargingStopBody(sessionId: string, evId: string, evseId: int, reason: string)
    | StatusBody(status: string)
    | EvInformationBody(batteryCapacity: int, currentSoc: int, targetSoc: int, chargingPower: int)
    | SessionStatusBody(echoedSessionId: Option<string>, status: string, timestamp: Timestamp)

  datatype IsoMessage = IsoMessage(messageType: MessageType, timestamp: Timestamp, payload: Payload)

  /** One end of a websocket: what has been sent on it, in order. */
  class Channel {
    var sent: seq<IsoMessage>

    constructor ()
      ensures sent == []
    {
      sent := [];
    }

    method Send(m: IsoMessage)
      modifies this
      ensures sent == old(sent) + [m]
    {
      sent := sent + [m];
    }
  }

  /** A frame as the receiving end's `json.loads` and `.get` calls see it.
      `messageType` is None when the key is missing or not a string; a
      payload field is None when the key is missing. */
  datatype Inbound =
    | NotJson
    | NotAnObject
    | Envelope(messageType: Option<string>, payload: InboundPayload)

  datatype InboundPayload =
    | PayloadMissing
    | PayloadNotAnObject
    | PayloadFields(evId: Option<string>, evseId: Option<int>, sessionId: Option<string>, reason: Option<string>)

  /** `data.get("payload", {})` followed by the handlers' `.get` calls. */
  function Fields(p: InboundPayload): (r: Option<InboundPayload>)
    ensures r.Some? ==> r.value.PayloadFields?
    ensures r.None? <==> p.PayloadNotAnObject?
  {
    match p
    case PayloadMissing => Some(PayloadFields(None, None, None, None))
    case PayloadNotAnObject => None
    case PayloadFields(_, _, _, _) => Some(p)
  }

  /** What the receiving end reads from a message the other end sent. */
  function Receive(m: IsoMessage): Inbound {
    Envelope(Some(Wire(m.messageType)), match m.payload
      case ConnectionRequestBody(ev, evse, sid, _) => PayloadFields(Some(ev), Some(evse), Some(sid), None)
      case SessionBody(sid) => PayloadFields(None, None, Some(sid), None)
      case ChargingStartBody(sid, ev, evse, _, _) => PayloadFields(Some(ev), Some(evse), Some(sid), None)
      case ChargingStopBody(sid, ev, evse, reason) => PayloadFields(Some(ev), Some(evse), Some(sid), Some(reason))
      case StatusBody(_) => PayloadFields(None, None, None, None)
      case EvInformationBody(_, _, _, _) => PayloadFields(None, None, None, None)
      case SessionStatusBody(sid, _, _) => PayloadFields(None, None, sid, None))
  }
}

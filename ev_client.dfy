/** The simulated EV (VOLTRIX-CSMS-git/app/backend/iso15118/ev_client.py): it
    dials its EVSE's server, announces itself, and once its simulated state
    of charge reaches 100 % asks the EVSE to stop charging. */
module EvClientModel {
  import opened Common
  import opened IsoMessages

  /** `f"session-{ev_id}-{timestamp}"`; `stamp` is the text of the POSIX
      time taken at construction. */
  function SessionId(evId: string, stamp: string): string {
    "session-" + evId + "-" + stamp
  }

  /** The reason a stop request carries when none is given. */
  const DefaultStopReason: string := "UserStopped"

  function ConnectionRequestMessage(evId: string, evseId: int, sessionId: string, now: Timestamp): IsoMessage {
    IsoMessage(ConnectionRequest, now, ConnectionRequestBody(evId, evseId, sessionId, "1.0"))
  }

  function EvInformationRequestMessage(sessionId: string, now: Timestamp): IsoMessage {
    IsoMessage(EVInformationRequest, now, SessionBody(sessionId))
  }

  /** The start request asks for 20 kWh up to 80 % SOC. */
  function ChargingStartRequestMessage(evId: string, evseId: int, sessionId: string, now: Timestamp): IsoMessage {
    IsoMessage(ChargingStartRequest, now, ChargingStartBody(sessionId, evId, evseId, 20, 80))
  }

  function ChargingStopRequestMessage(evId: string, evseId: int, sessionId: string, reason: string, now: Timestamp): IsoMessage {
    IsoMessage(ChargingStopRequest, now, ChargingStopBody(sessionId, evId, evseId, reason))
  }

  /** Every request names the client's one session; the start and stop
      requests also name the EV and its EVSE, which the server reads back. */
  lemma RequestsCarrySession(evId: string, evseId: int, sessionId: string, reason: string, now: Timestamp)
    ensures Receive(ConnectionRequestMessage(evId, evseId, sessionId, now)).payload.sessionId == Some(sessionId)
    ensures Receive(EvInformationRequestMessage(sessionId, now)).payload.sessionId == Some(sessionId)
    ensures Receive(ChargingStartRequestMessage(evId, evseId, sessionId, now)).payload
            == PayloadFields(Some(evId), Some(evseId), Some(sessionId), None)
    ensures Receive(ChargingStopRequestMessage(evId, evseId, sessionId, reason, now)).payload
            == PayloadFields(Some(evId), Some(evseId), Some(sessionId), Some(reason))
  {
  }

  /** `monitor_soc`'s loop: from `start`, add 5 % per tick until at least
      100 %. It ends on the first multiple-of-5 step at or above 100. */
  method RampSoc(start: int) returns (soc: int, ticks: nat)
    ensures start >= 100 ==> soc == start && ticks == 0
    ensures start < 100 ==> 100 <= soc < 105
    ensures soc == start + 5 * ticks
  {
    soc := start;
    ticks := 0;
    while soc < 100
      invariant soc == start + 5 * ticks
      invariant start < 100 ==> soc < 105
      invariant start >= 100 ==> ticks == 0
      decreases 100 - soc
    {
      soc := soc + 5;
      ticks := ticks + 1;
    }
  }

  /** The SOC `monitor_soc` starts from. */
  const MonitorStartSoc: int := 35

  class EvClient {
    const evId: string
    const evseId: int
    const uri: string
    const sessionId: string
    var websocket: Channel?
    /** One entry per `monitor_soc` task `connect` created: the number of
        messages the socket had sent when the task was started. */
    var monitorStarts: seq<nat>

    constructor (evId: string, evseId: int, uri: string, stamp: string)
      ensures this.evId == evId && this.evseId == evseId && this.uri == uri
      ensures sessionId == SessionId(evId, stamp) && websocket == null
      ensures monitorStarts == []
    {
      this.evId := evId;
      this.evseId := evseId;
      this.uri := uri;
      sessionId := SessionId(evId, stamp);
      websocket := null;
      monitorStarts := [];
    }

    method SendConnectionRequest(now: Timestamp)
      modifies websocket
      ensures websocket != null ==>
        websocket.sent == old(websocket.sent) + [ConnectionRequestMessage(evId, evseId, sessionId, now)]
    {
      if websocket == null {
        return;
      }
      websocket.Send(ConnectionRequestMessage(evId, evseId, sessionId, now));
    }

    method SendEvInformationRequest(now: Timestamp)
      modifies websocket
      ensures websocket != null ==>
        websocket.sent == old(websocket.sent) + [EvInformationRequestMessage(sessionId, now)]
    {
      if websocket == null {
        return;
      }
      websocket.Send(EvInformationRequestMessage(sessionId, now));
    }

    method SendChargingStartRequest(now: Timestamp)
      modifies websocket
      ensures websocket != null ==>
        websocket.sent == old(websocket.sent) + [ChargingStartRequestMessage(evId, evseId, sessionId, now)]
    {
      if websocket == null {
        return;
      }
      websocket.Send(ChargingStartRequestMessage(evId, evseId, sessionId, now));
    }

    /** `reason` is None when the caller relies on the default. */
    method SendChargingStopRequest(reason: Option<string>, now: Timestamp)
      modifies websocket
      ensures websocket != null ==>
        websocket.sent == old(websocket.sent)
          + [ChargingStopRequestMessage(evId, evseId, sessionId,
               if reason.Some? then reason.value else DefaultStopReason, now)]
    {
      if websocket == null {
        return;
      }
      var r := if reason.Some? then reason.value else DefaultStopReason;
      websocket.Send(ChargingStopRequestMessage(evId, evseId, sessionId, r, now));
    }

    /** The part of `connect` that runs before the receive loop: adopt the
        socket, send ConnectionRequest and EVInformationRequest, in that
        order, and only then start the `monitor_soc` task. */
    method Connect(ws: Channel, now: Timestamp)
      modifies this, ws
      ensures websocket == ws
      ensures ws.sent == old(ws.sent) + [ConnectionRequestMessage(evId, evseId, sessionId, now),
                                         EvInformationRequestMessage(sessionId, now)]
      ensures monitorStarts == old(monitorStarts) + [|old(ws.sent)| + 2]
    {
      websocket := ws;
      SendConnectionRequest(now);
      SendEvInformationRequest(now);
      monitorStarts := monitorStarts + [|ws.sent|];
    }

    /** `monitor_soc`: ramps the simulated SOC from 35 % to exactly 100 % in
        13 ticks, then sends one stop request with reason "FullyCharged". */
    method MonitorSoc(now: Timestamp) returns (soc: int, ticks: nat)
      modifies websocket
      ensures soc == 100 && ticks == 13
      ensures websocket != null ==>
        websocket.sent == old(websocket.sent)
          + [ChargingStopRequestMessage(evId, evseId, sessionId, "FullyCharged", now)]
    {
      soc, ticks := RampSoc(MonitorStartSoc);
      SendChargingStopRequest(Some("FullyCharged"), now);
    }
  }
}

/** Bringing a station online (`run_charge_point` in
    VOLTRIX/app/backend/server/charge_point.py): the station dials
    `ws://127.0.0.1:9000/<cp_id>`, builds its ChargePoint and stores it in the
    shared registry under `cp_id`. The Central System's `on_connect`, run for
    the same connection in the same process, stores its own end under the
    same key, so which object the registry ends up holding depends on which
    of the two writes runs last. */
module StationRunner {
  import opened Common
  import opened Identifiers
  import opened ChargePointModel
  import opened CsmsEndpointModel
  import opened SharedState
  import opened CentralSystem

  /** The path the station dials on the Central System's server. */
  function StationPath(cpId: string): string {
    "/" + cpId
  }

  /** The registration `run_charge_point` performs once connected; the boot
      and heartbeat tasks it then schedules are separate operations. */
  method RunChargePoint(st: State, cpId: string, initialStatus: string) returns (cp: ChargePoint)
    modifies st
    ensures fresh(cp) && cp.id == cpId && cp.initialStatus == initialStatus && cp.Valid()
    ensures cp.outbox == [] && cp.currentTransactionId == None && !cp.transactionActive
    ensures st.chargePoints == old(st.chargePoints)[cpId := StationSide(cp)]
    ensures st.evses == old(st.evses) && st.evs == old(st.evs) && st.evClients == old(st.evClients)
    ensures st.evseIdCounter == old(st.evseIdCounter) && st.reservationIdCounter == old(st.reservationIdCounter)
    ensures st.tasks == old(st.tasks)
    ensures old(st.Valid()) ==> st.Valid()
  {
    cp := new ChargePoint(cpId, initialStatus);
    st.chargePoints := st.chargePoints[cpId := StationSide(cp)];
  }

  /** Both ends of the connection for EVSE `evseId` register themselves, in
      either order. They use the same key, and the entry left is the one
      written last: the station's own ChargePoint only when the Central
      System registered first. */
  method ConnectStation(st: State, evseId: int, initialStatus: string, serverFirst: bool)
    returns (cp: ChargePoint, endpoint: CsmsEndpoint)
    modifies st
    ensures fresh(cp) && fresh(endpoint)
    ensures endpoint.id == cp.id == StationId(evseId)
    ensures StationId(evseId) in st.chargePoints
    ensures st.chargePoints[StationId(evseId)] == if serverFirst then StationSide(cp) else CsmsSide(endpoint)
    ensures forall k :: k in old(st.chargePoints) && k != StationId(evseId) ==>
              k in st.chargePoints && st.chargePoints[k] == old(st.chargePoints)[k]
    ensures st.evses == old(st.evses) && st.evs == old(st.evs)
    ensures old(st.Valid()) ==> st.Valid()
  {
    var key := StationId(evseId);
    StationPathKey(evseId);
    if serverFirst {
      endpoint := OnConnect(st, StationPath(key));
      cp := RunChargePoint(st, key, initialStatus);
    } else {
      cp := RunChargePoint(st, key, initialStatus);
      endpoint := OnConnect(st, StationPath(key));
    }
  }
}

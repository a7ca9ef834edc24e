/** The vehicle-side REST handlers of the backend
    (VOLTRIX-CSMS-git/app/backend/main.py): plugging a vehicle into a
    reserved EVSE, updating an EV's state of charge, estimating and
    assigning a reservation, and the OCPP ReserveNow request. Each handler
    is specified by a function on the EVSE and EV tables; the methods work
    on the shared objects in place and are proved against those functions. */
module MainEvApi {
  import opened Common
  import opened Identifiers
  import opened Ocpp
  import opened EvseModel
  import opened EvModel
  import opened ChargePointModel
  import opened CsmsEndpointModel
  import opened EvClientModel
  import opened SharedState
  import opened CentralSystem
  import opened MainApi

  /** `next((e for e in ev_list if e.id == ev_id), None)`. */
  function FirstWithId(evs: seq<EvView>, evId: string): Option<nat>
  {
    FirstIndex(evs, (e: EvView) => e.id == evId)
  }

  // ---------------------------------------------------------------------
  // Plugging a vehicle in
  // ---------------------------------------------------------------------

  /** What `plug_evse` decides before it changes anything: the HTTPException
      it raises, or the row it plugs, the registry key of its Charge Point
      and the EV (if any) whose ISO 15118 client it starts. */
  datatype PlugPlan =
    | PlugRefused(reply: Reply)
    | PlugProceeds(row: nat, key: string, evId: Option<string>)

  function PlanPlug(evses: seq<EvseView>, evs: seq<EvView>, index: int, registry: map<string, Peer>): PlugPlan
  {
    match PyIndex(index, |evses|)
    case None => PlugRefused(HttpError(404, "EVSE not found."))
    case Some(i) =>
      var key := StationId(evses[i].id);
      if evses[i].status != Reserved then PlugRefused(HttpError(400, "EVSE is not reserved."))
      else if key !in registry then PlugRefused(HttpError(500, "Charge Point " + key + " not connected."))
      else
        PlugProceeds(i, key, PlugClientEv(evs, evses[i].name))
  }

  /** The EV whose client `plug_evse` starts for the EVSE called `name`:
      the first one bound to it by name. */
  function PlugClientEv(evs: seq<EvView>, name: string): Option<string>
  {
    match FirstBoundTo(evs, name)
    case None => None
    case Some(j) => Some(evs[j].id)
  }

  /** Plugging goes ahead exactly for a Python-valid index of a Reserved
      EVSE whose Charge Point is registered; the client it starts belongs to
      an EV bound to that EVSE by name, and one is started whenever such an
      EV exists. */
  lemma PlugSpec(evses: seq<EvseView>, evs: seq<EvView>, index: int, registry: map<string, Peer>)
    ensures PlanPlug(evses, evs, index, registry).PlugProceeds? <==>
              && PyIndex(index, |evses|).Some?
              && evses[PyIndex(index, |evses|).value].status == Reserved
              && StationId(evses[PyIndex(index, |evses|).value].id) in registry
    ensures PlanPlug(evses, evs, index, registry).PlugRefused? ==>
              PlanPlug(evses, evs, index, registry).reply.HttpError?
    ensures match PlanPlug(evses, evs, index, registry)
            case PlugRefused(_) => true
            case PlugProceeds(i, key, ev) =>
              && i < |evses| && key == StationId(evses[i].id)
              && (ev.None? <==> forall k :: 0 <= k < |evs| ==> evs[k].connectedEvseId != Some(ByName(evses[i].name)))
              && (ev.Some? ==> exists k :: 0 <= k < |evs| && evs[k].id == ev.value
                                           && evs[k].connectedEvseId == Some(ByName(evses[i].name)))
  {
  }

  /** The registry entry a plug-in for `index` notifies. */
  function PlugTarget(st: State, index: int): set<object>
    reads st
  {
    match PyIndex(index, |st.evses|)
    case None => {}
    case Some(i) =>
      var key := StationId(st.evses[i].id);
      if key in st.chargePoints then {PeerObject(st.chargePoints[key])} else {}
  }

  /** `plug_evse`. `now` is the time stamped on the StatusNotification and
      `stamp` the clock reading the new EV client builds its session id from. */
  method PlugEvse(st: State, index: int, now: Timestamp, stamp: string) returns (r: Reply)
    requires st.Valid()
    modifies st`evClients, st`tasks, st.evses, PlugTarget(st, index)
    ensures st.EvTable() == old(st.EvTable()) && st.chargePoints == old(st.chargePoints)
    ensures match PlanPlug(old(st.EvseTable()), old(st.EvTable()), index, st.chargePoints)
            case PlugRefused(reply) =>
              r == reply && st.EvseTable() == old(st.EvseTable())
              && st.evClients == old(st.evClients) && st.tasks == old(st.tasks)
            case PlugProceeds(i, key, ev) =>
              && r == Plugged
              && st.EvseTable() == old(st.EvseTable())[i := old(st.EvseTable())[i].(status := Occupied)]
              && PeerOutbox(st.chargePoints[key])
                 == old(PeerOutbox(st.chargePoints[key])) + [StatusNotification(now, "Occupied", 1, st.evses[i].id)]
              && ClientStarted(st, old(st.evClients), old(st.tasks), ev, st.evses[i].id)
  {
    ghost var evses := st.EvseTable();
    ghost var evs := st.EvTable();
    var found := PyIndex(index, |st.evses|);
    if found.None? {
      return HttpError(404, "EVSE not found.");
    }
    var i := found.value;
    var evse := st.evses[i];
    assert evses[i] == evse.View();
    if evse.status != Reserved {
      return HttpError(400, "EVSE is not reserved.");
    }
    var key := StationId(evse.id);
    if key !in st.chargePoints {
      return HttpError(500, "Charge Point " + key + " not connected.");
    }
    assert PlanPlug(evses, evs, index, st.chargePoints) == PlugProceeds(i, key, PlugClientEv(evs, evse.name));
    PlugIn(st, i, st.chargePoints, key, now, stamp);
    r := Plugged;
  }

  /** The ISO 15118 client for the EV `ev` has been started, or nothing
      happened when there is no such EV. */
  ghost predicate ClientStarted(st: State, clients: map<string, EvClient>, tasks: seq<Task>,
                                ev: Option<string>, evseId: int)
    reads st
  {
    match ev
    case None => st.evClients == clients && st.tasks == tasks
    case Some(e) =>
      && e in st.evClients
      && st.evClients == clients[e := st.evClients[e]]
      && st.evClients[e].evId == e && st.evClients[e].evseId == evseId && st.evClients[e].uri == EvClientUri(evseId)
      && st.tasks == tasks + [EvConnectTask(e)]
  }

  /** The part of `plug_evse` after its checks: notify the Charge Point,
      mark the EVSE occupied, start the bound EV's client. */
  method PlugIn(st: State, i: nat, registry: map<string, Peer>, key: string, now: Timestamp, stamp: string)
    requires st.Valid() && i < |st.evses| && registry == st.chargePoints
    requires key == StationId(st.evses[i].id) && key in registry
    modifies st`evClients, st`tasks, st.evses, PeerObject(registry[key])
    ensures st.EvTable() == old(st.EvTable()) && st.chargePoints == old(st.chargePoints)
    ensures st.EvseTable() == old(st.EvseTable())[i := old(st.EvseTable())[i].(status := Occupied)]
    ensures PeerOutbox(registry[key]) == old(PeerOutbox(registry[key])) + [StatusNotification(now, "Occupied", 1, st.evses[i].id)]
    ensures ClientStarted(st, old(st.evClients), old(st.tasks), PlugClientEv(old(st.EvTable()), st.evses[i].name), st.evses[i].id)
  {
    PlugPeer(st, registry, key, st.evses[i].id, now);
    OccupyAndConnect(st, i, stamp, registry[key]);
  }

  /** `await cp.plug_in_vehicle(evse.id)` on either kind of registry entry. */
  method PlugPeer(st: State, registry: map<string, Peer>, key: string, evseId: int, now: Timestamp)
    requires registry == st.chargePoints && key in registry
    modifies PeerObject(registry[key])
    ensures st.EvseTable() == old(st.EvseTable()) && st.EvTable() == old(st.EvTable())
    ensures st.evClients == old(st.evClients) && st.tasks == old(st.tasks) && st.chargePoints == old(st.chargePoints)
    ensures PeerOutbox(registry[key]) == old(PeerOutbox(registry[key])) + [StatusNotification(now, "Occupied", 1, evseId)]
  {
    match registry[key] {
      case StationSide(cp) => cp.PlugInVehicle(evseId, now);
      case CsmsSide(endpoint) => endpoint.PlugInVehicle(evseId, now);
    }
  }

  /** `evse.status = occupied`, then the EV client. */
  method OccupyAndConnect(st: State, i: nat, stamp: string, peer: Peer)
    requires st.Valid() && i < |st.evses|
    modifies st`evClients, st`tasks, st.evses
    ensures PeerOutbox(peer) == old(PeerOutbox(peer))
    ensures st.EvTable() == old(st.EvTable())
    ensures st.EvseTable() == old(st.EvseTable())[i := old(st.EvseTable())[i].(status := Occupied)]
    ensures ClientStarted(st, old(st.evClients), old(st.tasks), PlugClientEv(old(st.EvTable()), st.evses[i].name), st.evses[i].id)
  {
    SetStatus(st, i, Occupied);
    ConnectEv(st, st.evses[i].id, st.evses[i].name, stamp);
    assert PeerOutbox(peer) == old(PeerOutbox(peer)) by {
      match peer
      case StationSide(cp) =>
      case CsmsSide(endpoint) =>
    }
  }

  /** The first EV bound to the EVSE by name gets an EV client, registered
      under the EV's id, and a task that connects it. */
  method ConnectEv(st: State, evseId: int, name: string, stamp: string)
    modifies st`evClients, st`tasks
    ensures ClientStarted(st, old(st.evClients), old(st.tasks), PlugClientEv(old(st.EvTable()), name), evseId)
    ensures st.EvseTable() == old(st.EvseTable()) && st.EvTable() == old(st.EvTable())
    ensures forall e :: e in st.evClients && e !in old(st.evClients) ==> fresh(st.evClients[e])
  {
    ghost var evs := st.EvTable();
    ghost var evses := st.EvseTable();
    var found := FirstBoundTo(st.EvTable(), name);
    if found.Some? {
      var ev := st.evs[found.value];
      assert PlugClientEv(evs, name) == Some(ev.id);
      var client := new EvClient(ev.id, evseId, EvClientUri(evseId), stamp);
      assert st.EvTable() == evs && st.EvseTable() == evses;
      RegisterClient(st, ev.id, client);
    }
  }

  /** `ev_clients[ev.id] = client` and the task that connects it. */
  method RegisterClient(st: State, evId: string, client: EvClient)
    modifies st`evClients, st`tasks
    ensures st.evClients == old(st.evClients)[evId := client]
    ensures st.tasks == old(st.tasks) + [EvConnectTask(evId)]
    ensures st.EvseTable() == old(st.EvseTable()) && st.EvTable() == old(st.EvTable())
  {
    st.evClients := st.evClients[evId := client];
    st.tasks := st.tasks + [EvConnectTask(evId)];
  }

  // ---------------------------------------------------------------------
  // State of charge
  // ---------------------------------------------------------------------

  /** `max(0, min(100, new_soc))`. */
  function ClampSoc(x: real): (r: real)
    ensures 0.0 <= r <= 100.0
    ensures 0.0 <= x <= 100.0 ==> r == x
    ensures x < 0.0 ==> r == 0.0
    ensures x > 100.0 ==> r == 100.0
  {
    var low := if 100.0 < x then 100.0 else x;
    if 0.0 < low then low else 0.0
  }

  /** `update_ev_soc` on the EV table. */
  function SocEffect(evs: seq<EvView>, evId: string, soc: Option<real>): (seq<EvView>, Reply)
  {
    if soc.None? then (evs, HttpError(400, "Missing current_soc"))
    else match FirstWithId(evs, evId)
      case None => (evs, HttpError(404, "EV not found"))
      case Some(j) => (evs[j := evs[j].(currentSoc := ClampSoc(soc.value))], SocUpdated(ClampSoc(soc.value)))
  }

  /** Only the first EV with that id changes, only its state of charge, and
      the new value is the payload held within 0..100; without a payload or
      without such an EV nothing changes. */
  lemma SocSpec(evs: seq<EvView>, evId: string, soc: Option<real>)
    ensures var (after, reply) := SocEffect(evs, evId, soc);
            && |after| == |evs|
            && (reply.SocUpdated? <==> soc.Some? && exists k :: 0 <= k < |evs| && evs[k].id == evId)
            && (!reply.SocUpdated? ==> after == evs)
            && (reply.SocUpdated? ==>
                  && 0.0 <= reply.currentSoc <= 100.0
                  && (0.0 <= soc.value <= 100.0 ==> reply.currentSoc == soc.value))
            && (forall j :: FirstWithId(evs, evId) == Some(j) && soc.Some? ==>
                  && after[j] == evs[j].(currentSoc := reply.currentSoc)
                  && (forall k :: 0 <= k < |evs| && k != j ==> after[k] == evs[k]))
  {
  }

  /** Sending the same value twice is the same as sending it once. */
  lemma SocIdempotent(evs: seq<EvView>, evId: string, soc: Option<real>)
    ensures var once := SocEffect(evs, evId, soc);
            SocEffect(once.0, evId, soc) == once
  {
    var once := SocEffect(evs, evId, soc);
    if soc.Some? && FirstWithId(evs, evId).Some? {
      var j := FirstWithId(evs, evId).value;
      FirstIndexAt(once.0, (e: EvView) => e.id == evId, j);
      assert once.0[j := once.0[j].(currentSoc := ClampSoc(soc.value))] == once.0;
    }
  }

  /** The `for ev in ev_list` loop of `update_ev_soc`. */
  method UpdateEvSoc(st: State, evId: string, soc: Option<real>) returns (r: Reply)
    requires st.Valid()
    modifies st.evs
    ensures (st.EvTable(), r) == SocEffect(old(st.EvTable()), evId, soc)
  {
    if soc.None? {
      return HttpError(400, "Missing current_soc");
    }
    ghost var before := st.EvTable();
    var j := 0;
    while j < |st.evs|
      invariant 0 <= j <= |st.evs|
      invariant forall k :: 0 <= k < |st.evs| ==> st.evs[k].View() == before[k]
      invariant forall k :: 0 <= k < j ==> before[k].id != evId
    {
      if st.evs[j].id == evId {
        EvAlone(st, j);
        FirstIndexAt(before, (e: EvView) => e.id == evId, j);
        st.evs[j].currentSoc := ClampSoc(soc.value);
        EvRowChanged(st, before, j);
        return SocUpdated(st.evs[j].currentSoc);
      }
      j := j + 1;
    }
    EvTableKept(st, before);
    r := HttpError(404, "EV not found");
  }

  // ---------------------------------------------------------------------
  // Reservation estimate
  // ---------------------------------------------------------------------

  /** `int(x)`: truncation toward zero. */
  function TruncateToInt(x: real): (n: int)
    ensures x >= 0.0 ==> n >= 0 && n as real <= x < n as real + 1.0
    ensures x < 0.0 ==> n <= 0 && n as real - 1.0 < x <= n as real
  {
    if x >= 0.0 then x.Floor else -((-x).Floor)
  }

  /** The JSON body of `get_estimated_time`. */
  datatype Estimate = Reservable(minutes: int) | NotReservable(reason: string)

  /** `get_estimated_time`. The EV is looked up first; indexing the EVSE
      list raises IndexError for an index outside Python's range, and the
      handler answers with its message. */
  function GetEstimatedTime(st: State, evId: string, index: int): Estimate
    reads st, st.evs, st.evses
  {
    var ev := FirstWithId(st.EvTable(), evId);
    match PyIndex(index, |st.evses|)
    case None => NotReservable("list index out of range")
    case Some(i) =>
      var evse := st.evses[i];
      if ev.None? || evse.status !in {Available, Reserved} then NotReservable("EVSE not available")
      else
        var required := st.evs[ev.value].RequiredEnergyKWh();
        if evse.maxPowerKW <= 0.0 || required == 0.0 then NotReservable("Cannot calculate charging time")
        else Reservable(TruncateToInt(required / evse.maxPowerKW * 60.0))
  }

  /** An estimate is given exactly for an existing EV with energy still to
      charge and an available or reserved EVSE of positive power; its
      minutes are the whole minutes that energy takes at that power. */
  lemma EstimateSpec(st: State, evId: string, index: int)
    ensures var r := GetEstimatedTime(st, evId, index);
            var ev := FirstWithId(st.EvTable(), evId);
            var i := PyIndex(index, |st.evses|);
            && (r.Reservable? <==>
                  && i.Some? && ev.Some?
                  && st.evses[i.value].status in {Available, Reserved}
                  && st.evses[i.value].maxPowerKW > 0.0
                  && st.evs[ev.value].RequiredEnergyKWh() != 0.0)
            && (i.None? ==> r == NotReservable("list index out of range"))
            && (i.Some? && ev.None? ==> r == NotReservable("EVSE not available"))
            && (r.Reservable? && st.evs[ev.value].RequiredEnergyKWh() > 0.0 ==>
                  var hours := st.evs[ev.value].RequiredEnergyKWh() / st.evses[i.value].maxPowerKW;
                  0 <= r.minutes && r.minutes as real <= hours * 60.0 < r.minutes as real + 1.0)
  {
    var r := GetEstimatedTime(st, evId, index);
    var ev := FirstWithId(st.EvTable(), evId);
    var i := PyIndex(index, |st.evses|);
    if r.Reservable? && st.evs[ev.value].RequiredEnergyKWh() > 0.0 {
      var power := st.evses[i.value].maxPowerKW;
      var required := st.evs[ev.value].RequiredEnergyKWh();
      assert required / power > 0.0;
      assert required / power * 60.0 >= 0.0;
    }
  }

  /** Charging further leaves less time: with the same EVSE, an EV that
      needs at least as much energy is given at least as many minutes. */
  lemma EstimateMonotonic(required1: real, required2: real, power: real)
    requires 0.0 < required1 <= required2 && power > 0.0
    ensures TruncateToInt(required1 / power * 60.0) <= TruncateToInt(required2 / power * 60.0)
  {
    assert required1 / power <= required2 / power by {
      assert required1 / power * power <= required2 / power * power;
    }
  }

  // ---------------------------------------------------------------------
  // Reservation assignment
  // ---------------------------------------------------------------------

  /** `str(HTTPException(404, …))`, which the handler's `except Exception`
      turns into the detail of a 500. */
  const NotFoundDetail: string := "404: EV or EVSE not found"

  /** `assign_reservation` on the two tables. */
  function AssignEffect(evses: seq<EvseView>, evs: seq<EvView>, evId: string, index: int): StatusUpdate
  {
    match FirstWithId(evs, evId)
    case None => StatusUpdate(evses, evs, HttpError(500, NotFoundDetail))
    case Some(j) =>
      if !(0 <= index < |evses|) then StatusUpdate(evses, evs, HttpError(500, NotFoundDetail))
      else if evses[index].status != Available then StatusUpdate(evses, evs, ErrorBody("EVSE not idle"))
      else
        var name := evses[index].name;
        StatusUpdate(evses[index := evses[index].(status := Reserved)],
                     evs[j := evs[j].(connectedEvseId := Some(ByName(name)))],
                     Assigned(name, evId))
  }

  /** An assignment succeeds exactly for an existing EV and an Available
      EVSE at a non-negative index in range; it then reserves that EVSE,
      binds the first EV with that id to it by name, and touches nothing
      else. Otherwise nothing changes. */
  lemma AssignSpec(evses: seq<EvseView>, evs: seq<EvView>, evId: string, index: int)
    ensures var u := AssignEffect(evses, evs, evId, index);
            && (u.reply.Assigned? <==>
                  (exists k :: 0 <= k < |evs| && evs[k].id == evId)
                  && 0 <= index < |evses| && evses[index].status == Available)
            && (!u.reply.Assigned? ==> u.evses == evses && u.evs == evs)
            && (u.reply.Assigned? ==>
                  && u.evses == evses[index := evses[index].(status := Reserved)]
                  && |u.evs| == |evs|
                  && (forall j :: FirstWithId(evs, evId) == Some(j) ==>
                        && u.evs[j] == evs[j].(connectedEvseId := Some(ByName(evses[index].name)))
                        && (forall k :: 0 <= k < |evs| && k != j ==> u.evs[k] == evs[k])))
  {
  }

  /** Once an EVSE has been assigned, assigning it again fails whichever EV
      asks, and changes nothing. */
  lemma AssignExclusive(evses: seq<EvseView>, evs: seq<EvView>, evId: string, otherEvId: string, index: int)
    requires AssignEffect(evses, evs, evId, index).reply.Assigned?
    ensures var first := AssignEffect(evses, evs, evId, index);
            var second := AssignEffect(first.evses, first.evs, otherEvId, index);
            && !second.reply.Assigned?
            && second.evses == first.evses && second.evs == first.evs
  {
  }

  /** An assignment followed by plugging in at the same index starts an EV
      client, with the Charge Point registered; when no EV was bound to that
      EVSE before, it is the client of the assigned EV. */
  lemma AssignThenPlug(evses: seq<EvseView>, evs: seq<EvView>, evId: string, index: int, registry: map<string, Peer>)
    requires AssignEffect(evses, evs, evId, index).reply.Assigned?
    requires 0 <= index < |evses| && StationId(evses[index].id) in registry
    ensures var u := AssignEffect(evses, evs, evId, index);
            var plan := PlanPlug(u.evses, u.evs, index, registry);
            && plan.PlugProceeds? && plan.row == index && plan.evId.Some?
            && ((forall k :: 0 <= k < |evs| ==> evs[k].connectedEvseId != Some(ByName(evses[index].name)))
                ==> plan.evId == Some(evId))
  {
    var u := AssignEffect(evses, evs, evId, index);
    var j := FirstWithId(evs, evId).value;
    var name := evses[index].name;
    assert u.evs[j].connectedEvseId == Some(ByName(name));
    if (forall k :: 0 <= k < |evs| ==> evs[k].connectedEvseId != Some(ByName(name))) {
      FirstIndexAt(u.evs, (e: EvView) => e.connectedEvseId == Some(ByName(name)), j);
    } else {
      assert FirstBoundTo(u.evs, name).Some? by {
        assert !(forall k :: 0 <= k < |u.evs| ==> u.evs[k].connectedEvseId != Some(ByName(name)));
      }
    }
  }

  /** `assign_reservation`. */
  method AssignReservation(st: State, evId: string, index: int) returns (r: Reply)
    requires st.Valid()
    modifies st.evs, st.evses
    ensures var u := AssignEffect(old(st.EvseTable()), old(st.EvTable()), evId, index);
            st.EvseTable() == u.evses && st.EvTable() == u.evs && r == u.reply
  {
    var found := FirstWithId(st.EvTable(), evId);
    if found.None? || !(0 <= index < |st.evses|) {
      return HttpError(500, NotFoundDetail);
    }
    var evse := st.evses[index];
    if evse.status != Available {
      return ErrorBody("EVSE not idle");
    }
    BindEv(st, found.value, ByName(evse.name));
    SetStatus(st, index, Reserved);
    r := Assigned(evse.name, st.evs[found.value].id);
  }

  /** `ev.connected_evse_id = link` on the EV at `j`. */
  method BindEv(st: State, j: nat, link: EvseLink)
    requires st.Valid() && j < |st.evs|
    modifies st.evs
    ensures st.EvTable() == old(st.EvTable())[j := old(st.EvTable())[j].(connectedEvseId := Some(link))]
    ensures st.EvseTable() == old(st.EvseTable())
    ensures st.Valid()
    ensures st.reservationIdCounter == old(st.reservationIdCounter) && st.chargePoints == old(st.chargePoints)
    ensures forall key :: key in st.chargePoints ==> PeerOutbox(st.chargePoints[key]) == old(PeerOutbox(st.chargePoints[key]))
  {
    EvAlone(st, j);
    ghost var before := st.EvTable();
    st.evs[j].connectedEvseId := Some(link);
    EvRowChanged(st, before, j);
  }

  // ---------------------------------------------------------------------
  // OCPP reservation
  // ---------------------------------------------------------------------

  /** What `ocpp_reserve` decides before it sends anything: the exception
      it ends with, or the EV's row and the EVSE's row. The payload's
      `ev_id` and `evse_index` may be missing. */
  datatype ReservePlan =
    | ReserveRefused(reply: Reply)
    | ReserveProceeds(evRow: nat, evseRow: nat)

  /** `next((e for e in ev_list if e.id == ev_id), None)` with an `ev_id`
      that may be None, which no EV's id equals. */
  function FirstWithOptionalId(evs: seq<EvView>, evId: Option<string>): Option<nat>
  {
    FirstIndex(evs, (e: EvView) => Some(e.id) == evId)
  }

  /** The checks `ocpp_reserve` makes before it reserves: an unknown EV
      answers 404; `evse_list[evse_index]` with no index or one out of
      range raises an exception nothing catches, which FastAPI answers
      with the same 500 either way. */
  function PlanOcppReserve(evses: seq<EvseView>, evs: seq<EvView>, evId: Option<string>, index: Option<int>): ReservePlan
  {
    match FirstWithOptionalId(evs, evId)
    case None => ReserveRefused(HttpError(404, "EV not found"))
    case Some(j) =>
      match index
      case None => ReserveRefused(HttpError(500, InternalServerError))
      case Some(n) =>
        match PyIndex(n, |evses|)
        case None => ReserveRefused(HttpError(500, InternalServerError))
        case Some(i) => ReserveProceeds(j, i)
  }

  /** The EV table after the reply: the EV is bound to the EVSE's name only
      when the Charge Point answered Accepted. */
  function OcppReserveLink(evs: seq<EvView>, j: nat, name: string, outcome: ReserveOutcome): seq<EvView>
    requires j < |evs|
  {
    if outcome == ReserveReplied(ReserveAccepted) then evs[j := evs[j].(connectedEvseId := Some(ByName(name)))]
    else evs
  }

  /** A reservation goes ahead exactly for a known EV and a Python-valid
      index; an Accepted reply from a registered Charge Point then leaves the
      EVSE Reserved and the EV bound to it, and any other answer leaves the
      EV as it was. */
  lemma OcppReserveSpec(evses: seq<EvseView>, evs: seq<EvView>, evId: Option<string>, index: Option<int>,
                        reply: ReserveNowStatus)
    requires forall a, b :: 0 <= a < b < |evses| ==> evses[a].id != evses[b].id
    ensures PlanOcppReserve(evses, evs, evId, index).ReserveProceeds? <==>
              && evId.Some? && (exists k :: 0 <= k < |evs| && evs[k].id == evId.value)
              && index.Some? && PyIndex(index.value, |evses|).Some?
    ensures match PlanOcppReserve(evses, evs, evId, index)
            case ReserveRefused(_) => true
            case ReserveProceeds(j, i) =>
              && j < |evs| && i < |evses| && Some(evs[j].id) == evId
              && var table := ReserveReplyEffect(evses, evses[i].id, reply);
                 var linked := OcppReserveLink(evs, j, evses[i].name, ReserveReplied(reply));
                 && (reply == ReserveAccepted ==>
                       table[i].status == Reserved && linked[j].connectedEvseId == Some(ByName(evses[i].name)))
                 && (reply != ReserveAccepted ==> table == evses && linked == evs)
  {
    match PlanOcppReserve(evses, evs, evId, index)
    case ReserveRefused(_) =>
    case ReserveProceeds(j, i) =>
      FindEvseAt(evses, i);
  }

  /** With distinct ids, FindEvse finds an EVSE at its own row. */
  lemma FindEvseAt(evses: seq<EvseView>, i: nat)
    requires i < |evses|
    requires forall a, b :: 0 <= a < b < |evses| ==> evses[a].id != evses[b].id
    ensures FindEvse(evses, evses[i].id) == Some(i)
  {
  }

  /** `ocpp_reserve`. `reply` is the status the Charge Point answers the
      ReserveNow request with and `now` the expiry the request carries. */
  method OcppReserve(st: State, evId: Option<string>, index: Option<int>, now: Timestamp, reply: ReserveNowStatus)
    returns (r: Reply)
    requires st.Valid()
    modifies st`reservationIdCounter, st.evses, st.evs, OcppReserveTarget(st, index)
    ensures st.Valid()
    ensures match PlanOcppReserve(old(st.EvseTable()), old(st.EvTable()), evId, index)
            case ReserveRefused(refusal) =>
              && r == refusal && st.EvseTable() == old(st.EvseTable()) && st.EvTable() == old(st.EvTable())
              && st.reservationIdCounter == old(st.reservationIdCounter)
              && unchanged(old(OcppReserveTarget(st, index)))
            case ReserveProceeds(j, i) =>
              var evseId := old(st.EvseTable())[i].id;
              var outcome := if StationId(evseId) in st.chargePoints then ReserveReplied(reply)
                             else ReserveFailed("Charge Point not connected");
              && r == ReserveResult(outcome)
              && st.EvseTable() == (if outcome.ReserveReplied? then ReserveReplyEffect(old(st.EvseTable()), evseId, reply)
                                    else old(st.EvseTable()))
              && st.EvTable() == OcppReserveLink(old(st.EvTable()), j, old(st.EvseTable())[i].name, outcome)
              && (outcome.ReserveFailed? ==> st.reservationIdCounter == old(st.reservationIdCounter))
              && (outcome.ReserveReplied? ==>
                    var peer := st.chargePoints[StationId(evseId)];
                    && st.reservationIdCounter == old(st.reservationIdCounter) + 1
                    && PeerOutbox(peer) == old(PeerOutbox(peer))
                         + [ReserveNow(old(st.reservationIdCounter), now, evId.value, "Central", evseId)])
  {
    var found := FirstWithOptionalId(st.EvTable(), evId);
    if found.None? {
      return HttpError(404, "EV not found");
    }
    if index.None? {
      return HttpError(500, InternalServerError);
    }
    var row := PyIndex(index.value, |st.evses|);
    if row.None? {
      return HttpError(500, InternalServerError);
    }
    var outcome := ReserveAndBind(st, st.chargePoints, found.value, row.value, now, reply);
    r := ReserveResult(outcome);
  }

  /** `reserve_evse_by_id` for the EVSE at row `i`, then the EV at row `j`
      bound to it when the answer was Accepted. */
  method ReserveAndBind(st: State, registry: map<string, Peer>, j: nat, i: nat, now: Timestamp, reply: ReserveNowStatus)
    returns (outcome: ReserveOutcome)
    requires st.Valid() && j < |st.evs| && i < |st.evses| && registry == st.chargePoints
    modifies st`reservationIdCounter, st.evses, st.evs
    modifies if StationId(st.evses[i].id) in registry then {PeerObject(registry[StationId(st.evses[i].id)])} else {}
    ensures st.Valid()
    ensures var evseId := old(st.EvseTable())[i].id;
            var expected := if StationId(evseId) in st.chargePoints then ReserveReplied(reply)
                            else ReserveFailed("Charge Point not connected");
            && outcome == expected
            && st.EvseTable() == (if expected.ReserveReplied? then ReserveReplyEffect(old(st.EvseTable()), evseId, reply)
                                  else old(st.EvseTable()))
            && st.EvTable() == OcppReserveLink(old(st.EvTable()), j, old(st.EvseTable())[i].name, expected)
    ensures st.chargePoints == old(st.chargePoints)
    ensures var evseId := old(st.EvseTable())[i].id;
            && (StationId(evseId) !in st.chargePoints ==> st.reservationIdCounter == old(st.reservationIdCounter))
            && (StationId(evseId) in st.chargePoints ==>
                  var peer := st.chargePoints[StationId(evseId)];
                  && st.reservationIdCounter == old(st.reservationIdCounter) + 1
                  && PeerOutbox(peer) == old(PeerOutbox(peer))
                       + [ReserveNow(old(st.reservationIdCounter), now, old(st.EvTable())[j].id, "Central", evseId)])
  {
    var evse := st.evses[i];
    ghost var table := st.EvseTable();
    ghost var evs := st.EvTable();
    assert table[i].id == evse.id && table[i].name == evse.name;
    outcome := ReserveEvseById(st, evse.id, st.evs[j].id, now, reply);
    ghost var reserved := st.EvseTable();
    if outcome == ReserveReplied(ReserveAccepted) {
      BindEv(st, j, ByName(evse.name));
    }
    assert st.EvseTable() == reserved;
  }

  /** The registry entry a reservation for `index` reaches. */
  function OcppReserveTarget(st: State, index: Option<int>): set<object>
    reads st
  {
    if index.None? then {}
    else match PyIndex(index.value, |st.evses|)
      case None => {}
      case Some(i) =>
        var key := StationId(st.evses[i].id);
        if key in st.chargePoints then {PeerObject(st.chargePoints[key])} else {}
  }
}

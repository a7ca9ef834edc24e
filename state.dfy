/** The process-wide globals every component shares
    (VOLTRIX-CSMS-git/app/backend/state.py): the EVSE and EV lists, the id
    counters and the registries of Charge Point connections and EV clients. */
module SharedState {
  import opened Common
  import opened Ocpp
  import opened EvseModel
  import opened EvModel
  import opened ChargePointModel
  import opened CsmsEndpointModel
  import opened EvClientModel

  /** What `connected_charge_points` holds under a Charge Point id. The
      station (`run_charge_point`) stores its own ChargePoint there, and the
      Central System's `on_connect` stores its end of the same connection
      under the same key; both run in one process, so the later write wins. */
  datatype Peer = StationSide(cp: ChargePoint) | CsmsSide(endpoint: CsmsEndpoint)

  /** The object behind a registry entry. */
  function PeerObject(p: Peer): (o: object)
    ensures o is ChargePoint || o is CsmsEndpoint
  {
    match p
    case StationSide(cp) => cp
    case CsmsSide(endpoint) => endpoint
  }

  /** The requests sent through a registry entry so far. */
  function PeerOutbox(p: Peer): seq<OcppCall>
    reads PeerObject(p)
  {
    match p
    case StationSide(cp) => cp.outbox
    case CsmsSide(endpoint) => endpoint.outbox
  }

  /** Work a handler hands to `asyncio.create_task`, in the order scheduled. */
  datatype Task =
    | RunChargePointTask(cpId: string, initialStatus: string)
    | IsoServerTask(port: int)
    | EvConnectTask(evId: string)

  /** Every EVSE has a positive power and an id below `counter`, and no two
      EVSEs share an id. */
  ghost predicate EvseIdsBelow(evses: seq<Evse>, counter: int) {
    && (forall i :: 0 <= i < |evses| ==> evses[i].id < counter)
    && (forall i, j :: 0 <= i < j < |evses| ==> evses[i].id != evses[j].id)
    && (forall i :: 0 <= i < |evses| ==> evses[i].maxPowerKW > 0.0)
  }

  ghost predicate DistinctEvs(evs: seq<Ev>) {
    forall i, j :: 0 <= i < j < |evs| ==> evs[i] != evs[j]
  }

  /** An EVSE numbered by the counter keeps the list valid once the counter
      moves on. */
  lemma EvseIdsBelowAppend(evses: seq<Evse>, counter: int, evse: Evse)
    requires EvseIdsBelow(evses, counter) && evse.id == counter && evse.maxPowerKW > 0.0
    ensures EvseIdsBelow(evses + [evse], counter + 1)
  {
    var es := evses + [evse];
    assert forall i :: 0 <= i < |evses| ==> es[i] == evses[i];
  }

  class State {
    var evses: seq<Evse>
    var evs: seq<Ev>
    var evseIdCounter: int
    var reservationIdCounter: int
    var chargePoints: map<string, Peer>
    var evClients: map<string, EvClient>
    var tasks: seq<Task>

    /** EVSE ids are distinct and below the counter that hands out the next
        one; the EV list holds distinct objects. */
    ghost predicate Valid()
      reads this
    {
      EvseIdsBelow(evses, evseIdCounter) && DistinctEvs(evs)
    }

    /** The module's initial values: empty lists, counters at 1 and 1000. */
    constructor ()
      ensures Valid()
      ensures evses == [] && evs == [] && evseIdCounter == 1 && reservationIdCounter == 1000
      ensures chargePoints == map[] && evClients == map[] && tasks == []
    {
      evses := [];
      evs := [];
      evseIdCounter := 1;
      reservationIdCounter := 1000;
      chargePoints := map[];
      evClients := map[];
      tasks := [];
    }

    function EvseTable(): seq<EvseView>
      reads this`evses, evses
    {
      EvseModel.Views(evses)
    }

    /** `evse_list.append(evse)` followed by `evse_id_counter += 1`, for an
        EVSE that takes the counter's value as its id. */
    method AppendEvse(evse: Evse)
      requires Valid() && evse.id == evseIdCounter && evse.maxPowerKW > 0.0
      modifies this
      ensures Valid()
      ensures evses == old(evses) + [evse] && evseIdCounter == old(evseIdCounter) + 1
      ensures EvseTable() == old(EvseTable()) + [evse.View()]
      ensures evs == old(evs) && chargePoints == old(chargePoints) && evClients == old(evClients)
      ensures reservationIdCounter == old(reservationIdCounter) && tasks == old(tasks)
    {
      ghost var before := EvseTable();
      EvseIdsBelowAppend(evses, evseIdCounter, evse);
      evses := evses + [evse];
      evseIdCounter := evseIdCounter + 1;
      EvseTableAppend(this, before);
    }

    function EvTable(): seq<EvView>
      reads this`evs, evs
    {
      EvModel.Views(evs)
    }
  }

  /** Distinct ids make distinct objects. */
  lemma DistinctEvses(st: State, i: int, j: int)
    requires st.Valid() && 0 <= i < |st.evses| && 0 <= j < |st.evses| && i != j
    ensures st.evses[i] != st.evses[j]
  {
    if i < j {
      assert st.evses[i].id != st.evses[j].id;
    } else {
      assert st.evses[j].id != st.evses[i].id;
    }
  }

  /** The EVSE at `i` is no other entry of the list. */
  lemma EvseAlone(st: State, i: int)
    requires st.Valid() && 0 <= i < |st.evses|
    ensures forall k :: 0 <= k < |st.evses| && k != i ==> st.evses[k] != st.evses[i]
  {
    forall k | 0 <= k < |st.evses| && k != i
      ensures st.evses[k] != st.evses[i]
    {
      DistinctEvses(st, k, i);
    }
  }

  /** The EV at `j` is no other entry of the list. */
  lemma EvAlone(st: State, j: int)
    requires st.Valid() && 0 <= j < |st.evs|
    ensures forall k :: 0 <= k < |st.evs| && k != j ==> st.evs[k] != st.evs[j]
  {
  }

  /** When every other row keeps its view, the table changes in one row. */
  lemma EvseRowChanged(st: State, before: seq<EvseView>, i: int)
    requires 0 <= i < |st.evses| == |before|
    requires forall k :: 0 <= k < |st.evses| && k != i ==> st.evses[k].View() == before[k]
    ensures st.EvseTable() == before[i := st.evses[i].View()]
  {
    assert forall k :: 0 <= k < |before| ==> st.EvseTable()[k] == before[i := st.evses[i].View()][k];
  }

  /** When every row keeps its view, so does the table. */
  lemma EvseTableKept(st: State, before: seq<EvseView>)
    requires |st.evses| == |before|
    requires forall k :: 0 <= k < |st.evses| ==> st.evses[k].View() == before[k]
    ensures st.EvseTable() == before
  {
  }

  lemma EvTableKept(st: State, before: seq<EvView>)
    requires |st.evs| == |before|
    requires forall k :: 0 <= k < |st.evs| ==> st.evs[k].View() == before[k]
    ensures st.EvTable() == before
  {
  }

  lemma EvRowChanged(st: State, before: seq<EvView>, j: int)
    requires 0 <= j < |st.evs| == |before|
    requires forall k :: 0 <= k < |st.evs| && k != j ==> st.evs[k].View() == before[k]
    ensures st.EvTable() == before[j := st.evs[j].View()]
  {
    assert forall k :: 0 <= k < |before| ==> st.EvTable()[k] == before[j := st.evs[j].View()][k];
  }

  /** Appending an EVSE appends its view. */
  lemma EvseTableAppend(st: State, before: seq<EvseView>)
    requires |st.evses| == |before| + 1
    requires forall k :: 0 <= k < |before| ==> st.evses[k].View() == before[k]
    ensures st.EvseTable() == before + [st.evses[|before|].View()]
  {
    assert forall k :: 0 <= k < |st.evses| ==> st.EvseTable()[k] == (before + [st.evses[|before|].View()])[k];
  }
}

/** The REST handlers of the backend (VOLTRIX-CSMS-git/app/backend/main.py).
    They work on the shared EVSE and EV lists in place, start the Charge
    Point and ISO 15118 tasks of a new EVSE, notify the Charge Point of
    status changes and bind EVs to EVSEs by the EVSE's *name*. HTTP plumbing
    is reduced to the reply each handler produces. */
module MainApi {
  import opened Common
  import opened Identifiers
  import opened Ocpp
  import opened EvseModel
  import opened EvModel
  import opened ChargePointModel
  import opened CsmsEndpointModel
  import opened EvClientModel
  import opened SharedState
  import opened CentralSystem

  /** What a handler answers: a JSON body, or an HTTPException with its
      status code and detail. */
  datatype Reply =
    | Added(evse: EvseView)
    | StatusUpdated
    | ErrorBody(error: string)
    | HttpError(code: int, detail: string)
    | Plugged
    | SocUpdated(currentSoc: real)
    | Assigned(evseName: string, evId: string)
    | ReserveResult(outcome: ReserveOutcome)

  // ---------------------------------------------------------------------
  // Adding an EVSE
  // ---------------------------------------------------------------------

  /** `model_power_map`: rated power in kW by charger model. */
  const ModelPowerMap: map<string, real> := map[
    "ABB Terra AC" := 22.0,
    "ABB Terra DC Wallbox" := 24.0,
    "ABB Terra 54" := 50.0,
    "Siemens VersiCharge" := 11.0,
    "Siemens Sicharge D" := 300.0,
    "EVBox Elvi" := 22.0,
    "EVBox Troniq Modular" := 175.0,
    "Wallbox Pulsar Plus" := 7.4,
    "Wallbox Copper SB" := 22.0,
    "Delta DC Wallbox" := 25.0,
    "Delta AC Mini Plus" := 22.0,
    "Tesla Supercharger V2" := 150.0,
    "Tesla Supercharger V3" := 250.0,
    "Schneider EVlink Wallbox" := 22.0,
    "Schneider EVlink Parking" := 22.0,
    "Efacec QC45" := 50.0,
    "Efacec HV350" := 350.0,
    "Keba KeContact P30" := 22.0
  ]

  /** `model_power_map.get(model, 22.0)`. Every value is positive, so the
      EVSE built from it always passes the `max_power_kW > 0` check. */
  function PowerFor(model: string): (kw: real)
    ensures 7.4 <= kw <= 350.0
  {
    if model in ModelPowerMap then ModelPowerMap[model] else 22.0
  }

  /** The request body of `POST /evses`; a missing key is None. */
  datatype EvseForm = EvseForm(
    name: Option<string>, brand: Option<string>, model: Option<string>, vendor: Option<string>,
    latitude: Option<real>, longitude: Option<real>, status: Option<string>)

  /** The body read in the order the handler reads it, or the text of the
      KeyError or ValueError it raises first. */
  datatype FormCheck =
    | FormOk(name: string, brand: string, model: string, vendor: string,
             latitude: real, longitude: real, statusText: string, status: ConnectorStatus)
    | FormRejected(detail: string)

  function CheckForm(form: EvseForm): (r: FormCheck)
  {
    if form.model.None? then FormRejected("'model'")
    else if form.name.None? then FormRejected("'name'")
    else if form.brand.None? then FormRejected("'brand'")
    else if form.vendor.None? then FormRejected("'vendor'")
    else if form.latitude.None? then FormRejected("'latitude'")
    else if form.longitude.None? then FormRejected("'longitude'")
    else if form.status.None? then FormRejected("'status'")
    else match ParseStatus(form.status.value)
      case None => FormRejected("'" + form.status.value + "' is not a valid ConnectorStatusEnumType")
      case Some(s) =>
        FormOk(form.name.value, form.brand.value, form.model.value, form.vendor.value,
               form.latitude.value, form.longitude.value, form.status.value, s)
  }

  /** A body is accepted exactly when every key is present and the status
      is one of the enum's values; the accepted fields are the body's own. */
  lemma CheckFormSpec(form: EvseForm)
    ensures CheckForm(form).FormOk? <==>
              && form.name.Some? && form.brand.Some? && form.model.Some? && form.vendor.Some?
              && form.latitude.Some? && form.longitude.Some? && form.status.Some?
              && ParseStatus(form.status.value).Some?
    ensures CheckForm(form).FormOk? ==>
              var ok := CheckForm(form);
              && ok.name == form.name.value && ok.model == form.model.value
              && ok.statusText == form.status.value
              && StatusValue(ok.status) == ok.statusText
  {
  }

  /** The row a new EVSE adds to the table. */
  function NewEvseView(id: int, ok: FormCheck): EvseView
    requires ok.FormOk?
  {
    EvseView(id, ok.name, PowerFor(ok.model), ok.status, None, None, None)
  }

  /** `add_evse`: on a well-formed body the EVSE takes the counter value as
      its id, the counter moves on by one, and the Charge Point
      (`"CP_" + id`) and ISO 15118 server (port `9001 + id`) tasks are
      scheduled. A bad body changes nothing and is answered 400. */
  method AddEvse(st: State, form: EvseForm) returns (r: Reply)
    requires st.Valid()
    modifies st
    ensures st.Valid()
    ensures st.evs == old(st.evs) && st.chargePoints == old(st.chargePoints)
    ensures st.evClients == old(st.evClients) && st.reservationIdCounter == old(st.reservationIdCounter)
    ensures CheckForm(form).FormRejected? ==>
              && r == HttpError(400, CheckForm(form).detail)
              && st.evses == old(st.evses) && st.evseIdCounter == old(st.evseIdCounter)
              && st.tasks == old(st.tasks)
    ensures CheckForm(form).FormOk? ==>
              var id := old(st.evseIdCounter);
              && r == Added(NewEvseView(id, CheckForm(form)))
              && st.EvseTable() == old(st.EvseTable()) + [NewEvseView(id, CheckForm(form))]
              && st.evseIdCounter == id + 1
              && st.tasks == old(st.tasks) + [RunChargePointTask(StationId(id), form.status.value), IsoServerTask(IsoPort(id))]
  {
    var ok := CheckForm(form);
    if ok.FormRejected? {
      return HttpError(400, ok.detail);
    }
    CheckFormSpec(form);
    var id := st.evseIdCounter;
    var view := AppendEvse(st, ok);
    st.tasks := st.tasks + [RunChargePointTask(StationId(id), ok.statusText), IsoServerTask(IsoPort(id))];
    r := Added(view);
  }

  /** Builds the EVSE from an accepted body and appends it. */
  method AppendEvse(st: State, ok: FormCheck) returns (view: EvseView)
    requires st.Valid() && ok.FormOk?
    modifies st
    ensures st.Valid()
    ensures st.evs == old(st.evs) && st.chargePoints == old(st.chargePoints)
    ensures st.evClients == old(st.evClients) && st.reservationIdCounter == old(st.reservationIdCounter)
    ensures view == NewEvseView(old(st.evseIdCounter), ok)
    ensures st.EvseTable() == old(st.EvseTable()) + [view]
    ensures st.evseIdCounter == old(st.evseIdCounter) + 1
    ensures st.tasks == old(st.tasks)
  {
    var id := st.evseIdCounter;
    var evse := new Evse(id, ok.name, ok.brand, ok.model, ok.vendor, ok.latitude, ok.longitude,
                         PowerFor(ok.model), ok.status);
    st.AppendEvse(evse);
    view := evse.View();
  }

  /** The new EVSE's Charge Point id and ISO port are used by no EVSE
      already in the list. */
  lemma AddedIdentifiersFresh(st: State)
    requires st.Valid()
    ensures forall i :: 0 <= i < |st.evses| ==>
              StationId(st.evses[i].id) != StationId(st.evseIdCounter)
              && IsoPort(st.evses[i].id) != IsoPort(st.evseIdCounter)
  {
    forall i | 0 <= i < |st.evses|
      ensures StationId(st.evses[i].id) != StationId(st.evseIdCounter)
    {
      StationIdInjective(st.evses[i].id, st.evseIdCounter);
    }
  }

  // ---------------------------------------------------------------------
  // Summary
  // ---------------------------------------------------------------------

  /** The statuses the summary counts as connected. */
  predicate IsConnectedStatus(s: ConnectorStatus) {
    s == Available || s == Reserved || s == Occupied
  }

  function CountConnected(table: seq<EvseView>): nat
  {
    if table == [] then 0
    else CountConnected(table[..|table| - 1]) + (if IsConnectedStatus(table[|table| - 1].status) then 1 else 0)
  }

  datatype Summary = Summary(total: nat, connected: nat)

  /** `get_evse_summary`. */
  function EvseSummary(table: seq<EvseView>): Summary
  {
    Summary(|table|, CountConnected(table))
  }

  /** The positions of the EVSEs the summary counts. */
  ghost function ConnectedPositions(table: seq<EvseView>): set<int>
  {
    set i | 0 <= i < |table| && IsConnectedStatus(table[i].status)
  }

  /** `connected` is the number of EVSEs that are available, reserved or
      occupied, so it never exceeds `total`. */
  lemma {:induction false} SummarySpec(table: seq<EvseView>)
    ensures EvseSummary(table).total == |table|
    ensures EvseSummary(table).connected == |ConnectedPositions(table)|
    ensures EvseSummary(table).connected <= EvseSummary(table).total
    decreases |table|
  {
    if table != [] {
      var n := |table| - 1;
      var init := table[..n];
      SummarySpec(init);
      assert ConnectedPositions(table) ==
             ConnectedPositions(init) + (if IsConnectedStatus(table[n].status) then {n} else {}) by {
        assert forall i :: 0 <= i < n ==> table[i] == init[i];
      }
      assert n !in ConnectedPositions(init);
    }
  }

  // ---------------------------------------------------------------------
  // Binding EVs to an EVSE by name
  // ---------------------------------------------------------------------

  /** The first EV with no EVSE. */
  function FirstFree(evs: seq<EvView>): Option<nat>
  {
    FirstIndex(evs, (e: EvView) => e.connectedEvseId.None?)
  }

  /** The first EV bound to the EVSE called `name`. An EV bound by integer
      id never matches: `ev.connected_evse_id == evse.name` compares an int
      with a str. */
  function FirstBoundTo(evs: seq<EvView>, name: string): Option<nat>
  {
    FirstIndex(evs, (e: EvView) => e.connectedEvseId == Some(ByName(name)))
  }

  /** The reserved branch of `update_evse_status`. */
  function BindFirstFree(evs: seq<EvView>, name: string): seq<EvView>
  {
    match FirstFree(evs)
    case None => evs
    case Some(j) => evs[j := evs[j].(connectedEvseId := Some(ByName(name)))]
  }

  /** The unavailable branch of `update_evse_status`. */
  function UnbindFirst(evs: seq<EvView>, name: string): seq<EvView>
  {
    match FirstBoundTo(evs, name)
    case None => evs
    case Some(j) => evs[j := evs[j].(connectedEvseId := None)]
  }

  /** Binding touches only the first free EV, and only its link. */
  lemma BindFirstFreeSpec(evs: seq<EvView>, name: string)
    ensures |BindFirstFree(evs, name)| == |evs|
    ensures (forall k :: 0 <= k < |evs| ==> evs[k].connectedEvseId.Some?) ==> BindFirstFree(evs, name) == evs
    ensures forall j :: FirstFree(evs) == Some(j) ==>
              && BindFirstFree(evs, name)[j] == evs[j].(connectedEvseId := Some(ByName(name)))
              && (forall k :: 0 <= k < j ==> evs[k].connectedEvseId.Some?)
              && (forall k :: 0 <= k < |evs| && k != j ==> BindFirstFree(evs, name)[k] == evs[k])
  {
  }

  /** Unbinding touches only the first EV bound to the name. */
  lemma UnbindFirstSpec(evs: seq<EvView>, name: string)
    ensures |UnbindFirst(evs, name)| == |evs|
    ensures (forall k :: 0 <= k < |evs| ==> evs[k].connectedEvseId != Some(ByName(name))) ==> UnbindFirst(evs, name) == evs
    ensures forall j :: FirstBoundTo(evs, name) == Some(j) ==>
              && UnbindFirst(evs, name)[j] == evs[j].(connectedEvseId := None)
              && (forall k :: 0 <= k < |evs| && k != j ==> UnbindFirst(evs, name)[k] == evs[k])
  {
  }

  /** Setting an EVSE reserved and then unavailable gives the EV list back,
      provided no EV was bound to that name before. */
  lemma UnbindUndoesBind(evs: seq<EvView>, name: string)
    requires forall k :: 0 <= k < |evs| ==> evs[k].connectedEvseId != Some(ByName(name))
    ensures UnbindFirst(BindFirstFree(evs, name), name) == evs
  {
    match FirstFree(evs)
    case None =>
    case Some(j) =>
      var mid := BindFirstFree(evs, name);
      assert mid[j].connectedEvseId == Some(ByName(name));
      assert forall k :: 0 <= k < |mid| && k != j ==> mid[k] == evs[k];
      assert FirstBoundTo(mid, name) == Some(j) by {
        FirstIndexAt(mid, (e: EvView) => e.connectedEvseId == Some(ByName(name)), j);
      }
      assert UnbindFirst(mid, name) == evs by {
        assert UnbindFirst(mid, name) == mid[j := evs[j]];
      }
  }

  /** An index at which `p` first holds is the one FirstIndex finds. */
  lemma FirstIndexAt<T>(s: seq<T>, p: T -> bool, j: nat)
    requires j < |s| && p(s[j])
    requires forall k :: 0 <= k < j ==> !p(s[k])
    ensures FirstIndex(s, p) == Some(j)
  {
  }

  /** The `for ev in ev_list` loop that binds the first free EV. */
  method BindFirstFreeEv(st: State, name: string)
    requires st.Valid()
    modifies st.evs
    ensures st.EvTable() == BindFirstFree(old(st.EvTable()), name)
  {
    ghost var before := st.EvTable();
    var j := 0;
    while j < |st.evs|
      invariant 0 <= j <= |st.evs|
      invariant forall k :: 0 <= k < |st.evs| ==> st.evs[k].View() == before[k]
      invariant forall k :: 0 <= k < j ==> before[k].connectedEvseId.Some?
    {
      if st.evs[j].connectedEvseId.None? {
        EvAlone(st, j);
        FirstIndexAt(before, (e: EvView) => e.connectedEvseId.None?, j);
        st.evs[j].connectedEvseId := Some(ByName(name));
        EvRowChanged(st, before, j);
        return;
      }
      j := j + 1;
    }
    EvTableKept(st, before);
  }

  /** The `for ev in ev_list` loop that unbinds the first EV bound to `name`. */
  method UnbindFirstEv(st: State, name: string)
    requires st.Valid()
    modifies st.evs
    ensures st.EvTable() == UnbindFirst(old(st.EvTable()), name)
  {
    ghost var before := st.EvTable();
    var j := 0;
    while j < |st.evs|
      invariant 0 <= j <= |st.evs|
      invariant forall k :: 0 <= k < |st.evs| ==> st.evs[k].View() == before[k]
      invariant forall k :: 0 <= k < j ==> before[k].connectedEvseId != Some(ByName(name))
    {
      if st.evs[j].connectedEvseId == Some(ByName(name)) {
        EvAlone(st, j);
        FirstIndexAt(before, (e: EvView) => e.connectedEvseId == Some(ByName(name)), j);
        st.evs[j].connectedEvseId := None;
        EvRowChanged(st, before, j);
        return;
      }
      j := j + 1;
    }
    EvTableKept(st, before);
  }

  // ---------------------------------------------------------------------
  // Status update
  // ---------------------------------------------------------------------

  /** What the registry holds under an EVSE's Charge Point id. */
  datatype PeerKind = NoPeer | StationPeer | CentralPeer

  function PeerKindOf(chargePoints: map<string, Peer>, key: string): PeerKind
  {
    if key !in chargePoints then NoPeer
    else if chargePoints[key].StationSide? then StationPeer
    else CentralPeer
  }

  /** The status `update_evse_status` sets: the body's `status`, defaulting
      to the current one; None for an index out of range or a string that
      is not a status value. */
  function ParsedStatus(evses: seq<EvseView>, index: int, statusArg: Option<string>): Option<ConnectorStatus>
  {
    if !(0 <= index < |evses|) then None
    else ParseStatus(if statusArg.Some? then statusArg.value else StatusValue(evses[index].status))
  }

  /** The EV binding that follows a status change on the EVSE `name`. */
  function StatusLinkEffect(evs: seq<EvView>, s: ConnectorStatus, name: string): seq<EvView>
  {
    if s == Reserved then BindFirstFree(evs, name)
    else if s == Unavailable then UnbindFirst(evs, name)
    else evs
  }

  /** The body FastAPI sends with status 500 when a handler raises an
      exception it does not catch, whatever the exception says. */
  const InternalServerError: string := "Internal Server Error"

  datatype StatusUpdate = StatusUpdate(evses: seq<EvseView>, evs: seq<EvView>, reply: Reply)

  /** `update_evse_status` on the two tables. The status is written before
      the Charge Point is notified; a Central System end in the registry
      has no `send_status_notification`, and the AttributeError it raises
      is not the ValueError the handler catches, so the request fails with
      500 after the status change and before any EV is bound or unbound. */
  function UpdateStatusEffect(evses: seq<EvseView>, evs: seq<EvView>, index: int,
                              statusArg: Option<string>, peer: PeerKind): StatusUpdate
  {
    if !(0 <= index < |evses|) then StatusUpdate(evses, evs, ErrorBody("Invalid EVSE index"))
    else match ParsedStatus(evses, index, statusArg)
      case None => StatusUpdate(evses, evs, ErrorBody("Invalid status value"))
      case Some(s) =>
        var table := evses[index := evses[index].(status := s)];
        if peer == CentralPeer then
          StatusUpdate(table, evs, HttpError(500, InternalServerError))
        else StatusUpdate(table, StatusLinkEffect(evs, s, evses[index].name), StatusUpdated)
  }

  /** An index out of range or an invalid status string changes no EVSE
      and no EV. Otherwise only the addressed EVSE's status changes, and
      the EV list changes only through the bind or unbind its new status
      calls for. Without a `status` key the EVSE table stays as it was. */
  lemma UpdateStatusSpec(evses: seq<EvseView>, evs: seq<EvView>, index: int, statusArg: Option<string>, peer: PeerKind)
    ensures var u := UpdateStatusEffect(evses, evs, index, statusArg, peer);
            && (ParsedStatus(evses, index, statusArg).None? ==> u.evses == evses && u.evs == evs && u.reply.ErrorBody?)
            && (!(0 <= index < |evses|) ==> u.reply == ErrorBody("Invalid EVSE index"))
            && (ParsedStatus(evses, index, statusArg).Some? ==>
                  var s := ParsedStatus(evses, index, statusArg).value;
                  && |u.evses| == |evses|
                  && u.evses[index] == evses[index].(status := s)
                  && (forall k :: 0 <= k < |evses| && k != index ==> u.evses[k] == evses[k])
                  && (peer == CentralPeer ==> u.evs == evs && u.reply.HttpError? && u.reply.code == 500)
                  && (peer != CentralPeer ==> u.reply == StatusUpdated)
                  && (peer != CentralPeer && s == Reserved ==> u.evs == BindFirstFree(evs, evses[index].name))
                  && (peer != CentralPeer && s == Unavailable ==> u.evs == UnbindFirst(evs, evses[index].name))
                  && (s != Reserved && s != Unavailable ==> u.evs == evs))
            && (statusArg.None? && 0 <= index < |evses| ==> u.evses == evses)
  {
    if statusArg.None? && 0 <= index < |evses| {
      StatusValueRoundTrip(evses[index].status);
    }
  }

  /** Marking an EVSE reserved and then unavailable leaves the EV list as it
      was, when no EV was bound to its name before. */
  lemma ReserveThenUnavailable(evses: seq<EvseView>, evs: seq<EvView>, index: int, peer: PeerKind)
    requires 0 <= index < |evses| && peer != CentralPeer
    requires forall k :: 0 <= k < |evs| ==> evs[k].connectedEvseId != Some(ByName(evses[index].name))
    ensures var first := UpdateStatusEffect(evses, evs, index, Some("Reserved"), peer);
            var second := UpdateStatusEffect(first.evses, first.evs, index, Some("Unavailable"), peer);
            second.evs == evs && second.evses[index].status == Unavailable
  {
    UnbindUndoesBind(evs, evses[index].name);
  }

  /** The station Charge Point registered under `key`, if any: the object a
      status notification reaches. */
  function StationTarget(chargePoints: map<string, Peer>, key: string): set<object>
  {
    if PeerKindOf(chargePoints, key) == StationPeer then {chargePoints[key].cp} else {}
  }

  /** The key `update_evse_status` looks up for the EVSE at `index`. */
  function IndexKey(st: State, index: int): string
    reads st
  {
    if 0 <= index < |st.evses| then StationId(st.evses[index].id) else ""
  }

  /** `evse_list[index].status = status`. */
  method SetStatus(st: State, index: int, s: ConnectorStatus)
    requires st.Valid() && 0 <= index < |st.evses|
    modifies st.evses
    ensures st.EvseTable() == old(st.EvseTable())[index := old(st.EvseTable())[index].(status := s)]
    ensures st.EvTable() == old(st.EvTable())
  {
    EvseAlone(st, index);
    ghost var before := st.EvseTable();
    st.evses[index].status := s;
    EvseRowChanged(st, before, index);
  }

  /** `update_evse_status`: `now` is the Charge Point's clock reading in the
      StatusNotification it sends. */
  method UpdateEvseStatus(st: State, index: int, statusArg: Option<string>, now: Timestamp) returns (r: Reply)
    requires st.Valid()
    modifies st.evses, st.evs, StationTarget(st.chargePoints, IndexKey(st, index))
    ensures var u := UpdateStatusEffect(old(st.EvseTable()), old(st.EvTable()), index, statusArg,
                                        if 0 <= index < |st.evses| then PeerKindOf(st.chargePoints, IndexKey(st, index)) else NoPeer);
            st.EvseTable() == u.evses && st.EvTable() == u.evs && r == u.reply
    ensures 0 <= index < |st.evses| && ParsedStatus(old(st.EvseTable()), index, statusArg).Some?
            && PeerKindOf(st.chargePoints, IndexKey(st, index)) == StationPeer ==>
              var cp := st.chargePoints[IndexKey(st, index)].cp;
              && cp.outbox == old(cp.outbox) + [StatusNotification(now, StatusValue(ParsedStatus(old(st.EvseTable()), index, statusArg).value), 1, st.evses[index].id)]
              && cp.transactionActive == old(cp.transactionActive) && cp.meterTask == old(cp.meterTask)
              && cp.currentTransactionId == old(cp.currentTransactionId)
  {
    if !(0 <= index < |st.evses|) {
      return ErrorBody("Invalid EVSE index");
    }
    var evse := st.evses[index];
    var text := if statusArg.Some? then statusArg.value else StatusValue(evse.status);
    var parsed := ParseStatus(text);
    if parsed.None? {
      return ErrorBody("Invalid status value");
    }
    var s := parsed.value;
    ghost var evses := st.EvseTable();
    ghost var evs := st.EvTable();
    ghost var peer := PeerKindOf(st.chargePoints, StationId(evse.id));
    r := ApplyStatus(st, index, s, st.chargePoints, StationId(evse.id), evse.id, evse.name, now);
    UpdateStatusOnParsed(evses, evs, index, statusArg, peer, s);
  }

  /** The part of `update_evse_status` after the status has parsed. */
  method ApplyStatus(st: State, index: int, s: ConnectorStatus, registry: map<string, Peer>, key: string,
                     evseId: int, name: string, now: Timestamp)
    returns (r: Reply)
    requires st.Valid() && 0 <= index < |st.evses| && registry == st.chargePoints
    modifies st.evses, st.evs, StationTarget(registry, key)
    ensures st.chargePoints == old(st.chargePoints) && st.evses == old(st.evses)
    ensures st.EvseTable() == old(st.EvseTable())[index := old(st.EvseTable())[index].(status := s)]
    ensures PeerKindOf(registry, key) == CentralPeer ==>
              st.EvTable() == old(st.EvTable()) && r == HttpError(500, InternalServerError)
    ensures PeerKindOf(registry, key) != CentralPeer ==>
              st.EvTable() == StatusLinkEffect(old(st.EvTable()), s, name) && r == StatusUpdated
    ensures PeerKindOf(registry, key) == StationPeer ==>
              var cp := registry[key].cp;
              && cp.outbox == old(cp.outbox) + [StatusNotification(now, StatusValue(s), 1, evseId)]
              && cp.transactionActive == old(cp.transactionActive) && cp.meterTask == old(cp.meterTask)
              && cp.currentTransactionId == old(cp.currentTransactionId)
  {
    SetStatus(st, index, s);
    r := NotifyAndLink(st, registry, key, evseId, name, s, now);
  }

  /** The part of `update_evse_status` after the status is written: notify
      the registered peer, then bind or unbind EVs. */
  method NotifyAndLink(st: State, registry: map<string, Peer>, key: string, evseId: int, name: string,
                       s: ConnectorStatus, now: Timestamp)
    returns (r: Reply)
    requires st.Valid() && registry == st.chargePoints
    modifies st.evs, StationTarget(registry, key)
    ensures st.EvseTable() == old(st.EvseTable())
    ensures PeerKindOf(registry, key) == CentralPeer ==>
              st.EvTable() == old(st.EvTable()) && r == HttpError(500, InternalServerError)
    ensures PeerKindOf(registry, key) != CentralPeer ==>
              st.EvTable() == StatusLinkEffect(old(st.EvTable()), s, name) && r == StatusUpdated
    ensures PeerKindOf(registry, key) == StationPeer ==>
              var cp := registry[key].cp;
              && cp.outbox == old(cp.outbox) + [StatusNotification(now, StatusValue(s), 1, evseId)]
              && cp.transactionActive == old(cp.transactionActive) && cp.meterTask == old(cp.meterTask)
              && cp.currentTransactionId == old(cp.currentTransactionId)
  {
    var delivered := NotifyStatus(st, registry, key, evseId, s, now);
    if !delivered {
      r := HttpError(500, InternalServerError);
    } else {
      LinkEvs(st, s, name);
      r := StatusUpdated;
    }
  }

  /** The effect once the status has parsed, case by case. */
  lemma UpdateStatusOnParsed(evses: seq<EvseView>, evs: seq<EvView>, index: int,
                             statusArg: Option<string>, peer: PeerKind, s: ConnectorStatus)
    requires ParsedStatus(evses, index, statusArg) == Some(s)
    ensures 0 <= index < |evses|
    ensures UpdateStatusEffect(evses, evs, index, statusArg, peer) ==
              if peer == CentralPeer then
                StatusUpdate(evses[index := evses[index].(status := s)], evs,
                             HttpError(500, InternalServerError))
              else
                StatusUpdate(evses[index := evses[index].(status := s)], StatusLinkEffect(evs, s, evses[index].name), StatusUpdated)
  {
  }

  /** `cp.send_status_notification(...)` on whatever the registry holds
      under `key`: nothing when the key is absent, one StatusNotification
      on connector 1 for a station Charge Point, and an AttributeError
      (`delivered` false) for a Central System end. */
  method NotifyStatus(st: State, chargePoints: map<string, Peer>, key: string, evseId: int, s: ConnectorStatus,
                      now: Timestamp)
    returns (delivered: bool)
    requires chargePoints == st.chargePoints
    modifies StationTarget(chargePoints, key)
    ensures st.EvseTable() == old(st.EvseTable()) && st.EvTable() == old(st.EvTable())
    ensures delivered <==> PeerKindOf(chargePoints, key) != CentralPeer
    ensures PeerKindOf(chargePoints, key) == StationPeer ==>
              var cp := chargePoints[key].cp;
              && cp.outbox == old(cp.outbox) + [StatusNotification(now, StatusValue(s), 1, evseId)]
              && cp.transactionActive == old(cp.transactionActive) && cp.meterTask == old(cp.meterTask)
              && cp.currentTransactionId == old(cp.currentTransactionId)
  {
    delivered := true;
    if key in chargePoints {
      match chargePoints[key] {
        case StationSide(cp) =>
          cp.SendStatusNotification(evseId, StatusValue(s), 1, now);
        case CsmsSide(_) =>
          delivered := false;
      }
    }
  }

  /** The bind/unbind loops that follow a status change. */
  method LinkEvs(st: State, s: ConnectorStatus, name: string)
    requires st.Valid()
    modifies st.evs
    ensures st.EvTable() == StatusLinkEffect(old(st.EvTable()), s, name)
    ensures st.EvseTable() == old(st.EvseTable())
  {
    if s == Reserved {
      BindFirstFreeEv(st, name);
    } else if s == Unavailable {
      UnbindFirstEv(st, name);
    }
  }
}

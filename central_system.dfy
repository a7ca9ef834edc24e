/** The Central System (VOLTRIX/app/backend/server/central_system.py): the
    `@on` handlers that apply a Charge Point's requests to the shared EVSE
    and EV lists, the back-end's reservation entry point, and the websocket
    handler that registers each connection. Each handler is a method on the
    shared state, specified by a function on the lists' views. */
module CentralSystem {
  import opened Common
  import opened Identifiers
  import opened Ocpp
  import opened EvseModel
  import opened EvModel
  import opened CsmsEndpointModel
  import opened SharedState

  /** `on_boot_notification`: every station is accepted, with a 10 s heartbeat. */
  function BootReply(now: Timestamp): (r: BootNotificationResult)
    ensures r.status == RegistrationAccepted && r.interval == 10 && r.currentTime == now
  {
    BootNotificationResult(now, 10, RegistrationAccepted)
  }

  /** `on_authorize`: every token is accepted. */
  function AuthorizeReply(idToken: string): (r: AuthorizationStatus)
    ensures r == AuthorizationAccepted
  {
    AuthorizationAccepted
  }

  /** `next((e for e in evse_list if e.id == evse_id), None)`. */
  function FindEvse(evses: seq<EvseView>, evseId: int): (r: Option<nat>)
    ensures r.Some? ==> r.value < |evses| && evses[r.value].id == evseId
    ensures r.Some? ==> forall k :: 0 <= k < r.value ==> evses[k].id != evseId
    ensures r.None? <==> forall k :: 0 <= k < |evses| ==> evses[k].id != evseId
  {
    FirstIndex(evses, (v: EvseView) => v.id == evseId)
  }

  /** `on_status_notification` on the EVSE list. */
  function StatusNotificationEffect(evses: seq<EvseView>, evseId: int, connectorStatus: string): (r: seq<EvseView>)
  {
    match FindEvse(evses, evseId)
    case None => evses
    case Some(i) =>
      match ParseStatus(connectorStatus)
      case None => evses
      case Some(s) => evses[i := evses[i].(status := s)]
  }

  /** The EVSE with that id takes the reported status and nothing else about
      it changes; every other EVSE is untouched. An unknown EVSE, or a string
      that is no ConnectorStatus value (the ValueError is caught), leaves the
      list as it is. */
  lemma StatusNotificationSpec(evses: seq<EvseView>, evseId: int, connectorStatus: string)
    ensures var r := StatusNotificationEffect(evses, evseId, connectorStatus);
            && |r| == |evses|
            && (forall k :: 0 <= k < |evses| && evses[k].id != evseId ==> r[k] == evses[k])
            && (FindEvse(evses, evseId).None? || ParseStatus(connectorStatus).None? ==> r == evses)
            && (forall k :: FindEvse(evses, evseId) == Some(k) && ParseStatus(connectorStatus).Some? ==>
                  StatusValue(r[k].status) == connectorStatus && r[k] == evses[k].(status := r[k].status))
  {
  }

  /** A repeated notification changes nothing more. */
  lemma StatusNotificationIdempotent(evses: seq<EvseView>, evseId: int, connectorStatus: string)
    ensures StatusNotificationEffect(StatusNotificationEffect(evses, evseId, connectorStatus), evseId, connectorStatus)
            == StatusNotificationEffect(evses, evseId, connectorStatus)
  {
    var once := StatusNotificationEffect(evses, evseId, connectorStatus);
    assert forall k :: 0 <= k < |evses| ==> once[k].id == evses[k].id;
    assert FindEvse(once, evseId) == FindEvse(evses, evseId);
  }

  /** A status the station reports is what the dashboard then shows for
      that EVSE (through `to_dict`). */
  lemma StatusNotificationShown(evses: seq<EvseView>, evseId: int, s: ConnectorStatus)
    requires FindEvse(evses, evseId).Some?
    ensures StatusNotificationEffect(evses, evseId, StatusValue(s))[FindEvse(evses, evseId).value].status == s
  {
    StatusValueRoundTrip(s);
  }

  method OnStatusNotification(st: State, evseId: int, connectorStatus: string)
    requires st.Valid()
    modifies st.evses
    ensures st.EvseTable() == StatusNotificationEffect(old(st.EvseTable()), evseId, connectorStatus)
    ensures st.EvTable() == old(st.EvTable())
  {
    var found := FindEvse(st.EvseTable(), evseId);
    if found.None? {
      return;
    }
    var parsed := ParseStatus(connectorStatus);
    if parsed.None? {
      return;
    }
    var i := found.value;
    EvseAlone(st, i);
    ghost var before := st.EvseTable();
    st.evses[i].status := parsed.value;
    EvseRowChanged(st, before, i);
  }

  /** `on_reserve_now` on the EVSE list, with the status it replies. */
  function ReserveNowEffect(evses: seq<EvseView>, evseId: int, idToken: Option<string>): (r: (seq<EvseView>, ReserveNowStatus))
  {
    match FindEvse(evses, evseId)
    case None => (evses, ReserveRejected)
    case Some(i) =>
      if evses[i].status == Available then (evses[i := ReserveView(evses[i], idToken)], ReserveAccepted)
      else (evses, ReserveRejected)
  }

  /** The reply is Accepted exactly when an EVSE with that id exists and is
      available; it is then reserved for the token's holder and no other
      EVSE changes. Otherwise the reply is Rejected and nothing changes. */
  lemma ReserveNowSpec(evses: seq<EvseView>, evseId: int, idToken: Option<string>)
    ensures var r := ReserveNowEffect(evses, evseId, idToken);
            && (r.1 == ReserveAccepted <==>
                  exists k :: 0 <= k < |evses| && evses[k].id == evseId && FindEvse(evses, evseId) == Some(k)
                              && evses[k].status == Available)
            && (r.1 != ReserveAccepted ==> r.1 == ReserveRejected && r.0 == evses)
            && (r.1 == ReserveAccepted ==>
                  var i := FindEvse(evses, evseId).value;
                  |r.0| == |evses| && r.0[i] == ReserveView(evses[i], idToken)
                  && forall k :: 0 <= k < |evses| && k != i ==> r.0[k] == evses[k])
  {
  }

  /** A second reservation of the same EVSE is rejected, and the first
      holder keeps it. */
  lemma ReserveNowExclusive(evses: seq<EvseView>, evseId: int, first: Option<string>, second: Option<string>)
    requires ReserveNowEffect(evses, evseId, first).1 == ReserveAccepted
    ensures var after := ReserveNowEffect(evses, evseId, first).0;
            ReserveNowEffect(after, evseId, second) == (after, ReserveRejected)
            && after[FindEvse(evses, evseId).value].currentEvId == first
  {
    var after := ReserveNowEffect(evses, evseId, first).0;
    assert forall k :: 0 <= k < |evses| ==> after[k].id == evses[k].id;
    assert FindEvse(after, evseId) == FindEvse(evses, evseId);
  }

  method OnReserveNow(st: State, evseId: int, idToken: Option<string>) returns (status: ReserveNowStatus)
    requires st.Valid()
    modifies st.evses
    ensures (st.EvseTable(), status) == ReserveNowEffect(old(st.EvseTable()), evseId, idToken)
    ensures st.EvTable() == old(st.EvTable())
  {
    var found := FindEvse(st.EvseTable(), evseId);
    if found.None? || !st.evses[found.value].IsAvailable() {
      return ReserveRejected;
    }
    var i := found.value;
    EvseAlone(st, i);
    ghost var before := st.EvseTable();
    st.evses[i].Reserve(idToken);
    st.evses[i].status := Reserved;
    EvseRowChanged(st, before, i);
    status := ReserveAccepted;
  }

  /** The EV a TransactionEvent concerns: the first one bound to the EVSE by
      its integer id, or whose id is the token. An EV bound by name (as the
      REST handlers bind) never matches the first test. */
  function FindTransactionEv(evs: seq<EvView>, evseId: int, userToken: Option<string>): (r: Option<nat>)
    ensures r.Some? ==> r.value < |evs|
    ensures r.Some? ==> evs[r.value].connectedEvseId == Some(ById(evseId))
                        || (userToken.Some? && evs[r.value].id == userToken.value)
    ensures r.None? <==> forall k :: 0 <= k < |evs| ==>
              evs[k].connectedEvseId != Some(ById(evseId)) && (userToken.None? || evs[k].id != userToken.value)
    ensures r.Some? ==> forall k :: 0 <= k < r.value ==>
              evs[k].connectedEvseId != Some(ById(evseId)) && (userToken.None? || evs[k].id != userToken.value)
  {
    FirstIndex(evs, (v: EvView) => v.connectedEvseId == Some(ById(evseId)) || (userToken.Some? && v.id == userToken.value))
  }

  /** `on_transaction_event` on the EV list, once the EVSE is known. */
  function TransactionEvEffect(evs: seq<EvView>, eventType: string, evseId: int, userToken: Option<string>): (r: seq<EvView>)
  {
    match FindTransactionEv(evs, evseId, userToken)
    case None => evs
    case Some(j) =>
      if eventType == "Started" then evs[j := evs[j].(connectedEvseId := Some(ById(evseId)))]
      else if eventType == "Ended" && evs[j].connectedEvseId == Some(ById(evseId)) then evs[j := evs[j].(connectedEvseId := None)]
      else evs
  }

  /** `on_transaction_event` on the EVSE list. */
  function TransactionEvseEffect(evses: seq<EvseView>, eventType: string, evseId: int, now: Timestamp): (r: seq<EvseView>)
  {
    match FindEvse(evses, evseId)
    case None => evses
    case Some(i) =>
      if eventType == "Started" then evses[i := StartChargingView(evses[i], now)]
      else if eventType == "Ended" then evses[i := StopChargingView(evses[i])]
      else evses
  }

  /** `on_transaction_event`: the EV list is touched only when the EVSE exists. */
  function TransactionEffect(evses: seq<EvseView>, evs: seq<EvView>, eventType: string, evseId: int,
                             userToken: Option<string>, now: Timestamp): (r: (seq<EvseView>, seq<EvView>))
  {
    if FindEvse(evses, evseId).None? then (evses, evs)
    else (TransactionEvseEffect(evses, eventType, evseId, now), TransactionEvEffect(evs, eventType, evseId, userToken))
  }

  /** Started starts charging on the EVSE and binds the EV by the EVSE's
      integer id; Ended stops it and unbinds the EV only if it was bound by
      that id. Nothing else changes, and an unknown EVSE or any other event
      type changes nothing. */
  lemma TransactionSpec(evses: seq<EvseView>, evs: seq<EvView>, eventType: string, evseId: int,
                        userToken: Option<string>, now: Timestamp)
    ensures var r := TransactionEffect(evses, evs, eventType, evseId, userToken, now);
            && |r.0| == |evses| && |r.1| == |evs|
            && (FindEvse(evses, evseId).None? || (eventType != "Started" && eventType != "Ended") ==> r == (evses, evs))
            && (forall k :: 0 <= k < |evses| && evses[k].id != evseId ==> r.0[k] == evses[k])
            && (forall k :: 0 <= k < |evs| && FindTransactionEv(evs, evseId, userToken) != Some(k) ==> r.1[k] == evs[k])
            && (forall i :: FindEvse(evses, evseId) == Some(i) ==>
                  && (eventType == "Started" ==> r.0[i] == StartChargingView(evses[i], now))
                  && (eventType == "Ended" ==> r.0[i] == StopChargingView(evses[i]))
                  && (forall j :: FindTransactionEv(evs, evseId, userToken) == Some(j) ==>
                        && r.1[j] == evs[j].(connectedEvseId := r.1[j].connectedEvseId)
                        && (eventType == "Started" ==> r.1[j].connectedEvseId == Some(ById(evseId)))
                        && (eventType == "Ended" ==>
                              r.1[j].connectedEvseId ==
                                (if evs[j].connectedEvseId == Some(ById(evseId)) then None else evs[j].connectedEvseId))))
  {
  }

  /** On the EVSE list, Started then Ended is a plain stop. */
  lemma TransactionEvseRoundTrip(evses: seq<EvseView>, evseId: int, start: Timestamp, end: Timestamp)
    requires FindEvse(evses, evseId).Some?
    ensures var i := FindEvse(evses, evseId).value;
            TransactionEvseEffect(TransactionEvseEffect(evses, "Started", evseId, start), "Ended", evseId, end)
            == evses[i := StopChargingView(evses[i])]
  {
    var i := FindEvse(evses, evseId).value;
    var mid := TransactionEvseEffect(evses, "Started", evseId, start);
    assert mid == evses[i := StartChargingView(evses[i], start)];
    assert forall k :: 0 <= k < |evses| ==> mid[k].id == evses[k].id;
    assert FindEvse(mid, evseId) == Some(i);
  }

  /** On the EV list, Started then Ended unbinds exactly the EV the start
      bound, and leaves every other EV as it was. */
  lemma TransactionEvRoundTrip(evs: seq<EvView>, evseId: int, userToken: Option<string>)
    ensures var fin := TransactionEvEffect(TransactionEvEffect(evs, "Started", evseId, userToken), "Ended", evseId, userToken);
            && (FindTransactionEv(evs, evseId, userToken).None? ==> fin == evs)
            && (FindTransactionEv(evs, evseId, userToken).Some? ==>
                  var j := FindTransactionEv(evs, evseId, userToken).value;
                  fin == evs[j := evs[j].(connectedEvseId := None)])
  {
    var mid := TransactionEvEffect(evs, "Started", evseId, userToken);
    var found := FindTransactionEv(evs, evseId, userToken);
    if found.Some? {
      var j := found.value;
      assert mid == evs[j := evs[j].(connectedEvseId := Some(ById(evseId)))];
      assert forall k :: 0 <= k < j ==> mid[k] == evs[k];
      assert mid[j].connectedEvseId == Some(ById(evseId));
      assert FindTransactionEv(mid, evseId, userToken) == Some(j);
    }
  }

  /** A Started event followed by an Ended event for the same EVSE and token
      leaves the EVSE as a plain stop would, and unbinds exactly the EV the
      start bound; every other EV is as before. */
  lemma TransactionRoundTrip(evses: seq<EvseView>, evs: seq<EvView>, evseId: int, userToken: Option<string>,
                             start: Timestamp, end: Timestamp)
    requires FindEvse(evses, evseId).Some?
    ensures var mid := TransactionEffect(evses, evs, "Started", evseId, userToken, start);
            var fin := TransactionEffect(mid.0, mid.1, "Ended", evseId, userToken, end);
            var i := FindEvse(evses, evseId).value;
            && fin.0 == evses[i := StopChargingView(evses[i])]
            && (FindTransactionEv(evs, evseId, userToken).None? ==> fin.1 == evs)
            && (FindTransactionEv(evs, evseId, userToken).Some? ==>
                  var j := FindTransactionEv(evs, evseId, userToken).value;
                  fin.1 == evs[j := evs[j].(connectedEvseId := None)])
  {
    var i := FindEvse(evses, evseId).value;
    var mid := TransactionEffect(evses, evs, "Started", evseId, userToken, start);
    assert mid.0 == evses[i := StartChargingView(evses[i], start)];
    assert mid.0[i].id == evseId;
    TransactionEvseRoundTrip(evses, evseId, start, end);
    TransactionEvRoundTrip(evs, evseId, userToken);
  }

  /** The EVSE half of `on_transaction_event`. */
  method ApplyTransactionToEvse(st: State, eventType: string, evseId: int, now: Timestamp)
    requires st.Valid()
    modifies st.evses
    ensures st.EvseTable() == TransactionEvseEffect(old(st.EvseTable()), eventType, evseId, now)
    ensures st.EvTable() == old(st.EvTable())
  {
    var found := FindEvse(st.EvseTable(), evseId);
    if found.None? {
      return;
    }
    var i := found.value;
    EvseAlone(st, i);
    ghost var before := st.EvseTable();
    if eventType == "Started" {
      st.evses[i].StartCharging(now);
    } else if eventType == "Ended" {
      st.evses[i].StopCharging();
    }
    EvseRowChanged(st, before, i);
  }

  /** The EV half of `on_transaction_event`. */
  method ApplyTransactionToEvs(st: State, eventType: string, evseId: int, userToken: Option<string>)
    requires st.Valid()
    modifies st.evs
    ensures st.EvTable() == TransactionEvEffect(old(st.EvTable()), eventType, evseId, userToken)
    ensures st.EvseTable() == old(st.EvseTable())
  {
    var targetEv := FindTransactionEv(st.EvTable(), evseId, userToken);
    if targetEv.None? {
      return;
    }
    var j := targetEv.value;
    EvAlone(st, j);
    ghost var before := st.EvTable();
    if eventType == "Started" {
      st.evs[j].connectedEvseId := Some(ById(evseId));
    } else if eventType == "Ended" && st.evs[j].connectedEvseId == Some(ById(evseId)) {
      st.evs[j].connectedEvseId := None;
    }
    EvRowChanged(st, before, j);
  }

  method OnTransactionEvent(st: State, eventType: string, evseId: int, userToken: Option<string>, now: Timestamp)
    requires st.Valid()
    modifies st.evses, st.evs
    ensures (st.EvseTable(), st.EvTable())
            == TransactionEffect(old(st.EvseTable()), old(st.EvTable()), eventType, evseId, userToken, now)
  {
    var found := FindEvse(st.EvseTable(), evseId);
    if found.None? {
      return;
    }
    ApplyTransactionToEvse(st, eventType, evseId, now);
    ApplyTransactionToEvs(st, eventType, evseId, userToken);
  }

  /** What `reserve_evse_by_id` returns: `{"status": "failed", "reason": …}`
      or `{"status": response.status}`. */
  datatype ReserveOutcome = ReserveFailed(reason: string) | ReserveReplied(status: ReserveNowStatus)

  /** After the reply: an accepted reservation marks the EVSE Reserved, but
      records no EV on it (unlike `on_reserve_now`). */
  function ReserveReplyEffect(evses: seq<EvseView>, evseId: int, reply: ReserveNowStatus): (r: seq<EvseView>)
  {
    match FindEvse(evses, evseId)
    case None => evses
    case Some(i) => if reply == ReserveAccepted then evses[i := evses[i].(status := Reserved)] else evses
  }

  /** Only an Accepted reply changes anything, and then only the status of
      the EVSE with that id: its EV, times and every other EVSE are kept. */
  lemma ReserveReplySpec(evses: seq<EvseView>, evseId: int, reply: ReserveNowStatus)
    ensures var r := ReserveReplyEffect(evses, evseId, reply);
            && |r| == |evses|
            && (reply != ReserveAccepted || FindEvse(evses, evseId).None? ==> r == evses)
            && (forall k :: 0 <= k < |evses| && evses[k].id != evseId ==> r[k] == evses[k])
            && (reply == ReserveAccepted ==> forall k :: FindEvse(evses, evseId) == Some(k) ==>
                  r[k].status == Reserved && r[k].currentEvId == evses[k].currentEvId
                  && r[k] == evses[k].(status := Reserved))
  {
  }

  /** `reserve_evse_by_id`. `reply` is the status the peer answers the
      ReserveNow request with, and `now` the expiry time the request carries. */
  method ReserveEvseById(st: State, evseId: int, evId: string, now: Timestamp, reply: ReserveNowStatus)
    returns (r: ReserveOutcome)
    requires st.Valid()
    modifies st`reservationIdCounter, st.evses
    modifies if StationId(evseId) in st.chargePoints then {PeerObject(st.chargePoints[StationId(evseId)])} else {}
    ensures st.Valid()
    ensures st.evses == old(st.evses) && st.evs == old(st.evs) && st.chargePoints == old(st.chargePoints)
    ensures st.evseIdCounter == old(st.evseIdCounter) && st.evClients == old(st.evClients) && st.tasks == old(st.tasks)
    ensures StationId(evseId) !in st.chargePoints ==>
              r == ReserveFailed("Charge Point not connected")
              && st.reservationIdCounter == old(st.reservationIdCounter)
              && st.EvseTable() == old(st.EvseTable())
    ensures StationId(evseId) in st.chargePoints ==>
              var peer := st.chargePoints[StationId(evseId)];
              && r == ReserveReplied(reply)
              && st.reservationIdCounter == old(st.reservationIdCounter) + 1
              && PeerOutbox(peer) == old(PeerOutbox(peer))
                   + [ReserveNow(old(st.reservationIdCounter), now, evId, "Central", evseId)]
              && st.EvseTable() == ReserveReplyEffect(old(st.EvseTable()), evseId, reply)
    ensures st.EvTable() == old(st.EvTable())
  {
    var key := StationId(evseId);
    if key !in st.chargePoints {
      return ReserveFailed("Charge Point not connected");
    }
    var reservationId := SendReserveNow(st, key, evseId, evId, now);
    ghost var outbox := PeerOutbox(st.chargePoints[key]);
    if reply == ReserveAccepted {
      MarkReserved(st, evseId);
    }
    assert PeerOutbox(st.chargePoints[key]) == outbox by {
      match st.chargePoints[key]
      case StationSide(cp) =>
      case CsmsSide(endpoint) =>
    }
    r := ReserveReplied(reply);
  }

  /** Takes the next reservation id and sends ReserveNow through the
      registry entry under `key`. */
  method SendReserveNow(st: State, key: string, evseId: int, evId: string, now: Timestamp)
    returns (reservationId: int)
    requires st.Valid() && key in st.chargePoints
    modifies st`reservationIdCounter, PeerObject(st.chargePoints[key])
    ensures st.Valid()
    ensures st.evses == old(st.evses) && st.evs == old(st.evs) && st.chargePoints == old(st.chargePoints)
    ensures st.evseIdCounter == old(st.evseIdCounter) && st.evClients == old(st.evClients) && st.tasks == old(st.tasks)
    ensures reservationId == old(st.reservationIdCounter) && st.reservationIdCounter == reservationId + 1
    ensures PeerOutbox(st.chargePoints[key])
            == old(PeerOutbox(st.chargePoints[key])) + [ReserveNow(reservationId, now, evId, "Central", evseId)]
    ensures st.EvseTable() == old(st.EvseTable()) && st.EvTable() == old(st.EvTable())
  {
    var peer := st.chargePoints[key];
    ghost var table := st.EvseTable();
    ghost var evs := st.EvTable();
    reservationId := st.reservationIdCounter;
    st.reservationIdCounter := st.reservationIdCounter + 1;
    var request := ReserveNow(reservationId, now, evId, "Central", evseId);
    match peer {
      case StationSide(cp) => cp.Call(request);
      case CsmsSide(endpoint) => endpoint.Call(request);
    }
    EvseTableKept(st, table);
    EvTableKept(st, evs);
  }

  /** The status update after an Accepted reply. */
  method MarkReserved(st: State, evseId: int)
    requires st.Valid()
    modifies st.evses
    ensures st.EvseTable() == ReserveReplyEffect(old(st.EvseTable()), evseId, ReserveAccepted)
    ensures st.EvTable() == old(st.EvTable())
  {
    var found := FindEvse(st.EvseTable(), evseId);
    if found.Some? {
      var i := found.value;
      EvseAlone(st, i);
      ghost var before := st.EvseTable();
      st.evses[i].status := Reserved;
      EvseRowChanged(st, before, i);
    }
  }

  /** `str.strip("/")`, leading half. */
  function StripLeading(s: string): (r: string)
    ensures |r| <= |s| && r == s[|s| - |r|..]
    ensures r == [] || r[0] != '/'
    ensures forall k :: 0 <= k < |s| - |r| ==> s[k] == '/'
  {
    if |s| > 0 && s[0] == '/' then StripLeading(s[1..]) else s
  }

  /** `str.strip("/")`, trailing half. */
  function StripTrailing(s: string): (r: string)
    ensures |r| <= |s| && r == s[..|r|]
    ensures r == [] || r[|r| - 1] != '/'
    ensures forall k :: |r| <= k < |s| ==> s[k] == '/'
  {
    if |s| > 0 && s[|s| - 1] == '/' then StripTrailing(s[..|s| - 1]) else s
  }

  /** `path.strip("/")`: the path without its leading and trailing slashes. */
  function Strip(s: string): (r: string)
    ensures |r| <= |s|
    ensures r == [] || (r[0] != '/' && r[|r| - 1] != '/')
  {
    StripTrailing(StripLeading(s))
  }

  /** A string with no slash at either end is its own strip. */
  lemma StripClean(s: string)
    requires s == [] || (s[0] != '/' && s[|s| - 1] != '/')
    ensures Strip(s) == s
  {
    assert StripLeading(s) == s;
    assert StripTrailing(s) == s;
  }

  lemma StripIdempotent(s: string)
    ensures Strip(Strip(s)) == Strip(s)
  {
    StripClean(Strip(s));
  }

  /** The path a station dials, `/CP_<id>`, strips to the id the station
      registers itself under: both ends of one connection share a key. */
  lemma StationPathKey(evseId: int)
    ensures Strip("/" + StationId(evseId)) == StationId(evseId)
  {
    var key := StationId(evseId);
    var text := IntToString(evseId);
    assert key == "CP_" + text;
    assert text[|text| - 1] != '/' by {
      if evseId < 0 {
        assert text == "-" + Digits(-evseId);
        assert text[|text| - 1] == Digits(-evseId)[|Digits(-evseId)| - 1];
      } else {
        assert text == Digits(evseId);
      }
    }
    assert key[|key| - 1] == text[|text| - 1];
    assert ("/" + key)[1..] == key;
    assert StripLeading("/" + key) == StripLeading(key);
    StripClean(key);
  }

  /** `on_connect`: a new Central System end for the connection, stored
      under the stripped path, replacing whatever was registered there. */
  method OnConnect(st: State, path: string) returns (endpoint: CsmsEndpoint)
    modifies st
    ensures fresh(endpoint) && endpoint.id == Strip(path) && endpoint.outbox == []
    ensures st.chargePoints == old(st.chargePoints)[Strip(path) := CsmsSide(endpoint)]
    ensures st.evses == old(st.evses) && st.evs == old(st.evs) && st.evClients == old(st.evClients)
    ensures st.evseIdCounter == old(st.evseIdCounter) && st.reservationIdCounter == old(st.reservationIdCounter)
    ensures st.tasks == old(st.tasks)
    ensures old(st.Valid()) ==> st.Valid()
  {
    var cpId := Strip(path);
    endpoint := new CsmsEndpoint(cpId);
    st.chargePoints := st.chargePoints[cpId := CsmsSide(endpoint)];
  }
}

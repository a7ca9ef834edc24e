/** The guard predicates the station, maintenance, reservation, notification
    and suggestion automata name in their transitions
    (automata/conditions.py). Each one reads keys of the callback context,
    falls back to the source's default for a missing key, and returns a
    boolean; a comparison or lookup Python would reject raises instead. */
module Conditions {
  import opened Common
  import opened PyValues

  /** A callback that returned the boolean `b`. */
  function Bool(b: bool): Outcome {
    Returned(PyBool(b))
  }

  /** The default `reservation_expiry`: one minute before `now`. */
  const ExpiryGrace: int := 60

  /** The `collected_data` fields a suggestion needs. */
  const RequiredFields: seq<string> := ["user_location", "battery_level", "destination"]

  /** `isStationReservable`: true exactly when `is_available` is present and
      truthy (the default is False). */
  function IsStationReservable(ctx: Context): (r: Outcome)
    ensures r == Bool(true) <==> "is_available" in ctx && IsTruthy(ctx["is_available"])
    ensures r.Returned? && r.value.PyBool?
  {
    Bool(IsTruthy(Get(ctx, "is_available", PyBool(false))))
  }

  /** `canPlugInWithoutReservation`: true unless `allow_direct_plugin` is
      present and falsy (the default is True). */
  function CanPlugInWithoutReservation(ctx: Context): (r: Outcome)
    ensures r == Bool(false) <==> "allow_direct_plugin" in ctx && !IsTruthy(ctx["allow_direct_plugin"])
    ensures r.Returned? && r.value.PyBool?
  {
    Bool(IsTruthy(Get(ctx, "allow_direct_plugin", PyBool(true))))
  }

  /** The expiry test shared by `isReservationValid` and
      `isWithinReservationTime`: `now > reservation_expiry`, None when the
      expiry is not a datetime. */
  function Expired(ctx: Context, now: int): (r: Option<bool>)
    ensures "reservation_expiry" !in ctx ==> r == Some(true)
    ensures "reservation_expiry" in ctx && ctx["reservation_expiry"].PyTime? ==>
              r == Some(now > ctx["reservation_expiry"].seconds)
    ensures "reservation_expiry" in ctx && !ctx["reservation_expiry"].PyTime? ==> r.None?
  {
    PyGreater(PyTime(now), Get(ctx, "reservation_expiry", PyTime(now - ExpiryGrace)))
  }

  /** `isReservationValid` at clock reading `now`: false once the expiry has
      passed (the default expiry already has), otherwise true exactly when
      `reservation_user_id` equals `user_id` (default "unknown"). */
  function IsReservationValid(ctx: Context, now: int): (r: Outcome)
    ensures "reservation_expiry" !in ctx ==> r == Bool(false)
    ensures Expired(ctx, now) == Some(true) ==> r == Bool(false)
    ensures Expired(ctx, now).None? ==> r.Raised?
    ensures Expired(ctx, now) == Some(false) ==>
              r == Bool(PyEq(Get(ctx, "reservation_user_id", PyNone), Get(ctx, "user_id", PyStr("unknown"))))
  {
    match Expired(ctx, now)
    case None => Raised("TypeError")
    case Some(true) => Bool(false)
    case Some(false) =>
      var user := Get(ctx, "user_id", PyStr("unknown"));
      if !PyEq(Get(ctx, "reservation_user_id", PyNone), user) then Bool(false) else Bool(true)
  }

  /** `isWithinReservationTime` at clock reading `now`. */
  function IsWithinReservationTime(ctx: Context, now: int): (r: Outcome)
    ensures "reservation_expiry" !in ctx ==> r == Bool(false)
    ensures "reservation_expiry" in ctx && ctx["reservation_expiry"].PyTime? ==>
              (r == Bool(true) <==> now <= ctx["reservation_expiry"].seconds)
    ensures r.Returned? <==> Expired(ctx, now).Some?
  {
    match Expired(ctx, now)
    case None => Raised("TypeError")
    case Some(expired) => Bool(!expired)
  }

  /** A valid reservation is always within its time window. */
  lemma ValidReservationIsWithinTime(ctx: Context, now: int)
    requires IsReservationValid(ctx, now) == Bool(true)
    ensures IsWithinReservationTime(ctx, now) == Bool(true)
  {
  }

  /** `isAutoClearable`: whether `fault_code` (default "unknown") is in
      `auto_clearable_codes` (default an empty list). */
  function IsAutoClearable(ctx: Context): (r: Outcome)
    ensures "auto_clearable_codes" !in ctx ==> r == Bool(false)
    ensures "auto_clearable_codes" in ctx && ctx["auto_clearable_codes"].PyList? ==>
              var codes := ctx["auto_clearable_codes"].items;
              var fault := Get(ctx, "fault_code", PyStr("unknown"));
              r == Bool(exists k :: 0 <= k < |codes| && PyEq(codes[k], fault))
  {
    match PyContains(Get(ctx, "auto_clearable_codes", PyList([])), Get(ctx, "fault_code", PyStr("unknown")))
    case None => Raised("TypeError")
    case Some(b) => Bool(b)
  }

  /** `isMaintenanceCompleted`: every entry of `maintenance_checks` (default
      an empty dictionary) is truthy; anything but a dictionary has no
      `items()`. */
  function IsMaintenanceCompleted(ctx: Context): (r: Outcome)
    ensures "maintenance_checks" !in ctx ==> r == Bool(true)
    ensures "maintenance_checks" in ctx && ctx["maintenance_checks"].PyDict? ==>
              var checks := ctx["maintenance_checks"].entries;
              (r == Bool(true) <==> forall c :: c in checks ==> IsTruthy(checks[c])) &&
              ((exists c :: c in checks && !IsTruthy(checks[c])) ==> r == Bool(false))
    ensures "maintenance_checks" in ctx && !ctx["maintenance_checks"].PyDict? ==> r.Raised?
  {
    match Get(ctx, "maintenance_checks", PyDict(map[]))
    case PyDict(checks) => Bool(forall c :: c in checks ==> IsTruthy(checks[c]))
    case _ => Raised("AttributeError")
  }

  /** `isMaintenanceCancellable`: only maintenance that is still "scheduled"
      (the default) can be cancelled. */
  function IsMaintenanceCancellable(ctx: Context): (r: Outcome)
    ensures "maintenance_status" !in ctx ==> r == Bool(true)
    ensures "maintenance_status" in ctx ==> (r == Bool(true) <==> ctx["maintenance_status"] == PyStr("scheduled"))
    ensures r.Returned? && r.value.PyBool?
  {
    var status := Get(ctx, "maintenance_status", PyStr("scheduled"));
    PyEqString(status, "scheduled");
    if !PyEq(status, PyStr("scheduled")) then Bool(false) else Bool(true)
  }

  /** `isStationAvailable`: only the exact upper-case status "AVAILABLE"
      passes; the default "unknown" does not. */
  function IsStationAvailable(ctx: Context): (r: Outcome)
    ensures r == Bool(true) <==> "station_status" in ctx && ctx["station_status"] == PyStr("AVAILABLE")
    ensures r.Returned? && r.value.PyBool?
  {
    var status := Get(ctx, "station_status", PyStr("unknown"));
    PyEqString(status, "AVAILABLE");
    if !PyEq(status, PyStr("AVAILABLE")) then Bool(false) else Bool(true)
  }

  /** Any status text with a lower-case letter in it is refused, which
      takes in the lower-case statuses the rest of the system stores. */
  lemma StationAvailableIsCaseSensitive(ctx: Context, s: string)
    requires ctx == map["station_status" := PyStr(s)]
    requires exists k :: 0 <= k < |s| && 'a' <= s[k] <= 'z'
    ensures IsStationAvailable(ctx) == Bool(false)
  {
    var k :| 0 <= k < |s| && 'a' <= s[k] <= 'z';
    if s == "AVAILABLE" {
      assert false;
    }
  }

  /** `canStartCharging`: true exactly when `vehicle_connected` is present
      and truthy (the default is False). */
  function CanStartCharging(ctx: Context): (r: Outcome)
    ensures r == Bool(true) <==> "vehicle_connected" in ctx && IsTruthy(ctx["vehicle_connected"])
    ensures r.Returned? && r.value.PyBool?
  {
    Bool(IsTruthy(Get(ctx, "vehicle_connected", PyBool(false))))
  }

  /** `canRetry`: another attempt is allowed while `retry_count` (default 0)
      is below `max_retries` (default 3). */
  function CanRetry(ctx: Context): (r: Outcome)
    ensures "retry_count" !in ctx && "max_retries" !in ctx ==> r == Bool(true)
    ensures AsNumber(Get(ctx, "retry_count", PyInt(0))).Some? && AsNumber(Get(ctx, "max_retries", PyInt(3))).Some? ==>
              r == Bool(AsNumber(Get(ctx, "retry_count", PyInt(0))).value < AsNumber(Get(ctx, "max_retries", PyInt(3))).value)
  {
    match PyGreaterEq(Get(ctx, "retry_count", PyInt(0)), Get(ctx, "max_retries", PyInt(3)))
    case None => Raised("TypeError")
    case Some(exhausted) => if exhausted then Bool(false) else Bool(true)
  }

  /** Each further attempt only brings the notification closer to its limit:
      once retrying is refused at some count, it is refused at every higher
      count. */
  lemma CanRetryMonotonic(ctx: Context, a: int, b: int)
    requires a <= b
    requires CanRetry(ctx["retry_count" := PyInt(a)]) == Bool(false)
    requires AsNumber(Get(ctx, "max_retries", PyInt(3))).Some?
    ensures CanRetry(ctx["retry_count" := PyInt(b)]) == Bool(false)
  {
    var ca := ctx["retry_count" := PyInt(a)];
    var cb := ctx["retry_count" := PyInt(b)];
    assert Get(ca, "max_retries", PyInt(3)) == Get(ctx, "max_retries", PyInt(3));
    assert Get(cb, "max_retries", PyInt(3)) == Get(ctx, "max_retries", PyInt(3));
  }

  /** Counts given as lists compare as Python compares lists: when the two
      agree item by item up to the shorter length, retrying is allowed
      exactly when the retry list is the shorter one. */
  lemma CanRetryListCounts(ctx: Context, x: seq<PyValue>, y: seq<PyValue>)
    requires "retry_count" in ctx && ctx["retry_count"] == PyList(x)
    requires "max_retries" in ctx && ctx["max_retries"] == PyList(y)
    requires forall k :: 0 <= k < |x| && k < |y| ==> PyEq(x[k], y[k])
    ensures CanRetry(ctx) == Bool(|x| < |y|)
  {
    ListOrderOnPrefix(x, y, 0, false);
  }

  /** Equal list counts exhaust the retries, as equal numbers do. */
  lemma CanRetryEqualLists(ctx: Context, x: seq<PyValue>)
    requires "retry_count" in ctx && ctx["retry_count"] == PyList(x)
    requires "max_retries" in ctx && ctx["max_retries"] == PyList(x)
    ensures CanRetry(ctx) == Bool(false)
  {
    ListOrderReflexive(x);
  }

  /** The scan over the required fields: a missing or falsy field stops it
      with False; indexing anything but a dictionary raises. */
  function FieldsPresent(data: PyValue, fields: seq<string>): (r: Outcome)
    ensures data.PyDict? ==>
              (r == Bool(true) <==> forall k :: 0 <= k < |fields| ==> fields[k] in data.entries && IsTruthy(data.entries[fields[k]]))
    ensures data.PyDict? ==> r.Returned? && r.value.PyBool?
  {
    if fields == [] then Bool(true)
    else
      match PyContains(data, PyStr(fields[0]))
      case None => Raised("TypeError")
      case Some(false) => Bool(false)
      case Some(true) =>
        if !data.PyDict? then Raised("TypeError")
        else if !IsTruthy(data.entries[fields[0]]) then Bool(false)
        else FieldsPresent(data, fields[1..])
  }

  /** `isSufficientData`: `user_location`, `battery_level` and `destination`
      are all present in `collected_data` (default an empty dictionary) and
      truthy. */
  function IsSufficientData(ctx: Context): (r: Outcome)
    ensures "collected_data" !in ctx ==> r == Bool(false)
    ensures "collected_data" in ctx && ctx["collected_data"].PyDict? ==>
              var data := ctx["collected_data"].entries;
              r == Bool("user_location" in data && IsTruthy(data["user_location"]) &&
                        "battery_level" in data && IsTruthy(data["battery_level"]) &&
                        "destination" in data && IsTruthy(data["destination"]))
  {
    var r := FieldsPresent(Get(ctx, "collected_data", PyDict(map[])), RequiredFields);
    assert RequiredFields[0] == "user_location" && RequiredFields[1] == "battery_level" && RequiredFields[2] == "destination";
    r
  }

  /** `hasStationResults`: `found_stations` (default an empty list) is truthy. */
  function HasStationResults(ctx: Context): (r: Outcome)
    ensures r == Bool(true) <==> "found_stations" in ctx && IsTruthy(ctx["found_stations"])
    ensures r.Returned? && r.value.PyBool?
  {
    Bool(IsTruthy(Get(ctx, "found_stations", PyList([]))))
  }
}

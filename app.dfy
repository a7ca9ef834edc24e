/** The Flask station service (app.py): charging stations carrying a status
    text, vehicles and reservations, kept in database tables that the route
    handlers update in place. A handler that returns an error before it
    commits leaves every table as it was. Floating-point columns are reals
    and datetimes are seconds on one clock. */
module StationService {
  import opened Common
  import opened PyValues

  /** `VALID_STATUSES`: the status texts a client may set. */
  const ValidStatuses: seq<string> := ["available", "occupied", "reserved", "unavailable", "faulted"]

  /** Status texts the handlers write themselves although they are not in
      `ValidStatuses`. */
  const Charging: string := "charging"
  const ReservedCapital: string := "Reserved"

  /** The status the seed data gives every station and the summary counts
      as not connected; no route handler writes it. */
  const Disconnected: string := "Disconnected"

  /** The statuses the cleanup of expired reservations frees. */
  const Cleanable: seq<string> := ["reserved", "available", "occupied"]

  const Ok: int := 200
  const Created: int := 201
  const BadRequest: int := 400
  const NotFound: int := 404
  const ServerError: int := 500

  /** Every status text a station can hold once the seed data or the
      handlers have written it. */
  predicate WrittenStatus(s: string) {
    s in ValidStatuses || s == Charging || s == ReservedCapital || s == Disconnected
  }

  /** A row of the station table; name and coordinates are NOT NULL
      columns. */
  datatype Station = Station(name: string, latitude: real, longitude: real, status: string)

  datatype Vehicle = Vehicle(
    batteryCapacity: real,
    chargePower: real,
    latitude: Option<real>,
    longitude: Option<real>,
    currentSoc: real)

  datatype Reservation = Reservation(
    id: nat,
    userId: nat,
    stationId: nat,
    vehicleId: nat,
    currentPercent: real,
    targetPercent: real,
    duration: real,
    startTime: real,
    expectedEnd: real)

  // ---------------------------------------------------------------------
  // Status texts
  // ---------------------------------------------------------------------

  /** `new_status in VALID_STATUSES`: only a string equal to one of the
      listed texts passes; None and non-strings never do. */
  predicate StatusAccepted(v: PyValue) {
    v.PyStr? && v.s in ValidStatuses
  }

  /** The status text `add_station` stores: `data.get('status',
      'available').lower()`, or None where `.lower()` raises because the
      value is not a string. */
  function NewStationStatus(status: Option<PyValue>): (r: Option<string>)
    ensures status.None? ==> r == Some("available")
    ensures status.Some? && status.value.PyStr? ==> r == Some(Lower(status.value.s))
    ensures status.Some? && !status.value.PyStr? ==> r.None?
  {
    match status
    case None => Some("available")
    case Some(PyStr(s)) => Some(Lower(s))
    case Some(_) => None
  }

  /** The handlers that set a station's status without a request body. */
  datatype Route = Connect | Disconnect | Plug | Start | Stop

  /** The status a route leaves behind, or None where it answers 400:
      plugging needs "reserved", starting needs "occupied"; connect,
      disconnect and stop apply whatever the current status. */
  function RouteStatus(route: Route, status: string): (r: Option<string>)
    ensures r.None? <==> (route == Plug && status != "reserved") || (route == Start && status != "occupied")
    ensures r.Some? && route in {Connect, Stop} ==> r.value == "available"
    ensures r.Some? && route == Disconnect ==> r.value == "unavailable"
    ensures r.Some? && route == Plug ==> r.value == "occupied"
    ensures r.Some? && route == Start ==> r.value == Charging
  {
    match route
    case Connect => Some("available")
    case Disconnect => Some("unavailable")
    case Plug => if status != "reserved" then None else Some("occupied")
    case Start => if status != "occupied" then None else Some(Charging)
    case Stop => Some("available")
  }

  lemma ChargingIsNotValid()
    ensures Charging !in ValidStatuses
  {
    assert Charging[0] != "occupied"[0] && Charging[0] != "reserved"[0];
  }

  lemma CapitalReservedIsNotValid()
    ensures ReservedCapital !in ValidStatuses
    ensures ReservedCapital != "reserved"
  {
    assert ReservedCapital[0] != "reserved"[0] && ReservedCapital[0] != "occupied"[0];
  }

  /** Of the status routes, only starting a charge leaves the listed
      statuses: every other route that succeeds from a listed status ends
      in a listed one. */
  lemma OnlyStartLeavesValidStatuses(route: Route, status: string)
    requires status in ValidStatuses
    requires RouteStatus(route, status).Some?
    ensures RouteStatus(route, status).value in ValidStatuses <==> route != Start
  {
    if route == Start {
      ChargingIsNotValid();
    }
  }

  /** The charge sequence the routes allow: plug a reserved station, start,
      stop. A station in any other status cannot be plugged, and a station
      that is charging can be neither plugged nor started again. */
  lemma ChargeSequence(status: string)
    ensures RouteStatus(Plug, status).Some? <==> status == "reserved"
    ensures RouteStatus(Plug, "reserved") == Some("occupied")
    ensures RouteStatus(Start, "occupied") == Some(Charging)
    ensures RouteStatus(Stop, Charging) == Some("available")
    ensures RouteStatus(Plug, Charging).None? && RouteStatus(Start, Charging).None?
  {
    assert Charging[0] != "reserved"[0] && Charging[0] != "occupied"[0];
  }

  /** A station that `create_reservation` marked "Reserved" cannot be
      plugged: the plug route compares with the lower-case "reserved". */
  lemma ReservedStationCannotBePlugged()
    ensures RouteStatus(Plug, ReservedCapital).None?
  {
    CapitalReservedIsNotValid();
  }

  /** `add_station` folds the letter case, `update_station_status` does
      not: every text whose lower-cased form is a listed status creates a
      station with that status, and the update accepts it exactly when it
      has no capital letter to fold. */
  lemma StatusCaseHandling(s: string)
    requires Lower(s) in ValidStatuses
    ensures NewStationStatus(Some(PyStr(s))) == Some(Lower(s))
    ensures StatusAccepted(PyStr(s)) <==> !HasCapital(s)
  {
    if s in ValidStatuses {
      ValidStatusesAreLower(s);
      assert !HasCapital(s);
    } else {
      assert Lower(s) != s;
    }
  }

  /** Some letter of `w` is an ASCII capital. */
  predicate HasCapital(w: string) {
    exists k :: 0 <= k < |w| && 'A' <= w[k] <= 'Z'
  }

  /** The listed statuses hold no capital letter, so lower-casing keeps
      them. */
  lemma ValidStatusesAreLower(s: string)
    requires s in ValidStatuses
    ensures Lower(s) == s
  {
    var i :| 0 <= i < |ValidStatuses| && ValidStatuses[i] == s;
    if i == 0 {
      LowerKeepsSmall("available");
    } else if i == 1 {
      LowerKeepsSmall("occupied");
    } else if i == 2 {
      LowerKeepsSmall("reserved");
    } else if i == 3 {
      LowerKeepsSmall("unavailable");
    } else {
      LowerKeepsSmall("faulted");
    }
  }

  /** Lower-casing a word without capital letters changes nothing. */
  lemma LowerKeepsSmall(w: string)
    requires forall k :: 0 <= k < |w| ==> 'a' <= w[k] <= 'z'
    ensures Lower(w) == w
  {
    assert forall k :: 0 <= k < |w| ==> Lower(w)[k] == LowerChar(w[k]);
  }

  /** The example of the two handlers: "AVAILABLE" creates an available
      station but is refused as an update. */
  lemma StatusCaseExample()
    ensures NewStationStatus(Some(PyStr("AVAILABLE"))) == Some("available")
    ensures !StatusAccepted(PyStr("AVAILABLE"))
  {
    LowerAvailable();
    UpperAvailableRefused();
  }

  lemma LowerAvailable()
    ensures Lower("AVAILABLE") == "available"
  {
    LowerUpperLetters("AVAILABLE", "available");
  }

  /** Lower-casing a word of capital letters gives the word whose letters
      are each 32 code points further on. */
  lemma LowerUpperLetters(up: string, low: string)
    requires |up| == |low|
    requires forall k :: 0 <= k < |up| ==> 'A' <= up[k] <= 'Z' && low[k] as int == up[k] as int + 32
    ensures Lower(up) == low
  {
    assert forall k :: 0 <= k < |up| ==> Lower(up)[k] == LowerChar(up[k]);
  }

  lemma UpperAvailableRefused()
    ensures "AVAILABLE" !in ValidStatuses
  {
    forall i | 0 <= i < |ValidStatuses|
      ensures ValidStatuses[i] != "AVAILABLE"
    {
      assert ValidStatuses[i][0] != 'A';
    }
  }

  // ---------------------------------------------------------------------
  // Charge time and range
  // ---------------------------------------------------------------------

  /** `calculate_charge_time`: minutes to go from `current` to `target`
      percent; 0 when the power is missing, 0 or negative. A target below
      the current charge gives a negative time. */
  function CalculateChargeTime(capacity: real, current: real, target: real, power: Option<real>): (minutes: real)
    ensures power.None? || power.value <= 0.0 ==> minutes == 0.0
    ensures power.Some? && power.value > 0.0 ==> minutes * power.value == (target - current) * capacity * 0.6
  {
    if power.None? || power.value == 0.0 || power.value <= 0.0 then 0.0
    else
      var energy := ((target - current) / 100.0) * capacity;
      var hours := energy / power.value;
      assert hours * power.value == energy;
      hours * 60.0
  }

  /** The default `efficiency_km_per_kwh`. */
  const DefaultEfficiency: real := 5.0

  /** `calculate_range`: kilometres the energy at `soc` percent lasts. */
  function CalculateRange(capacity: real, soc: real, efficiency: real): (km: real)
    ensures soc == 0.0 || capacity == 0.0 || efficiency == 0.0 ==> km == 0.0
    ensures soc == 100.0 ==> km == capacity * efficiency
  {
    (soc / 100.0) * capacity * efficiency
  }

  /** `is_station_reachable`, with the distance already computed. */
  predicate IsStationReachable(distance: real, capacity: real, soc: real, efficiency: real) {
    CalculateRange(capacity, soc, efficiency) >= distance
  }

  /** At the default efficiency of 5 km per kWh, a station is reachable
      exactly when it lies within a twentieth of soc times capacity, in km. */
  lemma DefaultReach(distance: real, capacity: real, soc: real)
    ensures IsStationReachable(distance, capacity, soc, DefaultEfficiency) <==> distance * 20.0 <= soc * capacity
  {
  }

  /** With a positive capacity and power, the charge time is positive
      exactly when the target is above the current charge, and zero exactly
      when they are equal. */
  lemma ChargeTimeSign(capacity: real, current: real, target: real, power: real)
    requires capacity > 0.0 && power > 0.0
    ensures CalculateChargeTime(capacity, current, target, Some(power)) > 0.0 <==> target > current
    ensures CalculateChargeTime(capacity, current, target, Some(power)) == 0.0 <==> target == current
  {
    var m := CalculateChargeTime(capacity, current, target, Some(power));
    var e := (target - current) * capacity * 0.6;
    assert m * power == e;
    assert e > 0.0 <==> target > current by {
      if target > current {
        assert (target - current) * capacity > 0.0;
      } else if target < current {
        assert (current - target) * capacity > 0.0;
      }
    }
    if m > 0.0 {
      assert m * power > 0.0;
    } else if m < 0.0 {
      assert (-m) * power > 0.0;
    }
  }

  /** Charging for the computed time at the given power adds exactly the
      range between the two charge levels. */
  lemma ChargeTimeAddsRange(capacity: real, current: real, target: real, power: real, efficiency: real)
    requires power > 0.0
    ensures CalculateRange(capacity, target, efficiency) - CalculateRange(capacity, current, efficiency) ==
            CalculateChargeTime(capacity, current, target, Some(power)) * power / 60.0 * efficiency
  {
    var m := CalculateChargeTime(capacity, current, target, Some(power));
    assert m * power / 60.0 == (target - current) / 100.0 * capacity;
    assert CalculateRange(capacity, target, efficiency) - CalculateRange(capacity, current, efficiency) ==
           ((target - current) / 100.0 * capacity) * efficiency;
  }

  /** More charge never makes a station unreachable. */
  lemma ReachableMonotonic(distance: real, capacity: real, low: real, high: real, efficiency: real)
    requires capacity >= 0.0 && efficiency >= 0.0 && low <= high
    requires IsStationReachable(distance, capacity, low, efficiency)
    ensures IsStationReachable(distance, capacity, high, efficiency)
  {
    var gain := ((high - low) / 100.0) * capacity;
    assert gain >= 0.0;
    assert gain * efficiency >= 0.0;
    assert CalculateRange(capacity, high, efficiency) - CalculateRange(capacity, low, efficiency) == gain * efficiency;
  }

  /** The charge time `create_reservation` and `estimate_reservation_time`
      compute inline; a power of 0 raises ZeroDivisionError there. */
  function ReservationMinutes(capacity: real, current: real, target: real, power: real): (minutes: real)
    requires power != 0.0
    ensures minutes * power == capacity * (target - current) * 0.6
  {
    var energy := capacity * ((target - current) / 100.0);
    var hours := energy / power;
    assert hours * power == energy;
    hours * 60.0
  }

  /** For a positive power the inline computation agrees with
      `calculate_charge_time`; for a negative one it does not clamp to 0. */
  lemma ReservationMinutesAgree(capacity: real, current: real, target: real, power: real)
    requires power != 0.0
    ensures power > 0.0 ==> ReservationMinutes(capacity, current, target, power) ==
                            CalculateChargeTime(capacity, current, target, Some(power))
    ensures power < 0.0 && capacity * (target - current) != 0.0 ==>
              ReservationMinutes(capacity, current, target, power) != CalculateChargeTime(capacity, current, target, Some(power))
  {
    var m := ReservationMinutes(capacity, current, target, power);
    if power > 0.0 {
      var c := CalculateChargeTime(capacity, current, target, Some(power));
      assert m * power == c * power;
      assert (m - c) * power == 0.0;
    } else if capacity * (target - current) != 0.0 {
      assert m * power != 0.0;
    }
  }

  // ---------------------------------------------------------------------
  // Vehicle updates
  // ---------------------------------------------------------------------

  /** What `float(value)` made of a request value: a number, or a text it
      refuses with ValueError. */
  datatype NumberInput = Number(x: real) | NotANumber

  /** The body of `PATCH /vehicles/<id>`; None is a missing key, and a
      present latitude or longitude may be null. */
  datatype VehicleUpdate = VehicleUpdate(
    latitude: Option<Option<real>>,
    longitude: Option<Option<real>>,
    currentSoc: Option<NumberInput>,
    batteryCapacity: Option<NumberInput>)

  predicate SocAccepted(n: NumberInput) {
    n.Number? && 0.0 <= n.x <= 100.0
  }

  predicate CapacityAccepted(n: NumberInput) {
    n.Number? && n.x > 0.0
  }

  /** The vehicle `update_vehicle_location` commits, or None where it
      answers 400 and commits nothing. */
  function UpdatedVehicle(v: Vehicle, u: VehicleUpdate): (r: Option<Vehicle>)
    ensures r.None? <==> (u.currentSoc.Some? && !SocAccepted(u.currentSoc.value)) ||
                         (u.batteryCapacity.Some? && !CapacityAccepted(u.batteryCapacity.value))
    ensures r.Some? ==> r.value.chargePower == v.chargePower
    ensures r.Some? ==> r.value.currentSoc == (if u.currentSoc.Some? then u.currentSoc.value.x else v.currentSoc)
    ensures r.Some? ==> r.value.batteryCapacity == (if u.batteryCapacity.Some? then u.batteryCapacity.value.x else v.batteryCapacity)
    ensures r.Some? && u.latitude.Some? && u.longitude.Some? ==>
              r.value.latitude == u.latitude.value && r.value.longitude == u.longitude.value
    ensures r.Some? && !(u.latitude.Some? && u.longitude.Some?) ==>
              r.value.latitude == v.latitude && r.value.longitude == v.longitude
  {
    var placed := if u.latitude.Some? && u.longitude.Some?
                  then v.(latitude := u.latitude.value, longitude := u.longitude.value)
                  else v;
    if u.currentSoc.Some? && !SocAccepted(u.currentSoc.value) then None
    else
      var charged := if u.currentSoc.Some? then placed.(currentSoc := u.currentSoc.value.x) else placed;
      if u.batteryCapacity.Some? && !CapacityAccepted(u.batteryCapacity.value) then None
      else Some(if u.batteryCapacity.Some? then charged.(batteryCapacity := u.batteryCapacity.value.x) else charged)
  }

  /** A vehicle whose charge is a percentage and whose capacity is
      positive. */
  predicate SaneVehicle(v: Vehicle) {
    0.0 <= v.currentSoc <= 100.0 && v.batteryCapacity > 0.0
  }

  /** An accepted update never makes a sane vehicle insane. */
  lemma UpdateKeepsSane(v: Vehicle, u: VehicleUpdate)
    requires SaneVehicle(v) && UpdatedVehicle(v, u).Some?
    ensures SaneVehicle(UpdatedVehicle(v, u).value)
  {
  }

  // ---------------------------------------------------------------------
  // Expired reservations
  // ---------------------------------------------------------------------

  datatype CleanupResult = CleanupResult(stations: map<nat, Station>, cleaned: seq<nat>)

  /** A reservation whose expected end lies before `now`. */
  predicate ExpiredAt(r: Reservation, now: real) {
    r.expectedEnd < now
  }

  /** The cleanup loop over `rs`: the station of each expired reservation
      becomes "available" and is listed, provided it exists and its status
      is one of `Cleanable`. */
  function Cleanup(stations: map<nat, Station>, rs: seq<Reservation>, now: real): CleanupResult
    decreases |rs|
  {
    if rs == [] then CleanupResult(stations, [])
    else
      var prev := Cleanup(stations, rs[..|rs| - 1], now);
      var r := rs[|rs| - 1];
      if ExpiredAt(r, now) && r.stationId in prev.stations && prev.stations[r.stationId].status in Cleanable
      then CleanupResult(prev.stations[r.stationId := prev.stations[r.stationId].(status := "available")],
                         prev.cleaned + [r.stationId])
      else prev
  }

  /** Some expired reservation in `rs` names station `id`. */
  predicate HasExpired(rs: seq<Reservation>, id: nat, now: real) {
    exists k :: 0 <= k < |rs| && rs[k].stationId == id && ExpiredAt(rs[k], now)
  }

  /** After the cleanup a station is "available" exactly when its status
      was cleanable and an expired reservation names it; every other station
      is as it was. No station is added or removed, and the ids listed are
      exactly the stations the sweep frees. */
  lemma {:induction false} CleanupSpec(stations: map<nat, Station>, rs: seq<Reservation>, now: real)
    ensures Cleanup(stations, rs, now).stations.Keys == stations.Keys
    ensures forall id :: id in stations ==>
              Cleanup(stations, rs, now).stations[id] ==
              (if stations[id].status in Cleanable && HasExpired(rs, id, now)
               then stations[id].(status := "available") else stations[id])
    ensures forall id :: id in Cleanup(stations, rs, now).cleaned ==>
              id in stations && stations[id].status in Cleanable && HasExpired(rs, id, now)
    ensures forall id :: id in stations && stations[id].status in Cleanable && HasExpired(rs, id, now) ==>
              id in Cleanup(stations, rs, now).cleaned
    decreases |rs|
  {
    if rs != [] {
      var prefix := rs[..|rs| - 1];
      var r := rs[|rs| - 1];
      CleanupSpec(stations, prefix, now);
      assert "available" in Cleanable;
      forall id
        ensures HasExpired(rs, id, now) <==> HasExpired(prefix, id, now) || (r.stationId == id && ExpiredAt(r, now))
      {
        if HasExpired(rs, id, now) {
          var k :| 0 <= k < |rs| && rs[k].stationId == id && ExpiredAt(rs[k], now);
          if k < |prefix| {
            assert prefix[k] == rs[k];
          }
        }
        if HasExpired(prefix, id, now) {
          var k :| 0 <= k < |prefix| && prefix[k].stationId == id && ExpiredAt(prefix[k], now);
          assert rs[k] == prefix[k];
        }
      }
    }
  }

  /** A station that `create_reservation` marked "Reserved" is never freed
      by the cleanup. */
  lemma CleanupSkipsCapitalReserved(stations: map<nat, Station>, rs: seq<Reservation>, now: real, id: nat)
    requires id in stations && stations[id].status == ReservedCapital
    ensures id in Cleanup(stations, rs, now).stations
    ensures Cleanup(stations, rs, now).stations[id] == stations[id]
  {
    CleanupSpec(stations, rs, now);
    assert ReservedCapital !in Cleanable by {
      assert ReservedCapital[0] != "reserved"[0] && ReservedCapital[0] != "occupied"[0];
    }
  }

  /** Running the cleanup a second time changes no station. */
  lemma CleanupIdempotent(stations: map<nat, Station>, rs: seq<Reservation>, now: real)
    ensures var once := Cleanup(stations, rs, now).stations;
            Cleanup(once, rs, now).stations == once
  {
    var once := Cleanup(stations, rs, now).stations;
    CleanupSpec(stations, rs, now);
    CleanupSpec(once, rs, now);
    assert "available" in Cleanable;
  }

  /** The statuses the cleanup writes are written statuses. */
  lemma CleanupKeepsWritten(stations: map<nat, Station>, rs: seq<Reservation>, now: real)
    requires forall id :: id in stations ==> WrittenStatus(stations[id].status)
    ensures var after := Cleanup(stations, rs, now).stations;
            forall id :: id in after ==> WrittenStatus(after[id].status)
  {
    CleanupSpec(stations, rs, now);
    assert "available" in ValidStatuses;
  }

  /** The cleanup writes only "available", so it disconnects no
      station. */
  lemma CleanupKeepsConnected(stations: map<nat, Station>, rs: seq<Reservation>, now: real)
    ensures ConnectedIds(stations) <= ConnectedIds(Cleanup(stations, rs, now).stations)
  {
    CleanupSpec(stations, rs, now);
    WrittenNotDisconnected("available");
  }

  // ---------------------------------------------------------------------
  // Summary
  // ---------------------------------------------------------------------

  /** The stations `station_summary` counts as connected: those whose
      status is not "Disconnected". */
  function ConnectedIds(stations: map<nat, Station>): (ids: set<nat>)
    ensures ids <= stations.Keys
  {
    set id | id in stations && stations[id].status != Disconnected
  }

  /** `station_summary`'s "connected" count. */
  function ConnectedCount(stations: map<nat, Station>): (n: nat)
    ensures n <= |stations|
  {
    SubsetCardinality(ConnectedIds(stations), stations.Keys);
    |ConnectedIds(stations)|
  }

  lemma SubsetCardinality(a: set<nat>, b: set<nat>)
    requires a <= b
    ensures |a| <= |b|
  {
    assert b == a + (b - a);
  }

  /** The stations still in the status the seed data gives them. */
  function DisconnectedIds(stations: map<nat, Station>): (ids: set<nat>)
    ensures ids <= stations.Keys
  {
    set id | id in stations && stations[id].status == Disconnected
  }

  /** The summary's "connected" is the total less the stations still
      "Disconnected": all of them right after seeding, none once each has
      been through a route or an update. */
  lemma SummaryCounts(stations: map<nat, Station>)
    ensures ConnectedCount(stations) == |stations| - |DisconnectedIds(stations)|
  {
    var c := ConnectedIds(stations);
    var d := DisconnectedIds(stations);
    assert stations.Keys == c + d;
    assert c * d == {};
  }

  /** The statuses the handlers write are never "Disconnected". */
  lemma WrittenNotDisconnected(s: string)
    requires s in ValidStatuses || s == Charging || s == ReservedCapital
    ensures s != Disconnected
  {
    assert |Disconnected| == 12;
  }

  /** Writing a status other than "Disconnected" into one station keeps
      every connected station connected. */
  lemma WriteKeepsConnected(stations: map<nat, Station>, id: nat, s: string)
    requires id in stations && s != Disconnected
    ensures ConnectedIds(stations) <= ConnectedIds(stations[id := stations[id].(status := s)])
  {
  }

  /** A connected count never drops while the connected stations only
      grow. */
  lemma ConnectedCountGrows(before: map<nat, Station>, after: map<nat, Station>)
    requires ConnectedIds(before) <= ConnectedIds(after)
    ensures ConnectedCount(before) <= ConnectedCount(after)
  {
    SubsetCardinality(ConnectedIds(before), ConnectedIds(after));
  }

  // ---------------------------------------------------------------------
  // The tables and their handlers
  // ---------------------------------------------------------------------

  /** No two reservations share an id, as the table's primary key
      guarantees. */
  predicate DistinctReservationIds(rs: seq<Reservation>) {
    forall i, j :: 0 <= i < j < |rs| ==> rs[i].id != rs[j].id
  }

  /** The body of `POST /reservations`; None is a missing or null key. */
  datatype ReservationForm = ReservationForm(
    userId: Option<nat>,
    stationId: Option<nat>,
    vehicleId: Option<nat>,
    currentPercent: Option<real>,
    targetPercent: Option<real>)

  predicate Complete(f: ReservationForm) {
    f.userId.Some? && f.stationId.Some? && f.vehicleId.Some? && f.currentPercent.Some? && f.targetPercent.Some?
  }

  /** What `estimate_reservation_time` answers. */
  datatype Estimate = Estimate(reservable: bool, minutes: real, stationStatus: string) | EstimateError(code: int)

  /** The percentages `estimate_reservation_time` uses when the query
      leaves them out. */
  const DefaultCurrentPercent: real := 20.0
  const DefaultTargetPercent: real := 80.0

  /** `float(request.args.get(key, default))`: the default when the
      argument is missing, None where `float()` raises ValueError. */
  function QueryPercent(arg: Option<NumberInput>, default: real): (r: Option<real>)
    ensures arg.None? ==> r == Some(default)
    ensures arg.Some? ==> (r.None? <==> arg.value.NotANumber?)
    ensures arg.Some? && arg.value.Number? ==> r == Some(arg.value.x)
  {
    match arg
    case None => Some(default)
    case Some(Number(x)) => Some(x)
    case Some(NotANumber) => None
  }

  /** One entry of the seed data: a station's name and coordinates. */
  datatype SeedStation = SeedStation(name: string, latitude: real, longitude: real)

  /** The stations `seed_charging_stations` adds to an empty table. */
  const SeedStations: seq<SeedStation> := [
    SeedStation("Espark", 39.782440, 30.510626),
    SeedStation("Eskişehir Tren İstasyonu", 39.779302, 30.507559),
    SeedStation("Eskişehir Odunpazarı Evleri", 39.763709, 30.525812),
    SeedStation("Eskişehir Sazova Parkı", 39.762142, 30.475369),
    SeedStation("Eskişehir Osmangazi Üniversitesi", 39.750579, 30.477609),
    SeedStation("Anadolu Üniversitesi", 39.789803, 30.500149),
    SeedStation("Kentpark AVM", 39.7791, 30.5147),
    SeedStation("Cassaba Modern", 39.769446, 30.496591),
    SeedStation("Toyota Plaza Sara", 39.764233, 30.557210),
    SeedStation("Şelale Park", 39.756218, 30.532072)
  ]

  /** The row the seed data makes of an entry. */
  function SeededStation(e: SeedStation): Station {
    Station(e.name, e.latitude, e.longitude, Disconnected)
  }

  class Database {
    var stations: map<nat, Station>
    var vehicles: map<nat, Vehicle>
    var reservations: seq<Reservation>

    /** Every station holds a status the seed data or a handler writes. */
    predicate Valid()
      reads this`stations
    {
      forall id :: id in stations ==> WrittenStatus(stations[id].status)
    }

    /** `db.create_all()` on a fresh database. */
    constructor ()
      ensures stations == map[] && vehicles == map[] && reservations == []
      ensures Valid()
    {
      stations := map[];
      vehicles := map[];
      reservations := [];
    }

    /** `seed_charging_stations`, run at start-up: a table that already
        holds a station is left alone; an empty one receives every seed
        entry, "Disconnected", under the ids `ids` the database assigns in
        order. */
    method SeedChargingStations(ids: seq<nat>)
      requires |ids| == |SeedStations|
      requires forall i, j :: 0 <= i < j < |ids| ==> ids[i] != ids[j]
      modifies this`stations
      ensures old(stations) != map[] ==> stations == old(stations)
      ensures old(stations) == map[] ==> stations.Keys == set i | 0 <= i < |ids| :: ids[i]
      ensures old(stations) == map[] ==>
                forall i :: 0 <= i < |ids| ==> stations[ids[i]] == SeededStation(SeedStations[i])
      ensures old(stations) == map[] ==> ConnectedIds(stations) == {}
      ensures old(Valid()) ==> Valid()
    {
      if stations != map[] {
        return;
      }
      var i := 0;
      while i < |ids|
        invariant 0 <= i <= |ids|
        invariant stations.Keys == set k | 0 <= k < i :: ids[k]
        invariant forall k :: 0 <= k < i ==> stations[ids[k]] == SeededStation(SeedStations[k])
        invariant forall id :: id in stations ==> stations[id].status == Disconnected
      {
        stations := stations[ids[i] := SeededStation(SeedStations[i])];
        i := i + 1;
      }
    }

    /** `update_station_status`: the status is checked before the station
        is looked up. */
    method UpdateStationStatus(stationId: nat, newStatus: PyValue) returns (code: int)
      modifies this`stations
      ensures old(Valid()) ==> Valid()
      ensures ConnectedIds(old(stations)) <= ConnectedIds(stations)
      ensures !StatusAccepted(newStatus) ==> code == BadRequest && stations == old(stations)
      ensures StatusAccepted(newStatus) && stationId !in old(stations) ==> code == NotFound && stations == old(stations)
      ensures StatusAccepted(newStatus) && stationId in old(stations) ==>
                code == Ok && stations == old(stations)[stationId := old(stations)[stationId].(status := newStatus.s)]
    {
      if !StatusAccepted(newStatus) {
        return BadRequest;
      }
      if stationId !in stations {
        return NotFound;
      }
      WrittenNotDisconnected(newStatus.s);
      WriteKeepsConnected(stations, stationId, newStatus.s);
      stations := stations[stationId := stations[stationId].(status := newStatus.s)];
      code := Ok;
    }

    /** `add_station` under the fresh id the database assigns. A status
        that is not a string raises on `.lower()`; a missing name or
        coordinate fails the NOT NULL constraint at the commit. */
    method AddStation(stationId: nat, name: Option<string>, latitude: Option<real>, longitude: Option<real>,
                      status: Option<PyValue>) returns (code: int)
      requires stationId !in stations
      modifies this`stations
      ensures old(Valid()) ==> Valid()
      ensures ConnectedIds(old(stations)) <= ConnectedIds(stations)
      ensures NewStationStatus(status).None? ==> code == ServerError && stations == old(stations)
      ensures NewStationStatus(status).Some? && NewStationStatus(status).value !in ValidStatuses ==>
                code == BadRequest && stations == old(stations)
      ensures NewStationStatus(status).Some? && NewStationStatus(status).value in ValidStatuses &&
              (name.None? || latitude.None? || longitude.None?) ==>
                code == ServerError && stations == old(stations)
      ensures NewStationStatus(status).Some? && NewStationStatus(status).value in ValidStatuses &&
              name.Some? && latitude.Some? && longitude.Some? ==>
                code == Created &&
                stations == old(stations)[stationId := Station(name.value, latitude.value, longitude.value,
                                                               NewStationStatus(status).value)]
    {
      var lowered := NewStationStatus(status);
      if lowered.None? {
        return ServerError;
      }
      if lowered.value !in ValidStatuses {
        return BadRequest;
      }
      if name.None? || latitude.None? || longitude.None? {
        return ServerError;
      }
      stations := stations[stationId := Station(name.value, latitude.value, longitude.value, lowered.value)];
      code := Created;
    }

    /** `connect_station`, `disconnect_station`, `plug_station`,
        `start_charging` and `stop_charging`. */
    method ApplyRoute(route: Route, stationId: nat) returns (code: int)
      modifies this`stations
      ensures old(Valid()) ==> Valid()
      ensures ConnectedIds(old(stations)) <= ConnectedIds(stations)
      ensures stationId !in old(stations) ==> code == NotFound && stations == old(stations)
      ensures stationId in old(stations) && RouteStatus(route, old(stations)[stationId].status).None? ==>
                code == BadRequest && stations == old(stations)
      ensures stationId in old(stations) && RouteStatus(route, old(stations)[stationId].status).Some? ==>
                code == Ok &&
                stations == old(stations)[stationId := old(stations)[stationId].(status := RouteStatus(route, old(stations)[stationId].status).value)]
    {
      if stationId !in stations {
        return NotFound;
      }
      var next := RouteStatus(route, stations[stationId].status);
      if next.None? {
        return BadRequest;
      }
      WrittenNotDisconnected(next.value);
      WriteKeepsConnected(stations, stationId, next.value);
      stations := stations[stationId := stations[stationId].(status := next.value)];
      code := Ok;
    }

    /** `create_reservation` under the fresh id the database assigns, at
        clock reading `now`: a missing field answers 400, a missing vehicle
        or station 404, a vehicle with power 0 raises; otherwise the
        reservation is stored and the station is marked "Reserved". */
    method CreateReservation(reservationId: nat, form: ReservationForm, now: real) returns (code: int)
      requires forall k :: 0 <= k < |reservations| ==> reservations[k].id != reservationId
      modifies this`stations, this`reservations
      ensures old(Valid()) ==> Valid()
      ensures old(DistinctReservationIds(reservations)) ==> DistinctReservationIds(reservations)
      ensures ConnectedIds(old(stations)) <= ConnectedIds(stations)
      ensures code != Created ==> stations == old(stations) && reservations == old(reservations)
      ensures !Complete(form) ==> code == BadRequest
      ensures Complete(form) && form.vehicleId.value !in vehicles ==> code == NotFound
      ensures Complete(form) && form.vehicleId.value in vehicles && vehicles[form.vehicleId.value].chargePower == 0.0 ==>
                code == ServerError
      ensures Complete(form) && form.vehicleId.value in vehicles && vehicles[form.vehicleId.value].chargePower != 0.0 ==>
                if form.stationId.value !in old(stations) then code == NotFound
                else
                  var v := vehicles[form.vehicleId.value];
                  var minutes := ReservationMinutes(v.batteryCapacity, form.currentPercent.value, form.targetPercent.value, v.chargePower);
                  code == Created &&
                  stations == old(stations)[form.stationId.value := old(stations)[form.stationId.value].(status := ReservedCapital)] &&
                  reservations == old(reservations) + [Reservation(reservationId, form.userId.value, form.stationId.value,
                                                                   form.vehicleId.value, form.currentPercent.value,
                                                                   form.targetPercent.value, minutes, now, now + minutes * 60.0)]
    {
      if !Complete(form) {
        return BadRequest;
      }
      if form.vehicleId.value !in vehicles {
        return NotFound;
      }
      var v := vehicles[form.vehicleId.value];
      if v.chargePower == 0.0 {
        return ServerError;
      }
      var minutes := ReservationMinutes(v.batteryCapacity, form.currentPercent.value, form.targetPercent.value, v.chargePower);
      var stationId := form.stationId.value;
      if stationId !in stations {
        return NotFound;
      }
      WrittenNotDisconnected(ReservedCapital);
      WriteKeepsConnected(stations, stationId, ReservedCapital);
      reservations := reservations + [Reservation(reservationId, form.userId.value, stationId, form.vehicleId.value,
                                                  form.currentPercent.value, form.targetPercent.value,
                                                  minutes, now, now + minutes * 60.0)];
      stations := stations[stationId := stations[stationId].(status := ReservedCapital)];
      code := Created;
    }

    /** The timer callback `create_reservation` schedules: a station that
        is still there and not "available" becomes "available". */
    method ReleaseStation(stationId: nat)
      modifies this`stations
      ensures old(Valid()) ==> Valid()
      ensures ConnectedIds(old(stations)) <= ConnectedIds(stations)
      ensures stationId in old(stations) && old(stations)[stationId].status != "available" ==>
                stations == old(stations)[stationId := old(stations)[stationId].(status := "available")]
      ensures !(stationId in old(stations) && old(stations)[stationId].status != "available") ==>
                stations == old(stations)
    {
      if stationId in stations && stations[stationId].status != "available" {
        WrittenNotDisconnected("available");
        WriteKeepsConnected(stations, stationId, "available");
        stations := stations[stationId := stations[stationId].(status := "available")];
      }
    }

    /** `cancel_reservation`: the first reservation with that id is
        removed and its station, when it still exists, becomes
        "available". */
    method CancelReservation(reservationId: nat) returns (code: int)
      modifies this`stations, this`reservations
      ensures old(Valid()) ==> Valid()
      ensures old(DistinctReservationIds(reservations)) ==> DistinctReservationIds(reservations)
      ensures old(DistinctReservationIds(reservations)) ==>
                forall k :: 0 <= k < |reservations| ==> reservations[k].id != reservationId
      ensures ConnectedIds(old(stations)) <= ConnectedIds(stations)
      ensures (forall k :: 0 <= k < |old(reservations)| ==> old(reservations)[k].id != reservationId) ==>
                code == NotFound && stations == old(stations) && reservations == old(reservations)
      ensures forall i :: 0 <= i < |old(reservations)| && old(reservations)[i].id == reservationId &&
                          (forall k :: 0 <= k < i ==> old(reservations)[k].id != reservationId) ==>
                code == Ok &&
                reservations == old(reservations)[..i] + old(reservations)[i + 1..] &&
                var sid := old(reservations)[i].stationId;
                stations == if sid in old(stations) then old(stations)[sid := old(stations)[sid].(status := "available")]
                            else old(stations)
    {
      var i := 0;
      while i < |reservations| && reservations[i].id != reservationId
        invariant 0 <= i <= |reservations|
        invariant forall k :: 0 <= k < i ==> reservations[k].id != reservationId
      {
        i := i + 1;
      }
      if i == |reservations| {
        return NotFound;
      }
      var sid := reservations[i].stationId;
      reservations := reservations[..i] + reservations[i + 1..];
      if sid in stations {
        WrittenNotDisconnected("available");
        WriteKeepsConnected(stations, sid, "available");
        stations := stations[sid := stations[sid].(status := "available")];
      }
      code := Ok;
    }

    /** `cleanup_expired_reservations` at clock reading `now`: returns the
        ids of the stations it freed, in the order of the reservations,
        and deletes no reservation. */
    method CleanupExpiredReservations(now: real) returns (cleaned: seq<nat>)
      modifies this`stations
      ensures old(Valid()) ==> Valid()
      ensures ConnectedIds(old(stations)) <= ConnectedIds(stations)
      ensures stations == Cleanup(old(stations), reservations, now).stations
      ensures cleaned == Cleanup(old(stations), reservations, now).cleaned
    {
      var rs := reservations;
      ghost var start := stations;
      cleaned := [];
      var i := 0;
      while i < |rs|
        invariant 0 <= i <= |rs|
        invariant Cleanup(start, rs[..i], now) == CleanupResult(stations, cleaned)
      {
        assert rs[..i + 1][..i] == rs[..i];
        var r := rs[i];
        if r.expectedEnd < now && r.stationId in stations && stations[r.stationId].status in Cleanable {
          stations := stations[r.stationId := stations[r.stationId].(status := "available")];
          cleaned := cleaned + [r.stationId];
        }
        i := i + 1;
      }
      assert rs[..i] == rs;
      CleanupKeepsConnected(start, rs, now);
      if old(Valid()) {
        CleanupKeepsWritten(start, rs, now);
      }
    }

    /** `update_vehicle_location`: a missing vehicle answers 404, a
        rejected charge or capacity 400, and only an accepted update is
        committed. */
    method UpdateVehicleLocation(vehicleId: nat, u: VehicleUpdate) returns (code: int)
      modifies this`vehicles
      ensures vehicleId !in old(vehicles) ==> code == NotFound && vehicles == old(vehicles)
      ensures vehicleId in old(vehicles) && UpdatedVehicle(old(vehicles)[vehicleId], u).None? ==>
                code == BadRequest && vehicles == old(vehicles)
      ensures vehicleId in old(vehicles) && UpdatedVehicle(old(vehicles)[vehicleId], u).Some? ==>
                code == Ok && vehicles == old(vehicles)[vehicleId := UpdatedVehicle(old(vehicles)[vehicleId], u).value]
    {
      if vehicleId !in vehicles {
        return NotFound;
      }
      var updated := UpdatedVehicle(vehicles[vehicleId], u);
      if updated.None? {
        return BadRequest;
      }
      vehicles := vehicles[vehicleId := updated.value];
      code := Ok;
    }

    /** `estimate_reservation_time`: both percentages are converted before
        the ids are checked; the estimate is reservable exactly when the
        status is the lower-case "available". */
    function EstimateReservationTime(stationId: Option<nat>, vehicleId: Option<nat>,
                                     currentArg: Option<NumberInput>, targetArg: Option<NumberInput>): (r: Estimate)
      reads this`stations, this`vehicles
      ensures QueryPercent(currentArg, DefaultCurrentPercent).None? || QueryPercent(targetArg, DefaultTargetPercent).None? ==>
                r == EstimateError(ServerError)
      ensures QueryPercent(currentArg, DefaultCurrentPercent).Some? && QueryPercent(targetArg, DefaultTargetPercent).Some? ==>
                if stationId.None? || vehicleId.None? then r == EstimateError(BadRequest)
                else if vehicleId.value !in vehicles || stationId.value !in stations then r == EstimateError(NotFound)
                else r.Estimate? <==> vehicles[vehicleId.value].chargePower != 0.0
      ensures r.EstimateError? ==> r.code in {BadRequest, NotFound, ServerError}
      ensures r.Estimate? ==> stationId.Some? && stationId.value in stations &&
                              r.stationStatus == stations[stationId.value].status &&
                              (r.reservable <==> r.stationStatus == "available")
      ensures r.Estimate? ==> vehicleId.Some? && vehicleId.value in vehicles &&
                              QueryPercent(currentArg, DefaultCurrentPercent).Some? &&
                              QueryPercent(targetArg, DefaultTargetPercent).Some? &&
                              var v := vehicles[vehicleId.value];
                              var current := QueryPercent(currentArg, DefaultCurrentPercent).value;
                              var target := QueryPercent(targetArg, DefaultTargetPercent).value;
                              r.minutes * v.chargePower == v.batteryCapacity * (target - current) * 0.6
    {
      var current := QueryPercent(currentArg, DefaultCurrentPercent);
      var target := QueryPercent(targetArg, DefaultTargetPercent);
      if current.None? || target.None? then EstimateError(ServerError)
      else if stationId.None? || vehicleId.None? then EstimateError(BadRequest)
      else if vehicleId.value !in vehicles || stationId.value !in stations then EstimateError(NotFound)
      else
        var v := vehicles[vehicleId.value];
        var status := stations[stationId.value].status;
        if v.chargePower == 0.0 then EstimateError(ServerError)
        else Estimate(status == "available", ReservationMinutes(v.batteryCapacity, current.value, target.value, v.chargePower), status)
    }
  }
}

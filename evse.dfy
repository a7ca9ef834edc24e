/** The EVSE record (VOLTRIX/app/backend/models/evse.py): a connector with an
    OCPP 2.0.1 connector status and the EV and times of its current session. */
module EvseModel {
  import opened Common

  /** OCPP 2.0.1 ConnectorStatusEnumType. */
  datatype ConnectorStatus = Available | Occupied | Reserved | Unavailable | Faulted

  /** The enum's string value, as sent on the wire and reported by `to_dict`. */
  function StatusValue(s: ConnectorStatus): string {
    match s
    case Available => "Available"
    case Occupied => "Occupied"
    case Reserved => "Reserved"
    case Unavailable => "Unavailable"
    case Faulted => "Faulted"
  }

  /** `ConnectorStatusEnumType(value)`: exact, case-sensitive lookup by value;
      None stands for the ValueError raised on any other string. */
  function ParseStatus(v: string): (r: Option<ConnectorStatus>)
    ensures r.Some? ==> StatusValue(r.value) == v
    ensures r.None? ==> forall s: ConnectorStatus :: StatusValue(s) != v
  {
    if v == "Available" then Some(Available)
    else if v == "Occupied" then Some(Occupied)
    else if v == "Reserved" then Some(Reserved)
    else if v == "Unavailable" then Some(Unavailable)
    else if v == "Faulted" then Some(Faulted)
    else None
  }

  /** Every status survives the trip through its string value. */
  lemma StatusValueRoundTrip(s: ConnectorStatus)
    ensures ParseStatus(StatusValue(s)) == Some(s)
  {
  }

  predicate IsAvailableStatus(s: ConnectorStatus) {
    s == Available
  }

  /** `is_busy`: occupied or reserved; never together with `is_available`. */
  predicate IsBusyStatus(s: ConnectorStatus): (r: bool)
    ensures r ==> !IsAvailableStatus(s)
    ensures r <==> s in {Occupied, Reserved}
  {
    s == Occupied || s == Reserved
  }

  /** The dictionary `to_dict` returns. */
  datatype EvseDict = EvseDict(
    id: int, name: string, brand: string, model: string, vendor: string,
    latitude: real, longitude: real, maxPowerKW: real,
    status: string, currentEvId: Option<string>,
    chargingStartTime: Option<string>, estimatedFinishTime: Option<string>)

  /** The mutable part of an EVSE, as a value. */
  datatype EvseView = EvseView(
    id: int, name: string, maxPowerKW: real,
    status: ConnectorStatus, currentEvId: Option<string>,
    chargingStartTime: Option<Timestamp>, estimatedFinishTime: Option<Timestamp>)

  /** `str(t) if t else None`: a datetime is always truthy. */
  function TimeText(t: Option<Timestamp>): (r: Option<string>)
    ensures r.None? <==> t.None?
  {
    match t
    case None => None
    case Some(v) => Some(v)
  }

  class Evse {
    const id: int
    const name: string
    const brand: string
    const model: string
    const vendor: string
    const latitude: real
    const longitude: real
    const maxPowerKW: real
    var status: ConnectorStatus
    var currentEvId: Option<string>
    var chargingStartTime: Option<Timestamp>
    var estimatedFinishTime: Option<Timestamp>

    /** Pydantic validation: `max_power_kW` must be positive. */
    constructor (id: int, name: string, brand: string, model: string, vendor: string,
                 latitude: real, longitude: real, maxPowerKW: real, status: ConnectorStatus)
      requires maxPowerKW > 0.0
      ensures this.id == id && this.name == name && this.brand == brand
      ensures this.model == model && this.vendor == vendor
      ensures this.latitude == latitude && this.longitude == longitude
      ensures this.maxPowerKW == maxPowerKW && this.status == status
      ensures currentEvId == None && chargingStartTime == None && estimatedFinishTime == None
    {
      this.id := id;
      this.name := name;
      this.brand := brand;
      this.model := model;
      this.vendor := vendor;
      this.latitude := latitude;
      this.longitude := longitude;
      this.maxPowerKW := maxPowerKW;
      this.status := status;
      currentEvId := None;
      chargingStartTime := None;
      estimatedFinishTime := None;
    }

    function View(): EvseView
      reads this
    {
      EvseView(id, name, maxPowerKW, status, currentEvId, chargingStartTime, estimatedFinishTime)
    }

    predicate IsAvailable()
      reads this
    {
      IsAvailableStatus(status)
    }

    predicate IsBusy()
      reads this
    {
      IsBusyStatus(status)
    }

    method Reserve(evId: Option<string>)
      modifies this
      ensures View() == ReserveView(old(View()), evId)
    {
      status := Reserved;
      currentEvId := evId;
    }

    method StartCharging(now: Timestamp)
      modifies this
      ensures View() == StartChargingView(old(View()), now)
    {
      status := Occupied;
      chargingStartTime := Some(now);
    }

    method StopCharging()
      modifies this
      ensures View() == StopChargingView(old(View()))
    {
      status := Available;
      currentEvId := None;
      chargingStartTime := None;
      estimatedFinishTime := None;
    }

    function ToDict(): (d: EvseDict)
      reads this
      ensures ParseStatus(d.status) == Some(status)
      ensures d.chargingStartTime.None? <==> chargingStartTime.None?
      ensures d.estimatedFinishTime.None? <==> estimatedFinishTime.None?
      ensures d.id == id && d.currentEvId == currentEvId && d.maxPowerKW == maxPowerKW
    {
      StatusValueRoundTrip(status);
      EvseDict(id, name, brand, model, vendor, latitude, longitude, maxPowerKW,
               StatusValue(status), currentEvId,
               TimeText(chargingStartTime), TimeText(estimatedFinishTime))
    }
  }

  /** `reserve(ev_id)`: reserved, with the EV recorded; times untouched. */
  function ReserveView(v: EvseView, evId: Option<string>): (r: EvseView)
    ensures r.status == Reserved && r.currentEvId == evId
    ensures r.chargingStartTime == v.chargingStartTime && r.estimatedFinishTime == v.estimatedFinishTime
    ensures r.id == v.id && r.name == v.name && r.maxPowerKW == v.maxPowerKW
  {
    v.(status := Reserved, currentEvId := evId)
  }

  /** `start_charging`: occupied from `now`; the EV and the finish time are kept. */
  function StartChargingView(v: EvseView, now: Timestamp): (r: EvseView)
    ensures r.status == Occupied && r.chargingStartTime == Some(now)
    ensures r.currentEvId == v.currentEvId && r.estimatedFinishTime == v.estimatedFinishTime
    ensures r.id == v.id && r.name == v.name && r.maxPowerKW == v.maxPowerKW
  {
    v.(status := Occupied, chargingStartTime := Some(now))
  }

  /** `stop_charging`: available, with the session cleared. */
  function StopChargingView(v: EvseView): (r: EvseView)
    ensures r.status == Available && r.currentEvId == None
    ensures r.chargingStartTime == None && r.estimatedFinishTime == None
    ensures r.id == v.id && r.name == v.name && r.maxPowerKW == v.maxPowerKW
  {
    v.(status := Available, currentEvId := None, chargingStartTime := None, estimatedFinishTime := None)
  }

  /** After `stop_charging` the EVSE is available and not busy, whatever its
      state before. */
  lemma StopMakesAvailable(v: EvseView)
    ensures IsAvailableStatus(StopChargingView(v).status)
    ensures !IsBusyStatus(StopChargingView(v).status)
  {
  }

  /** A reserved or charging EVSE is busy; stopping it frees it, and the
      session can then start again from a reservation. */
  lemma SessionCycle(v: EvseView, evId: Option<string>, now: Timestamp)
    ensures IsBusyStatus(ReserveView(v, evId).status)
    ensures IsBusyStatus(StartChargingView(ReserveView(v, evId), now).status)
    ensures StartChargingView(ReserveView(v, evId), now).currentEvId == evId
    ensures StopChargingView(StartChargingView(ReserveView(v, evId), now))
            == StopChargingView(v)
  {
  }

  /** The views of a list of EVSEs, element by element. */
  function Views(es: seq<Evse>): (r: seq<EvseView>)
    reads es
    ensures |r| == |es|
    ensures forall i :: 0 <= i < |es| ==> r[i] == es[i].View()
  {
    if es == [] then [] else [es[0].View()] + Views(es[1..])
  }
}

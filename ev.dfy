/** The EV record (VOLTRIX-CSMS-git/app/backend/models/ev.py): a battery with
    a current and a target state of charge, and the EVSE it is bound to. */
module EvModel {
  import opened Common

  /** What `connected_evse_id` holds. The REST handlers store the EVSE's
      name there, the Central System's TransactionEvent handler its integer
      id; both are kept apart here so that a comparison between the two
      (which is always false in Python) stays visible. */
  datatype EvseLink = ByName(name: string) | ById(id: int)

  /** `get_required_energy_kWh`: the energy still missing to reach the target. */
  function RequiredEnergy(currentSoc: real, targetSoc: real, capacity: real): (r: real)
    ensures currentSoc >= targetSoc ==> r == 0.0
    ensures currentSoc < targetSoc ==> r == (targetSoc - currentSoc) / 100.0 * capacity
    ensures capacity >= 0.0 ==> r >= 0.0
  {
    var deltaPercent := if targetSoc - currentSoc > 0.0 then targetSoc - currentSoc else 0.0;
    deltaPercent / 100.0 * capacity
  }

  /** The range reached at `soc` percent: `soc/100 * capacity / consumption`.
      None is the ZeroDivisionError raised when the consumption is 0, which
      the source does not guard against. */
  function RangeAt(soc: real, capacity: real, consumption: real): (r: Option<real>)
    ensures r.None? <==> consumption == 0.0
    ensures r.Some? ==> r.value * consumption == soc / 100.0 * capacity
  {
    if consumption == 0.0 then None else Some(soc / 100.0 * capacity / consumption)
  }

  /** Charging further never shortens the range. */
  lemma RangeMonotonic(lowSoc: real, highSoc: real, capacity: real, consumption: real)
    requires capacity > 0.0 && consumption > 0.0 && lowSoc <= highSoc
    ensures RangeAt(lowSoc, capacity, consumption).value <= RangeAt(highSoc, capacity, consumption).value
  {
    var lo := lowSoc / 100.0 * capacity;
    var hi := highSoc / 100.0 * capacity;
    assert lo <= hi by {
      assert hi - lo == (highSoc - lowSoc) / 100.0 * capacity;
    }
    assert lo / consumption <= hi / consumption by {
      assert hi / consumption - lo / consumption == (hi - lo) / consumption;
    }
  }

  /** The dictionary `to_dict` returns. */
  datatype EvDict = EvDict(
    id: string, brand: string, model: string,
    batteryCapacityKWh: real, consumptionKWhPerKm: real,
    currentSoc: real, targetSoc: real, locationLat: real, locationLong: real,
    connectedEvseId: Option<EvseLink>,
    estimatedRangeKm: real, requiredEnergyKWh: real)

  /** The mutable part of an EV, as a value. */
  datatype EvView = EvView(id: string, currentSoc: real, targetSoc: real, connectedEvseId: Option<EvseLink>)

  class Ev {
    const id: string
    const brand: string
    const model: string
    const batteryCapacityKWh: real
    const consumptionKWhPerKm: real
    var currentSoc: real
    var targetSoc: real
    var locationLat: real
    var locationLong: real
    var connectedEvseId: Option<EvseLink>

    constructor (id: string, brand: string, model: string, capacity: real, consumption: real,
                 currentSoc: real, targetSoc: real, lat: real, long: real)
      ensures this.id == id && this.brand == brand && this.model == model
      ensures batteryCapacityKWh == capacity && consumptionKWhPerKm == consumption
      ensures this.currentSoc == currentSoc && this.targetSoc == targetSoc
      ensures locationLat == lat && locationLong == long && connectedEvseId == None
    {
      this.id := id;
      this.brand := brand;
      this.model := model;
      batteryCapacityKWh := capacity;
      consumptionKWhPerKm := consumption;
      this.currentSoc := currentSoc;
      this.targetSoc := targetSoc;
      locationLat := lat;
      locationLong := long;
      connectedEvseId := None;
    }

    function View(): EvView
      reads this
    {
      EvView(id, currentSoc, targetSoc, connectedEvseId)
    }

    function RequiredEnergyKWh(): real
      reads this
    {
      RequiredEnergy(currentSoc, targetSoc, batteryCapacityKWh)
    }

    function EstimatedRangeKm(): Option<real>
      reads this
    {
      RangeAt(currentSoc, batteryCapacityKWh, consumptionKWhPerKm)
    }

    function TargetRangeKm(): Option<real>
      reads this
    {
      RangeAt(targetSoc, batteryCapacityKWh, consumptionKWhPerKm)
    }

    /** `to_dict`; it raises exactly when the range does. */
    function ToDict(): (r: Option<EvDict>)
      reads this
      ensures r.None? <==> consumptionKWhPerKm == 0.0
      ensures r.Some? ==> Some(r.value.estimatedRangeKm) == EstimatedRangeKm()
      ensures r.Some? ==> r.value.requiredEnergyKWh == RequiredEnergyKWh()
      ensures r.Some? ==> r.value.id == id && r.value.connectedEvseId == connectedEvseId
    {
      match EstimatedRangeKm()
      case None => None
      case Some(range) =>
        Some(EvDict(id, brand, model, batteryCapacityKWh, consumptionKWhPerKm,
                    currentSoc, targetSoc, locationLat, locationLong, connectedEvseId,
                    range, RequiredEnergyKWh()))
    }
  }

  /** With a positive battery and consumption, the target range is never
      below the current one once the target is at or above the current SOC. */
  lemma TargetRangeCoversEstimated(ev: Ev)
    requires ev.batteryCapacityKWh > 0.0 && ev.consumptionKWhPerKm > 0.0
    requires ev.targetSoc >= ev.currentSoc
    ensures ev.EstimatedRangeKm().value <= ev.TargetRangeKm().value
  {
    RangeMonotonic(ev.currentSoc, ev.targetSoc, ev.batteryCapacityKWh, ev.consumptionKWhPerKm);
  }

  /** The views of a list of EVs, element by element. */
  function Views(evs: seq<Ev>): (r: seq<EvView>)
    reads evs
    ensures |r| == |evs|
    ensures forall i :: 0 <= i < |evs| ==> r[i] == evs[i].View()
  {
    if evs == [] then [] else [evs[0].View()] + Views(evs[1..])
  }
}

/** The simulated OCPP 2.0.1 Charge Point (the station side of the link):
    VOLTRIX/app/backend/server/charge_point.py and its near-identical copy
    VOLTRIX-CSMS-git/app/backend/server/charge_point.py, which differ only in
    the meter interval (5 s and 10 s). Every request the station sends is
    appended to `outbox`; the Central System's replies are parameters. */
module ChargePointModel {
  import opened Common
  import opened Ocpp

  /** The handle kept in `meter_task`. A running task carries the EVSE it
      meters and the loop counter `i` of its next sample. */
  datatype MeterTask = NoTask | Running(evseId: int, next: nat) | Finished | Cancelled

  /** `task.done()`: a finished or cancelled task. */
  predicate Done(t: MeterTask) {
    t.Finished? || t.Cancelled?
  }

  /** `if self.meter_task and not self.meter_task.done(): cancel()`. */
  function CancelIfPending(t: MeterTask): (r: MeterTask)
    ensures !r.Running?
    ensures t.Running? ==> r == Cancelled
    ensures !t.Running? ==> r == t
  {
    if t.Running? then Cancelled else t
  }

  /** The id token every station-originated request carries. */
  const UserToken: string := "voltrix-user"

  /** `f"tx-{self.id}-{YYYYmmddHHMMSS}"`. */
  function TransactionId(cpId: string, clock: string): string {
    "tx-" + cpId + "-" + clock
  }

  /** With the fixed-width clock, a transaction id names exactly one Charge
      Point and one second. */
  lemma TransactionIdInjective(a: string, ca: string, b: string, cb: string)
    requires |ca| == 14 && |cb| == 14
    ensures TransactionId(a, ca) == TransactionId(b, cb) <==> a == b && ca == cb
  {
    if TransactionId(a, ca) == TransactionId(b, cb) {
      var s := TransactionId(a, ca);
      assert |a| == |b|;
      assert a == s[3..3 + |a|];
      assert b == s[3..3 + |b|];
      assert ca == s[|s| - 14..];
      assert cb == s[|s| - 14..];
    }
  }

  /** The TransactionEvent(Started) request. */
  function StartedEvent(evseId: int, now: Timestamp, txId: string): OcppCall {
    TransactionEvent(TxStarted, now, Authorized, 1, txId, None, None, 0, evseId, UserToken)
  }

  /** The TransactionEvent(Ended) request. */
  function EndedEvent(evseId: int, now: Timestamp, txId: string): OcppCall {
    TransactionEvent(TxEnded, now, StopAuthorized, 2, txId, Some("EVDisconnected"), Some("Idle"), 100, evseId, UserToken)
  }

  /** The k-th sample of a meter task: energy `1234 + 10k` Wh at 230 V, 16 A. */
  function MeterSample(evseId: int, now: Timestamp, k: nat): OcppCall {
    MeterValues(evseId, now, 1234 + k * 10, 230, 16)
  }

  /** The samples a meter task sends when it wakes at each of `times`,
      starting from counter value `first`. */
  function MeterSamples(evseId: int, first: nat, times: seq<Timestamp>): (r: seq<OcppCall>)
    ensures |r| == |times|
    decreases |times|
  {
    if times == [] then []
    else [MeterSample(evseId, times[0], first)] + MeterSamples(evseId, first + 1, times[1..])
  }

  lemma {:induction false} MeterSamplesSnoc(evseId: int, first: nat, times: seq<Timestamp>, t: Timestamp)
    ensures MeterSamples(evseId, first, times + [t])
            == MeterSamples(evseId, first, times) + [MeterSample(evseId, t, first + |times|)]
    decreases |times|
  {
    if times == [] {
      assert [t][1..] == [];
    } else {
      assert (times + [t])[1..] == times[1..] + [t];
      MeterSamplesSnoc(evseId, first + 1, times[1..], t);
    }
  }

  /** Every sample of a run meters the EVSE of its meter loop at 230 V and 16 A, and the
      j-th carries energy `1234 + 10 (first + j)`. */
  lemma {:induction false} MeterSamplesValues(evseId: int, first: nat, times: seq<Timestamp>)
    ensures forall j :: 0 <= j < |times| ==>
      && MeterSamples(evseId, first, times)[j].MeterValues?
      && MeterSamples(evseId, first, times)[j].evseId == evseId
      && MeterSamples(evseId, first, times)[j].energyWh == 1234 + 10 * (first + j)
      && MeterSamples(evseId, first, times)[j].voltageV == 230
      && MeterSamples(evseId, first, times)[j].currentA == 16
    decreases |times|
  {
    if times != [] {
      MeterSamplesValues(evseId, first + 1, times[1..]);
    }
  }

  /** The energy readings of a run strictly increase. */
  lemma MeterEnergyIncreasing(evseId: int, first: nat, times: seq<Timestamp>)
    ensures forall i, j :: 0 <= i < j < |times| ==>
      && MeterSamples(evseId, first, times)[i].MeterValues?
      && MeterSamples(evseId, first, times)[j].MeterValues?
      && MeterSamples(evseId, first, times)[i].energyWh < MeterSamples(evseId, first, times)[j].energyWh
  {
    MeterSamplesValues(evseId, first, times);
  }

  /** What `send_boot_notification` sends: the BootNotification, and only
      after an Accepted reply the Authorize and the initial StatusNotification
      of EVSE 1, connector 1. */
  function BootSequence(reply: RegistrationStatus, initialStatus: string, now: Timestamp): (r: seq<OcppCall>)
    ensures |r| >= 1 && r[0] == BootNotification("VTX-EVSE", "Voltrix", "PowerUp")
    ensures reply == RegistrationAccepted ==>
      r[1..] == [Authorize(UserToken, "Central"), StatusNotification(now, initialStatus, 1, 1)]
    ensures reply != RegistrationAccepted ==> |r| == 1
  {
    [BootNotification("VTX-EVSE", "Voltrix", "PowerUp")]
    + (if reply == RegistrationAccepted
       then [Authorize(UserToken, "Central"), StatusNotification(now, initialStatus, 1, 1)]
       else [])
  }

  /** Station-side `on_reserve_now`: every reservation is accepted. */
  function StationReserveNowReply(reservationId: int, idToken: string, evseId: int): (r: ReserveNowStatus)
    ensures r == ReserveAccepted
  {
    ReserveAccepted
  }

  class ChargePoint {
    const id: string
    var initialStatus: string
    var meterTask: MeterTask
    var transactionActive: bool
    var currentTransactionId: Option<string>
    var outbox: seq<OcppCall>

    /** A transaction is active exactly while its meter task is running. */
    ghost predicate Valid()
      reads this
    {
      transactionActive <==> meterTask.Running?
    }

    constructor (id: string, initialStatus: string)
      ensures Valid()
      ensures this.id == id && this.initialStatus == initialStatus
      ensures meterTask == NoTask && !transactionActive
      ensures currentTransactionId == None && outbox == []
    {
      this.id := id;
      this.initialStatus := initialStatus;
      meterTask := NoTask;
      transactionActive := false;
      currentTransactionId := None;
      outbox := [];
    }

    /** `self.call(request)`: one request to the Central System. */
    method Call(request: OcppCall)
      modifies this
      ensures outbox == old(outbox) + [request]
      ensures meterTask == old(meterTask) && transactionActive == old(transactionActive)
      ensures currentTransactionId == old(currentTransactionId) && initialStatus == old(initialStatus)
    {
      outbox := outbox + [request];
    }

    method SendAuthorizeRequest(idToken: string)
      modifies this
      ensures outbox == old(outbox) + [Authorize(idToken, "Central")]
      ensures meterTask == old(meterTask) && transactionActive == old(transactionActive)
      ensures currentTransactionId == old(currentTransactionId) && initialStatus == old(initialStatus)
    {
      Call(Authorize(idToken, "Central"));
    }

    method SendStatusNotification(evseId: int, status: string, connectorId: int, now: Timestamp)
      modifies this
      ensures outbox == old(outbox) + [StatusNotification(now, status, connectorId, evseId)]
      ensures meterTask == old(meterTask) && transactionActive == old(transactionActive)
      ensures currentTransactionId == old(currentTransactionId) && initialStatus == old(initialStatus)
    {
      Call(StatusNotification(now, status, connectorId, evseId));
    }

    method SendBootNotification(reply: RegistrationStatus, now: Timestamp)
      modifies this
      ensures outbox == old(outbox) + BootSequence(reply, initialStatus, now)
      ensures meterTask == old(meterTask) && transactionActive == old(transactionActive)
      ensures currentTransactionId == old(currentTransactionId) && initialStatus == old(initialStatus)
    {
      Call(BootNotification("VTX-EVSE", "Voltrix", "PowerUp"));
      if reply == RegistrationAccepted {
        SendAuthorizeRequest(UserToken);
        SendStatusNotification(1, initialStatus, 1, now);
      }
    }

    /** Starts a transaction on `evseId`. `now` is the ISO timestamp and
        `clock` the `YYYYmmddHHMMSS` time the id is built from. */
    method SendTransactionEventStarted(evseId: int, now: Timestamp, clock: string) returns (txId: string)
      modifies this
      ensures Valid()
      ensures txId == TransactionId(id, clock) && currentTransactionId == Some(txId)
      ensures outbox == old(outbox) + [StartedEvent(evseId, now, txId)]
      ensures transactionActive && meterTask == Running(evseId, 0)
      ensures initialStatus == old(initialStatus)
    {
      txId := TransactionId(id, clock);
      currentTransactionId := Some(txId);
      outbox := outbox + [StartedEvent(evseId, now, txId)];
      transactionActive := true;
      meterTask := Running(evseId, 0);
    }

    /** Ends the transaction. Without an earlier start the source raises
        AttributeError while building the request (`current_transaction_id`
        is first assigned by a start); `ok` is false then and nothing changes. */
    method SendTransactionEventEnded(evseId: int, now: Timestamp) returns (ok: bool)
      modifies this
      ensures ok <==> old(currentTransactionId).Some?
      ensures ok ==> Valid() && !transactionActive
      ensures ok ==> outbox == old(outbox) + [EndedEvent(evseId, now, old(currentTransactionId).value)]
      ensures ok ==> meterTask == CancelIfPending(old(meterTask))
      ensures !ok ==> outbox == old(outbox) && transactionActive == old(transactionActive) && meterTask == old(meterTask)
      ensures currentTransactionId == old(currentTransactionId) && initialStatus == old(initialStatus)
    {
      if currentTransactionId.None? {
        return false;
      }
      outbox := outbox + [EndedEvent(evseId, now, currentTransactionId.value)];
      transactionActive := false;
      if meterTask.Running? {
        meterTask := Cancelled;
      }
      ok := true;
    }

    /** `send_meter_values`, resumed by the scheduler once per entry of
        `wakeTimes`. While the transaction stays active every resumption sends
        the next sample; a task that finds the flag cleared finishes. A task
        that is not running is never resumed. */
    method RunMeterTask(wakeTimes: seq<Timestamp>)
      modifies this
      ensures old(Valid()) ==> Valid()
      ensures old(meterTask).Running? && old(transactionActive) ==>
        && outbox == old(outbox) + MeterSamples(old(meterTask).evseId, old(meterTask).next, wakeTimes)
        && meterTask == Running(old(meterTask).evseId, old(meterTask).next + |wakeTimes|)
      ensures old(meterTask).Running? && !old(transactionActive) ==>
        outbox == old(outbox) && meterTask == Finished
      ensures !old(meterTask).Running? ==> outbox == old(outbox) && meterTask == old(meterTask)
      ensures transactionActive == old(transactionActive)
      ensures currentTransactionId == old(currentTransactionId) && initialStatus == old(initialStatus)
    {
      if !meterTask.Running? {
        return;
      }
      var evseId := meterTask.evseId;
      var i := meterTask.next;
      var k := 0;
      while k < |wakeTimes| && transactionActive
        invariant 0 <= k <= |wakeTimes|
        invariant transactionActive == old(transactionActive)
        invariant !transactionActive ==> k == 0
        invariant meterTask == old(meterTask) && i == old(meterTask).next + k
        invariant currentTransactionId == old(currentTransactionId) && initialStatus == old(initialStatus)
        invariant outbox == old(outbox) + MeterSamples(evseId, old(meterTask).next, wakeTimes[..k])
      {
        MeterSamplesSnoc(evseId, old(meterTask).next, wakeTimes[..k], wakeTimes[k]);
        assert wakeTimes[..k + 1] == wakeTimes[..k] + [wakeTimes[k]];
        outbox := outbox + [MeterSample(evseId, wakeTimes[k], i)];
        i := i + 1;
        k := k + 1;
      }
      if transactionActive {
        assert wakeTimes[..k] == wakeTimes;
        meterTask := Running(evseId, i);
      } else {
        assert wakeTimes[..k] == [];
        meterTask := Finished;
      }
    }

    /** Simulated plug-in: one StatusNotification(Occupied) for `evseId`. */
    method PlugInVehicle(evseId: int, now: Timestamp)
      modifies this
      ensures outbox == old(outbox) + [StatusNotification(now, "Occupied", 1, evseId)]
      ensures meterTask == old(meterTask) && transactionActive == old(transactionActive)
      ensures currentTransactionId == old(currentTransactionId) && initialStatus == old(initialStatus)
    {
      SendStatusNotification(evseId, "Occupied", 1, now);
    }
  }

  /** A whole session: start, a run of meter samples, end. The outbox then
      holds Started, the samples in order and Ended with the same id, and the
      station is idle again. */
  method Session(cp: ChargePoint, evseId: int, startTime: Timestamp, clock: string,
                 wakeTimes: seq<Timestamp>, endTime: Timestamp) returns (txId: string)
    modifies cp
    ensures cp.Valid() && !cp.transactionActive && cp.meterTask == Cancelled
    ensures txId == TransactionId(cp.id, clock)
    ensures cp.outbox == old(cp.outbox) + [StartedEvent(evseId, startTime, txId)]
                         + MeterSamples(evseId, 0, wakeTimes) + [EndedEvent(evseId, endTime, txId)]
  {
    txId := cp.SendTransactionEventStarted(evseId, startTime, clock);
    cp.RunMeterTask(wakeTimes);
    var ok := cp.SendTransactionEventEnded(evseId, endTime);
  }
}

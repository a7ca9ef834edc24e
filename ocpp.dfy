/** The OCPP 2.0.1 messages exchanged between a Charge Point and the Central
    System, reduced to the fields the system fills in. The JSON-RPC framing
    and the wire encoding belong to the `ocpp` library and are not modelled. */
module Ocpp {
  import opened Common

  /** RegistrationStatusEnumType (reply to BootNotification). */
  datatype RegistrationStatus = RegistrationAccepted | RegistrationPending | RegistrationRejected

  /** AuthorizationStatusEnumType, as far as the Central System uses it. */
  datatype AuthorizationStatus = AuthorizationAccepted | AuthorizationInvalid

  /** ReserveNowStatusEnumType. */
  datatype ReserveNowStatus = ReserveAccepted | ReserveFaulted | ReserveOccupied | ReserveRejected | ReserveUnavailable

  function ReserveNowStatusValue(s: ReserveNowStatus): string {
    match s
    case ReserveAccepted => "Accepted"
    case ReserveFaulted => "Faulted"
    case ReserveOccupied => "Occupied"
    case ReserveRejected => "Rejected"
    case ReserveUnavailable => "Unavailable"
  }

  /** Only an accepted reservation reads as "Accepted". */
  lemma ReserveNowStatusValueAccepted(s: ReserveNowStatus)
    ensures ReserveNowStatusValue(s) == "Accepted" <==> s == ReserveAccepted
  {
  }

  /** TransactionEventEnumType, as far as the Charge Point sends it. */
  datatype TransactionEventKind = TxStarted | TxEnded

  /** The string the Central System's handler receives as `event_type`. */
  function TransactionEventValue(k: TransactionEventKind): string {
    match k
    case TxStarted => "Started"
    case TxEnded => "Ended"
  }

  /** TriggerReasonEnumType values the Charge Point uses. */
  datatype TriggerReason = Authorized | StopAuthorized

  /** The requests either side sends. Each Charge Point method that calls
      `self.call(request)` appends one of these to its outbox. */
  datatype OcppCall =
    | BootNotification(model: string, vendorName: string, reason: string)
    | Authorize(idToken: string, tokenType: string)
    | StatusNotification(timestamp: Timestamp, connectorStatus: string, connectorId: int, evseId: int)
    | TransactionEvent(
        eventType: TransactionEventKind, timestamp: Timestamp, triggerReason: TriggerReason,
        seqNo: int, transactionId: string, stoppedReason: Option<string>,
        chargingState: Option<string>, energyWh: int, evseId: int, idToken: string)
    | MeterValues(evseId: int, timestamp: Timestamp, energyWh: int, voltageV: int, currentA: int)
    | Heartbeat
    | ReserveNow(reservationId: int, expiryDateTime: Timestamp, idToken: string, tokenType: string, evseId: int)

  /** The Central System's reply to BootNotification. */
  datatype BootNotificationResult = BootNotificationResult(currentTime: Timestamp, interval: int, status: RegistrationStatus)
}

/** The two transition tables and the policy that guards a reservation. */
module StateMachines {
  import opened Domain

  function AllowedMandateTransitions(from: MandateStatus): set<MandateStatus> {
    match from
    case Draft => {IssuedActive}
    case IssuedActive => {IssuedReserved, Revoking, Expired}
    case IssuedReserved => {IssuedActive, Revoking, Expired}
    case Revoking => {Revoked}
    case Revoked => {}
    case Expired => {}
  }

  function AllowedAttemptTransitions(from: AttemptStatus): set<AttemptStatus> {
    match from
    case Created => {AuthValidated, PolicyDenied}
    case AuthValidated => {PolicyDenied, Reserved}
    case PolicyDenied => {}
    case Reserved => {CancelledReleased, DispatchQueued}
    case DispatchQueued => {Dispatching, CancelledReleased}
    case Dispatching => {CancelledReleased, ChargeFailed, ChargeSucceeded, ExecutionUnknown}
    case ExecutionUnknown => {ChargeFailed, ChargeSucceeded}
    case ChargeSucceeded => {}
    case ChargeFailed => {}
    case CancelledReleased => {}
  }

  predicate CanTransitionMandate(from: MandateStatus, to: MandateStatus) {
    to in AllowedMandateTransitions(from)
  }

  predicate CanTransitionAttempt(from: AttemptStatus, to: AttemptStatus) {
    to in AllowedAttemptTransitions(from)
  }

  /** How far along its life an attempt is. */
  function Rank(status: AttemptStatus): (r: nat)
    ensures r <= 6
  {
    match status
    case Created => 0
    case AuthValidated => 1
    case Reserved => 2
    case DispatchQueued => 3
    case Dispatching => 4
    case ExecutionUnknown => 5
    case PolicyDenied => 6
    case ChargeSucceeded => 6
    case ChargeFailed => 6
    case CancelledReleased => 6
  }

  /** Every edge of the attempt table climbs, so the table has no cycle and no path of more than 6 edges. */
  lemma EveryAttemptEdgeClimbs(from: AttemptStatus, to: AttemptStatus)
    requires CanTransitionAttempt(from, to)
    ensures Rank(from) < Rank(to)
  {}

  /** A statuses sequence that walks the attempt table. */
  predicate AttemptWalk(path: seq<AttemptStatus>) {
    forall i :: 0 <= i < |path| - 1 ==> CanTransitionAttempt(path[i], path[i + 1])
  }

  predicate MandateWalk(path: seq<MandateStatus>) {
    forall i :: 0 <= i < |path| - 1 ==> CanTransitionMandate(path[i], path[i + 1])
  }

  predicate Open(status: AttemptStatus) {
    status == DispatchQueued || status == Dispatching || status == ExecutionUnknown
  }

  predicate Settled(status: AttemptStatus) {
    status == ChargeSucceeded || status == ChargeFailed
  }

  predicate MandateCanReserve(m: Mandate) {
    m.status == IssuedActive && m.reservedCents == 0
  }

  function AvailableBudgetCents(m: Mandate): int {
    m.budgetCapCents - m.consumedCents - m.reservedCents
  }
}

module Policy {
  import opened Domain
  import opened StateMachines

  datatype PolicyResult = Approved | Denied(reason: BlockedReason)

  function EvaluatePolicy(m: Mandate, vendor: Option<Vendor>, amountCents: int, now: Millis): PolicyResult {
    if m.status != IssuedActive then Denied(MandateNotActive)
    else if m.expiresAt <= now then Denied(MandateNotActive)
    else if !MandateCanReserve(m) then Denied(MandateNotReservable)
    else if vendor.None? then Denied(VendorNotFound)
    else if vendor.value.id !in m.approvedVendorIds then Denied(VendorNotAllowlisted)
    else if m.requiresReceiptCapability && !vendor.value.receiptCapability then Denied(ReceiptCapabilityMissing)
    else if AvailableBudgetCents(m) < amountCents then Denied(BudgetExceeded)
    else Approved
  }
}

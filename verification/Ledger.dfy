/** What every store transaction does to the ledger, as functions on values.

    A transaction either commits a new ledger or throws, in which case nothing is written.
    The methods of class `Store` are proved to compute these functions, and the protocol
    takes them as its atomic steps. */
module Ledger {
  import opened Domain
  import opened StateMachines
  import opened Policy

  const WORKER_LEASE_MS: Millis := 30_000
  const RECONCILIATION_RETRY_DELAY_MS: Millis := 30_000
  const UNKNOWN_ATTEMPT_ESCALATION_MS: Millis := 15 * 60 * 1000

  /** The tables keyed by id, the two logs newest first, and the next unused id. */
  datatype Ledger = Ledger(
    agents: map<string, Agent>,
    mandates: map<Id, Mandate>,
    attempts: map<Id, Attempt>,
    tasks: map<Id, Task>,
    audits: seq<Audit>,
    events: seq<Event>,
    nextId: Id)

  // ---- what the outside world answers ----

  datatype Treasury = TreasuryNotEnforced | TreasuryApproved | TreasuryDenies(code: string) | TreasuryThrows

  datatype Reported = NotReported | Whole(cents: int) | Fractional

  datatype DispatchResult =
    | DispatchSucceeded(reference: string, evidence: ReceiptEvidence, finalAmount: Reported)
    | DispatchFailed(failedReference: Option<string>, evidence: ReceiptEvidence, finalAmount: Reported)
    | DispatchUnknown(unknownReference: Option<string>, evidence: ReceiptEvidence,
                      payloadJson: string, requirementsJson: string)
  {
    function Status(): AttemptStatus {
      match this
      case DispatchSucceeded(_, _, _) => ChargeSucceeded
      case DispatchFailed(_, _, _) => ChargeFailed
      case DispatchUnknown(_, _, _, _) => ExecutionUnknown
    }

    function Reference(): Option<string> {
      match this
      case DispatchSucceeded(r, _, _) => Some(r)
      case DispatchFailed(r, _, _) => r
      case DispatchUnknown(r, _, _, _) => r
    }

    function FinalAmount(): Reported {
      if DispatchUnknown? then NotReported else finalAmount
    }
  }

  type CorrelatedEvidence = e: ReceiptEvidence | e != NotRequired && e != RequiredPending witness ReceivedValid

  datatype CorrelationResult = CorrelationResult(
    succeeded: bool, reference: Option<string>, evidence: CorrelatedEvidence, finalAmount: Reported)
  {
    function Status(): AttemptStatus {
      if succeeded then ChargeSucceeded else ChargeFailed
    }
  }

  // ---- inputs and claims ----

  datatype CreateInput = CreateInput(
    name: string, agentId: string, budgetCapCents: int, expiresAt: Millis,
    approvedVendorIds: seq<string>, requiresReceiptCapability: bool)

  datatype RunInput = RunInput(
    mandateId: Id, vendorId: string, amountCents: int, operatorId: string,
    paymentIdentifier: Option<string>)

  /** The snapshot a worker keeps from its lease; `leaseNo` is the task's attempt count. */
  datatype Claim = Claim(
    taskId: Id, attemptId: Id, mandateId: Id, leaseNo: nat, vendorId: string,
    operatorId: string, amountCents: int, paymentIdentifier: string)

  // ---- pure helpers ----

  function NextMandateStatusAfterResolution(current: MandateStatus): MandateStatus {
    if current == Revoking || current == Revoked || current == Expired then current else IssuedActive
  }

  function ResolveSettledAmountCents(claimed: int, reported: Reported): int {
    if reported.Whole? && reported.cents >= 0
    then if reported.cents <= claimed then reported.cents else claimed
    else claimed
  }

  function Max(a: int, b: int): int { if a >= b then a else b }

  function WithAudit(l: Ledger, mandateId: Id, kind: AuditKind, attemptId: Option<Id>, now: Millis): Ledger {
    l.(audits := [Audit(l.nextId, mandateId, attemptId, kind, now)] + l.audits, nextId := l.nextId + 1)
  }

  function WithEvent(l: Ledger, entityType: EntityType, entityId: Id, kind: EventKind, now: Millis): Ledger {
    l.(events := [Event(l.nextId, entityType, entityId, kind, now)] + l.events, nextId := l.nextId + 1)
  }

  ghost predicate UsesIdentifier(attempts: map<Id, Attempt>, a: Id, identifier: string) {
    a in attempts && attempts[a].paymentIdentifier == identifier
  }

  ghost function ByIdentifier(attempts: map<Id, Attempt>, identifier: string): (r: Option<Id>)
    ensures r.Some? ==> UsesIdentifier(attempts, r.value, identifier)
    ensures r.None? ==> forall a :: !UsesIdentifier(attempts, a, identifier)
  {
    if a :| UsesIdentifier(attempts, a, identifier) then Some(a) else None
  }

  // ---- operator transactions ----

  function Dedupe(ids: seq<string>): (r: seq<string>)
    ensures forall v :: v in r <==> v in ids
    ensures forall i, j :: 0 <= i < j < |r| ==> r[i] != r[j]
  {
    if ids == [] then []
    else
      var last := ids[|ids| - 1];
      assert ids == ids[..|ids| - 1] + [last];
      var front := Dedupe(ids[..|ids| - 1]);
      if last in front then front else front + [last]
  }

  function TrimAll(ids: seq<string>): (r: seq<string>)
    ensures |r| == |ids| && forall i :: 0 <= i < |ids| ==> r[i] == Trim(ids[i])
  {
    seq(|ids|, i requires 0 <= i < |ids| => Trim(ids[i]))
  }

  /** Trimmed, without repeats, all registered and at least one; otherwise a validation error. */
  function NormalizeApprovedVendorIds(ids: seq<string>): (r: Result<seq<string>>)
  {
    if exists v :: v in ids && Blank(v) then Err(Validation)
    else
      var unique := Dedupe(TrimAll(ids));
      if unique == [] then Err(Validation)
      else if exists v :: v in unique && !Registered(v) then Err(Validation)
      else Ok(unique)
  }

  /** The ledger after an operator issued or revoked a mandate, and the statuses the mandate was given on the way. */
  datatype Anchored = Anchored(ledger: Ledger, trail: seq<MandateStatus>)

  /** `anchor` is the reference the Morph anchor returned, or None when the call threw. */
  function CreateMandate(l: Ledger, input: CreateInput, anchor: Option<string>, now: Millis): Result<Anchored> {
    if Blank(input.name) then Err(Validation)
    else if input.budgetCapCents <= 0 then Err(Validation)
    else if input.expiresAt <= now then Err(Validation)
    else if input.agentId !in l.agents || !l.agents[input.agentId].active then Err(Validation)
    else AnchorMandate(l, input, l.agents[input.agentId], anchor, NormalizeApprovedVendorIds(input.approvedVendorIds), now)
  }

  /** The rest of the transaction, once the request is valid and the agent found. The anchor's failure comes before
      that of the vendors. */
  function AnchorMandate(l: Ledger, input: CreateInput, agent: Agent, anchor: Option<string>,
                         vendors: Result<seq<string>>, now: Millis): Result<Anchored> {
    if anchor.None? then Err(AnchorFailed)
    else if Blank(anchor.value) then Err(Validation)
    else if vendors.Err? then Err(vendors.failure)
    else
      var draft := Mandate(l.nextId, Trim(input.name), input.agentId, agent.name, Draft,
                           input.budgetCapCents, 0, 0, input.requiresReceiptCapability, vendors.value,
                           anchor.value, None, input.expiresAt, now, now);
      var m := draft.(status := IssuedActive);
      Ok(Anchored(IssueMandate(l.(nextId := l.nextId + 1), m, now), [draft.status, m.status]))
  }

  function IssueMandate(l: Ledger, m: Mandate, now: Millis): Ledger {
    var l1 := WithAudit(l.(mandates := l.mandates[m.id := m]), m.id, AuditMandateIssued, None, now);
    WithEvent(l1, OfMandate, m.id, MandateIssued, now)
  }

  function RevokeMandate(l: Ledger, mandateId: Id, anchor: Option<string>, now: Millis): Result<Anchored> {
    if mandateId !in l.mandates then Err(NotFound)
    else
      var m := l.mandates[mandateId];
      if !CanTransitionMandate(m.status, Revoking) then Err(InvalidTransition)
      else if anchor.None? then Err(AnchorFailed)
      else if Blank(anchor.value) then Err(Validation)
      else
        var revoking := m.(status := Revoking, morphRevokeTxId := anchor, updatedAt := now);
        var m' := revoking.(status := Revoked);
        var l1 := l.(mandates := l.mandates[mandateId := m']);
        var l2 := WithAudit(l1, mandateId, AuditMandateRevoked, None, now);
        Ok(Anchored(WithEvent(l2, OfMandate, mandateId, MandateRevoked, now), [revoking.status, m'.status]))
  }

  /** What a request leaves: the ledger, its attempt, and the statuses it gave the attempt, in order. */
  datatype Ran = Ran(ledger: Ledger, attempt: Attempt, trail: seq<AttemptStatus>)

  function MaterializeAttempt(id: Id, mandateId: Id, vendorId: string, operatorId: string,
                              amountCents: int, identifier: string, now: Millis): Attempt {
    Attempt(id, mandateId, vendorId, amountCents, operatorId, Created, Created, NotRequired,
            None, None, identifier, now, now)
  }

  function Authenticated(attempt: Attempt): Attempt {
    attempt.(status := AuthValidated, financialOutcome := AuthValidated)
  }

  /** The entries written once the attempt is authenticated. */
  function Admit(l: Ledger, attempt: Attempt, now: Millis): Ledger {
    var l1 := WithAudit(l.(nextId := attempt.id + 1), attempt.mandateId, AuditAuthValidated, Some(attempt.id), now);
    WithEvent(l1, OfAttempt, attempt.id, EvtAuthValidated(attempt.mandateId), now)
  }

  function ExpireMandate(l: Ledger, mandateId: Id, now: Millis): Ledger
    requires mandateId in l.mandates
  {
    var m' := l.mandates[mandateId].(status := Expired, updatedAt := now);
    var l1 := l.(mandates := l.mandates[mandateId := m']);
    var l2 := WithAudit(l1, mandateId, AuditMandateExpired, None, now);
    WithEvent(l2, OfMandate, mandateId, MandateExpired, now)
  }

  /** The attempt is stored as denied; nothing is reserved. */
  function Deny(l: Ledger, attempt: Attempt, reason: BlockedReason, now: Millis): Ran {
    var a := attempt.(status := PolicyDenied, financialOutcome := PolicyDenied,
                      blockedReason := Some(reason), updatedAt := now);
    var l1 := l.(attempts := l.attempts[a.id := a]);
    var l2 := WithAudit(l1, a.mandateId, AuditAttemptBlocked, Some(a.id), now);
    Ran(WithEvent(l2, OfAttempt, a.id, EvtPolicyDenied(reason), now), a, [a.status])
  }

  function Approve(l: Ledger, attempt: Attempt, now: Millis): Ledger {
    WithEvent(WithAudit(l, attempt.mandateId, AuditPolicyApproved, Some(attempt.id), now),
              OfAttempt, attempt.id, EvtPolicyApproved, now)
  }

  function TreasuryEnforced(l: Ledger, attempt: Attempt, now: Millis): Ledger {
    WithEvent(WithAudit(l, attempt.mandateId, AuditPolicyApproved, Some(attempt.id), now),
              OfAttempt, attempt.id, EvtTreasuryEnforced, now)
  }

  /** The amount is reserved on the mandate. */
  function Hold(l: Ledger, attempt: Attempt, now: Millis): Ledger
    requires attempt.mandateId in l.mandates
  {
    var m := l.mandates[attempt.mandateId];
    var m' := m.(reservedCents := m.reservedCents + attempt.amountCents, status := IssuedReserved, updatedAt := now);
    var l1 := l.(mandates := l.mandates[attempt.mandateId := m']);
    var l2 := WithAudit(l1, attempt.mandateId, AuditAttemptReserved, Some(attempt.id), now);
    WithEvent(l2, OfAttempt, attempt.id, EvtReserved(attempt.amountCents), now)
  }

  /** The attempt is stored and a dispatch task made for it. */
  function Queue(l: Ledger, a: Attempt, now: Millis): Ledger {
    var t := NewTask(l.nextId, DispatchAttempt, a.id, a.mandateId, Some(a.operatorId), now, now);
    var l1 := l.(attempts := l.attempts[a.id := a], tasks := l.tasks[t.id := t], nextId := t.id + 1);
    var l2 := WithAudit(l1, a.mandateId, AuditAttemptQueued, Some(a.id), now);
    var l3 := WithEvent(l2, OfAttempt, a.id, EvtQueued(t.id), now);
    WithEvent(l3, OfTask, t.id, EvtTaskEnqueued, now)
  }

  function Reserve(l: Ledger, attempt: Attempt, now: Millis): Ran
    requires attempt.mandateId in l.mandates
  {
    var evidence := if l.mandates[attempt.mandateId].requiresReceiptCapability then RequiredPending else NotRequired;
    var held := attempt.(status := Reserved, financialOutcome := Reserved, receiptEvidence := evidence, updatedAt := now);
    var a := held.(status := DispatchQueued, financialOutcome := DispatchQueued);
    Ran(Queue(Hold(l, attempt, now), a, now), a, [held.status, a.status])
  }

  function NewTask(id: Id, kind: TaskKind, attemptId: Id, mandateId: Id, operatorId: Option<string>,
                   availableAt: Millis, now: Millis): Task {
    Task(id, kind, attemptId, mandateId, operatorId, None, None, availableAt, Queued, 0, now, now, None, None)
  }

  predicate SameRequest(a: Attempt, input: RunInput) {
    && a.mandateId == input.mandateId
    && a.vendorId == Trim(input.vendorId)
    && a.amountCents == input.amountCents
    && a.operatorId == Trim(input.operatorId)
  }

  /** What follows once the request is well formed and its payment identifier is new. */
  function Admitted(l: Ledger, attempt: Attempt, vendor: Vendor, treasury: Treasury, now: Millis): Result<Ran>
    requires attempt.mandateId in l.mandates
  {
    var m, a := l.mandates[attempt.mandateId], Authenticated(attempt);
    var l1 := Admit(l, a, now);
    var policy := EvaluatePolicy(m, Some(vendor), a.amountCents, now);
    if policy.Denied? then
      var expire := policy.reason == MandateNotActive && m.status == IssuedActive && m.expiresAt <= now;
      var l2 := if expire then ExpireMandate(l1, a.mandateId, now) else l1;
      Ok(After(attempt, a, Deny(l2, a, policy.reason, now)))
    else
      var r := Enforced(Approve(l1, a, now), a, treasury, now);
      if r.Ok? then Ok(After(attempt, a, r.value)) else r
  }

  /** The attempt was made and authenticated before the rest happened. */
  function After(made: Attempt, authenticated: Attempt, ran: Ran): Ran {
    ran.(trail := [made.status, authenticated.status] + ran.trail)
  }

  /** The treasury's say, on an attempt the policy approved. */
  function Enforced(l: Ledger, attempt: Attempt, treasury: Treasury, now: Millis): Result<Ran>
    requires attempt.mandateId in l.mandates
  {
    match treasury
    case TreasuryThrows => Err(TreasuryFailed)
    case TreasuryDenies(code) => Ok(Deny(l, attempt, TreasuryDenied(code), now))
    case TreasuryApproved => Ok(Reserve(TreasuryEnforced(l, attempt, now), attempt, now))
    case TreasuryNotEnforced => Ok(Reserve(l, attempt, now))
  }

  /** `freshIdentifier` is what createId would give an attempt that names no identifier. */
  ghost function RunAttempt(l: Ledger, input: RunInput, freshIdentifier: string, treasury: Treasury,
                            now: Millis): Result<Ran> {
    var given := input.paymentIdentifier.Some? && input.paymentIdentifier.value != "";
    if input.amountCents <= 0 then Err(Validation)
    else if Blank(input.vendorId) then Err(Validation)
    else if Blank(input.operatorId) then Err(Validation)
    else if given && Blank(input.paymentIdentifier.value) then Err(Validation)
    else if input.mandateId !in l.mandates then Err(NotFound)
    else
      var existing := if given then ByIdentifier(l.attempts, input.paymentIdentifier.value) else None;
      if existing.Some? then
        var a := l.attempts[existing.value];
        if SameRequest(a, input) then Ok(Ran(l, a, [])) else Err(IdentifierConflict)
      else
        RunNew(l, input, if input.paymentIdentifier.Some? then input.paymentIdentifier.value else freshIdentifier, treasury, now)
  }

  /** A request whose identifier is on no attempt. */
  function RunNew(l: Ledger, input: RunInput, identifier: string, treasury: Treasury, now: Millis): Result<Ran>
    requires input.mandateId in l.mandates
  {
    var vendor := FindVendor(Trim(input.vendorId));
    if vendor.None? then Err(NotFound)
    else
      var attempt := MaterializeAttempt(l.nextId, input.mandateId, vendor.value.id, Trim(input.operatorId),
                                        input.amountCents, identifier, now);
      var ran := Admitted(l, attempt, vendor.value, treasury, now);
      // An explicit empty identifier is stored as it is, and the check made on every write refuses it.
      if ran.Ok? && identifier == "" then Err(IntegrityRejected) else ran
  }

  // ---- worker tasks ----

  ghost predicate LiveTask(tasks: map<Id, Task>, t: Id, kind: TaskKind, attemptId: Id) {
    && t in tasks && tasks[t].kind == kind && tasks[t].attemptId == attemptId
    && (tasks[t].status == Queued || tasks[t].status == Leased)
  }

  /** What looking for a queued or leased task of this kind and attempt may find. */
  ghost predicate FindsLive(tasks: map<Id, Task>, kind: TaskKind, attemptId: Id, found: Option<Id>) {
    match found
    case Some(t) => LiveTask(tasks, t, kind, attemptId)
    case None => forall t :: !LiveTask(tasks, t, kind, attemptId)
  }

  ghost function FindLive(tasks: map<Id, Task>, kind: TaskKind, attemptId: Id): (found: Option<Id>)
    ensures FindsLive(tasks, kind, attemptId, found)
  {
    if t :| LiveTask(tasks, t, kind, attemptId) then Some(t) else None
  }

  datatype Enqueued = Enqueued(ledger: Ledger, taskId: Id)

  /** The task found is reused; only when there is none a new one is made. */
  function EnqueueWorkerTask(l: Ledger, kind: TaskKind, mandateId: Id, attemptId: Id,
                             operatorId: Option<string>, found: Option<Id>, now: Millis): Enqueued {
    match found
    case Some(t) => Enqueued(l, t)
    case None => FreshTask(l, kind, mandateId, attemptId, operatorId, now)
  }

  function FreshTask(l: Ledger, kind: TaskKind, mandateId: Id, attemptId: Id,
                     operatorId: Option<string>, now: Millis): Enqueued {
    var t := NewTask(l.nextId, kind, attemptId, mandateId, operatorId, now, now);
    var l1 := l.(tasks := l.tasks[t.id := t], nextId := t.id + 1);
    Enqueued(WithEvent(l1, OfTask, t.id, EvtTaskEnqueued, now), t.id)
  }

  predicate Eligible(t: Task, kind: TaskKind, now: Millis) {
    && t.kind == kind
    && (t.status == Queued || (t.status == Leased && t.leaseExpiresAt.Some? && t.leaseExpiresAt.value <= now))
    && t.availableAt <= now
  }

  /** `t` is an eligible task and none is older; equally old ones may come in any order. */
  ghost predicate IsNext(tasks: map<Id, Task>, kind: TaskKind, now: Millis, t: Id) {
    && t in tasks && Eligible(tasks[t], kind, now)
    && forall u :: u in tasks && Eligible(tasks[u], kind, now) ==> tasks[t].createdAt <= tasks[u].createdAt
  }

  function LeasedTask(t: Task, worker: string, now: Millis): Task {
    t.(status := Leased, leaseOwner := Some(worker), leaseExpiresAt := Some(now + WORKER_LEASE_MS),
       updatedAt := now, startedAt := if t.startedAt.Some? then t.startedAt else Some(now),
       attemptCount := t.attemptCount + 1)
  }

  function ClaimOf(t: Task, a: Attempt): Claim {
    Claim(t.id, t.attemptId, t.mandateId, t.attemptCount, a.vendorId,
          if t.operatorId.Some? then t.operatorId.value else a.operatorId,
          a.amountCents, a.paymentIdentifier)
  }

  datatype Lease = Lease(ledger: Ledger, claim: Claim)

  function LeaseTask(l: Ledger, t: Id, worker: string, now: Millis): Result<Lease>
    requires t in l.tasks
  {
    var leased := LeasedTask(l.tasks[t], worker, now);
    if leased.attemptId !in l.attempts then Err(Missing)
    else Ok(Lease(l.(tasks := l.tasks[t := leased]), ClaimOf(leased, l.attempts[leased.attemptId])))
  }

  function CompleteTask(l: Ledger, taskId: Id, now: Millis): Result<Ledger> {
    if taskId !in l.tasks then Err(NotFound)
    else
      var t' := l.tasks[taskId].(status := Completed, leaseOwner := None, leaseExpiresAt := None,
                                 updatedAt := now, completedAt := Some(now));
      Ok(WithEvent(l.(tasks := l.tasks[taskId := t']), OfTask, taskId, EvtTaskCompleted, now))
  }

  function FailTask(l: Ledger, taskId: Id, now: Millis): Result<Ledger> {
    if taskId !in l.tasks then Err(NotFound)
    else
      var t' := l.tasks[taskId].(status := Failed, leaseOwner := None, leaseExpiresAt := None,
                                 updatedAt := now, completedAt := Some(now));
      Ok(WithEvent(l.(tasks := l.tasks[taskId := t']), OfTask, taskId, EvtTaskFailed, now))
  }

  function RequeueTask(l: Ledger, taskId: Id, now: Millis): Result<Ledger> {
    if taskId !in l.tasks then Err(NotFound)
    else
      var t' := l.tasks[taskId].(status := Queued, leaseOwner := None, leaseExpiresAt := None,
                                 availableAt := now + RECONCILIATION_RETRY_DELAY_MS, updatedAt := now);
      Ok(WithEvent(l.(tasks := l.tasks[taskId := t']), OfTask, taskId, EvtTaskRequeued, now))
  }

  // ---- the execution worker's transactions ----

  function BeginDispatch(l: Ledger, c: Claim, now: Millis): Result<Ledger> {
    if c.attemptId !in l.attempts then Err(Missing)
    else
      var a := l.attempts[c.attemptId];
      if !CanTransitionAttempt(a.status, Dispatching) then Err(InvalidTransition)
      else
        var a' := a.(status := Dispatching, financialOutcome := Dispatching, updatedAt := now);
        var l1 := l.(attempts := l.attempts[c.attemptId := a']);
        var l2 := WithAudit(l1, c.mandateId, AuditAttemptDispatched, Some(c.attemptId), now);
        Ok(WithEvent(l2, OfAttempt, c.attemptId, EvtDispatched(c.taskId), now))
  }

  /** None when the vendor may be called. */
  function PreflightFailure(l: Ledger, c: Claim, now: Millis): Result<Option<BlockedReason>> {
    if c.mandateId !in l.mandates || c.attemptId !in l.attempts then Err(Missing)
    else
      var m := l.mandates[c.mandateId];
      if m.expiresAt <= now || m.status == Expired then Ok(Some(MandateExpiredBeforeDispatch))
      else if m.status == Revoking || m.status == Revoked then Ok(Some(MandateRevokedBeforeDispatch))
      else if m.status != IssuedReserved then Ok(Some(MandateNotDispatchable))
      else if l.attempts[c.attemptId].status != Dispatching then Ok(Some(AttemptNotDispatchable))
      else Ok(None)
  }

  /** The attempt and mandate after the vendor's answer. */
  function SettledAttempt(a: Attempt, r: DispatchResult, now: Millis): Attempt {
    a.(status := r.Status(), financialOutcome := r.Status(), chargeReference := r.Reference(),
       receiptEvidence := r.evidence, updatedAt := now)
  }

  function SettledMandate(m: Mandate, c: Claim, r: DispatchResult, now: Millis): Mandate {
    match r.Status()
    case ChargeSucceeded =>
      m.(reservedCents := m.reservedCents - c.amountCents,
         consumedCents := m.consumedCents + ResolveSettledAmountCents(c.amountCents, r.FinalAmount()),
         status := NextMandateStatusAfterResolution(m.status), updatedAt := now)
    case ChargeFailed =>
      m.(reservedCents := m.reservedCents - c.amountCents,
         status := NextMandateStatusAfterResolution(m.status), updatedAt := now)
    case _ => m.(updatedAt := now)
  }

  function ReconciliationStarted(l: Ledger, c: Claim, taskId: Id, r: DispatchResult, now: Millis): Ledger
    requires r.DispatchUnknown?
  {
    WithEvent(l, OfAttempt, c.attemptId,
              EvtReconciliationStarted(taskId, r.payloadJson, r.requirementsJson), now)
  }

  /** The entries every settlement writes; a reconciliation does not repeat them. */
  function OutcomeNotes(l: Ledger, c: Claim, evidence: ReceiptEvidence, status: AttemptStatus,
                        finalCents: int, now: Millis): Ledger {
    var l1 := WithAudit(l, c.mandateId, AuditReceiptUpdated, Some(c.attemptId), now);
    var l2 := WithEvent(l1, OfAttempt, c.attemptId, EvtReceiptUpdated(evidence), now);
    var l3 := WithAudit(l2, c.mandateId, AuditFinancialOutcome, Some(c.attemptId), now);
    WithEvent(l3, OfAttempt, c.attemptId, EvtFinancialOutcome(status, finalCents), now)
  }

  function ReconciledNotes(l: Ledger, c: Claim, status: AttemptStatus, now: Millis): Ledger {
    WithEvent(WithAudit(l, c.mandateId, AuditAttemptReconciled, Some(c.attemptId), now),
              OfAttempt, c.attemptId, EvtReconciled(status), now)
  }

  /** The store rows after the vendor's answer, before any entry is written. */
  function Settle(l: Ledger, c: Claim, r: DispatchResult, now: Millis): Ledger
    requires c.mandateId in l.mandates && c.attemptId in l.attempts
  {
    l.(attempts := l.attempts[c.attemptId := SettledAttempt(l.attempts[c.attemptId], r, now)],
       mandates := l.mandates[c.mandateId := SettledMandate(l.mandates[c.mandateId], c, r, now)])
  }

  /** `found` is the live reconcile task of this attempt, if the search met one. */
  function ApplyDispatchResult(l: Ledger, c: Claim, r: DispatchResult, found: Option<Id>, now: Millis): Result<Ledger> {
    if c.mandateId !in l.mandates || c.attemptId !in l.attempts then Err(Missing)
    else if !CanTransitionAttempt(l.attempts[c.attemptId].status, r.Status()) then Err(InvalidTransition)
    else
      var finalCents := ResolveSettledAmountCents(c.amountCents, r.FinalAmount());
      var l1 := Settle(l, c, r, now);
      if r.DispatchUnknown? then
        var l2 := WithAudit(l1, c.mandateId, AuditReconciliationStarted, Some(c.attemptId), now);
        var q := EnqueueWorkerTask(l2, ReconcileAttempt, c.mandateId, c.attemptId,
                                   Some(l.attempts[c.attemptId].operatorId), found, now);
        var l3 := ReconciliationStarted(q.ledger, c, q.taskId, r, now);
        Ok(OutcomeNotes(l3, c, r.evidence, r.Status(), finalCents, now))
      else
        var l2 := OutcomeNotes(l1, c, r.evidence, r.Status(), finalCents, now);
        Ok(ReconciledNotes(l2, c, r.Status(), now))
  }

  function ReleaseDispatch(l: Ledger, c: Claim, reason: BlockedReason, now: Millis): Result<Ledger> {
    if c.mandateId !in l.mandates || c.attemptId !in l.attempts then Err(Missing)
    else
      var a := l.attempts[c.attemptId];
      if !CanTransitionAttempt(a.status, CancelledReleased) then Err(InvalidTransition)
      else
        var l1 := Release(l, c, reason, now);
        var l2 := WithAudit(l1, c.mandateId, AuditAttemptBlocked, Some(c.attemptId), now);
        Ok(WithEvent(l2, OfAttempt, c.attemptId, EvtWorkerFailed, now))
  }

  function ReleasedAttempt(a: Attempt, reason: BlockedReason, now: Millis): Attempt {
    a.(status := CancelledReleased, financialOutcome := CancelledReleased, receiptEvidence := NotRequired,
       blockedReason := Some(reason), updatedAt := now)
  }

  function ReleasedMandate(m: Mandate, c: Claim, now: Millis): Mandate {
    m.(reservedCents := Max(0, m.reservedCents - c.amountCents), status := NextMandateStatusAfterResolution(m.status), updatedAt := now)
  }

  function Release(l: Ledger, c: Claim, reason: BlockedReason, now: Millis): Ledger
    requires c.mandateId in l.mandates && c.attemptId in l.attempts
  {
    l.(attempts := l.attempts[c.attemptId := ReleasedAttempt(l.attempts[c.attemptId], reason, now)],
       mandates := l.mandates[c.mandateId := ReleasedMandate(l.mandates[c.mandateId], c, now)])
  }

  // ---- the reconciliation worker's transaction ----

  function ApplyReconciliationResult(l: Ledger, c: Claim, r: CorrelationResult, now: Millis): Result<Ledger> {
    if c.mandateId !in l.mandates || c.attemptId !in l.attempts then Err(Missing)
    else
      var a := l.attempts[c.attemptId];
      if a.status != ExecutionUnknown then Err(NotReconcilable)
      else
        var finalCents := ResolveSettledAmountCents(c.amountCents, r.finalAmount);
        var l1 := Resolve(l, c, r, now);
        Ok(ReconciledNotes(OutcomeNotes(l1, c, r.evidence, r.Status(), finalCents, now), c, r.Status(), now))
  }

  function ResolvedAttempt(a: Attempt, r: CorrelationResult, now: Millis): Attempt {
    a.(status := r.Status(), financialOutcome := r.Status(), receiptEvidence := r.evidence,
       chargeReference := if r.reference.Some? then r.reference else a.chargeReference, updatedAt := now)
  }

  function ResolvedMandate(m: Mandate, c: Claim, r: CorrelationResult, now: Millis): Mandate {
    m.(consumedCents := m.consumedCents + (if r.succeeded then ResolveSettledAmountCents(c.amountCents, r.finalAmount) else 0),
       reservedCents := Max(0, m.reservedCents - c.amountCents),
       status := NextMandateStatusAfterResolution(m.status), updatedAt := now)
  }

  function Resolve(l: Ledger, c: Claim, r: CorrelationResult, now: Millis): Ledger
    requires c.mandateId in l.mandates && c.attemptId in l.attempts
  {
    l.(attempts := l.attempts[c.attemptId := ResolvedAttempt(l.attempts[c.attemptId], r, now)],
       mandates := l.mandates[c.mandateId := ResolvedMandate(l.mandates[c.mandateId], c, r, now)])
  }

  function EnsureReconciliationQueued(l: Ledger, mandateId: Id, attemptId: Id, found: Option<Id>,
                                      now: Millis): Result<Ledger> {
    if attemptId !in l.attempts || mandateId !in l.mandates then Err(NotFound)
    else if l.attempts[attemptId].mandateId != mandateId then Err(NotFound)
    else if l.attempts[attemptId].status != ExecutionUnknown then Err(NotReconcilable)
    else
      Ok(EnqueueWorkerTask(l, ReconcileAttempt, mandateId, attemptId, Some(l.attempts[attemptId].operatorId),
                           found, now).ledger)
  }

  /** The two ways a new request can go, by the policy's decision. */
  lemma AdmittedByPolicy(l: Ledger, a: Attempt, vendor: Vendor, treasury: Treasury, now: Millis)
    requires a.mandateId in l.mandates
    ensures
      var m, b := l.mandates[a.mandateId], Authenticated(a);
      var l1 := Admit(l, b, now);
      var policy := EvaluatePolicy(m, Some(vendor), a.amountCents, now);
      Admitted(l, a, vendor, treasury, now) ==
        if policy.Denied? then
          var expire := policy.reason == MandateNotActive && m.status == IssuedActive && m.expiresAt <= now;
          Ok(After(a, b, Deny(if expire then ExpireMandate(l1, a.mandateId, now) else l1, b, policy.reason, now)))
        else
          var r := Enforced(Approve(l1, b, now), b, treasury, now);
          if r.Ok? then Ok(After(a, b, r.value)) else r
  {}
}

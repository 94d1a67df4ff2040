/** The records of the store and the words the modules share.

    Identifiers are natural numbers handed out by a counter, so `createId` is always fresh;
    timestamps are integer milliseconds; messages are left out. */
module Domain {

  type Id = nat
  type Millis = int

  datatype Option<+T> = None | Some(value: T)

  datatype Result<+T> = Ok(value: T) | Err(failure: Failure)

  datatype Failure =
    | Validation | NotFound | IdentifierConflict | InvalidTransition
    | NotReconcilable | Missing | AnchorFailed | TreasuryFailed | IntegrityRejected

  // ---- entities ----

  datatype MandateStatus = Draft | IssuedActive | IssuedReserved | Revoking | Revoked | Expired

  datatype AttemptStatus =
    | Created | AuthValidated | PolicyDenied | Reserved | DispatchQueued | Dispatching
    | ExecutionUnknown | ChargeSucceeded | ChargeFailed | CancelledReleased

  datatype ReceiptEvidence = NotRequired | RequiredPending | ReceivedValid | ReceivedInvalid | MissingTimeout

  datatype BlockedReason =
    | MandateNotActive | MandateNotReservable | VendorNotAllowlisted | VendorNotFound
    | ReceiptCapabilityMissing | BudgetExceeded | TreasuryDenied(code: string)
    | ExecutionWorkerFailed | MandateExpiredBeforeDispatch | MandateRevokedBeforeDispatch
    | MandateNotDispatchable | AttemptNotDispatchable

  datatype Agent = Agent(id: string, name: string, active: bool)

  datatype Mandate = Mandate(
    id: Id, name: string, agentId: string, agentName: string, status: MandateStatus,
    budgetCapCents: int, reservedCents: int, consumedCents: int,
    requiresReceiptCapability: bool, approvedVendorIds: seq<string>,
    morphIssueTxId: string, morphRevokeTxId: Option<string>,
    expiresAt: Millis, createdAt: Millis, updatedAt: Millis)

  datatype Attempt = Attempt(
    id: Id, mandateId: Id, vendorId: string, amountCents: int, operatorId: string,
    status: AttemptStatus, financialOutcome: AttemptStatus, receiptEvidence: ReceiptEvidence,
    blockedReason: Option<BlockedReason>, chargeReference: Option<string>,
    paymentIdentifier: string, createdAt: Millis, updatedAt: Millis)

  datatype TaskKind = DispatchAttempt | ReconcileAttempt
  datatype TaskStatus = Queued | Leased | Completed | Failed

  datatype Task = Task(
    id: Id, kind: TaskKind, attemptId: Id, mandateId: Id, operatorId: Option<string>,
    leaseOwner: Option<string>, leaseExpiresAt: Option<Millis>, availableAt: Millis,
    status: TaskStatus, attemptCount: nat, createdAt: Millis, updatedAt: Millis,
    startedAt: Option<Millis>, completedAt: Option<Millis>)

  datatype AuditKind =
    | AuditAuthValidated | AuditMandateIssued | AuditMandateExpired | AuditMandateRevoked
    | AuditPolicyApproved | AuditAttemptBlocked | AuditAttemptReserved | AuditAttemptQueued
    | AuditAttemptDispatched | AuditReconciliationStarted | AuditAttemptReconciled
    | AuditFinancialOutcome | AuditReceiptUpdated

  datatype Audit = Audit(id: Id, mandateId: Id, attemptId: Option<Id>, kind: AuditKind, createdAt: Millis)

  datatype EntityType = OfMandate | OfAttempt | OfTask | OfSystem

  /** Event type and metadata in one value. */
  datatype EventKind =
    | MandateIssued | MandateRevoked | MandateExpired
    | EvtAuthValidated(mandateId: Id) | EvtPolicyDenied(reason: BlockedReason) | EvtPolicyApproved | EvtTreasuryEnforced
    | EvtReserved(amountCents: int) | EvtQueued(queuedTask: Id) | EvtDispatched(dispatchTask: Id)
    | EvtReconciliationStarted(reconcileTask: Id, payloadJson: string, requirementsJson: string)
    | EvtReceiptUpdated(evidence: ReceiptEvidence)
    | EvtFinancialOutcome(outcome: AttemptStatus, finalAmountCents: int)
    | EvtReconciled(reconciledTo: AttemptStatus)
    | EvtWorkerFailed
    | EvtTaskEnqueued | EvtTaskCompleted | EvtTaskFailed | EvtTaskRequeued

  datatype Event = Event(id: Id, entityType: EntityType, entityId: Id, kind: EventKind, occurredAt: Millis)

  datatype GroupedApproval = GroupedApproval(id: Id, entityId: Id)

  /** The store as the code holds it: arrays, newest entry first. */
  datatype StoreData = StoreData(
    agents: seq<Agent>, mandates: seq<Mandate>, attempts: seq<Attempt>, workerTasks: seq<Task>,
    auditEntries: seq<Audit>, domainEvents: seq<Event>, groupedApprovals: seq<GroupedApproval>)

  // ---- vendors ----

  datatype Vendor = Vendor(id: string, fallbackOnly: bool, receiptCapability: bool)

  const VENDOR_REGISTRY: seq<Vendor> :=
    [ Vendor("morph-market-data", false, true),
      Vendor("morph-research-net", false, true),
      Vendor("mandate402-demo-wrapper", true, true) ]

  predicate Registered(vendorId: string) {
    exists v :: v in VENDOR_REGISTRY && v.id == vendorId
  }

  function FindVendor(vendorId: string): (r: Option<Vendor>)
    ensures r.Some? <==> Registered(vendorId)
    ensures r.Some? ==> r.value in VENDOR_REGISTRY && r.value.id == vendorId
  {
    FindVendorIn(VENDOR_REGISTRY, vendorId)
  }

  function FindVendorIn(vs: seq<Vendor>, vendorId: string): (r: Option<Vendor>)
    ensures r.Some? <==> exists v :: v in vs && v.id == vendorId
    ensures r.Some? ==> r.value in vs && r.value.id == vendorId
  {
    if vs == [] then None
    else if vs[0].id == vendorId then Some(vs[0])
    else FindVendorIn(vs[1..], vendorId)
  }

  // ---- text ----

  /** White space as `String.prototype.trim` strips it. */
  predicate IsSpace(c: char) {
    var n := c as int;
    || 9 <= n <= 13 || n == 32 || n == 0xA0 || n == 0x1680 || 0x2000 <= n <= 0x200A
    || n == 0x2028 || n == 0x2029 || n == 0x202F || n == 0x205F || n == 0x3000 || n == 0xFEFF
  }

  predicate Blank(s: string) {
    forall c :: c in s ==> IsSpace(c)
  }

  function TrimStart(s: string): (r: string)
    ensures r == [] || !IsSpace(r[0])
    ensures r == [] <==> Blank(s)
  {
    if s == [] then []
    else if IsSpace(s[0]) then TrimStart(s[1..])
    else assert s[0] in s; s
  }

  function TrimEnd(s: string): (r: string)
    ensures r <= s
    ensures r == [] || !IsSpace(r[|r| - 1])
    ensures r == [] <==> Blank(s)
  {
    if s == [] then []
    else if IsSpace(s[|s| - 1]) then
      assert forall c :: c in s ==> c in s[..|s| - 1] || c == s[|s| - 1];
      TrimEnd(s[..|s| - 1])
    else assert s[|s| - 1] in s; s
  }

  function Trim(s: string): (r: string)
    ensures r == [] <==> Blank(s)
    ensures r != [] ==> !IsSpace(r[0]) && !IsSpace(r[|r| - 1])
  {
    var t := TrimStart(s);
    assert t != [] ==> t[0] in t;
    TrimEnd(t)
  }

  lemma {:induction false} TrimStartStrips(s: string) returns (i: nat)
    ensures i <= |s| && TrimStart(s) == s[i..] && Blank(s[..i])
  {
    if s == [] || !IsSpace(s[0]) {
      i := 0;
    } else {
      var k := TrimStartStrips(s[1..]);
      i := k + 1;
      assert s[..i] == [s[0]] + s[1..][..k] && s[1..][k..] == s[i..];
    }
  }

  lemma {:induction false} TrimEndStrips(s: string) returns (j: nat)
    ensures j <= |s| && TrimEnd(s) == s[..j] && Blank(s[j..])
  {
    if s == [] || !IsSpace(s[|s| - 1]) {
      j := |s|;
      assert s[..j] == s;
    } else {
      var front := s[..|s| - 1];
      j := TrimEndStrips(front);
      assert s[..j] == front[..j] && s[j..] == front[j..] + [s[|s| - 1]];
    }
  }

  /** Trimming takes white space off both ends and nothing else: what is left begins and ends with another character. */
  lemma TrimStrips(s: string) returns (i: nat, j: nat)
    ensures i <= j <= |s| && Trim(s) == s[i..j] && Blank(s[..i]) && Blank(s[j..])
    ensures i < j ==> !IsSpace(s[i]) && !IsSpace(s[j - 1])
  {
    i := TrimStartStrips(s);
    var k := TrimEndStrips(s[i..]);
    j := i + k;
    assert s[i..][..k] == s[i..j] && s[i..][k..] == s[j..];
  }

  /** The vendors there are, all able to produce receipts. */
  lemma RegistryIs(vendorId: string)
    ensures Registered(vendorId) <==> vendorId in {"morph-market-data", "morph-research-net", "mandate402-demo-wrapper"}
    ensures Registered(vendorId) ==> FindVendor(vendorId).value.receiptCapability
  {
    assert VENDOR_REGISTRY[0].id == "morph-market-data" && VENDOR_REGISTRY[1].id == "morph-research-net";
    assert VENDOR_REGISTRY[2].id == "mandate402-demo-wrapper";
    assert VENDOR_REGISTRY[0] in VENDOR_REGISTRY && VENDOR_REGISTRY[1] in VENDOR_REGISTRY && VENDOR_REGISTRY[2] in VENDOR_REGISTRY;
  }
}

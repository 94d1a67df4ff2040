/** What a request to spend comes to, told by the request, the mandate's row and the treasury's answer alone. */
module RequestTheorems {
  import opened Domain
  import opened Policy
  import opened Ledger
  import opened Money
  import opened Entries
  import opened Protocol

  // ---- the policy ----

  predicate Live(m: Mandate, now: Millis) {
    m.status == IssuedActive && now < m.expiresAt
  }

  /** The reason is the first that applies: every earlier one does not. */
  predicate RefusedBecause(m: Mandate, vendor: Option<Vendor>, amountCents: int, now: Millis, reason: BlockedReason) {
    var reservable := Live(m, now) && m.reservedCents == 0;
    var listed := reservable && vendor.Some? && vendor.value.id in m.approvedVendorIds;
    var capable := listed && (m.requiresReceiptCapability ==> vendor.value.receiptCapability);
    match reason
    case MandateNotActive => !Live(m, now)
    case MandateNotReservable => Live(m, now) && m.reservedCents != 0
    case VendorNotFound => reservable && vendor.None?
    case VendorNotAllowlisted => reservable && vendor.Some? && vendor.value.id !in m.approvedVendorIds
    case ReceiptCapabilityMissing => listed && m.requiresReceiptCapability && !vendor.value.receiptCapability
    case BudgetExceeded => capable && m.budgetCapCents < m.consumedCents + amountCents
    case _ => false
  }

  lemma PolicyGivesTheFirstReason(m: Mandate, vendor: Option<Vendor>, amountCents: int, now: Millis, reason: BlockedReason)
    ensures EvaluatePolicy(m, vendor, amountCents, now) == Denied(reason) <==> RefusedBecause(m, vendor, amountCents, now, reason)
  {}

  /** The mandate has nothing reserved, approves the vendor and has room for the amount. */
  predicate MayReserve(m: Mandate, vendorId: string, amountCents: int, now: Millis) {
    && Live(m, now) && m.reservedCents == 0 && vendorId in m.approvedVendorIds
    && m.consumedCents + amountCents <= m.budgetCapCents
  }

  /** Every registered vendor can produce receipts, so that condition never decides. */
  lemma PolicyApprovesIff(m: Mandate, vendorId: string, amountCents: int, now: Millis)
    requires Registered(vendorId)
    ensures EvaluatePolicy(m, FindVendor(vendorId), amountCents, now).Approved? <==> MayReserve(m, vendorId, amountCents, now)
  {
    RegistryIs(vendorId);
    ApprovalLeavesRoom(m, FindVendor(vendorId), amountCents, now);
  }

  // ---- when a request commits ----

  /** The identifier given is on some attempt already. */
  ghost predicate OnRecord(l: Ledger, input: RunInput) {
    && input.paymentIdentifier.Some? && input.paymentIdentifier.value != ""
    && exists a :: a in l.attempts && l.attempts[a].paymentIdentifier == input.paymentIdentifier.value
  }

  predicate WellFormed(input: RunInput) {
    && 0 < input.amountCents && !Blank(input.vendorId) && !Blank(input.operatorId)
    && (input.paymentIdentifier.Some? && input.paymentIdentifier.value != "" ==> !Blank(input.paymentIdentifier.value))
  }

  lemma NotOnRecordIsNew(l: Ledger, input: RunInput, generated: string, treasury: Treasury, now: Millis)
    requires !OnRecord(l, input) && WellFormed(input) && input.mandateId in l.mandates
    ensures
      var identifier := if input.paymentIdentifier.Some? then input.paymentIdentifier.value else generated;
      RunAttempt(l, input, generated, treasury, now) == RunNew(l, input, identifier, treasury, now)
  {
    if input.paymentIdentifier.Some? && input.paymentIdentifier.value != "" {
      var p := input.paymentIdentifier.value;
      assert forall a :: a in l.attempts ==> l.attempts[a].paymentIdentifier != p;
    }
  }

  lemma ChecksComeFirst(l: Ledger, input: RunInput, generated: string, treasury: Treasury, now: Millis)
    ensures !WellFormed(input) ==> RunAttempt(l, input, generated, treasury, now) == Err(Validation)
    ensures WellFormed(input) && input.mandateId !in l.mandates ==> RunAttempt(l, input, generated, treasury, now) == Err(NotFound)
  {}

  lemma OnlyTheTreasuryThrows(l: Ledger, a: Attempt, treasury: Treasury, now: Millis)
    requires a.mandateId in l.mandates && Registered(a.vendorId)
    ensures
      var r := Admitted(l, a, FindVendor(a.vendorId).value, treasury, now);
      if MayReserve(l.mandates[a.mandateId], a.vendorId, a.amountCents, now) && treasury.TreasuryThrows? then r == Err(TreasuryFailed)
      else r.Ok?
  {
    PolicyApprovesIff(l.mandates[a.mandateId], a.vendorId, a.amountCents, now);
    AdmittedByPolicy(l, a, FindVendor(a.vendorId).value, treasury, now);
  }

  /** A request with a new identifier is answered exactly if it is well formed, names a mandate and a registered vendor,
      does not run into a treasury that throws, and is not stored under an empty identifier. */
  lemma WhenANewRequestCommits(l: Ledger, input: RunInput, generated: string, treasury: Treasury, now: Millis)
    requires !OnRecord(l, input) && generated != ""
    ensures
      var r := RunAttempt(l, input, generated, treasury, now);
      if !WellFormed(input) then r == Err(Validation)
      else if input.mandateId !in l.mandates || !Registered(Trim(input.vendorId)) then r == Err(NotFound)
      else if MayReserve(l.mandates[input.mandateId], Trim(input.vendorId), input.amountCents, now) && treasury.TreasuryThrows?
      then r == Err(TreasuryFailed)
      else if input.paymentIdentifier == Some("") then r == Err(IntegrityRejected)
      else r.Ok?
  {
    if !WellFormed(input) || input.mandateId !in l.mandates {
      ChecksComeFirst(l, input, generated, treasury, now);
    } else {
      NotOnRecordIsNew(l, input, generated, treasury, now);
      if Registered(Trim(input.vendorId)) {
        OnlyTheTreasuryThrows(l, AttemptFor(l, input, generated, now), treasury, now);
      }
    }
  }

  /** In any state a request that commits takes effect on the ledger and on nothing else, and one that fails, as when
      the treasury throws, leaves everything as it was. */
  lemma RequestsCommitOrChangeNothing(s: Sys, input: RunInput, generated: string, treasury: Treasury)
    requires FreshIdentifier(s.ledger, generated)
    ensures Do(s, Run(input, generated, treasury)) ==
      match RunAttempt(s.ledger, input, generated, treasury, s.now)
      case Ok(ran) => s.(ledger := ran.ledger)
      case Err(_) => s
  {}

  lemma CommittedIsAdmitted(l: Ledger, input: RunInput, generated: string, treasury: Treasury, now: Millis)
    requires !OnRecord(l, input) && generated != "" && RunAttempt(l, input, generated, treasury, now).Ok?
    ensures input.mandateId in l.mandates && Registered(Trim(input.vendorId)) && WellFormed(input)
    ensures input.paymentIdentifier != Some("")
    ensures
      var a := AttemptFor(l, input, generated, now);
      RunAttempt(l, input, generated, treasury, now) == Admitted(l, a, FindVendor(Trim(input.vendorId)).value, treasury, now)
  {
    WhenANewRequestCommits(l, input, generated, treasury, now);
    NotOnRecordIsNew(l, input, generated, treasury, now);
  }

  // ---- what a request leaves behind ----

  predicate Reserves(m: Mandate, input: RunInput, treasury: Treasury, now: Millis) {
    && MayReserve(m, Trim(input.vendorId), input.amountCents, now)
    && (treasury == TreasuryApproved || treasury == TreasuryNotEnforced)
  }

  predicate TurnsDown(m: Mandate, input: RunInput, treasury: Treasury, now: Millis) {
    MayReserve(m, Trim(input.vendorId), input.amountCents, now) && treasury.TreasuryDenies?
  }

  /** The ledger just before the amount is reserved. */
  function Cleared(l: Ledger, b: Attempt, treasury: Treasury, now: Millis): Ledger {
    var approved := Approve(Admit(l, b, now), b, now);
    if treasury.TreasuryApproved? then TreasuryEnforced(approved, b, now) else approved
  }

  /** The ledger just before the policy's denial is stored. */
  function Refused(l: Ledger, b: Attempt, now: Millis): Ledger
    requires b.mandateId in l.mandates
  {
    var m := l.mandates[b.mandateId];
    if m.status == IssuedActive && m.expiresAt <= now then ExpireMandate(Admit(l, b, now), b.mandateId, now) else Admit(l, b, now)
  }

  lemma ReservingRun(l: Ledger, input: RunInput, generated: string, treasury: Treasury, now: Millis)
    requires !OnRecord(l, input) && generated != "" && RunAttempt(l, input, generated, treasury, now).Ok?
    requires input.mandateId in l.mandates && Reserves(l.mandates[input.mandateId], input, treasury, now)
    ensures
      var a := AttemptFor(l, input, generated, now);
      var b := Authenticated(a);
      Cleared(l, b, treasury, now).mandates == l.mandates
      && RunAttempt(l, input, generated, treasury, now) == Ok(After(a, b, Reserve(Cleared(l, b, treasury, now), b, now)))
  {
    CommittedIsAdmitted(l, input, generated, treasury, now);
    PolicyApprovesIff(l.mandates[input.mandateId], Trim(input.vendorId), input.amountCents, now);
    AdmittedByPolicy(l, AttemptFor(l, input, generated, now), FindVendor(Trim(input.vendorId)).value, treasury, now);
  }

  lemma TurnedDownRun(l: Ledger, input: RunInput, generated: string, treasury: Treasury, now: Millis)
    requires !OnRecord(l, input) && generated != "" && RunAttempt(l, input, generated, treasury, now).Ok?
    requires input.mandateId in l.mandates && TurnsDown(l.mandates[input.mandateId], input, treasury, now)
    ensures
      var a := AttemptFor(l, input, generated, now);
      var b := Authenticated(a);
      RunAttempt(l, input, generated, treasury, now) ==
        Ok(After(a, b, Deny(Approve(Admit(l, b, now), b, now), b, TreasuryDenied(treasury.code), now)))
  {
    CommittedIsAdmitted(l, input, generated, treasury, now);
    PolicyApprovesIff(l.mandates[input.mandateId], Trim(input.vendorId), input.amountCents, now);
    AdmittedByPolicy(l, AttemptFor(l, input, generated, now), FindVendor(Trim(input.vendorId)).value, treasury, now);
  }

  lemma RefusedRun(l: Ledger, input: RunInput, generated: string, treasury: Treasury, now: Millis) returns (reason: BlockedReason)
    requires !OnRecord(l, input) && generated != "" && RunAttempt(l, input, generated, treasury, now).Ok?
    requires input.mandateId in l.mandates && !MayReserve(l.mandates[input.mandateId], Trim(input.vendorId), input.amountCents, now)
    ensures RefusedBecause(l.mandates[input.mandateId], FindVendor(Trim(input.vendorId)), input.amountCents, now, reason)
    ensures
      var a := AttemptFor(l, input, generated, now);
      var b := Authenticated(a);
      RunAttempt(l, input, generated, treasury, now) == Ok(After(a, b, Deny(Refused(l, b, now), b, reason, now)))
  {
    CommittedIsAdmitted(l, input, generated, treasury, now);
    var m, vendor := l.mandates[input.mandateId], FindVendor(Trim(input.vendorId));
    PolicyApprovesIff(m, Trim(input.vendorId), input.amountCents, now);
    AdmittedByPolicy(l, AttemptFor(l, input, generated, now), vendor.value, treasury, now);
    reason := EvaluatePolicy(m, vendor, input.amountCents, now).reason;
    PolicyGivesTheFirstReason(m, vendor, input.amountCents, now, reason);
  }

  /** Every case: reserved, turned down by the treasury, or refused by the policy. */
  lemma OneOfThree(l: Ledger, input: RunInput, generated: string, treasury: Treasury, now: Millis)
    requires !OnRecord(l, input) && generated != "" && RunAttempt(l, input, generated, treasury, now).Ok?
    ensures input.mandateId in l.mandates
    ensures
      var m := l.mandates[input.mandateId];
      Reserves(m, input, treasury, now) || TurnsDown(m, input, treasury, now)
      || !MayReserve(m, Trim(input.vendorId), input.amountCents, now)
  {
    WhenANewRequestCommits(l, input, generated, treasury, now);
  }

  /** The new attempt carries the terms of the request. */
  ghost predicate AsRequested(a: Attempt, id: Id, input: RunInput, generated: string, now: Millis) {
    && a.id == id && a.mandateId == input.mandateId && a.vendorId == Trim(input.vendorId) && a.operatorId == Trim(input.operatorId)
    && a.amountCents == input.amountCents && a.chargeReference == None && a.createdAt == now == a.updatedAt
    && a.paymentIdentifier == (if input.paymentIdentifier.Some? then input.paymentIdentifier.value else generated)
    && a.financialOutcome == a.status
  }

  /** It is queued exactly if the policy's condition holds and the treasury approved or was not asked; otherwise it is
      denied, with the treasury's code if that is what turned it down, and with the first reason of the policy if not. */
  ghost predicate StatusAsDecided(a: Attempt, m: Mandate, input: RunInput, treasury: Treasury, now: Millis) {
    if Reserves(m, input, treasury, now) then
      && a.status == DispatchQueued && a.blockedReason == None
      && a.receiptEvidence == (if m.requiresReceiptCapability then RequiredPending else NotRequired)
    else
      && a.status == PolicyDenied && a.receiptEvidence == NotRequired && a.blockedReason.Some?
      && (if TurnsDown(m, input, treasury, now) then a.blockedReason.value == TreasuryDenied(treasury.code)
          else RefusedBecause(m, FindVendor(Trim(input.vendorId)), input.amountCents, now, a.blockedReason.value))
  }

  /** Entries only, and at most the mandate expired. */
  ghost predicate Carries(l: Ledger, ready: Ledger) {
    ready.attempts == l.attempts && ready.tasks == l.tasks && ready.agents == l.agents && l.nextId <= ready.nextId
  }

  lemma DeniedOutcome(l: Ledger, ready: Ledger, a: Attempt, b: Attempt, reason: BlockedReason, now: Millis)
    requires Carries(l, ready)
    ensures
      var ran := After(a, b, Deny(ready, b, reason, now));
      && ran.ledger.attempts == l.attempts[b.id := ran.attempt] && ran.ledger.tasks == l.tasks && ran.ledger.agents == l.agents
      && ran.ledger.mandates == ready.mandates
      && ran.attempt == b.(status := PolicyDenied, financialOutcome := PolicyDenied, blockedReason := Some(reason), updatedAt := now)
  {}

  lemma ReservedOutcome(l: Ledger, ready: Ledger, a: Attempt, b: Attempt, now: Millis)
    requires Carries(l, ready) && b.mandateId in l.mandates && ready.mandates == l.mandates
    ensures
      var ran, m := After(a, b, Reserve(ready, b, now)), l.mandates[b.mandateId];
      && ran.ledger.attempts == l.attempts[b.id := ran.attempt] && ran.ledger.agents == l.agents
      && ran.attempt == b.(status := DispatchQueued, financialOutcome := DispatchQueued, updatedAt := now,
                           receiptEvidence := if m.requiresReceiptCapability then RequiredPending else NotRequired)
  {}

  lemma RefusedCarries(l: Ledger, b: Attempt, now: Millis)
    requires b.id == l.nextId && b.mandateId in l.mandates
    ensures Carries(l, Refused(l, b, now))
    ensures
      var m := l.mandates[b.mandateId];
      Refused(l, b, now).mandates == if m.status == IssuedActive && m.expiresAt <= now
                                     then l.mandates[b.mandateId := m.(status := Expired, updatedAt := now)] else l.mandates
  {}

  lemma ClearedCarries(l: Ledger, b: Attempt, treasury: Treasury, now: Millis)
    requires b.id == l.nextId
    ensures Carries(l, Cleared(l, b, treasury, now)) && Carries(l, Approve(Admit(l, b, now), b, now))
    ensures Cleared(l, b, treasury, now).mandates == l.mandates == Approve(Admit(l, b, now), b, now).mandates
  {}

  lemma TheAttemptStored(l: Ledger, input: RunInput, generated: string, treasury: Treasury, now: Millis)
    requires !OnRecord(l, input) && generated != "" && RunAttempt(l, input, generated, treasury, now).Ok?
    ensures input.mandateId in l.mandates
    ensures
      var ran := RunAttempt(l, input, generated, treasury, now).value;
      && ran.ledger.attempts == l.attempts[l.nextId := ran.attempt] && ran.ledger.agents == l.agents
      && AsRequested(ran.attempt, l.nextId, input, generated, now)
      && StatusAsDecided(ran.attempt, l.mandates[input.mandateId], input, treasury, now)
  {
    OneOfThree(l, input, generated, treasury, now);
    var m, a := l.mandates[input.mandateId], AttemptFor(l, input, generated, now);
    var b := Authenticated(a);
    ClearedCarries(l, b, treasury, now);
    if Reserves(m, input, treasury, now) {
      ReservingRun(l, input, generated, treasury, now);
      ReservedOutcome(l, Cleared(l, b, treasury, now), a, b, now);
    } else if TurnsDown(m, input, treasury, now) {
      TurnedDownRun(l, input, generated, treasury, now);
      DeniedOutcome(l, Approve(Admit(l, b, now), b, now), a, b, TreasuryDenied(treasury.code), now);
    } else {
      var reason := RefusedRun(l, input, generated, treasury, now);
      RefusedCarries(l, b, now);
      DeniedOutcome(l, Refused(l, b, now), a, b, reason, now);
    }
  }

  /** A reservation takes the amount on the mandate and makes one dispatch task; without one no task is made, and the
      mandate stays as it was but for one found past its expiry, which is expired. */
  ghost predicate RowsAsDecided(l: Ledger, l': Ledger, a: Attempt, input: RunInput, treasury: Treasury, now: Millis)
    requires input.mandateId in l.mandates
  {
    var m := l.mandates[input.mandateId];
    if Reserves(m, input, treasury, now) then
      && l'.mandates == l.mandates[input.mandateId := m.(reservedCents := input.amountCents, status := IssuedReserved, updatedAt := now)]
      && exists t :: NewDispatch(l, l', t, a, now)
    else
      && l'.tasks == l.tasks
      && l'.mandates == if m.status == IssuedActive && m.expiresAt <= now
                        then l.mandates[input.mandateId := m.(status := Expired, updatedAt := now)] else l.mandates
  }

  ghost predicate NewDispatch(l: Ledger, l': Ledger, t: Id, a: Attempt, now: Millis) {
    && l.nextId <= t < l'.nextId && t in l'.tasks && l'.tasks == l.tasks[t := l'.tasks[t]] && l'.tasks[t].id == t
    && NewlyQueued(l'.tasks[t], DispatchAttempt, a.id, a.mandateId, a.operatorId, now)
  }

  lemma ReservedRows(l: Ledger, ready: Ledger, b: Attempt, now: Millis)
    requires b.mandateId in l.mandates && ready.mandates == l.mandates && ready.tasks == l.tasks && l.nextId <= ready.nextId
    requires l.mandates[b.mandateId].reservedCents == 0
    ensures
      var ran, m := Reserve(ready, b, now), l.mandates[b.mandateId];
      && ran.ledger.mandates == l.mandates[b.mandateId := m.(reservedCents := b.amountCents, status := IssuedReserved, updatedAt := now)]
      && NewDispatch(l, ran.ledger, Hold(ready, b, now).nextId, ran.attempt, now)
  {
    var held := Hold(ready, b, now);
    assert held.tasks == l.tasks;
  }

  lemma TheRowsLeft(l: Ledger, input: RunInput, generated: string, treasury: Treasury, now: Millis)
    requires !OnRecord(l, input) && generated != "" && RunAttempt(l, input, generated, treasury, now).Ok?
    ensures input.mandateId in l.mandates
    ensures
      var ran := RunAttempt(l, input, generated, treasury, now).value;
      RowsAsDecided(l, ran.ledger, ran.attempt, input, treasury, now)
  {
    OneOfThree(l, input, generated, treasury, now);
    var m, a := l.mandates[input.mandateId], AttemptFor(l, input, generated, now);
    var b := Authenticated(a);
    ClearedCarries(l, b, treasury, now);
    if Reserves(m, input, treasury, now) {
      ReservingRun(l, input, generated, treasury, now);
      ReservedRows(l, Cleared(l, b, treasury, now), b, now);
    } else if TurnsDown(m, input, treasury, now) {
      TurnedDownRun(l, input, generated, treasury, now);
      DeniedOutcome(l, Approve(Admit(l, b, now), b, now), a, b, TreasuryDenied(treasury.code), now);
    } else {
      var reason := RefusedRun(l, input, generated, treasury, now);
      RefusedCarries(l, b, now);
      DeniedOutcome(l, Refused(l, b, now), a, b, reason, now);
    }
  }

  /** What every request that commits and is no repeat does: the attempt it stores, the reservation and the task, or
      neither. */
  lemma NewRequestsFollowPolicyAndTreasury(l: Ledger, input: RunInput, generated: string, treasury: Treasury, now: Millis)
    requires !OnRecord(l, input) && generated != "" && RunAttempt(l, input, generated, treasury, now).Ok?
    ensures input.mandateId in l.mandates
    ensures
      var ran := RunAttempt(l, input, generated, treasury, now).value;
      && ran.ledger.attempts == l.attempts[l.nextId := ran.attempt] && ran.ledger.agents == l.agents
      && AsRequested(ran.attempt, l.nextId, input, generated, now)
      && StatusAsDecided(ran.attempt, l.mandates[input.mandateId], input, treasury, now)
      && RowsAsDecided(l, ran.ledger, ran.attempt, input, treasury, now)
  {
    TheAttemptStored(l, input, generated, treasury, now);
    TheRowsLeft(l, input, generated, treasury, now);
  }

  // ---- the treasury's say on its own ----

  /** The attempt is stored as denied for this reason; nothing is reserved. */
  ghost predicate DeniedOnly(l: Ledger, l': Ledger, a: Attempt, b: Attempt, reason: BlockedReason, now: Millis) {
    && b == a.(status := PolicyDenied, financialOutcome := PolicyDenied, blockedReason := Some(reason), updatedAt := now)
    && l'.attempts == l.attempts[a.id := b] && l'.mandates == l.mandates && l'.tasks == l.tasks && l'.agents == l.agents
  }

  /** The attempt is stored as queued, its amount is added to what the mandate reserves, and it has a dispatch task. */
  ghost predicate ReservedOnly(l: Ledger, l': Ledger, a: Attempt, b: Attempt, now: Millis) {
    && a.mandateId in l.mandates && l'.attempts == l.attempts[a.id := b] && l'.agents == l.agents
    && (var m := l.mandates[a.mandateId];
        && b == a.(status := DispatchQueued, financialOutcome := DispatchQueued, updatedAt := now,
                   receiptEvidence := if m.requiresReceiptCapability then RequiredPending else NotRequired)
        && l'.mandates == l.mandates[a.mandateId :=
             m.(reservedCents := m.reservedCents + a.amountCents, status := IssuedReserved, updatedAt := now)])
    && exists t :: NewDispatch(l, l', t, b, now)
  }

  /** A denial is stored with its code, an approval reserves, as does a treasury that is not asked, and one that throws
      ends the request. */
  lemma EnforcedAsSaid(l: Ledger, a: Attempt, treasury: Treasury, now: Millis)
    requires a.mandateId in l.mandates
    ensures
      var r := Enforced(l, a, treasury, now);
      match treasury
      case TreasuryThrows => r == Err(TreasuryFailed)
      case TreasuryDenies(code) => r.Ok? && DeniedOnly(l, r.value.ledger, a, r.value.attempt, TreasuryDenied(code), now)
      case TreasuryApproved => r.Ok? && ReservedOnly(l, r.value.ledger, a, r.value.attempt, now)
      case TreasuryNotEnforced => r.Ok? && ReservedOnly(l, r.value.ledger, a, r.value.attempt, now)
  {
    match treasury
    case TreasuryApproved => HoldsAndQueues(l, TreasuryEnforced(l, a, now), a, now);
    case TreasuryNotEnforced => HoldsAndQueues(l, l, a, now);
    case _ =>
  }

  lemma HoldsAndQueues(l: Ledger, ready: Ledger, a: Attempt, now: Millis)
    requires a.mandateId in l.mandates && ready.mandates == l.mandates && Carries(l, ready)
    ensures ReservedOnly(l, Reserve(ready, a, now).ledger, a, Reserve(ready, a, now).attempt, now)
  {
    var held := Hold(ready, a, now);
    assert held.tasks == l.tasks;
    assert NewDispatch(l, Reserve(ready, a, now).ledger, held.nextId, Reserve(ready, a, now).attempt, now);
  }

  // ---- what it writes ----

  function On(b: Attempt, kind: AuditKind): AuditNote { AuditNote(b.mandateId, Some(b.id), kind) }
  function Of(b: Attempt, kind: EventKind): EventNote { EventNote(OfAttempt, b.id, kind) }

  /** The audit entries, newest first. */
  function AuditsOf(a: Attempt, m: Mandate, input: RunInput, treasury: Treasury, now: Millis): seq<AuditNote> {
    if Reserves(m, input, treasury, now) then
      [On(a, AuditAttemptQueued), On(a, AuditAttemptReserved)]
      + (if treasury.TreasuryApproved? then [On(a, AuditPolicyApproved)] else []) + [On(a, AuditPolicyApproved), On(a, AuditAuthValidated)]
    else if TurnsDown(m, input, treasury, now) then [On(a, AuditAttemptBlocked), On(a, AuditPolicyApproved), On(a, AuditAuthValidated)]
    else if m.status == IssuedActive && m.expiresAt <= now then
      [On(a, AuditAttemptBlocked), AuditNote(a.mandateId, None, AuditMandateExpired), On(a, AuditAuthValidated)]
    else [On(a, AuditAttemptBlocked), On(a, AuditAuthValidated)]
  }

  /** The domain events, newest first; `t` is the dispatch task, if there is one. */
  function EventsOf(a: Attempt, m: Mandate, input: RunInput, treasury: Treasury, t: Id, now: Millis): seq<EventNote> {
    if Reserves(m, input, treasury, now) then
      [EventNote(OfTask, t, EvtTaskEnqueued), Of(a, EvtQueued(t)), Of(a, EvtReserved(a.amountCents))]
      + (if treasury.TreasuryApproved? then [Of(a, EvtTreasuryEnforced)] else [])
      + [Of(a, EvtPolicyApproved), Of(a, EvtAuthValidated(a.mandateId))]
    else
      [Of(a, EvtPolicyDenied(if a.blockedReason.Some? then a.blockedReason.value else AttemptNotDispatchable))]
      + (if TurnsDown(m, input, treasury, now) then [Of(a, EvtPolicyApproved)]
         else if m.status == IssuedActive && m.expiresAt <= now then [EventNote(OfMandate, a.mandateId, MandateExpired)] else [])
      + [Of(a, EvtAuthValidated(a.mandateId))]
  }

  lemma AdmitWrites(l: Ledger, b: Attempt, now: Millis)
    requires b.id == l.nextId
    ensures Writes(l, Admit(l, b, now), [On(b, AuditAuthValidated)], [Of(b, EvtAuthValidated(b.mandateId))], now)
  {
    var l0 := l.(nextId := b.id + 1);
    NothingWritten(l, l0, now);
    NoteWritten(l, l0, [], [], b.mandateId, b.id, AuditAuthValidated, EvtAuthValidated(b.mandateId), now);
  }

  lemma ApproveWrites(l: Ledger, b: Attempt, now: Millis)
    requires b.id == l.nextId
    ensures Writes(l, Approve(Admit(l, b, now), b, now), [On(b, AuditPolicyApproved), On(b, AuditAuthValidated)],
                   [Of(b, EvtPolicyApproved), Of(b, EvtAuthValidated(b.mandateId))], now)
  {
    AdmitWrites(l, b, now);
    NoteWritten(l, Admit(l, b, now), [On(b, AuditAuthValidated)], [Of(b, EvtAuthValidated(b.mandateId))], b.mandateId, b.id,
                AuditPolicyApproved, EvtPolicyApproved, now);
  }

  lemma DenyWrites(l: Ledger, ready: Ledger, b: Attempt, reason: BlockedReason, audits: seq<AuditNote>, events: seq<EventNote>, now: Millis)
    requires Writes(l, ready, audits, events, now)
    ensures Writes(l, Deny(ready, b, reason, now).ledger, [On(b, AuditAttemptBlocked)] + audits,
                   [Of(b, EvtPolicyDenied(reason))] + events, now)
  {
    var stored := ready.(attempts := Deny(ready, b, reason, now).ledger.attempts);
    RowsBetween(l, ready, stored, audits, events, now);
    NoteWritten(l, stored, audits, events, b.mandateId, b.id, AuditAttemptBlocked, EvtPolicyDenied(reason), now);
  }

  lemma HoldWrites(l: Ledger, ready: Ledger, b: Attempt, audits: seq<AuditNote>, events: seq<EventNote>, now: Millis)
    requires Writes(l, ready, audits, events, now) && b.mandateId in ready.mandates
    ensures Writes(l, Hold(ready, b, now), [On(b, AuditAttemptReserved)] + audits, [Of(b, EvtReserved(b.amountCents))] + events, now)
  {
    var held := ready.(mandates := Hold(ready, b, now).mandates);
    RowsBetween(l, ready, held, audits, events, now);
    NoteWritten(l, held, audits, events, b.mandateId, b.id, AuditAttemptReserved, EvtReserved(b.amountCents), now);
  }

  lemma QueueWrites(l: Ledger, held: Ledger, a: Attempt, audits: seq<AuditNote>, events: seq<EventNote>, now: Millis)
    requires Writes(l, held, audits, events, now)
    ensures
      var t := held.nextId;
      Writes(l, Queue(held, a, now), [On(a, AuditAttemptQueued)] + audits,
             [EventNote(OfTask, t, EvtTaskEnqueued)] + ([Of(a, EvtQueued(t))] + events), now)
  {
    var t, l' := held.nextId, Queue(held, a, now);
    var stored := held.(attempts := l'.attempts, tasks := l'.tasks, nextId := t + 1);
    RowsBetween(l, held, stored, audits, events, now);
    NoteWritten(l, stored, audits, events, a.mandateId, a.id, AuditAttemptQueued, EvtQueued(t), now);
    EventWritten(l, WithEvent(WithAudit(stored, a.mandateId, AuditAttemptQueued, Some(a.id), now), OfAttempt, a.id, EvtQueued(t), now),
                 [On(a, AuditAttemptQueued)] + audits, [Of(a, EvtQueued(t))] + events, OfTask, t, EvtTaskEnqueued, now);
  }

  lemma ClearedWrites(l: Ledger, b: Attempt, treasury: Treasury, now: Millis) returns (audits: seq<AuditNote>, events: seq<EventNote>)
    requires b.id == l.nextId
    ensures Writes(l, Cleared(l, b, treasury, now), audits, events, now)
    ensures audits == (if treasury.TreasuryApproved? then [On(b, AuditPolicyApproved)] else [])
                      + [On(b, AuditPolicyApproved), On(b, AuditAuthValidated)]
    ensures events == (if treasury.TreasuryApproved? then [Of(b, EvtTreasuryEnforced)] else [])
                      + [Of(b, EvtPolicyApproved), Of(b, EvtAuthValidated(b.mandateId))]
  {
    ApproveWrites(l, b, now);
    audits := [On(b, AuditPolicyApproved), On(b, AuditAuthValidated)];
    events := [Of(b, EvtPolicyApproved), Of(b, EvtAuthValidated(b.mandateId))];
    if treasury.TreasuryApproved? {
      NoteWritten(l, Approve(Admit(l, b, now), b, now), audits, events, b.mandateId, b.id, AuditPolicyApproved, EvtTreasuryEnforced, now);
      audits, events := [On(b, AuditPolicyApproved)] + audits, [Of(b, EvtTreasuryEnforced)] + events;
    }
  }

  lemma RefusedWrites(l: Ledger, b: Attempt, now: Millis) returns (audits: seq<AuditNote>, events: seq<EventNote>)
    requires b.id == l.nextId && b.mandateId in l.mandates
    ensures Writes(l, Refused(l, b, now), audits, events, now)
    ensures
      var m := l.mandates[b.mandateId];
      var expired := m.status == IssuedActive && m.expiresAt <= now;
      && audits == (if expired then [AuditNote(b.mandateId, None, AuditMandateExpired)] else []) + [On(b, AuditAuthValidated)]
      && events == (if expired then [EventNote(OfMandate, b.mandateId, MandateExpired)] else []) + [Of(b, EvtAuthValidated(b.mandateId))]
  {
    AdmitWrites(l, b, now);
    audits, events := [On(b, AuditAuthValidated)], [Of(b, EvtAuthValidated(b.mandateId))];
    var m := l.mandates[b.mandateId];
    if m.status == IssuedActive && m.expiresAt <= now {
      var l1 := Admit(l, b, now);
      var l2 := l1.(mandates := ExpireMandate(l1, b.mandateId, now).mandates);
      RowsBetween(l, l1, l2, audits, events, now);
      AuditWritten(l, l2, audits, events, b.mandateId, AuditMandateExpired, None, now);
      audits := [AuditNote(b.mandateId, None, AuditMandateExpired)] + audits;
      EventWritten(l, WithAudit(l2, b.mandateId, AuditMandateExpired, None, now), audits, events, OfMandate, b.mandateId, MandateExpired,
                   now);
      events := [EventNote(OfMandate, b.mandateId, MandateExpired)] + events;
    }
  }

  lemma ReserveWrites(l: Ledger, ready: Ledger, b: Attempt, audits: seq<AuditNote>, events: seq<EventNote>, now: Millis)
    requires Writes(l, ready, audits, events, now) && b.mandateId in ready.mandates
    ensures
      var ran, t := Reserve(ready, b, now), Hold(ready, b, now).nextId;
      Writes(l, ran.ledger, [On(b, AuditAttemptQueued), On(b, AuditAttemptReserved)] + audits,
             [EventNote(OfTask, t, EvtTaskEnqueued), Of(b, EvtQueued(t)), Of(b, EvtReserved(b.amountCents))] + events, now)
  {
    var ran, t := Reserve(ready, b, now), Hold(ready, b, now).nextId;
    HoldWrites(l, ready, b, audits, events, now);
    QueueWrites(l, Hold(ready, b, now), ran.attempt, [On(b, AuditAttemptReserved)] + audits,
                [Of(b, EvtReserved(b.amountCents))] + events, now);
    SameNotes(b, ran.attempt, t, audits, events);
  }

  /** The entries name the attempt by its id, so they are the same for the attempt at any of its statuses. */
  lemma SameNotes(b: Attempt, a: Attempt, t: Id, audits: seq<AuditNote>, events: seq<EventNote>)
    requires a.id == b.id && a.mandateId == b.mandateId && a.amountCents == b.amountCents
    ensures [On(a, AuditAttemptQueued)] + ([On(b, AuditAttemptReserved)] + audits)
         == [On(b, AuditAttemptQueued), On(b, AuditAttemptReserved)] + audits
    ensures [EventNote(OfTask, t, EvtTaskEnqueued)] + ([Of(a, EvtQueued(t))] + ([Of(b, EvtReserved(b.amountCents))] + events))
         == [EventNote(OfTask, t, EvtTaskEnqueued), Of(b, EvtQueued(t)), Of(b, EvtReserved(b.amountCents))] + events
  {}

  lemma ReservedNotes(b: Attempt, a: Attempt, m: Mandate, input: RunInput, treasury: Treasury, t: Id, now: Millis)
    requires a.id == b.id && a.mandateId == b.mandateId && a.amountCents == b.amountCents && Reserves(m, input, treasury, now)
    ensures AuditsOf(a, m, input, treasury, now) ==
      [On(b, AuditAttemptQueued), On(b, AuditAttemptReserved)]
      + ((if treasury.TreasuryApproved? then [On(b, AuditPolicyApproved)] else [])
         + [On(b, AuditPolicyApproved), On(b, AuditAuthValidated)])
    ensures EventsOf(a, m, input, treasury, t, now) ==
      [EventNote(OfTask, t, EvtTaskEnqueued), Of(b, EvtQueued(t)), Of(b, EvtReserved(b.amountCents))]
      + ((if treasury.TreasuryApproved? then [Of(b, EvtTreasuryEnforced)] else [])
         + [Of(b, EvtPolicyApproved), Of(b, EvtAuthValidated(b.mandateId))])
  {}

  lemma ReservedWrites(l: Ledger, a: Attempt, m: Mandate, input: RunInput, treasury: Treasury, now: Millis)
    requires a.id == l.nextId && a.mandateId in l.mandates && Reserves(m, input, treasury, now)
    ensures Cleared(l, Authenticated(a), treasury, now).mandates == l.mandates
    ensures
      var b := Authenticated(a);
      var ready := Cleared(l, b, treasury, now);
      var ran, t := After(a, b, Reserve(ready, b, now)), Hold(ready, b, now).nextId;
      Writes(l, ran.ledger, AuditsOf(ran.attempt, m, input, treasury, now), EventsOf(ran.attempt, m, input, treasury, t, now), now)
  {
    var b := Authenticated(a);
    var ready := Cleared(l, b, treasury, now);
    ClearedCarries(l, b, treasury, now);
    var audits, events := ClearedWrites(l, b, treasury, now);
    ReserveWrites(l, ready, b, audits, events, now);
    ReservedNotes(b, Reserve(ready, b, now).attempt, m, input, treasury, Hold(ready, b, now).nextId, now);
  }

  lemma TurnedDownWrites(l: Ledger, a: Attempt, m: Mandate, input: RunInput, treasury: Treasury, t: Id, now: Millis)
    requires a.id == l.nextId && TurnsDown(m, input, treasury, now)
    ensures
      var b := Authenticated(a);
      var ran := After(a, b, Deny(Approve(Admit(l, b, now), b, now), b, TreasuryDenied(treasury.code), now));
      Writes(l, ran.ledger, AuditsOf(ran.attempt, m, input, treasury, now), EventsOf(ran.attempt, m, input, treasury, t, now), now)
  {
    var b := Authenticated(a);
    var ready, reason := Approve(Admit(l, b, now), b, now), TreasuryDenied(treasury.code);
    ApproveWrites(l, b, now);
    var audits := [On(b, AuditPolicyApproved), On(b, AuditAuthValidated)];
    var events := [Of(b, EvtPolicyApproved), Of(b, EvtAuthValidated(b.mandateId))];
    DenyWrites(l, ready, b, reason, audits, events, now);
    var denied := Deny(ready, b, reason, now).attempt;
    assert [On(b, AuditAttemptBlocked)] + audits == AuditsOf(denied, m, input, treasury, now);
    assert [Of(b, EvtPolicyDenied(reason))] + events == EventsOf(denied, m, input, treasury, t, now);
  }

  lemma PolicyRefusalWrites(l: Ledger, a: Attempt, input: RunInput, treasury: Treasury, reason: BlockedReason, t: Id, now: Millis)
    requires a.id == l.nextId && a.mandateId in l.mandates
    requires !MayReserve(l.mandates[a.mandateId], Trim(input.vendorId), input.amountCents, now)
    ensures
      var b, m := Authenticated(a), l.mandates[a.mandateId];
      var ran := After(a, b, Deny(Refused(l, b, now), b, reason, now));
      Writes(l, ran.ledger, AuditsOf(ran.attempt, m, input, treasury, now), EventsOf(ran.attempt, m, input, treasury, t, now), now)
  {
    var b, m := Authenticated(a), l.mandates[a.mandateId];
    var audits, events := RefusedWrites(l, b, now);
    DenyWrites(l, Refused(l, b, now), b, reason, audits, events, now);
    var denied := Deny(Refused(l, b, now), b, reason, now).attempt;
    assert [On(b, AuditAttemptBlocked)] + audits == AuditsOf(denied, m, input, treasury, now);
    assert [Of(b, EvtPolicyDenied(reason))] + events == EventsOf(denied, m, input, treasury, t, now);
  }

  /** The entries a new request writes, exactly. */
  lemma NewRequestsWriteEveryDecision(l: Ledger, input: RunInput, generated: string, treasury: Treasury, now: Millis)
    requires !OnRecord(l, input) && generated != "" && RunAttempt(l, input, generated, treasury, now).Ok?
    ensures input.mandateId in l.mandates
    ensures
      var ran, m := RunAttempt(l, input, generated, treasury, now).value, l.mandates[input.mandateId];
      exists t :: (Reserves(m, input, treasury, now) ==> NewDispatch(l, ran.ledger, t, ran.attempt, now))
                  && Writes(l, ran.ledger, AuditsOf(ran.attempt, m, input, treasury, now),
                            EventsOf(ran.attempt, m, input, treasury, t, now), now)
  {
    OneOfThree(l, input, generated, treasury, now);
    var m, a := l.mandates[input.mandateId], AttemptFor(l, input, generated, now);
    var b := Authenticated(a);
    if Reserves(m, input, treasury, now) {
      ReservingRun(l, input, generated, treasury, now);
      ClearedCarries(l, b, treasury, now);
      ReservedRows(l, Cleared(l, b, treasury, now), b, now);
      ReservedWrites(l, a, m, input, treasury, now);
    } else if TurnsDown(m, input, treasury, now) {
      TurnedDownRun(l, input, generated, treasury, now);
      TurnedDownWrites(l, a, m, input, treasury, 0, now);
    } else {
      var reason := RefusedRun(l, input, generated, treasury, now);
      PolicyRefusalWrites(l, a, input, treasury, reason, 0, now);
    }
  }
}

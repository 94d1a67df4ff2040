/** Budget safety: what every transaction keeps true of mandates and attempts. */
module Money {
  import opened Domain
  import opened StateMachines
  import opened Policy
  import opened Ledger

  /** The only statuses an attempt can rest in between transactions. */
  predicate Resting(status: AttemptStatus) {
    Open(status) || Settled(status) || status == PolicyDenied || status == CancelledReleased
  }

  ghost predicate AttemptOk(ms: map<Id, Mandate>, a: Attempt, id: Id) {
    && a.id == id && a.mandateId in ms && a.amountCents > 0
    && a.financialOutcome == a.status && Resting(a.status) && Registered(a.vendorId)
  }

  ghost predicate MandateOk(m: Mandate, id: Id) {
    && m.id == id && 0 < m.budgetCapCents
    && 0 <= m.reservedCents && 0 <= m.consumedCents && m.reservedCents + m.consumedCents <= m.budgetCapCents
    && (m.status == IssuedActive || m.status == IssuedReserved || m.status == Revoked || m.status == Expired)
  }

  ghost predicate OpenOn(ats: map<Id, Attempt>, a: Id, m: Id) {
    a in ats && Open(ats[a].status) && ats[a].mandateId == m
  }

  /** The mandate holds exactly the open attempt's amount, and can reserve no more while it is open. */
  ghost predicate Holds(m: Mandate, a: Attempt) {
    m.reservedCents == a.amountCents && (m.status == IssuedReserved || m.status == Revoked)
  }

  /** One mandate: at most one open attempt, reserved in full; nothing is reserved without one. */
  ghost predicate AccountOk(mandate: Mandate, ats: map<Id, Attempt>, m: Id) {
    && MandateOk(mandate, m)
    && (forall a, b :: OpenOn(ats, a, m) && OpenOn(ats, b, m) ==> a == b)
    && (forall a :: OpenOn(ats, a, m) ==> Holds(mandate, ats[a]))
    && (mandate.reservedCents != 0 || mandate.status == IssuedReserved ==> exists a :: OpenOn(ats, a, m))
  }

  ghost predicate MoneyInv(ms: map<Id, Mandate>, ats: map<Id, Attempt>) {
    && (forall m {:trigger AccountOk(ms[m], ats, m)} :: m in ms ==> AccountOk(ms[m], ats, m))
    && (forall a {:trigger AttemptOk(ms, ats[a], a)} :: a in ats ==> AttemptOk(ms, ats[a], a))
  }

  ghost predicate Sound(l: Ledger) {
    && MoneyInv(l.mandates, l.attempts)
    && (forall m :: m in l.mandates ==> m < l.nextId)
    && (forall a :: a in l.attempts ==> a < l.nextId)
  }

  /** Mandate `m` and at most its attempt `a` are new or changed, and nothing else. */
  ghost predicate OnlyTouches(l: Ledger, l': Ledger, m: Id, a: Id) {
    && l.nextId <= l'.nextId && m < l'.nextId
    && m in l'.mandates && l'.mandates == l.mandates[m := l'.mandates[m]]
    && (a in l.attempts ==> a in l'.attempts && l.attempts[a].mandateId == m)
    && (a in l'.attempts ==> a < l'.nextId && l'.attempts[a].mandateId == m && l'.attempts == l.attempts[a := l'.attempts[a]])
    && (a !in l'.attempts ==> l'.attempts == l.attempts)
  }

  /** Only the touched account has to be looked at again. */
  lemma TouchedAccountSuffices(l: Ledger, l': Ledger, m: Id, a: Id)
    requires Sound(l) && OnlyTouches(l, l', m, a)
    requires AccountOk(l'.mandates[m], l'.attempts, m)
    requires a in l'.attempts ==> AttemptOk(l'.mandates, l'.attempts[a], a)
    ensures Sound(l')
  {
    forall n | n in l'.mandates ensures AccountOk(l'.mandates[n], l'.attempts, n) {
      if n != m {
        assert AccountOk(l.mandates[n], l.attempts, n);
        assert forall b :: OpenOn(l'.attempts, b, n) <==> OpenOn(l.attempts, b, n);
      }
    }
    forall b | b in l'.attempts ensures AttemptOk(l'.mandates, l'.attempts[b], b) {
      if b != a {
        assert AttemptOk(l.mandates, l.attempts[b], b);
      }
    }
  }

  // ---- operators ----

  lemma CreateKeepsMoney(l: Ledger, input: CreateInput, anchor: Option<string>, now: Millis)
    requires Sound(l) && CreateMandate(l, input, anchor, now).Ok?
    ensures Sound(CreateMandate(l, input, anchor, now).value.ledger)
  {
    var l' := CreateMandate(l, input, anchor, now).value.ledger;
    forall a ensures !OpenOn(l.attempts, a, l.nextId) {
      if a in l.attempts {
        assert AttemptOk(l.mandates, l.attempts[a], a);
      }
    }
    TouchedAccountSuffices(l, l', l.nextId, l.nextId);
  }

  lemma RevokeKeepsMoney(l: Ledger, mandateId: Id, anchor: Option<string>, now: Millis)
    requires Sound(l) && RevokeMandate(l, mandateId, anchor, now).Ok?
    ensures Sound(RevokeMandate(l, mandateId, anchor, now).value.ledger)
  {
    assert AccountOk(l.mandates[mandateId], l.attempts, mandateId);
    TouchedAccountSuffices(l, RevokeMandate(l, mandateId, anchor, now).value.ledger, mandateId, l.nextId);
  }

  lemma ExpireKeepsMoney(l: Ledger, mandateId: Id, now: Millis)
    requires Sound(l) && mandateId in l.mandates && l.mandates[mandateId].status == IssuedActive
    ensures Sound(ExpireMandate(l, mandateId, now))
  {
    assert AccountOk(l.mandates[mandateId], l.attempts, mandateId);
    TouchedAccountSuffices(l, ExpireMandate(l, mandateId, now), mandateId, l.nextId);
  }

  /** A new attempt, as the transaction builds it before it is stored. */
  ghost predicate NewAttempt(l: Ledger, a: Attempt) {
    a.id < l.nextId && a.id !in l.attempts && a.mandateId in l.mandates && a.amountCents > 0 && Registered(a.vendorId)
  }

  lemma DenyKeepsMoney(l: Ledger, a: Attempt, reason: BlockedReason, now: Millis)
    requires Sound(l) && NewAttempt(l, a)
    ensures Sound(Deny(l, a, reason, now).ledger)
  {
    var l' := Deny(l, a, reason, now).ledger;
    assert AccountOk(l.mandates[a.mandateId], l.attempts, a.mandateId);
    assert forall b :: OpenOn(l'.attempts, b, a.mandateId) <==> OpenOn(l.attempts, b, a.mandateId);
    TouchedAccountSuffices(l, l', a.mandateId, a.id);
  }

  /** The policy is what makes a reservation safe: it leaves room for the amount and finds nothing reserved. */
  lemma ApprovalLeavesRoom(m: Mandate, vendor: Option<Vendor>, amountCents: int, now: Millis)
    ensures EvaluatePolicy(m, vendor, amountCents, now).Approved? <==>
      && m.status == IssuedActive && now < m.expiresAt && m.reservedCents == 0
      && vendor.Some? && vendor.value.id in m.approvedVendorIds
      && (m.requiresReceiptCapability ==> vendor.value.receiptCapability)
      && m.reservedCents + m.consumedCents + amountCents <= m.budgetCapCents
  {}

  lemma ReserveKeepsMoney(l: Ledger, a: Attempt, now: Millis)
    requires Sound(l) && NewAttempt(l, a)
    requires
      var m := l.mandates[a.mandateId];
      m.status == IssuedActive && m.reservedCents == 0 && m.consumedCents + a.amountCents <= m.budgetCapCents
    ensures Sound(Reserve(l, a, now).ledger)
  {
    var l' := Reserve(l, a, now).ledger;
    assert AccountOk(l.mandates[a.mandateId], l.attempts, a.mandateId);
    assert forall b :: OpenOn(l'.attempts, b, a.mandateId) <==> b == a.id;
    TouchedAccountSuffices(l, l', a.mandateId, a.id);
  }

  /** The attempt a valid request materialises. */
  ghost function AttemptFor(l: Ledger, input: RunInput, generated: string, now: Millis): Attempt {
    MaterializeAttempt(l.nextId, input.mandateId, Trim(input.vendorId), Trim(input.operatorId), input.amountCents,
                       if input.paymentIdentifier.Some? then input.paymentIdentifier.value else generated, now)
  }

  /** A request that commits either is a repeat or goes through `Admitted` with a fresh attempt. */
  lemma RunIsRepeatOrAdmitted(l: Ledger, input: RunInput, generated: string, treasury: Treasury, now: Millis)
    requires RunAttempt(l, input, generated, treasury, now).Ok?
    ensures
      var r, a := RunAttempt(l, input, generated, treasury, now), AttemptFor(l, input, generated, now);
      || (r.value.ledger == l && r.value.trail == [])
      || (&& a.amountCents > 0 && a.mandateId in l.mandates && FindVendor(a.vendorId).Some?
          && r == Admitted(l, a, FindVendor(a.vendorId).value, treasury, now))
  {}

  lemma RunKeepsMoney(l: Ledger, input: RunInput, generated: string, treasury: Treasury, now: Millis)
    requires Sound(l) && RunAttempt(l, input, generated, treasury, now).Ok?
    ensures Sound(RunAttempt(l, input, generated, treasury, now).value.ledger)
  {
    RunIsRepeatOrAdmitted(l, input, generated, treasury, now);
    if RunAttempt(l, input, generated, treasury, now).value.ledger != l {
      var a := AttemptFor(l, input, generated, now);
      AdmittedKeepsMoney(l, a, FindVendor(a.vendorId).value, treasury, now);
    }
  }

  lemma AdmittedKeepsMoney(l: Ledger, a: Attempt, vendor: Vendor, treasury: Treasury, now: Millis)
    requires Sound(l) && a.id == l.nextId && a.mandateId in l.mandates && a.amountCents > 0 && Registered(a.vendorId)
    requires Admitted(l, a, vendor, treasury, now).Ok?
    ensures Sound(Admitted(l, a, vendor, treasury, now).value.ledger)
  {
    var b := Authenticated(a);
    var m := l.mandates[b.mandateId];
    var l1 := Admit(l, b, now);
    assert Sound(l1) && NewAttempt(l1, b);
    var policy := EvaluatePolicy(m, Some(vendor), b.amountCents, now);
    if policy.Denied? {
      if policy.reason == MandateNotActive && m.status == IssuedActive && m.expiresAt <= now {
        ExpireKeepsMoney(l1, b.mandateId, now);
        DenyKeepsMoney(ExpireMandate(l1, b.mandateId, now), b, policy.reason, now);
      } else {
        DenyKeepsMoney(l1, b, policy.reason, now);
      }
    } else {
      ApprovalLeavesRoom(m, Some(vendor), b.amountCents, now);
      var l2 := Approve(l1, b, now);
      assert Sound(l2) && NewAttempt(l2, b);
      match treasury
      case TreasuryDenies(code) => DenyKeepsMoney(l2, b, TreasuryDenied(code), now);
      case TreasuryApproved =>
        var l3 := TreasuryEnforced(l2, b, now);
        assert Sound(l3) && NewAttempt(l3, b);
        ReserveKeepsMoney(l3, b, now);
      case TreasuryNotEnforced => ReserveKeepsMoney(l2, b, now);
    }
  }

  // ---- workers ----

  /** The claim agrees with the attempt it was taken from; this never changes, see `Workers`. */
  ghost predicate ClaimMatches(l: Ledger, c: Claim) {
    && c.attemptId in l.attempts && l.attempts[c.attemptId].mandateId == c.mandateId
    && l.attempts[c.attemptId].amountCents == c.amountCents
  }

  /** In a sound ledger an open attempt's mandate reserves exactly its amount, so no subtraction goes
      below zero and no clamp changes a value. */
  lemma OpenAttemptIsFullyReserved(l: Ledger, c: Claim)
    requires Sound(l) && ClaimMatches(l, c) && Open(l.attempts[c.attemptId].status)
    ensures c.mandateId in l.mandates && 0 < l.mandates[c.mandateId].reservedCents == c.amountCents
    ensures Max(0, l.mandates[c.mandateId].reservedCents - c.amountCents) ==
            l.mandates[c.mandateId].reservedCents - c.amountCents == 0
  {
    assert AttemptOk(l.mandates, l.attempts[c.attemptId], c.attemptId);
    assert AccountOk(l.mandates[c.mandateId], l.attempts, c.mandateId);
    assert OpenOn(l.attempts, c.attemptId, c.mandateId);
  }

  /** What closing an attempt does: the reservation goes, at most as much is consumed, nothing else moves. */
  ghost predicate Closes(l: Ledger, c: Claim, l': Ledger) {
    && OnlyTouches(l, l', c.mandateId, c.attemptId)
    && c.attemptId in l.attempts && c.attemptId in l'.attempts && c.mandateId in l.mandates
    && var a, a', m, m' := l.attempts[c.attemptId], l'.attempts[c.attemptId], l.mandates[c.mandateId], l'.mandates[c.mandateId];
    && a' == a.(status := a'.status, financialOutcome := a'.status, receiptEvidence := a'.receiptEvidence,
                blockedReason := a'.blockedReason, chargeReference := a'.chargeReference, updatedAt := a'.updatedAt)
    && Resting(a'.status) && !Open(a'.status)
    && m' == m.(reservedCents := 0, consumedCents := m'.consumedCents,
                status := NextMandateStatusAfterResolution(m.status), updatedAt := m'.updatedAt)
    && m.consumedCents <= m'.consumedCents <= m.consumedCents + c.amountCents
  }

  lemma ClosingKeepsMoney(l: Ledger, c: Claim, l': Ledger)
    requires Sound(l) && ClaimMatches(l, c) && Open(l.attempts[c.attemptId].status)
    requires Closes(l, c, l')
    ensures Sound(l')
  {
    OpenAttemptIsFullyReserved(l, c);
    assert AttemptOk(l.mandates, l.attempts[c.attemptId], c.attemptId);
    assert AccountOk(l.mandates[c.mandateId], l.attempts, c.mandateId);
    assert OpenOn(l.attempts, c.attemptId, c.mandateId);
    assert forall b :: OpenOn(l'.attempts, b, c.mandateId) ==> OpenOn(l.attempts, b, c.mandateId);
    assert forall b :: !OpenOn(l'.attempts, b, c.mandateId);
    TouchedAccountSuffices(l, l', c.mandateId, c.attemptId);
  }

  /** An open attempt that stays open while its mandate is at most stamped. */
  lemma AdvancingKeepsMoney(l: Ledger, l': Ledger, m: Id, a: Id)
    requires Sound(l) && OnlyTouches(l, l', m, a) && OpenOn(l.attempts, a, m) && OpenOn(l'.attempts, a, m) && m in l.mandates
    requires l'.mandates[m] == l.mandates[m].(updatedAt := l'.mandates[m].updatedAt)
    requires
      var before, after := l.attempts[a], l'.attempts[a];
      && after.id == before.id && after.amountCents == before.amountCents && after.vendorId == before.vendorId
      && after.financialOutcome == after.status
    ensures Sound(l')
  {
    assert AttemptOk(l.mandates, l.attempts[a], a);
    assert AccountOk(l.mandates[m], l.attempts, m);
    assert forall b :: OpenOn(l'.attempts, b, m) <==> OpenOn(l.attempts, b, m);
    TouchedAccountSuffices(l, l', m, a);
  }

  lemma BeginKeepsMoney(l: Ledger, c: Claim, now: Millis)
    requires Sound(l) && BeginDispatch(l, c, now).Ok?
    ensures Sound(BeginDispatch(l, c, now).value)
  {
    assert AttemptOk(l.mandates, l.attempts[c.attemptId], c.attemptId);
    AdvancingKeepsMoney(l, BeginDispatch(l, c, now).value, l.attempts[c.attemptId].mandateId, c.attemptId);
  }

  /** Entries and tasks aside, storing the vendor's answer is `Settle`. */
  lemma DispatchResultIsSettle(l: Ledger, c: Claim, r: DispatchResult, found: Option<Id>, now: Millis)
    requires ApplyDispatchResult(l, c, r, found, now).Ok?
    ensures c.mandateId in l.mandates && c.attemptId in l.attempts
    ensures CanTransitionAttempt(l.attempts[c.attemptId].status, r.Status())
    ensures
      var l', s := ApplyDispatchResult(l, c, r, found, now).value, Settle(l, c, r, now);
      l'.mandates == s.mandates && l'.attempts == s.attempts && s.nextId <= l'.nextId
  {}

  lemma DispatchResultKeepsMoney(l: Ledger, c: Claim, r: DispatchResult, found: Option<Id>, now: Millis)
    requires Sound(l) && ClaimMatches(l, c) && ApplyDispatchResult(l, c, r, found, now).Ok?
    ensures Sound(ApplyDispatchResult(l, c, r, found, now).value)
  {
    DispatchResultIsSettle(l, c, r, found, now);
    assert AttemptOk(l.mandates, l.attempts[c.attemptId], c.attemptId);
    if r.DispatchUnknown? {
      AdvancingKeepsMoney(l, Settle(l, c, r, now), c.mandateId, c.attemptId);
    } else {
      SettlingCloses(l, c, r, now);
      ClosingKeepsMoney(l, c, Settle(l, c, r, now));
    }
  }

  lemma SettlingCloses(l: Ledger, c: Claim, r: DispatchResult, now: Millis)
    requires Sound(l) && ClaimMatches(l, c) && c.mandateId in l.mandates && !r.DispatchUnknown?
    requires CanTransitionAttempt(l.attempts[c.attemptId].status, r.Status())
    ensures Open(l.attempts[c.attemptId].status) && Closes(l, c, Settle(l, c, r, now))
  {
    assert AttemptOk(l.mandates, l.attempts[c.attemptId], c.attemptId);
    OpenAttemptIsFullyReserved(l, c);
  }

  lemma ReleaseKeepsMoney(l: Ledger, c: Claim, reason: BlockedReason, now: Millis)
    requires Sound(l) && ClaimMatches(l, c) && ReleaseDispatch(l, c, reason, now).Ok?
    ensures Sound(ReleaseDispatch(l, c, reason, now).value)
  {
    assert AttemptOk(l.mandates, l.attempts[c.attemptId], c.attemptId);
    OpenAttemptIsFullyReserved(l, c);
    ClosingKeepsMoney(l, c, ReleaseDispatch(l, c, reason, now).value);
  }

  lemma ReconciliationKeepsMoney(l: Ledger, c: Claim, r: CorrelationResult, now: Millis)
    requires Sound(l) && ClaimMatches(l, c) && ApplyReconciliationResult(l, c, r, now).Ok?
    ensures Sound(ApplyReconciliationResult(l, c, r, now).value)
  {
    OpenAttemptIsFullyReserved(l, c);
    ClosingKeepsMoney(l, c, ApplyReconciliationResult(l, c, r, now).value);
  }
}

/** What one action can do to the rows: every status change is an edge of the published tables,
    reservations only grow on a live mandate, and the logs only grow. */
module History {
  import opened Domain
  import opened StateMachines
  import opened Policy
  import opened Ledger
  import opened Money
  import opened Protocol
  import opened Workers
  import opened System

  // ---- what a step may do ----

  ghost predicate AttemptStep(a: Attempt, b: Attempt) {
    SameDeal(a, b) && (b.status == a.status || CanTransitionAttempt(a.status, b.status))
  }

  predicate Born(a: Attempt) {
    a.status == PolicyDenied || a.status == DispatchQueued
  }

  /** A new attempt is denied, or queued on a mandate that is active and has not expired. */
  ghost predicate BornOn(ms: map<Id, Mandate>, a: Attempt, now: Millis) {
    && Born(a) && a.mandateId in ms
    && (a.status == DispatchQueued ==> ms[a.mandateId].status == IssuedActive && now < ms[a.mandateId].expiresAt)
  }

  /** A status, an edge away, or revoked by way of revoking within one transaction. */
  predicate MandateStatusStep(from: MandateStatus, to: MandateStatus) {
    || to == from || CanTransitionMandate(from, to)
    || (to == Revoked && CanTransitionMandate(from, Revoking) && CanTransitionMandate(Revoking, Revoked))
  }

  ghost predicate MandateStep(m: Mandate, n: Mandate, now: Millis) {
    && n.id == m.id && n.budgetCapCents == m.budgetCapCents && n.expiresAt == m.expiresAt
    && MandateStatusStep(m.status, n.status) && m.consumedCents <= n.consumedCents
    && (if n.reservedCents <= m.reservedCents
        then n.consumedCents - m.consumedCents <= m.reservedCents - n.reservedCents
        else n.consumedCents == m.consumedCents && m.status == IssuedActive && now < m.expiresAt && n.status == IssuedReserved)
  }

  ghost predicate EventsGrow(l: Ledger, l': Ledger) {
    |l.events| <= |l'.events| && l'.events[|l'.events| - |l.events|..] == l.events
  }

  ghost predicate Lawful(l: Ledger, l': Ledger, now: Millis) {
    && l.nextId <= l'.nextId && l.attempts.Keys <= l'.attempts.Keys && l.mandates.Keys <= l'.mandates.Keys
    && (forall a {:trigger AttemptStep(l.attempts[a], l'.attempts[a])} :: a in l.attempts ==> AttemptStep(l.attempts[a], l'.attempts[a]))
    && (forall a {:trigger BornOn(l.mandates, l'.attempts[a], now)} :: a in l'.attempts && a !in l.attempts ==>
          BornOn(l.mandates, l'.attempts[a], now))
    && (forall m {:trigger MandateStep(l.mandates[m], l'.mandates[m], now)} ::
          m in l.mandates ==> MandateStep(l.mandates[m], l'.mandates[m], now))
    && (forall m :: m in l'.mandates && m !in l.mandates ==> l'.mandates[m].status == IssuedActive && l'.mandates[m].consumedCents == 0)
    && EventsGrow(l, l')
  }

  // ---- each transaction ----

  lemma GrowthAddsUp(l: Ledger, l1: Ledger, l2: Ledger)
    requires EventsGrow(l, l1) && EventsGrow(l1, l2)
    ensures EventsGrow(l, l2)
  {
    var n, n1, n2 := |l.events|, |l1.events|, |l2.events|;
    assert l2.events[n2 - n..] == l2.events[n2 - n1..][n1 - n..];
  }

  /** No row but these two changed. */
  lemma RowsAreLawful(l: Ledger, l': Ledger, m: Id, a: Id, now: Millis)
    requires l.nextId <= l'.nextId && EventsGrow(l, l')
    requires m in l.mandates && m in l'.mandates && l'.mandates == l.mandates[m := l'.mandates[m]]
    requires a in l'.attempts && l'.attempts == l.attempts[a := l'.attempts[a]]
    requires MandateStep(l.mandates[m], l'.mandates[m], now)
    requires if a in l.attempts then AttemptStep(l.attempts[a], l'.attempts[a]) else BornOn(l.mandates, l'.attempts[a], now)
    ensures Lawful(l, l', now)
  {}

  lemma StillIsLawful(l: Ledger, l': Ledger, now: Millis)
    requires l.nextId <= l'.nextId && EventsGrow(l, l') && l'.attempts == l.attempts && l'.mandates == l.mandates
    ensures Lawful(l, l', now)
  {}

  lemma CreateIsLawful(l: Ledger, input: CreateInput, anchor: Option<string>, now: Millis)
    requires Sound(l) && CreateMandate(l, input, anchor, now).Ok?
    ensures Lawful(l, CreateMandate(l, input, anchor, now).value.ledger, now)
  {}

  lemma RevokeIsLawful(l: Ledger, m: Id, anchor: Option<string>, now: Millis)
    requires Sound(l) && RevokeMandate(l, m, anchor, now).Ok?
    ensures Lawful(l, RevokeMandate(l, m, anchor, now).value.ledger, now)
  {
    var l' := RevokeMandate(l, m, anchor, now).value.ledger;
    assert MandateStep(l.mandates[m], l'.mandates[m], now);
  }

  /** `l1` is `l` with entries, and with the mandate at most expired. */
  ghost predicate Leads(l: Ledger, l1: Ledger, m: Id, now: Millis) {
    && l.nextId <= l1.nextId && EventsGrow(l, l1) && l1.attempts == l.attempts
    && m in l.mandates && m in l1.mandates && l1.mandates == l.mandates[m := l1.mandates[m]]
    && MandateStep(l.mandates[m], l1.mandates[m], now)
  }

  lemma DenyIsLawful(l: Ledger, l1: Ledger, a: Attempt, reason: BlockedReason, now: Millis)
    requires Leads(l, l1, a.mandateId, now) && a.id !in l.attempts
    ensures Lawful(l, Deny(l1, a, reason, now).ledger, now)
  {
    RowsAreLawful(l, Deny(l1, a, reason, now).ledger, a.mandateId, a.id, now);
  }

  lemma HoldIsOneStep(l: Ledger, l1: Ledger, a: Attempt, now: Millis)
    requires Leads(l, l1, a.mandateId, now) && l1.mandates == l.mandates
    requires l.mandates[a.mandateId].status == IssuedActive && now < l.mandates[a.mandateId].expiresAt
    ensures EventsGrow(l, Hold(l1, a, now))
    ensures MandateStep(l.mandates[a.mandateId], Hold(l1, a, now).mandates[a.mandateId], now)
  {
    GrowthAddsUp(l, l1, Hold(l1, a, now));
  }

  lemma ReserveIsLawful(l: Ledger, l1: Ledger, a: Attempt, now: Millis)
    requires Leads(l, l1, a.mandateId, now) && l1.mandates == l.mandates && a.id !in l.attempts
    requires l.mandates[a.mandateId].status == IssuedActive && now < l.mandates[a.mandateId].expiresAt
    ensures Lawful(l, Reserve(l1, a, now).ledger, now)
  {
    HoldIsOneStep(l, l1, a, now);
    var l' := Reserve(l1, a, now).ledger;
    GrowthAddsUp(l, Hold(l1, a, now), l');
    RowsAreLawful(l, l', a.mandateId, a.id, now);
  }

  lemma AdmitLeads(l: Ledger, a: Attempt, now: Millis)
    requires a.id == l.nextId && a.mandateId in l.mandates
    ensures Leads(l, Admit(l, a, now), a.mandateId, now)
  {}

  lemma ExpireLeads(l: Ledger, l1: Ledger, m: Id, now: Millis)
    requires Leads(l, l1, m, now) && l1.mandates == l.mandates && l.mandates[m].status == IssuedActive
    ensures Leads(l, ExpireMandate(l1, m, now), m, now)
  {
    GrowthAddsUp(l, l1, ExpireMandate(l1, m, now));
  }

  lemma NoteLeads(l: Ledger, l1: Ledger, m: Id, a: Id, audit: AuditKind, kind: EventKind, now: Millis)
    requires Leads(l, l1, m, now)
    ensures Leads(l, WithEvent(WithAudit(l1, m, audit, Some(a), now), OfAttempt, a, kind, now), m, now)
  {
    GrowthAddsUp(l, l1, WithEvent(WithAudit(l1, m, audit, Some(a), now), OfAttempt, a, kind, now));
  }

  lemma ApprovedIsLawful(l: Ledger, l2: Ledger, a: Attempt, treasury: Treasury, now: Millis)
    requires Leads(l, l2, a.mandateId, now) && l2.mandates == l.mandates && a.id !in l.attempts
    requires l.mandates[a.mandateId].status == IssuedActive && now < l.mandates[a.mandateId].expiresAt
    ensures treasury.TreasuryDenies? ==> Lawful(l, Deny(l2, a, TreasuryDenied(treasury.code), now).ledger, now)
    ensures treasury.TreasuryApproved? ==> Lawful(l, Reserve(TreasuryEnforced(l2, a, now), a, now).ledger, now)
    ensures treasury.TreasuryNotEnforced? ==> Lawful(l, Reserve(l2, a, now).ledger, now)
  {
    match treasury
    case TreasuryDenies(code) => DenyIsLawful(l, l2, a, TreasuryDenied(code), now);
    case TreasuryApproved =>
      NoteLeads(l, l2, a.mandateId, a.id, AuditPolicyApproved, EvtTreasuryEnforced, now);
      ReserveIsLawful(l, TreasuryEnforced(l2, a, now), a, now);
    case TreasuryNotEnforced => ReserveIsLawful(l, l2, a, now);
    case TreasuryThrows =>
  }

  lemma AdmittedIsLawful(l: Ledger, a: Attempt, vendor: Vendor, treasury: Treasury, now: Millis)
    requires a.id == l.nextId && a.mandateId in l.mandates && a.id !in l.attempts && Admitted(l, a, vendor, treasury, now).Ok?
    ensures Lawful(l, Admitted(l, a, vendor, treasury, now).value.ledger, now)
  {
    var b := Authenticated(a);
    var m := l.mandates[b.mandateId];
    var l1 := Admit(l, b, now);
    AdmitLeads(l, b, now);
    var policy := EvaluatePolicy(m, Some(vendor), b.amountCents, now);
    if policy.Denied? {
      if policy.reason == MandateNotActive && m.status == IssuedActive && m.expiresAt <= now {
        ExpireLeads(l, l1, b.mandateId, now);
        DenyIsLawful(l, ExpireMandate(l1, b.mandateId, now), b, policy.reason, now);
      } else {
        DenyIsLawful(l, l1, b, policy.reason, now);
      }
    } else {
      NoteLeads(l, l1, b.mandateId, b.id, AuditPolicyApproved, EvtPolicyApproved, now);
      ApprovedIsLawful(l, Approve(l1, b, now), b, treasury, now);
    }
  }

  lemma RunIsLawful(l: Ledger, input: RunInput, generated: string, treasury: Treasury, now: Millis)
    requires Sound(l) && RunAttempt(l, input, generated, treasury, now).Ok?
    ensures Lawful(l, RunAttempt(l, input, generated, treasury, now).value.ledger, now)
  {
    RunIsRepeatOrAdmitted(l, input, generated, treasury, now);
    if RunAttempt(l, input, generated, treasury, now).value.ledger != l {
      var a := AttemptFor(l, input, generated, now);
      AdmittedIsLawful(l, a, FindVendor(a.vendorId).value, treasury, now);
    } else {
      StillIsLawful(l, l, now);
    }
  }

  lemma EnsureIsLawful(l: Ledger, m: Id, a: Id, found: Option<Id>, now: Millis)
    requires EnsureReconciliationQueued(l, m, a, found, now).Ok?
    ensures Lawful(l, EnsureReconciliationQueued(l, m, a, found, now).value, now)
  {
    StillIsLawful(l, EnsureReconciliationQueued(l, m, a, found, now).value, now);
  }

  /** The mandate of an open attempt is reserved or revoked, and holds the attempt's amount. */
  lemma MandateOfOpenAttempt(l: Ledger, c: Claim)
    requires Sound(l) && ClaimMatches(l, c) && Open(l.attempts[c.attemptId].status)
    ensures c.mandateId in l.mandates && l.attempts[c.attemptId].id == c.attemptId
    ensures l.mandates[c.mandateId].status == IssuedReserved || l.mandates[c.mandateId].status == Revoked
    ensures l.mandates[c.mandateId].reservedCents == c.amountCents > 0
  {
    assert AttemptOk(l.mandates, l.attempts[c.attemptId], c.attemptId);
    assert AccountOk(l.mandates[c.mandateId], l.attempts, c.mandateId);
    assert OpenOn(l.attempts, c.attemptId, c.mandateId);
  }

  lemma BeginIsLawful(l: Ledger, c: Claim, now: Millis)
    requires Sound(l) && ClaimMatches(l, c) && BeginDispatch(l, c, now).Ok?
    ensures Lawful(l, BeginDispatch(l, c, now).value, now)
  {
    assert AttemptOk(l.mandates, l.attempts[c.attemptId], c.attemptId);
    RowsAreLawful(l, BeginDispatch(l, c, now).value, c.mandateId, c.attemptId, now);
  }

  lemma ReleaseIsLawful(l: Ledger, c: Claim, reason: BlockedReason, now: Millis)
    requires Sound(l) && ClaimMatches(l, c) && ReleaseDispatch(l, c, reason, now).Ok?
    ensures Lawful(l, ReleaseDispatch(l, c, reason, now).value, now)
  {
    assert AttemptOk(l.mandates, l.attempts[c.attemptId], c.attemptId);
    MandateOfOpenAttempt(l, c);
    RowsAreLawful(l, ReleaseDispatch(l, c, reason, now).value, c.mandateId, c.attemptId, now);
  }

  lemma OutcomeGrows(l: Ledger, c: Claim, evidence: ReceiptEvidence, status: AttemptStatus, cents: int, now: Millis)
    ensures EventsGrow(l, OutcomeNotes(l, c, evidence, status, cents, now))
    ensures EventsGrow(l, ReconciledNotes(OutcomeNotes(l, c, evidence, status, cents, now), c, status, now))
  {}

  lemma DispatchResultGrows(l: Ledger, c: Claim, r: DispatchResult, found: Option<Id>, now: Millis)
    requires ApplyDispatchResult(l, c, r, found, now).Ok?
    ensures EventsGrow(l, ApplyDispatchResult(l, c, r, found, now).value)
  {
    var cents := ResolveSettledAmountCents(c.amountCents, r.FinalAmount());
    var l1 := Settle(l, c, r, now);
    if r.DispatchUnknown? {
      var l2 := WithAudit(l1, c.mandateId, AuditReconciliationStarted, Some(c.attemptId), now);
      var q := EnqueueWorkerTask(l2, ReconcileAttempt, c.mandateId, c.attemptId, Some(l.attempts[c.attemptId].operatorId), found, now);
      var l3 := ReconciliationStarted(q.ledger, c, q.taskId, r, now);
      assert EventsGrow(l, q.ledger) && EventsGrow(q.ledger, l3);
      GrowthAddsUp(l, q.ledger, l3);
      OutcomeGrows(l3, c, r.evidence, r.Status(), cents, now);
      GrowthAddsUp(l, l3, OutcomeNotes(l3, c, r.evidence, r.Status(), cents, now));
    } else {
      OutcomeGrows(l1, c, r.evidence, r.Status(), cents, now);
    }
  }

  lemma DispatchResultIsLawful(l: Ledger, c: Claim, r: DispatchResult, found: Option<Id>, now: Millis)
    requires Sound(l) && ClaimMatches(l, c) && ApplyDispatchResult(l, c, r, found, now).Ok?
    ensures Lawful(l, ApplyDispatchResult(l, c, r, found, now).value, now)
  {
    DispatchResultGrows(l, c, r, found, now);
    DispatchResultIsSettle(l, c, r, found, now);
    assert AttemptOk(l.mandates, l.attempts[c.attemptId], c.attemptId);
    MandateOfOpenAttempt(l, c);
    RowsAreLawful(l, ApplyDispatchResult(l, c, r, found, now).value, c.mandateId, c.attemptId, now);
  }

  lemma ReconciliationIsLawful(l: Ledger, c: Claim, r: CorrelationResult, now: Millis)
    requires Sound(l) && ClaimMatches(l, c) && ApplyReconciliationResult(l, c, r, now).Ok?
    ensures Lawful(l, ApplyReconciliationResult(l, c, r, now).value, now)
  {
    var l' := ApplyReconciliationResult(l, c, r, now).value;
    OutcomeGrows(l.(attempts := l'.attempts, mandates := l'.mandates), c, r.evidence, r.Status(),
                 ResolveSettledAmountCents(c.amountCents, r.finalAmount), now);
    MandateOfOpenAttempt(l, c);
    RowsAreLawful(l, l', c.mandateId, c.attemptId, now);
  }

  // ---- the statuses on the way ----

  /** A walk of the table from created to the attempt's status. */
  predicate BirthTrail(trail: seq<AttemptStatus>, a: Attempt) {
    && 2 <= |trail| && trail[0] == Created && trail[|trail| - 1] == a.status
    && AttemptWalk(trail) && |trail| - 1 <= Rank(a.status)
  }

  lemma EnforcedTrail(l: Ledger, a: Attempt, treasury: Treasury, now: Millis)
    requires a.mandateId in l.mandates && Enforced(l, a, treasury, now).Ok?
    ensures
      var ran := Enforced(l, a, treasury, now).value;
      && ran.ledger.attempts == l.attempts[a.id := ran.attempt] && ran.attempt.id == a.id
      && (|| (ran.attempt.status == PolicyDenied && ran.trail == [PolicyDenied])
          || (ran.attempt.status == DispatchQueued && ran.trail == [Reserved, DispatchQueued]))
  {}

  lemma AdmittedTrail(l: Ledger, a: Attempt, vendor: Vendor, treasury: Treasury, now: Millis)
    requires a.mandateId in l.mandates && a.status == Created && Admitted(l, a, vendor, treasury, now).Ok?
    ensures
      var ran := Admitted(l, a, vendor, treasury, now).value;
      && BirthTrail(ran.trail, ran.attempt) && ran.attempt.id == a.id
      && ran.ledger.attempts == l.attempts[a.id := ran.attempt]
  {
    var b := Authenticated(a);
    var l1 := Admit(l, b, now);
    if EvaluatePolicy(l.mandates[a.mandateId], Some(vendor), a.amountCents, now).Approved? {
      EnforcedTrail(Approve(l1, b, now), b, treasury, now);
    }
  }

  /** A request that is no repeat takes its new attempt along the table before it stores it for the first time. */
  lemma RequestsWalkTheTable(l: Ledger, input: RunInput, generated: string, treasury: Treasury, now: Millis)
    requires RunAttempt(l, input, generated, treasury, now).Ok?
    ensures
      var ran := RunAttempt(l, input, generated, treasury, now).value;
      || (ran.ledger == l && ran.trail == [])
      || (&& BirthTrail(ran.trail, ran.attempt) && ran.attempt.id == l.nextId
          && ran.ledger.attempts == l.attempts[l.nextId := ran.attempt])
  {
    RunIsRepeatOrAdmitted(l, input, generated, treasury, now);
    var ran, a := RunAttempt(l, input, generated, treasury, now).value, AttemptFor(l, input, generated, now);
    if !(ran.ledger == l && ran.trail == []) {
      AdmittedTrail(l, a, FindVendor(a.vendorId).value, treasury, now);
      assert BirthTrail(ran.trail, ran.attempt);
    }
  }

  ghost predicate RevokesNone(l: Ledger, l': Ledger) {
    forall m :: m in l.mandates && m in l'.mandates && l'.mandates[m].status == Revoked ==> l.mandates[m].status == Revoked
  }

  lemma AdmittedRevokesNone(l: Ledger, a: Attempt, vendor: Vendor, treasury: Treasury, now: Millis)
    requires a.mandateId in l.mandates && Admitted(l, a, vendor, treasury, now).Ok?
    ensures RevokesNone(l, Admitted(l, a, vendor, treasury, now).value.ledger)
  {}

  lemma RunRevokesNone(l: Ledger, input: RunInput, generated: string, treasury: Treasury, now: Millis)
    requires RunAttempt(l, input, generated, treasury, now).Ok?
    ensures RevokesNone(l, RunAttempt(l, input, generated, treasury, now).value.ledger)
  {
    RunIsRepeatOrAdmitted(l, input, generated, treasury, now);
    if RunAttempt(l, input, generated, treasury, now).value.ledger != l {
      var a := AttemptFor(l, input, generated, now);
      AdmittedRevokesNone(l, a, FindVendor(a.vendorId).value, treasury, now);
    }
  }

  lemma CreateRevokesNone(l: Ledger, input: CreateInput, anchor: Option<string>, now: Millis)
    requires CreateMandate(l, input, anchor, now).Ok?
    ensures RevokesNone(l, CreateMandate(l, input, anchor, now).value.ledger)
  {}

  lemma SettleRevokesNone(s: Sys, w: WorkerId, c: Claim, answer: DispatchResult)
    ensures RevokesNone(s.ledger, StepSettle(s, w, c, answer).ledger)
  {
    var found := FindLive(s.ledger.tasks, ReconcileAttempt, c.attemptId);
    if ApplyDispatchResult(s.ledger, c, answer, found, s.now).Ok? {
      DispatchResultIsSettle(s.ledger, c, answer, found, s.now);
    }
  }

  lemma ReleaseRevokesNone(s: Sys, w: WorkerId, c: Claim, reason: BlockedReason)
    ensures RevokesNone(s.ledger, StepRelease(s, w, c, reason).ledger)
  {}

  lemma ReconciliationRevokesNone(s: Sys, w: WorkerId, c: Claim, seen: Attempt, truth: CorrelationResult)
    ensures RevokesNone(s.ledger, StepReconcile(s, w, c, seen, truth).ledger)
  {}

  lemma OtherPlacesKeepMandates(s: Sys, w: WorkerId, pc: Pc)
    requires !(pc.ExecAnswered? || pc.ExecReleasing? || pc.RecAnswered?)
    ensures Advance(s, w, pc).ledger.mandates == s.ledger.mandates
  {}

  lemma WorkersRevokeNone(s: Sys, w: WorkerId, pc: Pc)
    ensures RevokesNone(s.ledger, Advance(s, w, pc).ledger)
  {
    match pc
    case ExecAnswered(c, answer) => SettleRevokesNone(s, w, c, answer);
    case ExecReleasing(c, reason) => ReleaseRevokesNone(s, w, c, reason);
    case RecAnswered(c, seen, truth) => ReconciliationRevokesNone(s, w, c, seen, truth);
    case _ => OtherPlacesKeepMandates(s, w, pc);
  }

  /** Only a revocation makes a mandate revoked. */
  lemma OnlyRevocationsRevoke(s: Sys, act: Action)
    requires !act.Revoke?
    ensures RevokesNone(s.ledger, Do(s, act).ledger)
  {
    if act.Create? {
      if CreateMandate(s.ledger, act.create, act.anchor, s.now).Ok? { CreateRevokesNone(s.ledger, act.create, act.anchor, s.now); }
    } else if act.Run? {
      if RunAttempt(s.ledger, act.run, act.freshIdentifier, act.treasury, s.now).Ok? {
        RunRevokesNone(s.ledger, act.run, act.freshIdentifier, act.treasury, s.now);
      }
    } else if act.Proceed? {
      if act.w in s.workers { WorkersRevokeNone(s, act.w, s.workers[act.w]); }
    } else if !act.QueueReconciliation? {
      OthersTouchNoRows(s, act);
    }
  }

  /** What a lawful step does to one attempt. */
  lemma LawfulAttempt(l: Ledger, l': Ledger, a: Id, now: Millis)
    requires Lawful(l, l', now)
    ensures a in l.attempts ==> a in l'.attempts && AttemptStep(l.attempts[a], l'.attempts[a])
    ensures a in l'.attempts && a !in l.attempts ==> BornOn(l.mandates, l'.attempts[a], now)
  {}

  // ---- every action ----

  lemma AdvanceIsLawful(s: Sys, w: WorkerId)
    requires Inv(s) && w in s.workers
    ensures Lawful(s.ledger, Advance(s, w, s.workers[w]).ledger, s.now)
  {
    ClaimIsTrue(s, w);
    StillIsLawful(s.ledger, s.ledger, s.now);
    match s.workers[w]
    case ExecLeased(c) => if BeginDispatch(s.ledger, c, s.now).Ok? { BeginIsLawful(s.ledger, c, s.now); }
    case ExecAnswered(c, answer) =>
      var found := FindLive(s.ledger.tasks, ReconcileAttempt, c.attemptId);
      if ApplyDispatchResult(s.ledger, c, answer, found, s.now).Ok? {
        DispatchResultIsLawful(s.ledger, c, answer, found, s.now);
      }
    case ExecReleasing(c, reason) =>
      if ReleaseDispatch(s.ledger, c, reason, s.now).Ok? { ReleaseIsLawful(s.ledger, c, reason, s.now); }
    case RecAnswered(c, _, truth) =>
      if ApplyReconciliationResult(s.ledger, c, truth, s.now).Ok? { ReconciliationIsLawful(s.ledger, c, truth, s.now); }
    case ExecSettled(c) => DoneIsLawful(s, c);
    case RecSettled(c, _) => DoneIsLawful(s, c);
    case RecRequeueing(c) => DoneIsLawful(s, c);
    case Failing(c) => DoneIsLawful(s, c);
    case _ =>
  }

  lemma DoneIsLawful(s: Sys, c: Claim)
    ensures CompleteTask(s.ledger, c.taskId, s.now).Ok? ==> Lawful(s.ledger, CompleteTask(s.ledger, c.taskId, s.now).value, s.now)
    ensures FailTask(s.ledger, c.taskId, s.now).Ok? ==> Lawful(s.ledger, FailTask(s.ledger, c.taskId, s.now).value, s.now)
    ensures RequeueTask(s.ledger, c.taskId, s.now).Ok? ==> Lawful(s.ledger, RequeueTask(s.ledger, c.taskId, s.now).value, s.now)
  {}

  lemma RunActionIsLawful(s: Sys, input: RunInput, generated: string, treasury: Treasury)
    requires Inv(s)
    ensures Lawful(s.ledger, StepRun(s, input, generated, treasury).ledger, s.now)
  {
    var r := RunAttempt(s.ledger, input, generated, treasury, s.now);
    if FreshIdentifier(s.ledger, generated) && r.Ok? {
      RunIsLawful(s.ledger, input, generated, treasury, s.now);
    } else {
      StillIsLawful(s.ledger, s.ledger, s.now);
    }
  }

  lemma OperatorIsLawful(s: Sys, act: Action)
    requires Inv(s) && (act.Create? || act.Revoke? || act.Run? || act.QueueReconciliation?)
    ensures Lawful(s.ledger, Do(s, act).ledger, s.now)
  {
    StillIsLawful(s.ledger, s.ledger, s.now);
    match act
    case Create(input, anchor) =>
      if CreateMandate(s.ledger, input, anchor, s.now).Ok? { CreateIsLawful(s.ledger, input, anchor, s.now); }
    case Revoke(m, anchor) =>
      if RevokeMandate(s.ledger, m, anchor, s.now).Ok? { RevokeIsLawful(s.ledger, m, anchor, s.now); }
    case Run(input, generated, treasury) => RunActionIsLawful(s, input, generated, treasury);
    case QueueReconciliation(m, a) =>
      var found := FindLive(s.ledger.tasks, ReconcileAttempt, a);
      if EnsureReconciliationQueued(s.ledger, m, a, found, s.now).Ok? { EnsureIsLawful(s.ledger, m, a, found, s.now); }
  }

  /** Ticks, leases, answers, exceptions and deaths leave attempts, mandates and the log as they are. */
  lemma OthersTouchNoRows(s: Sys, act: Action)
    requires !(act.Create? || act.Revoke? || act.Run? || act.QueueReconciliation? || act.Proceed?)
    ensures
      var l, l' := s.ledger, Do(s, act).ledger;
      l'.attempts == l.attempts && l'.mandates == l.mandates && l'.events == l.events && l'.nextId == l.nextId
  {}

  /** Every status change of every action is an edge of the published tables, guarded or not. */
  lemma EveryActionIsLawful(s: Sys, act: Action)
    requires Inv(s)
    ensures Lawful(s.ledger, Do(s, act).ledger, s.now)
  {
    if act.Create? || act.Revoke? || act.Run? || act.QueueReconciliation? {
      OperatorIsLawful(s, act);
    } else if act.Proceed? {
      if act.w in s.workers { AdvanceIsLawful(s, act.w); } else { StillIsLawful(s.ledger, s.ledger, s.now); }
    } else {
      OthersTouchNoRows(s, act);
      StillIsLawful(s.ledger, Do(s, act).ledger, s.now);
    }
  }
}

/** What the workers' transactions do to an attempt and its mandate, told by the claim, the rows and the answer alone:
    when each commits, with which error it fails otherwise, and everything that is different afterwards. */
module SettlementTheorems {
  import opened Domain
  import opened Ledger
  import opened Entries

  // ---- amounts and statuses ----

  /** What a success costs: the whole amount reported if it is between zero and the claim, and the claim otherwise. */
  function Price(reported: Reported, claimed: int): int {
    if reported.Whole? && 0 <= reported.cents <= claimed then reported.cents else claimed
  }

  /** What a mandate's status becomes when its reservation goes: the closed ones stay. */
  predicate Freed(before: MandateStatus, after: MandateStatus) {
    if before == Revoking || before == Revoked || before == Expired then after == before else after == IssuedActive
  }

  ghost predicate Claimed(l: Ledger, c: Claim) {
    c.mandateId in l.mandates && c.attemptId in l.attempts
  }

  /** Attempt and mandate of the claim are the only rows that change. */
  ghost predicate OnlyTheClaimed(l: Ledger, l': Ledger, c: Claim) {
    && Claimed(l, c) && Claimed(l', c) && l'.agents == l.agents
    && l'.attempts == l.attempts[c.attemptId := l'.attempts[c.attemptId]]
    && l'.mandates == l.mandates[c.mandateId := l'.mandates[c.mandateId]]
  }

  function AuditOn(c: Claim, kind: AuditKind): AuditNote { AuditNote(c.mandateId, Some(c.attemptId), kind) }
  function EventOf(c: Claim, kind: EventKind): EventNote { EventNote(OfAttempt, c.attemptId, kind) }

  // ---- the move to dispatching ----

  /** Only a queued attempt is moved to dispatching; nothing of the mandate and no task changes. */
  lemma BeginMovesTheQueued(l: Ledger, c: Claim, now: Millis)
    ensures
      var r := BeginDispatch(l, c, now);
      if c.attemptId !in l.attempts then r == Err(Missing)
      else if l.attempts[c.attemptId].status != DispatchQueued then r == Err(InvalidTransition)
      else
        && r.Ok? && r.value.mandates == l.mandates && r.value.tasks == l.tasks && r.value.agents == l.agents
        && r.value.attempts == l.attempts[c.attemptId :=
             l.attempts[c.attemptId].(status := Dispatching, financialOutcome := Dispatching, updatedAt := now)]
        && Writes(l, r.value, [AuditOn(c, AuditAttemptDispatched)], [EventOf(c, EvtDispatched(c.taskId))], now)
  {
    var r := BeginDispatch(l, c, now);
    if r.Ok? {
      var l1 := l.(attempts := r.value.attempts);
      NothingWritten(l, l1, now);
      NoteWritten(l, l1, [], [], c.mandateId, c.attemptId, AuditAttemptDispatched, EvtDispatched(c.taskId), now);
    }
  }

  /** The vendor may be called for a dispatching attempt of a reserved mandate in time; otherwise the first of these
      reasons that applies is given. */
  lemma PreflightTable(l: Ledger, c: Claim, now: Millis)
    ensures
      var r := PreflightFailure(l, c, now);
      if !Claimed(l, c) then r == Err(Missing)
      else
        var m, a := l.mandates[c.mandateId], l.attempts[c.attemptId];
        && (r == Ok(None) <==> now < m.expiresAt && m.status == IssuedReserved && a.status == Dispatching)
        && (r == Ok(Some(MandateExpiredBeforeDispatch)) <==> m.expiresAt <= now || m.status == Expired)
        && (r == Ok(Some(MandateRevokedBeforeDispatch)) <==> now < m.expiresAt && (m.status == Revoking || m.status == Revoked))
        && (r == Ok(Some(MandateNotDispatchable)) <==> now < m.expiresAt && (m.status == Draft || m.status == IssuedActive))
        && (r == Ok(Some(AttemptNotDispatchable)) <==> now < m.expiresAt && m.status == IssuedReserved && a.status != Dispatching)
  {}

  // ---- the vendor's answer ----

  /** An answer is stored for a dispatching attempt, and a definite one also for an unresolved attempt. */
  lemma WhenAnAnswerIsStored(l: Ledger, c: Claim, r: DispatchResult, found: Option<Id>, now: Millis)
    ensures
      var done := ApplyDispatchResult(l, c, r, found, now);
      if !Claimed(l, c) then done == Err(Missing)
      else
        var status := l.attempts[c.attemptId].status;
        if status == Dispatching || (status == ExecutionUnknown && !r.DispatchUnknown?) then done.Ok? else done == Err(InvalidTransition)
  {}

  ghost predicate AttemptAnswered(a: Attempt, b: Attempt, r: DispatchResult, now: Millis) {
    && b == a.(status := b.status, financialOutcome := b.status, chargeReference := b.chargeReference,
               receiptEvidence := r.evidence, updatedAt := now)
    && match r
       case DispatchSucceeded(reference, _, _) => b.status == ChargeSucceeded && b.chargeReference == Some(reference)
       case DispatchFailed(reference, _, _) => b.status == ChargeFailed && b.chargeReference == reference
       case DispatchUnknown(reference, _, _, _) => b.status == ExecutionUnknown && b.chargeReference == reference
  }

  /** A success consumes what it costs, a refusal nothing, and both give the reservation back; an unresolved answer keeps it. */
  ghost predicate MandateAnswered(m: Mandate, n: Mandate, claimed: int, r: DispatchResult, now: Millis) {
    && n == m.(reservedCents := n.reservedCents, consumedCents := n.consumedCents, status := n.status, updatedAt := now)
    && match r
       case DispatchSucceeded(_, _, reported) =>
         && n.reservedCents == m.reservedCents - claimed && n.consumedCents == m.consumedCents + Price(reported, claimed)
         && Freed(m.status, n.status)
       case DispatchFailed(_, _, _) =>
         n.reservedCents == m.reservedCents - claimed && n.consumedCents == m.consumedCents && Freed(m.status, n.status)
       case DispatchUnknown(_, _, _, _) =>
         n.reservedCents == m.reservedCents && n.consumedCents == m.consumedCents && n.status == m.status
  }

  lemma AnsweredRows(l: Ledger, c: Claim, r: DispatchResult, now: Millis)
    requires Claimed(l, c)
    ensures
      var l' := Settle(l, c, r, now);
      && OnlyTheClaimed(l, l', c)
      && AttemptAnswered(l.attempts[c.attemptId], l'.attempts[c.attemptId], r, now)
      && MandateAnswered(l.mandates[c.mandateId], l'.mandates[c.mandateId], c.amountCents, r, now)
  {}

  lemma OutcomeWrites(l: Ledger, l1: Ledger, c: Claim, evidence: ReceiptEvidence, status: AttemptStatus, cents: int,
                      audits: seq<AuditNote>, events: seq<EventNote>, now: Millis)
    requires Writes(l, l1, audits, events, now)
    ensures Writes(l, OutcomeNotes(l1, c, evidence, status, cents, now),
                   [AuditOn(c, AuditFinancialOutcome), AuditOn(c, AuditReceiptUpdated)] + audits,
                   [EventOf(c, EvtFinancialOutcome(status, cents)), EventOf(c, EvtReceiptUpdated(evidence))] + events, now)
  {
    NoteWritten(l, l1, audits, events, c.mandateId, c.attemptId, AuditReceiptUpdated, EvtReceiptUpdated(evidence), now);
    var l2 := WithEvent(WithAudit(l1, c.mandateId, AuditReceiptUpdated, Some(c.attemptId), now), OfAttempt, c.attemptId,
                        EvtReceiptUpdated(evidence), now);
    var audits2, events2 := [AuditOn(c, AuditReceiptUpdated)] + audits, [EventOf(c, EvtReceiptUpdated(evidence))] + events;
    NoteWritten(l, l2, audits2, events2, c.mandateId, c.attemptId, AuditFinancialOutcome, EvtFinancialOutcome(status, cents), now);
    assert [AuditOn(c, AuditFinancialOutcome)] + audits2 == [AuditOn(c, AuditFinancialOutcome), AuditOn(c, AuditReceiptUpdated)] + audits;
    assert [EventOf(c, EvtFinancialOutcome(status, cents))] + events2
        == [EventOf(c, EvtFinancialOutcome(status, cents)), EventOf(c, EvtReceiptUpdated(evidence))] + events;
  }

  /** The entries of a definite outcome, newest first. */
  function DefiniteAudits(c: Claim): seq<AuditNote> {
    [AuditOn(c, AuditAttemptReconciled), AuditOn(c, AuditFinancialOutcome), AuditOn(c, AuditReceiptUpdated)]
  }

  function DefiniteEvents(c: Claim, status: AttemptStatus, cents: int, evidence: ReceiptEvidence): seq<EventNote> {
    [EventOf(c, EvtReconciled(status)), EventOf(c, EvtFinancialOutcome(status, cents)), EventOf(c, EvtReceiptUpdated(evidence))]
  }

  lemma DefiniteWrites(l: Ledger, l1: Ledger, c: Claim, evidence: ReceiptEvidence, status: AttemptStatus, cents: int, now: Millis)
    requires l1.audits == l.audits && l1.events == l.events && l1.nextId == l.nextId
    ensures Writes(l, ReconciledNotes(OutcomeNotes(l1, c, evidence, status, cents, now), c, status, now),
                   DefiniteAudits(c), DefiniteEvents(c, status, cents, evidence), now)
  {
    NothingWritten(l, l1, now);
    OutcomeWrites(l, l1, c, evidence, status, cents, [], [], now);
    var audits := [AuditOn(c, AuditFinancialOutcome), AuditOn(c, AuditReceiptUpdated)];
    var events := [EventOf(c, EvtFinancialOutcome(status, cents)), EventOf(c, EvtReceiptUpdated(evidence))];
    assert audits + [] == audits && events + [] == events;
    NoteWritten(l, OutcomeNotes(l1, c, evidence, status, cents, now), audits, events, c.mandateId, c.attemptId,
                AuditAttemptReconciled, EvtReconciled(status), now);
    assert [AuditOn(c, AuditAttemptReconciled)] + audits == DefiniteAudits(c);
    assert [EventOf(c, EvtReconciled(status))] + events == DefiniteEvents(c, status, cents, evidence);
  }

  /** A success: the attempt is charged, the mandate consumes what it costs, and the financial outcome on the log carries
      that number. */
  lemma StoredSuccess(l: Ledger, c: Claim, r: DispatchResult, found: Option<Id>, now: Millis)
    requires r.DispatchSucceeded? && ApplyDispatchResult(l, c, r, found, now).Ok?
    ensures Claimed(l, c)
    ensures
      var l' := ApplyDispatchResult(l, c, r, found, now).value;
      && OnlyTheClaimed(l, l', c) && l'.tasks == l.tasks
      && AttemptAnswered(l.attempts[c.attemptId], l'.attempts[c.attemptId], r, now)
      && MandateAnswered(l.mandates[c.mandateId], l'.mandates[c.mandateId], c.amountCents, r, now)
      && Writes(l, l', DefiniteAudits(c),
                DefiniteEvents(c, ChargeSucceeded, Price(r.finalAmount, c.amountCents), r.evidence), now)
  {
    AnsweredRows(l, c, r, now);
    DefiniteWrites(l, Settle(l, c, r, now), c, r.evidence, ChargeSucceeded, Price(r.finalAmount, c.amountCents), now);
  }

  /** A refusal: the attempt failed and nothing is consumed. The entry still carries the amount of the answer. */
  lemma StoredRefusal(l: Ledger, c: Claim, r: DispatchResult, found: Option<Id>, now: Millis)
    requires r.DispatchFailed? && ApplyDispatchResult(l, c, r, found, now).Ok?
    ensures Claimed(l, c)
    ensures
      var l' := ApplyDispatchResult(l, c, r, found, now).value;
      && OnlyTheClaimed(l, l', c) && l'.tasks == l.tasks
      && AttemptAnswered(l.attempts[c.attemptId], l'.attempts[c.attemptId], r, now)
      && MandateAnswered(l.mandates[c.mandateId], l'.mandates[c.mandateId], c.amountCents, r, now)
      && Writes(l, l', DefiniteAudits(c), DefiniteEvents(c, ChargeFailed, Price(r.finalAmount, c.amountCents), r.evidence), now)
  {
    AnsweredRows(l, c, r, now);
    DefiniteWrites(l, Settle(l, c, r, now), c, r.evidence, ChargeFailed, Price(r.finalAmount, c.amountCents), now);
  }

  // ---- an unresolved answer ----

  /** A task that is to reconcile attempt `a` is queued or leased. */
  predicate IsWaiting(t: Task, a: Id) {
    t.kind == ReconcileAttempt && t.attemptId == a && (t.status == Queued || t.status == Leased)
  }

  /** Task `t` waits to reconcile the attempt: one that was there, and then the tasks are as they were, or the only new one. */
  ghost predicate ReconcileTask(l: Ledger, l': Ledger, t: Id, mandateId: Id, attemptId: Id, operatorId: string, now: Millis) {
    && t in l'.tasks
    && if exists u :: u in l.tasks && IsWaiting(l.tasks[u], attemptId)
       then l'.tasks == l.tasks && IsWaiting(l.tasks[t], attemptId)
       else
         && l.nextId <= t < l'.nextId && l'.tasks == l.tasks[t := l'.tasks[t]] && l'.tasks[t].id == t
         && NewlyQueued(l'.tasks[t], ReconcileAttempt, attemptId, mandateId, operatorId, now)
  }

  function EnqueuedEvent(l: Ledger, t: Id): seq<EventNote> {
    if t in l.tasks then [] else [EventNote(OfTask, t, EvtTaskEnqueued)]
  }

  lemma EnqueuedTask(l: Ledger, l1: Ledger, mandateId: Id, attemptId: Id, operatorId: string, found: Option<Id>,
                     audits: seq<AuditNote>, events: seq<EventNote>, now: Millis)
    requires FindsLive(l.tasks, ReconcileAttempt, attemptId, found) && l1.tasks == l.tasks && Writes(l, l1, audits, events, now)
    requires forall t :: t in l.tasks ==> t < l.nextId
    ensures
      var q := EnqueueWorkerTask(l1, ReconcileAttempt, mandateId, attemptId, Some(operatorId), found, now);
      && ReconcileTask(l, q.ledger, q.taskId, mandateId, attemptId, operatorId, now)
      && Writes(l, q.ledger, audits, EnqueuedEvent(l, q.taskId) + events, now)
      && q.ledger.mandates == l1.mandates && q.ledger.attempts == l1.attempts && q.ledger.agents == l1.agents
  {
    var q := EnqueueWorkerTask(l1, ReconcileAttempt, mandateId, attemptId, Some(operatorId), found, now);
    if found.Some? {
      assert [] + events == events;
      assert IsWaiting(l.tasks[found.value], attemptId);
    } else {
      forall u | u in l.tasks ensures !IsWaiting(l.tasks[u], attemptId) {
        assert !LiveTask(l.tasks, u, ReconcileAttempt, attemptId);
      }
      var l2 := l1.(tasks := q.ledger.tasks, nextId := l1.nextId + 1);
      RowsBetween(l, l1, l2, audits, events, now);
      EventWritten(l, l2, audits, events, OfTask, q.taskId, EvtTaskEnqueued, now);
    }
  }

  function UnknownAudits(c: Claim): seq<AuditNote> {
    [AuditOn(c, AuditFinancialOutcome), AuditOn(c, AuditReceiptUpdated), AuditOn(c, AuditReconciliationStarted)]
  }

  function UnknownEvents(l: Ledger, c: Claim, r: DispatchResult, t: Id): seq<EventNote>
    requires r.DispatchUnknown?
  {
    [EventOf(c, EvtFinancialOutcome(ExecutionUnknown, c.amountCents)), EventOf(c, EvtReceiptUpdated(r.evidence)),
     EventOf(c, EvtReconciliationStarted(t, r.payloadJson, r.requirementsJson))] + EnqueuedEvent(l, t)
  }

  lemma StartedWrites(l: Ledger, l1: Ledger, c: Claim, r: DispatchResult, t: Id, now: Millis)
    requires r.DispatchUnknown? && Writes(l, l1, [AuditOn(c, AuditReconciliationStarted)], EnqueuedEvent(l, t), now)
    ensures Writes(l, OutcomeNotes(ReconciliationStarted(l1, c, t, r, now), c, r.evidence, ExecutionUnknown, c.amountCents, now),
                   UnknownAudits(c), UnknownEvents(l, c, r, t), now)
  {
    var started := EvtReconciliationStarted(t, r.payloadJson, r.requirementsJson);
    var audits, events := [AuditOn(c, AuditReconciliationStarted)], EnqueuedEvent(l, t);
    EventWritten(l, l1, audits, events, OfAttempt, c.attemptId, started, now);
    OutcomeWrites(l, ReconciliationStarted(l1, c, t, r, now), c, r.evidence, ExecutionUnknown, c.amountCents, audits,
                  [EventOf(c, started)] + events, now);
    assert [AuditOn(c, AuditFinancialOutcome), AuditOn(c, AuditReceiptUpdated)] + audits == UnknownAudits(c);
    assert [EventOf(c, EvtFinancialOutcome(ExecutionUnknown, c.amountCents)), EventOf(c, EvtReceiptUpdated(r.evidence))]
           + ([EventOf(c, started)] + events) == UnknownEvents(l, c, r, t);
  }

  /** The ledger once the task is queued, before the last entries. */
  function WithTask(l: Ledger, c: Claim, r: DispatchResult, found: Option<Id>, now: Millis): Enqueued
    requires Claimed(l, c)
  {
    var l2 := WithAudit(Settle(l, c, r, now), c.mandateId, AuditReconciliationStarted, Some(c.attemptId), now);
    EnqueueWorkerTask(l2, ReconcileAttempt, c.mandateId, c.attemptId, Some(l.attempts[c.attemptId].operatorId), found, now)
  }

  lemma UnresolvedLedger(l: Ledger, c: Claim, r: DispatchResult, found: Option<Id>, now: Millis)
    requires r.DispatchUnknown? && ApplyDispatchResult(l, c, r, found, now).Ok?
    ensures Claimed(l, c)
    ensures
      var q := WithTask(l, c, r, found, now);
      ApplyDispatchResult(l, c, r, found, now).value ==
        OutcomeNotes(ReconciliationStarted(q.ledger, c, q.taskId, r, now), c, r.evidence, ExecutionUnknown, c.amountCents, now)
  {}

  lemma QueuedTask(l: Ledger, c: Claim, r: DispatchResult, found: Option<Id>, now: Millis)
    requires Claimed(l, c) && FindsLive(l.tasks, ReconcileAttempt, c.attemptId, found) && forall u :: u in l.tasks ==> u < l.nextId
    ensures
      var q := WithTask(l, c, r, found, now);
      && ReconcileTask(l, q.ledger, q.taskId, c.mandateId, c.attemptId, l.attempts[c.attemptId].operatorId, now)
      && Writes(l, q.ledger, [AuditOn(c, AuditReconciliationStarted)], EnqueuedEvent(l, q.taskId), now)
  {
    var l1, operatorId := Settle(l, c, r, now), l.attempts[c.attemptId].operatorId;
    NothingWritten(l, l1, now);
    AuditWritten(l, l1, [], [], c.mandateId, AuditReconciliationStarted, Some(c.attemptId), now);
    var l2 := WithAudit(l1, c.mandateId, AuditReconciliationStarted, Some(c.attemptId), now);
    assert [AuditOn(c, AuditReconciliationStarted)] + [] == [AuditOn(c, AuditReconciliationStarted)];
    EnqueuedTask(l, l2, c.mandateId, c.attemptId, operatorId, found, [AuditOn(c, AuditReconciliationStarted)], [], now);
    var t := WithTask(l, c, r, found, now).taskId;
    assert EnqueuedEvent(l, t) + [] == EnqueuedEvent(l, t);
  }

  lemma LaterEntriesKeepTasks(l: Ledger, l1: Ledger, l2: Ledger, t: Id, mandateId: Id, attemptId: Id, operatorId: string, now: Millis)
    requires ReconcileTask(l, l1, t, mandateId, attemptId, operatorId, now) && l2.tasks == l1.tasks && l1.nextId <= l2.nextId
    ensures ReconcileTask(l, l2, t, mandateId, attemptId, operatorId, now)
  {}

  /** An unresolved answer: the attempt is execution_unknown, its reservation stays, and one task waits to reconcile it;
      the payload is put on record with that task. */
  lemma StoredUnknown(l: Ledger, c: Claim, r: DispatchResult, found: Option<Id>, now: Millis) returns (t: Id)
    requires r.DispatchUnknown? && ApplyDispatchResult(l, c, r, found, now).Ok?
    requires FindsLive(l.tasks, ReconcileAttempt, c.attemptId, found) && forall u :: u in l.tasks ==> u < l.nextId
    ensures Claimed(l, c)
    ensures
      var l' := ApplyDispatchResult(l, c, r, found, now).value;
      && OnlyTheClaimed(l, l', c)
      && AttemptAnswered(l.attempts[c.attemptId], l'.attempts[c.attemptId], r, now)
      && MandateAnswered(l.mandates[c.mandateId], l'.mandates[c.mandateId], c.amountCents, r, now)
      && ReconcileTask(l, l', t, c.mandateId, c.attemptId, l.attempts[c.attemptId].operatorId, now)
      && Writes(l, l', UnknownAudits(c), UnknownEvents(l, c, r, t), now)
  {
    UnresolvedLedger(l, c, r, found, now);
    AnsweredRows(l, c, r, now);
    QueuedTask(l, c, r, found, now);
    var q := WithTask(l, c, r, found, now);
    t := q.taskId;
    StartedWrites(l, q.ledger, c, r, t, now);
    LaterEntriesKeepTasks(l, q.ledger, ApplyDispatchResult(l, c, r, found, now).value, t, c.mandateId, c.attemptId,
                          l.attempts[c.attemptId].operatorId, now);
  }

  /** An operator may queue an unresolved attempt of this mandate for reconciliation: one task waits for it afterwards. */
  lemma QueuedForReconciliation(l: Ledger, m: Id, a: Id, found: Option<Id>, now: Millis)
    requires FindsLive(l.tasks, ReconcileAttempt, a, found) && forall t :: t in l.tasks ==> t < l.nextId
    ensures
      var r := EnsureReconciliationQueued(l, m, a, found, now);
      if a !in l.attempts || m !in l.mandates || l.attempts[a].mandateId != m then r == Err(NotFound)
      else if l.attempts[a].status != ExecutionUnknown then r == Err(NotReconcilable)
      else
        && r.Ok? && r.value.mandates == l.mandates && r.value.attempts == l.attempts && r.value.agents == l.agents
        && exists t :: ReconcileTask(l, r.value, t, m, a, l.attempts[a].operatorId, now) && Writes(l, r.value, [], EnqueuedEvent(l, t), now)
  {
    var r := EnsureReconciliationQueued(l, m, a, found, now);
    if r.Ok? {
      NothingWritten(l, l, now);
      EnqueuedTask(l, l, m, a, l.attempts[a].operatorId, found, [], [], now);
      var q := EnqueueWorkerTask(l, ReconcileAttempt, m, a, Some(l.attempts[a].operatorId), found, now);
      assert EnqueuedEvent(l, q.taskId) + [] == EnqueuedEvent(l, q.taskId);
    }
  }

  // ---- a release ----

  ghost predicate AttemptReleased(a: Attempt, b: Attempt, reason: BlockedReason, now: Millis) {
    b == a.(status := CancelledReleased, financialOutcome := CancelledReleased, receiptEvidence := NotRequired,
            blockedReason := Some(reason), updatedAt := now)
  }

  ghost predicate MandateReleased(m: Mandate, n: Mandate, claimed: int, now: Millis) {
    && n == m.(reservedCents := n.reservedCents, status := n.status, updatedAt := now) && Freed(m.status, n.status)
    && n.reservedCents == (if claimed <= m.reservedCents then m.reservedCents - claimed else 0)
  }

  lemma ReleasedRows(l: Ledger, c: Claim, reason: BlockedReason, now: Millis)
    requires Claimed(l, c)
    ensures
      var l1 := Release(l, c, reason, now);
      && OnlyTheClaimed(l, l1, c) && l1.tasks == l.tasks && l1.audits == l.audits && l1.events == l.events && l1.nextId == l.nextId
      && AttemptReleased(l.attempts[c.attemptId], l1.attempts[c.attemptId], reason, now)
      && MandateReleased(l.mandates[c.mandateId], l1.mandates[c.mandateId], c.amountCents, now)
  {}

  /** A reserved, queued or dispatching attempt can be released; its reservation goes, never below zero, and nothing is
      consumed. */
  lemma ReleaseGivesBack(l: Ledger, c: Claim, reason: BlockedReason, now: Millis)
    ensures
      var r := ReleaseDispatch(l, c, reason, now);
      if !Claimed(l, c) then r == Err(Missing)
      else
        var a, m := l.attempts[c.attemptId], l.mandates[c.mandateId];
        if a.status != Reserved && a.status != DispatchQueued && a.status != Dispatching then r == Err(InvalidTransition)
        else
          && r.Ok? && OnlyTheClaimed(l, r.value, c) && r.value.tasks == l.tasks
          && AttemptReleased(a, r.value.attempts[c.attemptId], reason, now)
          && MandateReleased(m, r.value.mandates[c.mandateId], c.amountCents, now)
          && Writes(l, r.value, [AuditOn(c, AuditAttemptBlocked)], [EventOf(c, EvtWorkerFailed)], now)
  {
    var r := ReleaseDispatch(l, c, reason, now);
    if r.Ok? {
      var l1 := Release(l, c, reason, now);
      ReleasedRows(l, c, reason, now);
      NothingWritten(l, l1, now);
      NoteWritten(l, l1, [], [], c.mandateId, c.attemptId, AuditAttemptBlocked, EvtWorkerFailed, now);
    }
  }

  // ---- a reconciliation ----

  ghost predicate AttemptResolved(a: Attempt, b: Attempt, r: CorrelationResult, now: Millis) {
    && b == a.(status := b.status, financialOutcome := b.status, receiptEvidence := r.evidence, chargeReference := b.chargeReference,
               updatedAt := now)
    && b.status == (if r.succeeded then ChargeSucceeded else ChargeFailed)
    && b.chargeReference == (match r.reference case Some(reference) => Some(reference) case None => a.chargeReference)
  }

  ghost predicate MandateResolved(m: Mandate, n: Mandate, claimed: int, r: CorrelationResult, now: Millis) {
    && n == m.(reservedCents := n.reservedCents, consumedCents := n.consumedCents, status := n.status, updatedAt := now)
    && n.reservedCents == (if claimed <= m.reservedCents then m.reservedCents - claimed else 0) && Freed(m.status, n.status)
    && n.consumedCents == m.consumedCents + (if r.succeeded then Price(r.finalAmount, claimed) else 0)
  }

  /** Only an unresolved attempt is reconciled, and then it takes what correlation proved: the mandate consumes what that
      costs if it was a success, and the entries carry the amount. */
  lemma ReconciliationSettles(l: Ledger, c: Claim, r: CorrelationResult, now: Millis)
    ensures
      var done := ApplyReconciliationResult(l, c, r, now);
      if !Claimed(l, c) then done == Err(Missing)
      else if l.attempts[c.attemptId].status != ExecutionUnknown then done == Err(NotReconcilable)
      else
        && done.Ok? && OnlyTheClaimed(l, done.value, c) && done.value.tasks == l.tasks
        && var m, n := l.mandates[c.mandateId], done.value.mandates[c.mandateId];
        && AttemptResolved(l.attempts[c.attemptId], done.value.attempts[c.attemptId], r, now)
        && MandateResolved(m, n, c.amountCents, r, now)
        && Writes(l, done.value, DefiniteAudits(c),
                  DefiniteEvents(c, if r.succeeded then ChargeSucceeded else ChargeFailed, Price(r.finalAmount, c.amountCents),
                                 r.evidence), now)
  {
    var done := ApplyReconciliationResult(l, c, r, now);
    if done.Ok? {
      DefiniteWrites(l, Resolve(l, c, r, now), c, r.evidence, if r.succeeded then ChargeSucceeded else ChargeFailed,
                     Price(r.finalAmount, c.amountCents), now);
    }
  }
}

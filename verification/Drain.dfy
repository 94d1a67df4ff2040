/** The queue-drain loop of the execution worker, run alone, without crashes and with the clock standing still. */
module Drain {
  import opened Domain
  import opened StateMachines
  import opened Entries
  import opened SettlementTheorems
  import opened Stores
  import L = Ledger

  datatype Step = Idle | Completed | Unresolved | Failed

  datatype WorkerProcessSummary =
    WorkerProcessSummary(processed: nat, completed: nat, unresolved: nat, failed: nat, requeued: nat)

  /** What calling the vendor comes to; None when the call throws. */
  type Vendor = Claim -> Option<DispatchResult>

  function EligibleTasks(l: L.Ledger, now: Millis): set<Id> {
    set t | t in l.tasks && MayBeLeased(l.tasks[t], DispatchAttempt, now)
  }

  ghost predicate TaskReady(l: L.Ledger, t: Task) {
    t.attemptId in l.attempts && l.attempts[t.attemptId].status == DispatchQueued && t.mandateId in l.mandates
  }

  ghost predicate Waits(l: L.Ledger, t: Id) {
    t in l.tasks && TaskReady(l, l.tasks[t])
  }

  ghost predicate TaskFounded(l: L.Ledger, t: Task) {
    t.attemptId in l.attempts && t.mandateId in l.mandates
  }

  /** The rows the eligible tasks refer to exist, as the check on every read demands. */
  ghost predicate Founded(l: L.Ledger, now: Millis) {
    forall t {:trigger TaskFounded(l, l.tasks[t])} :: t in EligibleTasks(l, now) ==> TaskFounded(l, l.tasks[t])
  }

  /** Every eligible task has a queued attempt of its own. */
  ghost predicate Ready(l: L.Ledger, now: Millis) {
    && (forall t {:trigger TaskReady(l, l.tasks[t])} :: t in EligibleTasks(l, now) ==> TaskReady(l, l.tasks[t]))
    && (forall t, u :: t in EligibleTasks(l, now) && u in EligibleTasks(l, now) && l.tasks[t].attemptId == l.tasks[u].attemptId ==> t == u)
  }

  predicate OutcomeFits(step: Step, status: AttemptStatus) {
    match step
    case Idle => false
    case Completed => Settled(status)
    case Unresolved => status == ExecutionUnknown
    case Failed => status == CancelledReleased
  }

  /** Task `t` and its attempt end as `step` says; other attempts and tasks stay, new tasks are for reconciling. */
  ghost predicate Handled(l: L.Ledger, l': L.Ledger, t: Id, step: Step) {
    && t in l.tasks && t in l'.tasks && l'.tasks[t].status == (if step.Failed? then TaskStatus.Failed else TaskStatus.Completed)
    && (forall u :: u in l.tasks && u != t ==> u in l'.tasks && l'.tasks[u] == l.tasks[u])
    && (forall u :: u in l'.tasks && u !in l.tasks ==> l'.tasks[u].kind == ReconcileAttempt)
    && l'.attempts.Keys == l.attempts.Keys && l'.mandates.Keys == l.mandates.Keys
    && l.tasks[t].attemptId in l'.attempts && OutcomeFits(step, l'.attempts[l.tasks[t].attemptId].status)
    && (forall b :: b in l.attempts && b != l.tasks[t].attemptId ==> l'.attempts[b] == l.attempts[b])
  }

  /** The vendor may be called: the mandate is reserved and in time, and the vendor known. */
  predicate MayCall(m: Mandate, vendorId: string, now: Millis) {
    m.status == IssuedReserved && now < m.expiresAt && Registered(vendorId)
  }

  /** Why an attempt is released: the mandate's expiry first, then its status, then a failure of the call. */
  predicate ReleasedBecause(m: Mandate, now: Millis, reason: BlockedReason) {
    match reason
    case MandateExpiredBeforeDispatch => m.expiresAt <= now || m.status == Expired
    case MandateRevokedBeforeDispatch => now < m.expiresAt && (m.status == Revoking || m.status == Revoked)
    case MandateNotDispatchable => now < m.expiresAt && (m.status == Draft || m.status == IssuedActive)
    case ExecutionWorkerFailed => now < m.expiresAt && m.status == IssuedReserved
    case _ => false
  }

  /** The attempt and mandate of the claim end as the vendor answered if it could be called and the call came back, and
      released otherwise; `answer` is what the call comes to. No other mandate changes. */
  ghost predicate Outcome(l: L.Ledger, l': L.Ledger, c: Claim, answer: Option<DispatchResult>, now: Millis, step: Step) {
    && Claimed(l, c) && Claimed(l', c) && l'.mandates == l.mandates[c.mandateId := l'.mandates[c.mandateId]]
    && var a, b := l.attempts[c.attemptId], l'.attempts[c.attemptId];
    && var m, n := l.mandates[c.mandateId], l'.mandates[c.mandateId];
    && if MayCall(m, c.vendorId, now) && answer.Some? then
         && step == (if answer.value.DispatchUnknown? then Unresolved else Step.Completed)
         && AttemptAnswered(a, b, answer.value, now) && MandateAnswered(m, n, c.amountCents, answer.value, now)
       else
         && step == Step.Failed && b.blockedReason.Some? && ReleasedBecause(m, now, b.blockedReason.value)
         && AttemptReleased(a, b, b.blockedReason.value, now) && MandateReleased(m, n, c.amountCents, now)
  }

  /** Handling one task leaves the other eligible tasks eligible and what they refer to in place. */
  lemma OthersStayEligible(l: L.Ledger, l': L.Ledger, t: Id, step: Step, now: Millis)
    requires Founded(l, now) && t in EligibleTasks(l, now) && Handled(l, l', t, step)
    ensures EligibleTasks(l', now) == EligibleTasks(l, now) - {t} && Founded(l', now)
  {
    forall u | u in EligibleTasks(l', now) ensures TaskFounded(l', l'.tasks[u]) && u in EligibleTasks(l, now) - {t} {
      assert u in l.tasks && u != t && l'.tasks[u] == l.tasks[u];
      assert u in EligibleTasks(l, now);
      assert TaskFounded(l, l.tasks[u]);
    }
  }

  /** Handling one task leaves the others as ready as they were. */
  lemma OthersStayReady(l: L.Ledger, l': L.Ledger, t: Id, step: Step, now: Millis)
    requires Ready(l, now) && t in EligibleTasks(l, now) && Handled(l, l', t, step)
    requires EligibleTasks(l', now) == EligibleTasks(l, now) - {t}
    ensures Ready(l', now)
  {
    forall u | u in EligibleTasks(l', now) ensures TaskReady(l', l'.tasks[u]) {
      assert u in l.tasks && u != t && l'.tasks[u] == l.tasks[u];
      assert TaskReady(l, l.tasks[u]);
    }
  }

  /** Everything up to the vendor call: the lease and the move to dispatching. */
  ghost predicate Begun(l: L.Ledger, l': L.Ledger, c: Claim) {
    && c.taskId in l.tasks && c.attemptId == l.tasks[c.taskId].attemptId && c.mandateId in l'.mandates && c.attemptId in l'.attempts
    && c.taskId in l'.tasks && l'.tasks == l.tasks[c.taskId := l'.tasks[c.taskId]]
    && l'.attempts == l.attempts[c.attemptId := l'.attempts[c.attemptId]] && c.attemptId in l.attempts
    && (exists now :: l'.attempts[c.attemptId] ==
          l.attempts[c.attemptId].(status := Dispatching, financialOutcome := Dispatching, updatedAt := now))
    && l'.mandates == l.mandates && forall u :: u in l'.tasks ==> u < l'.nextId
  }

  /** Storing the answer changes this attempt and its mandate, and adds at most a task for reconciling. */
  lemma SettledRows(l1: L.Ledger, c: Claim, answer: DispatchResult, found: Option<Id>, now: Millis)
    requires c.mandateId in l1.mandates && c.attemptId in l1.attempts && l1.attempts[c.attemptId].status == Dispatching
    requires forall u :: u in l1.tasks ==> u < l1.nextId
    ensures L.ApplyDispatchResult(l1, c, answer, found, now).Ok?
    ensures
      var l2 := L.ApplyDispatchResult(l1, c, answer, found, now).value;
      && OnlyTheClaimed(l1, l2, c)
      && AttemptAnswered(l1.attempts[c.attemptId], l2.attempts[c.attemptId], answer, now)
      && MandateAnswered(l1.mandates[c.mandateId], l2.mandates[c.mandateId], c.amountCents, answer, now)
      && (forall u :: u in l1.tasks ==> u in l2.tasks && l2.tasks[u] == l1.tasks[u])
      && (forall u :: u in l2.tasks && u !in l1.tasks ==> l2.tasks[u].kind == ReconcileAttempt)
  {
    WhenAnAnswerIsStored(l1, c, answer, found, now);
    AnsweredRows(l1, c, answer, now);
    var l2, settled := L.ApplyDispatchResult(l1, c, answer, found, now).value, L.Settle(l1, c, answer, now);
    assert l2.attempts == settled.attempts && l2.mandates == settled.mandates;
    var added := l1.nextId + 1;
    assert l2.tasks == l1.tasks || (added in l2.tasks && l2.tasks == l1.tasks[added := l2.tasks[added]]);
  }

  lemma SettledThenCompleted(l: L.Ledger, l1: L.Ledger, c: Claim, answer: DispatchResult, found: Option<Id>, now: Millis)
    requires Begun(l, l1, c)
    ensures L.ApplyDispatchResult(l1, c, answer, found, now).Ok?
    ensures L.CompleteTask(L.ApplyDispatchResult(l1, c, answer, found, now).value, c.taskId, now).Ok?
    ensures
      var l2 := L.CompleteTask(L.ApplyDispatchResult(l1, c, answer, found, now).value, c.taskId, now).value;
      var step := if answer.DispatchUnknown? then Unresolved else Step.Completed;
      && Handled(l, l2, c.taskId, step)
      && (MayCall(l.mandates[c.mandateId], c.vendorId, now) ==> Outcome(l, l2, c, Some(answer), now, step))
  {
    SettledRows(l1, c, answer, found, now);
    CompletedIsHandled(l, l1, L.ApplyDispatchResult(l1, c, answer, found, now).value, c,
                       if answer.DispatchUnknown? then Unresolved else Step.Completed, now);
  }

  lemma CompletedIsHandled(l: L.Ledger, l1: L.Ledger, l2: L.Ledger, c: Claim, step: Step, now: Millis)
    requires Begun(l, l1, c) && !step.Failed? && c.attemptId in l2.attempts && OutcomeFits(step, l2.attempts[c.attemptId].status)
    requires l2.attempts == l1.attempts[c.attemptId := l2.attempts[c.attemptId]] && l2.mandates.Keys == l1.mandates.Keys
    requires forall u :: u in l1.tasks ==> u in l2.tasks && l2.tasks[u] == l1.tasks[u]
    requires forall u :: u in l2.tasks && u !in l1.tasks ==> l2.tasks[u].kind == ReconcileAttempt
    ensures L.CompleteTask(l2, c.taskId, now).Ok? && Handled(l, L.CompleteTask(l2, c.taskId, now).value, c.taskId, step)
  {
    assert L.CompleteTask(l2, c.taskId, now).value.tasks == l2.tasks[c.taskId := L.CompleteTask(l2, c.taskId, now).value.tasks[c.taskId]];
  }

  lemma ReleasedThenFailed(l: L.Ledger, l1: L.Ledger, c: Claim, reason: BlockedReason, now: Millis)
    requires Begun(l, l1, c)
    ensures L.ReleaseDispatch(l1, c, reason, now).Ok?
    ensures L.FailTask(L.ReleaseDispatch(l1, c, reason, now).value, c.taskId, now).Ok?
    ensures
      var l2 := L.FailTask(L.ReleaseDispatch(l1, c, reason, now).value, c.taskId, now).value;
      Handled(l, l2, c.taskId, Step.Failed) && IsReleased(l, l2, c, reason, now)
  {
    ReleaseGivesBack(l1, c, reason, now);
  }

  /** The claimed attempt is released for this reason, and no other mandate changes. */
  ghost predicate IsReleased(l: L.Ledger, l': L.Ledger, c: Claim, reason: BlockedReason, now: Millis) {
    && Claimed(l, c) && Claimed(l', c) && l'.mandates == l.mandates[c.mandateId := l'.mandates[c.mandateId]]
    && AttemptReleased(l.attempts[c.attemptId], l'.attempts[c.attemptId], reason, now)
    && MandateReleased(l.mandates[c.mandateId], l'.mandates[c.mandateId], c.amountCents, now)
  }

  method ReleaseDispatchTask(s: Store, c: Claim, reason: BlockedReason, now: Millis, ghost l: L.Ledger) returns (step: Step)
    requires s.Valid() && Begun(l, s.view, c)
    modifies s
    ensures s.Valid() && step == Step.Failed && Handled(l, s.view, c.taskId, step) && IsReleased(l, s.view, c, reason, now)
  {
    ReleasedThenFailed(l, s.view, c, reason, now);
    var released := s.ReleaseDispatch(c, reason, now);
    var failed := s.FailWorkerTask(c.taskId, now);
    return Step.Failed;
  }

  /** Task `t` was leased and nothing else: its attempt had left the queue, and the move to dispatching throws. */
  ghost predicate Stuck(l: L.Ledger, l': L.Ledger, t: Id, workerName: string, now: Millis) {
    && OldestToLease(l.tasks, DispatchAttempt, now, t) && !Waits(l, t)
    && L.LeaseTask(l, t, workerName, now).Ok? && l' == L.LeaseTask(l, t, workerName, now).value.ledger
  }

  /** Leases the oldest eligible dispatch task and sees it through, or throws when its attempt has left the queue. */
  method ProcessNextQueuedAttempt(s: Store, workerName: string, now: Millis, vendor: Vendor)
    returns (r: Result<Step>, ghost t: Id, ghost c: Claim)
    requires s.Valid() && Founded(s.view, now)
    modifies s
    ensures s.Valid()
    ensures r == Ok(Idle) ==> s.view == old(s.view) && EligibleTasks(s.view, now) == {}
    ensures r.Ok? && !r.value.Idle? ==>
      && OldestToLease(old(s.view).tasks, DispatchAttempt, now, t) && Waits(old(s.view), t) && Handled(old(s.view), s.view, t, r.value)
      && TakenFrom(c, old(s.view).tasks[t], old(s.view).attempts[old(s.view).tasks[t].attemptId])
      && Outcome(old(s.view), s.view, c, vendor(c), now, r.value)
      && EligibleTasks(s.view, now) == EligibleTasks(old(s.view), now) - {t} && Founded(s.view, now)
    ensures r.Err? ==> r == Err(InvalidTransition) && Stuck(old(s.view), s.view, t, workerName, now)
  {
    ghost var l := s.view;
    t, c := 0, L.Claim(0, 0, 0, 0, "", "", 0, "");
    NoneMissing(l, now);
    var leased := s.LeaseNextWorkerTask(DispatchAttempt, workerName, now);
    if leased.value.None? {
      assert EligibleTasks(l, now) == {};
      return Ok(Idle), t, c;
    }
    var claim := leased.value.value;
    t, c := claim.taskId, claim;
    s.NextIsUnused();
    BeginsIffWaiting(l, s.view, claim, workerName, now);
    var begun := s.BeginDispatch(claim, now);
    if begun.Err? { return Err(begun.failure), t, c; }
    var step := Dispatch(s, claim, now, vendor, l);
    OthersStayEligible(l, s.view, t, step, now);
    return Ok(step), t, c;
  }

  /** Preflight, the vendor, and what comes of it. */
  method Dispatch(s: Store, c: Claim, now: Millis, vendor: Vendor, ghost l: L.Ledger) returns (step: Step)
    requires s.Valid() && Begun(l, s.view, c)
    modifies s
    ensures s.Valid() && Handled(l, s.view, c.taskId, step) && Outcome(l, s.view, c, vendor(c), now, step)
  {
    PreflightTable(s.view, c, now);
    var preflight := s.GetDispatchPreflightFailure(c, now);
    if preflight.value.Some? {
      step := ReleaseDispatchTask(s, c, preflight.value.value, now, l);
    } else {
      var registered := FindVendor(c.vendorId);
      if registered.None? {
        step := ReleaseDispatchTask(s, c, ExecutionWorkerFailed, now, l);
      } else {
        step := CallVendor(s, c, vendor(c), now, l);
      }
    }
  }

  /** The vendor's answer is stored, or the attempt released when the call threw. */
  method CallVendor(s: Store, c: Claim, answer: Option<DispatchResult>, now: Millis, ghost l: L.Ledger) returns (step: Step)
    requires s.Valid() && Begun(l, s.view, c) && MayCall(l.mandates[c.mandateId], c.vendorId, now)
    modifies s
    ensures s.Valid() && Handled(l, s.view, c.taskId, step) && Outcome(l, s.view, c, answer, now, step)
  {
    if answer.None? {
      step := ReleaseDispatchTask(s, c, ExecutionWorkerFailed, now, l);
    } else {
      ghost var l1 := s.view;
      var applied, found := s.ApplyDispatchResult(c, answer.value, now);
      SettledThenCompleted(l, l1, c, answer.value, found, now);
      var completed := s.CompleteWorkerTask(c.taskId, now);
      return if answer.value.DispatchUnknown? then Unresolved else Step.Completed;
    }
  }

  lemma NoneMissing(l: L.Ledger, now: Millis)
    requires Founded(l, now)
    ensures forall t :: OldestToLease(l.tasks, DispatchAttempt, now, t) ==> t in EligibleTasks(l, now) && TaskFounded(l, l.tasks[t])
  {
    forall t | OldestToLease(l.tasks, DispatchAttempt, now, t) ensures t in EligibleTasks(l, now) && TaskFounded(l, l.tasks[t]) {
      assert t in EligibleTasks(l, now);
    }
  }

  /** The move to dispatching succeeds exactly for a queued attempt. */
  lemma BeginsIffWaiting(l: L.Ledger, l1: L.Ledger, c: Claim, workerName: string, now: Millis)
    requires c.taskId in l.tasks && l.tasks[c.taskId].id == c.taskId && TaskFounded(l, l.tasks[c.taskId])
    requires L.LeaseTask(l, c.taskId, workerName, now) == Ok(L.Lease(l1, c)) && forall u :: u in l1.tasks ==> u < l1.nextId
    ensures
      var r := L.BeginDispatch(l1, c, now);
      if Waits(l, c.taskId) then r.Ok? && Begun(l, r.value, c) else r == Err(InvalidTransition)
  {}

  // ---- the loop ----

  /** The handled tasks were eligible, are all different, and no eligible task older than one of them was passed over. */
  ghost predicate OldestFirst(l: L.Ledger, handled: seq<Id>, now: Millis) {
    && (forall i :: 0 <= i < |handled| ==> handled[i] in EligibleTasks(l, now))
    && (forall i, j :: 0 <= i < j < |handled| ==> handled[i] != handled[j])
    && (forall i, u :: 0 <= i < |handled| && u in EligibleTasks(l, now) && u !in handled[..i] ==>
          l.tasks[handled[i]].createdAt <= l.tasks[u].createdAt)
  }

  /** How many of the handled tasks ended in each way, by what their attempts became. */
  ghost function Ended(l: L.Ledger, l': L.Ledger, handled: seq<Id>, step: Step): nat {
    if handled == [] then 0
    else
      var t := handled[|handled| - 1];
      var ended := t in l.tasks && l.tasks[t].attemptId in l'.attempts && OutcomeFits(step, l'.attempts[l.tasks[t].attemptId].status);
      Ended(l, l', handled[..|handled| - 1], step) + if ended then 1 else 0
  }

  /** `l0` before the loop, `l` now: the handled tasks are done and the others as they were. */
  ghost predicate Drained(l0: L.Ledger, l: L.Ledger, handled: seq<Id>, now: Millis) {
    && TasksDrained(l0, l, handled, now)
    && (forall t :: t in handled ==> Leaves(l0, l, t))
    && (forall b :: b in l0.attempts && (forall t :: t in handled ==> AttemptOf(l0, t) != Some(b)) ==>
          b in l.attempts && l.attempts[b] == l0.attempts[b])
  }

  ghost predicate TasksDrained(l0: L.Ledger, l: L.Ledger, handled: seq<Id>, now: Millis) {
    && l0.attempts.Keys <= l.attempts.Keys && l0.tasks.Keys <= l.tasks.Keys
    && EligibleTasks(l, now) == EligibleTasks(l0, now) - (set t | t in handled)
    && (forall t :: t in handled ==> t in l.tasks && (l.tasks[t].status == TaskStatus.Completed || l.tasks[t].status == TaskStatus.Failed))
    && (forall t :: t in l0.tasks && t !in handled ==> l.tasks[t] == l0.tasks[t])
  }

  function AttemptOf(l: L.Ledger, t: Id): Option<Id> {
    if t in l.tasks then Some(l.tasks[t].attemptId) else None
  }

  /** The attempt of task `t` was queued and is not any more. */
  ghost predicate Leaves(l0: L.Ledger, l: L.Ledger, t: Id) {
    Waits(l0, t) && l0.tasks[t].attemptId in l.attempts && l.attempts[l0.tasks[t].attemptId].status != DispatchQueued
  }

  lemma HandledFirst(l0: L.Ledger, l: L.Ledger, handled: seq<Id>, t: Id, now: Millis)
    requires Drained(l0, l, handled, now) && OldestFirst(l0, handled, now) && OldestToLease(l.tasks, DispatchAttempt, now, t)
    ensures OldestFirst(l0, handled + [t], now)
  {
    assert t in EligibleTasks(l, now);
    var more := handled + [t];
    forall i, u | 0 <= i < |more| && u in EligibleTasks(l0, now) && u !in more[..i]
      ensures l0.tasks[more[i]].createdAt <= l0.tasks[u].createdAt
    {
      if i < |handled| {
        assert more[..i] == handled[..i];
      } else {
        assert more[..i] == handled;
        assert u in EligibleTasks(l, now);
      }
    }
  }

  /** The next task is as it was, and its attempt, being queued, is of none handled before. */
  lemma NextIsUntouched(l0: L.Ledger, l: L.Ledger, handled: seq<Id>, t: Id, now: Millis)
    requires Drained(l0, l, handled, now) && OldestToLease(l.tasks, DispatchAttempt, now, t) && Waits(l, t)
    requires forall u :: u in EligibleTasks(l0, now) ==> TaskFounded(l0, l0.tasks[u])
    ensures t in EligibleTasks(l0, now) && t !in handled && l.tasks[t] == l0.tasks[t] && Waits(l0, t)
    ensures forall u :: u in handled ==> l0.tasks[u].attemptId != l0.tasks[t].attemptId
  {
    assert t in EligibleTasks(l, now);
    forall u | u in handled ensures l0.tasks[u].attemptId != l0.tasks[t].attemptId {
      assert Leaves(l0, l, u);
    }
  }

  lemma LeavesOn(l0: L.Ledger, l: L.Ledger, l': L.Ledger, handled: seq<Id>, t: Id, step: Step)
    requires Waits(l0, t) && forall u :: u in handled ==> Leaves(l0, l, u) && l0.tasks[u].attemptId != l0.tasks[t].attemptId
    requires t in l.tasks && l.tasks[t] == l0.tasks[t] && Handled(l, l', t, step) && !step.Idle?
    ensures forall u :: u in handled || u == t ==> Leaves(l0, l', u)
  {
    forall u | u in handled || u == t ensures Leaves(l0, l', u) {
      if u != t { assert Leaves(l0, l, u); }
    }
  }

  lemma TasksDrainOn(l0: L.Ledger, l: L.Ledger, l': L.Ledger, handled: seq<Id>, t: Id, step: Step, now: Millis)
    requires TasksDrained(l0, l, handled, now) && Handled(l, l', t, step)
    requires EligibleTasks(l', now) == EligibleTasks(l, now) - {t}
    ensures TasksDrained(l0, l', handled + [t], now)
  {
    assert forall u :: u in handled + [t] <==> u in handled || u == t;
  }

  lemma DrainsOn(l0: L.Ledger, l: L.Ledger, l': L.Ledger, handled: seq<Id>, t: Id, step: Step, now: Millis)
    requires Drained(l0, l, handled, now) && Founded(l0, now) && !step.Idle?
    requires OldestToLease(l.tasks, DispatchAttempt, now, t) && Waits(l, t) && Handled(l, l', t, step)
    requires EligibleTasks(l', now) == EligibleTasks(l, now) - {t}
    ensures Drained(l0, l', handled + [t], now)
  {
    NextIsUntouched(l0, l, handled, t, now);
    TasksDrainOn(l0, l, l', handled, t, step, now);
    assert forall u :: u in handled + [t] <==> u in handled || u == t;
    LeavesOn(l0, l, l', handled, t, step);
    forall b | b in l0.attempts && forall u :: u in handled + [t] ==> AttemptOf(l0, u) != Some(b)
      ensures l'.attempts[b] == l0.attempts[b]
    {
      OtherAttemptStays(l0, l, l', handled, t, step, b);
    }
  }

  lemma OtherAttemptStays(l0: L.Ledger, l: L.Ledger, l': L.Ledger, handled: seq<Id>, t: Id, step: Step, b: Id)
    requires forall a :: a in l0.attempts && (forall u :: u in handled ==> AttemptOf(l0, u) != Some(a)) ==>
      a in l.attempts && l.attempts[a] == l0.attempts[a]
    requires Handled(l, l', t, step) && t in l0.tasks && l.tasks[t] == l0.tasks[t]
    requires b in l0.attempts && forall u :: u in handled + [t] ==> AttemptOf(l0, u) != Some(b)
    ensures b in l'.attempts && l'.attempts[b] == l0.attempts[b]
  {
    assert t in handled + [t] && AttemptOf(l0, t) != Some(b);
    assert forall u :: u in handled ==> u in handled + [t];
  }

  lemma {:induction false} EndedStays(l0: L.Ledger, l: L.Ledger, l': L.Ledger, handled: seq<Id>, a: Id, step: Step)
    requires l'.attempts.Keys == l.attempts.Keys && forall b :: b in l.attempts && b != a ==> l'.attempts[b] == l.attempts[b]
    requires forall t :: t in handled ==> t in l0.tasks && l0.tasks[t].attemptId != a
    ensures Ended(l0, l', handled, step) == Ended(l0, l, handled, step)
  {
    if handled != [] {
      var front := handled[..|handled| - 1];
      assert forall t :: t in front ==> t in handled;
      EndedStays(l0, l, l', front, a, step);
      assert handled[|handled| - 1] in handled;
    }
  }

  /** One more task: the count of the way it ended goes up by one, the others stay. */
  lemma OneMoreEnded(l0: L.Ledger, l: L.Ledger, l': L.Ledger, handled: seq<Id>, t: Id, step: Step, s: Step)
    requires Handled(l, l', t, step) && t in l0.tasks && l.tasks[t] == l0.tasks[t]
    requires forall u :: u in handled ==> u in l0.tasks && l0.tasks[u].attemptId != l0.tasks[t].attemptId
    ensures Ended(l0, l', handled + [t], s) == Ended(l0, l, handled, s) + if s == step then 1 else 0
  {
    var a := l0.tasks[t].attemptId;
    EndedStays(l0, l, l', handled, a, s);
    assert (handled + [t])[..|handled|] == handled && a in l'.attempts;
    OneWayOnly(step, s, l'.attempts[a].status);
  }

  /** A task ends in one way only. */
  lemma OneWayOnly(step: Step, s: Step, status: AttemptStatus)
    requires OutcomeFits(step, status)
    ensures OutcomeFits(s, status) <==> s == step
  {}

  function Tally(summary: WorkerProcessSummary, step: Step): WorkerProcessSummary
    requires !step.Idle?
  {
    var one := summary.(processed := summary.processed + 1);
    match step
    case Unresolved => one.(unresolved := summary.unresolved + 1)
    case Failed => one.(failed := summary.failed + 1)
    case Completed => one.(completed := summary.completed + 1)
  }

  /** The counters say how the attempts of the handled tasks ended. */
  ghost predicate Counts(summary: WorkerProcessSummary, l0: L.Ledger, l: L.Ledger, handled: seq<Id>) {
    && summary.processed == |handled| == summary.completed + summary.unresolved + summary.failed && summary.requeued == 0
    && summary.completed == Ended(l0, l, handled, Step.Completed)
    && summary.unresolved == Ended(l0, l, handled, Unresolved)
    && summary.failed == Ended(l0, l, handled, Step.Failed)
  }

  ghost predicate InLoop(summary: WorkerProcessSummary, l0: L.Ledger, l: L.Ledger, handled: seq<Id>, now: Millis) {
    && Founded(l0, now) && Founded(l, now) && (Ready(l0, now) ==> Ready(l, now))
    && OldestFirst(l0, handled, now) && Drained(l0, l, handled, now) && Counts(summary, l0, l, handled)
    && |EligibleTasks(l, now)| == |EligibleTasks(l0, now)| - |handled|
  }

  lemma CountsOn(summary: WorkerProcessSummary, l0: L.Ledger, l: L.Ledger, l': L.Ledger, handled: seq<Id>, t: Id, step: Step, now: Millis)
    requires Counts(summary, l0, l, handled) && Drained(l0, l, handled, now) && Founded(l0, now)
    requires OldestToLease(l.tasks, DispatchAttempt, now, t) && Waits(l, t) && Handled(l, l', t, step) && !step.Idle?
    ensures Counts(Tally(summary, step), l0, l', handled + [t])
  {
    NextIsUntouched(l0, l, handled, t, now);
    OneMoreEnded(l0, l, l', handled, t, step, Step.Completed);
    OneMoreEnded(l0, l, l', handled, t, step, Unresolved);
    OneMoreEnded(l0, l, l', handled, t, step, Step.Failed);
  }

  lemma LoopsOn(summary: WorkerProcessSummary, l0: L.Ledger, l: L.Ledger, l': L.Ledger, handled: seq<Id>, t: Id, step: Step, now: Millis)
    requires InLoop(summary, l0, l, handled, now) && Founded(l', now)
    requires OldestToLease(l.tasks, DispatchAttempt, now, t) && Waits(l, t) && Handled(l, l', t, step) && !step.Idle?
    requires EligibleTasks(l', now) == EligibleTasks(l, now) - {t}
    ensures InLoop(Tally(summary, step), l0, l', handled + [t], now)
  {
    HandledFirst(l0, l, handled, t, now);
    DrainsOn(l0, l, l', handled, t, step, now);
    CountsOn(summary, l0, l, l', handled, t, step, now);
    assert t in EligibleTasks(l, now);
    if Ready(l0, now) { OthersStayReady(l, l', t, step, now); }
  }

  lemma LoopStarts(l: L.Ledger, now: Millis)
    requires Founded(l, now)
    ensures InLoop(WorkerProcessSummary(0, 0, 0, 0, 0), l, l, [], now)
  {}

  lemma LoopEnds(summary: WorkerProcessSummary, l0: L.Ledger, l: L.Ledger, handled: seq<Id>, limit: int, now: Millis)
    requires InLoop(summary, l0, l, handled, now) && (0 <= limit ==> summary.processed <= limit) && (limit < 0 ==> summary.processed == 0)
    requires summary.processed >= limit || EligibleTasks(l, now) == {}
    ensures OldestFirst(l0, handled, now) && Drained(l0, l, handled, now) && Counts(summary, l0, l, handled)
    ensures |handled| == if limit <= 0 then 0 else if limit <= |EligibleTasks(l0, now)| then limit else |EligibleTasks(l0, now)|
  {}

  /** The task's attempt was not queued at the start, or an earlier task of the loop was for the same attempt. */
  ghost predicate CannotGoOn(l0: L.Ledger, handled: seq<Id>, t: Id) {
    !Waits(l0, t) || exists u :: u in handled && AttemptOf(l0, u) == AttemptOf(l0, t)
  }

  lemma StuckWhy(l0: L.Ledger, l: L.Ledger, handled: seq<Id>, t: Id, now: Millis)
    requires Founded(l0, now) && OldestFirst(l0, handled, now) && Drained(l0, l, handled, now) && l.mandates.Keys >= l0.mandates.Keys
    requires OldestToLease(l.tasks, DispatchAttempt, now, t) && !Waits(l, t)
    ensures OldestFirst(l0, handled + [t], now)
    ensures CannotGoOn(l0, handled, t)
  {
    HandledFirst(l0, l, handled, t, now);
    assert t in EligibleTasks(l, now) && t in EligibleTasks(l0, now) && l.tasks[t] == l0.tasks[t];
  }

  /** Handles the oldest eligible tasks, exactly as many as there are or as the limit allows; each ends completed or
      failed, every other task and attempt stays as it was, and the counters say how the attempts ended. When the next
      task's attempt has left the queue the loop throws, with the tasks before it handled and that one leased. */
  method ProcessExecutionQueue(s: Store, limit: int, workerName: string, now: Millis, vendor: Vendor)
    returns (r: Result<WorkerProcessSummary>, ghost handled: seq<Id>, ghost before: L.Ledger, ghost stuck: Id)
    requires s.Valid() && Founded(s.view, now)
    modifies s
    ensures s.Valid() && OldestFirst(old(s.view), handled, now) && Drained(old(s.view), before, handled, now)
    ensures r.Ok? ==> before == s.view && Counts(r.value, old(s.view), s.view, handled)
    ensures r.Ok? ==>
      |handled| == if limit <= 0 then 0
                   else if limit <= |EligibleTasks(old(s.view), now)| then limit else |EligibleTasks(old(s.view), now)|
    ensures r.Err? ==> r == Err(InvalidTransition) && |handled| < limit && Stuck(before, s.view, stuck, workerName, now)
    ensures r.Err? ==> OldestFirst(old(s.view), handled + [stuck], now) && CannotGoOn(old(s.view), handled, stuck)
    ensures Ready(old(s.view), now) ==> r.Ok?
  {
    var summary := WorkerProcessSummary(0, 0, 0, 0, 0);
    handled, before, stuck := [], s.view, 0;
    ghost var l0 := s.view;
    LoopStarts(l0, now);
    while summary.processed < limit
      invariant s.Valid() && InLoop(summary, l0, s.view, handled, now) && before == s.view
      invariant l0.mandates.Keys <= s.view.mandates.Keys
      invariant (0 <= limit ==> summary.processed <= limit) && (limit < 0 ==> summary.processed == 0)
    {
      var result, t, c := ProcessNextQueuedAttempt(s, workerName, now, vendor);
      if result.Err? {
        stuck := t;
        StuckWhy(l0, before, handled, t, now);
        assert t in EligibleTasks(before, now) && !TaskReady(before, before.tasks[t]);
        return Err(result.failure), handled, before, stuck;
      }
      var step := result.value;
      if step.Idle? { break; }
      LoopsOn(summary, l0, before, s.view, handled, t, step, now);
      before := s.view;
      handled := handled + [t];
      summary := Tally(summary, step);
    }
    LoopEnds(summary, l0, s.view, handled, limit, now);
    return Ok(summary), handled, before, stuck;
  }
}

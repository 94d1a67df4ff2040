/** Where a worker gets that nobody interrupts: what a whole run of it leaves behind, when every call returns and when
    one throws. Each statement starts from any state that can be reached. */
module ProgressTheorems {
  import opened Domain
  import opened Ledger
  import opened Money
  import opened Protocol
  import opened Workers
  import opened System
  import opened History
  import opened Runs
  import opened LogTheorems
  import opened UnresolvedTheorems
  import opened OutcomeTheorems
  import opened SettlementTheorems
  import opened TaskTheorems

  // ---- lists of actions ----

  lemma TwoSteps(s: Sys, a: Action, b: Action)
    ensures Exec(s, [a, b]) == Do(Do(s, a), b)
  {
    ExecOneMore(s, [], a);
    ExecOneMore(s, [a], b);
    assert [] + [a] == [a] && [a] + [b] == [a, b];
  }

  lemma ThreeSteps(s: Sys, a: Action, b: Action, c: Action)
    ensures Exec(s, [a, b, c]) == Do(Do(Do(s, a), b), c)
  {
    TwoSteps(s, a, b);
    ExecOneMore(s, [a, b], c);
    assert [a, b] + [c] == [a, b, c];
  }

  lemma FourSteps(s: Sys, a: Action, b: Action, c: Action, d: Action)
    ensures Exec(s, [a, b, c, d]) == Do(Do(Do(Do(s, a), b), c), d)
  {
    ThreeSteps(s, a, b, c);
    ExecOneMore(s, [a, b, c], d);
    assert [a, b, c] + [d] == [a, b, c, d];
  }

  lemma FiveSteps(s: Sys, a: Action, b: Action, c: Action, d: Action, e: Action)
    ensures Exec(s, [a, b, c, d, e]) == Do(Do(Do(Do(Do(s, a), b), c), d), e)
  {
    FourSteps(s, a, b, c, d);
    ExecOneMore(s, [a, b, c, d], e);
    assert [a, b, c, d] + [e] == [a, b, c, d, e];
  }

  lemma SixSteps(s: Sys, a: Action, b: Action, c: Action, d: Action, e: Action, f: Action)
    ensures Exec(s, [a, b, c, d, e, f]) == Do(Do(Do(Do(Do(Do(s, a), b), c), d), e), f)
  {
    FiveSteps(s, a, b, c, d, e);
    ExecOneMore(s, [a, b, c, d, e], f);
    assert [a, b, c, d, e] + [f] == [a, b, c, d, e, f];
  }

  // ---- single steps ----

  /** The worker goes to this place, and the ledger becomes this one. */
  ghost predicate Goes(s: Sys, act: Action, w: WorkerId, pc: Pc, l: Ledger) {
    Do(s, act) == s.(ledger := l, workers := s.workers[w := pc])
  }

  /** The worker is done, and the ledger becomes this one. */
  ghost predicate Ends(s: Sys, act: Action, w: WorkerId, l: Ledger) {
    Do(s, act) == s.(ledger := l, workers := s.workers - {w})
  }

  lemma BeginGoes(s: Sys, w: WorkerId, c: Claim)
    requires w in s.workers && s.workers[w] == ExecLeased(c) && BeginDispatch(s.ledger, c, s.now).Ok?
    ensures Goes(s, Proceed(w), w, ExecBegun(c), BeginDispatch(s.ledger, c, s.now).value)
  {}

  lemma PreflightGoes(s: Sys, w: WorkerId, c: Claim)
    requires w in s.workers && s.workers[w] == ExecBegun(c) && PreflightFailure(s.ledger, c, s.now).Ok? && Registered(c.vendorId)
    ensures Goes(s, Proceed(w), w, match PreflightFailure(s.ledger, c, s.now).value
                                   case None => ExecCleared(c)
                                   case Some(reason) => ExecReleasing(c, reason), s.ledger)
  {}

  lemma SendGoes(s: Sys, w: WorkerId, c: Claim)
    requires w in s.workers && s.workers[w] == ExecCleared(c)
    ensures Do(s, Proceed(w)) == s.(workers := s.workers[w := ExecAwaiting(c)], sends := s.sends + multiset{c.attemptId})
  {}

  lemma AnswerGoes(s: Sys, w: WorkerId, c: Claim, answer: DispatchResult)
    requires w in s.workers && s.workers[w] == ExecAwaiting(c)
    ensures Do(s, VendorAnswers(w, answer)) ==
            s.(workers := s.workers[w := ExecAnswered(c, answer)], answers := s.answers[c.attemptId := answer])
  {}

  lemma SettleGoes(s: Sys, w: WorkerId, c: Claim, answer: DispatchResult) returns (found: Option<Id>)
    requires w in s.workers && s.workers[w] == ExecAnswered(c, answer)
    requires c.mandateId in s.ledger.mandates && c.attemptId in s.ledger.attempts && s.ledger.attempts[c.attemptId].status == Dispatching
    ensures FindsLive(s.ledger.tasks, ReconcileAttempt, c.attemptId, found) && ApplyDispatchResult(s.ledger, c, answer, found, s.now).Ok?
    ensures Goes(s, Proceed(w), w, ExecSettled(c), ApplyDispatchResult(s.ledger, c, answer, found, s.now).value)
  {
    found := FindLive(s.ledger.tasks, ReconcileAttempt, c.attemptId);
    WhenAnAnswerIsStored(s.ledger, c, answer, found, s.now);
  }

  lemma CompleteEnds(s: Sys, w: WorkerId, pc: Pc)
    requires w in s.workers && s.workers[w] == pc && (pc.ExecSettled? || pc.RecSettled?) && pc.claim.taskId in s.ledger.tasks
    ensures CompleteTask(s.ledger, pc.claim.taskId, s.now).Ok?
    ensures Ends(s, Proceed(w), w, CompleteTask(s.ledger, pc.claim.taskId, s.now).value)
  {}

  lemma ReleaseGoes(s: Sys, w: WorkerId, c: Claim, reason: BlockedReason)
    requires w in s.workers && s.workers[w] == ExecReleasing(c, reason) && ReleaseDispatch(s.ledger, c, reason, s.now).Ok?
    ensures Goes(s, Proceed(w), w, Failing(c), ReleaseDispatch(s.ledger, c, reason, s.now).value)
  {}

  lemma FailEnds(s: Sys, w: WorkerId, c: Claim)
    requires w in s.workers && s.workers[w] == Failing(c) && c.taskId in s.ledger.tasks
    ensures FailTask(s.ledger, c.taskId, s.now).Ok? && Ends(s, Proceed(w), w, FailTask(s.ledger, c.taskId, s.now).value)
  {}

  // ---- an execution worker ----

  /** The worker is gone, the clock stood still, and its task is closed with this status. */
  ghost predicate Leaves(s: Sys, s': Sys, w: WorkerId, t: Id, status: TaskStatus) {
    && s'.workers == s.workers - {w} && s'.now == s.now
    && t in s.ledger.tasks && t in s'.ledger.tasks
    && s'.ledger.tasks[t] == s.ledger.tasks[t].(status := status, leaseOwner := None, leaseExpiresAt := None, updatedAt := s.now,
                                                completedAt := Some(s.now))
  }

  /** The mandate is reserved and in time, so preflight lets the worker pass. */
  predicate Payable(m: Mandate, now: Millis) {
    m.status == IssuedReserved && now < m.expiresAt
  }

  /** A worker holds a claim on a queued attempt. */
  ghost predicate AboutToDispatch(s: Sys, w: WorkerId) {
    && w in s.workers && s.workers[w].ExecLeased?
    && var c := s.workers[w].claim;
    && c.attemptId in s.ledger.attempts && s.ledger.attempts[c.attemptId].status == DispatchQueued && c.mandateId in s.ledger.mandates
  }

  /** What the invariant says about a worker that is about to dispatch. */
  lemma ClaimHasRows(s: Sys, w: WorkerId)
    requires Inv(s) && w in s.workers
    ensures
      var c := s.workers[w].claim;
      && ClaimMatches(s.ledger, c) && Claimed(s.ledger, c) && c.taskId in s.ledger.tasks && c.taskId < s.ledger.nextId
      && s.ledger.attempts[c.attemptId].vendorId == c.vendorId && Registered(c.vendorId)
      && (s.ledger.attempts[c.attemptId].status == DispatchQueued ==> s.ledger.tasks[c.taskId].kind == DispatchAttempt)
  {
    ClaimIsTrue(s, w);
    var c := s.workers[w].claim;
    assert AttemptOk(s.ledger.mandates, s.ledger.attempts[c.attemptId], c.attemptId);
    assert TaskFits(s.ledger.attempts, s.ledger.tasks[c.taskId]);
    TasksAreOld(s);
  }

  lemma TasksAreOld(s: Sys)
    requires Inv(s)
    ensures forall t :: t in s.ledger.tasks ==> t < s.ledger.nextId
  {
    TasksBelow(s.ledger);
  }

  /** The ledger once the attempt is dispatching. */
  lemma BegunLedger(l: Ledger, c: Claim, now: Millis)
    requires Claimed(l, c) && l.attempts[c.attemptId].status == DispatchQueued
    ensures BeginDispatch(l, c, now).Ok?
    ensures
      var l1 := BeginDispatch(l, c, now).value;
      && l1.mandates == l.mandates && l1.tasks == l.tasks && l1.agents == l.agents && l.nextId <= l1.nextId
      && l1.attempts == l.attempts[c.attemptId :=
           l.attempts[c.attemptId].(status := Dispatching, financialOutcome := Dispatching, updatedAt := now)]
  {
    BeginMovesTheQueued(l, c, now);
  }

  /** The dispatch is over: the rows are as the answer says, and an unresolved one leaves a task waiting to reconcile it. */
  ghost predicate Dispatched(l: Ledger, l': Ledger, c: Claim, answer: DispatchResult, now: Millis) {
    && OnlyTheClaimed(l, l', c)
    && AttemptAnswered(l.attempts[c.attemptId], l'.attempts[c.attemptId], answer, now)
    && MandateAnswered(l.mandates[c.mandateId], l'.mandates[c.mandateId], c.amountCents, answer, now)
    && (answer.DispatchUnknown? ==> exists t :: t != c.taskId && t in l'.tasks && IsWaiting(l'.tasks[t], c.attemptId))
    && (forall t :: t in l.tasks && t != c.taskId ==> t in l'.tasks && l'.tasks[t] == l.tasks[t])
  }

  /** Storing the answer, seen from before the attempt was dispatching. */
  lemma AnsweredLedger(l: Ledger, l1: Ledger, c: Claim, answer: DispatchResult, found: Option<Id>, now: Millis)
    requires Claimed(l, c) && l1.mandates == l.mandates && l1.tasks == l.tasks && l1.agents == l.agents
    requires l1.attempts == l.attempts[c.attemptId :=
               l.attempts[c.attemptId].(status := Dispatching, financialOutcome := Dispatching, updatedAt := now)]
    requires c.taskId in l.tasks && l.tasks[c.taskId].kind == DispatchAttempt && forall t :: t in l1.tasks ==> t < l1.nextId
    requires FindsLive(l1.tasks, ReconcileAttempt, c.attemptId, found) && ApplyDispatchResult(l1, c, answer, found, now).Ok?
    ensures
      var l2 := ApplyDispatchResult(l1, c, answer, found, now).value;
      Dispatched(l, l2, c, answer, now) && c.taskId in l2.tasks && l2.tasks[c.taskId] == l.tasks[c.taskId]
  {
    var l2 := ApplyDispatchResult(l1, c, answer, found, now).value;
    match answer
    case DispatchSucceeded(_, _, _) => StoredSuccess(l1, c, answer, found, now);
    case DispatchFailed(_, _, _) => StoredRefusal(l1, c, answer, found, now);
    case DispatchUnknown(_, _, _, _) =>
      var t := StoredUnknown(l1, c, answer, found, now);
      WaitingTask(l1, l2, c, t, l1.attempts[c.attemptId].operatorId, now);
  }

  lemma WaitingTask(l: Ledger, l': Ledger, c: Claim, t: Id, operatorId: string, now: Millis)
    requires ReconcileTask(l, l', t, c.mandateId, c.attemptId, operatorId, now)
    requires c.taskId in l.tasks && l.tasks[c.taskId].kind == DispatchAttempt && forall u :: u in l.tasks ==> u < l.nextId
    ensures t != c.taskId && t in l'.tasks && IsWaiting(l'.tasks[t], c.attemptId)
    ensures forall u :: u in l.tasks ==> u in l'.tasks && l'.tasks[u] == l.tasks[u]
  {}

  /** Completing or failing the worker's task changes no other row. */
  lemma ClosedLedger(l: Ledger, c: Claim, now: Millis)
    requires c.taskId in l.tasks
    ensures CompleteTask(l, c.taskId, now).Ok? && FailTask(l, c.taskId, now).Ok? && RequeueTask(l, c.taskId, now).Ok?
    ensures
      var free := l.tasks[c.taskId].(leaseOwner := None, leaseExpiresAt := None, updatedAt := now);
      && OnlyTask(l, CompleteTask(l, c.taskId, now).value, c.taskId, free.(status := Completed, completedAt := Some(now)))
      && OnlyTask(l, FailTask(l, c.taskId, now).value, c.taskId, free.(status := Failed, completedAt := Some(now)))
      && OnlyTask(l, RequeueTask(l, c.taskId, now).value, c.taskId, free.(status := Queued, availableAt := now + 30_000))
  {
    TasksEndUnguarded(l, c.taskId, now);
  }

  ghost predicate OnlyTask(l: Ledger, l': Ledger, t: Id, after: Task) {
    l'.mandates == l.mandates && l'.attempts == l.attempts && l'.agents == l.agents && l'.tasks == l.tasks[t := after]
  }

  lemma CompletedStaysDispatched(l: Ledger, l2: Ledger, l3: Ledger, c: Claim, after: Task, answer: DispatchResult, now: Millis)
    requires Dispatched(l, l2, c, answer, now) && OnlyTask(l2, l3, c.taskId, after)
    ensures Dispatched(l, l3, c, answer, now)
  {
    if answer.DispatchUnknown? {
      var t :| t != c.taskId && t in l2.tasks && IsWaiting(l2.tasks[t], c.attemptId);
      assert t in l3.tasks && IsWaiting(l3.tasks[t], c.attemptId);
    }
  }

  /** The first three steps: the worker takes the attempt off the queue, passes preflight and calls the vendor. */
  lemma CallsTheVendor(s: Sys, w: WorkerId)
    requires AboutToDispatch(s, w) && Registered(s.workers[w].claim.vendorId)
    requires Payable(s.ledger.mandates[s.workers[w].claim.mandateId], s.now)
    ensures
      var c := s.workers[w].claim;
      && BeginDispatch(s.ledger, c, s.now).Ok?
      && Do(Do(Do(s, Proceed(w)), Proceed(w)), Proceed(w)) ==
         s.(ledger := BeginDispatch(s.ledger, c, s.now).value, workers := s.workers[w := ExecAwaiting(c)],
            sends := s.sends + multiset{c.attemptId})
  {
    var c := s.workers[w].claim;
    BegunLedger(s.ledger, c, s.now);
    BeginGoes(s, w, c);
    var s1 := Do(s, Proceed(w));
    PreflightTable(s1.ledger, c, s1.now);
    PreflightGoes(s1, w, c);
    SendGoes(Do(s1, Proceed(w)), w, c);
  }

  /** The last three: the answer comes, is stored, and the task is completed. */
  lemma StoresTheAnswer(s: Sys, w: WorkerId, c: Claim, answer: DispatchResult) returns (found: Option<Id>)
    requires w in s.workers && s.workers[w] == ExecAwaiting(c) && Claimed(s.ledger, c)
    requires s.ledger.attempts[c.attemptId].status == Dispatching && c.taskId in s.ledger.tasks
    ensures FindsLive(s.ledger.tasks, ReconcileAttempt, c.attemptId, found) && ApplyDispatchResult(s.ledger, c, answer, found, s.now).Ok?
    ensures
      var l2 := ApplyDispatchResult(s.ledger, c, answer, found, s.now).value;
      c.taskId in l2.tasks ==>
        && CompleteTask(l2, c.taskId, s.now).Ok?
        && Do(Do(Do(s, VendorAnswers(w, answer)), Proceed(w)), Proceed(w)) ==
           s.(ledger := CompleteTask(l2, c.taskId, s.now).value, workers := s.workers - {w}, answers := s.answers[c.attemptId := answer])
  {
    AnswerGoes(s, w, c, answer);
    var s1 := Do(s, VendorAnswers(w, answer));
    found := SettleGoes(s1, w, c, answer);
    var s2 := Do(s1, Proceed(w));
    if c.taskId in s2.ledger.tasks {
      CompleteEnds(s2, w, ExecSettled(c));
      assert s1.workers[w := ExecSettled(c)] - {w} == s.workers - {w};
    }
  }

  /** The three transactions of such a run. */
  lemma DispatchedLedger(l: Ledger, l1: Ledger, c: Claim, answer: DispatchResult, found: Option<Id>, now: Millis)
    requires Claimed(l, c) && l.attempts[c.attemptId].status == DispatchQueued && BeginDispatch(l, c, now) == Ok(l1)
    requires c.taskId in l.tasks && l.tasks[c.taskId].kind == DispatchAttempt && forall t :: t in l.tasks ==> t < l.nextId
    requires FindsLive(l.tasks, ReconcileAttempt, c.attemptId, found) && ApplyDispatchResult(l1, c, answer, found, now).Ok?
    ensures
      var l2 := ApplyDispatchResult(l1, c, answer, found, now).value;
      && c.taskId in l2.tasks && CompleteTask(l2, c.taskId, now).Ok?
      && var l3 := CompleteTask(l2, c.taskId, now).value;
      && Dispatched(l, l3, c, answer, now) && c.taskId in l3.tasks
      && l3.tasks[c.taskId] == l.tasks[c.taskId].(status := Completed, leaseOwner := None, leaseExpiresAt := None, updatedAt := now,
                                                  completedAt := Some(now))
  {
    BegunLedger(l, c, now);
    AnsweredLedger(l, l1, c, answer, found, now);
    var l2 := ApplyDispatchResult(l1, c, answer, found, now).value;
    ClosedLedger(l2, c, now);
    var l3 := CompleteTask(l2, c.taskId, now).value;
    CompletedStaysDispatched(l, l2, l3, c, l3.tasks[c.taskId], answer, now);
  }

  lemma TaskStays(l: Ledger, l1: Ledger, c: Claim, answer: DispatchResult, found: Option<Id>, now: Millis)
    requires Claimed(l, c) && l.attempts[c.attemptId].status == DispatchQueued && BeginDispatch(l, c, now) == Ok(l1)
    requires c.taskId in l.tasks && l.tasks[c.taskId].kind == DispatchAttempt && forall t :: t in l.tasks ==> t < l.nextId
    requires FindsLive(l.tasks, ReconcileAttempt, c.attemptId, found) && ApplyDispatchResult(l1, c, answer, found, now).Ok?
    ensures c.taskId in ApplyDispatchResult(l1, c, answer, found, now).value.tasks
  {
    DispatchedLedger(l, l1, c, answer, found, now);
  }

  lemma SixStepsDispatch(s: Sys, w: WorkerId, answer: DispatchResult, c: Claim, l1: Ledger) returns (found: Option<Id>)
    requires AboutToDispatch(s, w) && s.workers[w].claim == c && Registered(c.vendorId) && Payable(s.ledger.mandates[c.mandateId], s.now)
    requires BeginDispatch(s.ledger, c, s.now) == Ok(l1) && c.taskId in s.ledger.tasks && s.ledger.tasks[c.taskId].kind == DispatchAttempt
    requires forall t :: t in s.ledger.tasks ==> t < s.ledger.nextId
    ensures FindsLive(s.ledger.tasks, ReconcileAttempt, c.attemptId, found) && ApplyDispatchResult(l1, c, answer, found, s.now).Ok?
    ensures
      var l2 := ApplyDispatchResult(l1, c, answer, found, s.now).value;
      && CompleteTask(l2, c.taskId, s.now).Ok?
      && Exec(s, [Proceed(w), Proceed(w), Proceed(w), VendorAnswers(w, answer), Proceed(w), Proceed(w)]) ==
         s.(ledger := CompleteTask(l2, c.taskId, s.now).value, workers := s.workers - {w},
            sends := s.sends + multiset{c.attemptId}, answers := s.answers[c.attemptId := answer])
  {
    BegunLedger(s.ledger, c, s.now);
    CallsTheVendor(s, w);
    var s3 := s.(ledger := l1, workers := s.workers[w := ExecAwaiting(c)], sends := s.sends + multiset{c.attemptId});
    found := StoresTheAnswer(s3, w, c, answer);
    TaskStays(s.ledger, l1, c, answer, found, s.now);
    SixSteps(s, Proceed(w), Proceed(w), Proceed(w), VendorAnswers(w, answer), Proceed(w), Proceed(w));
    assert s3.workers - {w} == s.workers - {w};
  }

  /** An execution worker nobody interrupts calls the vendor once, stores its answer and completes its task. */
  lemma UndisturbedDispatchSettles(s: Sys, w: WorkerId, answer: DispatchResult)
    requires Inv(s) && AboutToDispatch(s, w) && Payable(s.ledger.mandates[s.workers[w].claim.mandateId], s.now)
    ensures
      var c := s.workers[w].claim;
      var s' := Exec(s, [Proceed(w), Proceed(w), Proceed(w), VendorAnswers(w, answer), Proceed(w), Proceed(w)]);
      && Dispatched(s.ledger, s'.ledger, c, answer, s.now) && Leaves(s, s', w, c.taskId, Completed)
      && s'.sends == s.sends + multiset{c.attemptId} && s'.answers == s.answers[c.attemptId := answer]
  {
    var c := s.workers[w].claim;
    ClaimHasRows(s, w);
    TasksAreOld(s);
    BegunLedger(s.ledger, c, s.now);
    var l1 := BeginDispatch(s.ledger, c, s.now).value;
    var found := SixStepsDispatch(s, w, answer, c, l1);
    DispatchedLedger(s.ledger, l1, c, answer, found, s.now);
  }

  // ---- a release ----

  /** The attempt and its mandate are released for this reason, and no other row but the worker's task has changed. */
  ghost predicate Released(l: Ledger, l': Ledger, c: Claim, reason: BlockedReason, now: Millis) {
    && OnlyTheClaimed(l, l', c)
    && AttemptReleased(l.attempts[c.attemptId], l'.attempts[c.attemptId], reason, now)
    && MandateReleased(l.mandates[c.mandateId], l'.mandates[c.mandateId], c.amountCents, now)
    && (forall t :: t in l.tasks && t != c.taskId ==> t in l'.tasks && l'.tasks[t] == l.tasks[t])
  }

  /** A dispatching attempt is released, and the worker's task fails. */
  lemma ReleasedLedger(l: Ledger, c: Claim, reason: BlockedReason, now: Millis)
    requires Claimed(l, c) && l.attempts[c.attemptId].status == Dispatching && c.taskId in l.tasks
    ensures ReleaseDispatch(l, c, reason, now).Ok?
    ensures
      var l1 := ReleaseDispatch(l, c, reason, now).value;
      && c.taskId in l1.tasks && FailTask(l1, c.taskId, now).Ok?
      && var l2 := FailTask(l1, c.taskId, now).value;
      && Released(l, l2, c, reason, now) && c.taskId in l2.tasks
      && l2.tasks[c.taskId] == l.tasks[c.taskId].(status := Failed, leaseOwner := None, leaseExpiresAt := None, updatedAt := now,
                                                  completedAt := Some(now))
  {
    ReleaseGivesBack(l, c, reason, now);
    ClosedLedger(ReleaseDispatch(l, c, reason, now).value, c, now);
  }

  lemma ReleaseAndFail(s: Sys, w: WorkerId, c: Claim, reason: BlockedReason) returns (s': Sys)
    requires w in s.workers && s.workers[w] == ExecReleasing(c, reason) && Claimed(s.ledger, c) && c.taskId in s.ledger.tasks
    requires s.ledger.attempts[c.attemptId].status == Dispatching
    ensures s' == Do(Do(s, Proceed(w)), Proceed(w))
    ensures Released(s.ledger, s'.ledger, c, reason, s.now) && Leaves(s, s', w, c.taskId, Failed)
    ensures s' == s.(ledger := s'.ledger, workers := s'.workers)
  {
    ReleasedLedger(s.ledger, c, reason, s.now);
    ReleaseGoes(s, w, c, reason);
    var s1 := Do(s, Proceed(w));
    FailEnds(s1, w, c);
    s' := Do(s1, Proceed(w));
    assert s1.workers - {w} == s.workers - {w};
  }

  /** An exception before the answer is stored releases the attempt and fails the task: a call that throws, an answer
      that cannot be stored, and a success among them. */
  lemma ExceptionReleases(s: Sys, w: WorkerId)
    requires Inv(s) && w in s.workers && (s.workers[w].ExecCleared? || s.workers[w].ExecAwaiting? || s.workers[w].ExecAnswered?)
    ensures
      var c, s' := s.workers[w].claim, Exec(s, [Throws(w), Proceed(w), Proceed(w)]);
      && Released(s.ledger, s'.ledger, c, ExecutionWorkerFailed, s.now) && Leaves(s, s', w, c.taskId, Failed)
      && s' == s.(ledger := s'.ledger, workers := s'.workers)
  {
    var c := s.workers[w].claim;
    ClaimHasRows(s, w);
    ClaimIsTrue(s, w);
    ThrowGoes(s, w);
    var s1 := Do(s, Throws(w));
    var s' := ReleaseAndFail(s1, w, c, ExecutionWorkerFailed);
    ThreeSteps(s, Throws(w), Proceed(w), Proceed(w));
    assert s1.workers - {w} == s.workers - {w};
  }

  lemma ThrowGoes(s: Sys, w: WorkerId)
    requires w in s.workers
    requires s.workers[w].ExecCleared? || s.workers[w].ExecAwaiting? || s.workers[w].ExecAnswered? || s.workers[w].ExecSettled?
    ensures Goes(s, Throws(w), w, ExecReleasing(s.workers[w].claim, ExecutionWorkerFailed), s.ledger)
  {}

  /** No handler is in force here. */
  predicate OutsideTry(pc: Pc) {
    || pc.ExecLeased? || pc.ExecBegun? || pc.ExecReleasing?
    || pc.RecLeased? || pc.RecRead? || pc.RecCaught? || pc.RecRequeueing? || pc.Failing?
  }

  /** An exception anywhere else, in a dispatch or in a reconciliation, ends the worker with everything left as it is. */
  lemma ExceptionElsewhere(s: Sys, w: WorkerId)
    requires w in s.workers && OutsideTry(s.workers[w])
    ensures Ends(s, Throws(w), w, s.ledger)
  {}

  lemma RefusedAtPreflight(s: Sys, w: WorkerId, c: Claim) returns (s2: Sys)
    requires AboutToDispatch(s, w) && s.workers[w].claim == c && Registered(c.vendorId)
    requires
      var m := s.ledger.mandates[c.mandateId];
      !Payable(m, s.now) && (m.status == IssuedReserved || m.status == Revoked)
    ensures s2 == Do(Do(s, Proceed(w)), Proceed(w)) && BeginDispatch(s.ledger, c, s.now).Ok?
    ensures
      var late := s.ledger.mandates[c.mandateId].expiresAt <= s.now;
      s2 == s.(ledger := BeginDispatch(s.ledger, c, s.now).value, workers := s.workers[w :=
              ExecReleasing(c, if late then MandateExpiredBeforeDispatch else MandateRevokedBeforeDispatch)])
  {
    BegunLedger(s.ledger, c, s.now);
    BeginGoes(s, w, c);
    var s1 := Do(s, Proceed(w));
    PreflightTable(s1.ledger, c, s1.now);
    PreflightGoes(s1, w, c);
    s2 := Do(s1, Proceed(w));
  }

  /** The move to dispatching leaves no trace in the rows of a released attempt. */
  lemma ReleasedFromQueue(l: Ledger, l1: Ledger, l': Ledger, c: Claim, reason: BlockedReason, now: Millis)
    requires Claimed(l, c) && l.attempts[c.attemptId].status == DispatchQueued && BeginDispatch(l, c, now) == Ok(l1)
    requires Released(l1, l', c, reason, now)
    ensures Released(l, l', c, reason, now)
  {
    BegunLedger(l, c, now);
  }

  lemma FourStepsRelease(s: Sys, w: WorkerId, c: Claim)
    requires AboutToDispatch(s, w) && s.workers[w].claim == c && Registered(c.vendorId) && c.taskId in s.ledger.tasks
    requires
      var m := s.ledger.mandates[c.mandateId];
      !Payable(m, s.now) && (m.status == IssuedReserved || m.status == Revoked)
    ensures
      var s' := Exec(s, [Proceed(w), Proceed(w), Proceed(w), Proceed(w)]);
      var late := s.ledger.mandates[c.mandateId].expiresAt <= s.now;
      && Released(s.ledger, s'.ledger, c, if late then MandateExpiredBeforeDispatch else MandateRevokedBeforeDispatch, s.now)
      && Leaves(s, s', w, c.taskId, Failed) && s'.sends == s.sends && s'.answers == s.answers
  {
    BegunLedger(s.ledger, c, s.now);
    var s2 := RefusedAtPreflight(s, w, c);
    var s' := ReleaseAndFail(s2, w, c, s2.workers[w].reason);
    ReleasedFromQueue(s.ledger, s2.ledger, s'.ledger, c, s2.workers[w].reason, s.now);
    FourSteps(s, Proceed(w), Proceed(w), Proceed(w), Proceed(w));
    assert s2.workers - {w} == s.workers - {w};
  }

  /** A worker that meets a mandate revoked or past its time releases the attempt without a call and fails the task. */
  lemma DeadMandateReleases(s: Sys, w: WorkerId)
    requires Inv(s) && AboutToDispatch(s, w) && !Payable(s.ledger.mandates[s.workers[w].claim.mandateId], s.now)
    ensures
      var c, s' := s.workers[w].claim, Exec(s, [Proceed(w), Proceed(w), Proceed(w), Proceed(w)]);
      var late := s.ledger.mandates[c.mandateId].expiresAt <= s.now;
      && Released(s.ledger, s'.ledger, c, if late then MandateExpiredBeforeDispatch else MandateRevokedBeforeDispatch, s.now)
      && Leaves(s, s', w, c.taskId, Failed) && s'.sends == s.sends && s'.answers == s.answers
  {
    ClaimHasRows(s, w);
    MandateOfOpenAttempt(s.ledger, s.workers[w].claim);
    FourStepsRelease(s, w, s.workers[w].claim);
  }

  /** An exception once the answer is stored, as when the task cannot be completed, changes nothing: the release is refused. */
  lemma ExceptionAfterSettling(s0: Sys, acts: seq<Action>, w: WorkerId)
    requires Init(s0) && w in Exec(s0, acts).workers && Exec(s0, acts).workers[w].ExecSettled?
    ensures
      var s := Exec(s0, acts);
      Exec(s, [Throws(w), Proceed(w)]) == s.(workers := s.workers - {w})
  {
    EveryReachableStateIsSafe(s0, acts);
    var s := Exec(s0, acts);
    EveryRunTellsTheStory(s0, acts, s.workers[w].claim.attemptId);
    SettledIsNotReleased(s, w, SettlingThrew(s0, acts, s.workers[w].claim.attemptId));
  }

  lemma TwoStepsToNowhere(s: Sys, w: WorkerId, c: Claim)
    requires w in s.workers && s.workers[w] == ExecSettled(c) && ReleaseDispatch(s.ledger, c, ExecutionWorkerFailed, s.now).Err?
    ensures Exec(s, [Throws(w), Proceed(w)]) == s.(workers := s.workers - {w})
  {
    ThrowGoes(s, w);
    var s1 := s.(workers := s.workers[w := ExecReleasing(c, ExecutionWorkerFailed)]);
    ReleaseEnds(s1, w, c);
    TwoSteps(s, Throws(w), Proceed(w));
    assert s1.workers - {w} == s.workers - {w};
  }

  lemma ReleaseRefused(l: Ledger, c: Claim, now: Millis)
    requires c.attemptId in l.attempts && PastQueue(l.attempts[c.attemptId].status) && l.attempts[c.attemptId].status != Dispatching
    ensures ReleaseDispatch(l, c, ExecutionWorkerFailed, now).Err?
  {
    ReleaseGivesBack(l, c, ExecutionWorkerFailed, now);
  }

  lemma SettledIsNotReleased(s: Sys, w: WorkerId, threw: bool)
    requires WInv(s) && w in s.workers && s.workers[w].ExecSettled? && PlaceTells(s, s.workers[w].claim.attemptId, threw, w)
    ensures Exec(s, [Throws(w), Proceed(w)]) == s.(workers := s.workers - {w})
  {
    var c := s.workers[w].claim;
    ClaimIsTrue(s, w);
    ReleaseRefused(s.ledger, c, s.now);
    TwoStepsToNowhere(s, w, c);
  }

  lemma ReleaseEnds(s: Sys, w: WorkerId, c: Claim)
    requires w in s.workers && s.workers[w] == ExecReleasing(c, ExecutionWorkerFailed)
    requires ReleaseDispatch(s.ledger, c, ExecutionWorkerFailed, s.now).Err?
    ensures Ends(s, Proceed(w), w, s.ledger)
  {}

  // ---- a reconciliation worker ----

  lemma ReadGoes(s: Sys, w: WorkerId, c: Claim)
    requires w in s.workers && s.workers[w] == RecLeased(c) && c.attemptId in s.ledger.attempts
    ensures Goes(s, Proceed(w), w, RecRead(c, s.ledger.attempts[c.attemptId]), s.ledger)
  {}

  lemma ArtifactsGo(s: Sys, w: WorkerId, c: Claim, seen: Attempt)
    requires w in s.workers && s.workers[w] == RecRead(c, seen) && Registered(c.vendorId)
    ensures Goes(s, Proceed(w), w, RecReady(c, seen, FirstStarted(s.ledger.events, c.attemptId)), s.ledger)
  {}

  lemma StatusGoes(s: Sys, w: WorkerId, c: Claim, seen: Attempt, payload: Option<(string, string)>, truth: CorrelationResult)
    requires w in s.workers && s.workers[w] == RecReady(c, seen, payload)
    ensures Goes(s, StatusAnswers(w, truth), w, RecAnswered(c, seen, truth), s.ledger)
  {}

  lemma ReconcileGoes(s: Sys, w: WorkerId, c: Claim, seen: Attempt, truth: CorrelationResult)
    requires w in s.workers && s.workers[w] == RecAnswered(c, seen, truth)
    ensures
      var r := ApplyReconciliationResult(s.ledger, c, truth, s.now);
      if r.Ok? then Goes(s, Proceed(w), w, RecSettled(c, seen), r.value) else Goes(s, Proceed(w), w, RecCaught(c, seen), s.ledger)
  {}

  lemma ThreeStepsToTheTruth(s: Sys, w: WorkerId, c: Claim, truth: CorrelationResult) returns (s3: Sys)
    requires w in s.workers && s.workers[w] == RecLeased(c) && c.attemptId in s.ledger.attempts && Registered(c.vendorId)
    ensures s3 == Do(Do(Do(s, Proceed(w)), Proceed(w)), StatusAnswers(w, truth))
    ensures s3 == s.(workers := s.workers[w := RecAnswered(c, s.ledger.attempts[c.attemptId], truth)])
    ensures Exec(s, [Proceed(w), Proceed(w)]).workers ==
            s.workers[w := RecReady(c, s.ledger.attempts[c.attemptId], FirstStarted(s.ledger.events, c.attemptId))]
  {
    var seen := s.ledger.attempts[c.attemptId];
    ReadGoes(s, w, c);
    var s1 := Do(s, Proceed(w));
    ArtifactsGo(s1, w, c, seen);
    TwoSteps(s, Proceed(w), Proceed(w));
    StatusGoes(Do(s1, Proceed(w)), w, c, seen, FirstStarted(s.ledger.events, c.attemptId), truth);
    s3 := Do(Do(s1, Proceed(w)), StatusAnswers(w, truth));
  }

  /** The attempt has what was proved, its mandate consumed what that costs, and no other row but the worker's task has changed. */
  ghost predicate Resolved(l: Ledger, l': Ledger, c: Claim, truth: CorrelationResult, now: Millis) {
    && OnlyTheClaimed(l, l', c)
    && AttemptResolved(l.attempts[c.attemptId], l'.attempts[c.attemptId], truth, now)
    && MandateResolved(l.mandates[c.mandateId], l'.mandates[c.mandateId], c.amountCents, truth, now)
    && (forall t :: t in l.tasks && t != c.taskId ==> t in l'.tasks && l'.tasks[t] == l.tasks[t])
  }

  lemma ResolvedLedger(l: Ledger, c: Claim, truth: CorrelationResult, now: Millis)
    requires Claimed(l, c) && IsUnknown(l, c.attemptId) && c.taskId in l.tasks
    ensures ApplyReconciliationResult(l, c, truth, now).Ok?
    ensures
      var l1 := ApplyReconciliationResult(l, c, truth, now).value;
      && c.taskId in l1.tasks && CompleteTask(l1, c.taskId, now).Ok?
      && var l2 := CompleteTask(l1, c.taskId, now).value;
      && Resolved(l, l2, c, truth, now) && c.taskId in l2.tasks
      && l2.tasks[c.taskId] == l.tasks[c.taskId].(status := Completed, leaseOwner := None, leaseExpiresAt := None, updatedAt := now,
                                                  completedAt := Some(now))
  {
    ReconciliationSettles(l, c, truth, now);
    ClosedLedger(ApplyReconciliationResult(l, c, truth, now).value, c, now);
  }

  lemma SettleAndComplete(s: Sys, w: WorkerId, c: Claim, seen: Attempt, truth: CorrelationResult) returns (s': Sys)
    requires w in s.workers && s.workers[w] == RecAnswered(c, seen, truth) && Claimed(s.ledger, c) && c.taskId in s.ledger.tasks
    requires IsUnknown(s.ledger, c.attemptId)
    ensures s' == Do(Do(s, Proceed(w)), Proceed(w))
    ensures Resolved(s.ledger, s'.ledger, c, truth, s.now) && Leaves(s, s', w, c.taskId, Completed)
    ensures s' == s.(ledger := s'.ledger, workers := s'.workers)
  {
    ResolvedLedger(s.ledger, c, truth, s.now);
    ReconcileGoes(s, w, c, seen, truth);
    var s1 := Do(s, Proceed(w));
    CompleteEnds(s1, w, RecSettled(c, seen));
    s' := Do(s1, Proceed(w));
    assert s1.workers - {w} == s.workers - {w};
  }

  /** A reconciliation worker nobody interrupts stores what correlation proves about an unresolved attempt and completes
      its task. */
  lemma UndisturbedReconciliationSettles(s: Sys, w: WorkerId, truth: CorrelationResult)
    requires Inv(s) && w in s.workers && s.workers[w].RecLeased? && IsUnknown(s.ledger, s.workers[w].claim.attemptId)
    ensures
      var c, s' := s.workers[w].claim, Exec(s, [Proceed(w), Proceed(w), StatusAnswers(w, truth), Proceed(w), Proceed(w)]);
      && Resolved(s.ledger, s'.ledger, c, truth, s.now) && Leaves(s, s', w, c.taskId, Completed)
      && s' == s.(ledger := s'.ledger, workers := s'.workers)
  {
    ClaimHasRows(s, w);
    FiveStepsReconcile(s, w, s.workers[w].claim, truth);
  }

  lemma FiveStepsReconcile(s: Sys, w: WorkerId, c: Claim, truth: CorrelationResult)
    requires w in s.workers && s.workers[w] == RecLeased(c) && IsUnknown(s.ledger, c.attemptId)
    requires Claimed(s.ledger, c) && Registered(c.vendorId) && c.taskId in s.ledger.tasks
    ensures
      var s' := Exec(s, [Proceed(w), Proceed(w), StatusAnswers(w, truth), Proceed(w), Proceed(w)]);
      && Resolved(s.ledger, s'.ledger, c, truth, s.now) && Leaves(s, s', w, c.taskId, Completed)
      && s' == s.(ledger := s'.ledger, workers := s'.workers)
  {
    var s3 := ThreeStepsToTheTruth(s, w, c, truth);
    var s' := SettleAndComplete(s3, w, c, s.ledger.attempts[c.attemptId], truth);
    FiveSteps(s, Proceed(w), Proceed(w), StatusAnswers(w, truth), Proceed(w), Proceed(w));
    assert s3.workers - {w} == s.workers - {w};
  }

  /** What it hands to the status call is the payload of the vendor's unresolved answer. */
  lemma PayloadIsHandedOver(s0: Sys, acts: seq<Action>, w: WorkerId)
    requires Init(s0) && w in Exec(s0, acts).workers && Exec(s0, acts).workers[w].RecLeased?
    requires IsUnknown(Exec(s0, acts).ledger, Exec(s0, acts).workers[w].claim.attemptId)
    ensures
      var s := Exec(s0, acts);
      var c, answer := s.workers[w].claim, AnswerOf(s0, acts, s.workers[w].claim.attemptId);
      && answer.Some? && answer.value.DispatchUnknown?
      && Exec(s, [Proceed(w), Proceed(w)]).workers ==
         s.workers[w := RecReady(c, s.ledger.attempts[c.attemptId], Some((answer.value.payloadJson, answer.value.requirementsJson)))]
  {
    EveryReachableStateIsSafe(s0, acts);
    var s := Exec(s0, acts);
    var c := s.workers[w].claim;
    ClaimHasRows(s, w);
    AnswersAreOnRecord(s0, acts, c.attemptId);
    FirstMatchIsTheOnePayload(s0, acts, s.ledger.events, c.attemptId);
    var s3 := ThreeStepsToTheTruth(s, w, c, CorrelationResult(true, None, ReceivedValid, NotReported));
  }

  // ---- a reconciliation that fails ----

  predicate StatusIsAsked(pc: Pc) {
    pc.RecReady? || pc.RecAnswered? || pc.RecSettled?
  }

  lemma CatchGoes(s: Sys, w: WorkerId)
    requires w in s.workers && StatusIsAsked(s.workers[w])
    ensures Goes(s, Throws(w), w, RecCaught(s.workers[w].claim, s.workers[w].seen), s.ledger)
  {}

  lemma CaughtGoes(s: Sys, w: WorkerId, c: Claim, seen: Attempt)
    requires w in s.workers && s.workers[w] == RecCaught(c, seen)
    ensures Goes(s, Proceed(w), w,
                 if seen.status == ExecutionUnknown && s.now < seen.updatedAt + 900_000 then RecRequeueing(c) else Failing(c), s.ledger)
  {}

  lemma RequeueEnds(s: Sys, w: WorkerId, c: Claim)
    requires w in s.workers && s.workers[w] == RecRequeueing(c) && c.taskId in s.ledger.tasks
    ensures RequeueTask(s.ledger, c.taskId, s.now).Ok?
    ensures
      var s' := Do(s, Proceed(w));
      s' == s.(ledger := RequeueTask(s.ledger, c.taskId, s.now).value, workers := s.workers - {w}, requeues := s'.requeues)
  {}

  /** The worker is gone and its task alone has changed: it waits half a minute for the next try, or it has failed. */
  ghost predicate TriesAgainOrFails(s: Sys, s': Sys, w: WorkerId, c: Claim, again: bool) {
    && s' == s.(ledger := s'.ledger, workers := s.workers - {w}, requeues := s'.requeues) && c.taskId in s.ledger.tasks
    && var free := s.ledger.tasks[c.taskId].(leaseOwner := None, leaseExpiresAt := None, updatedAt := s.now);
    OnlyTask(s.ledger, s'.ledger, c.taskId, if again then free.(status := Queued, availableAt := s.now + 30_000)
                                            else free.(status := Failed, completedAt := Some(s.now)))
  }

  lemma CaughtThenDone(s: Sys, w: WorkerId, c: Claim, seen: Attempt) returns (s': Sys)
    requires w in s.workers && s.workers[w] == RecCaught(c, seen) && c.taskId in s.ledger.tasks
    ensures s' == Do(Do(s, Proceed(w)), Proceed(w))
    ensures TriesAgainOrFails(s, s', w, c, seen.status == ExecutionUnknown && s.now < seen.updatedAt + 900_000)
  {
    ClosedLedger(s.ledger, c, s.now);
    CaughtGoes(s, w, c, seen);
    var s1 := Do(s, Proceed(w));
    if s1.workers[w].RecRequeueing? {
      RequeueEnds(s1, w, c);
    } else {
      FailEnds(s1, w, c);
    }
    s' := Do(s1, Proceed(w));
    assert s1.workers - {w} == s.workers - {w};
  }

  lemma SameButThePlace(s: Sys, s1: Sys, s': Sys, w: WorkerId, c: Claim, pc: Pc, again: bool)
    requires s1 == s.(workers := s.workers[w := pc]) && TriesAgainOrFails(s1, s', w, c, again)
    ensures TriesAgainOrFails(s, s', w, c, again)
  {
    assert s1.workers - {w} == s.workers - {w};
  }

  lemma ThreeStepsToARetry(s: Sys, w: WorkerId)
    requires w in s.workers && StatusIsAsked(s.workers[w]) && s.workers[w].claim.taskId in s.ledger.tasks
    ensures
      var pc := s.workers[w];
      TriesAgainOrFails(s, Exec(s, [Throws(w), Proceed(w), Proceed(w)]), w, pc.claim,
                        pc.seen.status == ExecutionUnknown && s.now < pc.seen.updatedAt + 900_000)
  {
    var pc := s.workers[w];
    var caught := RecCaught(pc.claim, pc.seen);
    CatchGoes(s, w);
    var s1 := s.(workers := s.workers[w := caught]);
    var s' := CaughtThenDone(s1, w, pc.claim, pc.seen);
    SameButThePlace(s, s1, s', w, pc.claim, caught, pc.seen.status == ExecutionUnknown && s.now < pc.seen.updatedAt + 900_000);
    ThreeSteps(s, Throws(w), Proceed(w), Proceed(w));
  }

  /** A reconciliation that fails is tried again half a minute later exactly if the worker saw the attempt unresolved and
      the quarter of an hour since it became so is not over; otherwise the task fails. No row but the task changes. */
  lemma FailedReconciliationIsRetried(s0: Sys, acts: seq<Action>, w: WorkerId)
    requires Init(s0) && w in Exec(s0, acts).workers && StatusIsAsked(Exec(s0, acts).workers[w])
    ensures
      var s := Exec(s0, acts);
      var pc := s.workers[w];
      var since := BecameUnknownAt(s0, acts, pc.claim.attemptId);
      && (pc.seen.status == ExecutionUnknown ==> since.Some?)
      && TriesAgainOrFails(s, Exec(s, [Throws(w), Proceed(w), Proceed(w)]), w, pc.claim,
                           pc.seen.status == ExecutionUnknown && s.now < since.value + 900_000)
  {
    EveryReachableStateIsSafe(s0, acts);
    ClaimHasRows(Exec(s0, acts), w);
    if Exec(s0, acts).workers[w].seen.status == ExecutionUnknown { CopyKeepsTheMoment(s0, acts, w); }
    ThreeStepsToARetry(Exec(s0, acts), w);
  }

  /** To find the attempt settled by another worker is such a failure too. */
  lemma ConflictIsAnException(s: Sys, w: WorkerId)
    requires Inv(s) && w in s.workers && s.workers[w].RecAnswered? && !IsUnknown(s.ledger, s.workers[w].claim.attemptId)
    ensures Do(s, Proceed(w)) == Do(s, Throws(w))
  {
    var pc := s.workers[w];
    ReconciliationSettles(s.ledger, pc.claim, pc.truth, s.now);
    CatchGoes(s, w);
    ReconcileGoes(s, w, pc.claim, pc.seen, pc.truth);
    ClaimHasRows(s, w);
  }
}

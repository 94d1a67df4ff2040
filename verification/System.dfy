/** The invariant of the whole system, kept by every action, and so true in every reachable state. */
module System {
  import opened Domain
  import opened Ledger
  import opened Money
  import opened Log
  import opened References
  import opened Protocol
  import opened Workers
  import opened Leases

  ghost predicate Inv(s: Sys) {
    Sound(s.ledger) && LogInv(s.ledger) && RefInv(s.ledger) && WInv(s) && TInv(s)
  }

  lemma InitIsSafe(s: Sys)
    requires Init(s)
    ensures Inv(s)
  {}

  /** The ledger's own part of the invariant. */
  ghost predicate LedgerInv(l: Ledger) {
    Sound(l) && LogInv(l) && RefInv(l)
  }

  lemma TasksBelow(l: Ledger)
    requires RefInv(l)
    ensures forall t :: t in l.tasks ==> t < l.nextId
  {
    forall t | t in l.tasks ensures t < l.nextId {
      assert TaskOk(l.attempts, l.tasks[t], t);
    }
  }

  // ---- operators ----

  /** A transaction of an operator: no worker's place depends on what it changed. */
  lemma OperatorKeeps(s: Sys, l': Ledger)
    requires Inv(s) && LedgerInv(l') && Benign(s.ledger, l') && KeepsTimes(s.ledger, l', s.now)
    ensures Inv(s.(ledger := l'))
  {
    BenignKeepsWorkers(s, l');
    TimesKept(s, l');
  }

  lemma CreateKeepsLedger(l: Ledger, input: CreateInput, anchor: Option<string>, now: Millis)
    requires LedgerInv(l) && CreateMandate(l, input, anchor, now).Ok?
    ensures LedgerInv(CreateMandate(l, input, anchor, now).value.ledger)
  {
    CreateKeepsMoney(l, input, anchor, now);
    CreateKeepsLog(l, input, anchor, now);
    CreateKeepsRefs(l, input, anchor, now);
  }

  lemma CreateKeeps(s: Sys, input: CreateInput, anchor: Option<string>)
    requires Inv(s)
    ensures Inv(Do(s, Create(input, anchor)))
  {
    var r := CreateMandate(s.ledger, input, anchor, s.now);
    if r.Ok? {
      CreateKeepsLedger(s.ledger, input, anchor, s.now);
      CreateIsBenign(s.ledger, input, anchor, s.now);
      MandatesKeepTimes(s.ledger, r.value.ledger, s.now);
      OperatorKeeps(s, r.value.ledger);
    }
  }

  lemma RevokeKeepsLedger(l: Ledger, m: Id, anchor: Option<string>, now: Millis)
    requires LedgerInv(l) && RevokeMandate(l, m, anchor, now).Ok?
    ensures LedgerInv(RevokeMandate(l, m, anchor, now).value.ledger)
  {
    RevokeKeepsMoney(l, m, anchor, now);
    RevokeKeepsLog(l, m, anchor, now);
    RevokeKeepsRefs(l, m, anchor, now);
  }

  lemma RevokeKeeps(s: Sys, m: Id, anchor: Option<string>)
    requires Inv(s)
    ensures Inv(Do(s, Revoke(m, anchor)))
  {
    var r := RevokeMandate(s.ledger, m, anchor, s.now);
    if r.Ok? {
      RevokeKeepsLedger(s.ledger, m, anchor, s.now);
      RevokeIsBenign(s.ledger, m, anchor, s.now);
      MandatesKeepTimes(s.ledger, r.value.ledger, s.now);
      OperatorKeeps(s, r.value.ledger);
    }
  }

  lemma RunTimes(s: Sys, input: RunInput, generated: string, treasury: Treasury)
    requires Sound(s.ledger) && TInv(s) && RunAttempt(s.ledger, input, generated, treasury, s.now).Ok?
    ensures TInv(s.(ledger := RunAttempt(s.ledger, input, generated, treasury, s.now).value.ledger))
  {
    RunIsRepeatOrAdmitted(s.ledger, input, generated, treasury, s.now);
    var l' := RunAttempt(s.ledger, input, generated, treasury, s.now).value.ledger;
    if l' != s.ledger {
      var a := AttemptFor(s.ledger, input, generated, s.now);
      RunKeepsTimes(s.ledger, a, FindVendor(a.vendorId).value, treasury, s.now);
      TimesKept(s, l');
    }
  }

  lemma RunKeeps(s: Sys, input: RunInput, generated: string, treasury: Treasury)
    requires Inv(s)
    ensures Inv(Do(s, Run(input, generated, treasury)))
  {
    if FreshIdentifier(s.ledger, generated) {
      var r := RunAttempt(s.ledger, input, generated, treasury, s.now);
      if r.Ok? {
        TasksBelow(s.ledger);
        RunKeepsMoney(s.ledger, input, generated, treasury, s.now);
        RunKeepsLog(s.ledger, input, generated, treasury, s.now);
        RunKeepsRefs(s.ledger, input, generated, treasury, s.now);
        RunIsBenign(s.ledger, input, generated, treasury, s.now);
        BenignKeepsWorkers(s, r.value.ledger);
        RunTimes(s, input, generated, treasury);
      }
    }
  }

  lemma EnsureKeepsTimes(l: Ledger, m: Id, a: Id, found: Option<Id>, now: Millis)
    requires EnsureReconciliationQueued(l, m, a, found, now).Ok? && forall t :: t in l.tasks ==> t < l.nextId
    ensures KeepsTimes(l, EnsureReconciliationQueued(l, m, a, found, now).value, now)
  {
    if found.None? { NewTaskKeepsTimes(l, EnsureReconciliationQueued(l, m, a, found, now).value, l.nextId, now); }
  }

  lemma EnsureKeepsLedger(l: Ledger, m: Id, a: Id, found: Option<Id>, now: Millis)
    requires LedgerInv(l) && EnsureReconciliationQueued(l, m, a, found, now).Ok?
    requires FindsLive(l.tasks, ReconcileAttempt, a, found)
    ensures LedgerInv(EnsureReconciliationQueued(l, m, a, found, now).value)
  {
    assert Sound(EnsureReconciliationQueued(l, m, a, found, now).value);
    EnsureKeepsLog(l, m, a, found, now);
    EnqueueKeepsRefs(l, m, a, found, now);
  }

  lemma QueueKeeps(s: Sys, m: Id, a: Id)
    requires Inv(s)
    ensures Inv(Do(s, QueueReconciliation(m, a)))
  {
    var found := FindLive(s.ledger.tasks, ReconcileAttempt, a);
    var r := EnsureReconciliationQueued(s.ledger, m, a, found, s.now);
    if r.Ok? {
      TasksBelow(s.ledger);
      EnsureKeepsLedger(s.ledger, m, a, found, s.now);
      EnsureIsBenign(s.ledger, m, a, found, s.now);
      EnsureKeepsTimes(s.ledger, m, a, found, s.now);
      OperatorKeeps(s, r.value);
    }
  }

  // ---- leases and tasks ----

  lemma LeaseKeeps(s: Sys, w: WorkerId, kind: TaskKind, name: string, t: Id)
    requires Inv(s) && w !in s.workers && IsNext(s.ledger.tasks, kind, s.now, t)
    ensures Inv(StepLease(s, w, kind, name, t))
  {
    assert TaskOk(s.ledger.attempts, s.ledger.tasks[t], t);
    var l' := LeaseTask(s.ledger, t, name, s.now).value.ledger;
    assert Sound(l');
    QuietKeepsLog(s.ledger, l');
    TaskChangeKeepsRefs(s.ledger, t, l'.tasks[t], EvtTaskEnqueued, s.now);
    LeaseKeepsWorkers(s, w, kind, name, t);
    LeaseKeepsTimes(s, w, kind, name, t);
  }

  lemma DoneKeepsLedger(l: Ledger, t: Id, task: Task, kind: EventKind, now: Millis)
    requires LedgerInv(l) && t in l.tasks && SameTaskRefs(l.tasks[t], task)
    ensures LedgerInv(WithEvent(l.(tasks := l.tasks[t := task]), OfTask, t, kind, now))
  {
    TaskEntryKeepsLog(l, l.tasks[t := task], l.nextId, t, kind, now);
    TaskChangeKeepsRefs(l, t, task, kind, now);
  }

  lemma CompleteKeeps(s: Sys, w: WorkerId, c: Claim, onError: Pc)
    requires Inv(s) && w in s.workers && s.workers[w].claim == c
    ensures Inv(StepComplete(s, w, c, onError)) || CompleteTask(s.ledger, c.taskId, s.now).Err?
  {
    var r := CompleteTask(s.ledger, c.taskId, s.now);
    if r.Ok? {
      DoneKeepsLedger(s.ledger, c.taskId, r.value.tasks[c.taskId], EvtTaskCompleted, s.now);
      WithEventNews(s.ledger.(tasks := r.value.tasks), OfTask, c.taskId, EvtTaskCompleted, s.now);
      TaskDoneKeepsWorkers(s, w, r.value, c.taskId);
      TaskEndKeepsTimes(s.ledger, r.value, c.taskId, s.now);
      TimesKept(s, r.value);
      LeavingKeepsTimes(s.(ledger := r.value), w);
    }
  }

  lemma FailKeeps(s: Sys, w: WorkerId, c: Claim)
    requires Inv(s) && w in s.workers && s.workers[w] == Failing(c)
    ensures Inv(StepFail(s, w, c))
  {
    var r := FailTask(s.ledger, c.taskId, s.now);
    if r.Ok? {
      DoneKeepsLedger(s.ledger, c.taskId, r.value.tasks[c.taskId], EvtTaskFailed, s.now);
      WithEventNews(s.ledger.(tasks := r.value.tasks), OfTask, c.taskId, EvtTaskFailed, s.now);
      TaskDoneKeepsWorkers(s, w, r.value, c.taskId);
      TaskEndKeepsTimes(s.ledger, r.value, c.taskId, s.now);
      TimesKept(s, r.value);
      LeavingKeepsTimes(s.(ledger := r.value), w);
    } else {
      LeavingKeepsWorkers(s, w);
      LeavingKeepsTimes(s, w);
    }
  }

  lemma RequeueKeeps(s: Sys, w: WorkerId, c: Claim)
    requires Inv(s) && w in s.workers && s.workers[w] == RecRequeueing(c)
    ensures Inv(StepRequeue(s, w, c))
  {
    assert PcTimed(s.ledger.tasks, s.now, s.workers[w]);
    var r := RequeueTask(s.ledger, c.taskId, s.now);
    DoneKeepsLedger(s.ledger, c.taskId, r.value.tasks[c.taskId], EvtTaskRequeued, s.now);
    WithEventNews(s.ledger.(tasks := r.value.tasks), OfTask, c.taskId, EvtTaskRequeued, s.now);
    TaskDoneKeepsWorkers(s, w, r.value, c.taskId);
    RequeueKeepsTimes(s, w, c);
  }

  // ---- an execution worker ----

  lemma ClaimIsTrue(s: Sys, w: WorkerId)
    requires WInv(s) && w in s.workers
    ensures PcOk(s.ledger.attempts, s.ledger.tasks, s.sends, s.answers, s.workers[w])
    ensures ClaimMatches(s.ledger, s.workers[w].claim)
  {
    assert PcOk(s.ledger.attempts, s.ledger.tasks, s.sends, s.answers, s.workers[w]);
  }

  lemma PlaceIsTimed(s: Sys, w: WorkerId)
    requires TInv(s) && w in s.workers
    ensures PcTimed(s.ledger.tasks, s.now, s.workers[w])
  {}

  lemma LeaveKeeps(s: Sys, w: WorkerId)
    requires Inv(s)
    ensures Inv(Idle(s, w))
  {
    LeavingKeepsWorkers(s, w);
    LeavingKeepsTimes(s, w);
  }

  /** To another place with the ledger untouched. */
  lemma MoveOnKeeps(s: Sys, w: WorkerId, pc': Pc)
    requires Inv(s) && w in s.workers && pc'.claim == s.workers[w].claim
    requires PcOk(s.ledger.attempts, s.ledger.tasks, s.sends, s.answers, pc') && PcTimed(s.ledger.tasks, s.now, pc')
    requires Holding(pc') ==> Holding(s.workers[w])
    ensures Inv(To(s, w, pc'))
  {
    MoveOnKeepsWorkers(s, w, pc');
    MoveOnKeepsTimes(s, w, pc');
  }

  lemma BeginKeeps(s: Sys, w: WorkerId, c: Claim)
    requires Inv(s) && w in s.workers && s.workers[w] == ExecLeased(c)
    ensures Inv(StepBegin(s, w, c))
  {
    ClaimIsTrue(s, w);
    var r := BeginDispatch(s.ledger, c, s.now);
    if r.Err? {
      LeaveKeeps(s, w);
    } else {
      assert AttemptOk(s.ledger.mandates, s.ledger.attempts[c.attemptId], c.attemptId);
      BeginKeepsMoney(s.ledger, c, s.now);
      BeginKeepsLog(s.ledger, c, s.now);
      BeginKeepsRefs(s.ledger, c, s.now);
      BeginKeepsWorkers(s, w, c);
      AttemptMoveKeepsTimes(s.ledger, r.value, c.attemptId, s.now);
      PlaceIsTimed(s, w);
      LedgerThenMoveKeepsTimes(s, r.value, w, ExecBegun(c));
    }
  }

  lemma PreflightKeeps(s: Sys, w: WorkerId, c: Claim)
    requires Inv(s) && w in s.workers && s.workers[w] == ExecBegun(c)
    ensures Inv(StepPreflight(s, w, c))
  {
    PreflightKeepsWorkers(s, w, c);
    PlaceIsTimed(s, w);
    if PreflightFailure(s.ledger, c, s.now).Err? {
      LeaveKeeps(s, w);
    } else {
      var pc' := StepPreflight(s, w, c).workers[w];
      assert StepPreflight(s, w, c) == To(s, w, pc') && pc'.claim == c && !HasSeen(pc') && !pc'.RecRequeueing?;
      MoveOnKeepsTimes(s, w, pc');
    }
  }

  lemma SendKeeps(s: Sys, w: WorkerId, c: Claim)
    requires Inv(s) && w in s.workers && s.workers[w] == ExecCleared(c)
    ensures Inv(StepSend(s, w, c))
  {
    SendKeepsWorkers(s, w, c);
    PlaceIsTimed(s, w);
    MoveOnKeepsTimes(s, w, ExecAwaiting(c));
  }

  lemma AnswerKeeps(s: Sys, w: WorkerId, answer: DispatchResult)
    requires Inv(s)
    ensures Inv(Do(s, VendorAnswers(w, answer)))
  {
    if w in s.workers && s.workers[w].ExecAwaiting? {
      AnswerKeepsWorkers(s, w, answer);
      PlaceIsTimed(s, w);
      MoveOnKeepsTimes(s, w, ExecAnswered(s.workers[w].claim, answer));
    }
  }

  lemma SettleKeepsLedger(l: Ledger, c: Claim, answer: DispatchResult, found: Option<Id>, now: Millis)
    requires LedgerInv(l) && ClaimMatches(l, c) && FindsLive(l.tasks, ReconcileAttempt, c.attemptId, found)
    requires ApplyDispatchResult(l, c, answer, found, now).Ok?
    ensures LedgerInv(ApplyDispatchResult(l, c, answer, found, now).value)
  {
    DispatchResultKeepsMoney(l, c, answer, found, now);
    DispatchResultKeepsLog(l, c, answer, found, now);
    DispatchResultKeepsRefs(l, c, answer, found, now);
  }

  lemma SettleKeepsTimes(s: Sys, w: WorkerId, c: Claim, answer: DispatchResult)
    requires WInv(s) && TInv(s) && RefInv(s.ledger) && w in s.workers && s.workers[w] == ExecAnswered(c, answer)
    ensures TInv(StepSettle(s, w, c, answer))
  {
    ClaimIsTrue(s, w);
    PlaceIsTimed(s, w);
    var found := FindLive(s.ledger.tasks, ReconcileAttempt, c.attemptId);
    var r := ApplyDispatchResult(s.ledger, c, answer, found, s.now);
    if r.Err? {
      MoveOnKeepsTimes(s, w, ExecReleasing(c, ExecutionWorkerFailed));
    } else {
      SettleTimes(s, c, answer, found);
      LedgerThenMoveKeepsTimes(s, r.value, w, ExecSettled(c));
    }
  }

  /** A transaction that keeps the times, after which the worker moves on. */
  lemma LedgerThenMoveKeepsTimes(s: Sys, l': Ledger, w: WorkerId, pc': Pc)
    requires TInv(s) && KeepsTimes(s.ledger, l', s.now) && w in s.workers && pc'.claim == s.workers[w].claim
    requires PcTimed(s.ledger.tasks, s.now, pc')
    ensures TInv(To(s.(ledger := l'), w, pc'))
  {
    TimesKept(s, l');
    assert SameTimes(s.ledger.tasks[pc'.claim.taskId], l'.tasks[pc'.claim.taskId]);
    MoveOnKeepsTimes(s.(ledger := l'), w, pc');
  }

  lemma SettleKeeps(s: Sys, w: WorkerId, c: Claim, answer: DispatchResult)
    requires Inv(s) && w in s.workers && s.workers[w] == ExecAnswered(c, answer)
    ensures Inv(StepSettle(s, w, c, answer))
  {
    ClaimIsTrue(s, w);
    TasksBelow(s.ledger);
    SettleKeepsWorkers(s, w, c, answer);
    SettleKeepsTimes(s, w, c, answer);
    var found := FindLive(s.ledger.tasks, ReconcileAttempt, c.attemptId);
    if ApplyDispatchResult(s.ledger, c, answer, found, s.now).Ok? {
      SettleKeepsLedger(s.ledger, c, answer, found, s.now);
    }
  }

  lemma SettleTimes(s: Sys, c: Claim, answer: DispatchResult, found: Option<Id>)
    requires WInv(s) && RefInv(s.ledger) && FindsLive(s.ledger.tasks, ReconcileAttempt, c.attemptId, found)
    requires ApplyDispatchResult(s.ledger, c, answer, found, s.now).Ok?
    requires s.ledger.attempts[c.attemptId].status == Dispatching
    ensures KeepsTimes(s.ledger, ApplyDispatchResult(s.ledger, c, answer, found, s.now).value, s.now)
  {
    TasksBelow(s.ledger);
    if answer.DispatchUnknown? {
      UnknownKeepsTimes(s.ledger, c, answer, found, s.now);
    } else {
      AttemptMoveKeepsTimes(s.ledger, ApplyDispatchResult(s.ledger, c, answer, found, s.now).value, c.attemptId, s.now);
    }
  }

  lemma ReleaseKeeps(s: Sys, w: WorkerId, c: Claim, reason: BlockedReason)
    requires Inv(s) && w in s.workers && s.workers[w] == ExecReleasing(c, reason)
    ensures Inv(StepRelease(s, w, c, reason))
  {
    ClaimIsTrue(s, w);
    ReleaseKeepsWorkers(s, w, c, reason);
    PlaceIsTimed(s, w);
    var r := ReleaseDispatch(s.ledger, c, reason, s.now);
    if r.Err? {
      LeaveKeeps(s, w);
    } else {
      ReleasesOnlyDispatching(s.ledger, c, reason, s.now);
      ReleaseKeepsMoney(s.ledger, c, reason, s.now);
      ReleaseKeepsLog(s.ledger, c, reason, s.now);
      ReleaseKeepsRefs(s.ledger, c, reason, s.now);
      AttemptMoveKeepsTimes(s.ledger, r.value, c.attemptId, s.now);
      LedgerThenMoveKeepsTimes(s, r.value, w, Failing(c));
    }
  }

  // ---- a reconciliation worker ----

  lemma ReconcileKeepsLedger(l: Ledger, c: Claim, truth: CorrelationResult, now: Millis)
    requires LedgerInv(l) && ClaimMatches(l, c) && ApplyReconciliationResult(l, c, truth, now).Ok?
    ensures LedgerInv(ApplyReconciliationResult(l, c, truth, now).value)
  {
    ReconciliationKeepsMoney(l, c, truth, now);
    ReconciliationKeepsLog(l, c, truth, now);
    ReconciliationKeepsRefs(l, c, truth, now);
  }

  lemma ReconciliationKeepsTimes(l: Ledger, c: Claim, truth: CorrelationResult, now: Millis)
    requires ApplyReconciliationResult(l, c, truth, now).Ok?
    ensures KeepsTimes(l, ApplyReconciliationResult(l, c, truth, now).value, now)
  {
    ReconciliationEvolves(l, c, truth, now);
    AttemptMoveKeepsTimes(l, ApplyReconciliationResult(l, c, truth, now).value, c.attemptId, now);
  }

  lemma ReconcileKeeps(s: Sys, w: WorkerId, c: Claim, seen: Attempt, truth: CorrelationResult)
    requires Inv(s) && w in s.workers && s.workers[w] == RecAnswered(c, seen, truth)
    ensures Inv(StepReconcile(s, w, c, seen, truth))
  {
    ClaimIsTrue(s, w);
    ReconcileKeepsWorkers(s, w, c, seen, truth);
    PlaceIsTimed(s, w);
    var r := ApplyReconciliationResult(s.ledger, c, truth, s.now);
    if r.Err? {
      MoveOnKeepsTimes(s, w, RecCaught(c, seen));
    } else {
      ReconcileKeepsLedger(s.ledger, c, truth, s.now);
      ReconciliationKeepsTimes(s.ledger, c, truth, s.now);
      LedgerThenMoveKeepsTimes(s, r.value, w, RecSettled(c, seen));
    }
  }

  lemma ReadKeeps(s: Sys, w: WorkerId, c: Claim)
    requires Inv(s) && w in s.workers && s.workers[w] == RecLeased(c)
    ensures Inv(StepRead(s, w, c))
  {
    ClaimIsTrue(s, w);
    ReadKeepsTimes(s, w, c);
    MoveOnKeepsWorkers(s, w, RecRead(c, s.ledger.attempts[c.attemptId]));
  }

  lemma ArtifactsKeep(s: Sys, w: WorkerId, c: Claim, seen: Attempt)
    requires Inv(s) && w in s.workers && s.workers[w] == RecRead(c, seen)
    ensures Inv(StepArtifacts(s, w, c, seen))
  {
    ClaimIsTrue(s, w);
    PlaceIsTimed(s, w);
    MoveOnKeeps(s, w, StepArtifacts(s, w, c, seen).workers[w]);
  }

  lemma CaughtKeeps(s: Sys, w: WorkerId, c: Claim, seen: Attempt)
    requires Inv(s) && w in s.workers && s.workers[w] == RecCaught(c, seen)
    ensures Inv(StepCaught(s, w, c, seen))
  {
    ClaimIsTrue(s, w);
    CaughtKeepsTimes(s, w, c, seen);
    MoveOnKeepsWorkers(s, w, StepCaught(s, w, c, seen).workers[w]);
  }

  // ---- every step of a worker ----

  lemma AdvanceKeeps(s: Sys, w: WorkerId)
    requires Inv(s) && w in s.workers
    ensures Inv(Advance(s, w, s.workers[w]))
  {
    match s.workers[w]
    case ExecLeased(c) => BeginKeeps(s, w, c);
    case ExecBegun(c) => PreflightKeeps(s, w, c);
    case ExecCleared(c) => SendKeeps(s, w, c);
    case ExecAwaiting(_) =>
    case ExecAnswered(c, answer) => SettleKeeps(s, w, c, answer);
    case ExecSettled(c) => CompletingKeeps(s, w, c, ExecReleasing(c, ExecutionWorkerFailed));
    case ExecReleasing(c, reason) => ReleaseKeeps(s, w, c, reason);
    case RecLeased(c) => ReadKeeps(s, w, c);
    case RecRead(c, seen) => ArtifactsKeep(s, w, c, seen);
    case RecReady(_, _, _) =>
    case RecAnswered(c, seen, truth) => ReconcileKeeps(s, w, c, seen, truth);
    case RecSettled(c, seen) => CompletingKeeps(s, w, c, RecCaught(c, seen));
    case RecCaught(c, seen) => CaughtKeeps(s, w, c, seen);
    case RecRequeueing(c) => RequeueKeeps(s, w, c);
    case Failing(c) => FailKeeps(s, w, c);
  }

  lemma CompletingKeeps(s: Sys, w: WorkerId, c: Claim, onError: Pc)
    requires Inv(s) && w in s.workers && s.workers[w].claim == c
    ensures Inv(StepComplete(s, w, c, onError))
  {
    ClaimIsTrue(s, w);
    CompleteKeeps(s, w, c, onError);
  }

  lemma ThrowKeeps(s: Sys, w: WorkerId)
    requires Inv(s) && w in s.workers
    ensures Inv(AfterThrow(s, w, s.workers[w]))
  {
    ClaimIsTrue(s, w);
    PlaceIsTimed(s, w);
    var s' := AfterThrow(s, w, s.workers[w]);
    if w in s'.workers {
      MoveOnKeeps(s, w, s'.workers[w]);
    } else {
      LeaveKeeps(s, w);
    }
  }

  lemma StatusKeeps(s: Sys, w: WorkerId, truth: CorrelationResult)
    requires Inv(s)
    ensures Inv(Do(s, StatusAnswers(w, truth)))
  {
    if w in s.workers && s.workers[w].RecReady? {
      ClaimIsTrue(s, w);
      PlaceIsTimed(s, w);
      MoveOnKeeps(s, w, RecAnswered(s.workers[w].claim, s.workers[w].seen, truth));
    }
  }

  lemma LeaseNextKeeps(s: Sys, w: WorkerId, kind: TaskKind, name: string, t: Id)
    requires Inv(s)
    ensures Inv(Do(s, LeaseNext(w, kind, name, t)))
  {
    if w !in s.workers && IsNext(s.ledger.tasks, kind, s.now, t) {
      LeaseKeeps(s, w, kind, name, t);
    }
  }

  // ---- every action, every run ----

  lemma TickKeeps(s: Sys, elapsed: nat)
    requires Inv(s)
    ensures Inv(Do(s, Tick(elapsed)))
  {
    TickKeepsTimes(s, elapsed);
  }

  lemma ProceedKeeps(s: Sys, w: WorkerId)
    requires Inv(s)
    ensures Inv(Do(s, Proceed(w)))
  {
    if w in s.workers { AdvanceKeeps(s, w); }
  }

  lemma ActionKeeps(s: Sys, act: Action)
    requires Inv(s)
    ensures Inv(Do(s, act))
  {
    match act
    case Tick(elapsed) => TickKeeps(s, elapsed);
    case Create(input, anchor) => CreateKeeps(s, input, anchor);
    case Revoke(m, anchor) => RevokeKeeps(s, m, anchor);
    case Run(input, generated, treasury) => RunKeeps(s, input, generated, treasury);
    case QueueReconciliation(m, a) => QueueKeeps(s, m, a);
    case LeaseNext(w, kind, name, t) => LeaseNextKeeps(s, w, kind, name, t);
    case Proceed(w) => ProceedKeeps(s, w);
    case VendorAnswers(w, answer) => AnswerKeeps(s, w, answer);
    case StatusAnswers(w, truth) => StatusKeeps(s, w, truth);
    case Throws(w) => if w in s.workers { ThrowKeeps(s, w); }
    case Dies(w) => LeaveKeeps(s, w);
  }

  /** Whatever operators, workers, vendors, the clock and crashes do, the invariant holds. */
  lemma {:induction false} EveryRunIsSafe(s: Sys, acts: seq<Action>)
    requires Inv(s)
    ensures Inv(Exec(s, acts))
    decreases |acts|
  {
    if acts == [] {
    } else {
      EveryRunIsSafe(s, acts[..|acts| - 1]);
      ActionKeeps(Exec(s, acts[..|acts| - 1]), acts[|acts| - 1]);
    }
  }
}

/** What a reachable store gives the drain loop: every dispatch task has an attempt of its own. */
module DrainTheorems {
  import opened Domain
  import opened Policy
  import opened Ledger
  import opened Money
  import opened References
  import opened Protocol
  import opened System
  import opened Runs
  import D = Drain

  ghost predicate DispatchesFor(ts: map<Id, Task>, t: Id, a: Id) {
    t in ts && ts[t].kind == DispatchAttempt && ts[t].attemptId == a
  }

  /** No attempt has two dispatch tasks. */
  ghost predicate OneDispatchTaskEach(l: Ledger) {
    forall t, u, a :: DispatchesFor(l.tasks, t, a) && DispatchesFor(l.tasks, u, a) ==> t == u
  }

  ghost predicate SameWork(t: Task, u: Task) {
    u.kind == t.kind && u.attemptId == t.attemptId
  }

  /** Old tasks keep their attempt; a new dispatch task is the only one, and its attempt is new too. */
  ghost predicate OneNewDispatch(l: Ledger, l': Ledger) {
    && l.tasks.Keys <= l'.tasks.Keys
    && (forall t {:trigger SameWork(l.tasks[t], l'.tasks[t])} :: t in l.tasks ==> SameWork(l.tasks[t], l'.tasks[t]))
    && (forall t, a {:trigger DispatchesFor(l'.tasks, t, a)} :: DispatchesFor(l'.tasks, t, a) && t !in l.tasks ==> a !in l.attempts)
    && (forall t, u, a, b {:trigger DispatchesFor(l'.tasks, t, a), DispatchesFor(l'.tasks, u, b)} ::
          DispatchesFor(l'.tasks, t, a) && DispatchesFor(l'.tasks, u, b) && t !in l.tasks && u !in l.tasks ==> t == u)
  }

  lemma SameKeysAddNone(l: Ledger, l': Ledger)
    requires l'.tasks.Keys == l.tasks.Keys && forall t {:trigger l.tasks[t]} :: t in l.tasks ==> SameWork(l.tasks[t], l'.tasks[t])
    ensures OneNewDispatch(l, l')
  {}

  lemma DenyAddsNone(l: Ledger, l1: Ledger, a: Attempt, reason: BlockedReason, now: Millis)
    requires l1.tasks == l.tasks
    ensures OneNewDispatch(l, Deny(l1, a, reason, now).ledger)
  {
    SameKeysAddNone(l, Deny(l1, a, reason, now).ledger);
  }

  lemma EnforcedAddsOne(l: Ledger, l1: Ledger, a: Attempt, treasury: Treasury, now: Millis)
    requires l1.tasks == l.tasks && l1.mandates == l.mandates && l.nextId <= l1.nextId && a.mandateId in l.mandates && a.id !in l.attempts
    requires (forall t :: t in l.tasks ==> t < l.nextId) && Enforced(l1, a, treasury, now).Ok?
    ensures OneNewDispatch(l, Enforced(l1, a, treasury, now).value.ledger)
  {
    match treasury
    case TreasuryDenies(code) => DenyAddsNone(l, l1, a, TreasuryDenied(code), now);
    case TreasuryApproved => ReserveAddsOne(l, TreasuryEnforced(l1, a, now), a, now);
    case TreasuryNotEnforced => ReserveAddsOne(l, l1, a, now);
  }

  lemma AdmittedAddsOne(l: Ledger, a: Attempt, vendor: Vendor, treasury: Treasury, now: Millis)
    requires a.mandateId in l.mandates && a.id !in l.attempts && Admitted(l, a, vendor, treasury, now).Ok?
    requires a.id == l.nextId && forall t :: t in l.tasks ==> t < l.nextId
    ensures OneNewDispatch(l, Admitted(l, a, vendor, treasury, now).value.ledger)
  {
    var b := Authenticated(a);
    var policy := EvaluatePolicy(l.mandates[b.mandateId], Some(vendor), b.amountCents, now);
    if policy.Denied? {
      DenyAddsNone(l, Admit(l, b, now), b, policy.reason, now);
      DenyAddsNone(l, ExpireMandate(Admit(l, b, now), b.mandateId, now), b, policy.reason, now);
    } else {
      EnforcedAddsOne(l, Approve(Admit(l, b, now), b, now), b, treasury, now);
    }
  }

  lemma ReserveAddsOne(l: Ledger, l1: Ledger, a: Attempt, now: Millis)
    requires l1.tasks == l.tasks && l1.mandates == l.mandates && l.nextId <= l1.nextId && a.mandateId in l.mandates && a.id !in l.attempts
    requires forall t :: t in l.tasks ==> t < l.nextId
    ensures OneNewDispatch(l, Reserve(l1, a, now).ledger)
  {
    var held := Hold(l1, a, now);
    assert Reserve(l1, a, now).ledger.tasks == l.tasks[held.nextId := Reserve(l1, a, now).ledger.tasks[held.nextId]];
  }

  lemma RunAddsOne(l: Ledger, input: RunInput, generated: string, treasury: Treasury, now: Millis)
    requires Sound(l) && (forall t :: t in l.tasks ==> t < l.nextId) && RunAttempt(l, input, generated, treasury, now).Ok?
    ensures OneNewDispatch(l, RunAttempt(l, input, generated, treasury, now).value.ledger)
  {
    RunIsRepeatOrAdmitted(l, input, generated, treasury, now);
    if RunAttempt(l, input, generated, treasury, now).value.ledger != l {
      var a := AttemptFor(l, input, generated, now);
      AdmittedAddsOne(l, a, FindVendor(a.vendorId).value, treasury, now);
    }
  }

  lemma DoneAddsNone(l: Ledger, t: Id, now: Millis)
    ensures CompleteTask(l, t, now).Ok? ==> OneNewDispatch(l, CompleteTask(l, t, now).value)
    ensures FailTask(l, t, now).Ok? ==> OneNewDispatch(l, FailTask(l, t, now).value)
    ensures RequeueTask(l, t, now).Ok? ==> OneNewDispatch(l, RequeueTask(l, t, now).value)
  {
    if t in l.tasks {
      SameKeysAddNone(l, CompleteTask(l, t, now).value);
      SameKeysAddNone(l, FailTask(l, t, now).value);
      SameKeysAddNone(l, RequeueTask(l, t, now).value);
    }
  }

  lemma BeginAddsNone(l: Ledger, c: Claim, now: Millis)
    requires BeginDispatch(l, c, now).Ok?
    ensures OneNewDispatch(l, BeginDispatch(l, c, now).value)
  {
    SameKeysAddNone(l, BeginDispatch(l, c, now).value);
  }

  lemma ReleaseAddsNone(l: Ledger, c: Claim, reason: BlockedReason, now: Millis)
    requires ReleaseDispatch(l, c, reason, now).Ok?
    ensures OneNewDispatch(l, ReleaseDispatch(l, c, reason, now).value)
  {
    SameKeysAddNone(l, ReleaseDispatch(l, c, reason, now).value);
  }

  lemma ReconciliationAddsNone(l: Ledger, c: Claim, truth: CorrelationResult, now: Millis)
    requires ApplyReconciliationResult(l, c, truth, now).Ok?
    ensures OneNewDispatch(l, ApplyReconciliationResult(l, c, truth, now).value)
  {
    SameKeysAddNone(l, ApplyReconciliationResult(l, c, truth, now).value);
  }

  lemma CreateAddsNone(l: Ledger, input: CreateInput, anchor: Option<string>, now: Millis)
    requires CreateMandate(l, input, anchor, now).Ok?
    ensures OneNewDispatch(l, CreateMandate(l, input, anchor, now).value.ledger)
  {
    SameKeysAddNone(l, CreateMandate(l, input, anchor, now).value.ledger);
  }

  lemma RevokeAddsNone(l: Ledger, m: Id, anchor: Option<string>, now: Millis)
    requires RevokeMandate(l, m, anchor, now).Ok?
    ensures OneNewDispatch(l, RevokeMandate(l, m, anchor, now).value.ledger)
  {
    SameKeysAddNone(l, RevokeMandate(l, m, anchor, now).value.ledger);
  }

  lemma LeaseAddsNone(l: Ledger, t: Id, name: string, now: Millis)
    requires t in l.tasks && LeaseTask(l, t, name, now).Ok?
    ensures OneNewDispatch(l, LeaseTask(l, t, name, now).value.ledger)
  {
    SameKeysAddNone(l, LeaseTask(l, t, name, now).value.ledger);
  }

  lemma ReconcileTaskAddsNone(l: Ledger, l': Ledger, t: Id)
    requires
      || l'.tasks == l.tasks
      || (t in l'.tasks && t !in l.tasks && l'.tasks == l.tasks[t := l'.tasks[t]] && l'.tasks[t].kind == ReconcileAttempt)
    ensures OneNewDispatch(l, l')
  {}

  lemma EnsureAddsNone(l: Ledger, m: Id, a: Id, found: Option<Id>, now: Millis)
    requires (forall t :: t in l.tasks ==> t < l.nextId) && EnsureReconciliationQueued(l, m, a, found, now).Ok?
    ensures OneNewDispatch(l, EnsureReconciliationQueued(l, m, a, found, now).value)
  {
    ReconcileTaskAddsNone(l, EnsureReconciliationQueued(l, m, a, found, now).value, l.nextId);
  }

  lemma DispatchResultAddsNone(l: Ledger, c: Claim, r: DispatchResult, found: Option<Id>, now: Millis)
    requires (forall t :: t in l.tasks ==> t < l.nextId) && ApplyDispatchResult(l, c, r, found, now).Ok?
    ensures OneNewDispatch(l, ApplyDispatchResult(l, c, r, found, now).value)
  {
    ReconcileTaskAddsNone(l, ApplyDispatchResult(l, c, r, found, now).value, l.nextId + 1);
  }

  lemma SettleAddsNone(s: Sys, w: WorkerId, c: Claim, answer: DispatchResult)
    requires forall t :: t in s.ledger.tasks ==> t < s.ledger.nextId
    ensures OneNewDispatch(s.ledger, StepSettle(s, w, c, answer).ledger)
  {
    var found := FindLive(s.ledger.tasks, ReconcileAttempt, c.attemptId);
    if ApplyDispatchResult(s.ledger, c, answer, found, s.now).Ok? {
      DispatchResultAddsNone(s.ledger, c, answer, found, s.now);
    } else {
      SameKeysAddNone(s.ledger, s.ledger);
    }
  }

  lemma BeginStepAddsNone(s: Sys, w: WorkerId, c: Claim)
    ensures OneNewDispatch(s.ledger, StepBegin(s, w, c).ledger)
  {
    SameKeysAddNone(s.ledger, s.ledger);
    if BeginDispatch(s.ledger, c, s.now).Ok? { BeginAddsNone(s.ledger, c, s.now); }
  }

  lemma ReleaseStepAddsNone(s: Sys, w: WorkerId, c: Claim, reason: BlockedReason)
    ensures OneNewDispatch(s.ledger, StepRelease(s, w, c, reason).ledger)
  {
    SameKeysAddNone(s.ledger, s.ledger);
    if ReleaseDispatch(s.ledger, c, reason, s.now).Ok? { ReleaseAddsNone(s.ledger, c, reason, s.now); }
  }

  lemma ReconcileStepAddsNone(s: Sys, w: WorkerId, c: Claim, seen: Attempt, truth: CorrelationResult)
    ensures OneNewDispatch(s.ledger, StepReconcile(s, w, c, seen, truth).ledger)
  {
    SameKeysAddNone(s.ledger, s.ledger);
    if ApplyReconciliationResult(s.ledger, c, truth, s.now).Ok? { ReconciliationAddsNone(s.ledger, c, truth, s.now); }
  }

  lemma AdvanceAddsNone(s: Sys, w: WorkerId)
    requires w in s.workers && forall t :: t in s.ledger.tasks ==> t < s.ledger.nextId
    ensures OneNewDispatch(s.ledger, Advance(s, w, s.workers[w]).ledger)
  {
    if s.workers[w].ExecAnswered? {
      SettleAddsNone(s, w, s.workers[w].claim, s.workers[w].answer);
    } else {
      OtherStepsAddNone(s, w, s.workers[w]);
    }
  }

  lemma OtherStepsAddNone(s: Sys, w: WorkerId, pc: Pc)
    requires !pc.ExecAnswered?
    ensures OneNewDispatch(s.ledger, Advance(s, w, pc).ledger)
  {
    SameKeysAddNone(s.ledger, s.ledger);
    match pc
    case ExecLeased(c) => BeginStepAddsNone(s, w, c);
    case ExecReleasing(c, reason) => ReleaseStepAddsNone(s, w, c, reason);
    case RecAnswered(c, seen, truth) => ReconcileStepAddsNone(s, w, c, seen, truth);
    case ExecSettled(c) => DoneAddsNone(s.ledger, c.taskId, s.now);
    case RecSettled(c, _) => DoneAddsNone(s.ledger, c.taskId, s.now);
    case RecRequeueing(c) => DoneAddsNone(s.ledger, c.taskId, s.now);
    case Failing(c) => DoneAddsNone(s.ledger, c.taskId, s.now);
    case _ =>
  }

  lemma OperatorAddsOne(s: Sys, act: Action)
    requires Inv(s) && (act.Create? || act.Revoke? || act.Run? || act.QueueReconciliation?)
    ensures OneNewDispatch(s.ledger, Do(s, act).ledger)
  {
    TasksBelow(s.ledger);
    SameKeysAddNone(s.ledger, s.ledger);
    match act
    case Create(input, anchor) =>
      if CreateMandate(s.ledger, input, anchor, s.now).Ok? { CreateAddsNone(s.ledger, input, anchor, s.now); }
    case Revoke(m, anchor) =>
      if RevokeMandate(s.ledger, m, anchor, s.now).Ok? { RevokeAddsNone(s.ledger, m, anchor, s.now); }
    case Run(input, generated, treasury) =>
      if RunAttempt(s.ledger, input, generated, treasury, s.now).Ok? { RunAddsOne(s.ledger, input, generated, treasury, s.now); }
    case QueueReconciliation(m, a) =>
      var found := FindLive(s.ledger.tasks, ReconcileAttempt, a);
      if EnsureReconciliationQueued(s.ledger, m, a, found, s.now).Ok? { EnsureAddsNone(s.ledger, m, a, found, s.now); }
  }

  lemma ActionAddsOne(s: Sys, act: Action)
    requires Inv(s)
    ensures OneNewDispatch(s.ledger, Do(s, act).ledger)
  {
    SameKeysAddNone(s.ledger, s.ledger);
    if act.Create? || act.Revoke? || act.Run? || act.QueueReconciliation? {
      OperatorAddsOne(s, act);
    } else if act.Proceed? && act.w in s.workers {
      TasksBelow(s.ledger);
      AdvanceAddsNone(s, act.w);
    } else if act.LeaseNext? && IsNext(s.ledger.tasks, act.kind, s.now, act.task) && LeaseTask(s.ledger, act.task, act.name, s.now).Ok? {
      LeaseAddsNone(s.ledger, act.task, act.name, s.now);
    }
  }

  lemma {:induction false} EveryAttemptHasOneDispatchTask(s0: Sys, acts: seq<Action>)
    requires Init(s0)
    ensures OneDispatchTaskEach(Exec(s0, acts).ledger)
    decreases |acts|
  {
    if acts == [] {
    } else {
      var front := acts[..|acts| - 1];
      EveryAttemptHasOneDispatchTask(s0, front);
      EveryReachableStateIsSafe(s0, front);
      ActionAddsOne(Exec(s0, front), acts[|acts| - 1]);
      OneMoreIsStillOne(Exec(s0, front).ledger, Exec(s0, acts).ledger);
    }
  }

  lemma OneMoreIsStillOne(l: Ledger, l': Ledger)
    requires RefInv(l) && OneDispatchTaskEach(l) && OneNewDispatch(l, l')
    ensures OneDispatchTaskEach(l')
  {
    forall t, u, a | DispatchesFor(l'.tasks, t, a) && DispatchesFor(l'.tasks, u, a) ensures t == u {
      if t in l.tasks {
        assert TaskOk(l.attempts, l.tasks[t], t) && SameWork(l.tasks[t], l'.tasks[t]);
        assert DispatchesFor(l.tasks, t, a);
      }
      if u in l.tasks {
        assert TaskOk(l.attempts, l.tasks[u], u) && SameWork(l.tasks[u], l'.tasks[u]);
        assert DispatchesFor(l.tasks, u, a);
      }
    }
  }

  ghost predicate QueuedFor(l: Ledger, t: Id) {
    t in l.tasks && l.tasks[t].attemptId in l.attempts && l.attempts[l.tasks[t].attemptId].status == DispatchQueued
  }

  /** A reachable store is ready to be drained exactly when its eligible dispatch tasks are for queued attempts;
      what is in the way otherwise is an attempt whose worker died after the move to dispatching. */
  lemma ReadyIffQueued(s0: Sys, acts: seq<Action>, now: Millis)
    requires Init(s0)
    ensures
      var l := Exec(s0, acts).ledger;
      D.Ready(l, now) <==> forall t :: t in D.EligibleTasks(l, now) ==> QueuedFor(l, t)
  {
    EveryReachableStateIsSafe(s0, acts);
    EveryAttemptHasOneDispatchTask(s0, acts);
    ReadyWhenQueued(Exec(s0, acts).ledger, now);
  }

  /** Every reachable store meets what the drain asks of it, and there the loop throws only for a task whose attempt had
      left the queue before the loop began. */
  lemma DrainThrowsOnlyForTheUnqueued(s0: Sys, acts: seq<Action>, handled: seq<Id>, stuck: Id, now: Millis)
    requires Init(s0)
    ensures D.Founded(Exec(s0, acts).ledger, now)
    ensures
      var l := Exec(s0, acts).ledger;
      D.OldestFirst(l, handled + [stuck], now) && D.CannotGoOn(l, handled, stuck) ==> !QueuedFor(l, stuck)
  {
    EveryReachableStateIsSafe(s0, acts);
    EveryAttemptHasOneDispatchTask(s0, acts);
    var l := Exec(s0, acts).ledger;
    forall t | t in D.EligibleTasks(l, now) ensures D.TaskFounded(l, l.tasks[t]) && (D.Waits(l, t) <==> QueuedFor(l, t)) {
      assert TaskOk(l.attempts, l.tasks[t], t);
      assert AttemptOk(l.mandates, l.attempts[l.tasks[t].attemptId], l.tasks[t].attemptId);
    }
    var all := handled + [stuck];
    if D.OldestFirst(l, all, now) {
      assert all[|handled|] == stuck;
      NoneSharesTheAttempt(l, handled, stuck, now);
    }
  }

  lemma NoneSharesTheAttempt(l: Ledger, handled: seq<Id>, stuck: Id, now: Millis)
    requires OneDispatchTaskEach(l) && D.OldestFirst(l, handled + [stuck], now)
    ensures forall u :: u in handled ==> D.AttemptOf(l, u) != D.AttemptOf(l, stuck)
  {
    var all := handled + [stuck];
    forall u | u in handled ensures D.AttemptOf(l, u) != D.AttemptOf(l, stuck) {
      var i :| 0 <= i < |handled| && handled[i] == u;
      assert all[i] == u && all[|handled|] == stuck && all[i] != all[|handled|];
      assert all[i] in D.EligibleTasks(l, now) && all[|handled|] in D.EligibleTasks(l, now);
      assert DispatchesFor(l.tasks, u, l.tasks[u].attemptId) && DispatchesFor(l.tasks, stuck, l.tasks[stuck].attemptId);
    }
  }

  lemma ReadyWhenQueued(l: Ledger, now: Millis)
    requires Sound(l) && RefInv(l) && OneDispatchTaskEach(l)
    ensures D.Ready(l, now) <==> forall t :: t in D.EligibleTasks(l, now) ==> QueuedFor(l, t)
  {
    forall t | t in D.EligibleTasks(l, now)
      ensures D.TaskReady(l, l.tasks[t]) <==> QueuedFor(l, t)
      ensures DispatchesFor(l.tasks, t, l.tasks[t].attemptId)
    {
      assert TaskOk(l.attempts, l.tasks[t], t);
      assert AttemptOk(l.mandates, l.attempts[l.tasks[t].attemptId], l.tasks[t].attemptId);
    }
  }
}

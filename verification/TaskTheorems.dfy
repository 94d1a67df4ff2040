/** What becomes of a task's row, told by the row alone: who may lease it, what its end writes, and that no lease keeps
    it for ever. */
module TaskTheorems {
  import opened Domain
  import opened Ledger
  import opened Entries
  import opened References
  import opened Protocol
  import opened Leases
  import opened System
  import opened Runs

  // ---- leasing ----

  /** Where a worker starts with a claim on a task of this kind. */
  predicate StartsWith(pc: Pc, kind: TaskKind, c: Claim) {
    match kind
    case DispatchAttempt => pc == ExecLeased(c)
    case ReconcileAttempt => pc == RecLeased(c)
  }

  /** Worker `w` has just leased task `t`, and nothing else has changed. */
  ghost predicate JustLeased(s: Sys, s': Sys, w: WorkerId, kind: TaskKind, name: string, t: Id) {
    && t in s.ledger.tasks && t in s'.ledger.tasks && s'.ledger == s.ledger.(tasks := s.ledger.tasks[t := s'.ledger.tasks[t]])
    && w in s'.workers && s' == s.(ledger := s'.ledger, workers := s.workers[w := s'.workers[w]], leasedAt := s.leasedAt[t := s.now])
    && StartsWith(s'.workers[w], kind, s'.workers[w].claim) && s.ledger.tasks[t].attemptId in s.ledger.attempts
    && LeasesRow(s.ledger.tasks[t], s.ledger.attempts[s.ledger.tasks[t].attemptId], s'.ledger.tasks[t], s'.workers[w].claim, name, s.now)
  }

  /** An idle worker leases exactly a task that may be leased when none that may be leased is older. */
  lemma TheOldestIsLeased(s: Sys, w: WorkerId, kind: TaskKind, name: string, t: Id)
    requires Inv(s)
    ensures
      var s' := Do(s, LeaseNext(w, kind, name, t));
      if w !in s.workers && OldestToLease(s.ledger.tasks, kind, s.now, t) then JustLeased(s, s', w, kind, name, t) else s' == s
  {
    if w !in s.workers && OldestToLease(s.ledger.tasks, kind, s.now, t) {
      TaskReferences(s, t);
      LeaseLeasesTheRow(s.ledger, t, name, s.now);
      assert Do(s, LeaseNext(w, kind, name, t)) == StepLease(s, w, kind, name, t);
    }
  }

  lemma LeaseLeasesTheRow(l: Ledger, t: Id, name: string, now: Millis)
    requires t in l.tasks && l.tasks[t].id == t && l.tasks[t].attemptId in l.attempts
    ensures LeaseTask(l, t, name, now).Ok?
    ensures
      var lease := LeaseTask(l, t, name, now).value;
      && t in lease.ledger.tasks && lease.ledger == l.(tasks := l.tasks[t := lease.ledger.tasks[t]])
      && LeasesRow(l.tasks[t], l.attempts[l.tasks[t].attemptId], lease.ledger.tasks[t], lease.claim, name, now)
  {}

  lemma TaskReferences(s: Sys, t: Id)
    requires Inv(s) && t in s.ledger.tasks
    ensures s.ledger.tasks[t].id == t && s.ledger.tasks[t].attemptId in s.ledger.attempts
  {
    assert TaskOk(s.ledger.attempts, s.ledger.tasks[t], t);
  }

  /** While a task may be leased, an idle worker has one to lease. */
  lemma SomethingIsLeased(s: Sys, w: WorkerId, kind: TaskKind, name: string, u: Id) returns (t: Id)
    requires Inv(s) && w !in s.workers && u in s.ledger.tasks && MayBeLeased(s.ledger.tasks[u], kind, s.now)
    ensures JustLeased(s, Do(s, LeaseNext(w, kind, name, t)), w, kind, name, t)
    ensures t in s.ledger.tasks && s.ledger.tasks[t].createdAt <= s.ledger.tasks[u].createdAt
  {
    var ts := set v | v in s.ledger.tasks && MayBeLeased(s.ledger.tasks[v], kind, s.now);
    assert u in ts;
    t := OldestExists(s.ledger.tasks, ts);
    assert forall v :: v in s.ledger.tasks && MayBeLeased(s.ledger.tasks[v], kind, s.now) ==> v in ts;
    TheOldestIsLeased(s, w, kind, name, t);
  }

  // ---- a lease that runs out ----

  /** Half a minute after any moment of any run, every task leased at that moment may be leased again, whoever held it. */
  lemma NoLeaseLastsForEver(s0: Sys, acts: seq<Action>, t: Id)
    requires Init(s0) && t in Exec(s0, acts).ledger.tasks && Exec(s0, acts).ledger.tasks[t].status == Leased
    ensures
      var s := Do(Exec(s0, acts), Tick(30_000));
      t in s.ledger.tasks && MayBeLeased(s.ledger.tasks[t], s.ledger.tasks[t].kind, s.now)
  {
    EveryReachableStateIsSafe(s0, acts);
    var s := Exec(s0, acts);
    LeasedIsTimed(s, t);
  }

  lemma LeasedIsTimed(s: Sys, t: Id)
    requires TInv(s) && t in s.ledger.tasks && s.ledger.tasks[t].status == Leased
    ensures s.ledger.tasks[t].availableAt <= s.now && s.ledger.tasks[t].leaseExpiresAt.Some?
    ensures s.ledger.tasks[t].leaseExpiresAt.value <= s.now + 30_000
  {
    assert TaskTimed(s.ledger.tasks[t], s.leasedAt, s.now);
  }

  /** The worker dies with its lease, and half a minute passes. */
  ghost function AfterDeath(s: Sys, w: WorkerId): Sys {
    Do(Do(s, Dies(w)), Tick(30_000))
  }

  lemma DeathKeepsTheLedger(s: Sys, w: WorkerId)
    ensures AfterDeath(s, w).ledger == s.ledger && AfterDeath(s, w).now == s.now + 30_000
    ensures w !in AfterDeath(s, w).workers && forall v :: v !in s.workers ==> v !in AfterDeath(s, w).workers
  {}

  /** A dead worker's task can be leased again half a minute later, by any idle worker, once no older task waits. */
  lemma DeadWorkersTaskIsTakenOver(s0: Sys, acts: seq<Action>, w: WorkerId, v: WorkerId, name: string)
    requires Init(s0) && w in Exec(s0, acts).workers && (v == w || v !in Exec(s0, acts).workers)
    requires
      var s := Exec(s0, acts);
      s.workers[w].claim.taskId in s.ledger.tasks && s.ledger.tasks[s.workers[w].claim.taskId].status == Leased
    ensures
      var s, t := AfterDeath(Exec(s0, acts), w), Exec(s0, acts).workers[w].claim.taskId;
      && t in s.ledger.tasks
      && var kind := s.ledger.tasks[t].kind;
      && MayBeLeased(s.ledger.tasks[t], kind, s.now)
      && ((forall u :: u in s.ledger.tasks && MayBeLeased(s.ledger.tasks[u], kind, s.now) ==>
             s.ledger.tasks[t].createdAt <= s.ledger.tasks[u].createdAt)
          ==> JustLeased(s, Do(s, LeaseNext(v, kind, name, t)), v, kind, name, t))
  {
    EveryReachableStateIsSafe(s0, acts);
    var s1 := Exec(s0, acts);
    var s, t := AfterDeath(s1, w), s1.workers[w].claim.taskId;
    DeathKeepsTheLedger(s1, w);
    LeasedIsTimed(s1, t);
    ActionKeeps(s1, Dies(w));
    ActionKeeps(Do(s1, Dies(w)), Tick(30_000));
    TheOldestIsLeased(s, v, s.ledger.tasks[t].kind, name, t);
  }

  // ---- the end of a task ----

  /** The task alone changes, and one entry says so. */
  ghost predicate TaskEnds(l: Ledger, l': Ledger, t: Id, after: Task, kind: EventKind, now: Millis) {
    && l'.mandates == l.mandates && l'.attempts == l.attempts && l'.agents == l.agents && l'.tasks == l.tasks[t := after]
    && Writes(l, l', [], [EventNote(OfTask, t, kind)], now)
  }

  lemma TaskWrites(l: Ledger, t: Id, after: Task, kind: EventKind, now: Millis)
    ensures TaskEnds(l, WithEvent(l.(tasks := l.tasks[t := after]), OfTask, t, kind, now), t, after, kind, now)
  {
    var l1 := l.(tasks := l.tasks[t := after]);
    NothingWritten(l, l1, now);
    EventWritten(l, l1, [], [], OfTask, t, kind, now);
  }

  /** Completing, failing and requeueing a task ask only that it exists: neither who leased it nor its status counts. Each
      drops the lease; a requeued task waits half a minute. */
  lemma TasksEndUnguarded(l: Ledger, t: Id, now: Millis)
    ensures
      if t !in l.tasks then
        && CompleteTask(l, t, now) == Err(NotFound) && FailTask(l, t, now) == Err(NotFound) && RequeueTask(l, t, now) == Err(NotFound)
      else
        var free := l.tasks[t].(leaseOwner := None, leaseExpiresAt := None, updatedAt := now);
        && CompleteTask(l, t, now).Ok? && FailTask(l, t, now).Ok? && RequeueTask(l, t, now).Ok?
        && TaskEnds(l, CompleteTask(l, t, now).value, t, free.(status := Completed, completedAt := Some(now)), EvtTaskCompleted, now)
        && TaskEnds(l, FailTask(l, t, now).value, t, free.(status := Failed, completedAt := Some(now)), EvtTaskFailed, now)
        && TaskEnds(l, RequeueTask(l, t, now).value, t, free.(status := Queued, availableAt := now + 30_000), EvtTaskRequeued, now)
  {
    if t in l.tasks {
      var free := l.tasks[t].(leaseOwner := None, leaseExpiresAt := None, updatedAt := now);
      TaskWrites(l, t, free.(status := Completed, completedAt := Some(now)), EvtTaskCompleted, now);
      TaskWrites(l, t, free.(status := Failed, completedAt := Some(now)), EvtTaskFailed, now);
      TaskWrites(l, t, free.(status := Queued, availableAt := now + 30_000), EvtTaskRequeued, now);
    }
  }
}

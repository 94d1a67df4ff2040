/** Main results about time: leases of one task keep their distance, and retries are bounded. */
module LeaseTheorems {
  import opened Domain
  import opened Entries
  import opened Protocol
  import opened Leases
  import opened System
  import opened Runs
  import opened UnresolvedTheorems

  // ---- leases ----

  ghost predicate LeasesTask(s: Sys, act: Action, t: Id) {
    act.LeaseNext? && act.task == t && act.w !in s.workers && OldestToLease(s.ledger.tasks, act.kind, s.now, t)
  }

  /** The times at which task `t` was leased in a run, oldest first. */
  ghost function LeaseTimes(s: Sys, acts: seq<Action>, t: Id): seq<Millis>
    decreases |acts|
  {
    if acts == [] then []
    else
      var front := acts[..|acts| - 1];
      var s1 := Exec(s, front);
      LeaseTimes(s, front, t) + if LeasesTask(s1, acts[|acts| - 1], t) then [s1.now] else []
  }

  lemma LeaseIsRecorded(s: Sys, act: Action, t: Id)
    requires Inv(s)
    ensures
      var at, at' := s.leasedAt, Do(s, act).leasedAt;
      if LeasesTask(s, act, t) then t in at' && at'[t] == s.now
      else (t in at' <==> t in at) && (t in at ==> at'[t] == at[t])
  {
    if act.LeaseNext? && act.w !in s.workers && OldestToLease(s.ledger.tasks, act.kind, s.now, act.task) {
      assert StartsAfter(s.ledger.attempts, s.ledger.tasks[act.task]);
    } else if act.Proceed? && act.w in s.workers {
      AdvanceLeasesNothing(s, act.w, s.workers[act.w]);
    }
  }

  lemma AdvanceLeasesNothing(s: Sys, w: WorkerId, pc: Pc)
    ensures Advance(s, w, pc).leasedAt == s.leasedAt
  {}

  /** Each at least a lease period after the one before, the last one on record. */
  ghost predicate Spaced(times: seq<Millis>, at: map<Id, Millis>, t: Id) {
    && (forall i :: 0 <= i < |times| - 1 ==> times[i] + 30_000 <= times[i + 1])
    && (times == [] <==> t !in at) && (times != [] ==> times[|times| - 1] == at[t])
  }

  lemma LeaseStaysSpaced(s: Sys, act: Action, t: Id, times: seq<Millis>)
    requires Inv(s) && LeasesTask(s, act, t) && Spaced(times, s.leasedAt, t)
    ensures Spaced(times + [s.now], Do(s, act).leasedAt, t)
  {
    LeaseIsRecorded(s, act, t);
    EligibleMeansRested(s, act.kind, t);
  }

  /** Consecutive leases of one task are at least a lease period apart, under every interleaving. */
  lemma {:induction false} LeasesKeepTheirDistance(s0: Sys, acts: seq<Action>, t: Id)
    requires Init(s0)
    ensures Spaced(LeaseTimes(s0, acts, t), Exec(s0, acts).leasedAt, t)
    decreases |acts|
  {
    if acts == [] {
    } else {
      var front, act := acts[..|acts| - 1], acts[|acts| - 1];
      LeasesKeepTheirDistance(s0, front, t);
      EveryReachableStateIsSafe(s0, front);
      if LeasesTask(Exec(s0, front), act, t) {
        LeaseStaysSpaced(Exec(s0, front), act, t, LeaseTimes(s0, front, t));
      } else {
        LeaseIsRecorded(Exec(s0, front), act, t);
      }
    }
  }

  // ---- retries ----

  predicate RequeuesTask(s: Sys, act: Action, t: Id) {
    act.Proceed? && act.w in s.workers && s.workers[act.w].RecRequeueing? && s.workers[act.w].claim.taskId == t
  }

  ghost function RequeueCount(s: Sys, acts: seq<Action>, t: Id): nat
    decreases |acts|
  {
    if acts == [] then 0
    else
      var front := acts[..|acts| - 1];
      RequeueCount(s, front, t) + if RequeuesTask(Exec(s, front), acts[|acts| - 1], t) then 1 else 0
  }

  /** The lease numbers with which task `t` was requeued. */
  function NumbersOf(requeues: seq<Requeue>, t: Id): set<nat> {
    if requeues == [] then {}
    else
      var last := requeues[|requeues| - 1];
      NumbersOf(requeues[..|requeues| - 1], t) + if last.taskId == t then {last.leaseNo} else {}
  }

  lemma {:induction false} NumbersAreRecorded(requeues: seq<Requeue>, t: Id)
    ensures forall n :: n in NumbersOf(requeues, t) <==> Requeue(t, n) in requeues
  {
    if requeues == [] {
    } else {
      var front, last := requeues[..|requeues| - 1], requeues[|requeues| - 1];
      NumbersAreRecorded(front, t);
      assert requeues == front + [last];
    }
  }

  lemma {:induction false} NumbersUpTo(numbers: set<nat>, bound: nat)
    requires forall n :: n in numbers ==> 1 <= n <= bound
    ensures |numbers| <= bound
    decreases bound
  {
    if bound == 0 {
      assert numbers == {};
    } else {
      NumbersUpTo(numbers - {bound}, bound - 1);
      assert numbers <= (numbers - {bound}) + {bound};
    }
  }

  lemma OnlyWorkersRequeue(s: Sys, act: Action)
    requires !(act.Proceed? && act.w in s.workers)
    ensures Do(s, act).requeues == s.requeues
  {}

  lemma RequeueIsRecorded(s: Sys, act: Action, t: Id)
    requires Inv(s)
    ensures
      if RequeuesTask(s, act, t) then Do(s, act).requeues == s.requeues + [Requeue(t, s.workers[act.w].claim.leaseNo)]
      else NumbersOf(Do(s, act).requeues, t) == NumbersOf(s.requeues, t)
  {
    if act.Proceed? && act.w in s.workers {
      PlaceIsTimed(s, act.w);
      var pc := s.workers[act.w];
      AdvanceRequeues(s, act.w, pc);
      if pc.RecRequeueing? {
        OneMoreNumber(s.requeues, Requeue(pc.claim.taskId, pc.claim.leaseNo), t);
      } else {
        assert s.requeues + [] == s.requeues;
      }
    } else {
      OnlyWorkersRequeue(s, act);
    }
  }

  lemma OneMoreNumber(requeues: seq<Requeue>, r: Requeue, t: Id)
    ensures NumbersOf(requeues + [r], t) == NumbersOf(requeues, t) + if r.taskId == t then {r.leaseNo} else {}
  {
    assert (requeues + [r])[..|requeues|] == requeues;
  }

  lemma AdvanceRequeues(s: Sys, w: WorkerId, pc: Pc)
    requires pc.claim.taskId in s.ledger.tasks
    ensures Advance(s, w, pc).requeues ==
            s.requeues + if pc.RecRequeueing? then [Requeue(pc.claim.taskId, pc.claim.leaseNo)] else []
  {}

  lemma {:induction false} EachRequeueHasItsNumber(s0: Sys, acts: seq<Action>, t: Id)
    requires Init(s0)
    ensures RequeueCount(s0, acts, t) == |NumbersOf(Exec(s0, acts).requeues, t)|
    decreases |acts|
  {
    if acts == [] {
    } else {
      var front, act := acts[..|acts| - 1], acts[|acts| - 1];
      var s1 := Exec(s0, front);
      EachRequeueHasItsNumber(s0, front, t);
      EveryReachableStateIsSafe(s0, front);
      RequeueIsRecorded(s1, act, t);
      NumbersAreRecorded(s1.requeues, t);
      if RequeuesTask(s1, act, t) {
        assert Uses(s1.workers, act.w, t, s1.workers[act.w].claim.leaseNo);
        var after := Exec(s0, acts).requeues;
        assert after[..|after| - 1] == s1.requeues;
      }
    }
  }

  /** In every run a reconcile task is requeued at most thirty times: later leases fall outside the quarter of an
      hour that starts when its attempt became execution_unknown. */
  lemma RequeuesAreBounded(s0: Sys, acts: seq<Action>, t: Id)
    requires Init(s0)
    ensures RequeueCount(s0, acts, t) <= 30
  {
    EveryReachableStateIsSafe(s0, acts);
    var s := Exec(s0, acts);
    EachRequeueHasItsNumber(s0, acts, t);
    NumbersAreRecorded(s.requeues, t);
    forall n | n in NumbersOf(s.requeues, t) ensures 1 <= n <= 30 {
      assert RequeueOk(s.ledger.tasks, Requeue(t, n));
    }
    NumbersUpTo(NumbersOf(s.requeues, t), 30);
  }

  /** A worker whose reconciliation failed tries again exactly if its copy is of an unresolved attempt and the quarter of
      an hour since that attempt became execution_unknown, which was before its task was made, is not over; otherwise it
      fails the task. */
  lemma RequeueIsDecidedInTheWindow(s0: Sys, acts: seq<Action>, w: WorkerId)
    requires Init(s0) && w in Exec(s0, acts).workers && Exec(s0, acts).workers[w].RecCaught?
    ensures
      var s := Exec(s0, acts);
      var pc := s.workers[w];
      var since := BecameUnknownAt(s0, acts, pc.claim.attemptId);
      && pc.claim.taskId in s.ledger.tasks
      && (if pc.seen.status == ExecutionUnknown then
            && since.Some? && since.value <= s.ledger.tasks[pc.claim.taskId].createdAt
            && Do(s, Proceed(w)) == s.(workers := s.workers[w :=
                 if s.now < since.value + 900_000 then RecRequeueing(pc.claim) else Failing(pc.claim)])
          else Do(s, Proceed(w)) == s.(workers := s.workers[w := Failing(pc.claim)]))
  {
    EveryReachableStateIsSafe(s0, acts);
    PlaceIsTimed(Exec(s0, acts), w);
    if Exec(s0, acts).workers[w].seen.status == ExecutionUnknown {
      CopyKeepsTheMoment(s0, acts, w);
    }
  }
}

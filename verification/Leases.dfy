/** Time: two leases of a task are a lease period apart under every interleaving, stale workers included,
    and so a reconcile task is requeued at most thirty times. */
module Leases {
  import opened Domain
  import opened Policy
  import opened Ledger
  import opened Entries
  import opened Protocol
  import opened Workers

  const MAX_REQUEUES: nat := 30

  /** When the n-th lease of a task can happen at the earliest. */
  function Earliest(createdAt: Millis, leaseNo: nat): Millis {
    createdAt + WORKER_LEASE_MS * (leaseNo as int - 1)
  }

  ghost predicate TaskTimed(t: Task, at: map<Id, Millis>, now: Millis) {
    && t.createdAt <= now
    && (t.attemptCount == 0 <==> t.id !in at)
    && (t.status == Leased ==> t.id in at && t.availableAt <= now)
    && (t.id in at ==>
          && Earliest(t.createdAt, t.attemptCount) <= at[t.id] <= now
          && (t.status == Leased ==> t.leaseExpiresAt == Some(at[t.id] + WORKER_LEASE_MS))
          && (t.status == Queued ==> at[t.id] + WORKER_LEASE_MS <= t.availableAt))
  }

  ghost predicate Unresolved(a: Attempt) {
    a.status == ExecutionUnknown
  }

  /** A reconcile task is younger than the moment its attempt became execution_unknown. */
  ghost predicate StartsAfter(ats: map<Id, Attempt>, t: Task) {
    t.attemptId in ats && (t.kind == ReconcileAttempt && Unresolved(ats[t.attemptId]) ==> ats[t.attemptId].updatedAt <= t.createdAt)
  }

  predicate HasSeen(pc: Pc) {
    pc.RecRead? || pc.RecReady? || pc.RecAnswered? || pc.RecSettled? || pc.RecCaught?
  }

  ghost predicate PcTimed(ts: map<Id, Task>, now: Millis, pc: Pc) {
    var c := pc.claim;
    && c.taskId in ts && 1 <= c.leaseNo <= ts[c.taskId].attemptCount
    && Earliest(ts[c.taskId].createdAt, c.leaseNo) <= now
    && (HasSeen(pc) && Unresolved(pc.seen) ==> pc.seen.updatedAt <= ts[c.taskId].createdAt)
    && (pc.RecRequeueing? ==> c.leaseNo <= MAX_REQUEUES)
  }

  ghost predicate Uses(ws: map<WorkerId, Pc>, w: WorkerId, t: Id, n: nat) {
    w in ws && ws[w].claim.taskId == t && ws[w].claim.leaseNo == n
  }

  /** Every lease is used by one worker, and requeues at most once. */
  ghost predicate LeasesOnce(ws: map<WorkerId, Pc>, requeues: seq<Requeue>) {
    && (forall v, w, t, n: nat :: Uses(ws, v, t, n) && Uses(ws, w, t, n) ==> v == w)
    && (forall w, t, n: nat :: Uses(ws, w, t, n) ==> Requeue(t, n) !in requeues)
    && (forall i, j :: 0 <= i < j < |requeues| ==> requeues[i] != requeues[j])
  }

  ghost predicate RequeueOk(ts: map<Id, Task>, r: Requeue) {
    r.taskId in ts && 1 <= r.leaseNo <= MAX_REQUEUES && r.leaseNo <= ts[r.taskId].attemptCount
  }

  ghost predicate RowsTimed(l: Ledger, at: map<Id, Millis>, now: Millis) {
    && (forall t {:trigger TaskTimed(l.tasks[t], at, now)} :: t in l.tasks ==> l.tasks[t].id == t && TaskTimed(l.tasks[t], at, now))
    && (forall t {:trigger StartsAfter(l.attempts, l.tasks[t])} :: t in l.tasks ==> StartsAfter(l.attempts, l.tasks[t]))
    && (forall a :: a in l.attempts ==> l.attempts[a].updatedAt <= now)
    && (forall t :: t in at ==> t in l.tasks)
    && (forall t :: t in l.tasks ==> t < l.nextId)
  }

  ghost predicate PlacesTimed(s: Sys) {
    forall w {:trigger PcTimed(s.ledger.tasks, s.now, s.workers[w])} :: w in s.workers ==> PcTimed(s.ledger.tasks, s.now, s.workers[w])
  }

  ghost predicate RequeuesOk(ts: map<Id, Task>, requeues: seq<Requeue>) {
    forall r {:trigger RequeueOk(ts, r)} :: r in requeues ==> RequeueOk(ts, r)
  }

  ghost predicate TInv(s: Sys) {
    && RowsTimed(s.ledger, s.leasedAt, s.now) && PlacesTimed(s)
    && LeasesOnce(s.workers, s.requeues) && RequeuesOk(s.ledger.tasks, s.requeues)
  }

  // ---- the heart: leases keep their distance ----

  /** A task that may be leased was last leased at least a lease period ago, however it came to that. */
  lemma EligibleMeansRested(s: Sys, kind: TaskKind, t: Id)
    requires TInv(s) && t in s.ledger.tasks && MayBeLeased(s.ledger.tasks[t], kind, s.now)
    ensures t in s.leasedAt ==> s.leasedAt[t] + WORKER_LEASE_MS <= s.now
  {
    assert TaskTimed(s.ledger.tasks[t], s.leasedAt, s.now);
  }

  // ---- preservation ----

  /** A transaction that neither leases nor requeues: old tasks keep their times, new ones are fresh. */
  ghost predicate KeepsTimes(l: Ledger, l': Ledger, now: Millis) {
    && l.nextId <= l'.nextId && l.tasks.Keys <= l'.tasks.Keys && l.attempts.Keys <= l'.attempts.Keys
    && (forall t {:trigger SameTimes(l.tasks[t], l'.tasks[t])} :: t in l.tasks ==> SameTimes(l.tasks[t], l'.tasks[t]))
    && (forall t {:trigger StartsNow(l'.tasks[t], t, now)} :: t in l'.tasks && t !in l.tasks ==>
          l.nextId <= t < l'.nextId && StartsNow(l'.tasks[t], t, now) && l'.tasks[t].attemptId in l'.attempts)
    && (forall a {:trigger StaysUnresolved(l.attempts[a], l'.attempts[a], now)} :: a in l.attempts ==>
          StaysUnresolved(l.attempts[a], l'.attempts[a], now))
    && (forall a :: a in l'.attempts && a !in l.attempts ==> l'.attempts[a].updatedAt <= now)
    && (forall t {:trigger TurnsUnresolved(l.attempts, l'.attempts, l.tasks[t])} :: t in l.tasks ==>
          !TurnsUnresolved(l.attempts, l'.attempts, l.tasks[t]))
  }

  ghost predicate StartsNow(t: Task, id: Id, now: Millis) {
    t.id == id && t.attemptCount == 0 && t.status == Queued && t.createdAt == now
  }

  /** An attempt with a reconcile task would become unresolved again. */
  ghost predicate TurnsUnresolved(ats: map<Id, Attempt>, ats': map<Id, Attempt>, t: Task) {
    && t.kind == ReconcileAttempt && t.attemptId in ats && t.attemptId in ats'
    && !Unresolved(ats[t.attemptId]) && Unresolved(ats'[t.attemptId])
  }

  ghost predicate SameTimes(t: Task, u: Task) {
    && u.id == t.id && u.kind == t.kind && u.attemptId == t.attemptId && u.createdAt == t.createdAt
    && u.attemptCount == t.attemptCount
    && (|| (u.status == t.status && u.leaseExpiresAt == t.leaseExpiresAt && u.availableAt == t.availableAt)
        || u.status == Completed || u.status == Failed)
  }

  /** An unresolved attempt keeps its time stamp until it is resolved. */
  ghost predicate StaysUnresolved(a: Attempt, b: Attempt, now: Millis) {
    b == a || (b.updatedAt == now && (Unresolved(a) ==> !Unresolved(b)))
  }

  lemma TimesKept(s: Sys, l': Ledger)
    requires TInv(s) && KeepsTimes(s.ledger, l', s.now)
    ensures TInv(s.(ledger := l'))
  {
    var l := s.ledger;
    forall t | t in l'.tasks ensures l'.tasks[t].id == t && TaskTimed(l'.tasks[t], s.leasedAt, s.now) {
      if t in l.tasks {
        assert TaskTimed(l.tasks[t], s.leasedAt, s.now) && SameTimes(l.tasks[t], l'.tasks[t]);
      } else {
        assert StartsNow(l'.tasks[t], t, s.now);
      }
    }
    forall a | a in l'.attempts ensures l'.attempts[a].updatedAt <= s.now {
      if a in l.attempts { assert StaysUnresolved(l.attempts[a], l'.attempts[a], s.now); }
    }
    forall t | t in l'.tasks ensures StartsAfter(l'.attempts, l'.tasks[t]) {
      if t in l.tasks {
        assert StartsAfter(l.attempts, l.tasks[t]) && SameTimes(l.tasks[t], l'.tasks[t]);
        assert StaysUnresolved(l.attempts[l.tasks[t].attemptId], l'.attempts[l.tasks[t].attemptId], s.now);
        assert !TurnsUnresolved(l.attempts, l'.attempts, l.tasks[t]);
      } else {
        assert StartsNow(l'.tasks[t], t, s.now);
      }
    }
    forall w | w in s.workers ensures PcTimed(l'.tasks, s.now, s.workers[w]) {
      assert PcTimed(l.tasks, s.now, s.workers[w]) && SameTimes(l.tasks[s.workers[w].claim.taskId], l'.tasks[s.workers[w].claim.taskId]);
    }
    forall r | r in s.requeues ensures RequeueOk(l'.tasks, r) {
      assert RequeueOk(l.tasks, r) && SameTimes(l.tasks[r.taskId], l'.tasks[r.taskId]);
    }
    forall t | t in l'.tasks ensures t < l'.nextId {
      if t !in l.tasks { assert StartsNow(l'.tasks[t], t, s.now); }
    }
  }

  lemma TickKeepsTimes(s: Sys, elapsed: nat)
    requires TInv(s)
    ensures TInv(s.(now := s.now + elapsed))
  {
    var s' := s.(now := s.now + elapsed);
    forall t | t in s.ledger.tasks ensures s.ledger.tasks[t].id == t && TaskTimed(s.ledger.tasks[t], s.leasedAt, s'.now) {
      assert TaskTimed(s.ledger.tasks[t], s.leasedAt, s.now);
    }
    forall w | w in s.workers ensures PcTimed(s.ledger.tasks, s'.now, s.workers[w]) {
      assert PcTimed(s.ledger.tasks, s.now, s.workers[w]);
    }
  }

  /** A step of one worker that leaves ledger and leases alone. */
  lemma MoveOnKeepsTimes(s: Sys, w: WorkerId, pc': Pc)
    requires TInv(s) && w in s.workers && pc'.claim == s.workers[w].claim && PcTimed(s.ledger.tasks, s.now, pc')
    ensures TInv(To(s, w, pc'))
  {
    var s' := To(s, w, pc');
    forall v | v in s'.workers ensures PcTimed(s.ledger.tasks, s.now, s'.workers[v]) {
      if v != w { assert PcTimed(s.ledger.tasks, s.now, s.workers[v]); }
    }
    assert forall v, t, n: nat :: Uses(s'.workers, v, t, n) <==> Uses(s.workers, v, t, n);
  }

  lemma LeavingKeepsTimes(s: Sys, w: WorkerId)
    requires TInv(s)
    ensures TInv(Idle(s, w))
  {
    var s' := Idle(s, w);
    forall v | v in s'.workers ensures PcTimed(s.ledger.tasks, s.now, s'.workers[v]) {
      assert PcTimed(s.ledger.tasks, s.now, s.workers[v]);
    }
    assert forall v, t, n: nat :: Uses(s'.workers, v, t, n) ==> Uses(s.workers, v, t, n);
  }

  lemma LeaseKeepsRows(s: Sys, kind: TaskKind, name: string, t: Id)
    requires TInv(s) && IsNext(s.ledger.tasks, kind, s.now, t)
    ensures LeaseTask(s.ledger, t, name, s.now).Ok?
    ensures RowsTimed(LeaseTask(s.ledger, t, name, s.now).value.ledger, s.leasedAt[t := s.now], s.now)
  {
    var l := s.ledger;
    assert TaskTimed(l.tasks[t], s.leasedAt, s.now) && StartsAfter(l.attempts, l.tasks[t]);
    EligibleMeansRested(s, kind, t);
    var l' := LeaseTask(l, t, name, s.now).value.ledger;
    forall u | u in l'.tasks ensures l'.tasks[u].id == u && TaskTimed(l'.tasks[u], s.leasedAt[t := s.now], s.now) {
      if u != t { assert TaskTimed(l.tasks[u], s.leasedAt, s.now); }
    }
    forall u | u in l'.tasks ensures StartsAfter(l'.attempts, l'.tasks[u]) {
      assert StartsAfter(l.attempts, l.tasks[u]);
    }
  }

  /** A new lease has a number no worker and no requeue has used. */
  lemma LeaseIsNew(s: Sys, w: WorkerId, pc: Pc, t: Id)
    requires TInv(s) && w !in s.workers && t in s.ledger.tasks
    requires pc.claim.taskId == t && pc.claim.leaseNo == s.ledger.tasks[t].attemptCount + 1
    ensures LeasesOnce(s.workers[w := pc], s.requeues)
  {
    var n0 := s.ledger.tasks[t].attemptCount + 1;
    var ws' := s.workers[w := pc];
    forall v | v in s.workers && s.workers[v].claim.taskId == t ensures s.workers[v].claim.leaseNo < n0 {
      assert PcTimed(s.ledger.tasks, s.now, s.workers[v]);
    }
    forall r | r in s.requeues ensures r != Requeue(t, n0) {
      assert RequeueOk(s.ledger.tasks, r);
    }
    forall v, u, n: nat | Uses(ws', v, u, n) ensures if v == w then u == t && n == n0 else Uses(s.workers, v, u, n) {}
  }

  lemma LeaseKeepsTimes(s: Sys, w: WorkerId, kind: TaskKind, name: string, t: Id)
    requires TInv(s) && w !in s.workers && IsNext(s.ledger.tasks, kind, s.now, t)
    ensures TInv(StepLease(s, w, kind, name, t))
  {
    var l := s.ledger;
    assert TaskTimed(l.tasks[t], s.leasedAt, s.now);
    LeaseKeepsRows(s, kind, name, t);
    var s' := StepLease(s, w, kind, name, t);
    LeaseIsNew(s, w, s'.workers[w], t);
    LeaseKeepsPlaces(s, s', w, t);
  }

  lemma LeaseKeepsPlaces(s: Sys, s': Sys, w: WorkerId, t: Id)
    requires PlacesTimed(s) && RequeuesOk(s.ledger.tasks, s.requeues) && s'.now == s.now && s'.requeues == s.requeues
    requires t in s.ledger.tasks && t in s'.ledger.tasks && w in s'.workers
    requires s'.workers == s.workers[w := s'.workers[w]] && s'.ledger.tasks == s.ledger.tasks[t := s'.ledger.tasks[t]]
    requires s'.ledger.tasks[t].createdAt == s.ledger.tasks[t].createdAt
    requires s'.ledger.tasks[t].attemptCount == s.ledger.tasks[t].attemptCount + 1
    requires PcTimed(s'.ledger.tasks, s'.now, s'.workers[w])
    ensures PlacesTimed(s') && RequeuesOk(s'.ledger.tasks, s'.requeues)
  {
    forall v | v in s'.workers ensures PcTimed(s'.ledger.tasks, s'.now, s'.workers[v]) {
      if v != w { assert PcTimed(s.ledger.tasks, s.now, s.workers[v]); }
    }
    forall r | r in s.requeues ensures RequeueOk(s'.ledger.tasks, r) {
      assert RequeueOk(s.ledger.tasks, r);
    }
  }

  lemma RequeueKeepsRows(s: Sys, t: Id)
    requires RowsTimed(s.ledger, s.leasedAt, s.now) && t in s.ledger.tasks
    ensures RowsTimed(RequeueTask(s.ledger, t, s.now).value, s.leasedAt, s.now)
  {
    var l, l' := s.ledger, RequeueTask(s.ledger, t, s.now).value;
    forall u | u in l'.tasks ensures l'.tasks[u].id == u && TaskTimed(l'.tasks[u], s.leasedAt, s.now) {
      assert TaskTimed(l.tasks[u], s.leasedAt, s.now);
    }
    forall u | u in l'.tasks ensures StartsAfter(l'.attempts, l'.tasks[u]) {
      assert StartsAfter(l.attempts, l.tasks[u]);
    }
  }

  /** A worker that requeues leaves, and uses its lease number up. */
  lemma RequeueUsesLease(ws: map<WorkerId, Pc>, requeues: seq<Requeue>, w: WorkerId)
    requires LeasesOnce(ws, requeues) && w in ws
    ensures LeasesOnce(ws - {w}, requeues + [Requeue(ws[w].claim.taskId, ws[w].claim.leaseNo)])
  {
    assert Uses(ws, w, ws[w].claim.taskId, ws[w].claim.leaseNo);
    assert forall v, u, n: nat :: Uses(ws - {w}, v, u, n) ==> Uses(ws, v, u, n) && v != w;
  }

  /** The requeue of a worker whose lease is one of the first thirty. */
  lemma RequeueKeepsTimes(s: Sys, w: WorkerId, c: Claim)
    requires TInv(s) && w in s.workers && s.workers[w] == RecRequeueing(c)
    ensures TInv(StepRequeue(s, w, c))
  {
    var l := s.ledger;
    assert PcTimed(l.tasks, s.now, s.workers[w]);
    RequeueKeepsRows(s, c.taskId);
    RequeueUsesLease(s.workers, s.requeues, w);
    var s' := StepRequeue(s, w, c);
    forall v | v in s'.workers ensures PcTimed(s'.ledger.tasks, s'.now, s'.workers[v]) {
      assert PcTimed(l.tasks, s.now, s.workers[v]);
    }
    forall r | r in s'.requeues ensures RequeueOk(s'.ledger.tasks, r) {
      if r in s.requeues { assert RequeueOk(l.tasks, r); }
    }
  }

  /** Only inside the window, counted from the moment the attempt was seen unresolved, is a requeue decided. */
  lemma CaughtKeepsTimes(s: Sys, w: WorkerId, c: Claim, seen: Attempt)
    requires TInv(s) && w in s.workers && s.workers[w] == RecCaught(c, seen)
    ensures TInv(StepCaught(s, w, c, seen))
  {
    assert PcTimed(s.ledger.tasks, s.now, s.workers[w]);
    MoveOnKeepsTimes(s, w, StepCaught(s, w, c, seen).workers[w]);
  }

  lemma ReadKeepsTimes(s: Sys, w: WorkerId, c: Claim)
    requires TInv(s) && w in s.workers && s.workers[w] == RecLeased(c)
    requires c.taskId in s.ledger.tasks && s.ledger.tasks[c.taskId].attemptId == c.attemptId
    requires s.ledger.tasks[c.taskId].kind == ReconcileAttempt
    ensures TInv(StepRead(s, w, c))
  {
    assert PcTimed(s.ledger.tasks, s.now, s.workers[w]);
    assert StartsAfter(s.ledger.attempts, s.ledger.tasks[c.taskId]);
    MoveOnKeepsTimes(s, w, StepRead(s, w, c).workers[w]);
  }

  // ---- the transactions that keep the times ----

  lemma MandatesKeepTimes(l: Ledger, l': Ledger, now: Millis)
    requires l'.tasks == l.tasks && l'.attempts == l.attempts && l.nextId <= l'.nextId
    ensures KeepsTimes(l, l', now)
  {}

  lemma TaskEndKeepsTimes(l: Ledger, l': Ledger, t: Id, now: Millis)
    requires t in l.tasks && t in l'.tasks && l'.tasks == l.tasks[t := l'.tasks[t]] && SameTimes(l.tasks[t], l'.tasks[t])
    requires l'.attempts == l.attempts && l.nextId <= l'.nextId
    ensures KeepsTimes(l, l', now)
  {}

  lemma AttemptMoveKeepsTimes(l: Ledger, l': Ledger, a: Id, now: Millis)
    requires a in l.attempts && a in l'.attempts && l'.attempts == l.attempts[a := l'.attempts[a]]
    requires StaysUnresolved(l.attempts[a], l'.attempts[a], now) && !Unresolved(l'.attempts[a])
    requires l'.tasks == l.tasks && l.nextId <= l'.nextId
    ensures KeepsTimes(l, l', now)
  {}

  lemma NewTaskKeepsTimes(l: Ledger, l': Ledger, t: Id, now: Millis)
    requires t == l.nextId && t in l'.tasks && l'.tasks == l.tasks[t := l'.tasks[t]] && StartsNow(l'.tasks[t], t, now)
    requires l'.tasks[t].attemptId in l.attempts && l'.attempts == l.attempts && t < l'.nextId
    requires forall u :: u in l.tasks ==> u < l.nextId
    ensures KeepsTimes(l, l', now)
  {}

  lemma UnknownKeepsTimes(l: Ledger, c: Claim, r: DispatchResult, found: Option<Id>, now: Millis)
    requires ApplyDispatchResult(l, c, r, found, now).Ok? && r.DispatchUnknown?
    requires TasksOk(l.attempts, l.tasks) && l.attempts[c.attemptId].status == Dispatching
    requires FindsLive(l.tasks, ReconcileAttempt, c.attemptId, found) && forall u :: u in l.tasks ==> u < l.nextId
    ensures found.None? && KeepsTimes(l, ApplyDispatchResult(l, c, r, found, now).value, now)
  {
    forall t ensures !LiveTask(l.tasks, t, ReconcileAttempt, c.attemptId) {
      if t in l.tasks { assert TaskFits(l.attempts, l.tasks[t]); }
    }
    var l' := ApplyDispatchResult(l, c, r, found, now).value;
    forall t | t in l.tasks ensures !TurnsUnresolved(l.attempts, l'.attempts, l.tasks[t]) {
      assert TaskFits(l.attempts, l.tasks[t]);
    }
  }

  /** A request's new rows. */
  lemma DenyKeepsTimes(l: Ledger, l1: Ledger, a: Attempt, reason: BlockedReason, now: Millis)
    requires l1.attempts == l.attempts && l1.tasks == l.tasks && l.nextId <= l1.nextId && a.id !in l.attempts
    ensures KeepsTimes(l, Deny(l1, a, reason, now).ledger, now)
  {}

  lemma ReserveKeepsTimes(l: Ledger, l1: Ledger, a: Attempt, now: Millis)
    requires l1.attempts == l.attempts && l1.tasks == l.tasks && l.nextId <= l1.nextId && a.id !in l.attempts
    requires a.mandateId in l1.mandates && forall t :: t in l.tasks ==> t < l.nextId
    ensures KeepsTimes(l, Reserve(l1, a, now).ledger, now)
  {
    var l' := Reserve(l1, a, now).ledger;
    var t := Hold(l1, a, now).nextId;
    assert l'.tasks == l.tasks[t := l'.tasks[t]] && l'.attempts == l.attempts[a.id := l'.attempts[a.id]];
  }

  lemma RunKeepsTimes(l: Ledger, a: Attempt, vendor: Vendor, treasury: Treasury, now: Millis)
    requires a.id == l.nextId && a.mandateId in l.mandates && Admitted(l, a, vendor, treasury, now).Ok?
    requires (forall t :: t in l.tasks ==> t < l.nextId) && a.id !in l.attempts
    ensures KeepsTimes(l, Admitted(l, a, vendor, treasury, now).value.ledger, now)
  {
    var b := Authenticated(a);
    var m := l.mandates[b.mandateId];
    var l1 := Admit(l, b, now);
    var policy := EvaluatePolicy(m, Some(vendor), b.amountCents, now);
    if policy.Denied? {
      var expire := policy.reason == MandateNotActive && m.status == IssuedActive && m.expiresAt <= now;
      DenyKeepsTimes(l, if expire then ExpireMandate(l1, b.mandateId, now) else l1, b, policy.reason, now);
    } else {
      var l2 := Approve(l1, b, now);
      match treasury
      case TreasuryDenies(code) => DenyKeepsTimes(l, l2, b, TreasuryDenied(code), now);
      case TreasuryApproved => ReserveKeepsTimes(l, TreasuryEnforced(l2, b, now), b, now);
      case TreasuryNotEnforced => ReserveKeepsTimes(l, l2, b, now);
    }
  }
}

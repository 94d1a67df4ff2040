/** Main results about the moment an attempt became execution_unknown: its `updatedAt` keeps that moment, and so does
    the copy a reconciliation worker takes of it. */
module UnresolvedTheorems {
  import opened Domain
  import opened StateMachines
  import opened Ledger
  import opened Money
  import opened Protocol
  import opened Leases
  import opened System
  import opened History
  import opened Runs
  import opened LogTheorems
  import opened DispatchTheorems
  import opened ClosedMandates

  /** The clock of the step that made the attempt execution_unknown, if any step did. */
  ghost function BecameUnknownAt(s: Sys, acts: seq<Action>, a: Id): Option<Millis>
    decreases |acts|
  {
    if acts == [] then None
    else
      var front := acts[..|acts| - 1];
      Moment(BecameUnknownAt(s, front, a), Exec(s, acts).ledger, a, Exec(s, front).now)
  }

  /** A moment on record stays; the step that ends in `l` at time `now` may be the moment otherwise. */
  ghost function Moment(since: Option<Millis>, l: Ledger, a: Id, now: Millis): Option<Millis> {
    if since.Some? then since else if IsUnknown(l, a) then Some(now) else None
  }

  // ---- only storing an answer makes an attempt unresolved ----

  lemma OperatorsMakeNoneUnknown(s: Sys, act: Action, a: Id)
    requires Inv(s) && (act.Create? || act.Revoke? || act.Run? || act.QueueReconciliation?)
    requires IsUnknown(Do(s, act).ledger, a)
    ensures IsUnknown(s.ledger, a)
  {
    if a in s.ledger.attempts {
      OperatorsLeaveAttempts(s, act, a);
    } else {
      NewAttemptsAreBorn(s, act, a);
    }
  }

  lemma NewAttemptsAreBorn(s: Sys, act: Action, a: Id)
    requires Inv(s) && a !in s.ledger.attempts && a in Do(s, act).ledger.attempts
    ensures Born(Do(s, act).ledger.attempts[a])
  {
    EveryActionIsLawful(s, act);
    LawfulAttempt(s.ledger, Do(s, act).ledger, a, s.now);
  }

  lemma BeginMakesNoneUnknown(s: Sys, w: WorkerId, c: Claim, a: Id)
    requires IsUnknown(StepBegin(s, w, c).ledger, a)
    ensures IsUnknown(s.ledger, a)
  {}

  lemma ReleaseMakesNoneUnknown(s: Sys, w: WorkerId, c: Claim, reason: BlockedReason, a: Id)
    requires IsUnknown(StepRelease(s, w, c, reason).ledger, a)
    ensures IsUnknown(s.ledger, a)
  {}

  lemma ReconciliationMakesNoneUnknown(s: Sys, w: WorkerId, c: Claim, seen: Attempt, truth: CorrelationResult, a: Id)
    requires IsUnknown(StepReconcile(s, w, c, seen, truth).ledger, a)
    ensures IsUnknown(s.ledger, a)
  {}

  /** No transaction but these four changes an attempt. */
  lemma OtherPlacesKeepAttempts(s: Sys, w: WorkerId, pc: Pc)
    requires !(pc.ExecLeased? || pc.ExecAnswered? || pc.ExecReleasing? || pc.RecAnswered?)
    ensures Advance(s, w, pc).ledger.attempts == s.ledger.attempts
  {}

  lemma OtherPlacesMakeNoneUnknown(s: Sys, w: WorkerId, pc: Pc, a: Id)
    requires !pc.ExecAnswered? && IsUnknown(Advance(s, w, pc).ledger, a)
    ensures IsUnknown(s.ledger, a)
  {
    match pc
    case ExecLeased(c) => BeginMakesNoneUnknown(s, w, c, a);
    case ExecReleasing(c, reason) => ReleaseMakesNoneUnknown(s, w, c, reason, a);
    case RecAnswered(c, seen, truth) => ReconciliationMakesNoneUnknown(s, w, c, seen, truth, a);
    case _ => OtherPlacesKeepAttempts(s, w, pc);
  }

  /** The worker is about to store that the vendor left attempt `a` unresolved. */
  predicate LeavesUnresolved(pc: Pc, a: Id) {
    pc.ExecAnswered? && pc.claim.attemptId == a && pc.answer.DispatchUnknown?
  }

  lemma AnswersStampTheUnknown(s: Sys, w: WorkerId, c: Claim, answer: DispatchResult, a: Id)
    requires !IsUnknown(s.ledger, a) && IsUnknown(StepSettle(s, w, c, answer).ledger, a)
    ensures LeavesUnresolved(ExecAnswered(c, answer), a) && StepSettle(s, w, c, answer).ledger.attempts[a].updatedAt == s.now
  {
    var found := FindLive(s.ledger.tasks, ReconcileAttempt, c.attemptId);
    if ApplyDispatchResult(s.ledger, c, answer, found, s.now).Ok? {
      DispatchResultIsSettle(s.ledger, c, answer, found, s.now);
    }
  }

  /** An attempt becomes execution_unknown only when a worker stores the vendor's unresolved answer, and is stamped then. */
  lemma BecomesUnknownNow(s: Sys, act: Action, a: Id)
    requires Inv(s) && !IsUnknown(s.ledger, a) && IsUnknown(Do(s, act).ledger, a)
    ensures act.Proceed? && act.w in s.workers && LeavesUnresolved(s.workers[act.w], a)
    ensures Do(s, act).ledger.attempts[a].updatedAt == s.now
  {
    if act.Create? || act.Revoke? || act.Run? || act.QueueReconciliation? {
      OperatorsMakeNoneUnknown(s, act, a);
    } else if act.Proceed? && act.w in s.workers {
      if s.workers[act.w].ExecAnswered? {
        AnswersStampTheUnknown(s, act.w, s.workers[act.w].claim, s.workers[act.w].answer, a);
      } else {
        OtherPlacesMakeNoneUnknown(s, act.w, s.workers[act.w], a);
      }
    } else if !act.Proceed? {
      OthersTouchNoRows(s, act);
    }
  }

  // ---- the stamp keeps the moment ----

  /** While the attempt is unresolved its stamp is the moment; afterwards it is settled for good. */
  ghost predicate Since(l: Ledger, a: Id, since: Option<Millis>) {
    && (IsUnknown(l, a) ==> since == Some(l.attempts[a].updatedAt))
    && (since.Some? ==> IsUnknown(l, a) || IsSettled(l, a))
  }

  lemma SinceStep(s: Sys, act: Action, a: Id, since: Option<Millis>)
    requires Inv(s) && Since(s.ledger, a, since)
    ensures Since(Do(s, act).ledger, a, Moment(since, Do(s, act).ledger, a, s.now))
  {
    SettledStaysSettled(s, act, a);
    if IsUnknown(s.ledger, a) {
      OnlyCorrelationResolves(s, act, a);
    } else if IsUnknown(Do(s, act).ledger, a) {
      BecomesUnknownNow(s, act, a);
    }
  }

  ghost predicate IsSettled(l: Ledger, a: Id) {
    a in l.attempts && Settled(l.attempts[a].status)
  }

  lemma LawfulKeepsSettled(l: Ledger, l': Ledger, a: Id, now: Millis)
    requires Lawful(l, l', now) && IsSettled(l, a)
    ensures IsSettled(l', a)
  {
    assert AttemptStep(l.attempts[a], l'.attempts[a]);
  }

  lemma SettledStaysSettled(s: Sys, act: Action, a: Id)
    requires Inv(s)
    ensures IsSettled(s.ledger, a) ==> IsSettled(Do(s, act).ledger, a)
  {
    EveryActionIsLawful(s, act);
    if IsSettled(s.ledger, a) {
      LawfulKeepsSettled(s.ledger, Do(s, act).ledger, a, s.now);
    }
  }

  /** In every run an execution_unknown attempt is stamped with the clock of the step that made it so. */
  lemma {:induction false} UnknownSinceItsStamp(s0: Sys, acts: seq<Action>, a: Id)
    requires Init(s0)
    ensures Since(Exec(s0, acts).ledger, a, BecameUnknownAt(s0, acts, a))
    decreases |acts|
  {
    if acts == [] {
    } else {
      var front := acts[..|acts| - 1];
      UnknownSinceItsStamp(s0, front, a);
      EveryReachableStateIsSafe(s0, front);
      SinceStep(Exec(s0, front), acts[|acts| - 1], a, BecameUnknownAt(s0, front, a));
    }
  }

  // ---- the copy keeps it too ----

  /** The worker holds a copy of its attempt taken while that was unresolved. */
  ghost predicate SawUnknown(ws: map<WorkerId, Pc>, w: WorkerId) {
    w in ws && HasSeen(ws[w]) && ws[w].seen.status == ExecutionUnknown
  }

  /** A copy is taken from the table once and then carried along. */
  lemma CopyIsTakenOnce(s: Sys, act: Action, w: WorkerId)
    requires SawUnknown(Do(s, act).workers, w)
    ensures
      var pc' := Do(s, act).workers[w];
      || (SawUnknown(s.workers, w) && s.workers[w].seen == pc'.seen && s.workers[w].claim.attemptId == pc'.claim.attemptId)
      || (IsUnknown(s.ledger, pc'.claim.attemptId) && pc'.seen == s.ledger.attempts[pc'.claim.attemptId])
  {
    if act.Proceed? && act.w in s.workers {
      if act.w == w {
        OwnCopyIsTakenOnce(s, w, s.workers[w]);
      } else {
        WorkersMoveAlone(s, act.w, s.workers[act.w], w);
      }
    } else {
      OthersTakeNoCopy(s, act, w);
    }
  }

  lemma OwnCopyIsTakenOnce(s: Sys, w: WorkerId, pc: Pc)
    requires w in s.workers && s.workers[w] == pc && SawUnknown(Advance(s, w, pc).workers, w)
    ensures
      var pc' := Advance(s, w, pc).workers[w];
      && pc'.claim == pc.claim
      && (|| (HasSeen(pc) && pc.seen == pc'.seen)
          || (IsUnknown(s.ledger, pc.claim.attemptId) && pc'.seen == s.ledger.attempts[pc.claim.attemptId]))
  {}

  lemma OthersTakeNoCopy(s: Sys, act: Action, w: WorkerId)
    requires !(act.Proceed? && act.w in s.workers) && SawUnknown(Do(s, act).workers, w)
    ensures SawUnknown(s.workers, w) && s.workers[w].seen == Do(s, act).workers[w].seen
    ensures s.workers[w].claim == Do(s, act).workers[w].claim
  {}

  /** In every run a worker's copy of an execution_unknown attempt carries the moment the attempt became that. */
  lemma {:induction false} CopyKeepsTheMoment(s0: Sys, acts: seq<Action>, w: WorkerId)
    requires Init(s0) && SawUnknown(Exec(s0, acts).workers, w)
    ensures
      var pc := Exec(s0, acts).workers[w];
      BecameUnknownAt(s0, acts, pc.claim.attemptId) == Some(pc.seen.updatedAt)
    decreases |acts|
  {
    if acts != [] {
      var front := acts[..|acts| - 1];
      var s, a := Exec(s0, front), Exec(s0, acts).workers[w].claim.attemptId;
      CopyIsTakenOnce(s, acts[|acts| - 1], w);
      UnknownSinceItsStamp(s0, front, a);
      if SawUnknown(s.workers, w) && s.workers[w].seen == Exec(s0, acts).workers[w].seen && s.workers[w].claim.attemptId == a {
        CopyKeepsTheMoment(s0, front, w);
      }
    }
  }
}

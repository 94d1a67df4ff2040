/** Main results about dispatching: one vendor call per attempt and one end of its reservation, whatever the
    workers, leases and crashes in between. */
module DispatchTheorems {
  import opened Domain
  import opened StateMachines
  import opened Ledger
  import opened Money
  import opened Protocol
  import opened Workers
  import opened System
  import opened History
  import opened Runs
  import opened BudgetTheorems

  // ---- vendor calls ----

  /** The action has a worker call the vendor for attempt `a`. */
  predicate CallsVendor(s: Sys, act: Action, a: Id) {
    act.Proceed? && act.w in s.workers && s.workers[act.w].ExecCleared? && s.workers[act.w].claim.attemptId == a
  }

  ghost function VendorCalls(s: Sys, acts: seq<Action>, a: Id): nat
    decreases |acts|
  {
    if acts == [] then 0
    else
      var front := acts[..|acts| - 1];
      VendorCalls(s, front, a) + if CallsVendor(Exec(s, front), acts[|acts| - 1], a) then 1 else 0
  }

  lemma SendsCountCalls(s: Sys, act: Action, a: Id)
    ensures Do(s, act).sends[a] == s.sends[a] + if CallsVendor(s, act, a) then 1 else 0
  {
    if act.Proceed? && act.w in s.workers {
      AdvanceSends(s, act.w, s.workers[act.w], a);
    }
  }

  lemma AdvanceSends(s: Sys, w: WorkerId, pc: Pc, a: Id)
    ensures Advance(s, w, pc).sends == s.sends + if pc.ExecCleared? then multiset{pc.claim.attemptId} else multiset{}
  {}

  lemma {:induction false} CallsAreSends(s0: Sys, acts: seq<Action>, a: Id)
    requires Init(s0)
    ensures VendorCalls(s0, acts, a) == Exec(s0, acts).sends[a]
    decreases |acts|
  {
    if acts == [] {
    } else {
      CallsAreSends(s0, acts[..|acts| - 1], a);
      SendsCountCalls(Exec(s0, acts[..|acts| - 1]), acts[|acts| - 1], a);
    }
  }

  /** In every run the vendor is called at most once for an attempt; exactly once if it was ever charged, refused
      or left unresolved by the vendor, and never before a worker took it off the queue. */
  lemma VendorIsCalledAtMostOnce(s0: Sys, acts: seq<Action>, a: Id)
    requires Init(s0)
    ensures VendorCalls(s0, acts, a) <= 1
    ensures
      var ats := Exec(s0, acts).ledger.attempts;
      && (a in ats && (Settled(ats[a].status) || ats[a].status == ExecutionUnknown) ==> VendorCalls(s0, acts, a) == 1)
      && (a !in ats || ats[a].status == DispatchQueued || ats[a].status == PolicyDenied ==> VendorCalls(s0, acts, a) == 0)
  {
    EveryReachableStateIsSafe(s0, acts);
    CallsAreSends(s0, acts, a);
    var s := Exec(s0, acts);
    assert SendOk(s.ledger.attempts, s.sends, s.answers, a);
  }

  // ---- the end of a reservation ----

  /** Attempt `a` closes and its mandate's reservation falls by exactly its amount. */
  ghost predicate RemovesReservation(l: Ledger, l': Ledger, a: Id) {
    && a in l.attempts && a in l'.attempts && Open(l.attempts[a].status) && !Open(l'.attempts[a].status)
    && l.attempts[a].mandateId in l.mandates && l.attempts[a].mandateId in l'.mandates
    && l'.mandates[l.attempts[a].mandateId].reservedCents == l.mandates[l.attempts[a].mandateId].reservedCents - l.attempts[a].amountCents
  }

  ghost function Removals(s: Sys, acts: seq<Action>, a: Id): nat
    decreases |acts|
  {
    if acts == [] then 0
    else
      var front := acts[..|acts| - 1];
      Removals(s, front, a) + if RemovesReservation(Exec(s, front).ledger, Exec(s, acts).ledger, a) then 1 else 0
  }

  predicate ReservedOnceOver(status: AttemptStatus) {
    Settled(status) || status == CancelledReleased
  }

  ghost predicate Over(l: Ledger, a: Id) {
    a in l.attempts && ReservedOnceOver(l.attempts[a].status)
  }

  /** A step that closes an open attempt always removes its reservation, and no other step does. */
  lemma RemovalStep(l: Ledger, l': Ledger, a: Id, now: Millis)
    requires Sound(l) && Sound(l') && Lawful(l, l', now)
    ensures Over(l, a) ==> Over(l', a)
    ensures RemovesReservation(l, l', a) <==> !Over(l, a) && Over(l', a)
  {
    if a in l.attempts {
      assert AttemptStep(l.attempts[a], l'.attempts[a]) && AttemptOk(l.mandates, l.attempts[a], a);
      assert AttemptOk(l'.mandates, l'.attempts[a], a);
      var m := l.attempts[a].mandateId;
      if Open(l.attempts[a].status) && !Open(l'.attempts[a].status) {
        assert OpenOn(l.attempts, a, m) && AccountOk(l.mandates[m], l.attempts, m);
        NoneOpensWhileOneIsOpen(l, l', m, a, now);
      }
    } else if a in l'.attempts {
      assert BornOn(l.mandates, l'.attempts[a], now);
    }
  }

  /** The reservation of an attempt that was charged, refused or released was removed exactly once in the run;
      that of any other attempt never, crashes between settling and completing a task included. */
  lemma {:induction false} ReservationIsRemovedOnce(s0: Sys, acts: seq<Action>, a: Id)
    requires Init(s0)
    ensures
      var ats := Exec(s0, acts).ledger.attempts;
      Removals(s0, acts, a) == if a in ats && ReservedOnceOver(ats[a].status) then 1 else 0
    decreases |acts|
  {
    if acts == [] {
    } else {
      var front := acts[..|acts| - 1];
      ReservationIsRemovedOnce(s0, front, a);
      EveryReachableStateIsSafe(s0, front);
      EveryReachableStateIsSafe(s0, acts);
      EveryActionIsLawful(Exec(s0, front), acts[|acts| - 1]);
      RemovalStep(Exec(s0, front).ledger, Exec(s0, acts).ledger, a, Exec(s0, front).now);
    }
  }

  // ---- what a worker meets ----

  /** Preflight refuses exactly the expired and the revoked; its last two refusals cannot be reached. */
  lemma PreflightRefusesOnlyTheDead(s0: Sys, acts: seq<Action>, w: WorkerId)
    requires Init(s0) && w in Exec(s0, acts).workers && Exec(s0, acts).workers[w].ExecBegun?
    ensures
      var s := Exec(s0, acts);
      var c := s.workers[w].claim;
      var verdict := PreflightFailure(s.ledger, c, s.now);
      && verdict.Ok? && c.mandateId in s.ledger.mandates
      && var m := s.ledger.mandates[c.mandateId];
      && verdict.value == (if m.expiresAt <= s.now then Some(MandateExpiredBeforeDispatch)
                           else if m.status == Revoked then Some(MandateRevokedBeforeDispatch)
                           else None)
      && verdict.value != Some(MandateNotDispatchable) && verdict.value != Some(AttemptNotDispatchable)
  {
    EveryReachableStateIsSafe(s0, acts);
    ClaimIsTrue(Exec(s0, acts), w);
    MandateOfOpenAttempt(Exec(s0, acts).ledger, Exec(s0, acts).workers[w].claim);
  }

  /** An attempt's financial outcome is always its status. */
  lemma OutcomeIsStatus(s0: Sys, acts: seq<Action>, a: Id)
    requires Init(s0) && a in Exec(s0, acts).ledger.attempts
    ensures Exec(s0, acts).ledger.attempts[a].financialOutcome == Exec(s0, acts).ledger.attempts[a].status
  {
    EveryReachableStateIsSafe(s0, acts);
    var l := Exec(s0, acts).ledger;
    assert AttemptOk(l.mandates, l.attempts[a], a);
  }

  // ---- an unresolved attempt ----

  /** No operator changes an attempt that exists. */
  lemma OperatorsLeaveAttempts(s: Sys, act: Action, a: Id)
    requires Inv(s) && (act.Create? || act.Revoke? || act.Run? || act.QueueReconciliation?) && a in s.ledger.attempts
    ensures a in Do(s, act).ledger.attempts && Do(s, act).ledger.attempts[a] == s.ledger.attempts[a]
  {
    if act.Run? {
      RequestsLeaveAttempts(s, act.run, act.freshIdentifier, act.treasury, a);
    }
  }

  lemma RequestsLeaveAttempts(s: Sys, input: RunInput, generated: string, treasury: Treasury, a: Id)
    requires Inv(s) && a in s.ledger.attempts
    ensures a in StepRun(s, input, generated, treasury).ledger.attempts
    ensures StepRun(s, input, generated, treasury).ledger.attempts[a] == s.ledger.attempts[a]
  {
    if RunAttempt(s.ledger, input, generated, treasury, s.now).Ok? {
      TasksBelow(s.ledger);
      RunIsBenign(s.ledger, input, generated, treasury, s.now);
      var l' := RunAttempt(s.ledger, input, generated, treasury, s.now).value.ledger;
      assert AttemptEvolves(s.ledger.attempts, l'.attempts, a, l'.nextId);
    }
  }

  /** The worker is about to store what correlation proved about attempt `a`. */
  predicate Resolving(pc: Pc, a: Id) {
    pc.RecAnswered? && pc.claim.attemptId == a
  }

  ghost predicate Leaves(l: Ledger, l': Ledger, a: Id) {
    a in l.attempts && a in l'.attempts && l'.attempts[a] == l.attempts[a]
  }

  lemma BeginLeavesUnresolved(l: Ledger, c: Claim, now: Millis, a: Id)
    requires a in l.attempts && l.attempts[a].status == ExecutionUnknown && BeginDispatch(l, c, now).Ok?
    ensures Leaves(l, BeginDispatch(l, c, now).value, a)
  {}

  lemma ReleaseLeavesUnresolved(l: Ledger, c: Claim, reason: BlockedReason, now: Millis, a: Id)
    requires a in l.attempts && l.attempts[a].status == ExecutionUnknown && ReleaseDispatch(l, c, reason, now).Ok?
    ensures Leaves(l, ReleaseDispatch(l, c, reason, now).value, a)
  {}

  lemma AnswerLeavesOthers(l: Ledger, c: Claim, answer: DispatchResult, found: Option<Id>, now: Millis, a: Id)
    requires a in l.attempts && c.attemptId != a && ApplyDispatchResult(l, c, answer, found, now).Ok?
    ensures Leaves(l, ApplyDispatchResult(l, c, answer, found, now).value, a)
  {}

  lemma DispatcherLeavesUnresolved(s: Sys, w: WorkerId, a: Id)
    requires Inv(s) && w in s.workers && a in s.ledger.attempts && s.ledger.attempts[a].status == ExecutionUnknown
    requires s.workers[w].ExecLeased? || Holding(s.workers[w])
    ensures Leaves(s.ledger, Advance(s, w, s.workers[w]).ledger, a)
  {
    ClaimIsTrue(s, w);
    var c := s.workers[w].claim;
    match s.workers[w]
    case ExecLeased(_) =>
      if BeginDispatch(s.ledger, c, s.now).Ok? { BeginLeavesUnresolved(s.ledger, c, s.now, a); }
    case ExecAnswered(_, answer) =>
      var found := FindLive(s.ledger.tasks, ReconcileAttempt, c.attemptId);
      if ApplyDispatchResult(s.ledger, c, answer, found, s.now).Ok? { AnswerLeavesOthers(s.ledger, c, answer, found, s.now, a); }
    case ExecReleasing(_, reason) =>
      if ReleaseDispatch(s.ledger, c, reason, s.now).Ok? { ReleaseLeavesUnresolved(s.ledger, c, reason, s.now, a); }
    case _ =>
  }

  lemma ReconciliationLeavesOthers(l: Ledger, c: Claim, truth: CorrelationResult, now: Millis, a: Id)
    requires a in l.attempts && c.attemptId != a && ApplyReconciliationResult(l, c, truth, now).Ok?
    ensures Leaves(l, ApplyReconciliationResult(l, c, truth, now).value, a)
  {}

  lemma ReconcilerLeavesOthers(s: Sys, w: WorkerId, a: Id)
    requires w in s.workers && a in s.ledger.attempts && !Resolving(s.workers[w], a)
    requires Reconciles(s.workers[w]) || s.workers[w].Failing?
    ensures Leaves(s.ledger, Advance(s, w, s.workers[w]).ledger, a)
  {
    match s.workers[w]
    case RecAnswered(c, _, truth) =>
      if ApplyReconciliationResult(s.ledger, c, truth, s.now).Ok? { ReconciliationLeavesOthers(s.ledger, c, truth, s.now, a); }
    case _ =>
  }

  lemma WorkersLeaveUnresolved(s: Sys, w: WorkerId, a: Id)
    requires Inv(s) && w in s.workers && a in s.ledger.attempts && s.ledger.attempts[a].status == ExecutionUnknown
    requires !Resolving(s.workers[w], a)
    ensures Leaves(s.ledger, Advance(s, w, s.workers[w]).ledger, a)
  {
    if s.workers[w].ExecLeased? || Holding(s.workers[w]) {
      DispatcherLeavesUnresolved(s, w, a);
    } else {
      ReconcilerLeavesOthers(s, w, a);
    }
  }

  /** An execution_unknown attempt stays as it is, its reservation held in full, until a reconciliation worker stores
      what correlation proved, and then it takes exactly the outcome proved. */
  lemma OnlyCorrelationResolves(s: Sys, act: Action, a: Id)
    requires Inv(s) && a in s.ledger.attempts && s.ledger.attempts[a].status == ExecutionUnknown
    ensures a in Do(s, act).ledger.attempts
    ensures
      var before, after := s.ledger.attempts[a], Do(s, act).ledger.attempts[a];
      || after == before
      || (act.Proceed? && act.w in s.workers && Resolving(s.workers[act.w], a) && after.status == s.workers[act.w].truth.Status())
    ensures
      var m := s.ledger.attempts[a].mandateId;
      m in s.ledger.mandates && s.ledger.mandates[m].reservedCents == s.ledger.attempts[a].amountCents
  {
    assert AttemptOk(s.ledger.mandates, s.ledger.attempts[a], a);
    var m := s.ledger.attempts[a].mandateId;
    assert AccountOk(s.ledger.mandates[m], s.ledger.attempts, m) && OpenOn(s.ledger.attempts, a, m);
    if act.Create? || act.Revoke? || act.Run? || act.QueueReconciliation? {
      OperatorsLeaveAttempts(s, act, a);
    } else if act.Proceed? {
      if act.w in s.workers {
        if Resolving(s.workers[act.w], a) {
          ResolvesAsProved(s, act.w, a);
        } else {
          WorkersLeaveUnresolved(s, act.w, a);
        }
      }
    } else {
      OthersTouchNoRows(s, act);
    }
  }

  lemma ResolvesAsProved(s: Sys, w: WorkerId, a: Id)
    requires w in s.workers && Resolving(s.workers[w], a) && a in s.ledger.attempts
    ensures a in Advance(s, w, s.workers[w]).ledger.attempts
    ensures
      var before, after := s.ledger.attempts[a], Advance(s, w, s.workers[w]).ledger.attempts[a];
      after == before || after.status == s.workers[w].truth.Status()
  {}

  // ---- the search for a live task ----

  /** When a dispatch turns out unresolved there is no live reconcile task to be found, so a new one is made. */
  lemma UnresolvedDispatchGetsANewTask(s: Sys, w: WorkerId, found: Option<Id>)
    requires Inv(s) && w in s.workers && s.workers[w].ExecAnswered? && s.workers[w].answer.DispatchUnknown?
    requires FindsLive(s.ledger.tasks, ReconcileAttempt, s.workers[w].claim.attemptId, found)
    ensures found == None
  {
    ClaimIsTrue(s, w);
    forall t ensures !LiveTask(s.ledger.tasks, t, ReconcileAttempt, s.workers[w].claim.attemptId) {
      if t in s.ledger.tasks { assert TaskFits(s.ledger.attempts, s.ledger.tasks[t]); }
    }
  }

  /** Storing an answer is the protocol's step whatever lawful search found the live reconcile task. */
  lemma SettlingIsTheStep(s: Sys, w: WorkerId, found: Option<Id>)
    requires Inv(s) && w in s.workers && s.workers[w].ExecAnswered?
    requires FindsLive(s.ledger.tasks, ReconcileAttempt, s.workers[w].claim.attemptId, found)
    ensures
      var c := s.workers[w].claim;
      var r := ApplyDispatchResult(s.ledger, c, s.workers[w].answer, found, s.now);
      Do(s, Proceed(w)) == if r.Ok? then To(Commit(s, r), w, ExecSettled(c)) else To(s, w, ExecReleasing(c, ExecutionWorkerFailed))
  {
    var c, answer := s.workers[w].claim, s.workers[w].answer;
    var chosen := FindLive(s.ledger.tasks, ReconcileAttempt, c.attemptId);
    if answer.DispatchUnknown? {
      UnresolvedDispatchGetsANewTask(s, w, found);
      UnresolvedDispatchGetsANewTask(s, w, chosen);
    }
    assert ApplyDispatchResult(s.ledger, c, answer, found, s.now) == ApplyDispatchResult(s.ledger, c, answer, chosen, s.now);
  }

  /** Which of several live tasks the search meets makes no difference to queueing. */
  lemma WhichLiveTaskDoesNotMatter(l: Ledger, m: Id, a: Id, found: Option<Id>, other: Option<Id>, now: Millis)
    requires FindsLive(l.tasks, ReconcileAttempt, a, found) && FindsLive(l.tasks, ReconcileAttempt, a, other)
    ensures EnsureReconciliationQueued(l, m, a, found, now) == EnsureReconciliationQueued(l, m, a, other, now)
  {
    assert found.Some? <==> other.Some?;
  }

  /** Queueing a reconciliation is the protocol's step whatever lawful search found the live task. */
  lemma QueueingIsTheStep(s: Sys, m: Id, a: Id, found: Option<Id>)
    requires FindsLive(s.ledger.tasks, ReconcileAttempt, a, found)
    ensures Do(s, QueueReconciliation(m, a)) == Commit(s, EnsureReconciliationQueued(s.ledger, m, a, found, s.now))
  {
    WhichLiveTaskDoesNotMatter(s.ledger, m, a, found, FindLive(s.ledger.tasks, ReconcileAttempt, a), s.now);
  }
}

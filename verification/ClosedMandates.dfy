/** Main results about mandates that are revoked, expired, or past their expiry time. */
module ClosedMandates {
  import opened Domain
  import opened Ledger
  import opened Money
  import opened Protocol
  import opened Workers
  import opened System
  import opened History
  import opened Runs
  import opened DispatchTheorems

  predicate Closed(l: Ledger, m: Id) {
    m in l.mandates && (l.mandates[m].status == Revoked || l.mandates[m].status == Expired)
  }

  /** Closed, or only waiting for someone to notice that its time is up. */
  predicate Dead(s: Sys, m: Id) {
    m in s.ledger.mandates && (Closed(s.ledger, m) || s.ledger.mandates[m].expiresAt <= s.now)
  }

  lemma TimeMovesForward(s: Sys, act: Action)
    ensures s.now <= Do(s, act).now
  {
    if act.Proceed? && act.w in s.workers {
      AdvanceKeepsTheTime(s, act.w, s.workers[act.w]);
    }
  }

  lemma AdvanceKeepsTheTime(s: Sys, w: WorkerId, pc: Pc)
    ensures Advance(s, w, pc).now == s.now
  {}

  lemma DeadStaysDead(s: Sys, act: Action, m: Id)
    requires Inv(s) && Dead(s, m)
    ensures Dead(Do(s, act), m)
    ensures Do(s, act).ledger.mandates[m].reservedCents <= s.ledger.mandates[m].reservedCents
  {
    EveryActionIsLawful(s, act);
    TimeMovesForward(s, act);
    assert MandateStep(s.ledger.mandates[m], Do(s, act).ledger.mandates[m], s.now);
  }

  /** Nothing is ever reserved again on a dead mandate. */
  lemma {:induction false} DeadMandatesReserveNoMore(s: Sys, acts: seq<Action>, m: Id)
    requires Inv(s) && Dead(s, m)
    ensures Dead(Exec(s, acts), m)
    ensures Exec(s, acts).ledger.mandates[m].reservedCents <= s.ledger.mandates[m].reservedCents
    decreases |acts|
  {
    if acts == [] {
    } else {
      DeadMandatesReserveNoMore(s, acts[..|acts| - 1], m);
      EveryRunIsSafe(s, acts[..|acts| - 1]);
      DeadStaysDead(Exec(s, acts[..|acts| - 1]), acts[|acts| - 1], m);
    }
  }

  /** A revoked or expired mandate keeps its status for ever, whatever follows. */
  lemma ClosedMandatesStayClosed(s: Sys, acts: seq<Action>, m: Id)
    requires Inv(s) && Closed(s.ledger, m)
    ensures
      var l' := Exec(s, acts).ledger;
      && m in l'.mandates && l'.mandates[m].status == s.ledger.mandates[m].status
      && l'.mandates[m].reservedCents <= s.ledger.mandates[m].reservedCents
  {
    RunsLast(s, acts);
    assert MandateLasts(s.ledger.mandates[m], Exec(s, acts).ledger.mandates[m]);
  }

  // ---- the last call ----

  ghost predicate ClearedBy(s: Sys, w: WorkerId, a: Id) {
    w in s.workers && s.workers[w].ExecCleared? && s.workers[w].claim.attemptId == a
  }

  /** A worker has passed preflight for this attempt and has not called the vendor yet. */
  ghost predicate Cleared(s: Sys, a: Id) {
    exists w :: ClearedBy(s, w, a)
  }

  ghost predicate StaysPut(s: Sys, s': Sys, v: WorkerId) {
    (v in s'.workers <==> v in s.workers) && (v in s.workers ==> s'.workers[v] == s.workers[v])
  }

  lemma DispatchersMoveAlone(s: Sys, w: WorkerId, pc: Pc, v: WorkerId)
    requires v != w && (pc.ExecLeased? || Holding(pc))
    ensures StaysPut(s, Advance(s, w, pc), v)
  {}

  lemma ReconcilersMoveAlone(s: Sys, w: WorkerId, pc: Pc, v: WorkerId)
    requires v != w && (Reconciles(pc) || pc.Failing?)
    ensures StaysPut(s, Advance(s, w, pc), v)
  {}

  /** A worker's step moves no other worker. */
  lemma WorkersMoveAlone(s: Sys, w: WorkerId, pc: Pc, v: WorkerId)
    requires v != w
    ensures StaysPut(s, Advance(s, w, pc), v)
  {
    if pc.ExecLeased? || Holding(pc) {
      DispatchersMoveAlone(s, w, pc, v);
    } else {
      ReconcilersMoveAlone(s, w, pc, v);
    }
  }

  /** Only preflight clears an attempt. */
  lemma ClearedByPreflight(s: Sys, w: WorkerId, pc: Pc)
    requires w in s.workers && s.workers[w] == pc
    requires w in Advance(s, w, pc).workers && Advance(s, w, pc).workers[w].ExecCleared?
    ensures pc.ExecBegun? && PreflightFailure(s.ledger, pc.claim, s.now) == Ok(None)
    ensures Advance(s, w, pc).workers[w].claim == pc.claim
  {}

  lemma PreflightFailsOnDead(s: Sys, c: Claim)
    requires Dead(s, c.mandateId)
    ensures PreflightFailure(s.ledger, c, s.now) != Ok(None)
  {}

  /** Only a worker's own step clears anything. */
  lemma OthersClearNothing(s: Sys, act: Action, w: WorkerId)
    requires !(act.Proceed? && act.w in s.workers) && w in Do(s, act).workers && Do(s, act).workers[w].ExecCleared?
    ensures w in s.workers && s.workers[w] == Do(s, act).workers[w]
  {}

  lemma NoneIsClearedOnDead(s: Sys, act: Action, w: WorkerId)
    requires Inv(s) && w in Do(s, act).workers && Do(s, act).workers[w].ExecCleared?
    requires Dead(s, Do(s, act).workers[w].claim.mandateId)
    ensures w in s.workers && s.workers[w] == Do(s, act).workers[w]
  {
    if act.Proceed? && act.w in s.workers {
      if act.w == w {
        ClearedByPreflight(s, w, s.workers[w]);
        PreflightFailsOnDead(s, s.workers[w].claim);
        assert false;
      }
      WorkersMoveAlone(s, act.w, s.workers[act.w], w);
    } else {
      OthersClearNothing(s, act, w);
    }
  }

  /** On a mandate that is dead in `s`, whatever follows: only attempts cleared in `s` are still sent or cleared. */
  ghost predicate OnlyTheCleared(s: Sys, s': Sys, m: Id) {
    && (forall w :: w in s'.workers && s'.workers[w].ExecCleared? && s'.workers[w].claim.mandateId == m ==>
          w in s.workers && s.workers[w] == s'.workers[w])
    && (forall a :: a in s'.ledger.attempts && s'.ledger.attempts[a].mandateId == m && s'.sends[a] > s.sends[a] ==> Cleared(s, a))
  }

  lemma StepKeepsTheCleared(s: Sys, s1: Sys, act: Action, m: Id)
    requires Inv(s1) && Dead(s1, m) && OnlyTheCleared(s, s1, m)
    ensures OnlyTheCleared(s, Do(s1, act), m)
  {
    var s2 := Do(s1, act);
    forall w | w in s2.workers && s2.workers[w].ExecCleared? && s2.workers[w].claim.mandateId == m
      ensures w in s.workers && s.workers[w] == s2.workers[w]
    {
      NoneIsClearedOnDead(s1, act, w);
    }
    EveryActionIsLawful(s1, act);
    forall a | a in s2.ledger.attempts && s2.ledger.attempts[a].mandateId == m && s2.sends[a] > s.sends[a]
      ensures Cleared(s, a)
    {
      SendsCountCalls(s1, act, a);
      if CallsVendor(s1, act, a) {
        ClaimIsTrue(s1, act.w);
        assert AttemptStep(s1.ledger.attempts[a], s2.ledger.attempts[a]);
        assert ClearedBy(s, act.w, a);
      } else {
        SentAttemptsExist(s1, a);
        assert AttemptStep(s1.ledger.attempts[a], s2.ledger.attempts[a]);
      }
    }
  }

  lemma SentAttemptsExist(s: Sys, a: Id)
    requires Inv(s) && s.sends[a] > 0
    ensures a in s.ledger.attempts
  {
    assert SendOk(s.ledger.attempts, s.sends, s.answers, a);
  }

  lemma {:induction false} OnlyTheClearedAreSent(s: Sys, acts: seq<Action>, m: Id)
    requires Inv(s) && Dead(s, m)
    ensures OnlyTheCleared(s, Exec(s, acts), m)
    decreases |acts|
  {
    if acts == [] {
    } else {
      var front := acts[..|acts| - 1];
      OnlyTheClearedAreSent(s, front, m);
      EveryRunIsSafe(s, front);
      DeadMandatesReserveNoMore(s, front, m);
      StepKeepsTheCleared(s, Exec(s, front), acts[|acts| - 1], m);
    }
  }

  /** Two attempts of one mandate are never cleared at once. */
  lemma OneClearedPerMandate(s: Sys, a: Id, b: Id, m: Id)
    requires Inv(s) && Cleared(s, a) && Cleared(s, b) && m in s.ledger.mandates
    requires a in s.ledger.attempts ==> s.ledger.attempts[a].mandateId == m
    requires b in s.ledger.attempts ==> s.ledger.attempts[b].mandateId == m
    ensures a == b && a in s.ledger.attempts && s.sends[a] == 0
  {
    var v, w :| ClearedBy(s, v, a) && ClearedBy(s, w, b);
    ClaimIsTrue(s, v);
    ClaimIsTrue(s, w);
    assert OpenOn(s.ledger.attempts, a, m) && OpenOn(s.ledger.attempts, b, m);
    assert AccountOk(s.ledger.mandates[m], s.ledger.attempts, m);
  }

  /** The vendor is called for attempt `a` of mandate `m` after the moment between the two parts of the run. */
  ghost predicate CalledLater(s0: Sys, before: seq<Action>, later: seq<Action>, m: Id, a: Id) {
    && a in Exec(s0, before + later).ledger.attempts && Exec(s0, before + later).ledger.attempts[a].mandateId == m
    && VendorCalls(s0, before + later, a) > VendorCalls(s0, before, a)
  }

  /** After a mandate is revoked or expired at most one more vendor call is made for it, and only for an attempt
      whose preflight had passed before. */
  lemma AtMostOneLastCall(s0: Sys, before: seq<Action>, later: seq<Action>, m: Id, a: Id, b: Id)
    requires Init(s0) && Dead(Exec(s0, before), m)
    requires CalledLater(s0, before, later, m, a) && CalledLater(s0, before, later, m, b)
    ensures a == b && Cleared(Exec(s0, before), a)
    ensures VendorCalls(s0, before, a) == 0 && VendorCalls(s0, before + later, a) == 1
  {
    var s := Exec(s0, before);
    EveryReachableStateIsSafe(s0, before);
    RunsCompose(s0, before, later);
    CallsAreSends(s0, before, a);
    CallsAreSends(s0, before + later, a);
    CallsAreSends(s0, before, b);
    CallsAreSends(s0, before + later, b);
    VendorIsCalledAtMostOnce(s0, before + later, a);
    OnlyTheClearedAreSent(s, later, m);
    assert Cleared(s, a) && Cleared(s, b);
    LastingDeals(s, later, a);
    LastingDeals(s, later, b);
    OneClearedPerMandate(s, a, b, m);
  }

  lemma LastingDeals(s: Sys, acts: seq<Action>, a: Id)
    requires Inv(s)
    ensures a in s.ledger.attempts ==>
      a in Exec(s, acts).ledger.attempts && Exec(s, acts).ledger.attempts[a].mandateId == s.ledger.attempts[a].mandateId
  {
    RunsLast(s, acts);
    if a in s.ledger.attempts {
      assert AttemptLasts(s.ledger.attempts[a], Exec(s, acts).ledger.attempts[a]);
    }
  }

  /** That last call can still be settled: within the budget, the mandate keeping its status. */
  lemma TheLastCallCanStillSettle(s: Sys, w: WorkerId, answer: DispatchResult)
    requires Inv(s) && w in s.workers && s.workers[w].ExecCleared? && Closed(s.ledger, s.workers[w].claim.mandateId)
    requires answer.DispatchSucceeded?
    ensures
      var c, s' := s.workers[w].claim, Exec(s, [Proceed(w), VendorAnswers(w, answer), Proceed(w)]);
      && c.mandateId in s'.ledger.mandates
      && var m, m' := s.ledger.mandates[c.mandateId], s'.ledger.mandates[c.mandateId];
      && c.attemptId in s'.ledger.attempts && s'.ledger.attempts[c.attemptId].status == ChargeSucceeded
      && m'.status == m.status && m.reservedCents == c.amountCents && m'.reservedCents == 0
      && m.consumedCents <= m'.consumedCents <= m.consumedCents + c.amountCents <= m.budgetCapCents
  {
    var c := s.workers[w].claim;
    ClaimIsTrue(s, w);
    MandateOfOpenAttempt(s.ledger, c);
    assert AccountOk(s.ledger.mandates[c.mandateId], s.ledger.attempts, c.mandateId);
    ThreeSteps(s, Proceed(w), VendorAnswers(w, answer), Proceed(w));
    SentAndAnswered(s, w, answer);
    LastSettlement(Do(Do(s, Proceed(w)), VendorAnswers(w, answer)), w, c, answer);
  }

  lemma SentAndAnswered(s: Sys, w: WorkerId, answer: DispatchResult)
    requires w in s.workers && s.workers[w].ExecCleared?
    ensures
      var s' := Do(Do(s, Proceed(w)), VendorAnswers(w, answer));
      s'.ledger == s.ledger && w in s'.workers && s'.workers[w] == ExecAnswered(s.workers[w].claim, answer)
  {}

  lemma ThreeSteps(s: Sys, x: Action, y: Action, z: Action)
    ensures Exec(s, [x, y, z]) == Do(Do(Do(s, x), y), z)
  {
    assert [x, y, z][..2] == [x, y] && [x, y][..1] == [x] && [x][..0] == [];
    assert Exec(s, [x]) == Do(s, x);
    assert Exec(s, [x, y]) == Do(Do(s, x), y);
  }

  lemma LastSettlement(s: Sys, w: WorkerId, c: Claim, answer: DispatchResult)
    requires w in s.workers && s.workers[w] == ExecAnswered(c, answer) && answer.DispatchSucceeded?
    requires c.mandateId in s.ledger.mandates && c.attemptId in s.ledger.attempts
    requires s.ledger.attempts[c.attemptId].status == Dispatching && Closed(s.ledger, c.mandateId)
    requires s.ledger.mandates[c.mandateId].reservedCents == c.amountCents > 0
    ensures
      var l' := Do(s, Proceed(w)).ledger;
      var m := s.ledger.mandates[c.mandateId];
      && c.attemptId in l'.attempts && l'.attempts[c.attemptId].status == ChargeSucceeded && c.mandateId in l'.mandates
      && l'.mandates[c.mandateId].status == m.status && l'.mandates[c.mandateId].reservedCents == 0
      && m.consumedCents <= l'.mandates[c.mandateId].consumedCents <= m.consumedCents + c.amountCents
  {
    var found := FindLive(s.ledger.tasks, ReconcileAttempt, c.attemptId);
    assert ApplyDispatchResult(s.ledger, c, answer, found, s.now).Ok?;
    DispatchResultIsSettle(s.ledger, c, answer, found, s.now);
  }
}

/** Main results about money. */
module BudgetTheorems {
  import opened Domain
  import opened StateMachines
  import opened Ledger
  import opened Money
  import opened Protocol
  import opened System
  import opened History
  import opened Runs

  /** In every reachable state a mandate has at most one open attempt, reserves exactly its amount, or nothing
      without one, and never exceeds its budget. */
  lemma BudgetIsNeverExceeded(s0: Sys, acts: seq<Action>, m: Id)
    requires Init(s0) && m in Exec(s0, acts).ledger.mandates
    ensures
      var mandate, ats := Exec(s0, acts).ledger.mandates[m], Exec(s0, acts).ledger.attempts;
      && 0 <= mandate.reservedCents && 0 <= mandate.consumedCents
      && mandate.reservedCents + mandate.consumedCents <= mandate.budgetCapCents
      && (forall a, b :: OpenOn(ats, a, m) && OpenOn(ats, b, m) ==> a == b)
      && (forall a :: OpenOn(ats, a, m) ==> mandate.reservedCents == ats[a].amountCents > 0)
      && ((forall a :: !OpenOn(ats, a, m)) ==> mandate.reservedCents == 0)
  {
    EveryReachableStateIsSafe(s0, acts);
    var l := Exec(s0, acts).ledger;
    assert AccountOk(l.mandates[m], l.attempts, m);
    forall a | OpenOn(l.attempts, a, m) ensures l.attempts[a].amountCents > 0 {
      assert AttemptOk(l.mandates, l.attempts[a], a);
    }
  }

  /** The worker's next transaction, run at time `now`, would close its attempt. */
  ghost predicate ClosesNext(l: Ledger, pc: Pc, now: Millis) {
    || (pc.ExecAnswered? && !pc.answer.DispatchUnknown? && ApplyDispatchResult(l, pc.claim, pc.answer, None, now).Ok?)
    || (pc.ExecReleasing? && ReleaseDispatch(l, pc.claim, pc.reason, now).Ok?)
    || (pc.RecAnswered? && ApplyReconciliationResult(l, pc.claim, pc.truth, now).Ok?)
  }

  lemma ClosesOnlyOpen(l: Ledger, pc: Pc, now: Millis)
    requires Sound(l) && ClaimMatches(l, pc.claim) && ClosesNext(l, pc, now)
    ensures Open(l.attempts[pc.claim.attemptId].status)
  {
    assert AttemptOk(l.mandates, l.attempts[pc.claim.attemptId], pc.claim.attemptId);
  }

  /** Whenever a worker of any run closes an attempt, the mandate reserves exactly the amount taken off it:
      the unclamped subtraction does not go below zero and the clamped ones change nothing. */
  lemma NoClampEverBites(s0: Sys, acts: seq<Action>, w: WorkerId, now: Millis)
    requires Init(s0) && w in Exec(s0, acts).workers && ClosesNext(Exec(s0, acts).ledger, Exec(s0, acts).workers[w], now)
    ensures
      var l, c := Exec(s0, acts).ledger, Exec(s0, acts).workers[w].claim;
      c.mandateId in l.mandates && l.mandates[c.mandateId].reservedCents == c.amountCents > 0
  {
    EveryReachableStateIsSafe(s0, acts);
    var s := Exec(s0, acts);
    ClaimIsTrue(s, w);
    ClosesOnlyOpen(s.ledger, s.workers[w], now);
    MandateOfOpenAttempt(s.ledger, s.workers[w].claim);
  }

  /** A new attempt of this mandate takes what it reserves. */
  ghost predicate Opens(l: Ledger, l': Ledger, m: Id, a: Id) {
    && m in l.mandates && m in l'.mandates && a !in l.attempts && OpenOn(l'.attempts, a, m) && l.mandates[m].status == IssuedActive
    && l.mandates[m].reservedCents == 0 && l'.mandates[m].reservedCents == l'.attempts[a].amountCents
  }

  /** An open attempt of this mandate gives back all it reserved, of which at most all is consumed. */
  ghost predicate Frees(l: Ledger, l': Ledger, m: Id, a: Id) {
    && m in l.mandates && m in l'.mandates && OpenOn(l.attempts, a, m) && a in l'.attempts && !Open(l'.attempts[a].status)
    && l.mandates[m].reservedCents == l.attempts[a].amountCents && l'.mandates[m].reservedCents == 0
    && l'.mandates[m].consumedCents <= l.mandates[m].consumedCents + l.attempts[a].amountCents
  }

  /** In every step, a mandate's reservation stays, is made by one new attempt, or is removed by one closing attempt. */
  lemma ReservationsAreConserved(s: Sys, act: Action, m: Id)
    requires Inv(s) && m in s.ledger.mandates
    ensures m in Do(s, act).ledger.mandates
    ensures
      var l, l' := s.ledger, Do(s, act).ledger;
      || l'.mandates[m].reservedCents == l.mandates[m].reservedCents
      || (exists a :: Opens(l, l', m, a)) || (exists a :: Frees(l, l', m, a))
  {
    var l, s' := s.ledger, Do(s, act);
    var l' := s'.ledger;
    ActionKeeps(s, act);
    EveryActionIsLawful(s, act);
    assert MandateStep(l.mandates[m], l'.mandates[m], s.now);
    assert AccountOk(l.mandates[m], l.attempts, m) && AccountOk(l'.mandates[m], l'.attempts, m);
    if a :| OpenOn(l.attempts, a, m) {
      if a in l'.attempts && !Open(l'.attempts[a].status) {
        ClosingFrees(l, l', m, a, s.now);
      } else {
        assert AttemptStep(l.attempts[a], l'.attempts[a]) && OpenOn(l'.attempts, a, m);
      }
    } else if b :| OpenOn(l'.attempts, b, m) {
      OnlyNewOnesOpen(l, l', m, b, s.now);
      assert Opens(l, l', m, b);
    }
  }

  lemma ClosingFrees(l: Ledger, l': Ledger, m: Id, a: Id, now: Millis)
    requires Sound(l) && Sound(l') && Lawful(l, l', now) && m in l.mandates && OpenOn(l.attempts, a, m)
    requires a in l'.attempts && !Open(l'.attempts[a].status)
    ensures Frees(l, l', m, a)
  {
    NoneOpensWhileOneIsOpen(l, l', m, a, now);
    assert AccountOk(l.mandates[m], l.attempts, m);
    assert MandateStep(l.mandates[m], l'.mandates[m], now);
  }

  lemma NoneReopens(l: Ledger, l': Ledger, b: Id, now: Millis)
    requires Sound(l) && Lawful(l, l', now) && b in l.attempts && b in l'.attempts && Open(l'.attempts[b].status)
    ensures OpenOn(l.attempts, b, l'.attempts[b].mandateId)
  {
    assert AttemptStep(l.attempts[b], l'.attempts[b]);
    assert AttemptOk(l.mandates, l.attempts[b], b);
  }

  lemma OnlyNewOnesOpen(l: Ledger, l': Ledger, m: Id, b: Id, now: Millis)
    requires Sound(l) && Lawful(l, l', now) && OpenOn(l'.attempts, b, m) && forall a :: !OpenOn(l.attempts, a, m)
    ensures b !in l.attempts && m in l.mandates && l.mandates[m].status == IssuedActive
  {
    if b in l.attempts {
      NoneReopens(l, l', b, now);
      assert false;
    }
    assert BornOn(l.mandates, l'.attempts[b], now);
  }

  lemma NoneOpensWhileOneIsOpen(l: Ledger, l': Ledger, m: Id, a: Id, now: Millis)
    requires Sound(l) && Sound(l') && Lawful(l, l', now) && m in l.mandates && OpenOn(l.attempts, a, m)
    requires a in l'.attempts && !Open(l'.attempts[a].status)
    ensures m in l'.mandates && l'.mandates[m].reservedCents == 0
  {
    assert AccountOk(l.mandates[m], l.attempts, m) && AccountOk(l'.mandates[m], l'.attempts, m);
    forall b | b in l'.attempts && Open(l'.attempts[b].status) ensures l'.attempts[b].mandateId != m {
      if b in l.attempts {
        NoneReopens(l, l', b, now);
      } else {
        assert BornOn(l.mandates, l'.attempts[b], now);
      }
    }
  }
}

/** Main results about what is spent: a mandate consumes what its charged attempts cost, as the vendor or correlation
    reported it. */
module ConsumptionTheorems {
  import opened Domain
  import opened Ledger
  import opened Money
  import opened Protocol
  import opened System
  import opened History
  import opened Runs
  import opened LogTheorems
  import opened DispatchTheorems
  import opened UnresolvedTheorems
  import opened OutcomeTheorems
  import opened SettlementTheorems

  predicate Charged(l: Ledger, a: Id, m: Id) {
    a in l.attempts && l.attempts[a].mandateId == m && l.attempts[a].status == ChargeSucceeded
  }

  function Consumed(l: Ledger, m: Id): int {
    if m in l.mandates then l.mandates[m].consumedCents else 0
  }

  // ---- one step ----

  /** A step in which no attempt of the mandate closes consumes nothing. */
  lemma NothingConsumed(l: Ledger, l': Ledger, m: Id, now: Millis)
    requires Sound(l) && Sound(l') && Lawful(l, l', now)
    requires forall a :: OpenOn(l.attempts, a, m) ==> OpenOn(l'.attempts, a, m)
    ensures Consumed(l', m) == Consumed(l, m)
  {
    if m in l.mandates {
      assert MandateStep(l.mandates[m], l'.mandates[m], now);
      assert AccountOk(l.mandates[m], l.attempts, m) && AccountOk(l'.mandates[m], l'.attempts, m);
      if a :| OpenOn(l.attempts, a, m) {
        assert AttemptStep(l.attempts[a], l'.attempts[a]);
      }
    }
  }

  ghost predicate AttemptsLast(l: Ledger, l': Ledger) {
    && (forall a :: a in l.attempts ==> a in l'.attempts && l'.attempts[a] == l.attempts[a])
    && (forall a :: a in l'.attempts && a !in l.attempts ==> Born(l'.attempts[a]))
  }

  lemma OthersKeepAttempts(s: Sys, act: Action)
    requires Inv(s) && !(act.Proceed? && act.w in s.workers)
    ensures AttemptsLast(s.ledger, Do(s, act).ledger)
  {
    var s' := Do(s, act);
    if act.Create? || act.Revoke? || act.Run? || act.QueueReconciliation? {
      forall a | a in s.ledger.attempts ensures a in s'.ledger.attempts && s'.ledger.attempts[a] == s.ledger.attempts[a] {
        OperatorsLeaveAttempts(s, act, a);
      }
      forall a | a in s'.ledger.attempts && a !in s.ledger.attempts ensures Born(s'.ledger.attempts[a]) {
        NewAttemptsAreBorn(s, act, a);
      }
    } else if !act.Proceed? {
      OthersTouchNoRows(s, act);
    }
  }

  lemma LastingChargesSame(l: Ledger, l': Ledger, m: Id, now: Millis)
    requires Sound(l) && Sound(l') && Lawful(l, l', now) && AttemptsLast(l, l')
    ensures Consumed(l', m) == Consumed(l, m)
    ensures forall a :: Charged(l', a, m) <==> Charged(l, a, m)
  {
    NothingConsumed(l, l', m, now);
  }

  /** Operators, the clock, leases, answers, exceptions and deaths charge nothing. */
  lemma OthersConsumeNothing(s: Sys, act: Action, m: Id)
    requires Inv(s) && !(act.Proceed? && act.w in s.workers)
    ensures Consumed(Do(s, act).ledger, m) == Consumed(s.ledger, m)
    ensures forall a :: Charged(Do(s, act).ledger, a, m) <==> Charged(s.ledger, a, m)
  {
    OthersKeepAttempts(s, act);
    ActionKeeps(s, act);
    EveryActionIsLawful(s, act);
    LastingChargesSame(s.ledger, Do(s, act).ledger, m, s.now);
  }

  /** What the worker is about to store says that its attempt is charged. */
  ghost predicate SaysCharged(s: Sys, w: WorkerId) {
    w in s.workers
    && match s.workers[w]
       case ExecAnswered(_, answer) => answer.DispatchSucceeded?
       case RecAnswered(c, _, truth) => truth.succeeded && IsUnknown(s.ledger, c.attemptId)
       case _ => false
  }

  function Reports(pc: Pc): Reported {
    match pc
    case ExecAnswered(_, DispatchSucceeded(_, _, reported)) => reported
    case RecAnswered(_, _, truth) => truth.finalAmount
    case _ => NotReported
  }

  /** The claimed attempt is charged at the price reported, or nothing is. */
  ghost predicate ChargesAsReported(l: Ledger, l': Ledger, m: Id, c: Claim, charged: bool, reported: Reported) {
    && (charged ==> c.mandateId == m ==> Charged(l', c.attemptId, m) && !Charged(l, c.attemptId, m))
    && (!charged || c.mandateId != m ==> (Charged(l', c.attemptId, m) <==> Charged(l, c.attemptId, m)))
    && Consumed(l', m) == Consumed(l, m) + if charged && c.mandateId == m then Price(reported, c.amountCents) else 0
  }

  lemma AnswerCharges(l: Ledger, c: Claim, answer: DispatchResult, found: Option<Id>, now: Millis, m: Id)
    requires Sound(l) && ClaimMatches(l, c) && l.attempts[c.attemptId].status == Dispatching
    ensures ApplyDispatchResult(l, c, answer, found, now).Ok?
    ensures ChargesAsReported(l, ApplyDispatchResult(l, c, answer, found, now).value, m, c, answer.DispatchSucceeded?,
                              if answer.DispatchSucceeded? then answer.finalAmount else NotReported)
  {
    assert AttemptOk(l.mandates, l.attempts[c.attemptId], c.attemptId);
    WhenAnAnswerIsStored(l, c, answer, found, now);
    DispatchResultIsSettle(l, c, answer, found, now);
    AnsweredRows(l, c, answer, now);
  }

  lemma ReleaseCharges(l: Ledger, c: Claim, reason: BlockedReason, now: Millis, m: Id)
    requires ClaimMatches(l, c) && ReleaseDispatch(l, c, reason, now).Ok?
    ensures ChargesAsReported(l, ReleaseDispatch(l, c, reason, now).value, m, c, false, NotReported)
  {
    ReleaseGivesBack(l, c, reason, now);
  }

  lemma ProofCharges(l: Ledger, c: Claim, truth: CorrelationResult, now: Millis, m: Id)
    requires ClaimMatches(l, c) && ApplyReconciliationResult(l, c, truth, now).Ok?
    ensures IsUnknown(l, c.attemptId)
    ensures ChargesAsReported(l, ApplyReconciliationResult(l, c, truth, now).value, m, c, truth.succeeded, truth.finalAmount)
  {
    ReconciliationSettles(l, c, truth, now);
  }

  lemma BeginCharges(l: Ledger, c: Claim, now: Millis, m: Id)
    requires ClaimMatches(l, c) && BeginDispatch(l, c, now).Ok?
    ensures ChargesAsReported(l, BeginDispatch(l, c, now).value, m, c, false, NotReported)
  {
    BeginMovesTheQueued(l, c, now);
  }

  lemma WorkerCharges(s: Sys, w: WorkerId, m: Id)
    requires Inv(s) && w in s.workers
    ensures ChargesAsReported(s.ledger, Advance(s, w, s.workers[w]).ledger, m, s.workers[w].claim, SaysCharged(s, w), Reports(s.workers[w]))
  {
    ClaimIsTrue(s, w);
    var l, now := s.ledger, s.now;
    match s.workers[w]
    case ExecLeased(c) => if BeginDispatch(l, c, now).Ok? { BeginCharges(l, c, now, m); }
    case ExecAnswered(c, answer) => AnswerCharges(l, c, answer, FindLive(l.tasks, ReconcileAttempt, c.attemptId), now, m);
    case ExecReleasing(c, reason) => if ReleaseDispatch(l, c, reason, now).Ok? { ReleaseCharges(l, c, reason, now, m); }
    case RecAnswered(c, _, truth) =>
      if IsUnknown(l, c.attemptId) { ReconciledIsSettled(l, c, truth, now); }
      if ApplyReconciliationResult(l, c, truth, now).Ok? { ProofCharges(l, c, truth, now, m); }
    case _ =>
      OtherPlacesKeepAttempts(s, w, s.workers[w]);
      OtherPlacesKeepMandates(s, w, s.workers[w]);
  }

  lemma OtherAttemptsSame(s: Sys, w: WorkerId, s': Sys, m: Id, a: Id)
    requires Inv(s) && w in s.workers && s' == Advance(s, w, s.workers[w]) && a != s.workers[w].claim.attemptId
    requires Lawful(s.ledger, s'.ledger, s.now)
    ensures Charged(s'.ledger, a, m) <==> Charged(s.ledger, a, m)
  {
    WorkersLeaveOtherAttempts(s, w, s.workers[w], a);
    LawfulAttempt(s.ledger, s'.ledger, a, s.now);
  }

  // ---- what an attempt cost ----

  /** By the vendor's answer if that was a success, and otherwise by what correlation proved. */
  function Cost(answer: Option<DispatchResult>, proved: Option<CorrelationResult>, amountCents: int): int {
    if answer.Some? && answer.value.DispatchSucceeded? then Price(answer.value.finalAmount, amountCents)
    else if proved.Some? then Price(proved.value.finalAmount, amountCents)
    else 0
  }

  /** What attempt `a` cost mandate `m` in the run. */
  ghost function CostOn(s: Sys, acts: seq<Action>, m: Id, a: Id): int {
    var l := Exec(s, acts).ledger;
    if Charged(l, a, m) then Cost(AnswerOf(s, acts, a), ProvedFor(s, acts, a), l.attempts[a].amountCents) else 0
  }

  /** What the attempts with an id below `n` cost mandate `m` together. */
  ghost function TotalCost(s: Sys, acts: seq<Action>, m: Id, n: nat): int {
    if n == 0 then 0 else TotalCost(s, acts, m, n - 1) + CostOn(s, acts, m, n - 1)
  }

  /** What is on record about a charged attempt does not change any more. */
  lemma RecordsStay(s: Sys, act: Action, a: Id, m: Id)
    requires Inv(s) && Charged(s.ledger, a, m)
    ensures !Answers(s, act, a) && !Resolves(s, act, a)
  {
    if act.VendorAnswers? && act.w in s.workers { ClaimIsTrue(s, act.w); }
  }

  lemma AmountStays(s: Sys, act: Action, a: Id, m: Id)
    requires Inv(s) && Charged(s.ledger, a, m)
    ensures a in Do(s, act).ledger.attempts && Do(s, act).ledger.attempts[a].amountCents == s.ledger.attempts[a].amountCents
  {
    EveryActionIsLawful(s, act);
    LawfulAttempt(s.ledger, Do(s, act).ledger, a, s.now);
  }

  lemma CostStays(s0: Sys, acts: seq<Action>, m: Id, a: Id)
    requires Init(s0) && acts != []
    requires Charged(Exec(s0, acts).ledger, a, m) <==> Charged(Exec(s0, acts[..|acts| - 1]).ledger, a, m)
    ensures CostOn(s0, acts, m, a) == CostOn(s0, acts[..|acts| - 1], m, a)
  {
    var front, act := acts[..|acts| - 1], acts[|acts| - 1];
    EveryReachableStateIsSafe(s0, front);
    if Charged(Exec(s0, front).ledger, a, m) {
      RecordsStay(Exec(s0, front), act, a, m);
      AmountStays(Exec(s0, front), act, a, m);
    }
  }

  /** The charge is on record with the answer or the proof it comes from. */
  lemma CostArises(s0: Sys, acts: seq<Action>, w: WorkerId)
    requires Init(s0) && acts != [] && acts[|acts| - 1] == Proceed(w) && SaysCharged(Exec(s0, acts[..|acts| - 1]), w)
    ensures
      var s := Exec(s0, acts[..|acts| - 1]);
      var c := s.workers[w].claim;
      Charged(Exec(s0, acts).ledger, c.attemptId, c.mandateId) ==>
        CostOn(s0, acts, c.mandateId, c.attemptId) == Price(Reports(s.workers[w]), c.amountCents)
  {
    var front := acts[..|acts| - 1];
    var s := Exec(s0, front);
    var a := s.workers[w].claim.attemptId;
    EveryReachableStateIsSafe(s0, front);
    ClaimIsTrue(s, w);
    EveryActionIsLawful(s, Proceed(w));
    LawfulAttempt(s.ledger, Exec(s0, acts).ledger, a, s.now);
    AnswersAreOnRecord(s0, front, a);
    EveryRunTellsTheStory(s0, front, a);
  }

  // ---- the sum ----

  lemma {:induction false} SumStays(s0: Sys, acts: seq<Action>, more: seq<Action>, m: Id, n: nat)
    requires forall a: Id :: a < n ==> CostOn(s0, more, m, a) == CostOn(s0, acts, m, a)
    ensures TotalCost(s0, more, m, n) == TotalCost(s0, acts, m, n)
  {
    if n > 0 { SumStays(s0, acts, more, m, n - 1); }
  }

  lemma {:induction false} SumGrows(s0: Sys, acts: seq<Action>, more: seq<Action>, m: Id, n: nat, a0: Id)
    requires a0 < n && forall a :: a != a0 ==> CostOn(s0, more, m, a) == CostOn(s0, acts, m, a)
    ensures TotalCost(s0, more, m, n) == TotalCost(s0, acts, m, n) + CostOn(s0, more, m, a0) - CostOn(s0, acts, m, a0)
  {
    if n - 1 == a0 {
      SumStays(s0, acts, more, m, n - 1);
    } else {
      SumGrows(s0, acts, more, m, n - 1, a0);
    }
  }

  /** Ids that are not used yet cost nothing. */
  lemma {:induction false} NoCostBeyond(s0: Sys, acts: seq<Action>, m: Id, n: nat)
    requires Sound(Exec(s0, acts).ledger) && Exec(s0, acts).ledger.nextId <= n
    ensures TotalCost(s0, acts, m, n) == TotalCost(s0, acts, m, Exec(s0, acts).ledger.nextId)
  {
    if Exec(s0, acts).ledger.nextId < n { NoCostBeyond(s0, acts, m, n - 1); }
  }

  lemma TotalFollows(s0: Sys, acts: seq<Action>, m: Id)
    requires Init(s0) && acts != []
    ensures
      var front := acts[..|acts| - 1];
      var n := Exec(s0, acts).ledger.nextId;
      TotalCost(s0, acts, m, n) - TotalCost(s0, front, m, n) == Consumed(Exec(s0, acts).ledger, m) - Consumed(Exec(s0, front).ledger, m)
  {
    var front, act := acts[..|acts| - 1], acts[|acts| - 1];
    var s := Exec(s0, front);
    var n := Exec(s0, acts).ledger.nextId;
    EveryReachableStateIsSafe(s0, front);
    if act.Proceed? && act.w in s.workers {
      WorkerAddsItsCharge(s0, acts, m, act.w);
    } else {
      OthersConsumeNothing(s, act, m);
      forall a ensures CostOn(s0, acts, m, a) == CostOn(s0, front, m, a) { CostStays(s0, acts, m, a); }
      SumStays(s0, front, acts, m, n);
    }
  }

  lemma WorkerAddsItsCharge(s0: Sys, acts: seq<Action>, m: Id, w: WorkerId)
    requires Init(s0) && acts != [] && acts[|acts| - 1] == Proceed(w) && w in Exec(s0, acts[..|acts| - 1]).workers
    ensures
      var front := acts[..|acts| - 1];
      var n := Exec(s0, acts).ledger.nextId;
      TotalCost(s0, acts, m, n) - TotalCost(s0, front, m, n) == Consumed(Exec(s0, acts).ledger, m) - Consumed(Exec(s0, front).ledger, m)
  {
    var front := acts[..|acts| - 1];
    var s, s' := Exec(s0, front), Exec(s0, acts);
    var c := s.workers[w].claim;
    EveryReachableStateIsSafe(s0, front);
    EveryActionIsLawful(s, Proceed(w));
    ClaimIsTrue(s, w);
    forall a | a != c.attemptId ensures CostOn(s0, acts, m, a) == CostOn(s0, front, m, a) {
      OtherAttemptsSame(s, w, s', m, a);
      CostStays(s0, acts, m, a);
    }
    WorkerCharges(s, w, m);
    if SaysCharged(s, w) && c.mandateId == m {
      CostArises(s0, acts, w);
    } else {
      CostStays(s0, acts, m, c.attemptId);
    }
    SumGrows(s0, front, acts, m, s'.ledger.nextId, c.attemptId);
  }

  // ---- main result ----

  /** In every run a mandate has consumed what its charged attempts cost together: each the amount that the vendor's
      answer reported, or correlation when the answer was unresolved, capped at the amount it had reserved. */
  lemma {:induction false} MandatesConsumeWhatTheirChargesCost(s0: Sys, acts: seq<Action>, m: Id)
    requires Init(s0)
    ensures Consumed(Exec(s0, acts).ledger, m) == TotalCost(s0, acts, m, Exec(s0, acts).ledger.nextId)
    decreases |acts|
  {
    EveryReachableStateIsSafe(s0, acts);
    if acts == [] {
      NobodyCharged(s0, acts, m, s0.ledger.nextId);
    } else {
      var front := acts[..|acts| - 1];
      MandatesConsumeWhatTheirChargesCost(s0, front, m);
      EveryReachableStateIsSafe(s0, front);
      EveryActionIsLawful(Exec(s0, front), acts[|acts| - 1]);
      NoCostBeyond(s0, front, m, Exec(s0, acts).ledger.nextId);
      TotalFollows(s0, acts, m);
    }
  }

  lemma {:induction false} NobodyCharged(s0: Sys, acts: seq<Action>, m: Id, n: nat)
    requires Exec(s0, acts).ledger.attempts == map[]
    ensures TotalCost(s0, acts, m, n) == 0
  {
    if n > 0 { NobodyCharged(s0, acts, m, n - 1); }
  }
}

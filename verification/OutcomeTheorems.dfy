/** Main results about how an attempt ends, set against what the vendor answered. */
module OutcomeTheorems {
  import opened Domain
  import opened Ledger
  import opened Money
  import opened Protocol
  import opened Workers
  import opened System
  import opened History
  import opened Runs
  import opened LogTheorems
  import opened DispatchTheorems
  import opened ClosedMandates
  import opened UnresolvedTheorems

  // ---- what happened in a run ----

  predicate Answers(s: Sys, act: Action, a: Id) {
    act.VendorAnswers? && act.w in s.workers && s.workers[act.w].ExecAwaiting? && s.workers[act.w].claim.attemptId == a
  }

  /** What the vendor answered for attempt `a`. */
  ghost function AnswerOf(s: Sys, acts: seq<Action>, a: Id): Option<DispatchResult>
    decreases |acts|
  {
    if acts == [] then None
    else
      var front, act := acts[..|acts| - 1], acts[|acts| - 1];
      if Answers(Exec(s, front), act, a) then Some(act.answer) else AnswerOf(s, front, a)
  }

  /** The transaction that was to store the answer throws. */
  predicate ThrowsSettling(s: Sys, act: Action, a: Id) {
    act.Throws? && act.w in s.workers && s.workers[act.w].ExecAnswered? && s.workers[act.w].claim.attemptId == a
  }

  ghost predicate SettlingThrew(s: Sys, acts: seq<Action>, a: Id)
    decreases |acts|
  {
    acts != [] && (SettlingThrew(s, acts[..|acts| - 1], a) || ThrowsSettling(Exec(s, acts[..|acts| - 1]), acts[|acts| - 1], a))
  }

  ghost predicate Resolves(s: Sys, act: Action, a: Id) {
    act.Proceed? && act.w in s.workers && Resolving(s.workers[act.w], a) && IsUnknown(s.ledger, a)
  }

  /** What correlation proved about attempt `a` while it was unresolved. */
  ghost function ProvedFor(s: Sys, acts: seq<Action>, a: Id): Option<CorrelationResult>
    decreases |acts|
  {
    if acts == [] then None
    else
      var s1, act := Exec(s, acts[..|acts| - 1]), acts[|acts| - 1];
      Proof(s1, act, a, ProvedFor(s, acts[..|acts| - 1], a))
  }

  ghost function Proof(s: Sys, act: Action, a: Id, before: Option<CorrelationResult>): Option<CorrelationResult> {
    if Resolves(s, act, a) then Some(s.workers[act.w].truth) else before
  }

  // ---- what the places, the answer and the status say of each other ----

  predicate HasStatus(l: Ledger, a: Id, status: AttemptStatus) {
    a in l.attempts && l.attempts[a].status == status
  }

  /** The status the vendor's answer calls for. */
  predicate AsAnswered(answer: DispatchResult, status: AttemptStatus) {
    match answer
    case DispatchSucceeded(_, _, _) => status == ChargeSucceeded
    case DispatchFailed(_, _, _) => status == ChargeFailed
    case DispatchUnknown(_, _, _, _) => status == ExecutionUnknown
  }

  /** The status correlation calls for. */
  predicate AsProved(proved: Option<CorrelationResult>, status: AttemptStatus) {
    match proved
    case None => false
    case Some(truth) => if truth.succeeded then status == ChargeSucceeded else status == ChargeFailed
  }

  /** The outcome is the vendor's, or the vendor's was unresolved and correlation proved this one. */
  predicate Explained(answer: DispatchResult, proved: Option<CorrelationResult>, status: AttemptStatus) {
    AsAnswered(answer, status) || (answer.DispatchUnknown? && AsProved(proved, status))
  }

  predicate Critical(pc: Pc) {
    pc.ExecAnswered? || pc.ExecSettled? || pc.ExecReleasing?
  }

  /** A worker that acts for attempt `a` after the vendor was called. */
  ghost predicate PlaceTells(s: Sys, a: Id, threw: bool, w: WorkerId) {
    w in s.workers && s.workers[w].claim.attemptId == a && Critical(s.workers[w]) ==>
      match s.workers[w]
      case ExecAnswered(_, _) => !threw
      case ExecSettled(_) => !HasStatus(s.ledger, a, Dispatching)
      case _ => HasStatus(s.ledger, a, Dispatching) && a in s.answers ==> threw
  }

  ghost predicate StatusTells(s: Sys, a: Id, threw: bool, proved: Option<CorrelationResult>) {
    && (IsUnknown(s.ledger, a) ==> a in s.answers && s.answers[a].DispatchUnknown?)
    && (IsSettled(s.ledger, a) ==> a in s.answers && Explained(s.answers[a], proved, s.ledger.attempts[a].status))
    && (HasStatus(s.ledger, a, CancelledReleased) && a in s.answers ==> threw)
    && (threw ==> a in s.answers && (HasStatus(s.ledger, a, Dispatching) || HasStatus(s.ledger, a, CancelledReleased)))
  }

  ghost predicate Story(s: Sys, a: Id, threw: bool, proved: Option<CorrelationResult>) {
    StatusTells(s, a, threw, proved) && forall w {:trigger PlaceTells(s, a, threw, w)} :: PlaceTells(s, a, threw, w)
  }

  ghost predicate SameAnswer(s: Sys, s': Sys, a: Id) {
    (a in s'.answers <==> a in s.answers) && (a in s.answers ==> s'.answers[a] == s.answers[a])
  }

  ghost predicate SameStatus(l: Ledger, l': Ledger, a: Id) {
    (a in l'.attempts <==> a in l.attempts) && (a in l.attempts ==> l'.attempts[a].status == l.attempts[a].status)
  }

  lemma StatusStillTells(s: Sys, s': Sys, a: Id, threw: bool, proved: Option<CorrelationResult>)
    requires StatusTells(s, a, threw, proved) && SameAnswer(s, s', a) && SameStatus(s.ledger, s'.ledger, a)
    ensures StatusTells(s', a, threw, proved)
  {}

  lemma PlaceStillTells(s: Sys, s': Sys, a: Id, threw: bool, w: WorkerId)
    requires PlaceTells(s, a, threw, w) && SameAnswer(s, s', a) && SameStatus(s.ledger, s'.ledger, a)
    requires w in s'.workers && Critical(s'.workers[w]) ==> w in s.workers && s.workers[w] == s'.workers[w]
    ensures PlaceTells(s', a, threw, w)
  {}

  /** A worker that does not move acts for `a` as before, and a worker of another attempt never does. */
  lemma StoryCarries(s: Sys, s': Sys, a: Id, threw: bool, proved: Option<CorrelationResult>, w0: WorkerId)
    requires Story(s, a, threw, proved) && SameAnswer(s, s', a) && SameStatus(s.ledger, s'.ledger, a)
    requires forall w :: w != w0 && w in s'.workers && Critical(s'.workers[w]) ==> w in s.workers && s.workers[w] == s'.workers[w]
    requires PlaceTells(s', a, threw, w0)
    ensures Story(s', a, threw, proved)
  {
    StatusStillTells(s, s', a, threw, proved);
    forall w ensures PlaceTells(s', a, threw, w) {
      if w != w0 {
        assert PlaceTells(s, a, threw, w);
        PlaceStillTells(s, s', a, threw, w);
      }
    }
  }

  // ---- operators, the clock, leases, status calls and deaths ----

  /** An attempt that does not exist has no story. */
  lemma NoStoryYet(s: Sys, a: Id, threw: bool, proved: Option<CorrelationResult>)
    requires Inv(s) && a !in s.ledger.attempts && Story(s, a, threw, proved)
    ensures a !in s.answers && !threw && forall w :: w in s.workers ==> s.workers[w].claim.attemptId != a
  {
    assert SendOk(s.ledger.attempts, s.sends, s.answers, a);
    forall w | w in s.workers ensures s.workers[w].claim.attemptId != a {
      ClaimIsTrue(s, w);
    }
  }

  lemma BirthStartsStory(s: Sys, s': Sys, a: Id, threw: bool, proved: Option<CorrelationResult>)
    requires Inv(s) && a !in s.ledger.attempts && Story(s, a, threw, proved)
    requires s'.workers == s.workers && s'.answers == s.answers && a in s'.ledger.attempts && Born(s'.ledger.attempts[a])
    ensures Story(s', a, threw, proved)
  {
    NoStoryYet(s, a, threw, proved);
  }

  lemma OperatorKeepsStory(s: Sys, act: Action, a: Id, threw: bool, proved: Option<CorrelationResult>)
    requires Inv(s) && Story(s, a, threw, proved)
    requires act.Create? || act.Revoke? || act.Run? || act.QueueReconciliation?
    ensures Story(Do(s, act), a, threw, proved)
  {
    var s' := Do(s, act);
    OperatorsMoveNobody(s, act);
    if a in s.ledger.attempts {
      OperatorsLeaveAttempts(s, act, a);
      assert PlaceTells(s, a, threw, 0);
      StoryCarries(s, s', a, threw, proved, 0);
    } else if a in s'.ledger.attempts {
      NewAttemptsAreBorn(s, act, a);
      BirthStartsStory(s, s', a, threw, proved);
    } else {
      assert PlaceTells(s, a, threw, 0);
      StoryCarries(s, s', a, threw, proved, 0);
    }
  }

  lemma OperatorsMoveNobody(s: Sys, act: Action)
    requires act.Create? || act.Revoke? || act.Run? || act.QueueReconciliation?
    ensures Do(s, act).workers == s.workers && Do(s, act).answers == s.answers
  {}

  lemma BystanderKeepsStory(s: Sys, act: Action, a: Id, threw: bool, proved: Option<CorrelationResult>)
    requires Story(s, a, threw, proved) && (act.Tick? || act.LeaseNext? || act.StatusAnswers? || act.Dies?)
    ensures Story(Do(s, act), a, threw, proved)
  {
    var s' := Do(s, act);
    OthersTouchNoRows(s, act);
    BystandersMoveNobody(s, act, 0);
    StatusStillTells(s, s', a, threw, proved);
    forall w ensures PlaceTells(s', a, threw, w) {
      BystandersMoveNobody(s, act, w);
      assert PlaceTells(s, a, threw, w);
      PlaceStillTells(s, s', a, threw, w);
    }
  }

  /** None of these takes a worker to a place after the vendor's call. */
  lemma BystandersMoveNobody(s: Sys, act: Action, w: WorkerId)
    requires act.Tick? || act.LeaseNext? || act.StatusAnswers? || act.Dies?
    ensures Do(s, act).answers == s.answers
    ensures w in Do(s, act).workers && Critical(Do(s, act).workers[w]) ==> w in s.workers && s.workers[w] == Do(s, act).workers[w]
  {}

  // ---- the vendor answers ----

  lemma AnswerKeepsStory(s: Sys, act: Action, a: Id, threw: bool, proved: Option<CorrelationResult>)
    requires Inv(s) && Story(s, a, threw, proved) && act.VendorAnswers?
    ensures Story(Do(s, act), a, threw, proved)
  {
    var s' := Do(s, act);
    if Answers(s, act, a) {
      ClaimIsTrue(s, act.w);
      HolderIsAlone(s, act.w);
      forall w ensures PlaceTells(s', a, threw, w) {
        if w != act.w && w in s.workers && Holding(s.workers[w]) { assert s.workers[w].claim.attemptId == a ==> Acts(s.workers, w, a); }
      }
    } else if act.w in s.workers && s.workers[act.w].ExecAwaiting? {
      StoryCarries(s, s', a, threw, proved, act.w);
    }
  }

  // ---- something throws ----

  /** The vendor's answer is on record, is not stored, and nobody else acts for the attempt. */
  lemma ThrownSettlementIsTold(s: Sys, w: WorkerId, a: Id, threw: bool, proved: Option<CorrelationResult>)
    requires Inv(s) && Story(s, a, threw, proved) && ThrowsSettling(s, Throws(w), a)
    ensures Story(Do(s, Throws(w)), a, true, proved)
  {
    var s' := Do(s, Throws(w));
    ClaimIsTrue(s, w);
    HolderIsAlone(s, w);
    forall v ensures PlaceTells(s', a, true, v) {
      if v != w { assert v in s'.workers && Critical(s'.workers[v]) && s'.workers[v].claim.attemptId == a ==> Acts(s.workers, v, a); }
    }
  }

  lemma OtherThrowKeepsStory(s: Sys, w: WorkerId, a: Id, threw: bool, proved: Option<CorrelationResult>)
    requires Inv(s) && Story(s, a, threw, proved) && w in s.workers && !ThrowsSettling(s, Throws(w), a)
    ensures Story(AfterThrow(s, w, s.workers[w]), a, threw, proved)
  {
    var s' := AfterThrow(s, w, s.workers[w]);
    ClaimIsTrue(s, w);
    assert PlaceTells(s, a, threw, w);
    StoryCarries(s, s', a, threw, proved, w);
  }

  lemma ThrowKeepsStory(s: Sys, w: WorkerId, a: Id, threw: bool, proved: Option<CorrelationResult>)
    requires Inv(s) && Story(s, a, threw, proved)
    ensures Story(Do(s, Throws(w)), a, threw || ThrowsSettling(s, Throws(w), a), proved)
  {
    if w in s.workers {
      if ThrowsSettling(s, Throws(w), a) {
        ThrownSettlementIsTold(s, w, a, threw, proved);
      } else {
        OtherThrowKeepsStory(s, w, a, threw, proved);
      }
    }
  }

  // ---- a worker goes on ----

  lemma AdvanceKeepsAnswers(s: Sys, w: WorkerId, pc: Pc)
    ensures Advance(s, w, pc).answers == s.answers
  {}

  /** The attempts but the worker's own stay as they are. */
  lemma WorkersLeaveOtherAttempts(s: Sys, w: WorkerId, pc: Pc, a: Id)
    requires pc.claim.attemptId != a
    ensures SameStatus(s.ledger, Advance(s, w, pc).ledger, a)
  {
    match pc
    case ExecAnswered(c, answer) =>
      var found := FindLive(s.ledger.tasks, ReconcileAttempt, c.attemptId);
      if ApplyDispatchResult(s.ledger, c, answer, found, s.now).Ok? {
        DispatchResultIsSettle(s.ledger, c, answer, found, s.now);
      }
    case ExecLeased(_) =>
    case ExecReleasing(_, _) =>
    case RecAnswered(_, _, _) =>
    case _ => OtherPlacesKeepAttempts(s, w, pc);
  }

  ghost predicate MovesAlone(s: Sys, s': Sys, w: WorkerId) {
    s'.answers == s.answers && forall v {:trigger StaysPut(s, s', v)} :: v != w ==> StaysPut(s, s', v)
  }

  lemma AdvanceMovesAlone(s: Sys, w: WorkerId, pc: Pc)
    ensures MovesAlone(s, Advance(s, w, pc), w)
  {
    AdvanceKeepsAnswers(s, w, pc);
    forall v | v != w ensures StaysPut(s, Advance(s, w, pc), v) { WorkersMoveAlone(s, w, pc, v); }
  }

  /** A step after which the attempt has the status it had, and the worker a place that tells the truth. */
  lemma StepCarries(s: Sys, w: WorkerId, a: Id, threw: bool, proved: Option<CorrelationResult>, s': Sys)
    requires Story(s, a, threw, proved) && MovesAlone(s, s', w)
    requires SameStatus(s.ledger, s'.ledger, a) && PlaceTells(s', a, threw, w)
    ensures Story(s', a, threw, proved)
  {
    forall v | v != w && v in s'.workers && Critical(s'.workers[v]) ensures v in s.workers && s.workers[v] == s'.workers[v] {
      assert StaysPut(s, s', v);
    }
    StoryCarries(s, s', a, threw, proved, w);
  }

  /** The worker's own attempt takes a new status, and nobody else acts for it. */
  lemma StatusMoves(s: Sys, w: WorkerId, a: Id, threw: bool, proved: Option<CorrelationResult>, s': Sys)
    requires MovesAlone(s, s', w) && forall v :: Acts(s.workers, v, a) ==> v == w
    requires StatusTells(s', a, threw, proved) && PlaceTells(s', a, threw, w)
    ensures Story(s', a, threw, proved)
  {
    forall v ensures PlaceTells(s', a, threw, v) {
      if v != w {
        assert StaysPut(s, s', v);
        assert v in s'.workers && Critical(s'.workers[v]) && s'.workers[v].claim.attemptId == a ==> Acts(s.workers, v, a);
      }
    }
  }

  lemma BeginKeepsStory(s: Sys, w: WorkerId, c: Claim, threw: bool, proved: Option<CorrelationResult>)
    requires Inv(s) && Story(s, c.attemptId, threw, proved) && w in s.workers && s.workers[w] == ExecLeased(c)
    ensures Story(StepBegin(s, w, c), c.attemptId, threw, proved)
  {
    AdvanceMovesAlone(s, w, s.workers[w]);
    var s' := StepBegin(s, w, c);
    ClaimIsTrue(s, w);
    if BeginDispatch(s.ledger, c, s.now).Ok? {
      QueuedBeforeBegin(s.ledger, c, s.now);
      NobodyActsYet(s, c.attemptId);
      assert HasStatus(s'.ledger, c.attemptId, Dispatching) && !threw;
      StatusMoves(s, w, c.attemptId, threw, proved, s');
    } else {
      StepCarries(s, w, c.attemptId, threw, proved, s');
    }
  }

  lemma QueuedBeforeBegin(l: Ledger, c: Claim, now: Millis)
    requires Sound(l) && ClaimMatches(l, c) && BeginDispatch(l, c, now).Ok?
    ensures HasStatus(l, c.attemptId, DispatchQueued) && HasStatus(BeginDispatch(l, c, now).value, c.attemptId, Dispatching)
  {
    assert AttemptOk(l.mandates, l.attempts[c.attemptId], c.attemptId);
  }

  lemma PreflightKeepsStory(s: Sys, w: WorkerId, c: Claim, threw: bool, proved: Option<CorrelationResult>)
    requires Inv(s) && Story(s, c.attemptId, threw, proved) && w in s.workers && s.workers[w] == ExecBegun(c)
    ensures Story(StepPreflight(s, w, c), c.attemptId, threw, proved)
  {
    AdvanceMovesAlone(s, w, s.workers[w]);
    ClaimIsTrue(s, w);
    StepCarries(s, w, c.attemptId, threw, proved, StepPreflight(s, w, c));
  }

  lemma SendKeepsStory(s: Sys, w: WorkerId, c: Claim, threw: bool, proved: Option<CorrelationResult>)
    requires Story(s, c.attemptId, threw, proved) && w in s.workers && s.workers[w] == ExecCleared(c)
    ensures Story(StepSend(s, w, c), c.attemptId, threw, proved)
  {
    AdvanceMovesAlone(s, w, s.workers[w]);
    StepCarries(s, w, c.attemptId, threw, proved, StepSend(s, w, c));
  }

  /** Storing the answer of a dispatching attempt meets no guard. */
  lemma SettlingSucceeds(l: Ledger, c: Claim, answer: DispatchResult, found: Option<Id>, now: Millis)
    requires Sound(l) && ClaimMatches(l, c) && l.attempts[c.attemptId].status == Dispatching
    ensures ApplyDispatchResult(l, c, answer, found, now).Ok?
    ensures HasStatus(ApplyDispatchResult(l, c, answer, found, now).value, c.attemptId, answer.Status())
  {
    assert AttemptOk(l.mandates, l.attempts[c.attemptId], c.attemptId);
    DispatchResultIsSettle(l, c, answer, found, now);
  }

  lemma AnswerIsTold(s: Sys, a: Id, answer: DispatchResult, proved: Option<CorrelationResult>)
    requires a in s.answers && s.answers[a] == answer && HasStatus(s.ledger, a, answer.Status())
    ensures StatusTells(s, a, false, proved)
  {}

  lemma SettleKeepsStory(s: Sys, w: WorkerId, c: Claim, answer: DispatchResult, threw: bool, proved: Option<CorrelationResult>)
    requires Inv(s) && Story(s, c.attemptId, threw, proved) && w in s.workers && s.workers[w] == ExecAnswered(c, answer)
    ensures Story(StepSettle(s, w, c, answer), c.attemptId, threw, proved)
  {
    AdvanceMovesAlone(s, w, s.workers[w]);
    ClaimIsTrue(s, w);
    assert PlaceTells(s, c.attemptId, threw, w);
    HolderIsAlone(s, w);
    SettlingSucceeds(s.ledger, c, answer, FindLive(s.ledger.tasks, ReconcileAttempt, c.attemptId), s.now);
    AnswerIsTold(StepSettle(s, w, c, answer), c.attemptId, answer, proved);
    StatusMoves(s, w, c.attemptId, threw, proved, StepSettle(s, w, c, answer));
  }

  lemma CompleteKeepsStory(s: Sys, w: WorkerId, c: Claim, threw: bool, proved: Option<CorrelationResult>)
    requires Story(s, c.attemptId, threw, proved) && w in s.workers && s.workers[w] == ExecSettled(c)
    ensures Story(StepComplete(s, w, c, ExecReleasing(c, ExecutionWorkerFailed)), c.attemptId, threw, proved)
  {
    AdvanceMovesAlone(s, w, s.workers[w]);
    assert PlaceTells(s, c.attemptId, threw, w);
    StepCarries(s, w, c.attemptId, threw, proved, StepComplete(s, w, c, ExecReleasing(c, ExecutionWorkerFailed)));
  }

  lemma ReleaseKeepsStory(s: Sys, w: WorkerId, c: Claim, reason: BlockedReason, threw: bool, proved: Option<CorrelationResult>)
    requires Inv(s) && Story(s, c.attemptId, threw, proved) && w in s.workers && s.workers[w] == ExecReleasing(c, reason)
    ensures Story(StepRelease(s, w, c, reason), c.attemptId, threw, proved)
  {
    AdvanceMovesAlone(s, w, s.workers[w]);
    var s' := StepRelease(s, w, c, reason);
    ClaimIsTrue(s, w);
    assert PlaceTells(s, c.attemptId, threw, w);
    if ReleaseDispatch(s.ledger, c, reason, s.now).Ok? {
      ReleasesOnlyDispatching(s.ledger, c, reason, s.now);
      HolderIsAlone(s, w);
      StatusMoves(s, w, c.attemptId, threw, proved, s');
    } else {
      StepCarries(s, w, c.attemptId, threw, proved, s');
    }
  }

  lemma ReconciledIsSettled(l: Ledger, c: Claim, truth: CorrelationResult, now: Millis)
    requires Sound(l) && ClaimMatches(l, c) && IsUnknown(l, c.attemptId)
    ensures ApplyReconciliationResult(l, c, truth, now).Ok?
    ensures HasStatus(ApplyReconciliationResult(l, c, truth, now).value, c.attemptId, truth.Status())
  {
    assert AttemptOk(l.mandates, l.attempts[c.attemptId], c.attemptId);
  }

  lemma ProofIsTold(s: Sys, a: Id, truth: CorrelationResult)
    requires a in s.answers && s.answers[a].DispatchUnknown? && HasStatus(s.ledger, a, truth.Status())
    ensures StatusTells(s, a, false, Some(truth))
  {}

  /** Nobody waits to store an answer for an unresolved attempt, and none is released any more. */
  lemma ReconciledPlaces(s: Sys, w: WorkerId, c: Claim, threw: bool, s': Sys)
    requires Inv(s) && w in s.workers && MovesAlone(s, s', w) && (w in s'.workers ==> !Critical(s'.workers[w]))
    requires IsUnknown(s.ledger, c.attemptId) && IsSettled(s'.ledger, c.attemptId)
    ensures forall v :: PlaceTells(s', c.attemptId, threw, v)
  {
    forall v ensures PlaceTells(s', c.attemptId, threw, v) {
      if v != w {
        assert StaysPut(s, s', v);
        if v in s.workers { ClaimIsTrue(s, v); }
      }
    }
  }

  /** Correlation settles an attempt that only workers past the vendor's call can still hold. */
  lemma ProofEndsStory(s: Sys, w: WorkerId, c: Claim, truth: CorrelationResult, threw: bool, proved: Option<CorrelationResult>, s': Sys)
    requires Inv(s) && Story(s, c.attemptId, threw, proved) && w in s.workers && IsUnknown(s.ledger, c.attemptId)
    requires MovesAlone(s, s', w) && (w in s'.workers ==> !Critical(s'.workers[w])) && HasStatus(s'.ledger, c.attemptId, truth.Status())
    ensures Story(s', c.attemptId, threw, Some(truth))
  {
    ProofIsTold(s', c.attemptId, truth);
    ReconciledPlaces(s, w, c, threw, s');
  }

  lemma ReconcileProves(s: Sys, w: WorkerId, c: Claim, seen: Attempt, truth: CorrelationResult,
                        threw: bool, proved: Option<CorrelationResult>)
    requires Inv(s) && Story(s, c.attemptId, threw, proved) && w in s.workers && s.workers[w] == RecAnswered(c, seen, truth)
    requires IsUnknown(s.ledger, c.attemptId)
    ensures Story(StepReconcile(s, w, c, seen, truth), c.attemptId, threw, Some(truth))
  {
    AdvanceMovesAlone(s, w, s.workers[w]);
    ClaimIsTrue(s, w);
    ReconciledIsSettled(s.ledger, c, truth, s.now);
    ProofEndsStory(s, w, c, truth, threw, proved, StepReconcile(s, w, c, seen, truth));
  }

  lemma ReconcileConflicts(s: Sys, w: WorkerId, c: Claim, seen: Attempt, truth: CorrelationResult,
                           threw: bool, proved: Option<CorrelationResult>)
    requires Story(s, c.attemptId, threw, proved) && w in s.workers && s.workers[w] == RecAnswered(c, seen, truth)
    requires !IsUnknown(s.ledger, c.attemptId)
    ensures Story(StepReconcile(s, w, c, seen, truth), c.attemptId, threw, proved)
  {
    AdvanceMovesAlone(s, w, s.workers[w]);
    StepCarries(s, w, c.attemptId, threw, proved, StepReconcile(s, w, c, seen, truth));
  }

  lemma OwnAttemptKeepsStory(s: Sys, w: WorkerId, threw: bool, proved: Option<CorrelationResult>)
    requires Inv(s) && w in s.workers && Story(s, s.workers[w].claim.attemptId, threw, proved)
    ensures
      var a := s.workers[w].claim.attemptId;
      Story(Advance(s, w, s.workers[w]), a, threw, Proof(s, Proceed(w), a, proved))
  {
    var pc := s.workers[w];
    match pc
    case ExecLeased(c) => BeginKeepsStory(s, w, c, threw, proved);
    case ExecBegun(c) => PreflightKeepsStory(s, w, c, threw, proved);
    case ExecCleared(c) => SendKeepsStory(s, w, c, threw, proved);
    case ExecAnswered(c, answer) => SettleKeepsStory(s, w, c, answer, threw, proved);
    case ExecSettled(c) => CompleteKeepsStory(s, w, c, threw, proved);
    case ExecReleasing(c, reason) => ReleaseKeepsStory(s, w, c, reason, threw, proved);
    case RecAnswered(c, seen, truth) =>
      if IsUnknown(s.ledger, c.attemptId) {
        ReconcileProves(s, w, c, seen, truth, threw, proved);
      } else {
        ReconcileConflicts(s, w, c, seen, truth, threw, proved);
      }
    case _ => QuietPlacesKeepStory(s, w, threw, proved);
  }

  predicate QuietPlace(pc: Pc) {
    || pc.ExecAwaiting? || pc.RecLeased? || pc.RecRead? || pc.RecReady? || pc.RecSettled? || pc.RecCaught?
    || pc.RecRequeueing? || pc.Failing?
  }

  lemma QuietPlacesKeepStory(s: Sys, w: WorkerId, threw: bool, proved: Option<CorrelationResult>)
    requires w in s.workers && Story(s, s.workers[w].claim.attemptId, threw, proved) && QuietPlace(s.workers[w])
    ensures Story(Advance(s, w, s.workers[w]), s.workers[w].claim.attemptId, threw, proved)
  {
    AdvanceMovesAlone(s, w, s.workers[w]);
    OtherPlacesKeepAttempts(s, w, s.workers[w]);
    QuietPlacesStayQuiet(s, w, s.workers[w]);
    StepCarries(s, w, s.workers[w].claim.attemptId, threw, proved, Advance(s, w, s.workers[w]));
  }

  lemma QuietPlacesStayQuiet(s: Sys, w: WorkerId, pc: Pc)
    requires w in s.workers && s.workers[w] == pc && QuietPlace(pc)
    ensures w in Advance(s, w, pc).workers ==> QuietPlace(Advance(s, w, pc).workers[w])
  {}

  lemma ClaimStays(s: Sys, w: WorkerId, pc: Pc)
    requires w in s.workers && s.workers[w] == pc
    ensures w in Advance(s, w, pc).workers ==> Advance(s, w, pc).workers[w].claim == pc.claim
  {}

  lemma OtherAttemptKeepsStory(s: Sys, w: WorkerId, a: Id, threw: bool, proved: Option<CorrelationResult>)
    requires w in s.workers && s.workers[w].claim.attemptId != a && Story(s, a, threw, proved)
    ensures Story(Advance(s, w, s.workers[w]), a, threw, proved)
  {
    AdvanceMovesAlone(s, w, s.workers[w]);
    WorkersLeaveOtherAttempts(s, w, s.workers[w], a);
    ClaimStays(s, w, s.workers[w]);
    StepCarries(s, w, a, threw, proved, Advance(s, w, s.workers[w]));
  }

  lemma ProceedKeepsStory(s: Sys, w: WorkerId, a: Id, threw: bool, proved: Option<CorrelationResult>)
    requires Inv(s) && Story(s, a, threw, proved)
    ensures Story(Do(s, Proceed(w)), a, threw, Proof(s, Proceed(w), a, proved))
  {
    if w in s.workers {
      if s.workers[w].claim.attemptId == a {
        OwnAttemptKeepsStory(s, w, threw, proved);
      } else {
        OtherAttemptKeepsStory(s, w, a, threw, proved);
      }
    }
  }

  // ---- every action, every run ----

  lemma ActionKeepsStory(s: Sys, act: Action, a: Id, threw: bool, proved: Option<CorrelationResult>)
    requires Inv(s) && Story(s, a, threw, proved)
    ensures Story(Do(s, act), a, threw || ThrowsSettling(s, act, a), Proof(s, act, a, proved))
  {
    if act.Create? || act.Revoke? || act.Run? || act.QueueReconciliation? {
      OperatorKeepsStory(s, act, a, threw, proved);
    } else if act.Proceed? {
      ProceedKeepsStory(s, act.w, a, threw, proved);
    } else if act.VendorAnswers? {
      AnswerKeepsStory(s, act, a, threw, proved);
    } else if act.Throws? {
      ThrowKeepsStory(s, act.w, a, threw, proved);
    } else {
      BystanderKeepsStory(s, act, a, threw, proved);
    }
  }

  lemma {:induction false} EveryRunTellsTheStory(s0: Sys, acts: seq<Action>, a: Id)
    requires Init(s0)
    ensures Story(Exec(s0, acts), a, SettlingThrew(s0, acts, a), ProvedFor(s0, acts, a))
    decreases |acts|
  {
    if acts == [] {
    } else {
      var front := acts[..|acts| - 1];
      EveryRunTellsTheStory(s0, front, a);
      EveryReachableStateIsSafe(s0, front);
      ActionKeepsStory(Exec(s0, front), acts[|acts| - 1], a, SettlingThrew(s0, front, a), ProvedFor(s0, front, a));
    }
  }

  lemma AnswerIsRecorded(s: Sys, act: Action, a: Id)
    ensures if Answers(s, act, a) then a in Do(s, act).answers && Do(s, act).answers[a] == act.answer else SameAnswer(s, Do(s, act), a)
  {
    if act.Proceed? && act.w in s.workers {
      AdvanceKeepsAnswers(s, act.w, s.workers[act.w]);
    }
  }

  lemma {:induction false} AnswersAreOnRecord(s0: Sys, acts: seq<Action>, a: Id)
    requires Init(s0)
    ensures
      var answers := Exec(s0, acts).answers;
      AnswerOf(s0, acts, a) == if a in answers then Some(answers[a]) else None
    decreases |acts|
  {
    if acts == [] {
    } else {
      AnswersAreOnRecord(s0, acts[..|acts| - 1], a);
      AnswerIsRecorded(Exec(s0, acts[..|acts| - 1]), acts[|acts| - 1], a);
    }
  }

  // ---- main results ----

  /** In every run an attempt that was charged or refused ended as the vendor answered, or the vendor left it
      unresolved and correlation proved that end. */
  lemma OutcomeIsAnsweredOrProved(s0: Sys, acts: seq<Action>, a: Id)
    requires Init(s0) && IsSettled(Exec(s0, acts).ledger, a)
    ensures
      var status, answer := Exec(s0, acts).ledger.attempts[a].status, AnswerOf(s0, acts, a);
      answer.Some? && (AsAnswered(answer.value, status) || (answer.value.DispatchUnknown? && AsProved(ProvedFor(s0, acts, a), status)))
  {
    EveryRunTellsTheStory(s0, acts, a);
    AnswersAreOnRecord(s0, acts, a);
  }

  /** In every run an attempt the vendor answered for, and that is no longer dispatching, was released exactly if the
      transaction that was to store the answer threw; otherwise a definite answer is the end it has. */
  lemma AnsweredIsReleasedIffSettlingThrew(s0: Sys, acts: seq<Action>, a: Id)
    requires Init(s0) && AnswerOf(s0, acts, a).Some? && !HasStatus(Exec(s0, acts).ledger, a, Dispatching)
    ensures a in Exec(s0, acts).ledger.attempts
    ensures
      var status, answer := Exec(s0, acts).ledger.attempts[a].status, AnswerOf(s0, acts, a).value;
      && (status == CancelledReleased <==> SettlingThrew(s0, acts, a))
      && (!SettlingThrew(s0, acts, a) && !answer.DispatchUnknown? ==> AsAnswered(answer, status))
  {
    EveryRunTellsTheStory(s0, acts, a);
    AnswersAreOnRecord(s0, acts, a);
    AnsweredIsPastDispatch(s0, acts, a);
  }

  lemma AnsweredIsPastDispatch(s0: Sys, acts: seq<Action>, a: Id)
    requires Init(s0) && a in Exec(s0, acts).answers
    ensures a in Exec(s0, acts).ledger.attempts && PastQueue(Exec(s0, acts).ledger.attempts[a].status)
  {
    EveryReachableStateIsSafe(s0, acts);
    var s := Exec(s0, acts);
    assert SendOk(s.ledger.attempts, s.sends, s.answers, a);
  }

  /** From any place where a worker holds the vendor's answer, a success included, an exception takes the attempt to
      a release. */
  lemma ThrownAnswerIsReleased(s: Sys, w: WorkerId)
    requires Inv(s) && w in s.workers && s.workers[w].ExecAnswered?
    ensures
      var a := s.workers[w].claim.attemptId;
      && a in s.answers && s.answers[a] == s.workers[w].answer
      && HasStatus(Do(Do(s, Throws(w)), Proceed(w)).ledger, a, CancelledReleased)
  {
    var c := s.workers[w].claim;
    ClaimIsTrue(s, w);
    assert AttemptOk(s.ledger.mandates, s.ledger.attempts[c.attemptId], c.attemptId);
    assert ReleaseDispatch(s.ledger, c, ExecutionWorkerFailed, s.now).Ok?;
  }
}

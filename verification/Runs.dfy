/** Statements about whole runs: what lasts, and the paths the statuses take. */
module Runs {
  import opened Domain
  import opened StateMachines
  import opened Ledger
  import opened Money
  import opened Protocol
  import opened Workers
  import opened System
  import opened History

  lemma EveryReachableStateIsSafe(s0: Sys, acts: seq<Action>)
    requires Init(s0)
    ensures Inv(Exec(s0, acts))
  {
    InitIsSafe(s0);
    EveryRunIsSafe(s0, acts);
  }

  lemma ExecOneMore(s: Sys, acts: seq<Action>, act: Action)
    ensures Exec(s, acts + [act]) == Do(Exec(s, acts), act)
  {
    var more := acts + [act];
    assert more[..|more| - 1] == acts;
  }

  /** A run may be cut anywhere. */
  lemma {:induction false} RunsCompose(s: Sys, xs: seq<Action>, ys: seq<Action>)
    ensures Exec(s, xs + ys) == Exec(Exec(s, xs), ys)
    decreases |ys|
  {
    if ys == [] {
      assert xs + ys == xs;
    } else {
      var front, last := ys[..|ys| - 1], ys[|ys| - 1];
      assert xs + ys == (xs + front) + [last] && ys == front + [last];
      RunsCompose(s, xs, front);
      ExecOneMore(s, xs + front, last);
      ExecOneMore(Exec(s, xs), front, last);
    }
  }

  // ---- what lasts ----

  ghost predicate AttemptLasts(a: Attempt, b: Attempt) {
    SameDeal(a, b) && (b.status == a.status || Rank(a.status) < Rank(b.status))
  }

  ghost predicate MandateLasts(m: Mandate, n: Mandate) {
    && n.id == m.id && n.budgetCapCents == m.budgetCapCents && n.expiresAt == m.expiresAt
    && m.consumedCents <= n.consumedCents
    && (m.status == Revoked || m.status == Expired ==> n.status == m.status && n.reservedCents <= m.reservedCents)
  }

  ghost predicate Lasting(l: Ledger, l': Ledger) {
    && l.nextId <= l'.nextId && l.attempts.Keys <= l'.attempts.Keys && l.mandates.Keys <= l'.mandates.Keys
    && (forall a {:trigger AttemptLasts(l.attempts[a], l'.attempts[a])} :: a in l.attempts ==> AttemptLasts(l.attempts[a], l'.attempts[a]))
    && (forall m {:trigger MandateLasts(l.mandates[m], l'.mandates[m])} :: m in l.mandates ==> MandateLasts(l.mandates[m], l'.mandates[m]))
    && |l.events| <= |l'.events| && l'.events[|l'.events| - |l.events|..] == l.events
  }

  lemma LawfulLasts(l: Ledger, l1: Ledger, l2: Ledger, now: Millis)
    requires Lasting(l, l1) && Lawful(l1, l2, now)
    ensures Lasting(l, l2)
  {
    forall a | a in l.attempts ensures AttemptLasts(l.attempts[a], l2.attempts[a]) {
      assert AttemptLasts(l.attempts[a], l1.attempts[a]) && AttemptStep(l1.attempts[a], l2.attempts[a]);
    }
    forall m | m in l.mandates ensures MandateLasts(l.mandates[m], l2.mandates[m]) {
      assert MandateLasts(l.mandates[m], l1.mandates[m]) && MandateStep(l1.mandates[m], l2.mandates[m], now);
    }
    GrowthAddsUp(l, l1, l2);
  }

  /** Nothing is ever deleted, terms never change, an attempt only climbs, a closed mandate stays closed,
      and the log only grows. */
  lemma {:induction false} RunsLast(s: Sys, acts: seq<Action>)
    requires Inv(s)
    ensures Lasting(s.ledger, Exec(s, acts).ledger)
    decreases |acts|
  {
    if acts == [] {
      LastsUnchanged(s.ledger);
    } else {
      RunsLast(s, acts[..|acts| - 1]);
      EveryRunIsSafe(s, acts[..|acts| - 1]);
      LastsOneMore(s.ledger, Exec(s, acts[..|acts| - 1]), acts[|acts| - 1], Exec(s, acts));
    }
  }

  lemma LastsUnchanged(l: Ledger)
    ensures Lasting(l, l)
  {}

  lemma LastsOneMore(l: Ledger, s: Sys, act: Action, s': Sys)
    requires Inv(s) && Lasting(l, s.ledger) && s' == Do(s, act)
    ensures Lasting(l, s'.ledger)
  {
    EveryActionIsLawful(s, act);
    LawfulLasts(l, s.ledger, s'.ledger, s.now);
  }

  /** An attempt that was settled, denied or released keeps that status for ever. */
  lemma ClosedStaysClosed(s: Sys, acts: seq<Action>, a: Id)
    requires Inv(s) && a in s.ledger.attempts && !Open(s.ledger.attempts[a].status)
    ensures a in Exec(s, acts).ledger.attempts
    ensures Exec(s, acts).ledger.attempts[a].status == s.ledger.attempts[a].status
  {
    RunsLast(s, acts);
    assert AttemptLasts(s.ledger.attempts[a], Exec(s, acts).ledger.attempts[a]);
    assert AttemptOk(s.ledger.mandates, s.ledger.attempts[a], a);
  }

  // ---- the path of an attempt ----

  /** The statuses an action gives attempt `a`, in order: what a request says it gave it, or the one status another
      step leaves it in. */
  ghost function Given(s: Sys, act: Action, a: Id): seq<AttemptStatus> {
    if act.Run? then GivenByRequest(s, act.run, act.freshIdentifier, act.treasury, a)
    else NewStatus(s.ledger.attempts, Do(s, act).ledger.attempts, a)
  }

  ghost function GivenByRequest(s: Sys, input: RunInput, generated: string, treasury: Treasury, a: Id): seq<AttemptStatus> {
    if !FreshIdentifier(s.ledger, generated) then []
    else
      var r := RunAttempt(s.ledger, input, generated, treasury, s.now);
      if r.Ok? && r.value.attempt.id == a then r.value.trail else []
  }

  function NewStatus(before: map<Id, Attempt>, after: map<Id, Attempt>, a: Id): seq<AttemptStatus> {
    if a in before && a in after && after[a].status != before[a].status then [after[a].status] else []
  }

  /** Every status an attempt was given, in order; empty before it exists. */
  ghost function AttemptPath(s: Sys, acts: seq<Action>, a: Id): seq<AttemptStatus>
    decreases |acts|
  {
    if acts == [] then []
    else
      var front := acts[..|acts| - 1];
      AttemptPath(s, front, a) + Given(Exec(s, front), acts[|acts| - 1], a)
  }

  /** A walk from created that ends where the attempt is, no longer than the attempt's rank allows. */
  ghost predicate PathFits(path: seq<AttemptStatus>, ats: map<Id, Attempt>, a: Id) {
    if a in ats then BirthTrail(path, ats[a]) else path == []
  }

  /** One action takes an existing attempt along at most one edge, and a new one from created to where it is. */
  ghost predicate GivenFits(given: seq<AttemptStatus>, before: map<Id, Attempt>, after: map<Id, Attempt>, a: Id) {
    if a in before then
      && a in after
      && (|| (given == [] && after[a].status == before[a].status)
          || (given == [after[a].status] && CanTransitionAttempt(before[a].status, after[a].status)))
    else PathFits(given, after, a)
  }

  lemma OnwardFits(path: seq<AttemptStatus>, given: seq<AttemptStatus>, before: map<Id, Attempt>, after: map<Id, Attempt>, a: Id)
    requires PathFits(path, before, a) && GivenFits(given, before, after, a)
    ensures PathFits(path + given, after, a)
  {
    if a in before {
      if given == [] {
        assert path + given == path;
      } else {
        WalkOn(path, after[a].status);
      }
    } else {
      assert path + given == given;
    }
  }

  lemma RequestMoves(s: Sys, input: RunInput, generated: string, treasury: Treasury, a: Id)
    requires Inv(s)
    ensures
      var ats' := Do(s, Run(input, generated, treasury)).ledger.attempts;
      GivenFits(GivenByRequest(s, input, generated, treasury, a), s.ledger.attempts, ats', a)
  {
    var r, s' := RunAttempt(s.ledger, input, generated, treasury, s.now), Do(s, Run(input, generated, treasury));
    if FreshIdentifier(s.ledger, generated) && r.Ok? {
      RequestsWalkTheTable(s.ledger, input, generated, treasury, s.now);
      TrailFits(s.ledger, r.value, a);
      assert s'.ledger == r.value.ledger;
      assert GivenByRequest(s, input, generated, treasury, a) == if r.value.attempt.id == a then r.value.trail else [];
    } else {
      assert s'.ledger == s.ledger && GivenByRequest(s, input, generated, treasury, a) == [];
    }
  }

  lemma TrailFits(l: Ledger, ran: Ran, a: Id)
    requires Sound(l)
    requires
      || (ran.ledger == l && ran.trail == [])
      || (&& BirthTrail(ran.trail, ran.attempt) && ran.attempt.id == l.nextId
          && ran.ledger.attempts == l.attempts[l.nextId := ran.attempt])
    ensures GivenFits(if ran.attempt.id == a then ran.trail else [], l.attempts, ran.ledger.attempts, a)
  {
    assert l.nextId !in l.attempts;
  }

  /** No action but a request makes an attempt. */
  lemma OnlyRequestsMakeAttempts(s: Sys, act: Action, a: Id)
    requires Inv(s) && !act.Run? && a !in s.ledger.attempts
    ensures a !in Do(s, act).ledger.attempts
  {
    if act.Proceed? && act.w in s.workers {
      ClaimIsTrue(s, act.w);
      WorkersMakeNoAttempts(s, act.w, a);
    }
  }

  lemma WorkersMakeNoAttempts(s: Sys, w: WorkerId, a: Id)
    requires w in s.workers && ClaimMatches(s.ledger, s.workers[w].claim) && a !in s.ledger.attempts
    ensures a !in Advance(s, w, s.workers[w]).ledger.attempts
  {
    match s.workers[w]
    case ExecAnswered(c, answer) =>
      var found := FindLive(s.ledger.tasks, ReconcileAttempt, c.attemptId);
      if ApplyDispatchResult(s.ledger, c, answer, found, s.now).Ok? {
        DispatchResultIsSettle(s.ledger, c, answer, found, s.now);
      }
    case _ =>
  }

  lemma StepGivesOneStatus(before: map<Id, Attempt>, after: map<Id, Attempt>, a: Id)
    requires a in before && a in after && AttemptStep(before[a], after[a])
    ensures GivenFits(NewStatus(before, after, a), before, after, a)
  {}

  lemma AttemptMoves(s: Sys, act: Action, a: Id)
    requires Inv(s)
    ensures GivenFits(Given(s, act, a), s.ledger.attempts, Do(s, act).ledger.attempts, a)
  {
    if act.Run? {
      RequestMoves(s, act.run, act.freshIdentifier, act.treasury, a);
    } else if a in s.ledger.attempts {
      EveryActionIsLawful(s, act);
      StepGivesOneStatus(s.ledger.attempts, Do(s, act).ledger.attempts, a);
    } else {
      OnlyRequestsMakeAttempts(s, act, a);
    }
  }

  /** In every run every attempt walks the published table from created, in at most six changes. */
  lemma {:induction false} EveryAttemptWalksTheTable(s0: Sys, acts: seq<Action>, a: Id)
    requires Init(s0)
    ensures PathFits(AttemptPath(s0, acts, a), Exec(s0, acts).ledger.attempts, a)
    decreases |acts|
  {
    if acts == [] {
    } else {
      var front, act := acts[..|acts| - 1], acts[|acts| - 1];
      EveryAttemptWalksTheTable(s0, front, a);
      EveryReachableStateIsSafe(s0, front);
      AttemptMoves(Exec(s0, front), act, a);
      OnwardFits(AttemptPath(s0, front, a), Given(Exec(s0, front), act, a),
                 Exec(s0, front).ledger.attempts, Exec(s0, acts).ledger.attempts, a);
    }
  }

  lemma WalkOn(path: seq<AttemptStatus>, next: AttemptStatus)
    requires path != [] && AttemptWalk(path) && CanTransitionAttempt(path[|path| - 1], next)
    ensures AttemptWalk(path + [next]) && Rank(path[|path| - 1]) < Rank(next)
  {
    EveryAttemptEdgeClimbs(path[|path| - 1], next);
  }

  // ---- the path of a mandate ----

  /** The statuses an action gives mandate `m`, in order: what issuing and revoking say they gave it, or the one
      status another step leaves it in. */
  ghost function MandateGiven(s: Sys, act: Action, m: Id): seq<MandateStatus> {
    match act
    case Create(input, anchor) => AnchoredTrail(CreateMandate(s.ledger, input, anchor, s.now), s.ledger.nextId, m)
    case Revoke(n, anchor) => AnchoredTrail(RevokeMandate(s.ledger, n, anchor, s.now), n, m)
    case _ => NewMandateStatus(s.ledger.mandates, Do(s, act).ledger.mandates, m)
  }

  function AnchoredTrail(r: Result<Anchored>, mandate: Id, m: Id): seq<MandateStatus> {
    if r.Ok? && mandate == m then r.value.trail else []
  }

  function NewMandateStatus(before: map<Id, Mandate>, after: map<Id, Mandate>, m: Id): seq<MandateStatus> {
    if m in before && m in after && after[m].status != before[m].status then [after[m].status] else []
  }

  ghost function MandatePath(s: Sys, acts: seq<Action>, m: Id): seq<MandateStatus>
    decreases |acts|
  {
    if acts == [] then []
    else
      var front := acts[..|acts| - 1];
      MandatePath(s, front, m) + MandateGiven(Exec(s, front), acts[|acts| - 1], m)
  }

  ghost predicate MandatePathFits(path: seq<MandateStatus>, ms: map<Id, Mandate>, m: Id) {
    if m in ms then path != [] && MandateWalk(path) && path[0] == Draft && path[|path| - 1] == ms[m].status
    else path == []
  }

  /** One action takes an existing mandate on along the table, and a new one from draft to where it is. */
  ghost predicate MandateGivenFits(given: seq<MandateStatus>, before: map<Id, Mandate>, after: map<Id, Mandate>, m: Id) {
    if m in before then
      && m in after
      && (if given == [] then after[m].status == before[m].status
          else given[|given| - 1] == after[m].status && MandateWalk([before[m].status] + given))
    else MandatePathFits(given, after, m)
  }

  lemma CreateMoves(s: Sys, input: CreateInput, anchor: Option<string>, m: Id)
    requires Inv(s)
    ensures
      var act := Create(input, anchor);
      MandateGivenFits(MandateGiven(s, act, m), s.ledger.mandates, Do(s, act).ledger.mandates, m)
  {
    assert s.ledger.nextId !in s.ledger.mandates;
    var r := CreateMandate(s.ledger, input, anchor, s.now);
    if r.Ok? {
      assert r.value.ledger.mandates == s.ledger.mandates[s.ledger.nextId := r.value.ledger.mandates[s.ledger.nextId]];
    }
  }

  lemma RevokeMoves(s: Sys, n: Id, anchor: Option<string>, m: Id)
    ensures
      var act := Revoke(n, anchor);
      MandateGivenFits(MandateGiven(s, act, m), s.ledger.mandates, Do(s, act).ledger.mandates, m)
  {
    var r := RevokeMandate(s.ledger, n, anchor, s.now);
    if r.Ok? {
      assert r.value.ledger.mandates == s.ledger.mandates[n := r.value.ledger.mandates[n]];
    }
  }

  /** No action but an issue makes a mandate. */
  lemma OnlyIssuesMakeMandates(s: Sys, act: Action, m: Id)
    requires Inv(s) && !act.Create? && m !in s.ledger.mandates
    ensures m !in Do(s, act).ledger.mandates
  {
    if act.Run? {
      RequestsMakeNoMandates(s, act.run, act.freshIdentifier, act.treasury, m);
    } else if act.Proceed? {
      if act.w in s.workers { WorkersMakeNoMandates(s, act.w, s.workers[act.w], m); }
    } else if !act.Revoke? && !act.QueueReconciliation? {
      OthersTouchNoRows(s, act);
    }
  }

  lemma RequestsMakeNoMandates(s: Sys, input: RunInput, generated: string, treasury: Treasury, m: Id)
    requires m !in s.ledger.mandates
    ensures m !in StepRun(s, input, generated, treasury).ledger.mandates
  {
    var r := RunAttempt(s.ledger, input, generated, treasury, s.now);
    if FreshIdentifier(s.ledger, generated) && r.Ok? {
      RunIsRepeatOrAdmitted(s.ledger, input, generated, treasury, s.now);
      if r.value.ledger != s.ledger {
        var a := AttemptFor(s.ledger, input, generated, s.now);
        AdmittedMakesNoMandates(s.ledger, a, FindVendor(a.vendorId).value, treasury, s.now);
      }
    }
  }

  lemma AdmittedMakesNoMandates(l: Ledger, a: Attempt, vendor: Vendor, treasury: Treasury, now: Millis)
    requires a.mandateId in l.mandates && Admitted(l, a, vendor, treasury, now).Ok?
    ensures Admitted(l, a, vendor, treasury, now).value.ledger.mandates.Keys == l.mandates.Keys
  {}

  lemma WorkersMakeNoMandates(s: Sys, w: WorkerId, pc: Pc, m: Id)
    requires m !in s.ledger.mandates
    ensures m !in Advance(s, w, pc).ledger.mandates
  {
    match pc
    case ExecAnswered(c, answer) =>
      var found := FindLive(s.ledger.tasks, ReconcileAttempt, c.attemptId);
      if ApplyDispatchResult(s.ledger, c, answer, found, s.now).Ok? {
        DispatchResultIsSettle(s.ledger, c, answer, found, s.now);
      }
    case _ =>
  }

  lemma MandateMoves(s: Sys, act: Action, m: Id)
    requires Inv(s)
    ensures MandateGivenFits(MandateGiven(s, act, m), s.ledger.mandates, Do(s, act).ledger.mandates, m)
  {
    if act.Create? {
      CreateMoves(s, act.create, act.anchor, m);
    } else if act.Revoke? {
      RevokeMoves(s, act.mandateId, act.anchor, m);
    } else if m in s.ledger.mandates {
      EveryActionIsLawful(s, act);
      OnlyRevocationsRevoke(s, act);
      assert MandateStep(s.ledger.mandates[m], Do(s, act).ledger.mandates[m], s.now);
    } else {
      OnlyIssuesMakeMandates(s, act, m);
    }
  }

  /** In every run every mandate walks the published table from draft. */
  lemma {:induction false} EveryMandateWalksTheTable(s0: Sys, acts: seq<Action>, m: Id)
    requires Init(s0)
    ensures MandatePathFits(MandatePath(s0, acts, m), Exec(s0, acts).ledger.mandates, m)
    decreases |acts|
  {
    if acts == [] {
    } else {
      var front, act := acts[..|acts| - 1], acts[|acts| - 1];
      EveryMandateWalksTheTable(s0, front, m);
      EveryReachableStateIsSafe(s0, front);
      MandateMoves(Exec(s0, front), act, m);
      MandateWalksOn(MandatePath(s0, front, m), MandateGiven(Exec(s0, front), act, m),
                     Exec(s0, front).ledger.mandates, Exec(s0, acts).ledger.mandates, m);
    }
  }

  lemma MandateWalksOn(path: seq<MandateStatus>, given: seq<MandateStatus>, before: map<Id, Mandate>, after: map<Id, Mandate>, m: Id)
    requires MandatePathFits(path, before, m) && MandateGivenFits(given, before, after, m)
    ensures MandatePathFits(path + given, after, m)
  {
    if m in before {
      if given == [] {
        assert path + given == path;
      } else {
        var joint, whole := [before[m].status] + given, path + given;
        forall i | 0 <= i < |whole| - 1 ensures CanTransitionMandate(whole[i], whole[i + 1]) {
          if i >= |path| - 1 {
            assert whole[i] == joint[i - (|path| - 1)] && whole[i + 1] == joint[i + 1 - (|path| - 1)];
          }
        }
      }
    } else {
      assert path + given == given;
    }
  }
}

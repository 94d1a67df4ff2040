/** Main results about the domain-event log: in whatever order it is read, it tells every mandate's cents and every
    attempt's status. */
module LogTheorems {
  import opened Domain
  import opened StateMachines
  import opened Ledger
  import opened Money
  import opened Log
  import opened Protocol
  import opened Workers
  import opened System
  import opened History
  import opened Runs

  /** `log` is the event log of the state in some order: reads sort by time only, and ties may fall either way. */
  ghost predicate AnyOrder(log: seq<Event>, l: Ledger) {
    multiset(log) == multiset(l.events)
  }

  // ---- budgets ----

  /** The mandate the first authentication event of attempt `a` names. */
  function MandateIn(log: seq<Event>, a: Id): Option<Id> {
    if log == [] then None
    else if log[0].entityType == OfAttempt && log[0].entityId == a && log[0].kind.EvtAuthValidated? then Some(log[0].kind.mandateId)
    else MandateIn(log[1..], a)
  }

  /** The amount the first reservation event of attempt `a` names. */
  function AmountIn(log: seq<Event>, a: Id): Option<int> {
    if log == [] then None
    else if log[0].entityType == OfAttempt && log[0].entityId == a && log[0].kind.EvtReserved? then Some(log[0].kind.amountCents)
    else AmountIn(log[1..], a)
  }

  /** What one event adds to a mandate's reserved and consumed cents; everything else needed is looked up in the log. */
  function ReservedBy(e: Event, m: Id, log: seq<Event>): int {
    if e.entityType != OfAttempt || MandateIn(log, e.entityId) != Some(m) then 0
    else
      var amount := AmountIn(log, e.entityId);
      ReservedWeight(e.kind, if amount.Some? then amount.value else 0)
  }

  function ConsumedBy(e: Event, m: Id, log: seq<Event>): int {
    if e.entityType != OfAttempt || MandateIn(log, e.entityId) != Some(m) then 0 else ConsumedWeight(e.kind)
  }

  /** The sums over the events `es`, with `log` to look things up in. */
  function ReservedIn(es: seq<Event>, m: Id, log: seq<Event>): int {
    if es == [] then 0 else ReservedBy(es[0], m, log) + ReservedIn(es[1..], m, log)
  }

  function ConsumedIn(es: seq<Event>, m: Id, log: seq<Event>): int {
    if es == [] then 0 else ConsumedBy(es[0], m, log) + ConsumedIn(es[1..], m, log)
  }

  lemma {:induction false} MandateIsNamed(log: seq<Event>, a: Id, ats: map<Id, Attempt>)
    requires Refers(log, ats) && Replay(log, Naming(a, AuthValidated), ats) >= 1
    ensures a in ats && MandateIn(log, a) == Some(ats[a].mandateId)
  {
    if log != [] {
      assert log[0] in log && forall e :: e in log[1..] ==> e in log;
      if !(log[0].entityType == OfAttempt && log[0].entityId == a && log[0].kind.EvtAuthValidated?) {
        MandateIsNamed(log[1..], a, ats);
      }
    }
  }

  lemma {:induction false} AmountIsNamed(log: seq<Event>, a: Id, ats: map<Id, Attempt>)
    requires Refers(log, ats) && Replay(log, Naming(a, Reserved), ats) >= 1
    ensures a in ats && AmountIn(log, a) == Some(ats[a].amountCents)
  {
    if log != [] {
      assert log[0] in log && forall e :: e in log[1..] ==> e in log;
      if !(log[0].entityType == OfAttempt && log[0].entityId == a && log[0].kind.EvtReserved?) {
        AmountIsNamed(log[1..], a, ats);
      }
    }
  }

  lemma {:induction false} EventCounts(log: seq<Event>, e: Event, a: Id, st: AttemptStatus, ats: map<Id, Attempt>)
    requires e in log && e.entityType == OfAttempt && e.entityId == a && Names(e.kind) == Some(st)
    ensures Replay(log, Naming(a, st), ats) >= 1
  {
    CountsAreNotNegative(log[1..], a, st, ats);
    if log[0] != e { EventCounts(log[1..], e, a, st, ats); }
  }

  /** The log of a reachable state, in any order, names every attempt's mandate, and the amount of each attempt that
      any event releases. */
  ghost predicate SpeaksForItself(log: seq<Event>, ats: map<Id, Attempt>) {
    forall e {:trigger Terms(log, ats, e)} :: e in log && e.entityType == OfAttempt ==> Terms(log, ats, e)
  }

  ghost predicate Terms(log: seq<Event>, ats: map<Id, Attempt>, e: Event) {
    && e.entityId in ats && MandateIn(log, e.entityId) == Some(ats[e.entityId].mandateId)
    && (Releases(e.kind) ==> AmountIn(log, e.entityId) == Some(ats[e.entityId].amountCents))
  }

  predicate Releases(kind: EventKind) {
    kind.EvtWorkerFailed? || (kind.EvtFinancialOutcome? && Settled(kind.outcome))
  }

  lemma LogSpeaksForItself(l: Ledger, log: seq<Event>)
    requires LogInv(l) && AnyOrder(log, l)
    ensures SpeaksForItself(log, l.attempts)
  {
    assert forall e :: e in log <==> e in multiset(log);
    assert forall e :: e in l.events <==> e in multiset(l.events);
    assert Refers(log, l.attempts);
    forall e | e in log && e.entityType == OfAttempt ensures Terms(log, l.attempts, e) {
      var a := e.entityId;
      LogInAnyOrder(l, log, a);
      assert Replay(log, Naming(a, AuthValidated), l.attempts) == 1;
      MandateIsNamed(log, a, l.attempts);
      if Releases(e.kind) {
        EventCounts(log, e, a, Names(e.kind).value, l.attempts);
        assert Replay(log, Naming(a, Reserved), l.attempts) == 1;
        AmountIsNamed(log, a, l.attempts);
      }
    }
  }

  lemma {:induction false} SumsAreReplays(es: seq<Event>, log: seq<Event>, ats: map<Id, Attempt>, m: Id)
    requires SpeaksForItself(log, ats) && forall e :: e in es ==> e in log
    ensures ReservedIn(es, m, log) == Replay(es, ReservedOf(m), ats)
    ensures ConsumedIn(es, m, log) == Replay(es, ConsumedOf(m), ats)
  {
    if es != [] {
      assert es[0].entityType == OfAttempt ==> Terms(log, ats, es[0]);
      SumsAreReplays(es[1..], log, ats, m);
    }
  }

  /** The events alone, added up in any order, give every mandate's reserved and consumed cents. */
  lemma LogRebuildsEveryBudget(s0: Sys, acts: seq<Action>, log: seq<Event>, m: Id)
    requires Init(s0) && AnyOrder(log, Exec(s0, acts).ledger) && m in Exec(s0, acts).ledger.mandates
    ensures
      var mandate := Exec(s0, acts).ledger.mandates[m];
      ReservedIn(log, m, log) == mandate.reservedCents && ConsumedIn(log, m, log) == mandate.consumedCents
  {
    EveryReachableStateIsSafe(s0, acts);
    var l := Exec(s0, acts).ledger;
    assert Balanced(RecordOf(l), m, l.mandates[m]);
    ReplayAnyOrder(log, l.events, ReservedOf(m), l.attempts);
    ReplayAnyOrder(log, l.events, ConsumedOf(m), l.attempts);
    LogSpeaksForItself(l, log);
    SumsAreReplays(log, log, l.attempts, m);
  }

  // ---- statuses ----

  function NamedFor(e: Event, a: Id): Option<AttemptStatus> {
    if e.entityType == OfAttempt && e.entityId == a then Names(e.kind) else None
  }

  /** The highest-ranked status the events of attempt `a` name. */
  function HighestNamed(log: seq<Event>, a: Id): Option<AttemptStatus> {
    if log == [] then None
    else
      var rest, named := HighestNamed(log[1..], a), NamedFor(log[0], a);
      if named.None? then rest
      else if rest.None? || Rank(rest.value) < Rank(named.value) then named
      else rest
  }

  lemma {:induction false} CountsAreNotNegative(log: seq<Event>, a: Id, st: AttemptStatus, ats: map<Id, Attempt>)
    ensures Replay(log, Naming(a, st), ats) >= 0
  {
    if log != [] {
      CountsAreNotNegative(log[1..], a, st, ats);
    }
  }

  /** The highest named status is named, and every named status is at most as high. */
  lemma {:induction false} HighestNamedIsHighest(log: seq<Event>, a: Id, ats: map<Id, Attempt>)
    ensures HighestNamed(log, a).Some? ==> Replay(log, Naming(a, HighestNamed(log, a).value), ats) >= 1
    ensures forall st :: Replay(log, Naming(a, st), ats) >= 1 ==>
      HighestNamed(log, a).Some? && Rank(st) <= Rank(HighestNamed(log, a).value)
  {
    if log != [] {
      HighestNamedIsHighest(log[1..], a, ats);
      forall st ensures Replay(log[1..], Naming(a, st), ats) >= 0 {
        CountsAreNotNegative(log[1..], a, st, ats);
      }
    }
  }

  /** A log that names every status on the path once names the last one highest. */
  lemma PathEndsHighest(log: seq<Event>, a: Id, status: AttemptStatus, via: int, sent: int, ats: map<Id, Attempt>)
    requires 0 <= via <= 1 && 0 <= sent <= 1 && Resting(status)
    requires forall st :: Replay(log, Naming(a, st), ats) == OnPath(status, via, sent, st)
    ensures HighestNamed(log, a) == Some(status)
    ensures forall st :: 0 <= Replay(log, Naming(a, st), ats) <= 1
  {
    HighestNamedIsHighest(log, a, ats);
    assert Replay(log, Naming(a, status), ats) == OnPath(status, via, sent, status) == 1;
  }

  lemma LogInAnyOrder(l: Ledger, log: seq<Event>, a: Id)
    requires LogInv(l) && AnyOrder(log, l) && a in l.attempts
    ensures
      var via, sent := Replay(log, Naming(a, ExecutionUnknown), l.attempts), Replay(log, Naming(a, Dispatching), l.attempts);
      && 0 <= via <= 1
      && 0 <= sent <= 1
      && forall st :: Replay(log, Naming(a, st), l.attempts) == OnPath(l.attempts[a].status, via, sent, st)
  {
    assert Logged(RecordOf(l), a, l.attempts[a].status);
    forall st ensures Replay(log, Naming(a, st), l.attempts) == RecordOf(l)(Naming(a, st)) {
      ReplayAnyOrder(log, l.events, Naming(a, st), l.attempts);
    }
  }

  /** Each attempt's status is the highest-ranked one its events name, and each status is named at most once. */
  lemma LogRebuildsEveryStatus(s0: Sys, acts: seq<Action>, log: seq<Event>, a: Id)
    requires Init(s0) && AnyOrder(log, Exec(s0, acts).ledger) && a in Exec(s0, acts).ledger.attempts
    ensures HighestNamed(log, a) == Some(Exec(s0, acts).ledger.attempts[a].status)
    ensures forall st :: 0 <= Replay(log, Naming(a, st), Exec(s0, acts).ledger.attempts) <= 1
  {
    EveryReachableStateIsSafe(s0, acts);
    var l := Exec(s0, acts).ledger;
    assert AttemptOk(l.mandates, l.attempts[a], a);
    LogInAnyOrder(l, log, a);
    PathEndsHighest(log, a, l.attempts[a].status, Replay(log, Naming(a, ExecutionUnknown), l.attempts),
                    Replay(log, Naming(a, Dispatching), l.attempts), l.attempts);
  }

  // ---- reconciliation ----

  /** The start of a reconciliation is recorded only by the step that makes the attempt execution_unknown. */
  ghost predicate StartIsNews(l: Ledger, l': Ledger, e: Event) {
    e.kind.EvtReconciliationStarted? && e !in l.events ==>
      e.entityId in l'.attempts && l'.attempts[e.entityId].status == ExecutionUnknown
  }

  ghost predicate StartsAreNews(l: Ledger, l': Ledger) {
    forall e {:trigger StartIsNews(l, l', e)} :: e in l'.events ==> StartIsNews(l, l', e)
  }

  lemma DispatchResultStarts(l: Ledger, c: Claim, r: DispatchResult, found: Option<Id>, now: Millis)
    requires ApplyDispatchResult(l, c, r, found, now).Ok?
    ensures StartsAreNews(l, ApplyDispatchResult(l, c, r, found, now).value)
  {
    var l' := ApplyDispatchResult(l, c, r, found, now).value;
    var cents := ResolveSettledAmountCents(c.amountCents, r.FinalAmount());
    var l1 := Settle(l, c, r, now);
    if r.DispatchUnknown? {
      DispatchResultIsSettle(l, c, r, found, now);
      var l2 := WithAudit(l1, c.mandateId, AuditReconciliationStarted, Some(c.attemptId), now);
      var q := EnqueueWorkerTask(l2, ReconcileAttempt, c.mandateId, c.attemptId, Some(l.attempts[c.attemptId].operatorId), found, now);
      assert Silent(l, q.ledger);
      var l3 := ReconciliationStarted(q.ledger, c, q.taskId, r, now);
      WithEventNews(q.ledger, OfAttempt, c.attemptId, EvtReconciliationStarted(q.taskId, r.payloadJson, r.requirementsJson), now);
      OutcomeIsSilent(l3, c, r.evidence, r.Status(), cents, now);
    } else {
      SettlingIsSilent(l1, c, r.evidence, r.Status(), cents, now);
    }
  }

  lemma DoneIsSilent(l: Ledger, t: Id, now: Millis)
    ensures CompleteTask(l, t, now).Ok? ==> Silent(l, CompleteTask(l, t, now).value)
    ensures FailTask(l, t, now).Ok? ==> Silent(l, FailTask(l, t, now).value)
    ensures RequeueTask(l, t, now).Ok? ==> Silent(l, RequeueTask(l, t, now).value)
  {}

  lemma AdvanceStarts(s: Sys, w: WorkerId)
    requires Inv(s) && w in s.workers
    ensures StartsAreNews(s.ledger, Advance(s, w, s.workers[w]).ledger)
  {
    ClaimIsTrue(s, w);
    match s.workers[w]
    case ExecLeased(c) => if BeginDispatch(s.ledger, c, s.now).Ok? { BeginIsSilent(s.ledger, c, s.now); }
    case ExecAnswered(c, answer) =>
      var found := FindLive(s.ledger.tasks, ReconcileAttempt, c.attemptId);
      if ApplyDispatchResult(s.ledger, c, answer, found, s.now).Ok? {
        DispatchResultStarts(s.ledger, c, answer, found, s.now);
      }
    case ExecReleasing(c, reason) =>
      if ReleaseDispatch(s.ledger, c, reason, s.now).Ok? { ReleasesOnlyDispatching(s.ledger, c, reason, s.now); }
    case RecAnswered(c, _, truth) =>
      if ApplyReconciliationResult(s.ledger, c, truth, s.now).Ok? { ReconciliationEvolves(s.ledger, c, truth, s.now); }
    case ExecSettled(c) => DoneIsSilent(s.ledger, c.taskId, s.now);
    case RecSettled(c, _) => DoneIsSilent(s.ledger, c.taskId, s.now);
    case RecRequeueing(c) => DoneIsSilent(s.ledger, c.taskId, s.now);
    case Failing(c) => DoneIsSilent(s.ledger, c.taskId, s.now);
    case _ =>
  }

  lemma OperatorStarts(s: Sys, act: Action)
    requires Inv(s) && (act.Create? || act.Revoke? || act.Run? || act.QueueReconciliation?)
    ensures Silent(s.ledger, Do(s, act).ledger)
  {
    TasksBelow(s.ledger);
    match act
    case Create(input, anchor) =>
      if CreateMandate(s.ledger, input, anchor, s.now).Ok? { CreateIsBenign(s.ledger, input, anchor, s.now); }
    case Revoke(m, anchor) =>
      if RevokeMandate(s.ledger, m, anchor, s.now).Ok? { RevokeIsBenign(s.ledger, m, anchor, s.now); }
    case Run(input, generated, treasury) =>
      if RunAttempt(s.ledger, input, generated, treasury, s.now).Ok? { RunIsBenign(s.ledger, input, generated, treasury, s.now); }
    case QueueReconciliation(m, a) =>
      var found := FindLive(s.ledger.tasks, ReconcileAttempt, a);
      if EnsureReconciliationQueued(s.ledger, m, a, found, s.now).Ok? { EnsureIsBenign(s.ledger, m, a, found, s.now); }
  }

  lemma ActionStarts(s: Sys, act: Action)
    requires Inv(s)
    ensures StartsAreNews(s.ledger, Do(s, act).ledger)
  {
    if act.Create? || act.Revoke? || act.Run? || act.QueueReconciliation? {
      OperatorStarts(s, act);
    } else if act.Proceed? && act.w in s.workers {
      AdvanceStarts(s, act.w);
    }
  }

  ghost predicate IsUnknown(l: Ledger, a: Id) {
    a in l.attempts && l.attempts[a].status == ExecutionUnknown
  }

  /** At some moment of the run the attempt was execution_unknown. */
  ghost predicate EverUnknown(s: Sys, acts: seq<Action>, a: Id)
    decreases |acts|
  {
    IsUnknown(Exec(s, acts).ledger, a) || (acts != [] && EverUnknown(s, acts[..|acts| - 1], a))
  }

  predicate Starts(e: Event, a: Id) {
    e.entityType == OfAttempt && e.entityId == a && e.kind.EvtReconciliationStarted?
  }

  lemma {:induction false} StartedMeansSomeEvent(log: seq<Event>, a: Id, ats: map<Id, Attempt>)
    ensures Replay(log, StartedOf(a), ats) >= 0
    ensures Replay(log, StartedOf(a), ats) >= 1 <==> exists e :: e in log && Starts(e, a)
    ensures FirstStarted(log, a).Some? <==> exists e :: e in log && Starts(e, a)
    ensures FirstStarted(log, a).Some? ==>
      exists e :: e in log && Starts(e, a) && FirstStarted(log, a).value == (e.kind.payloadJson, e.kind.requirementsJson)
  {
    if log != [] {
      StartedMeansSomeEvent(log[1..], a, ats);
      assert forall e :: e in log <==> e == log[0] || e in log[1..];
      if Starts(log[0], a) {
        assert log[0] in log;
      } else if FirstStarted(log[1..], a).Some? {
        var e :| e in log[1..] && Starts(e, a) && FirstStarted(log[1..], a).value == (e.kind.payloadJson, e.kind.requirementsJson);
        assert e in log;
      }
    }
  }

  /** A start is on record exactly if the attempt was ever execution_unknown. */
  lemma {:induction false} StartedIffEverUnknown(s0: Sys, acts: seq<Action>, a: Id)
    requires Init(s0)
    ensures EverUnknown(s0, acts, a) <==> HasStart(Exec(s0, acts).ledger.events, a)
    decreases |acts|
  {
    if acts == [] {
    } else {
      var front := acts[..|acts| - 1];
      StartedIffEverUnknown(s0, front, a);
      EveryReachableStateIsSafe(s0, front);
      EveryReachableStateIsSafe(s0, acts);
      ActionStarts(Exec(s0, front), acts[|acts| - 1]);
      EveryActionIsLawful(Exec(s0, front), acts[|acts| - 1]);
      StartedStep(Exec(s0, front).ledger, Exec(s0, acts).ledger, a);
    }
  }

  ghost predicate HasStart(es: seq<Event>, a: Id) {
    exists e :: e in es && Starts(e, a)
  }

  lemma StartedStep(l: Ledger, l': Ledger, a: Id)
    requires StartsAreNews(l, l') && EventsGrow(l, l') && LogInv(l')
    ensures HasStart(l'.events, a) <==> IsUnknown(l', a) || HasStart(l.events, a)
  {
    if e :| e in l'.events && Starts(e, a) {
      assert StartIsNews(l, l', e);
    }
    if e :| e in l.events && Starts(e, a) {
      OldEventsStay(l, l', e);
    }
    if IsUnknown(l', a) {
      assert Logged(RecordOf(l'), a, ExecutionUnknown);
      StartedMeansSomeEvent(l'.events, a, l'.attempts);
    }
  }

  lemma OldEventsStay(l: Ledger, l': Ledger, e: Event)
    requires EventsGrow(l, l') && e in l.events
    ensures e in l'.events
  {
    var i :| 0 <= i < |l.events| && l.events[i] == e;
    assert l'.events[|l'.events| - |l.events|..][i] == e;
  }

  /** Exactly one attempt_reconciled event if the attempt is settled, none otherwise; exactly one
      attempt_reconciliation_started event if it ever became execution_unknown, none otherwise. */
  lemma ReconciliationIsRecordedOnce(s0: Sys, acts: seq<Action>, log: seq<Event>, a: Id)
    requires Init(s0) && AnyOrder(log, Exec(s0, acts).ledger) && a in Exec(s0, acts).ledger.attempts
    ensures
      var ats := Exec(s0, acts).ledger.attempts;
      && Replay(log, ReconciledOf(a), ats) == (if Settled(ats[a].status) then 1 else 0)
      && Replay(log, StartedOf(a), ats) == (if EverUnknown(s0, acts, a) then 1 else 0)
  {
    EveryReachableStateIsSafe(s0, acts);
    var l := Exec(s0, acts).ledger;
    assert Logged(RecordOf(l), a, l.attempts[a].status);
    ReplayAnyOrder(log, l.events, ReconciledOf(a), l.attempts);
    ReplayAnyOrder(log, l.events, StartedOf(a), l.attempts);
    StartedMeansSomeEvent(l.events, a, l.attempts);
    StartedIffEverUnknown(s0, acts, a);
  }

  /** The first match a reconciliation worker finds is the payload of the attempt's only dispatch, in any order
      of the log, and there is one whenever the attempt was execution_unknown. */
  lemma FirstMatchIsTheOnePayload(s0: Sys, acts: seq<Action>, log: seq<Event>, a: Id)
    requires Init(s0) && AnyOrder(log, Exec(s0, acts).ledger)
    ensures
      var s := Exec(s0, acts);
      if EverUnknown(s0, acts, a) then
        && a in s.answers && s.answers[a].DispatchUnknown?
        && FirstStarted(log, a) == Some((s.answers[a].payloadJson, s.answers[a].requirementsJson))
      else FirstStarted(log, a) == None
  {
    EveryReachableStateIsSafe(s0, acts);
    var s := Exec(s0, acts);
    StartedIffEverUnknown(s0, acts, a);
    StartedMeansSomeEvent(log, a, s.ledger.attempts);
    assert forall e :: e in log <==> e in multiset(log);
    assert forall e :: e in s.ledger.events <==> e in multiset(s.ledger.events);
    if FirstStarted(log, a).Some? {
      var e :| e in log && Starts(e, a) && FirstStarted(log, a).value == (e.kind.payloadJson, e.kind.requirementsJson);
      assert PayloadOk(e, s.answers);
    }
  }
}

/** The domain-event log agrees with the ledger: replaying it, in any order, gives every mandate's
    reserved and consumed cents and every attempt's status. */
module Log {
  import opened Domain
  import opened StateMachines
  import opened Policy
  import opened Ledger
  import opened Money

  /** What a replay of the log may add up. */
  datatype Query =
    | ReservedOf(mandate: Id)
    | ConsumedOf(mandate: Id)
    | Naming(attempt: Id, status: AttemptStatus)   // events that give the attempt this status
    | StartedOf(attempt: Id)                       // attempt_reconciliation_started
    | ReconciledOf(attempt: Id)                    // attempt_reconciled

  /** The attempt status an event announces. */
  function Names(kind: EventKind): Option<AttemptStatus> {
    match kind
    case EvtAuthValidated(_) => Some(AuthValidated)
    case EvtPolicyDenied(_) => Some(PolicyDenied)
    case EvtReserved(_) => Some(Reserved)
    case EvtQueued(_) => Some(DispatchQueued)
    case EvtDispatched(_) => Some(Dispatching)
    case EvtFinancialOutcome(outcome, _) => Some(outcome)
    case EvtWorkerFailed => Some(CancelledReleased)
    case _ => None
  }

  /** One event's contribution. An attempt's mandate and amount are looked up in `ats`; that the log itself
      names them is shown in `LogTheorems`. */
  function Weight(e: Event, q: Query, ats: map<Id, Attempt>): int {
    if e.entityType != OfAttempt then 0
    else
      match q
      case ReservedOf(m) =>
        if e.entityId in ats && ats[e.entityId].mandateId == m then ReservedWeight(e.kind, ats[e.entityId].amountCents) else 0
      case ConsumedOf(m) =>
        if e.entityId in ats && ats[e.entityId].mandateId == m then ConsumedWeight(e.kind) else 0
      case Naming(a, status) => if e.entityId == a && Names(e.kind) == Some(status) then 1 else 0
      case StartedOf(a) => if e.entityId == a && e.kind.EvtReconciliationStarted? then 1 else 0
      case ReconciledOf(a) => if e.entityId == a && e.kind.EvtReconciled? then 1 else 0
  }

  function ReservedWeight(kind: EventKind, amountCents: int): int {
    match kind
    case EvtReserved(cents) => cents
    case EvtFinancialOutcome(outcome, _) => if Settled(outcome) then -amountCents else 0
    case EvtWorkerFailed => -amountCents
    case _ => 0
  }

  function ConsumedWeight(kind: EventKind): int {
    match kind
    case EvtFinancialOutcome(outcome, cents) => if outcome == ChargeSucceeded then cents else 0
    case _ => 0
  }

  function Replay(es: seq<Event>, q: Query, ats: map<Id, Attempt>): int {
    if es == [] then 0 else Weight(es[0], q, ats) + Replay(es[1..], q, ats)
  }

  /** How often the log must name `st` for an attempt that rests in `status`; `via` says whether
      it passed through execution_unknown, `sent` whether a released one had been dispatching. */
  function OnPath(status: AttemptStatus, via: int, sent: int, st: AttemptStatus): int {
    match st
    case Created => 0
    case AuthValidated => 1
    case PolicyDenied => if status == PolicyDenied then 1 else 0
    case Reserved => if status == PolicyDenied then 0 else 1
    case DispatchQueued => if status == PolicyDenied then 0 else 1
    case Dispatching =>
      if status == PolicyDenied || status == DispatchQueued then 0 else if status == CancelledReleased then sent else 1
    case ExecutionUnknown => if status == ExecutionUnknown then 1 else if Settled(status) then via else 0
    case ChargeSucceeded => if status == ChargeSucceeded then 1 else 0
    case ChargeFailed => if status == ChargeFailed then 1 else 0
    case CancelledReleased => if status == CancelledReleased then 1 else 0
  }

  /** The answers a log gives, whatever its order. */
  type Record = Query -> int

  function RecordOf(l: Ledger): Record {
    q => Replay(l.events, q, l.attempts)
  }

  /** The log names every status on the attempt's path exactly once, and no other. */
  ghost predicate Logged(log: Record, a: Id, status: AttemptStatus) {
    var via, sent := log(Naming(a, ExecutionUnknown)), log(Naming(a, Dispatching));
    && 0 <= via <= 1 && 0 <= sent <= 1
    && (forall st: AttemptStatus :: log(Naming(a, st)) == OnPath(status, via, sent, st))
    && log(StartedOf(a)) == via
    && log(ReconciledOf(a)) == (if Settled(status) then 1 else 0)
  }

  ghost predicate Balanced(log: Record, m: Id, mandate: Mandate) {
    log(ReservedOf(m)) == mandate.reservedCents && log(ConsumedOf(m)) == mandate.consumedCents
  }

  ghost predicate Agrees(log: Record, ms: map<Id, Mandate>, ats: map<Id, Attempt>) {
    && (forall m {:trigger Balanced(log, m, ms[m])} :: m in ms ==> Balanced(log, m, ms[m]))
    && (forall a {:trigger Logged(log, a, ats[a].status)} :: a in ats ==> Logged(log, a, ats[a].status))
  }

  /** What an event says of its attempt's terms is true, and an outcome is one the vendor can have. */
  predicate TermsFit(kind: EventKind, a: Attempt) {
    match kind
    case EvtAuthValidated(m) => m == a.mandateId
    case EvtReserved(cents) => cents == a.amountCents
    case EvtFinancialOutcome(outcome, _) => Settled(outcome) || outcome == ExecutionUnknown
    case _ => true
  }

  ghost predicate Refers(es: seq<Event>, ats: map<Id, Attempt>) {
    forall e :: e in es && e.entityType == OfAttempt ==> e.entityId in ats && TermsFit(e.kind, ats[e.entityId])
  }

  ghost predicate LogInv(l: Ledger) {
    Refers(l.events, l.attempts) && Agrees(RecordOf(l), l.mandates, l.attempts)
  }

  // ---- how a replay moves ----

  lemma WithEventReplay(l: Ledger, et: EntityType, id: Id, kind: EventKind, now: Millis, q: Query, ats: map<Id, Attempt>)
    ensures Replay(WithEvent(l, et, id, kind, now).events, q, ats) ==
            Weight(Event(l.nextId, et, id, kind, now), q, ats) + Replay(l.events, q, ats)
  {
    assert WithEvent(l, et, id, kind, now).events[1..] == l.events;
  }

  /** The same for every link of a chain of entries at once. */
  lemma Chain()
    ensures forall l, et, id, kind, now, q, ats {:trigger Replay(WithEvent(l, et, id, kind, now).events, q, ats)} ::
      Replay(WithEvent(l, et, id, kind, now).events, q, ats) ==
      Weight(Event(l.nextId, et, id, kind, now), q, ats) + Replay(l.events, q, ats)
  {
    forall l, et, id, kind, now, q, ats
      ensures Replay(WithEvent(l, et, id, kind, now).events, q, ats) ==
              Weight(Event(l.nextId, et, id, kind, now), q, ats) + Replay(l.events, q, ats)
    {
      WithEventReplay(l, et, id, kind, now, q, ats);
    }
  }

  ghost predicate SameTerms(a: Attempt, b: Attempt) {
    a.mandateId == b.mandateId && a.amountCents == b.amountCents
  }

  /** Attempts may be added and may move, but a replay does not notice. */
  ghost predicate KeepsTerms(ats: map<Id, Attempt>, ats': map<Id, Attempt>) {
    forall a :: a in ats ==> a in ats' && SameTerms(ats[a], ats'[a])
  }

  lemma RefersLater(es: seq<Event>, ats: map<Id, Attempt>, ats': map<Id, Attempt>)
    requires Refers(es, ats) && KeepsTerms(ats, ats')
    ensures Refers(es, ats')
  {}

  lemma {:induction false} ReplayFrame(es: seq<Event>, q: Query, ats: map<Id, Attempt>, ats': map<Id, Attempt>)
    requires Refers(es, ats) && KeepsTerms(ats, ats')
    ensures Replay(es, q, ats') == Replay(es, q, ats)
  {
    if es != [] {
      assert es[0] in es;
      assert forall e :: e in es[1..] ==> e in es;
      ReplayFrame(es[1..], q, ats, ats');
    }
  }

  lemma FrameAll(es: seq<Event>, ats: map<Id, Attempt>, ats': map<Id, Attempt>)
    requires Refers(es, ats) && KeepsTerms(ats, ats')
    ensures forall q :: Replay(es, q, ats') == Replay(es, q, ats)
  {
    forall q ensures Replay(es, q, ats') == Replay(es, q, ats) { ReplayFrame(es, q, ats, ats'); }
  }

  ghost predicate About(q: Query, a: Id) {
    match q
    case ReservedOf(_) => false
    case ConsumedOf(_) => false
    case Naming(b, _) => a == b
    case StartedOf(b) => a == b
    case ReconciledOf(b) => a == b
  }

  /** Nothing is on record of an attempt no event refers to. */
  lemma {:induction false} ReplayOfStranger(es: seq<Event>, q: Query, ats: map<Id, Attempt>, a: Id)
    requires About(q, a) && forall e :: e in es && e.entityType == OfAttempt ==> e.entityId != a
    ensures Replay(es, q, ats) == 0
  {
    if es != [] {
      assert es[0] in es;
      assert forall e :: e in es[1..] ==> e in es;
      ReplayOfStranger(es[1..], q, ats, a);
    }
  }

  /** Nothing is on record of a mandate without attempts. */
  lemma {:induction false} ReplayOfIdleMandate(es: seq<Event>, ats: map<Id, Attempt>, m: Id)
    requires forall a :: a in ats ==> ats[a].mandateId != m
    ensures Replay(es, ReservedOf(m), ats) == 0 && Replay(es, ConsumedOf(m), ats) == 0
  {
    if es != [] {
      ReplayOfIdleMandate(es[1..], ats, m);
    }
  }

  // ---- any order of the log ----

  lemma {:induction false} ReplaySplit(xs: seq<Event>, ys: seq<Event>, q: Query, ats: map<Id, Attempt>)
    ensures Replay(xs + ys, q, ats) == Replay(xs, q, ats) + Replay(ys, q, ats)
  {
    if xs == [] {
      assert xs + ys == ys;
    } else {
      assert (xs + ys)[1..] == xs[1..] + ys;
      ReplaySplit(xs[1..], ys, q, ats);
    }
  }

  lemma ReplayWithout(fs: seq<Event>, i: nat, q: Query, ats: map<Id, Attempt>)
    requires i < |fs|
    ensures Replay(fs, q, ats) == Weight(fs[i], q, ats) + Replay(fs[..i] + fs[i + 1..], q, ats)
  {
    var tail := fs[i..];
    assert fs == fs[..i] + tail && tail[0] == fs[i] && tail[1..] == fs[i + 1..];
    ReplaySplit(fs[..i], tail, q, ats);
    ReplaySplit(fs[..i], fs[i + 1..], q, ats);
  }

  lemma SameWithoutOne(es: seq<Event>, fs: seq<Event>, i: nat)
    requires es != [] && i < |fs| && fs[i] == es[0] && multiset(es) == multiset(fs)
    ensures multiset(es[1..]) == multiset(fs[..i] + fs[i + 1..])
  {
    assert fs == fs[..i] + [fs[i]] + fs[i + 1..];
    assert es == [es[0]] + es[1..];
    assert multiset(fs[..i] + fs[i + 1..]) == multiset(fs) - multiset{fs[i]};
    assert multiset(es[1..]) == multiset(es) - multiset{es[0]};
  }

  /** The replay depends on which events are in the log, not on their order. */
  lemma {:induction false} ReplayAnyOrder(es: seq<Event>, fs: seq<Event>, q: Query, ats: map<Id, Attempt>)
    requires multiset(es) == multiset(fs)
    ensures Replay(es, q, ats) == Replay(fs, q, ats)
    decreases |es|
  {
    if es == [] {
      assert |multiset(fs)| == 0;
    } else {
      assert es[0] in multiset(fs);
      var i :| 0 <= i < |fs| && fs[i] == es[0];
      SameWithoutOne(es, fs, i);
      ReplayAnyOrder(es[1..], fs[..i] + fs[i + 1..], q, ats);
      ReplayWithout(fs, i, q, ats);
    }
  }

  // ---- what each transaction adds to the record ----

  function Said(kind: EventKind, a: Id, q: Query, ats: map<Id, Attempt>): int {
    Weight(Event(0, OfAttempt, a, kind, 0), q, ats)
  }

  /** Every answer grows by what these events about attempt `a` contribute, and by nothing else. */
  ghost predicate Grows(log: Record, log': Record, a: Id, k1: EventKind, k2: EventKind, k3: EventKind, ats': map<Id, Attempt>) {
    forall q :: log'(q) == log(q) + Said(k1, a, q, ats') + Said(k2, a, q, ats') + Said(k3, a, q, ats')
  }

  ghost predicate Records(l: Ledger, l': Ledger, a: Id, k1: EventKind, k2: EventKind, k3: EventKind) {
    && KeepsTerms(l.attempts, l'.attempts) && Refers(l'.events, l'.attempts)
    && Grows(RecordOf(l), RecordOf(l'), a, k1, k2, k3, l'.attempts)
  }

  /** Attempts and cents stay as they are, and nothing that counts is recorded. */
  ghost predicate Quiet(l: Ledger, l': Ledger) {
    && l'.attempts == l.attempts && l'.mandates.Keys == l.mandates.Keys
    && (forall m :: m in l.mandates ==>
          && l'.mandates[m].reservedCents == l.mandates[m].reservedCents
          && l'.mandates[m].consumedCents == l.mandates[m].consumedCents)
    && Refers(l'.events, l'.attempts)
    && forall q :: RecordOf(l')(q) == RecordOf(l)(q)
  }

  lemma QuietKeepsLog(l: Ledger, l': Ledger)
    requires LogInv(l) && Quiet(l, l')
    ensures LogInv(l')
  {
    QuietAgrees(RecordOf(l), RecordOf(l'), l, l');
  }

  lemma QuietAgrees(log: Record, log': Record, l: Ledger, l': Ledger)
    requires Agrees(log, l.mandates, l.attempts)
    requires l'.attempts == l.attempts && l'.mandates.Keys == l.mandates.Keys
    requires forall m :: m in l.mandates ==>
      && l'.mandates[m].reservedCents == l.mandates[m].reservedCents
      && l'.mandates[m].consumedCents == l.mandates[m].consumedCents
    requires forall q :: log'(q) == log(q)
    ensures Agrees(log', l'.mandates, l'.attempts)
  {
    forall a | a in l.attempts ensures Logged(log', a, l.attempts[a].status) {
      assert Logged(log, a, l.attempts[a].status);
    }
    forall m | m in l.mandates ensures Balanced(log', m, l'.mandates[m]) {
      assert Balanced(log, m, l.mandates[m]);
    }
  }

  /** What is said of one attempt does not touch another, nor another mandate. */
  lemma OthersAgree(log: Record, log': Record, ms: map<Id, Mandate>, ats: map<Id, Attempt>, ms': map<Id, Mandate>,
                    ats': map<Id, Attempt>, a: Id, k1: EventKind, k2: EventKind, k3: EventKind)
    requires Agrees(log, ms, ats) && a in ats' && ats'[a].mandateId in ms && ats'[a].mandateId in ms'
    requires ats' == ats[a := ats'[a]] && ms' == ms[ats'[a].mandateId := ms'[ats'[a].mandateId]]
    requires Grows(log, log', a, k1, k2, k3, ats')
    requires Balanced(log', ats'[a].mandateId, ms'[ats'[a].mandateId]) && Logged(log', a, ats'[a].status)
    ensures Agrees(log', ms', ats')
  {
    forall b | b in ats && b != a ensures Logged(log', b, ats[b].status) {
      assert Logged(log, b, ats[b].status);
      forall q | About(q, b) ensures log'(q) == log(q) {}
    }
    forall m | m in ms && m != ats'[a].mandateId ensures Balanced(log', m, ms[m]) {
      assert Balanced(log, m, ms[m]);
    }
  }

  /** Attempt `a` takes the step the three events tell of. */
  ghost predicate Advances(log: Record, log': Record, m: Mandate, m': Mandate, a: Attempt, a': Attempt,
                           k1: EventKind, k2: EventKind, k3: EventKind, ats': map<Id, Attempt>) {
    && a.id in ats' && ats'[a.id] == a' && SameTerms(a, a') && a'.id == a.id
    && Logged(log, a.id, a.status) && Balanced(log, a.mandateId, m)
    && Grows(log, log', a.id, k1, k2, k3, ats')
  }

  lemma DispatchingAgrees(log: Record, log': Record, m: Mandate, a: Attempt, a': Attempt, t: Id, ats': map<Id, Attempt>)
    requires Advances(log, log', m, m, a, a', EvtDispatched(t), EvtTaskEnqueued, EvtTaskEnqueued, ats')
    requires a.status == DispatchQueued && a'.status == Dispatching
    ensures Logged(log', a.id, Dispatching) && Balanced(log', a.mandateId, m)
  {}

  lemma ReleasingAgrees(log: Record, log': Record, m: Mandate, m': Mandate, a: Attempt, a': Attempt, ats': map<Id, Attempt>)
    requires Advances(log, log', m, m', a, a', EvtWorkerFailed, EvtTaskEnqueued, EvtTaskEnqueued, ats')
    requires m'.reservedCents == m.reservedCents - a.amountCents && m'.consumedCents == m.consumedCents
    requires a.status == DispatchQueued || a.status == Dispatching
    ensures Logged(log', a.id, CancelledReleased) && Balanced(log', a.mandateId, m')
  {}

  lemma SettlingAgrees(log: Record, log': Record, m: Mandate, m': Mandate, a: Attempt, a': Attempt, cents: int, ats': map<Id, Attempt>)
    requires Advances(log, log', m, m', a, a', EvtFinancialOutcome(a'.status, cents), EvtReconciled(a'.status), EvtTaskEnqueued, ats')
    requires a.status == Dispatching || a.status == ExecutionUnknown
    requires Settled(a'.status) && m'.reservedCents == m.reservedCents - a.amountCents
    requires m'.consumedCents == m.consumedCents + if a'.status == ChargeSucceeded then cents else 0
    ensures Logged(log', a.id, a'.status) && Balanced(log', a.mandateId, m')
  {}

  lemma UnknownAgrees(log: Record, log': Record, m: Mandate, m': Mandate, a: Attempt, a': Attempt, t: Id, p: string, q: string,
                      cents: int, ats': map<Id, Attempt>)
    requires Advances(log, log', m, m', a, a', EvtReconciliationStarted(t, p, q), EvtFinancialOutcome(ExecutionUnknown, cents),
                      EvtTaskEnqueued, ats')
    requires a.status == Dispatching && a'.status == ExecutionUnknown
    requires m'.reservedCents == m.reservedCents && m'.consumedCents == m.consumedCents
    ensures Logged(log', a.id, ExecutionUnknown) && Balanced(log', a.mandateId, m')
  {}


  // ---- operators ----

  lemma CreateKeepsLog(l: Ledger, input: CreateInput, anchor: Option<string>, now: Millis)
    requires Sound(l) && LogInv(l) && CreateMandate(l, input, anchor, now).Ok?
    ensures LogInv(CreateMandate(l, input, anchor, now).value.ledger)
  {
    var l' := CreateMandate(l, input, anchor, now).value.ledger;
    forall a | a in l.attempts ensures l.attempts[a].mandateId != l.nextId {
      assert AttemptOk(l.mandates, l.attempts[a], a);
    }
    ReplayOfIdleMandate(l.events, l.attempts, l.nextId);
    Chain();
    assert Quiet(l, l'.(mandates := l.mandates));
    QuietKeepsLog(l, l'.(mandates := l.mandates));
    assert RecordOf(l'.(mandates := l.mandates)) == RecordOf(l');
    assert Balanced(RecordOf(l'), l.nextId, l'.mandates[l.nextId]);
  }

  lemma RevokeKeepsLog(l: Ledger, mandateId: Id, anchor: Option<string>, now: Millis)
    requires LogInv(l) && RevokeMandate(l, mandateId, anchor, now).Ok?
    ensures LogInv(RevokeMandate(l, mandateId, anchor, now).value.ledger)
  {
    Chain();
    QuietKeepsLog(l, RevokeMandate(l, mandateId, anchor, now).value.ledger);
  }

  // ---- tasks ----

  lemma TaskEntryKeepsLog(l: Ledger, tasks: map<Id, Task>, nextId: Id, t: Id, kind: EventKind, now: Millis)
    requires LogInv(l)
    ensures LogInv(WithEvent(l.(tasks := tasks, nextId := nextId), OfTask, t, kind, now))
  {
    Chain();
    QuietKeepsLog(l, WithEvent(l.(tasks := tasks, nextId := nextId), OfTask, t, kind, now));
  }

  // ---- workers ----

  /** From a move of one attempt that the log agrees with to the whole ledger. */
  lemma MoveKeepsLog(l: Ledger, l': Ledger, a: Id, k1: EventKind, k2: EventKind, k3: EventKind)
    requires LogInv(l) && a in l.attempts && a in l'.attempts && l'.attempts[a].mandateId in l.mandates
    requires l'.attempts == l.attempts[a := l'.attempts[a]] && l'.attempts[a].mandateId in l'.mandates
    requires l'.mandates == l.mandates[l'.attempts[a].mandateId := l'.mandates[l'.attempts[a].mandateId]]
    requires Records(l, l', a, k1, k2, k3)
    requires Balanced(RecordOf(l'), l'.attempts[a].mandateId, l'.mandates[l'.attempts[a].mandateId])
    requires Logged(RecordOf(l'), a, l'.attempts[a].status)
    ensures LogInv(l')
  {
    OthersAgree(RecordOf(l), RecordOf(l'), l.mandates, l.attempts, l'.mandates, l'.attempts, a, k1, k2, k3);
  }

  ghost predicate Touches(l: Ledger, l': Ledger, a: Id, m: Id) {
    && a in l.attempts && a in l'.attempts && m in l.mandates && m in l'.mandates
    && l'.attempts == l.attempts[a := l'.attempts[a]] && l'.mandates == l.mandates[m := l'.mandates[m]]
    && SameTerms(l.attempts[a], l'.attempts[a]) && l.attempts[a].mandateId == m
    && l.attempts[a].id == a && l'.attempts[a].id == a
  }

  lemma DispatchingMove(l: Ledger, l': Ledger, a: Id, m: Id, t: Id)
    requires LogInv(l) && Touches(l, l', a, m) && Records(l, l', a, EvtDispatched(t), EvtTaskEnqueued, EvtTaskEnqueued)
    requires l.attempts[a].status == DispatchQueued && l'.attempts[a].status == Dispatching
    requires l'.mandates[m] == l.mandates[m]
    ensures LogInv(l')
  {
    DispatchingAgrees(RecordOf(l), RecordOf(l'), l.mandates[m], l.attempts[a], l'.attempts[a], t, l'.attempts);
    MoveKeepsLog(l, l', a, EvtDispatched(t), EvtTaskEnqueued, EvtTaskEnqueued);
  }

  lemma SettlingMove(l: Ledger, l': Ledger, a: Id, m: Id, status: AttemptStatus, cents: int)
    requires LogInv(l) && Touches(l, l', a, m) && Settled(status)
    requires Records(l, l', a, EvtFinancialOutcome(status, cents), EvtReconciled(status), EvtTaskEnqueued)
    requires l.attempts[a].status == Dispatching || l.attempts[a].status == ExecutionUnknown
    requires l'.attempts[a].status == status
    requires l'.mandates[m].reservedCents == l.mandates[m].reservedCents - l.attempts[a].amountCents
    requires l'.mandates[m].consumedCents == l.mandates[m].consumedCents + if status == ChargeSucceeded then cents else 0
    ensures LogInv(l')
  {
    SettlingAgrees(RecordOf(l), RecordOf(l'), l.mandates[m], l'.mandates[m], l.attempts[a], l'.attempts[a], cents, l'.attempts);
    MoveKeepsLog(l, l', a, EvtFinancialOutcome(status, cents), EvtReconciled(status), EvtTaskEnqueued);
  }

  lemma ReleasingMove(l: Ledger, l': Ledger, a: Id, m: Id)
    requires LogInv(l) && Touches(l, l', a, m) && Records(l, l', a, EvtWorkerFailed, EvtTaskEnqueued, EvtTaskEnqueued)
    requires l.attempts[a].status == DispatchQueued || l.attempts[a].status == Dispatching
    requires l'.attempts[a].status == CancelledReleased
    requires l'.mandates[m].reservedCents == l.mandates[m].reservedCents - l.attempts[a].amountCents
    requires l'.mandates[m].consumedCents == l.mandates[m].consumedCents
    ensures LogInv(l')
  {
    ReleasingAgrees(RecordOf(l), RecordOf(l'), l.mandates[m], l'.mandates[m], l.attempts[a], l'.attempts[a], l'.attempts);
    MoveKeepsLog(l, l', a, EvtWorkerFailed, EvtTaskEnqueued, EvtTaskEnqueued);
  }

  lemma UnknownMove(l: Ledger, l': Ledger, a: Id, m: Id, t: Id, p: string, q: string, cents: int)
    requires LogInv(l) && Touches(l, l', a, m)
    requires Records(l, l', a, EvtReconciliationStarted(t, p, q), EvtFinancialOutcome(ExecutionUnknown, cents), EvtTaskEnqueued)
    requires l.attempts[a].status == Dispatching && l'.attempts[a].status == ExecutionUnknown
    requires l'.mandates[m].reservedCents == l.mandates[m].reservedCents
    requires l'.mandates[m].consumedCents == l.mandates[m].consumedCents
    ensures LogInv(l')
  {
    UnknownAgrees(RecordOf(l), RecordOf(l'), l.mandates[m], l'.mandates[m], l.attempts[a], l'.attempts[a], t, p, q, cents, l'.attempts);
    MoveKeepsLog(l, l', a, EvtReconciliationStarted(t, p, q), EvtFinancialOutcome(ExecutionUnknown, cents), EvtTaskEnqueued);
  }

  lemma BeginRecords(l: Ledger, c: Claim, now: Millis)
    requires Refers(l.events, l.attempts) && BeginDispatch(l, c, now).Ok?
    ensures Records(l, BeginDispatch(l, c, now).value, c.attemptId, EvtDispatched(c.taskId), EvtTaskEnqueued, EvtTaskEnqueued)
  {
    var l' := BeginDispatch(l, c, now).value;
    Chain();
    FrameAll(l.events, l.attempts, l'.attempts);
    RefersLater(l.events, l.attempts, l'.attempts);
  }

  lemma BeginKeepsLog(l: Ledger, c: Claim, now: Millis)
    requires LogInv(l) && BeginDispatch(l, c, now).Ok?
    requires l.attempts[c.attemptId].id == c.attemptId && l.attempts[c.attemptId].mandateId in l.mandates
    ensures LogInv(BeginDispatch(l, c, now).value)
  {
    BeginRecords(l, c, now);
    DispatchingMove(l, BeginDispatch(l, c, now).value, c.attemptId, l.attempts[c.attemptId].mandateId, c.taskId);
  }

  lemma ReleaseRecords(l: Ledger, c: Claim, reason: BlockedReason, now: Millis)
    requires Refers(l.events, l.attempts) && ReleaseDispatch(l, c, reason, now).Ok?
    ensures Records(l, ReleaseDispatch(l, c, reason, now).value, c.attemptId, EvtWorkerFailed, EvtTaskEnqueued, EvtTaskEnqueued)
  {
    var l' := ReleaseDispatch(l, c, reason, now).value;
    Chain();
    FrameAll(l.events, l.attempts, l'.attempts);
    RefersLater(l.events, l.attempts, l'.attempts);
  }

  lemma ReleaseKeepsLog(l: Ledger, c: Claim, reason: BlockedReason, now: Millis)
    requires Sound(l) && LogInv(l) && ClaimMatches(l, c) && ReleaseDispatch(l, c, reason, now).Ok?
    ensures LogInv(ReleaseDispatch(l, c, reason, now).value)
  {
    assert AttemptOk(l.mandates, l.attempts[c.attemptId], c.attemptId);
    OpenAttemptIsFullyReserved(l, c);
    ReleaseRecords(l, c, reason, now);
    ReleasingMove(l, ReleaseDispatch(l, c, reason, now).value, c.attemptId, c.mandateId);
  }

  lemma OutcomeReplay(l: Ledger, c: Claim, evidence: ReceiptEvidence, status: AttemptStatus, cents: int, now: Millis,
                      q: Query, ats: map<Id, Attempt>)
    ensures Replay(OutcomeNotes(l, c, evidence, status, cents, now).events, q, ats) ==
            Said(EvtFinancialOutcome(status, cents), c.attemptId, q, ats) + Replay(l.events, q, ats)
  {
    var l1 := WithAudit(l, c.mandateId, AuditReceiptUpdated, Some(c.attemptId), now);
    WithEventReplay(l1, OfAttempt, c.attemptId, EvtReceiptUpdated(evidence), now, q, ats);
    var l2 := WithEvent(l1, OfAttempt, c.attemptId, EvtReceiptUpdated(evidence), now);
    var l3 := WithAudit(l2, c.mandateId, AuditFinancialOutcome, Some(c.attemptId), now);
    WithEventReplay(l3, OfAttempt, c.attemptId, EvtFinancialOutcome(status, cents), now, q, ats);
  }

  lemma OutcomeRefers(l: Ledger, c: Claim, evidence: ReceiptEvidence, status: AttemptStatus, cents: int, now: Millis,
                      ats: map<Id, Attempt>)
    requires Refers(l.events, ats) && c.attemptId in ats && (Settled(status) || status == ExecutionUnknown)
    ensures Refers(OutcomeNotes(l, c, evidence, status, cents, now).events, ats)
  {}

  lemma ReconciledReplay(l: Ledger, c: Claim, status: AttemptStatus, now: Millis, q: Query, ats: map<Id, Attempt>)
    ensures Replay(ReconciledNotes(l, c, status, now).events, q, ats) ==
            Said(EvtReconciled(status), c.attemptId, q, ats) + Replay(l.events, q, ats)
  {
    WithEventReplay(WithAudit(l, c.mandateId, AuditAttemptReconciled, Some(c.attemptId), now),
                    OfAttempt, c.attemptId, EvtReconciled(status), now, q, ats);
  }

  lemma OutcomeRecords(l: Ledger, l0: Ledger, c: Claim, evidence: ReceiptEvidence, status: AttemptStatus, cents: int, now: Millis)
    requires Refers(l.events, l.attempts) && l0.events == l.events && Settled(status)
    requires KeepsTerms(l.attempts, l0.attempts) && c.attemptId in l0.attempts
    ensures
      var l' := ReconciledNotes(OutcomeNotes(l0, c, evidence, status, cents, now), c, status, now);
      Records(l, l', c.attemptId, EvtFinancialOutcome(status, cents), EvtReconciled(status), EvtTaskEnqueued)
  {
    var l1 := OutcomeNotes(l0, c, evidence, status, cents, now);
    var l' := ReconciledNotes(l1, c, status, now);
    OutcomeRefers(l0, c, evidence, status, cents, now, l0.attempts);
    forall q ensures RecordOf(l')(q) == RecordOf(l)(q) + Said(EvtFinancialOutcome(status, cents), c.attemptId, q, l'.attempts)
                                        + Said(EvtReconciled(status), c.attemptId, q, l'.attempts)
    {
      OutcomeReplay(l0, c, evidence, status, cents, now, q, l0.attempts);
      ReconciledReplay(l1, c, status, now, q, l0.attempts);
      ReplayFrame(l.events, q, l.attempts, l0.attempts);
    }
  }

  /** `l0` is the ledger after the rows are settled and before the entries are written. */
  lemma SettlingKeepsLog(l: Ledger, l0: Ledger, c: Claim, evidence: ReceiptEvidence, status: AttemptStatus, cents: int, now: Millis)
    requires LogInv(l) && ClaimMatches(l, c) && c.mandateId in l.mandates && Settled(status)
    requires CanTransitionAttempt(l.attempts[c.attemptId].status, status) && l.attempts[c.attemptId].id == c.attemptId
    requires l0.events == l.events && c.attemptId in l0.attempts && c.mandateId in l0.mandates
    requires l0.attempts == l.attempts[c.attemptId := l0.attempts[c.attemptId]]
    requires l0.mandates == l.mandates[c.mandateId := l0.mandates[c.mandateId]]
    requires SameTerms(l.attempts[c.attemptId], l0.attempts[c.attemptId])
    requires l0.attempts[c.attemptId].id == c.attemptId && l0.attempts[c.attemptId].status == status
    requires l0.mandates[c.mandateId].reservedCents == l.mandates[c.mandateId].reservedCents - c.amountCents
    requires l0.mandates[c.mandateId].consumedCents ==
             l.mandates[c.mandateId].consumedCents + if status == ChargeSucceeded then cents else 0
    ensures LogInv(ReconciledNotes(OutcomeNotes(l0, c, evidence, status, cents, now), c, status, now))
  {
    OutcomeRecords(l, l0, c, evidence, status, cents, now);
    SettlingMove(l, ReconciledNotes(OutcomeNotes(l0, c, evidence, status, cents, now), c, status, now),
                 c.attemptId, c.mandateId, status, cents);
  }

  lemma ReconciliationKeepsLog(l: Ledger, c: Claim, r: CorrelationResult, now: Millis)
    requires Sound(l) && LogInv(l) && ClaimMatches(l, c) && ApplyReconciliationResult(l, c, r, now).Ok?
    ensures LogInv(ApplyReconciliationResult(l, c, r, now).value)
  {
    OpenAttemptIsFullyReserved(l, c);
    assert AttemptOk(l.mandates, l.attempts[c.attemptId], c.attemptId);
    var l' := ApplyReconciliationResult(l, c, r, now).value;
    var l0 := l.(attempts := l'.attempts, mandates := l'.mandates);
    SettlingKeepsLog(l, l0, c, r.evidence, r.Status(), ResolveSettledAmountCents(c.amountCents, r.finalAmount), now);
  }

  lemma SettledDispatchKeepsLog(l: Ledger, c: Claim, r: DispatchResult, found: Option<Id>, now: Millis)
    requires Sound(l) && LogInv(l) && ClaimMatches(l, c) && !r.DispatchUnknown?
    requires ApplyDispatchResult(l, c, r, found, now).Ok?
    ensures LogInv(ApplyDispatchResult(l, c, r, found, now).value)
  {
    assert AttemptOk(l.mandates, l.attempts[c.attemptId], c.attemptId);
    SettlingKeepsLog(l, Settle(l, c, r, now), c, r.evidence, r.Status(),
                     ResolveSettledAmountCents(c.amountCents, r.FinalAmount()), now);
  }

  /** The new task's own entry is not about the attempt. */
  lemma EnqueueIsQuiet(l: Ledger, kind: TaskKind, mandateId: Id, attemptId: Id, operatorId: Option<string>,
                       found: Option<Id>, now: Millis, ats: map<Id, Attempt>)
    requires Refers(l.events, ats)
    ensures
      var q := EnqueueWorkerTask(l, kind, mandateId, attemptId, operatorId, found, now).ledger;
      Refers(q.events, ats) && forall u :: Replay(q.events, u, ats) == Replay(l.events, u, ats)
  {
    Chain();
  }

  lemma StartedRecords(l: Ledger, l2: Ledger, c: Claim, r: DispatchResult, t: Id, now: Millis)
    requires Refers(l2.events, l2.attempts) && r.DispatchUnknown? && c.attemptId in l2.attempts
    requires KeepsTerms(l.attempts, l2.attempts) && forall q :: Replay(l2.events, q, l2.attempts) == RecordOf(l)(q)
    ensures
      var l' := OutcomeNotes(ReconciliationStarted(l2, c, t, r, now), c, r.evidence, ExecutionUnknown, c.amountCents, now);
      Records(l, l', c.attemptId, EvtReconciliationStarted(t, r.payloadJson, r.requirementsJson),
              EvtFinancialOutcome(ExecutionUnknown, c.amountCents), EvtTaskEnqueued)
  {
    var started := EvtReconciliationStarted(t, r.payloadJson, r.requirementsJson);
    var l3 := ReconciliationStarted(l2, c, t, r, now);
    var l' := OutcomeNotes(l3, c, r.evidence, ExecutionUnknown, c.amountCents, now);
    StartedRefers(l2, c, t, r, now);
    OutcomeRefers(l3, c, r.evidence, ExecutionUnknown, c.amountCents, now, l2.attempts);
    forall q ensures RecordOf(l')(q) == RecordOf(l)(q) + Said(started, c.attemptId, q, l2.attempts)
                                        + Said(EvtFinancialOutcome(ExecutionUnknown, c.amountCents), c.attemptId, q, l2.attempts)
    {
      StartedReplay(l2, c, t, r, now, q);
      OutcomeReplay(l3, c, r.evidence, ExecutionUnknown, c.amountCents, now, q, l2.attempts);
    }
    assert l'.attempts == l2.attempts;
  }

  lemma StartedRefers(l: Ledger, c: Claim, t: Id, r: DispatchResult, now: Millis)
    requires Refers(l.events, l.attempts) && r.DispatchUnknown? && c.attemptId in l.attempts
    ensures Refers(ReconciliationStarted(l, c, t, r, now).events, l.attempts)
  {}

  lemma StartedReplay(l: Ledger, c: Claim, t: Id, r: DispatchResult, now: Millis, q: Query)
    requires r.DispatchUnknown?
    ensures Replay(ReconciliationStarted(l, c, t, r, now).events, q, l.attempts) ==
            Said(EvtReconciliationStarted(t, r.payloadJson, r.requirementsJson), c.attemptId, q, l.attempts)
            + Replay(l.events, q, l.attempts)
  {
    WithEventReplay(l, OfAttempt, c.attemptId, EvtReconciliationStarted(t, r.payloadJson, r.requirementsJson), now, q, l.attempts);
  }

  lemma UnknownRecords(l: Ledger, c: Claim, r: DispatchResult, found: Option<Id>, now: Millis) returns (t: Id)
    requires Refers(l.events, l.attempts) && r.DispatchUnknown? && ApplyDispatchResult(l, c, r, found, now).Ok?
    ensures Records(l, ApplyDispatchResult(l, c, r, found, now).value, c.attemptId,
                    EvtReconciliationStarted(t, r.payloadJson, r.requirementsJson),
                    EvtFinancialOutcome(ExecutionUnknown, c.amountCents), EvtTaskEnqueued)
  {
    var operator := Some(l.attempts[c.attemptId].operatorId);
    var l1 := WithAudit(Settle(l, c, r, now), c.mandateId, AuditReconciliationStarted, Some(c.attemptId), now);
    var q := EnqueueWorkerTask(l1, ReconcileAttempt, c.mandateId, c.attemptId, operator, found, now);
    FrameAll(l.events, l.attempts, l1.attempts);
    EnqueueIsQuiet(l1, ReconcileAttempt, c.mandateId, c.attemptId, operator, found, now, l1.attempts);
    t := q.taskId;
    StartedRecords(l, q.ledger, c, r, t, now);
  }

  lemma UnknownDispatchKeepsLog(l: Ledger, c: Claim, r: DispatchResult, found: Option<Id>, now: Millis)
    requires LogInv(l) && ClaimMatches(l, c) && l.attempts[c.attemptId].id == c.attemptId && r.DispatchUnknown?
    requires ApplyDispatchResult(l, c, r, found, now).Ok?
    ensures LogInv(ApplyDispatchResult(l, c, r, found, now).value)
  {
    var t := UnknownRecords(l, c, r, found, now);
    DispatchResultIsSettle(l, c, r, found, now);
    UnknownMove(l, ApplyDispatchResult(l, c, r, found, now).value, c.attemptId, c.mandateId, t,
                r.payloadJson, r.requirementsJson, c.amountCents);
  }

  lemma DispatchResultKeepsLog(l: Ledger, c: Claim, r: DispatchResult, found: Option<Id>, now: Millis)
    requires Sound(l) && LogInv(l) && ClaimMatches(l, c) && ApplyDispatchResult(l, c, r, found, now).Ok?
    ensures LogInv(ApplyDispatchResult(l, c, r, found, now).value)
  {
    assert AttemptOk(l.mandates, l.attempts[c.attemptId], c.attemptId);
    if r.DispatchUnknown? {
      UnknownDispatchKeepsLog(l, c, r, found, now);
    } else {
      SettledDispatchKeepsLog(l, c, r, found, now);
    }
  }

  lemma EnsureKeepsLog(l: Ledger, mandateId: Id, attemptId: Id, found: Option<Id>, now: Millis)
    requires LogInv(l) && EnsureReconciliationQueued(l, mandateId, attemptId, found, now).Ok?
    ensures LogInv(EnsureReconciliationQueued(l, mandateId, attemptId, found, now).value)
  {
    EnqueueIsQuiet(l, ReconcileAttempt, mandateId, attemptId, Some(l.attempts[attemptId].operatorId), found, now, l.attempts);
    QuietKeepsLog(l, EnsureReconciliationQueued(l, mandateId, attemptId, found, now).value);
  }

  // ---- requests ----

  /** A new attempt `a` is on the log with everything `l'` says of it, and nothing older. */
  ghost predicate AddsTo(l: Ledger, l': Ledger, a: Id, m: Id) {
    && a !in l.attempts && a in l'.attempts && l'.attempts == l.attempts[a := l'.attempts[a]]
    && m in l.mandates && m in l'.mandates && l'.mandates == l.mandates[m := l'.mandates[m]]
    && l'.attempts[a].mandateId == m && l'.attempts[a].id == a
  }

  lemma NothingKnownYet(l: Ledger, a: Id)
    requires Refers(l.events, l.attempts) && a !in l.attempts
    ensures forall q :: About(q, a) ==> RecordOf(l)(q) == 0
  {
    forall q | About(q, a) ensures RecordOf(l)(q) == 0 {
      ReplayOfStranger(l.events, q, l.attempts, a);
    }
  }

  lemma DenialMove(l: Ledger, l': Ledger, a: Id, m: Id, reason: BlockedReason)
    requires LogInv(l) && AddsTo(l, l', a, m)
    requires Records(l, l', a, EvtAuthValidated(m), EvtPolicyDenied(reason), EvtTaskEnqueued)
    requires l'.attempts[a].status == PolicyDenied
    requires l'.mandates[m].reservedCents == l.mandates[m].reservedCents
    requires l'.mandates[m].consumedCents == l.mandates[m].consumedCents
    ensures LogInv(l')
  {
    NothingKnownYet(l, a);
    assert Balanced(RecordOf(l), m, l.mandates[m]);
    OthersAgree(RecordOf(l), RecordOf(l'), l.mandates, l.attempts, l'.mandates, l'.attempts, a,
                EvtAuthValidated(m), EvtPolicyDenied(reason), EvtTaskEnqueued);
  }

  lemma ReservationMove(l: Ledger, l': Ledger, a: Id, m: Id, t: Id)
    requires LogInv(l) && AddsTo(l, l', a, m)
    requires Records(l, l', a, EvtAuthValidated(m), EvtReserved(l'.attempts[a].amountCents), EvtQueued(t))
    requires l'.attempts[a].status == DispatchQueued
    requires l'.mandates[m].reservedCents == l.mandates[m].reservedCents + l'.attempts[a].amountCents
    requires l'.mandates[m].consumedCents == l.mandates[m].consumedCents
    ensures LogInv(l')
  {
    NothingKnownYet(l, a);
    assert Balanced(RecordOf(l), m, l.mandates[m]);
    OthersAgree(RecordOf(l), RecordOf(l'), l.mandates, l.attempts, l'.mandates, l'.attempts, a,
                EvtAuthValidated(m), EvtReserved(l'.attempts[a].amountCents), EvtQueued(t));
  }

  /** `l1` holds nothing new but entries about the attempt being admitted. */
  ghost predicate Prepared(l: Ledger, l1: Ledger, attempt: Attempt) {
    && l1.attempts == l.attempts && attempt.id !in l.attempts
    && Refers(l1.events, l.attempts[attempt.id := attempt])
    && forall q, ats :: Replay(l1.events, q, ats) ==
                        Replay(l.events, q, ats) + Said(EvtAuthValidated(attempt.mandateId), attempt.id, q, ats)
  }

  lemma AdmitPrepares(l: Ledger, attempt: Attempt, now: Millis)
    requires Refers(l.events, l.attempts) && attempt.id !in l.attempts
    ensures Prepared(l, Admit(l, attempt, now), attempt)
  {
    RefersLater(l.events, l.attempts, l.attempts[attempt.id := attempt]);
    Chain();
  }

  lemma ExpirePrepares(l: Ledger, l1: Ledger, attempt: Attempt, now: Millis)
    requires Prepared(l, l1, attempt) && attempt.mandateId in l1.mandates
    ensures Prepared(l, ExpireMandate(l1, attempt.mandateId, now), attempt)
  {
    Chain();
  }

  lemma ApprovePrepares(l: Ledger, l1: Ledger, attempt: Attempt, now: Millis)
    requires Prepared(l, l1, attempt)
    ensures Prepared(l, Approve(l1, attempt, now), attempt)
  {
    Chain();
  }

  lemma TreasuryPrepares(l: Ledger, l1: Ledger, attempt: Attempt, now: Millis)
    requires Prepared(l, l1, attempt)
    ensures Prepared(l, TreasuryEnforced(l1, attempt, now), attempt)
  {
    Chain();
  }

  lemma DenyRecords(l: Ledger, l1: Ledger, attempt: Attempt, reason: BlockedReason, now: Millis)
    requires Refers(l.events, l.attempts) && Prepared(l, l1, attempt)
    ensures Records(l, Deny(l1, attempt, reason, now).ledger, attempt.id, EvtAuthValidated(attempt.mandateId), EvtPolicyDenied(reason),
                    EvtTaskEnqueued)
  {
    var l' := Deny(l1, attempt, reason, now).ledger;
    Chain();
    FrameAll(l.events, l.attempts, l'.attempts);
    RefersLater(l1.events, l.attempts[attempt.id := attempt], l'.attempts);
  }

  lemma HoldReplay(l: Ledger, a: Attempt, now: Millis, q: Query, ats: map<Id, Attempt>)
    requires a.mandateId in l.mandates
    ensures Replay(Hold(l, a, now).events, q, ats) == Said(EvtReserved(a.amountCents), a.id, q, ats) + Replay(l.events, q, ats)
  {
    Chain();
  }

  lemma QueueReplay(l: Ledger, a: Attempt, now: Millis, q: Query, ats: map<Id, Attempt>)
    ensures Replay(Queue(l, a, now).events, q, ats) == Said(EvtQueued(l.nextId), a.id, q, ats) + Replay(l.events, q, ats)
  {
    Chain();
  }

  lemma ReserveRefers(l: Ledger, l1: Ledger, attempt: Attempt, now: Millis)
    requires Refers(l.events, l.attempts) && Prepared(l, l1, attempt) && attempt.mandateId in l1.mandates
    ensures
      var l' := Reserve(l1, attempt, now).ledger;
      KeepsTerms(l.attempts, l'.attempts) && Refers(l'.events, l'.attempts)
  {
    var held, ran := Hold(l1, attempt, now), Reserve(l1, attempt, now);
    var ats := ran.ledger.attempts;
    RefersLater(l1.events, l.attempts[attempt.id := attempt], ats);
    HoldRefers(l1, attempt, now, ats);
    QueueRefers(held, ran.attempt, now, ats);
  }

  lemma HoldRefers(l: Ledger, a: Attempt, now: Millis, ats: map<Id, Attempt>)
    requires Refers(l.events, ats) && a.mandateId in l.mandates && a.id in ats && ats[a.id].amountCents == a.amountCents
    ensures Refers(Hold(l, a, now).events, ats)
  {}

  lemma QueueRefers(l: Ledger, a: Attempt, now: Millis, ats: map<Id, Attempt>)
    requires Refers(l.events, ats) && a.id in ats
    ensures Refers(Queue(l, a, now).events, ats)
  {}

  lemma ReserveRecords(l: Ledger, l1: Ledger, attempt: Attempt, now: Millis) returns (t: Id)
    requires Refers(l.events, l.attempts) && Prepared(l, l1, attempt) && attempt.mandateId in l1.mandates
    ensures Records(l, Reserve(l1, attempt, now).ledger, attempt.id, EvtAuthValidated(attempt.mandateId), EvtReserved(attempt.amountCents),
                    EvtQueued(t))
  {
    var ran := Reserve(l1, attempt, now);
    var l' := ran.ledger;
    t := Hold(l1, attempt, now).nextId;
    ReserveRefers(l, l1, attempt, now);
    forall q ensures RecordOf(l')(q) == RecordOf(l)(q) + Said(EvtAuthValidated(attempt.mandateId), attempt.id, q, l'.attempts)
                     + Said(EvtReserved(attempt.amountCents), attempt.id, q, l'.attempts) + Said(EvtQueued(t), attempt.id, q, l'.attempts)
    {
      HoldReplay(l1, attempt, now, q, l'.attempts);
      QueueReplay(Hold(l1, attempt, now), ran.attempt, now, q, l'.attempts);
      ReplayFrame(l.events, q, l.attempts, l'.attempts);
    }
  }

  lemma DenyKeepsLog(l: Ledger, l1: Ledger, attempt: Attempt, reason: BlockedReason, now: Millis)
    requires LogInv(l) && Prepared(l, l1, attempt) && attempt.mandateId in l.mandates && attempt.mandateId in l1.mandates
    requires l1.mandates == l.mandates[attempt.mandateId := l1.mandates[attempt.mandateId]]
    requires l1.mandates[attempt.mandateId].reservedCents == l.mandates[attempt.mandateId].reservedCents
    requires l1.mandates[attempt.mandateId].consumedCents == l.mandates[attempt.mandateId].consumedCents
    ensures LogInv(Deny(l1, attempt, reason, now).ledger)
  {
    DenyRecords(l, l1, attempt, reason, now);
    DenialMove(l, Deny(l1, attempt, reason, now).ledger, attempt.id, attempt.mandateId, reason);
  }

  lemma ReserveKeepsLog(l: Ledger, l1: Ledger, attempt: Attempt, now: Millis)
    requires LogInv(l) && Prepared(l, l1, attempt) && attempt.mandateId in l.mandates && l1.mandates == l.mandates
    ensures LogInv(Reserve(l1, attempt, now).ledger)
  {
    var t := ReserveRecords(l, l1, attempt, now);
    ReservationMove(l, Reserve(l1, attempt, now).ledger, attempt.id, attempt.mandateId, t);
  }

  lemma AdmittedKeepsLog(l: Ledger, a: Attempt, vendor: Vendor, treasury: Treasury, now: Millis)
    requires LogInv(l) && a.id !in l.attempts && a.mandateId in l.mandates
    requires Admitted(l, a, vendor, treasury, now).Ok?
    ensures LogInv(Admitted(l, a, vendor, treasury, now).value.ledger)
  {
    var b := Authenticated(a);
    var m := l.mandates[b.mandateId];
    var l1 := Admit(l, b, now);
    AdmitPrepares(l, b, now);
    var policy := EvaluatePolicy(m, Some(vendor), b.amountCents, now);
    if policy.Denied? {
      if policy.reason == MandateNotActive && m.status == IssuedActive && m.expiresAt <= now {
        ExpirePrepares(l, l1, b, now);
        DenyKeepsLog(l, ExpireMandate(l1, b.mandateId, now), b, policy.reason, now);
      } else {
        DenyKeepsLog(l, l1, b, policy.reason, now);
      }
    } else {
      var l2 := Approve(l1, b, now);
      ApprovePrepares(l, l1, b, now);
      match treasury
      case TreasuryDenies(code) => DenyKeepsLog(l, l2, b, TreasuryDenied(code), now);
      case TreasuryApproved =>
        TreasuryPrepares(l, l2, b, now);
        ReserveKeepsLog(l, TreasuryEnforced(l2, b, now), b, now);
      case TreasuryNotEnforced => ReserveKeepsLog(l, l2, b, now);
    }
  }

  lemma RunKeepsLog(l: Ledger, input: RunInput, generated: string, treasury: Treasury, now: Millis)
    requires Sound(l) && LogInv(l) && RunAttempt(l, input, generated, treasury, now).Ok?
    ensures LogInv(RunAttempt(l, input, generated, treasury, now).value.ledger)
  {
    RunIsRepeatOrAdmitted(l, input, generated, treasury, now);
    if RunAttempt(l, input, generated, treasury, now).value.ledger != l {
      var a := AttemptFor(l, input, generated, now);
      AdmittedKeepsLog(l, a, FindVendor(a.vendorId).value, treasury, now);
    }
  }
}

/** What the places of the workers say about the ledger, whatever the interleaving:
    one worker at most has moved an attempt to dispatching, so the vendor is called at most once. */
module Workers {
  import opened Domain
  import opened StateMachines
  import opened Policy
  import opened Ledger
  import opened Money
  import opened Protocol

  // ---- the invariant ----

  /** From BeginDispatch on, the worker acts for the attempt. */
  predicate Holding(pc: Pc) {
    pc.ExecBegun? || pc.ExecCleared? || pc.ExecAwaiting? || pc.ExecAnswered? || pc.ExecSettled? || pc.ExecReleasing?
  }

  /** The attempt must still be dispatching. */
  predicate Dispatches(pc: Pc) {
    pc.ExecBegun? || pc.ExecCleared? || pc.ExecAwaiting? || pc.ExecAnswered?
  }

  predicate BeforeSending(pc: Pc) {
    pc.ExecBegun? || pc.ExecCleared?
  }

  predicate Reconciles(pc: Pc) {
    pc.RecLeased? || pc.RecRead? || pc.RecReady? || pc.RecAnswered? || pc.RecSettled? || pc.RecCaught? || pc.RecRequeueing?
  }

  predicate PastQueue(status: AttemptStatus) {
    status == Dispatching || status == ExecutionUnknown || Settled(status) || status == CancelledReleased
  }

  ghost predicate ClaimOk(ats: map<Id, Attempt>, ts: map<Id, Task>, c: Claim) {
    && c.taskId in ts && ts[c.taskId].attemptId == c.attemptId && 1 <= c.leaseNo <= ts[c.taskId].attemptCount
    && c.attemptId in ats && ats[c.attemptId].mandateId == c.mandateId && ats[c.attemptId].amountCents == c.amountCents
    && ats[c.attemptId].vendorId == c.vendorId && ats[c.attemptId].paymentIdentifier == c.paymentIdentifier
  }

  ghost predicate PcOk(ats: map<Id, Attempt>, ts: map<Id, Task>, sends: multiset<Id>, answers: map<Id, DispatchResult>, pc: Pc) {
    var c := pc.claim;
    && ClaimOk(ats, ts, c)
    && (Reconciles(pc) ==> ts[c.taskId].kind == ReconcileAttempt)
    && (Holding(pc) ==> PastQueue(ats[c.attemptId].status))
    && (Dispatches(pc) ==> ats[c.attemptId].status == Dispatching)
    && (BeforeSending(pc) ==> sends[c.attemptId] == 0)
    && (BeforeSending(pc) || pc.ExecAwaiting? ==> c.attemptId !in answers)
    && (pc.ExecAwaiting? || pc.ExecAnswered? ==> sends[c.attemptId] == 1)
    && (pc.ExecAnswered? ==> c.attemptId in answers && answers[c.attemptId] == pc.answer)
  }

  ghost predicate Acts(ws: map<WorkerId, Pc>, w: WorkerId, a: Id) {
    w in ws && Holding(ws[w]) && ws[w].claim.attemptId == a
  }

  ghost predicate OneHolder(ws: map<WorkerId, Pc>) {
    forall v, w, a :: Acts(ws, v, a) && Acts(ws, w, a) ==> v == w
  }

  /** The vendor is called at most once per attempt, and a charge outcome needs a call. */
  ghost predicate SendOk(ats: map<Id, Attempt>, sends: multiset<Id>, answers: map<Id, DispatchResult>, a: Id) {
    && sends[a] <= 1
    && (sends[a] > 0 ==> a in ats && PastQueue(ats[a].status))
    && (a in answers ==> sends[a] == 1)
    && (a in ats && (ats[a].status == ExecutionUnknown || Settled(ats[a].status)) ==> a in answers)
  }

  ghost predicate SendsOk(ats: map<Id, Attempt>, sends: multiset<Id>, answers: map<Id, DispatchResult>) {
    forall a {:trigger SendOk(ats, sends, answers, a)} :: SendOk(ats, sends, answers, a)
  }

  /** A reconcile task exists only for an attempt that became execution_unknown. */
  ghost predicate TaskFits(ats: map<Id, Attempt>, t: Task) {
    && t.attemptId in ats
    && (t.kind == ReconcileAttempt ==> ats[t.attemptId].status == ExecutionUnknown || Settled(ats[t.attemptId].status))
  }

  ghost predicate TasksOk(ats: map<Id, Attempt>, ts: map<Id, Task>) {
    forall t {:trigger TaskFits(ats, ts[t])} :: t in ts ==> TaskFits(ats, ts[t])
  }

  /** A recorded payload is the one the attempt's only vendor call returned. */
  ghost predicate PayloadOk(e: Event, answers: map<Id, DispatchResult>) {
    e.entityType == OfAttempt && e.kind.EvtReconciliationStarted? ==>
      && e.entityId in answers && answers[e.entityId].DispatchUnknown?
      && e.kind.payloadJson == answers[e.entityId].payloadJson
      && e.kind.requirementsJson == answers[e.entityId].requirementsJson
  }

  ghost predicate PayloadsOk(es: seq<Event>, answers: map<Id, DispatchResult>) {
    forall e {:trigger PayloadOk(e, answers)} :: e in es ==> PayloadOk(e, answers)
  }

  ghost predicate WorkersOk(s: Sys) {
    forall w {:trigger PcOk(s.ledger.attempts, s.ledger.tasks, s.sends, s.answers, s.workers[w])} ::
      w in s.workers ==> PcOk(s.ledger.attempts, s.ledger.tasks, s.sends, s.answers, s.workers[w])
  }

  ghost predicate WInv(s: Sys) {
    && WorkersOk(s) && OneHolder(s.workers)
    && SendsOk(s.ledger.attempts, s.sends, s.answers)
    && TasksOk(s.ledger.attempts, s.ledger.tasks)
    && PayloadsOk(s.ledger.events, s.answers)
  }

  // ---- how a ledger may evolve ----

  ghost predicate SameDeal(a: Attempt, b: Attempt) {
    && a.id == b.id && a.mandateId == b.mandateId && a.amountCents == b.amountCents && a.vendorId == b.vendorId
    && a.operatorId == b.operatorId && a.paymentIdentifier == b.paymentIdentifier && a.createdAt == b.createdAt
  }

  ghost predicate SameJob(t: Task, u: Task) {
    t.kind == u.kind && t.attemptId == u.attemptId && t.mandateId == u.mandateId
    && t.attemptCount <= u.attemptCount && t.createdAt == u.createdAt
  }

  ghost predicate AttemptEvolves(ats: map<Id, Attempt>, ats': map<Id, Attempt>, a: Id, moved: Id) {
    && a in ats && a in ats' && SameDeal(ats[a], ats'[a]) && (a != moved ==> ats'[a] == ats[a])
  }

  ghost predicate TaskEvolves(ts: map<Id, Task>, ts': map<Id, Task>, t: Id) {
    t in ts && t in ts' && SameJob(ts[t], ts'[t])
  }

  /** Rows are only added or updated; of the existing attempts at most `moved` changes. */
  ghost predicate Evolves(l: Ledger, l': Ledger, moved: Id) {
    && (forall a {:trigger AttemptEvolves(l.attempts, l'.attempts, a, moved)} ::
          a in l.attempts ==> AttemptEvolves(l.attempts, l'.attempts, a, moved))
    && (forall t {:trigger TaskEvolves(l.tasks, l'.tasks, t)} :: t in l.tasks ==> TaskEvolves(l.tasks, l'.tasks, t))
  }

  /** What a transaction adds to the log about payloads: nothing, or what `answers` says. */
  ghost predicate Silent(l: Ledger, l': Ledger) {
    forall e :: e in l'.events && e.kind.EvtReconciliationStarted? ==> e in l.events
  }

  lemma SilentKeepsPayloads(l: Ledger, l': Ledger, answers: map<Id, DispatchResult>)
    requires PayloadsOk(l.events, answers) && Silent(l, l')
    ensures PayloadsOk(l'.events, answers)
  {
    forall e | e in l'.events ensures PayloadOk(e, answers) {
      if e.kind.EvtReconciliationStarted? { assert PayloadOk(e, answers); }
    }
  }

  lemma WithEventNews(l: Ledger, et: EntityType, id: Id, kind: EventKind, now: Millis)
    ensures forall e :: e in WithEvent(l, et, id, kind, now).events ==> e in l.events || e == Event(l.nextId, et, id, kind, now)
  {}

  lemma OutcomeIsSilent(l: Ledger, c: Claim, evidence: ReceiptEvidence, status: AttemptStatus, cents: int, now: Millis)
    ensures Silent(l, OutcomeNotes(l, c, evidence, status, cents, now))
  {
    var l1 := WithAudit(l, c.mandateId, AuditReceiptUpdated, Some(c.attemptId), now);
    WithEventNews(l1, OfAttempt, c.attemptId, EvtReceiptUpdated(evidence), now);
    var l3 := WithAudit(WithEvent(l1, OfAttempt, c.attemptId, EvtReceiptUpdated(evidence), now),
                        c.mandateId, AuditFinancialOutcome, Some(c.attemptId), now);
    WithEventNews(l3, OfAttempt, c.attemptId, EvtFinancialOutcome(status, cents), now);
  }

  lemma SettlingIsSilent(l: Ledger, c: Claim, evidence: ReceiptEvidence, status: AttemptStatus, cents: int, now: Millis)
    ensures Silent(l, ReconciledNotes(OutcomeNotes(l, c, evidence, status, cents, now), c, status, now))
  {
    OutcomeIsSilent(l, c, evidence, status, cents, now);
    var l1 := OutcomeNotes(l, c, evidence, status, cents, now);
    WithEventNews(WithAudit(l1, c.mandateId, AuditAttemptReconciled, Some(c.attemptId), now),
                  OfAttempt, c.attemptId, EvtReconciled(status), now);
  }

  /** A transaction nobody's place depends on: the existing attempts stay as they are. */
  ghost predicate Benign(l: Ledger, l': Ledger) {
    && Evolves(l, l', l'.nextId) && l.nextId <= l'.nextId && (forall a :: a in l.attempts ==> a < l.nextId)
    && (forall a :: a in l'.attempts && a !in l.attempts ==>
          l'.attempts[a].status == PolicyDenied || l'.attempts[a].status == DispatchQueued)
    && Silent(l, l') && TasksOk(l'.attempts, l'.tasks)
  }

  lemma BenignKeepsWorkers(s: Sys, l': Ledger)
    requires WInv(s) && Benign(s.ledger, l')
    ensures WInv(s.(ledger := l'))
  {
    var s', l := s.(ledger := l'), s.ledger;
    forall w | w in s'.workers ensures PcOk(l'.attempts, l'.tasks, s.sends, s.answers, s'.workers[w]) {
      assert PcOk(l.attempts, l.tasks, s.sends, s.answers, s.workers[w]);
      PcOkEvolves(l, l', l'.nextId, s.sends, s.answers, s.workers[w]);
    }
    forall a ensures SendOk(l'.attempts, s.sends, s.answers, a) {
      assert SendOk(l.attempts, s.sends, s.answers, a);
      if a in l.attempts { assert AttemptEvolves(l.attempts, l'.attempts, a, l'.nextId); }
    }
    SilentKeepsPayloads(l, l', s.answers);
  }

  lemma PcOkEvolves(l: Ledger, l': Ledger, moved: Id, sends: multiset<Id>, answers: map<Id, DispatchResult>, pc: Pc)
    requires PcOk(l.attempts, l.tasks, sends, answers, pc) && Evolves(l, l', moved)
    requires Holding(pc) ==> pc.claim.attemptId != moved
    ensures PcOk(l'.attempts, l'.tasks, sends, answers, pc)
  {
    var c := pc.claim;
    assert TaskEvolves(l.tasks, l'.tasks, c.taskId);
    assert AttemptEvolves(l.attempts, l'.attempts, c.attemptId, moved);
  }

  /** Worker `w` takes a step that concerns attempt `moved`, for which no other worker acts. */
  ghost predicate Steps(s: Sys, s': Sys, w: WorkerId, moved: Id) {
    && Evolves(s.ledger, s'.ledger, moved)
    && s'.workers - {w} == s.workers - {w}
    && (forall v :: Acts(s.workers, v, moved) ==> v == w)
    && (forall a :: a != moved ==>
          && s'.sends[a] == s.sends[a] && (a in s'.answers <==> a in s.answers)
          && (a in s.answers ==> s'.answers[a] == s.answers[a]))
    && (w in s'.workers ==>
          && PcOk(s'.ledger.attempts, s'.ledger.tasks, s'.sends, s'.answers, s'.workers[w])
          && (Holding(s'.workers[w]) ==> s'.workers[w].claim.attemptId == moved))
  }

  lemma StepKeepsPlaces(s: Sys, s': Sys, w: WorkerId, moved: Id)
    requires WorkersOk(s) && OneHolder(s.workers) && Steps(s, s', w, moved)
    ensures WorkersOk(s') && OneHolder(s'.workers)
  {
    forall v | v in s'.workers && v != w
      ensures v in s.workers && s'.workers[v] == s.workers[v]
    {
      assert v in s'.workers - {w};
      assert (s'.workers - {w})[v] == s'.workers[v] && (s.workers - {w})[v] == s.workers[v];
    }
    forall v | v in s'.workers
      ensures PcOk(s'.ledger.attempts, s'.ledger.tasks, s'.sends, s'.answers, s'.workers[v])
    {
      if v != w {
        var pc := s.workers[v];
        assert PcOk(s.ledger.attempts, s.ledger.tasks, s.sends, s.answers, pc);
        assert Holding(pc) ==> Acts(s.workers, v, pc.claim.attemptId);
        PcOkEvolves(s.ledger, s'.ledger, moved, s.sends, s.answers, pc);
      }
    }
    forall v, u, a | Acts(s'.workers, v, a) && Acts(s'.workers, u, a) ensures v == u {
      if v != w { assert Acts(s.workers, v, a); }
      if u != w { assert Acts(s.workers, u, a); }
    }
  }

  /** Only this worker acts for the attempt it holds. */
  lemma HolderIsAlone(s: Sys, w: WorkerId)
    requires OneHolder(s.workers) && w in s.workers && Holding(s.workers[w])
    ensures forall v :: Acts(s.workers, v, s.workers[w].claim.attemptId) ==> v == w
  {
    assert Acts(s.workers, w, s.workers[w].claim.attemptId);
  }

  /** Nobody acts for an attempt that is still queued. */
  lemma NobodyActsYet(s: Sys, a: Id)
    requires WorkersOk(s) && a in s.ledger.attempts && !PastQueue(s.ledger.attempts[a].status)
    ensures forall v :: !Acts(s.workers, v, a)
  {
    forall v ensures !Acts(s.workers, v, a) {
      if v in s.workers { assert PcOk(s.ledger.attempts, s.ledger.tasks, s.sends, s.answers, s.workers[v]); }
    }
  }

  /** A step that leaves the ledger alone and keeps to what the worker may do next. */
  lemma MoveOnKeepsWorkers(s: Sys, w: WorkerId, pc': Pc)
    requires WInv(s) && w in s.workers && pc'.claim == s.workers[w].claim
    requires PcOk(s.ledger.attempts, s.ledger.tasks, s.sends, s.answers, pc')
    requires Holding(pc') ==> Holding(s.workers[w])
    ensures WInv(To(s, w, pc'))
  {
    var a := s.workers[w].claim.attemptId;
    forall v, u, b | Acts(To(s, w, pc').workers, v, b) && Acts(To(s, w, pc').workers, u, b) ensures v == u {
      assert Acts(s.workers, v, b) && Acts(s.workers, u, b);
    }
    forall v | v in To(s, w, pc').workers
      ensures PcOk(s.ledger.attempts, s.ledger.tasks, s.sends, s.answers, To(s, w, pc').workers[v])
    {
      if v != w { assert PcOk(s.ledger.attempts, s.ledger.tasks, s.sends, s.answers, s.workers[v]); }
    }
  }

  lemma LeavingKeepsWorkers(s: Sys, w: WorkerId)
    requires WInv(s)
    ensures WInv(Idle(s, w))
  {
    var s' := Idle(s, w);
    forall v | v in s'.workers ensures PcOk(s.ledger.attempts, s.ledger.tasks, s.sends, s.answers, s'.workers[v]) {
      assert PcOk(s.ledger.attempts, s.ledger.tasks, s.sends, s.answers, s.workers[v]);
    }
    forall v, u, b | Acts(s'.workers, v, b) && Acts(s'.workers, u, b) ensures v == u {
      assert Acts(s.workers, v, b) && Acts(s.workers, u, b);
    }
  }

  /** The rest of the invariant when attempt `moved` moves on, its answer on record if it needs one. */
  lemma StepKeepsRest(s: Sys, s': Sys, moved: Id)
    requires WInv(s) && Evolves(s.ledger, s'.ledger, moved) && s'.ledger.attempts.Keys == s.ledger.attempts.Keys
    requires s'.ledger.tasks.Keys == s.ledger.tasks.Keys
    requires forall a :: a != moved ==>
      s'.sends[a] == s.sends[a] && (a in s'.answers <==> a in s.answers) && (a in s.answers ==> s'.answers[a] == s.answers[a])
    requires moved in s.ledger.attempts && SendOk(s'.ledger.attempts, s'.sends, s'.answers, moved)
    requires
      var before, after := s.ledger.attempts[moved].status, s'.ledger.attempts[moved].status;
      (before == ExecutionUnknown || Settled(before)) ==> (after == ExecutionUnknown || Settled(after))
    ensures SendsOk(s'.ledger.attempts, s'.sends, s'.answers)
    ensures TasksOk(s'.ledger.attempts, s'.ledger.tasks)
  {
    var l, l' := s.ledger, s'.ledger;
    forall a ensures SendOk(l'.attempts, s'.sends, s'.answers, a) {
      assert SendOk(l.attempts, s.sends, s.answers, a);
      if a in l.attempts { assert AttemptEvolves(l.attempts, l'.attempts, a, moved); }
    }
    forall t | t in l'.tasks ensures TaskFits(l'.attempts, l'.tasks[t]) {
      assert TaskFits(l.attempts, l.tasks[t]) && TaskEvolves(l.tasks, l'.tasks, t);
      assert AttemptEvolves(l.attempts, l'.attempts, l.tasks[t].attemptId, moved);
    }
  }

  // ---- the steps of an execution worker ----

  lemma BeginKeepsWorkers(s: Sys, w: WorkerId, c: Claim)
    requires WInv(s) && Sound(s.ledger) && w in s.workers && s.workers[w] == ExecLeased(c)
    ensures WInv(StepBegin(s, w, c))
  {
    assert PcOk(s.ledger.attempts, s.ledger.tasks, s.sends, s.answers, s.workers[w]);
    assert SendOk(s.ledger.attempts, s.sends, s.answers, c.attemptId);
    if BeginDispatch(s.ledger, c, s.now).Err? {
      LeavingKeepsWorkers(s, w);
    } else {
      var s' := StepBegin(s, w, c);
      NobodyActsYet(s, c.attemptId);
      StepKeepsPlaces(s, s', w, c.attemptId);
      StepKeepsRest(s, s', c.attemptId);
      BeginIsSilent(s.ledger, c, s.now);
      SilentKeepsPayloads(s.ledger, s'.ledger, s.answers);
    }
  }

  lemma BeginIsSilent(l: Ledger, c: Claim, now: Millis)
    requires BeginDispatch(l, c, now).Ok?
    ensures Silent(l, BeginDispatch(l, c, now).value)
  {
    var l1 := l.(attempts := BeginDispatch(l, c, now).value.attempts);
    WithEventNews(WithAudit(l1, c.mandateId, AuditAttemptDispatched, Some(c.attemptId), now),
                  OfAttempt, c.attemptId, EvtDispatched(c.taskId), now);
  }

  lemma PreflightKeepsWorkers(s: Sys, w: WorkerId, c: Claim)
    requires WInv(s) && w in s.workers && s.workers[w] == ExecBegun(c)
    ensures WInv(StepPreflight(s, w, c))
  {
    assert PcOk(s.ledger.attempts, s.ledger.tasks, s.sends, s.answers, s.workers[w]);
    if PreflightFailure(s.ledger, c, s.now).Err? {
      LeavingKeepsWorkers(s, w);
    } else {
      MoveOnKeepsWorkers(s, w, StepPreflight(s, w, c).workers[w]);
    }
  }

  lemma SendKeepsWorkers(s: Sys, w: WorkerId, c: Claim)
    requires WInv(s) && w in s.workers && s.workers[w] == ExecCleared(c)
    ensures WInv(StepSend(s, w, c))
  {
    assert PcOk(s.ledger.attempts, s.ledger.tasks, s.sends, s.answers, s.workers[w]);
    assert SendOk(s.ledger.attempts, s.sends, s.answers, c.attemptId);
    HolderIsAlone(s, w);
    StepKeepsPlaces(s, StepSend(s, w, c), w, c.attemptId);
    StepKeepsRest(s, StepSend(s, w, c), c.attemptId);
  }

  lemma AnswerKeepsWorkers(s: Sys, w: WorkerId, answer: DispatchResult)
    requires WInv(s) && w in s.workers && s.workers[w].ExecAwaiting?
    ensures WInv(Do(s, VendorAnswers(w, answer)))
  {
    var s' := Do(s, VendorAnswers(w, answer));
    var a := s.workers[w].claim.attemptId;
    assert PcOk(s.ledger.attempts, s.ledger.tasks, s.sends, s.answers, s.workers[w]);
    assert SendOk(s.ledger.attempts, s.sends, s.answers, a);
    HolderIsAlone(s, w);
    StepKeepsPlaces(s, s', w, a);
    StepKeepsRest(s, s', a);
    forall e | e in s.ledger.events ensures PayloadOk(e, s'.answers) {
      assert PayloadOk(e, s.answers);
    }
  }

  /** What storing the answer does to the attempts, tasks and payloads. */
  lemma DispatchResultEvolves(l: Ledger, c: Claim, r: DispatchResult, found: Option<Id>, now: Millis)
    requires TasksOk(l.attempts, l.tasks) && (forall t :: t in l.tasks ==> t < l.nextId)
    requires ApplyDispatchResult(l, c, r, found, now).Ok?
    ensures
      var l' := ApplyDispatchResult(l, c, r, found, now).value;
      && Evolves(l, l', c.attemptId) && TasksOk(l'.attempts, l'.tasks) && l'.attempts.Keys == l.attempts.Keys
      && c.attemptId in l.attempts && l'.attempts[c.attemptId].status == r.Status()
  {
    var l' := ApplyDispatchResult(l, c, r, found, now).value;
    forall t | t in l'.tasks ensures TaskFits(l'.attempts, l'.tasks[t]) {
      if t in l.tasks { assert TaskFits(l.attempts, l.tasks[t]); }
    }
  }

  lemma DispatchResultPayloads(l: Ledger, c: Claim, r: DispatchResult, found: Option<Id>, now: Millis, answers: map<Id, DispatchResult>)
    requires PayloadsOk(l.events, answers) && c.attemptId in answers && answers[c.attemptId] == r
    requires ApplyDispatchResult(l, c, r, found, now).Ok?
    ensures PayloadsOk(ApplyDispatchResult(l, c, r, found, now).value.events, answers)
  {
    var cents := ResolveSettledAmountCents(c.amountCents, r.FinalAmount());
    var l1 := Settle(l, c, r, now);
    if r.DispatchUnknown? {
      var l2 := WithAudit(l1, c.mandateId, AuditReconciliationStarted, Some(c.attemptId), now);
      var q := EnqueueWorkerTask(l2, ReconcileAttempt, c.mandateId, c.attemptId, Some(l.attempts[c.attemptId].operatorId), found, now);
      assert Silent(l, q.ledger);
      SilentKeepsPayloads(l, q.ledger, answers);
      var l3 := ReconciliationStarted(q.ledger, c, q.taskId, r, now);
      WithEventNews(q.ledger, OfAttempt, c.attemptId, EvtReconciliationStarted(q.taskId, r.payloadJson, r.requirementsJson), now);
      forall e | e in l3.events ensures PayloadOk(e, answers) {
        if e in q.ledger.events { assert PayloadOk(e, answers); }
      }
      OutcomeIsSilent(l3, c, r.evidence, r.Status(), cents, now);
      SilentKeepsPayloads(l3, OutcomeNotes(l3, c, r.evidence, r.Status(), cents, now), answers);
    } else {
      SettlingIsSilent(l1, c, r.evidence, r.Status(), cents, now);
      SilentKeepsPayloads(l1, ReconciledNotes(OutcomeNotes(l1, c, r.evidence, r.Status(), cents, now), c, r.Status(), now), answers);
    }
  }

  lemma SettleKeepsWorkers(s: Sys, w: WorkerId, c: Claim, answer: DispatchResult)
    requires WInv(s) && (forall t :: t in s.ledger.tasks ==> t < s.ledger.nextId)
    requires w in s.workers && s.workers[w] == ExecAnswered(c, answer)
    ensures WInv(StepSettle(s, w, c, answer))
  {
    assert PcOk(s.ledger.attempts, s.ledger.tasks, s.sends, s.answers, s.workers[w]);
    var found := FindLive(s.ledger.tasks, ReconcileAttempt, c.attemptId);
    if ApplyDispatchResult(s.ledger, c, answer, found, s.now).Err? {
      MoveOnKeepsWorkers(s, w, ExecReleasing(c, ExecutionWorkerFailed));
    } else {
      var s' := StepSettle(s, w, c, answer);
      HolderIsAlone(s, w);
      DispatchResultEvolves(s.ledger, c, answer, found, s.now);
      DispatchResultPayloads(s.ledger, c, answer, found, s.now, s.answers);
      SettledPlaces(s, s', w, c);
      forall a ensures SendOk(s'.ledger.attempts, s.sends, s.answers, a) {
        assert SendOk(s.ledger.attempts, s.sends, s.answers, a);
        if a in s.ledger.attempts { assert AttemptEvolves(s.ledger.attempts, s'.ledger.attempts, a, c.attemptId); }
      }
    }
  }

  /** A holder has stored an outcome; everyone else stays where they are. */
  lemma SettledPlaces(s: Sys, s': Sys, w: WorkerId, c: Claim)
    requires WorkersOk(s) && OneHolder(s.workers) && Evolves(s.ledger, s'.ledger, c.attemptId)
    requires w in s.workers && Holding(s.workers[w]) && s.workers[w].claim == c
    requires s' == s.(ledger := s'.ledger, workers := s.workers[w := ExecSettled(c)])
    requires c.attemptId in s'.ledger.attempts && PastQueue(s'.ledger.attempts[c.attemptId].status)
    ensures WorkersOk(s') && OneHolder(s'.workers)
  {
    assert PcOk(s.ledger.attempts, s.ledger.tasks, s.sends, s.answers, s.workers[w]);
    assert TaskEvolves(s.ledger.tasks, s'.ledger.tasks, c.taskId);
    assert AttemptEvolves(s.ledger.attempts, s'.ledger.attempts, c.attemptId, c.attemptId);
    HolderIsAlone(s, w);
    StepKeepsPlaces(s, s', w, c.attemptId);
  }

  /** A worker that releases finds its attempt dispatching, or cannot release it. */
  lemma ReleasesOnlyDispatching(l: Ledger, c: Claim, reason: BlockedReason, now: Millis)
    requires c.attemptId in l.attempts && PastQueue(l.attempts[c.attemptId].status)
    requires ReleaseDispatch(l, c, reason, now).Ok?
    ensures l.attempts[c.attemptId].status == Dispatching
    ensures
      var l' := ReleaseDispatch(l, c, reason, now).value;
      && Silent(l, l') && Evolves(l, l', c.attemptId) && l'.attempts.Keys == l.attempts.Keys && l'.tasks == l.tasks
      && l'.attempts[c.attemptId].status == CancelledReleased
  {
    var l' := ReleaseDispatch(l, c, reason, now).value;
    var l1 := l.(attempts := l'.attempts, mandates := l'.mandates);
    WithEventNews(WithAudit(l1, c.mandateId, AuditAttemptBlocked, Some(c.attemptId), now), OfAttempt, c.attemptId, EvtWorkerFailed, now);
  }

  lemma ReleaseKeepsWorkers(s: Sys, w: WorkerId, c: Claim, reason: BlockedReason)
    requires WInv(s) && w in s.workers && s.workers[w] == ExecReleasing(c, reason)
    ensures WInv(StepRelease(s, w, c, reason))
  {
    assert PcOk(s.ledger.attempts, s.ledger.tasks, s.sends, s.answers, s.workers[w]);
    assert SendOk(s.ledger.attempts, s.sends, s.answers, c.attemptId);
    if ReleaseDispatch(s.ledger, c, reason, s.now).Err? {
      LeavingKeepsWorkers(s, w);
    } else {
      ReleasesOnlyDispatching(s.ledger, c, reason, s.now);
      ReleasedPlaces(s, StepRelease(s, w, c, reason), w, c);
    }
  }

  lemma ReleasedPlaces(s: Sys, s': Sys, w: WorkerId, c: Claim)
    requires WInv(s) && Evolves(s.ledger, s'.ledger, c.attemptId) && Silent(s.ledger, s'.ledger)
    requires w in s.workers && Holding(s.workers[w]) && s.workers[w].claim == c
    requires s' == s.(ledger := s'.ledger, workers := s.workers[w := Failing(c)])
    requires s'.ledger.attempts.Keys == s.ledger.attempts.Keys && s'.ledger.tasks == s.ledger.tasks
    requires c.attemptId in s.ledger.attempts && s.ledger.attempts[c.attemptId].status == Dispatching
    requires s'.ledger.attempts[c.attemptId].status == CancelledReleased
    ensures WInv(s')
  {
    assert PcOk(s.ledger.attempts, s.ledger.tasks, s.sends, s.answers, s.workers[w]);
    assert SendOk(s.ledger.attempts, s.sends, s.answers, c.attemptId);
    assert TaskEvolves(s.ledger.tasks, s'.ledger.tasks, c.taskId);
    assert AttemptEvolves(s.ledger.attempts, s'.ledger.attempts, c.attemptId, c.attemptId);
    HolderIsAlone(s, w);
    StepKeepsPlaces(s, s', w, c.attemptId);
    StepKeepsRest(s, s', c.attemptId);
    SilentKeepsPayloads(s.ledger, s'.ledger, s.answers);
  }

  // ---- the steps of a reconciliation worker ----

  /** Nobody acts for an attempt in a dispatch-only place once it is unresolved; others do not mind. */
  lemma UnresolvedPcEvolves(l: Ledger, l': Ledger, moved: Id, sends: multiset<Id>, answers: map<Id, DispatchResult>, pc: Pc)
    requires PcOk(l.attempts, l.tasks, sends, answers, pc) && Evolves(l, l', moved)
    requires moved in l.attempts && l.attempts[moved].status == ExecutionUnknown
    requires moved in l'.attempts && PastQueue(l'.attempts[moved].status)
    ensures PcOk(l'.attempts, l'.tasks, sends, answers, pc)
  {
    assert TaskEvolves(l.tasks, l'.tasks, pc.claim.taskId);
    assert AttemptEvolves(l.attempts, l'.attempts, pc.claim.attemptId, moved);
  }

  lemma ReconciliationEvolves(l: Ledger, c: Claim, r: CorrelationResult, now: Millis)
    requires ApplyReconciliationResult(l, c, r, now).Ok?
    ensures
      var l' := ApplyReconciliationResult(l, c, r, now).value;
      && c.attemptId in l.attempts && l.attempts[c.attemptId].status == ExecutionUnknown
      && Evolves(l, l', c.attemptId) && l'.attempts.Keys == l.attempts.Keys && l'.tasks == l.tasks
      && l'.attempts[c.attemptId].status == r.Status() && Silent(l, l')
  {
    var l' := ApplyReconciliationResult(l, c, r, now).value;
    SettlingIsSilent(l.(attempts := l'.attempts, mandates := l'.mandates), c, r.evidence, r.Status(),
                     ResolveSettledAmountCents(c.amountCents, r.finalAmount), now);
  }

  lemma ReconcileKeepsWorkers(s: Sys, w: WorkerId, c: Claim, seen: Attempt, truth: CorrelationResult)
    requires WInv(s) && w in s.workers && s.workers[w] == RecAnswered(c, seen, truth)
    ensures WInv(StepReconcile(s, w, c, seen, truth))
  {
    assert PcOk(s.ledger.attempts, s.ledger.tasks, s.sends, s.answers, s.workers[w]);
    if ApplyReconciliationResult(s.ledger, c, truth, s.now).Err? {
      MoveOnKeepsWorkers(s, w, RecCaught(c, seen));
    } else {
      var s1 := s.(ledger := ApplyReconciliationResult(s.ledger, c, truth, s.now).value);
      ReconciliationEvolves(s.ledger, c, truth, s.now);
      assert SendOk(s.ledger.attempts, s.sends, s.answers, c.attemptId);
      forall v | v in s1.workers ensures PcOk(s1.ledger.attempts, s1.ledger.tasks, s1.sends, s1.answers, s1.workers[v]) {
        assert PcOk(s.ledger.attempts, s.ledger.tasks, s.sends, s.answers, s.workers[v]);
        UnresolvedPcEvolves(s.ledger, s1.ledger, c.attemptId, s.sends, s.answers, s.workers[v]);
      }
      StepKeepsRest(s, s1, c.attemptId);
      SilentKeepsPayloads(s.ledger, s1.ledger, s.answers);
      assert PcOk(s1.ledger.attempts, s1.ledger.tasks, s1.sends, s1.answers, s1.workers[w]);
      MoveOnKeepsWorkers(s1, w, RecSettled(c, seen));
    }
  }

  // ---- tasks ----

  /** Only one task's lease, status and times change. */
  ghost predicate TaskOnly(l: Ledger, l': Ledger, t: Id) {
    && t in l.tasks && t in l'.tasks && l'.tasks == l.tasks[t := l'.tasks[t]] && SameJob(l.tasks[t], l'.tasks[t])
    && l'.attempts == l.attempts && l.nextId <= l'.nextId
    && Silent(l, l')
  }

  lemma TaskOnlyIsBenign(l: Ledger, l': Ledger, t: Id)
    requires TaskOnly(l, l', t) && TasksOk(l.attempts, l.tasks) && forall a :: a in l.attempts ==> a < l.nextId
    ensures Benign(l, l')
  {
    forall u | u in l'.tasks ensures TaskFits(l'.attempts, l'.tasks[u]) {
      assert TaskFits(l.attempts, l.tasks[u]);
    }
  }

  /** A worker that completes, fails or requeues its task and leaves. */
  lemma TaskDoneKeepsWorkers(s: Sys, w: WorkerId, l': Ledger, t: Id)
    requires WInv(s) && Sound(s.ledger) && TaskOnly(s.ledger, l', t)
    ensures WInv(Idle(s.(ledger := l'), w))
  {
    TaskOnlyIsBenign(s.ledger, l', t);
    BenignKeepsWorkers(s, l');
    LeavingKeepsWorkers(s.(ledger := l'), w);
  }

  lemma LeaseKeepsWorkers(s: Sys, w: WorkerId, kind: TaskKind, name: string, t: Id)
    requires WInv(s) && Sound(s.ledger) && w !in s.workers && IsNext(s.ledger.tasks, kind, s.now, t)
    requires s.ledger.tasks[t].id == t && s.ledger.tasks[t].attemptId in s.ledger.attempts
    requires s.ledger.attempts[s.ledger.tasks[t].attemptId].mandateId == s.ledger.tasks[t].mandateId
    ensures WInv(StepLease(s, w, kind, name, t))
  {
    var lease := LeaseTask(s.ledger, t, name, s.now).value;
    TaskOnlyIsBenign(s.ledger, lease.ledger, t);
    BenignKeepsWorkers(s, lease.ledger);
    var s1 := s.(ledger := lease.ledger);
    var s' := StepLease(s, w, kind, name, t);
    forall v | v in s'.workers ensures PcOk(s'.ledger.attempts, s'.ledger.tasks, s'.sends, s'.answers, s'.workers[v]) {
      if v != w { assert PcOk(s1.ledger.attempts, s1.ledger.tasks, s1.sends, s1.answers, s1.workers[v]); }
    }
    forall v, u, b | Acts(s'.workers, v, b) && Acts(s'.workers, u, b) ensures v == u {
      assert Acts(s.workers, v, b) && Acts(s.workers, u, b);
    }
  }

  // ---- operators ----

  lemma CreateIsBenign(l: Ledger, input: CreateInput, anchor: Option<string>, now: Millis)
    requires Sound(l) && TasksOk(l.attempts, l.tasks) && CreateMandate(l, input, anchor, now).Ok?
    ensures Benign(l, CreateMandate(l, input, anchor, now).value.ledger)
  {}

  lemma RevokeIsBenign(l: Ledger, mandateId: Id, anchor: Option<string>, now: Millis)
    requires Sound(l) && TasksOk(l.attempts, l.tasks) && RevokeMandate(l, mandateId, anchor, now).Ok?
    ensures Benign(l, RevokeMandate(l, mandateId, anchor, now).value.ledger)
  {}

  lemma EnsureIsBenign(l: Ledger, mandateId: Id, attemptId: Id, found: Option<Id>, now: Millis)
    requires Sound(l) && TasksOk(l.attempts, l.tasks) && (forall t :: t in l.tasks ==> t < l.nextId)
    requires EnsureReconciliationQueued(l, mandateId, attemptId, found, now).Ok?
    ensures Benign(l, EnsureReconciliationQueued(l, mandateId, attemptId, found, now).value)
  {
    var l' := EnsureReconciliationQueued(l, mandateId, attemptId, found, now).value;
    forall t | t in l'.tasks ensures TaskFits(l'.attempts, l'.tasks[t]) {
      if t in l.tasks { assert TaskFits(l.attempts, l.tasks[t]); }
    }
  }

  /** A request adds one attempt and at most its dispatch task. */
  lemma RunIsBenign(l: Ledger, input: RunInput, generated: string, treasury: Treasury, now: Millis)
    requires Sound(l) && TasksOk(l.attempts, l.tasks) && (forall t :: t in l.tasks ==> t < l.nextId)
    requires RunAttempt(l, input, generated, treasury, now).Ok?
    ensures Benign(l, RunAttempt(l, input, generated, treasury, now).value.ledger)
  {
    RunIsRepeatOrAdmitted(l, input, generated, treasury, now);
    if RunAttempt(l, input, generated, treasury, now).value.ledger != l {
      var a := AttemptFor(l, input, generated, now);
      AdmittedIsBenign(l, a, FindVendor(a.vendorId).value, treasury, now);
    } else {
      NothingIsBenign(l);
    }
  }

  lemma NothingIsBenign(l: Ledger)
    requires Sound(l) && TasksOk(l.attempts, l.tasks)
    ensures Benign(l, l)
  {}

  /** `l1` is `l` with entries only. */
  ghost predicate OnlyEntries(l: Ledger, l1: Ledger, a: Attempt) {
    l1.attempts == l.attempts && l1.tasks == l.tasks && a.id < l1.nextId && l.nextId <= l1.nextId && Silent(l, l1)
  }

  lemma DenyIsBenign(l: Ledger, l1: Ledger, a: Attempt, reason: BlockedReason, now: Millis)
    requires Sound(l) && TasksOk(l.attempts, l.tasks) && a.id == l.nextId && OnlyEntries(l, l1, a)
    ensures Benign(l, Deny(l1, a, reason, now).ledger)
  {
    var l' := Deny(l1, a, reason, now).ledger;
    forall t | t in l'.tasks ensures TaskFits(l'.attempts, l'.tasks[t]) {
      assert TaskFits(l.attempts, l.tasks[t]);
    }
  }

  lemma ReserveIsBenign(l: Ledger, l1: Ledger, a: Attempt, now: Millis)
    requires Sound(l) && TasksOk(l.attempts, l.tasks) && a.id == l.nextId && OnlyEntries(l, l1, a) && a.mandateId in l1.mandates
    requires forall t :: t in l.tasks ==> t < l.nextId
    ensures Benign(l, Reserve(l1, a, now).ledger)
  {
    var ran := Reserve(l1, a, now);
    var l' := ran.ledger;
    HoldIsSilent(l1, a, now);
    QueueIsSilent(Hold(l1, a, now), ran.attempt, now);
    forall t | t in l'.tasks ensures TaskFits(l'.attempts, l'.tasks[t]) {
      if t in l.tasks { assert TaskFits(l.attempts, l.tasks[t]); }
    }
  }

  lemma HoldIsSilent(l: Ledger, a: Attempt, now: Millis)
    requires a.mandateId in l.mandates
    ensures Silent(l, Hold(l, a, now))
  {}

  lemma QueueIsSilent(l: Ledger, a: Attempt, now: Millis)
    ensures Silent(l, Queue(l, a, now))
  {}

  lemma AdmittedIsBenign(l: Ledger, a: Attempt, vendor: Vendor, treasury: Treasury, now: Millis)
    requires Sound(l) && TasksOk(l.attempts, l.tasks) && a.id == l.nextId && a.mandateId in l.mandates
    requires forall t :: t in l.tasks ==> t < l.nextId
    requires Admitted(l, a, vendor, treasury, now).Ok?
    ensures Benign(l, Admitted(l, a, vendor, treasury, now).value.ledger)
  {
    var b := Authenticated(a);
    var m := l.mandates[b.mandateId];
    var l1 := Admit(l, b, now);
    assert OnlyEntries(l, l1, b);
    var policy := EvaluatePolicy(m, Some(vendor), b.amountCents, now);
    if policy.Denied? {
      if policy.reason == MandateNotActive && m.status == IssuedActive && m.expiresAt <= now {
        assert OnlyEntries(l, ExpireMandate(l1, b.mandateId, now), b);
        DenyIsBenign(l, ExpireMandate(l1, b.mandateId, now), b, policy.reason, now);
      } else {
        DenyIsBenign(l, l1, b, policy.reason, now);
      }
    } else {
      var l2 := Approve(l1, b, now);
      assert OnlyEntries(l, l2, b);
      match treasury
      case TreasuryDenies(code) => DenyIsBenign(l, l2, b, TreasuryDenied(code), now);
      case TreasuryApproved =>
        assert OnlyEntries(l, TreasuryEnforced(l2, b, now), b);
        ReserveIsBenign(l, TreasuryEnforced(l2, b, now), b, now);
      case TreasuryNotEnforced => ReserveIsBenign(l, l2, b, now);
    }
  }
}

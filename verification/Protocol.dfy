/** The whole system as a state machine: one ledger, a clock, any number of operators and workers.

    Each store transaction is one atomic step. A worker run is several of them with calls to the
    vendor in between, so its place in the run is kept in a `Pc` and any other step may fall
    between two of its own. Every transaction and every call may throw, and a worker may die anywhere. */
module Protocol {
  import opened Domain
  import opened Ledger

  type WorkerId = nat

  /** Where a worker is in processNextQueuedAttempt (Exec) or processNextReconciliation (Rec). */
  datatype Pc =
    | ExecLeased(claim: Claim)
    | ExecBegun(claim: Claim)                       // attempt moved to dispatching
    | ExecCleared(claim: Claim)                     // preflight passed
    | ExecAwaiting(claim: Claim)                    // vendor called, no answer yet
    | ExecAnswered(claim: Claim, answer: DispatchResult)
    | ExecSettled(claim: Claim)                     // answer stored, task not yet completed
    | ExecReleasing(claim: Claim, reason: BlockedReason)
    | RecLeased(claim: Claim)
    | RecRead(claim: Claim, seen: Attempt)          // copy of the attempt taken
    | RecReady(claim: Claim, seen: Attempt, payload: Option<(string, string)>)
    | RecAnswered(claim: Claim, seen: Attempt, truth: CorrelationResult)
    | RecSettled(claim: Claim, seen: Attempt)
    | RecCaught(claim: Claim, seen: Attempt)        // something threw
    | RecRequeueing(claim: Claim)
    | Failing(claim: Claim)                         // about to mark the task failed

  /** `sends`, `answers`, `leasedAt` and `requeues` record what happened; no step reads them. */
  datatype Sys = Sys(
    ledger: Ledger,
    now: Millis,
    workers: map<WorkerId, Pc>,
    sends: multiset<Id>,                 // vendor calls, by attempt
    answers: map<Id, DispatchResult>,    // what the vendor call returned
    leasedAt: map<Id, Millis>,           // last lease of each task
    requeues: seq<Requeue>)

  datatype Requeue = Requeue(taskId: Id, leaseNo: nat)

  datatype Action =
    | Tick(elapsed: nat)
    | Create(create: CreateInput, anchor: Option<string>)
    | Revoke(mandateId: Id, anchor: Option<string>)
    | Run(run: RunInput, freshIdentifier: string, treasury: Treasury)
    | QueueReconciliation(mandateId: Id, attemptId: Id)
    | LeaseNext(w: WorkerId, kind: TaskKind, name: string, task: Id)
    | Proceed(w: WorkerId)
    | VendorAnswers(w: WorkerId, answer: DispatchResult)
    | StatusAnswers(w: WorkerId, truth: CorrelationResult)
    | Throws(w: WorkerId)
    | Dies(w: WorkerId)

  function Commit(s: Sys, r: Result<Ledger>): Sys {
    if r.Ok? then s.(ledger := r.value) else s
  }

  function CommitAnchored(s: Sys, r: Result<Anchored>): Sys {
    if r.Ok? then s.(ledger := r.value.ledger) else s
  }

  function To(s: Sys, w: WorkerId, pc: Pc): Sys {
    s.(workers := s.workers[w := pc])
  }

  function Idle(s: Sys, w: WorkerId): Sys {
    s.(workers := s.workers - {w})
  }

  /** The first event that recorded the payload of an unresolved dispatch. */
  function FirstStarted(events: seq<Event>, attemptId: Id): (r: Option<(string, string)>) {
    if events == [] then None
    else
      var e := events[0];
      if e.entityType == OfAttempt && e.entityId == attemptId && e.kind.EvtReconciliationStarted?
      then Some((e.kind.payloadJson, e.kind.requirementsJson))
      else FirstStarted(events[1..], attemptId)
  }

  // ---- one step of a worker whose call or transaction returns ----

  function StepBegin(s: Sys, w: WorkerId, c: Claim): Sys {
    var r := BeginDispatch(s.ledger, c, s.now);
    if r.Ok? then To(Commit(s, r), w, ExecBegun(c)) else Idle(s, w)
  }

  function StepPreflight(s: Sys, w: WorkerId, c: Claim): Sys {
    var r := PreflightFailure(s.ledger, c, s.now);
    if r.Err? then Idle(s, w)
    else if r.value.Some? then To(s, w, ExecReleasing(c, r.value.value))
    else if !Registered(c.vendorId) then To(s, w, ExecReleasing(c, ExecutionWorkerFailed))
    else To(s, w, ExecCleared(c))
  }

  function StepSend(s: Sys, w: WorkerId, c: Claim): Sys {
    To(s, w, ExecAwaiting(c)).(sends := s.sends + multiset{c.attemptId})
  }

  ghost function StepSettle(s: Sys, w: WorkerId, c: Claim, answer: DispatchResult): Sys {
    var r := ApplyDispatchResult(s.ledger, c, answer,
                                 FindLive(s.ledger.tasks, ReconcileAttempt, c.attemptId), s.now);
    if r.Ok? then To(Commit(s, r), w, ExecSettled(c)) else To(s, w, ExecReleasing(c, ExecutionWorkerFailed))
  }

  function StepComplete(s: Sys, w: WorkerId, c: Claim, onError: Pc): Sys {
    var r := CompleteTask(s.ledger, c.taskId, s.now);
    if r.Ok? then Idle(Commit(s, r), w) else To(s, w, onError)
  }

  function StepRelease(s: Sys, w: WorkerId, c: Claim, reason: BlockedReason): Sys {
    var r := ReleaseDispatch(s.ledger, c, reason, s.now);
    if r.Ok? then To(Commit(s, r), w, Failing(c)) else Idle(s, w)
  }

  function StepRead(s: Sys, w: WorkerId, c: Claim): Sys {
    if c.attemptId !in s.ledger.attempts then Idle(s, w)
    else To(s, w, RecRead(c, s.ledger.attempts[c.attemptId]))
  }

  function StepArtifacts(s: Sys, w: WorkerId, c: Claim, seen: Attempt): Sys {
    if !Registered(c.vendorId) then To(s, w, Failing(c))
    else To(s, w, RecReady(c, seen, FirstStarted(s.ledger.events, c.attemptId)))
  }

  function StepReconcile(s: Sys, w: WorkerId, c: Claim, seen: Attempt, truth: CorrelationResult): Sys {
    var r := ApplyReconciliationResult(s.ledger, c, truth, s.now);
    if r.Ok? then To(Commit(s, r), w, RecSettled(c, seen)) else To(s, w, RecCaught(c, seen))
  }

  /** Past the escalation window the task fails; before it, only an unresolved attempt is tried again. */
  function StepCaught(s: Sys, w: WorkerId, c: Claim, seen: Attempt): Sys {
    if s.now - seen.updatedAt >= UNKNOWN_ATTEMPT_ESCALATION_MS then To(s, w, Failing(c))
    else if seen.status == ExecutionUnknown then To(s, w, RecRequeueing(c))
    else To(s, w, Failing(c))
  }

  function StepRequeue(s: Sys, w: WorkerId, c: Claim): Sys {
    var r := RequeueTask(s.ledger, c.taskId, s.now);
    if r.Ok? then Idle(Commit(s, r), w).(requeues := s.requeues + [Requeue(c.taskId, c.leaseNo)]) else Idle(s, w)
  }

  function StepFail(s: Sys, w: WorkerId, c: Claim): Sys {
    Idle(Commit(s, FailTask(s.ledger, c.taskId, s.now)), w)
  }

  ghost function Advance(s: Sys, w: WorkerId, pc: Pc): Sys {
    match pc
    case ExecLeased(c) => StepBegin(s, w, c)
    case ExecBegun(c) => StepPreflight(s, w, c)
    case ExecCleared(c) => StepSend(s, w, c)
    case ExecAwaiting(_) => s
    case ExecAnswered(c, answer) => StepSettle(s, w, c, answer)
    case ExecSettled(c) => StepComplete(s, w, c, ExecReleasing(c, ExecutionWorkerFailed))
    case ExecReleasing(c, reason) => StepRelease(s, w, c, reason)
    case RecLeased(c) => StepRead(s, w, c)
    case RecRead(c, seen) => StepArtifacts(s, w, c, seen)
    case RecReady(_, _, _) => s
    case RecAnswered(c, seen, truth) => StepReconcile(s, w, c, seen, truth)
    case RecSettled(c, seen) => StepComplete(s, w, c, RecCaught(c, seen))
    case RecCaught(c, seen) => StepCaught(s, w, c, seen)
    case RecRequeueing(c) => StepRequeue(s, w, c)
    case Failing(c) => StepFail(s, w, c)
  }

  /** Where an exception takes the worker: into its catch block, or out of the run. */
  function AfterThrow(s: Sys, w: WorkerId, pc: Pc): Sys {
    match pc
    case ExecCleared(c) => To(s, w, ExecReleasing(c, ExecutionWorkerFailed))
    case ExecAwaiting(c) => To(s, w, ExecReleasing(c, ExecutionWorkerFailed))
    case ExecAnswered(c, _) => To(s, w, ExecReleasing(c, ExecutionWorkerFailed))
    case ExecSettled(c) => To(s, w, ExecReleasing(c, ExecutionWorkerFailed))
    case RecReady(c, seen, _) => To(s, w, RecCaught(c, seen))
    case RecAnswered(c, seen, _) => To(s, w, RecCaught(c, seen))
    case RecSettled(c, seen) => To(s, w, RecCaught(c, seen))
    case _ => Idle(s, w)
  }

  function StepLease(s: Sys, w: WorkerId, kind: TaskKind, name: string, t: Id): Sys
    requires t in s.ledger.tasks
  {
    var r := LeaseTask(s.ledger, t, name, s.now);
    if r.Err? then s
    else
      var pc := if kind == DispatchAttempt then ExecLeased(r.value.claim) else RecLeased(r.value.claim);
      To(s, w, pc).(ledger := r.value.ledger, leasedAt := s.leasedAt[t := s.now])
  }

  /** A generated payment identifier is new and not blank. */
  ghost predicate FreshIdentifier(l: Ledger, identifier: string) {
    !Blank(identifier) && forall a :: !UsesIdentifier(l.attempts, a, identifier)
  }

  ghost function StepRun(s: Sys, input: RunInput, generated: string, treasury: Treasury): Sys {
    if !FreshIdentifier(s.ledger, generated) then s
    else
      var r := RunAttempt(s.ledger, input, generated, treasury, s.now);
      if r.Ok? then s.(ledger := r.value.ledger) else s
  }

  /** An action that is not possible in `s` changes nothing. */
  ghost function Do(s: Sys, act: Action): Sys {
    match act
    case Tick(elapsed) => s.(now := s.now + elapsed)
    case Create(input, anchor) => CommitAnchored(s, CreateMandate(s.ledger, input, anchor, s.now))
    case Revoke(m, anchor) => CommitAnchored(s, RevokeMandate(s.ledger, m, anchor, s.now))
    case Run(input, generated, treasury) => StepRun(s, input, generated, treasury)
    case QueueReconciliation(m, a) =>
      Commit(s, EnsureReconciliationQueued(s.ledger, m, a, FindLive(s.ledger.tasks, ReconcileAttempt, a), s.now))
    case LeaseNext(w, kind, name, t) =>
      if w in s.workers || !IsNext(s.ledger.tasks, kind, s.now, t) then s else StepLease(s, w, kind, name, t)
    case Proceed(w) => if w in s.workers then Advance(s, w, s.workers[w]) else s
    case VendorAnswers(w, answer) =>
      if w in s.workers && s.workers[w].ExecAwaiting?
      then To(s, w, ExecAnswered(s.workers[w].claim, answer)).(answers := s.answers[s.workers[w].claim.attemptId := answer])
      else s
    case StatusAnswers(w, truth) =>
      if w in s.workers && s.workers[w].RecReady?
      then To(s, w, RecAnswered(s.workers[w].claim, s.workers[w].seen, truth))
      else s
    case Throws(w) => if w in s.workers then AfterThrow(s, w, s.workers[w]) else s
    case Dies(w) => Idle(s, w)
  }

  /** A run is a list of actions; `Exec` is the state it ends in. */
  ghost function Exec(s: Sys, acts: seq<Action>): Sys
    decreases |acts|
  {
    if acts == [] then s else Do(Exec(s, acts[..|acts| - 1]), acts[|acts| - 1])
  }

  /** Agents exist, nothing else does. */
  ghost predicate Init(s: Sys) {
    && s.ledger.mandates == map[] && s.ledger.attempts == map[] && s.ledger.tasks == map[]
    && s.ledger.audits == [] && s.ledger.events == []
    && (forall g :: g in s.ledger.agents ==> s.ledger.agents[g].id == g)
    && s.workers == map[] && s.sends == multiset{} && s.answers == map[]
    && s.leasedAt == map[] && s.requeues == []
  }
}

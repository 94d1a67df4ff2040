/** The check made on every read and write of the store, loop by loop, and what its silence means. */
module Integrity {
  import opened Domain
  import opened Tables

  datatype Code =
    | DuplicateAgentId | DuplicateMandateId | DuplicateAttemptId | DuplicateWorkerTaskId | DuplicateAuditId
    | DuplicateDomainEventId | DuplicateApprovalId
    | MissingAgentReference | AgentNameMismatch | InvalidBudgetCap | NegativeMandateTotals | BudgetOverflow
    | DuplicateApprovedVendor | UnknownApprovedVendor
    | MissingMandateReference | InvalidAttemptAmount | BlankPaymentIdentifier | DuplicatePaymentIdentifier
    | MissingWorkerTaskMandateReference | MissingWorkerTaskAttemptReference | WorkerTaskAttemptMandateMismatch
    | WorkerTaskOperatorMismatch
    | MissingAuditMandateReference | MissingAuditAttemptReference | AuditAttemptMandateMismatch
    | MissingDomainMandateReference | MissingDomainAttemptReference | MissingDomainWorkerTaskReference

  // ---- what each code means ----

  /** Some value stands in two places. */
  predicate Repeats<T(==)>(values: seq<T>) {
    exists i, j :: 0 <= i < j < |values| && values[i] == values[j]
  }

  function KeysOf<K, V>(rows: seq<V>, key: V -> K): (keys: seq<K>)
    ensures |keys| == |rows| && forall i :: 0 <= i < |rows| ==> keys[i] == key(rows[i])
  {
    seq(|rows|, i requires 0 <= i < |rows| => key(rows[i]))
  }

  predicate MandateViolates(agents: map<string, Agent>, m: Mandate, c: Code) {
    match c
    case MissingAgentReference => m.agentId !in agents
    case AgentNameMismatch => m.agentId in agents && m.agentName != agents[m.agentId].name
    case InvalidBudgetCap => m.budgetCapCents <= 0
    case NegativeMandateTotals => m.reservedCents < 0 || m.consumedCents < 0
    case BudgetOverflow => m.reservedCents + m.consumedCents > m.budgetCapCents
    case DuplicateApprovedVendor => Repeats(m.approvedVendorIds)
    case UnknownApprovedVendor => exists v :: v in m.approvedVendorIds && !Registered(v)
    case _ => false
  }

  /** `earlier` holds the identifiers of the attempts before this one that are not blank. */
  predicate AttemptViolates(mandates: map<Id, Mandate>, earlier: set<string>, a: Attempt, c: Code) {
    match c
    case MissingMandateReference => a.mandateId !in mandates
    case InvalidAttemptAmount => a.amountCents <= 0
    case BlankPaymentIdentifier => Blank(a.paymentIdentifier)
    case DuplicatePaymentIdentifier => !Blank(a.paymentIdentifier) && a.paymentIdentifier in earlier
    case _ => false
  }

  predicate TaskViolates(mandates: map<Id, Mandate>, attempts: map<Id, Attempt>, t: Task, c: Code) {
    match c
    case MissingWorkerTaskMandateReference => t.mandateId !in mandates
    case MissingWorkerTaskAttemptReference => t.attemptId !in attempts
    case WorkerTaskAttemptMandateMismatch => t.attemptId in attempts && attempts[t.attemptId].mandateId != t.mandateId
    case WorkerTaskOperatorMismatch =>
      && t.attemptId in attempts && attempts[t.attemptId].mandateId == t.mandateId
      && t.operatorId.Some? && t.operatorId.value != attempts[t.attemptId].operatorId
    case _ => false
  }

  predicate AuditViolates(mandates: map<Id, Mandate>, attempts: map<Id, Attempt>, x: Audit, c: Code) {
    match c
    case MissingAuditMandateReference => x.mandateId !in mandates
    case MissingAuditAttemptReference => x.attemptId.Some? && x.attemptId.value !in attempts
    case AuditAttemptMandateMismatch =>
      x.attemptId.Some? && x.attemptId.value in attempts && attempts[x.attemptId.value].mandateId != x.mandateId
    case _ => false
  }

  predicate EventViolates(mandates: map<Id, Mandate>, attempts: map<Id, Attempt>, tasks: seq<Task>, e: Event, c: Code) {
    match c
    case MissingDomainMandateReference => e.entityType == OfMandate && e.entityId !in mandates
    case MissingDomainAttemptReference => e.entityType == OfAttempt && e.entityId !in attempts
    case MissingDomainWorkerTaskReference => e.entityType == OfTask && forall t :: t in tasks ==> t.id != e.entityId
    case _ => false
  }

  predicate RepeatViolates(d: StoreData, c: Code) {
    match c
    case DuplicateAgentId => Repeats(KeysOf(d.agents, AgentKey))
    case DuplicateMandateId => Repeats(KeysOf(d.mandates, MandateKey))
    case DuplicateAttemptId => Repeats(KeysOf(d.attempts, AttemptKey))
    case DuplicateWorkerTaskId => Repeats(KeysOf(d.workerTasks, TaskKey))
    case DuplicateAuditId => Repeats(KeysOf(d.auditEntries, AuditKey))
    case DuplicateDomainEventId => Repeats(KeysOf(d.domainEvents, EventKey))
    case DuplicateApprovalId => Repeats(KeysOf(d.groupedApprovals, ApprovalKey))
    case _ => false
  }

  ghost predicate SomeMandateViolates(agents: map<string, Agent>, ms: seq<Mandate>, c: Code) {
    exists m :: m in ms && MandateViolates(agents, m, c)
  }

  function IdentifiersOf(ats: seq<Attempt>): set<string> {
    set a | a in ats && !Blank(a.paymentIdentifier) :: a.paymentIdentifier
  }

  ghost predicate SomeAttemptViolates(mandates: map<Id, Mandate>, ats: seq<Attempt>, c: Code) {
    exists i :: 0 <= i < |ats| && AttemptViolates(mandates, IdentifiersOf(ats[..i]), ats[i], c)
  }

  ghost predicate SomeTaskViolates(mandates: map<Id, Mandate>, attempts: map<Id, Attempt>, ts: seq<Task>, c: Code) {
    exists t :: t in ts && TaskViolates(mandates, attempts, t, c)
  }

  ghost predicate SomeAuditViolates(mandates: map<Id, Mandate>, attempts: map<Id, Attempt>, xs: seq<Audit>, c: Code) {
    exists x :: x in xs && AuditViolates(mandates, attempts, x, c)
  }

  ghost predicate SomeEventViolates(mandates: map<Id, Mandate>, attempts: map<Id, Attempt>, tasks: seq<Task>, es: seq<Event>, c: Code) {
    exists e :: e in es && EventViolates(mandates, attempts, tasks, e, c)
  }

  /** What the store does to deserve this code, repeated ids included; of repeated rows the last one counts. */
  ghost predicate Violated(d: StoreData, c: Code) {
    var agents, mandates := Latest(d.agents, AgentKey), Latest(d.mandates, MandateKey);
    var attempts := Latest(d.attempts, AttemptKey);
    || RepeatViolates(d, c)
    || SomeMandateViolates(agents, d.mandates, c)
    || SomeAttemptViolates(mandates, d.attempts, c)
    || SomeTaskViolates(mandates, attempts, d.workerTasks, c)
    || SomeAuditViolates(mandates, attempts, d.auditEntries, c)
    || SomeEventViolates(mandates, attempts, d.workerTasks, d.domainEvents, c)
  }

  // ---- the loops ----

  method PushDuplicateIdIssues<T(==)>(issues: seq<Code>, values: seq<T>, code: Code) returns (out: seq<Code>)
    ensures forall c :: c in out <==> c in issues || (c == code && Repeats(values))
  {
    out := issues;
    var seen: set<T> := {};
    for i := 0 to |values|
      invariant forall v :: v in seen <==> v in values[..i]
      invariant forall c :: c in out <==> c in issues || (c == code && Repeats(values[..i]))
    {
      assert values[..i + 1] == values[..i] + [values[i]];
      RepeatsGrows(values[..i], values[i]);
      if values[i] in seen {
        out := out + [code];
        continue;
      }
      seen := seen + {values[i]};
    }
    assert values[..|values|] == values;
  }

  lemma RepeatsGrows<T>(front: seq<T>, v: T)
    ensures Repeats(front + [v]) <==> Repeats(front) || v in front
  {
    var all := front + [v];
    if Repeats(front) {
      var i, j :| 0 <= i < j < |front| && front[i] == front[j];
      assert all[i] == all[j];
    }
    if v in front {
      var i :| 0 <= i < |front| && front[i] == v;
      assert all[i] == all[|front|];
    }
    if Repeats(all) {
      var i, j :| 0 <= i < j < |all| && all[i] == all[j];
      if j < |front| {
        assert front[i] == front[j];
      } else {
        assert front[i] == v;
      }
    }
  }

  method CheckVendors(issues: seq<Code>, m: Mandate) returns (out: seq<Code>)
    ensures forall c :: c in out <==>
      || c in issues
      || (c == DuplicateApprovedVendor && Repeats(m.approvedVendorIds))
      || (c == UnknownApprovedVendor && exists v :: v in m.approvedVendorIds && !Registered(v))
  {
    out := issues;
    var vendors := m.approvedVendorIds;
    var seen: set<string> := {};
    for i := 0 to |vendors|
      invariant forall v :: v in seen <==> v in vendors[..i]
      invariant forall c :: c in out <==>
        || c in issues
        || (c == DuplicateApprovedVendor && Repeats(vendors[..i]))
        || (c == UnknownApprovedVendor && exists v :: v in vendors[..i] && !Registered(v))
    {
      assert vendors[..i + 1] == vendors[..i] + [vendors[i]];
      RepeatsGrows(vendors[..i], vendors[i]);
      if vendors[i] in seen {
        out := out + [DuplicateApprovedVendor];
        continue;
      }
      seen := seen + {vendors[i]};
      var known := FindVendor(vendors[i]);
      if known.None? {
        out := out + [UnknownApprovedVendor];
      }
    }
    assert vendors[..|vendors|] == vendors;
  }

  method CheckMandate(issues: seq<Code>, agents: map<string, Agent>, m: Mandate) returns (out: seq<Code>)
    ensures forall c :: c in out <==> c in issues || MandateViolates(agents, m, c)
  {
    out := issues;
    if m.agentId !in agents {
      out := out + [MissingAgentReference];
    } else if m.agentName != agents[m.agentId].name {
      out := out + [AgentNameMismatch];
    }
    if m.budgetCapCents <= 0 {
      out := out + [InvalidBudgetCap];
    }
    if m.reservedCents < 0 || m.consumedCents < 0 {
      out := out + [NegativeMandateTotals];
    }
    if m.reservedCents + m.consumedCents > m.budgetCapCents {
      out := out + [BudgetOverflow];
    }
    out := CheckVendors(out, m);
  }

  method CheckMandates(issues: seq<Code>, agents: map<string, Agent>, ms: seq<Mandate>) returns (out: seq<Code>)
    ensures forall c :: c in out <==> c in issues || SomeMandateViolates(agents, ms, c)
  {
    out := issues;
    for i := 0 to |ms|
      invariant forall c :: c in out <==> c in issues || SomeMandateViolates(agents, ms[..i], c)
    {
      assert ms[..i + 1] == ms[..i] + [ms[i]];
      out := CheckMandate(out, agents, ms[i]);
    }
    assert ms[..|ms|] == ms;
  }

  method CheckAttempt(issues: seq<Code>, mandates: map<Id, Mandate>, identifiers: set<string>, a: Attempt)
    returns (out: seq<Code>, identifiers': set<string>)
    ensures forall c :: c in out <==> c in issues || AttemptViolates(mandates, identifiers, a, c)
    ensures identifiers' == if Blank(a.paymentIdentifier) then identifiers else identifiers + {a.paymentIdentifier}
  {
    out, identifiers' := issues, identifiers;
    if a.mandateId !in mandates {
      out := out + [MissingMandateReference];
    }
    if a.amountCents <= 0 {
      out := out + [InvalidAttemptAmount];
    }
    if Trim(a.paymentIdentifier) == [] {
      out := out + [BlankPaymentIdentifier];
    } else if a.paymentIdentifier in identifiers {
      out := out + [DuplicatePaymentIdentifier];
    } else {
      identifiers' := identifiers + {a.paymentIdentifier};
    }
  }

  method CheckAttempts(issues: seq<Code>, mandates: map<Id, Mandate>, ats: seq<Attempt>) returns (out: seq<Code>)
    ensures forall c :: c in out <==> c in issues || SomeAttemptViolates(mandates, ats, c)
  {
    out := issues;
    var identifiers: set<string> := {};
    for i := 0 to |ats|
      invariant identifiers == IdentifiersOf(ats[..i])
      invariant forall c :: c in out <==> c in issues || SomeAttemptViolates(mandates, ats[..i], c)
    {
      AttemptsGrow(mandates, ats, i);
      assert ats[..i + 1] == ats[..i] + [ats[i]];
      out, identifiers := CheckAttempt(out, mandates, identifiers, ats[i]);
    }
    assert ats[..|ats|] == ats;
  }

  lemma AttemptsGrow(mandates: map<Id, Mandate>, ats: seq<Attempt>, i: nat)
    requires i < |ats|
    ensures forall c :: SomeAttemptViolates(mandates, ats[..i + 1], c) <==>
      SomeAttemptViolates(mandates, ats[..i], c) || AttemptViolates(mandates, IdentifiersOf(ats[..i]), ats[i], c)
  {
    var front, all := ats[..i], ats[..i + 1];
    assert forall k :: 0 <= k < i ==> all[..k] == front[..k] && all[k] == front[k];
    assert all[..i] == front && all[i] == ats[i];
    forall c | SomeAttemptViolates(mandates, front, c)
      ensures SomeAttemptViolates(mandates, all, c)
    {
      var k :| 0 <= k < i && AttemptViolates(mandates, IdentifiersOf(front[..k]), front[k], c);
      assert AttemptViolates(mandates, IdentifiersOf(all[..k]), all[k], c);
    }
    forall c | SomeAttemptViolates(mandates, all, c)
      ensures SomeAttemptViolates(mandates, front, c) || AttemptViolates(mandates, IdentifiersOf(front), ats[i], c)
    {
      var k :| 0 <= k < i + 1 && AttemptViolates(mandates, IdentifiersOf(all[..k]), all[k], c);
      if k < i { assert AttemptViolates(mandates, IdentifiersOf(front[..k]), front[k], c); }
    }
  }

  method CheckWorkerTasks(issues: seq<Code>, mandates: map<Id, Mandate>, attempts: map<Id, Attempt>, ts: seq<Task>)
    returns (out: seq<Code>)
    ensures forall c :: c in out <==> c in issues || SomeTaskViolates(mandates, attempts, ts, c)
  {
    out := issues;
    for i := 0 to |ts|
      invariant forall c :: c in out <==> c in issues || SomeTaskViolates(mandates, attempts, ts[..i], c)
    {
      assert ts[..i + 1] == ts[..i] + [ts[i]];
      var t := ts[i];
      assert forall c :: SomeTaskViolates(mandates, attempts, ts[..i + 1], c) <==>
        SomeTaskViolates(mandates, attempts, ts[..i], c) || TaskViolates(mandates, attempts, t, c);
      if t.mandateId !in mandates {
        out := out + [MissingWorkerTaskMandateReference];
      }
      if t.attemptId !in attempts {
        out := out + [MissingWorkerTaskAttemptReference];
      } else if attempts[t.attemptId].mandateId != t.mandateId {
        out := out + [WorkerTaskAttemptMandateMismatch];
      } else if t.operatorId.Some? && t.operatorId.value != attempts[t.attemptId].operatorId {
        out := out + [WorkerTaskOperatorMismatch];
      }
    }
    assert ts[..|ts|] == ts;
  }

  method CheckAuditEntries(issues: seq<Code>, mandates: map<Id, Mandate>, attempts: map<Id, Attempt>, xs: seq<Audit>)
    returns (out: seq<Code>)
    ensures forall c :: c in out <==> c in issues || SomeAuditViolates(mandates, attempts, xs, c)
  {
    out := issues;
    for i := 0 to |xs|
      invariant forall c :: c in out <==> c in issues || SomeAuditViolates(mandates, attempts, xs[..i], c)
    {
      assert xs[..i + 1] == xs[..i] + [xs[i]];
      var x := xs[i];
      assert forall c :: SomeAuditViolates(mandates, attempts, xs[..i + 1], c) <==>
        SomeAuditViolates(mandates, attempts, xs[..i], c) || AuditViolates(mandates, attempts, x, c);
      if x.mandateId !in mandates {
        out := out + [MissingAuditMandateReference];
      }
      if x.attemptId.Some? {
        if x.attemptId.value !in attempts {
          out := out + [MissingAuditAttemptReference];
        } else if attempts[x.attemptId.value].mandateId != x.mandateId {
          out := out + [AuditAttemptMandateMismatch];
        }
      }
    }
    assert xs[..|xs|] == xs;
  }

  method CheckDomainEvents(issues: seq<Code>, mandates: map<Id, Mandate>, attempts: map<Id, Attempt>, tasks: seq<Task>, es: seq<Event>)
    returns (out: seq<Code>)
    ensures forall c :: c in out <==> c in issues || SomeEventViolates(mandates, attempts, tasks, es, c)
  {
    out := issues;
    for i := 0 to |es|
      invariant forall c :: c in out <==> c in issues || SomeEventViolates(mandates, attempts, tasks, es[..i], c)
    {
      assert es[..i + 1] == es[..i] + [es[i]];
      var e := es[i];
      assert forall c :: SomeEventViolates(mandates, attempts, tasks, es[..i + 1], c) <==>
        SomeEventViolates(mandates, attempts, tasks, es[..i], c) || EventViolates(mandates, attempts, tasks, e, c);
      if e.entityType == OfMandate && e.entityId !in mandates {
        out := out + [MissingDomainMandateReference];
      }
      if e.entityType == OfAttempt && e.entityId !in attempts {
        out := out + [MissingDomainAttemptReference];
      }
      if e.entityType == OfTask && !exists t :: t in tasks && t.id == e.entityId {
        out := out + [MissingDomainWorkerTaskReference];
      }
    }
    assert es[..|es|] == es;
  }

  /** Each code is reported exactly when it is deserved, and nothing is reported exactly for a consistent store. */
  method BuildStoreIntegrityReport(d: StoreData) returns (issues: seq<Code>)
    ensures forall c :: c in issues <==> Violated(d, c)
    ensures issues == [] <==> Consistent(d)
  {
    var agents := Latest(d.agents, AgentKey);
    var mandates := Latest(d.mandates, MandateKey);
    var attempts := Latest(d.attempts, AttemptKey);
    issues := CheckIds(d);
    issues := CheckMandates(issues, agents, d.mandates);
    issues := CheckAttempts(issues, mandates, d.attempts);
    issues := CheckWorkerTasks(issues, mandates, attempts, d.workerTasks);
    issues := CheckAuditEntries(issues, mandates, attempts, d.auditEntries);
    issues := CheckDomainEvents(issues, mandates, attempts, d.workerTasks, d.domainEvents);
    NothingViolatedIffConsistent(d);
    if issues != [] { assert issues[0] in issues; }
  }

  method CheckIds(d: StoreData) returns (issues: seq<Code>)
    ensures forall c :: c in issues <==> RepeatViolates(d, c)
  {
    issues := PushDuplicateIdIssues([], KeysOf(d.agents, AgentKey), DuplicateAgentId);
    issues := PushDuplicateIdIssues(issues, KeysOf(d.mandates, MandateKey), DuplicateMandateId);
    issues := PushDuplicateIdIssues(issues, KeysOf(d.attempts, AttemptKey), DuplicateAttemptId);
    issues := PushDuplicateIdIssues(issues, KeysOf(d.workerTasks, TaskKey), DuplicateWorkerTaskId);
    issues := PushDuplicateIdIssues(issues, KeysOf(d.auditEntries, AuditKey), DuplicateAuditId);
    issues := PushDuplicateIdIssues(issues, KeysOf(d.domainEvents, EventKey), DuplicateDomainEventId);
    issues := PushDuplicateIdIssues(issues, KeysOf(d.groupedApprovals, ApprovalKey), DuplicateApprovalId);
  }

  // ---- what a consistent store is ----

  ghost predicate HasMandate(d: StoreData, id: Id) {
    exists m :: m in d.mandates && m.id == id
  }

  /** Some attempt has this id, and belongs to the mandate. */
  ghost predicate HasAttempt(d: StoreData, a: Attempt, id: Id, mandateId: Id) {
    a in d.attempts && a.id == id && a.mandateId == mandateId
  }

  ghost predicate GoodMandate(d: StoreData, m: Mandate) {
    && (exists g :: g in d.agents && g.id == m.agentId && g.name == m.agentName)
    && 0 < m.budgetCapCents && 0 <= m.reservedCents && 0 <= m.consumedCents
    && m.reservedCents + m.consumedCents <= m.budgetCapCents
    && !Repeats(m.approvedVendorIds) && forall v :: v in m.approvedVendorIds ==> Registered(v)
  }

  ghost predicate GoodAttempt(d: StoreData, a: Attempt) {
    HasMandate(d, a.mandateId) && 0 < a.amountCents && !Blank(a.paymentIdentifier)
  }

  ghost predicate GoodTask(d: StoreData, t: Task) {
    && HasMandate(d, t.mandateId)
    && exists a :: HasAttempt(d, a, t.attemptId, t.mandateId) && (t.operatorId.Some? ==> t.operatorId.value == a.operatorId)
  }

  ghost predicate GoodAudit(d: StoreData, x: Audit) {
    && HasMandate(d, x.mandateId)
    && (x.attemptId.Some? ==> exists a :: HasAttempt(d, a, x.attemptId.value, x.mandateId))
  }

  ghost predicate GoodEvent(d: StoreData, e: Event) {
    match e.entityType
    case OfMandate => HasMandate(d, e.entityId)
    case OfAttempt => exists a :: a in d.attempts && a.id == e.entityId
    case OfTask => exists t :: t in d.workerTasks && t.id == e.entityId
    case OfSystem => true
  }

  ghost predicate DistinctIds(d: StoreData) {
    && Distinct(d.agents, AgentKey) && Distinct(d.mandates, MandateKey) && Distinct(d.attempts, AttemptKey)
    && Distinct(d.workerTasks, TaskKey) && Distinct(d.auditEntries, AuditKey) && Distinct(d.domainEvents, EventKey)
    && Distinct(d.groupedApprovals, ApprovalKey)
  }

  /** Ids and payment identifiers are unique, and every reference leads to a row that agrees. */
  ghost predicate Consistent(d: StoreData) {
    && DistinctIds(d) && Distinct(d.attempts, IdentifierKey)
    && (forall m :: m in d.mandates ==> GoodMandate(d, m))
    && (forall a :: a in d.attempts ==> GoodAttempt(d, a))
    && (forall t :: t in d.workerTasks ==> GoodTask(d, t))
    && (forall x :: x in d.auditEntries ==> GoodAudit(d, x))
    && (forall e :: e in d.domainEvents ==> GoodEvent(d, e))
  }

  // ---- a consistent store deserves no code ----

  lemma NoRepeatsIsDistinct<K, V>(rows: seq<V>, key: V -> K)
    ensures !Repeats(KeysOf(rows, key)) <==> Distinct(rows, key)
  {
    var keys := KeysOf(rows, key);
    if Repeats(keys) {
      var i, j :| 0 <= i < j < |keys| && keys[i] == keys[j];
      assert key(rows[i]) == key(rows[j]);
    }
    if !Distinct(rows, key) {
      var i, j :| 0 <= i < j < |rows| && key(rows[i]) == key(rows[j]);
      assert keys[i] == keys[j];
    }
  }

  lemma DistinctIdsRepeatNone(d: StoreData, c: Code)
    requires DistinctIds(d)
    ensures !RepeatViolates(d, c)
  {
    match c
    case DuplicateAgentId => NoRepeatsIsDistinct(d.agents, AgentKey);
    case DuplicateMandateId => NoRepeatsIsDistinct(d.mandates, MandateKey);
    case DuplicateAttemptId => NoRepeatsIsDistinct(d.attempts, AttemptKey);
    case DuplicateWorkerTaskId => NoRepeatsIsDistinct(d.workerTasks, TaskKey);
    case DuplicateAuditId => NoRepeatsIsDistinct(d.auditEntries, AuditKey);
    case DuplicateDomainEventId => NoRepeatsIsDistinct(d.domainEvents, EventKey);
    case DuplicateApprovalId => NoRepeatsIsDistinct(d.groupedApprovals, ApprovalKey);
    case _ =>
  }

  /** The looked-up row is the only one with its key. */
  lemma LookedUp<K, V>(rows: seq<V>, key: V -> K, k: K)
    requires Distinct(rows, key)
    ensures k in Latest(rows, key) ==> Latest(rows, key)[k] in rows && key(Latest(rows, key)[k]) == k
    ensures forall r :: r in rows && key(r) == k ==> k in Latest(rows, key) && r == Latest(rows, key)[k]
  {
    LatestHasTheRows(rows, key);
    forall r | r in rows && key(r) == k ensures k in Latest(rows, key) && r == Latest(rows, key)[k] {
      DistinctRowsAreFound(rows, key, r);
    }
  }

  lemma MandateIsThere(d: StoreData, id: Id)
    requires DistinctIds(d)
    ensures id in Latest(d.mandates, MandateKey) <==> HasMandate(d, id)
  {
    LookedUp(d.mandates, MandateKey, id);
    if HasMandate(d, id) {
      var m :| m in d.mandates && m.id == id;
      assert MandateKey(m) == id;
    }
  }

  /** What looking an attempt up gives: the row, or nothing when there is none. */
  lemma AttemptIsThere(d: StoreData, id: Id)
    requires DistinctIds(d)
    ensures
      var attempts := Latest(d.attempts, AttemptKey);
      && (id in attempts ==> attempts[id] in d.attempts && attempts[id].id == id)
      && forall a :: a in d.attempts && a.id == id ==> id in attempts && attempts[id] == a
  {
    LookedUp(d.attempts, AttemptKey, id);
    assert forall a: Attempt :: AttemptKey(a) == a.id;
  }

  lemma AgentIsThere(d: StoreData, id: string)
    requires DistinctIds(d)
    ensures
      var agents := Latest(d.agents, AgentKey);
      && (id in agents ==> agents[id] in d.agents && agents[id].id == id)
      && forall g :: g in d.agents && g.id == id ==> id in agents && agents[id] == g
  {
    LookedUp(d.agents, AgentKey, id);
    assert forall g: Agent :: AgentKey(g) == g.id;
  }

  lemma GoodMandateIsClean(d: StoreData, m: Mandate, c: Code)
    requires DistinctIds(d) && GoodMandate(d, m)
    ensures !MandateViolates(Latest(d.agents, AgentKey), m, c)
  {
    AgentIsThere(d, m.agentId);
  }

  lemma GoodTaskIsClean(d: StoreData, t: Task, c: Code)
    requires DistinctIds(d) && GoodTask(d, t)
    ensures !TaskViolates(Latest(d.mandates, MandateKey), Latest(d.attempts, AttemptKey), t, c)
  {
    MandateIsThere(d, t.mandateId);
    AttemptIsThere(d, t.attemptId);
  }

  lemma GoodAuditIsClean(d: StoreData, x: Audit, c: Code)
    requires DistinctIds(d) && GoodAudit(d, x)
    ensures !AuditViolates(Latest(d.mandates, MandateKey), Latest(d.attempts, AttemptKey), x, c)
  {
    MandateIsThere(d, x.mandateId);
    if x.attemptId.Some? { AttemptIsThere(d, x.attemptId.value); }
  }

  lemma GoodEventIsClean(d: StoreData, e: Event, c: Code)
    requires DistinctIds(d) && GoodEvent(d, e)
    ensures !EventViolates(Latest(d.mandates, MandateKey), Latest(d.attempts, AttemptKey), d.workerTasks, e, c)
  {
    MandateIsThere(d, e.entityId);
    AttemptIsThere(d, e.entityId);
  }

  lemma GoodAttemptIsClean(d: StoreData, i: nat, c: Code)
    requires DistinctIds(d) && Distinct(d.attempts, IdentifierKey) && i < |d.attempts| && GoodAttempt(d, d.attempts[i])
    ensures !AttemptViolates(Latest(d.mandates, MandateKey), IdentifiersOf(d.attempts[..i]), d.attempts[i], c)
  {
    var ats := d.attempts;
    MandateIsThere(d, ats[i].mandateId);
    forall a | a in ats[..i] ensures a.paymentIdentifier != ats[i].paymentIdentifier {
      var k :| 0 <= k < i && ats[k] == a;
      assert IdentifierKey(ats[k]) != IdentifierKey(ats[i]);
    }
  }

  /** A consistent store deserves no code. */
  lemma ConsistentIsClean(d: StoreData, c: Code)
    requires Consistent(d)
    ensures !Violated(d, c)
  {
    DistinctIdsRepeatNone(d, c);
    forall m | m in d.mandates ensures !MandateViolates(Latest(d.agents, AgentKey), m, c) { GoodMandateIsClean(d, m, c); }
    forall i | 0 <= i < |d.attempts|
      ensures !AttemptViolates(Latest(d.mandates, MandateKey), IdentifiersOf(d.attempts[..i]), d.attempts[i], c)
    {
      GoodAttemptIsClean(d, i, c);
    }
    forall t | t in d.workerTasks ensures !TaskViolates(Latest(d.mandates, MandateKey), Latest(d.attempts, AttemptKey), t, c) {
      GoodTaskIsClean(d, t, c);
    }
    forall x | x in d.auditEntries ensures !AuditViolates(Latest(d.mandates, MandateKey), Latest(d.attempts, AttemptKey), x, c) {
      GoodAuditIsClean(d, x, c);
    }
    forall e | e in d.domainEvents
      ensures !EventViolates(Latest(d.mandates, MandateKey), Latest(d.attempts, AttemptKey), d.workerTasks, e, c)
    {
      GoodEventIsClean(d, e, c);
    }
  }

  // ---- an inconsistent store deserves one ----

  lemma RepeatedId(d: StoreData) returns (c: Code)
    requires !DistinctIds(d)
    ensures RepeatViolates(d, c)
  {
    NoRepeatsIsDistinct(d.agents, AgentKey);
    NoRepeatsIsDistinct(d.mandates, MandateKey);
    NoRepeatsIsDistinct(d.attempts, AttemptKey);
    NoRepeatsIsDistinct(d.workerTasks, TaskKey);
    NoRepeatsIsDistinct(d.auditEntries, AuditKey);
    NoRepeatsIsDistinct(d.domainEvents, EventKey);
    NoRepeatsIsDistinct(d.groupedApprovals, ApprovalKey);
    c := if !Distinct(d.agents, AgentKey) then DuplicateAgentId
         else if !Distinct(d.mandates, MandateKey) then DuplicateMandateId
         else if !Distinct(d.attempts, AttemptKey) then DuplicateAttemptId
         else if !Distinct(d.workerTasks, TaskKey) then DuplicateWorkerTaskId
         else if !Distinct(d.auditEntries, AuditKey) then DuplicateAuditId
         else if !Distinct(d.domainEvents, EventKey) then DuplicateDomainEventId
         else DuplicateApprovalId;
  }

  lemma BadMandate(d: StoreData, m: Mandate) returns (c: Code)
    requires DistinctIds(d) && !GoodMandate(d, m)
    ensures MandateViolates(Latest(d.agents, AgentKey), m, c)
  {
    var agents := Latest(d.agents, AgentKey);
    AgentIsThere(d, m.agentId);
    c := if m.agentId !in agents then MissingAgentReference
         else if m.agentName != agents[m.agentId].name then AgentNameMismatch
         else if m.budgetCapCents <= 0 then InvalidBudgetCap
         else if m.reservedCents < 0 || m.consumedCents < 0 then NegativeMandateTotals
         else if m.reservedCents + m.consumedCents > m.budgetCapCents then BudgetOverflow
         else if Repeats(m.approvedVendorIds) then DuplicateApprovedVendor
         else UnknownApprovedVendor;
  }

  lemma BadAttempt(d: StoreData, a: Attempt, earlier: set<string>) returns (c: Code)
    requires DistinctIds(d) && !GoodAttempt(d, a)
    ensures AttemptViolates(Latest(d.mandates, MandateKey), earlier, a, c)
  {
    MandateIsThere(d, a.mandateId);
    c := if a.mandateId !in Latest(d.mandates, MandateKey) then MissingMandateReference
         else if a.amountCents <= 0 then InvalidAttemptAmount
         else BlankPaymentIdentifier;
  }

  lemma BadTask(d: StoreData, t: Task) returns (c: Code)
    requires DistinctIds(d) && !GoodTask(d, t)
    ensures TaskViolates(Latest(d.mandates, MandateKey), Latest(d.attempts, AttemptKey), t, c)
  {
    var attempts := Latest(d.attempts, AttemptKey);
    MandateIsThere(d, t.mandateId);
    AttemptIsThere(d, t.attemptId);
    if t.attemptId in attempts { assert HasAttempt(d, attempts[t.attemptId], t.attemptId, attempts[t.attemptId].mandateId); }
    c := if t.mandateId !in Latest(d.mandates, MandateKey) then MissingWorkerTaskMandateReference
         else if t.attemptId !in attempts then MissingWorkerTaskAttemptReference
         else if attempts[t.attemptId].mandateId != t.mandateId then WorkerTaskAttemptMandateMismatch
         else WorkerTaskOperatorMismatch;
  }

  lemma BadAudit(d: StoreData, x: Audit) returns (c: Code)
    requires DistinctIds(d) && !GoodAudit(d, x)
    ensures AuditViolates(Latest(d.mandates, MandateKey), Latest(d.attempts, AttemptKey), x, c)
  {
    var attempts := Latest(d.attempts, AttemptKey);
    MandateIsThere(d, x.mandateId);
    if x.mandateId !in Latest(d.mandates, MandateKey) {
      c := MissingAuditMandateReference;
    } else {
      var id := x.attemptId.value;
      AttemptIsThere(d, id);
      if id in attempts { assert HasAttempt(d, attempts[id], id, attempts[id].mandateId); }
      c := if id !in attempts then MissingAuditAttemptReference else AuditAttemptMandateMismatch;
    }
  }

  lemma BadEvent(d: StoreData, e: Event) returns (c: Code)
    requires DistinctIds(d) && !GoodEvent(d, e)
    ensures EventViolates(Latest(d.mandates, MandateKey), Latest(d.attempts, AttemptKey), d.workerTasks, e, c)
  {
    MandateIsThere(d, e.entityId);
    AttemptIsThere(d, e.entityId);
    c := if e.entityType == OfMandate then MissingDomainMandateReference
         else if e.entityType == OfAttempt then MissingDomainAttemptReference
         else MissingDomainWorkerTaskReference;
  }

  lemma BadAttempts(d: StoreData) returns (c: Code)
    requires DistinctIds(d) && (!Distinct(d.attempts, IdentifierKey) || exists a :: a in d.attempts && !GoodAttempt(d, a))
    ensures SomeAttemptViolates(Latest(d.mandates, MandateKey), d.attempts, c)
  {
    var ats := d.attempts;
    if a :| a in ats && !GoodAttempt(d, a) {
      var i :| 0 <= i < |ats| && ats[i] == a;
      c := BadAttempt(d, a, IdentifiersOf(ats[..i]));
    } else {
      var i, j :| 0 <= i < j < |ats| && IdentifierKey(ats[i]) == IdentifierKey(ats[j]);
      assert GoodAttempt(d, ats[i]) && ats[..j][i] in ats[..j];
      c := DuplicatePaymentIdentifier;
      assert AttemptViolates(Latest(d.mandates, MandateKey), IdentifiersOf(ats[..j]), ats[j], c);
    }
  }

  /** An inconsistent store deserves some code. */
  lemma InconsistentIsReported(d: StoreData) returns (c: Code)
    requires !Consistent(d)
    ensures Violated(d, c)
  {
    if !DistinctIds(d) {
      c := RepeatedId(d);
    } else if m :| m in d.mandates && !GoodMandate(d, m) {
      c := BadMandate(d, m);
    } else if !Distinct(d.attempts, IdentifierKey) || exists a :: a in d.attempts && !GoodAttempt(d, a) {
      c := BadAttempts(d);
    } else if t :| t in d.workerTasks && !GoodTask(d, t) {
      c := BadTask(d, t);
    } else if x :| x in d.auditEntries && !GoodAudit(d, x) {
      c := BadAudit(d, x);
    } else {
      var e :| e in d.domainEvents && !GoodEvent(d, e);
      c := BadEvent(d, e);
    }
  }

  /** No code is deserved exactly when the store is consistent, repeated ids or not. */
  lemma NothingViolatedIffConsistent(d: StoreData)
    ensures (forall c :: !Violated(d, c)) <==> Consistent(d)
  {
    if Consistent(d) {
      forall c ensures !Violated(d, c) { ConsistentIsClean(d, c); }
    } else {
      var c := InconsistentIsReported(d);
    }
  }
}

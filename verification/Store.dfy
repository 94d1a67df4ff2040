/** The store as the code holds it while a transaction works on it: arrays searched from the front, new rows
    put at the front, rows changed in place. Each method is one transaction body and is proved to compute
    the function of the same name in `Ledger`. A body that fails leaves whatever it had done behind: the
    caller throws the arrays away, see `PromiseLock`. */
module Stores {
  import opened Domain
  import opened StateMachines
  import opened Policy
  import opened Tables
  import opened Entries
  import L = Ledger
  import M = MandateTheorems
  import P = Protocol
  import R = RequestTheorems
  import S = SettlementTheorems

  type Claim = L.Claim
  type DispatchResult = L.DispatchResult
  type CorrelationResult = L.CorrelationResult

  /** The index of the first row with this key, or -1. */
  method Find<K(==), V>(rows: seq<V>, key: V -> K, k: K) returns (i: int)
    ensures -1 <= i < |rows| && (i >= 0 ==> key(rows[i]) == k)
    ensures i >= 0 <==> k in Latest(rows, key)
    ensures i >= 0 && Distinct(rows, key) ==> rows[i] == Latest(rows, key)[k]
  {
    LatestHasTheRows(rows, key);
    for j := 0 to |rows|
      invariant forall n :: 0 <= n < j ==> key(rows[n]) != k
    {
      if key(rows[j]) == k {
        if Distinct(rows, key) { DistinctRowsAreFound(rows, key, rows[j]); }
        assert rows[j] in rows;
        return j;
      }
    }
    return -1;
  }

  method TrimEach(ids: seq<string>) returns (r: Option<seq<string>>)
    ensures r == if exists v :: v in ids && Blank(v) then None else Some(L.TrimAll(ids))
  {
    var trimmed: seq<string> := [];
    for i := 0 to |ids|
      invariant |trimmed| == i && forall j :: 0 <= j < i ==> trimmed[j] == Trim(ids[j]) && !Blank(ids[j])
    {
      if Trim(ids[i]) == [] { return None; }
      trimmed := trimmed + [Trim(ids[i])];
    }
    assert trimmed == L.TrimAll(ids);
    return Some(trimmed);
  }

  /** The first occurrences, in order. */
  method Unique(ids: seq<string>) returns (unique: seq<string>)
    ensures unique == L.Dedupe(ids)
  {
    unique := [];
    for i := 0 to |ids|
      invariant unique == L.Dedupe(ids[..i])
    {
      assert ids[..i + 1][..i] == ids[..i];
      if ids[i] !in unique { unique := unique + [ids[i]]; }
    }
    assert ids[..|ids|] == ids;
  }

  method AllRegistered(ids: seq<string>) returns (r: bool)
    ensures r <==> forall v :: v in ids ==> Registered(v)
  {
    for i := 0 to |ids|
      invariant forall j :: 0 <= j < i ==> Registered(ids[j])
    {
      var vendor := FindVendor(ids[i]);
      if vendor.None? { return false; }
    }
    return true;
  }

  /** The approved vendor ids, trimmed, without repeats and all registered, or a validation error. */
  method NormalizeApprovedVendorIds(ids: seq<string>) returns (r: Result<seq<string>>)
    ensures r == L.NormalizeApprovedVendorIds(ids)
    ensures if M.KnownVendors(ids) then r.Ok? && M.FirstOccurrences(ids, r.value) else r == Err(Validation)
  {
    M.VendorsAskedForAreKept(ids);
    var trimmed := TrimEach(ids);
    if trimmed.None? { return Err(Validation); }
    var unique := Unique(trimmed.value);
    if unique == [] { return Err(Validation); }
    var known := AllRegistered(unique);
    if !known { return Err(Validation); }
    return Ok(unique);
  }

  /** A new request adds its attempt under the identifier it came with, and changes no other. */
  lemma AdmittedAddsTheAttempt(l: L.Ledger, a: Attempt, vendor: Vendor, treasury: L.Treasury, now: Millis)
    requires a.mandateId in l.mandates && L.Admitted(l, a, vendor, treasury, now).Ok?
    ensures
      var ran := L.Admitted(l, a, vendor, treasury, now).value;
      ran.ledger.attempts == l.attempts[a.id := ran.attempt] && ran.attempt.paymentIdentifier == a.paymentIdentifier
  {}

  ghost predicate NoneEmpty(l: L.Ledger) {
    forall b :: !L.UsesIdentifier(l.attempts, b, "")
  }

  lemma NewRequestIsAdmitted(l: L.Ledger, input: L.RunInput, identifier: string, vendor: Vendor, treasury: L.Treasury, now: Millis)
    requires input.mandateId in l.mandates && FindVendor(Trim(input.vendorId)) == Some(vendor)
    ensures
      var a := L.MaterializeAttempt(l.nextId, input.mandateId, vendor.id, Trim(input.operatorId), input.amountCents, identifier, now);
      var spec := L.Admitted(l, a, vendor, treasury, now);
      && L.RunNew(l, input, identifier, treasury, now) == (if spec.Ok? && identifier == "" then Err(IntegrityRejected) else spec)
      && (NoneEmpty(l) && spec.Ok? && identifier != "" ==> NoneEmpty(spec.value.ledger))
  {
    var a := L.MaterializeAttempt(l.nextId, input.mandateId, vendor.id, Trim(input.operatorId), input.amountCents, identifier, now);
    var spec := L.Admitted(l, a, vendor, treasury, now);
    if spec.Ok? {
      AdmittedAddsTheAttempt(l, a, vendor, treasury, now);
      if NoneEmpty(l) && identifier != "" { OneMoreNotEmpty(l, spec.value.ledger, spec.value.attempt, a.id); }
    }
  }

  lemma OneMoreNotEmpty(l: L.Ledger, l': L.Ledger, a: Attempt, id: Id)
    requires NoneEmpty(l) && l'.attempts == l.attempts[id := a] && a.paymentIdentifier != ""
    ensures NoneEmpty(l')
  {
    assert forall b :: L.UsesIdentifier(l'.attempts, b, "") ==> L.UsesIdentifier(l.attempts, b, "");
  }

  /** What issuing comes to once the anchor and the vendors are there. */
  lemma AnchoredIsIssued(l: L.Ledger, input: L.CreateInput, agent: Agent, anchor: Option<string>, vendors: seq<string>, now: Millis)
    requires anchor.Some? && !Blank(anchor.value)
    ensures
      var draft := Mandate(l.nextId, Trim(input.name), input.agentId, agent.name, Draft, input.budgetCapCents, 0, 0,
                           input.requiresReceiptCapability, vendors, anchor.value, None, input.expiresAt, now, now);
      L.AnchorMandate(l, input, agent, anchor, Ok(vendors), now) ==
        Ok(L.Anchored(L.IssueMandate(l.(nextId := l.nextId + 1), draft.(status := IssuedActive), now), [Draft, IssuedActive]))
  {}

  /** Nothing is left after trimming. */
  method IsBlank(text: string) returns (r: bool)
    ensures r <==> Blank(text)
  {
    return Trim(text) == [];
  }

  class Store {
    var agents: seq<Agent>
    var mandates: seq<Mandate>
    var attempts: seq<Attempt>
    var workerTasks: seq<Task>
    var auditEntries: seq<Audit>
    var domainEvents: seq<Event>
    var nextId: Id
    /** The same contents as tables. */
    ghost var view: L.Ledger

    ghost predicate Shows()
      reads this
    {
      view == L.Ledger(Latest(agents, AgentKey), Latest(mandates, MandateKey), Latest(attempts, AttemptKey),
                       Latest(workerTasks, TaskKey), auditEntries, domainEvents, nextId)
    }

    /** Ids not handed out yet are not in use. */
    ghost predicate IdsBelow()
      reads this
    {
      && (forall m :: m in mandates ==> m.id < nextId) && (forall a :: a in attempts ==> a.id < nextId)
      && (forall t :: t in workerTasks ==> t.id < nextId)
    }

    /** The check on every read leaves no repeated ids or identifiers. */
    ghost predicate Valid()
      reads this
    {
      && Shows() && IdsBelow() && Distinct(agents, AgentKey) && Distinct(mandates, MandateKey)
      && Distinct(attempts, AttemptKey) && Distinct(workerTasks, TaskKey) && Distinct(attempts, IdentifierKey)
    }

    constructor (agents: seq<Agent>)
      requires Distinct(agents, AgentKey)
      ensures Valid() && view == L.Ledger(Latest(agents, AgentKey), map[], map[], map[], [], [], 0)
    {
      this.agents := agents;
      mandates, attempts, workerTasks, auditEntries, domainEvents, nextId := [], [], [], [], [], 0;
      view := L.Ledger(Latest(agents, AgentKey), map[], map[], map[], [], [], 0);
    }

    // ---- rows and entries ----

    method FindAgent(id: string) returns (i: int)
      requires Valid()
      ensures -1 <= i < |agents| && (i >= 0 <==> id in view.agents)
      ensures i >= 0 ==> agents[i] == view.agents[id]
    {
      i := Find(agents, AgentKey, id);
    }

    method FindMandate(id: Id) returns (i: int)
      requires Valid()
      ensures -1 <= i < |mandates| && (i >= 0 <==> id in view.mandates)
      ensures i >= 0 ==> mandates[i] == view.mandates[id] && mandates[i].id == id
    {
      i := Find(mandates, MandateKey, id);
    }

    method FindAttempt(id: Id) returns (i: int)
      requires Valid()
      ensures -1 <= i < |attempts| && (i >= 0 <==> id in view.attempts)
      ensures i >= 0 ==> attempts[i] == view.attempts[id] && attempts[i].id == id
    {
      i := Find(attempts, AttemptKey, id);
    }

    method FindTask(id: Id) returns (i: int)
      requires Valid()
      ensures -1 <= i < |workerTasks| && (i >= 0 <==> id in view.tasks)
      ensures i >= 0 ==> workerTasks[i] == view.tasks[id] && workerTasks[i].id == id
    {
      i := Find(workerTasks, TaskKey, id);
    }

    /** A generated id is in use nowhere. */
    method CreateId() returns (id: Id)
      requires Valid()
      modifies this`nextId, this`view
      ensures Valid() && id == old(nextId) == old(view.nextId) && view == old(view).(nextId := id + 1)
      ensures id !in view.mandates && id !in view.attempts && id !in view.tasks
    {
      LatestHasTheRows(mandates, MandateKey);
      LatestHasTheRows(attempts, AttemptKey);
      LatestHasTheRows(workerTasks, TaskKey);
      id := nextId;
      nextId := nextId + 1;
      view := view.(nextId := nextId);
    }

    method PushAudit(mandateId: Id, kind: AuditKind, attemptId: Option<Id>, now: Millis)
      requires Valid()
      modifies this`auditEntries, this`nextId, this`view
      ensures Valid() && view == L.WithAudit(old(view), mandateId, kind, attemptId, now)
    {
      var id := CreateId();
      auditEntries := [Audit(id, mandateId, attemptId, kind, now)] + auditEntries;
      view := view.(audits := auditEntries);
    }

    method PushEvent(entityType: EntityType, entityId: Id, kind: EventKind, now: Millis)
      requires Valid()
      modifies this`domainEvents, this`nextId, this`view
      ensures Valid() && view == L.WithEvent(old(view), entityType, entityId, kind, now)
    {
      var id := CreateId();
      domainEvents := [Event(id, entityType, entityId, kind, now)] + domainEvents;
      view := view.(events := domainEvents);
    }

    method AddMandate(m: Mandate)
      requires Valid() && m.id !in view.mandates && m.id < view.nextId
      modifies this`mandates, this`view
      ensures Valid() && view == old(view).(mandates := old(view).mandates[m.id := m])
    {
      UnshiftedRow(mandates, MandateKey, m);
      mandates := [m] + mandates;
      view := view.(mandates := view.mandates[m.id := m]);
    }

    method AddAttempt(a: Attempt)
      requires Valid() && a.id !in view.attempts && a.id < view.nextId
      requires forall b :: !L.UsesIdentifier(view.attempts, b, a.paymentIdentifier)
      modifies this`attempts, this`view
      ensures Valid() && view == old(view).(attempts := old(view).attempts[a.id := a])
    {
      UnshiftedRow(attempts, AttemptKey, a);
      IdentifierIsNew(a);
      UnshiftedRow(attempts, IdentifierKey, a);
      attempts := [a] + attempts;
      view := view.(attempts := view.attempts[a.id := a]);
    }

    lemma IdentifierIsNew(a: Attempt)
      requires Valid() && forall b :: !L.UsesIdentifier(view.attempts, b, a.paymentIdentifier)
      ensures IdentifierKey(a) !in Latest(attempts, IdentifierKey)
    {
      LatestHasTheRows(attempts, IdentifierKey);
      forall b | b in attempts ensures b.paymentIdentifier != a.paymentIdentifier {
        DistinctRowsAreFound(attempts, AttemptKey, b);
        assert !L.UsesIdentifier(view.attempts, b.id, a.paymentIdentifier);
      }
    }

    method AddTask(t: Task)
      requires Valid() && t.id !in view.tasks && t.id < view.nextId
      modifies this`workerTasks, this`view
      ensures Valid() && view == old(view).(tasks := old(view).tasks[t.id := t])
    {
      UnshiftedRow(workerTasks, TaskKey, t);
      workerTasks := [t] + workerTasks;
      view := view.(tasks := view.tasks[t.id := t]);
    }

    method SetMandate(i: nat, m: Mandate)
      requires Valid() && i < |mandates| && m.id == mandates[i].id
      modifies this`mandates, this`view
      ensures Valid() && view == old(view).(mandates := old(view).mandates[m.id := m])
      ensures mandates == old(mandates)[i := m]
    {
      OverwrittenRow(mandates, MandateKey, i, m);
      mandates := mandates[i := m];
      view := view.(mandates := view.mandates[m.id := m]);
    }

    method SetAttempt(i: nat, a: Attempt)
      requires Valid() && i < |attempts| && a.id == attempts[i].id && a.paymentIdentifier == attempts[i].paymentIdentifier
      modifies this`attempts, this`view
      ensures Valid() && view == old(view).(attempts := old(view).attempts[a.id := a])
      ensures attempts == old(attempts)[i := a]
    {
      OverwrittenRow(attempts, AttemptKey, i, a);
      OverwrittenRow(attempts, IdentifierKey, i, a);
      attempts := attempts[i := a];
      view := view.(attempts := view.attempts[a.id := a]);
    }

    method SetTask(i: nat, t: Task)
      requires Valid() && i < |workerTasks| && t.id == workerTasks[i].id
      modifies this`workerTasks, this`view
      ensures Valid() && view == old(view).(tasks := old(view).tasks[t.id := t])
      ensures workerTasks == old(workerTasks)[i := t]
    {
      OverwrittenRow(workerTasks, TaskKey, i, t);
      workerTasks := workerTasks[i := t];
      view := view.(tasks := view.tasks[t.id := t]);
    }

    // ---- operator transactions ----

    /** `trail` lists the statuses the mandate is given, in order. */
    method CreateMandate(input: L.CreateInput, anchor: Option<string>, now: Millis)
      returns (r: Result<Id>, trail: seq<MandateStatus>)
      requires Valid()
      modifies this
      ensures
        match L.CreateMandate(old(view), input, anchor, now)
        case Ok(made) => r == Ok(old(nextId)) && Valid() && made == L.Anchored(view, trail)
        case Err(e) => r == Err(e)
      ensures r.Ok? <==>
        M.MayIssue(old(view), input, now) && anchor.Some? && !Blank(anchor.value) && M.KnownVendors(input.approvedVendorIds)
      ensures r.Ok? ==> M.Issued(old(view), view, input, anchor, now)
    {
      M.WhenAMandateIsIssued(view, input, anchor, now);
      if L.CreateMandate(view, input, anchor, now).Ok? { M.IssuedAsAskedFor(view, input, anchor, now); }
      if Trim(input.name) == [] { return Err(Validation), []; }
      if input.budgetCapCents <= 0 { return Err(Validation), []; }
      if input.expiresAt <= now { return Err(Validation), []; }
      var g := FindAgent(input.agentId);
      if g < 0 || !agents[g].active { return Err(Validation), []; }
      var vendors := NormalizeApprovedVendorIds(input.approvedVendorIds);
      r, trail := AnchorMandate(input, agents[g], anchor, vendors, now);
    }

    /** The rest of the transaction, once the request is valid and the agent found. The vendors have been looked at;
        an error there counts only after the anchor's. */
    method AnchorMandate(input: L.CreateInput, agent: Agent, anchor: Option<string>, vendors: Result<seq<string>>, now: Millis)
      returns (r: Result<Id>, trail: seq<MandateStatus>)
      requires Valid()
      modifies this
      ensures
        match L.AnchorMandate(old(view), input, agent, anchor, vendors, now)
        case Ok(made) => r == Ok(old(nextId)) && Valid() && made == L.Anchored(view, trail)
        case Err(e) => r == Err(e)
    {
      ghost var before := view;
      var id := CreateId();
      if anchor.None? { return Err(AnchorFailed), []; }
      var blank := IsBlank(anchor.value);
      if blank { return Err(Validation), []; }
      if vendors.Err? { return Err(vendors.failure), []; }
      trail := IssueDraft(Mandate(id, Trim(input.name), input.agentId, agent.name, Draft, input.budgetCapCents, 0, 0,
                                  input.requiresReceiptCapability, vendors.value, anchor.value, None, input.expiresAt, now, now), now);
      AnchoredIsIssued(before, input, agent, anchor, vendors.value, now);
      return Ok(id), trail;
    }

    /** A draft becomes active, is stored and gets its entries. */
    method IssueDraft(draft: Mandate, now: Millis) returns (trail: seq<MandateStatus>)
      requires Valid() && draft.status == Draft && draft.id !in view.mandates && draft.id < view.nextId
      modifies this
      ensures Valid() && view == L.IssueMandate(old(view), draft.(status := IssuedActive), now) && trail == [Draft, IssuedActive]
      ensures nextId == view.nextId
    {
      trail := [draft.status];
      assert CanTransitionMandate(draft.status, IssuedActive);
      var mandate := draft.(status := IssuedActive);
      trail := trail + [mandate.status];
      IssueMandate(mandate, now);
    }

    method IssueMandate(m: Mandate, now: Millis)
      requires Valid() && m.id !in view.mandates && m.id < view.nextId
      modifies this
      ensures Valid() && view == L.IssueMandate(old(view), m, now)
    {
      AddMandate(m);
      PushAudit(m.id, AuditMandateIssued, None, now);
      PushEvent(OfMandate, m.id, MandateIssued, now);
    }

    method RevokeMandate(mandateId: Id, anchor: Option<string>, now: Millis) returns (r: Result<()>, trail: seq<MandateStatus>)
      requires Valid()
      modifies this
      ensures
        match L.RevokeMandate(old(view), mandateId, anchor, now)
        case Ok(done) => r == Ok(()) && Valid() && done == L.Anchored(view, trail)
        case Err(e) => r == Err(e)
      ensures r.Ok? <==> M.MayRevoke(old(view), mandateId) && anchor.Some? && !Blank(anchor.value)
      ensures r.Ok? ==> M.RevokedOnly(old(view), view, mandateId, anchor, now)
    {
      M.RevocationAsAWhole(view, mandateId, anchor, now);
      trail := [];
      var i := FindMandate(mandateId);
      if i < 0 { return Err(NotFound), trail; }
      var mandate := mandates[i];
      if !CanTransitionMandate(mandate.status, Revoking) { return Err(InvalidTransition), trail; }
      mandate := mandate.(status := Revoking, updatedAt := now);
      trail := trail + [mandate.status];
      if anchor.None? { return Err(AnchorFailed), trail; }
      var blank := IsBlank(anchor.value);
      if blank { return Err(Validation), trail; }
      mandate := mandate.(morphRevokeTxId := anchor);
      if !CanTransitionMandate(mandate.status, Revoked) { return Err(InvalidTransition), trail; }
      mandate := mandate.(status := Revoked, updatedAt := now);
      trail := trail + [mandate.status];
      PutRevoked(i, mandate, now);
      return Ok(()), trail;
    }

    method PutRevoked(i: nat, m: Mandate, now: Millis)
      requires Valid() && i < |mandates| && mandates[i].id == m.id
      modifies this`mandates, this`auditEntries, this`domainEvents, this`nextId, this`view
      ensures Valid()
      ensures
        var l1 := old(view).(mandates := old(view).mandates[m.id := m]);
        view == L.WithEvent(L.WithAudit(l1, m.id, AuditMandateRevoked, None, now), OfMandate, m.id, MandateRevoked, now)
    {
      SetMandate(i, m);
      PushAudit(m.id, AuditMandateRevoked, None, now);
      PushEvent(OfMandate, m.id, MandateRevoked, now);
    }

    /** An audit entry and a domain event about one attempt. */
    method PushNote(m: Id, a: Id, audit: AuditKind, event: EventKind, now: Millis)
      requires Valid()
      modifies this`auditEntries, this`domainEvents, this`nextId, this`view
      ensures Valid() && view == L.WithEvent(L.WithAudit(old(view), m, audit, Some(a), now), OfAttempt, a, event, now)
    {
      PushAudit(m, audit, Some(a), now);
      PushEvent(OfAttempt, a, event, now);
    }

    method ExpireMandate(i: nat, now: Millis)
      requires Valid() && i < |mandates| && mandates[i].id in view.mandates && view.mandates[mandates[i].id] == mandates[i]
      modifies this`mandates, this`auditEntries, this`domainEvents, this`nextId, this`view
      ensures Valid() && view == L.ExpireMandate(old(view), old(mandates)[i].id, now)
    {
      var m := mandates[i];
      SetMandate(i, m.(status := Expired, updatedAt := now));
      PushAudit(m.id, AuditMandateExpired, None, now);
      PushEvent(OfMandate, m.id, MandateExpired, now);
    }

    /** The attempt is new and so is its identifier. */
    ghost predicate NewHere(a: Attempt)
      reads this
    {
      a.id !in view.attempts && a.id < view.nextId && forall b :: !L.UsesIdentifier(view.attempts, b, a.paymentIdentifier)
    }

    method Deny(a: Attempt, reason: BlockedReason, now: Millis) returns (denied: Attempt, trail: seq<AttemptStatus>)
      requires Valid() && NewHere(a)
      modifies this`attempts, this`auditEntries, this`domainEvents, this`nextId, this`view
      ensures Valid() && L.Deny(old(view), a, reason, now) == L.Ran(view, denied, trail)
    {
      denied := a.(status := PolicyDenied, financialOutcome := PolicyDenied, blockedReason := Some(reason), updatedAt := now);
      trail := [denied.status];
      AddAttempt(denied);
      PushNote(a.mandateId, a.id, AuditAttemptBlocked, EvtPolicyDenied(reason), now);
    }

    method Hold(i: nat, a: Attempt, now: Millis)
      requires Valid() && MandateAt(i, a)
      modifies this`mandates, this`auditEntries, this`domainEvents, this`nextId, this`view
      ensures Valid() && view == L.Hold(old(view), a, now)
    {
      var m := mandates[i];
      SetMandate(i, m.(reservedCents := m.reservedCents + a.amountCents, status := IssuedReserved, updatedAt := now));
      PushNote(a.mandateId, a.id, AuditAttemptReserved, EvtReserved(a.amountCents), now);
    }

    method Queue(a: Attempt, now: Millis)
      requires Valid() && NewHere(a)
      modifies this`attempts, this`workerTasks, this`auditEntries, this`domainEvents, this`nextId, this`view
      ensures Valid() && view == L.Queue(old(view), a, now)
    {
      AddAttempt(a);
      var t := CreateId();
      AddTask(L.NewTask(t, DispatchAttempt, a.id, a.mandateId, Some(a.operatorId), now, now));
      assert L.Queue(old(view), a, now) ==
        L.WithEvent(L.WithEvent(L.WithAudit(view, a.mandateId, AuditAttemptQueued, Some(a.id), now), OfAttempt, a.id, EvtQueued(t), now),
                    OfTask, t, EvtTaskEnqueued, now);
      PushNote(a.mandateId, a.id, AuditAttemptQueued, EvtQueued(t), now);
      PushEvent(OfTask, t, EvtTaskEnqueued, now);
    }

    method Reserve(i: nat, a: Attempt, now: Millis) returns (queued: Attempt, trail: seq<AttemptStatus>)
      requires Valid() && NewHere(a) && MandateAt(i, a)
      modifies this
      ensures Valid() && L.Reserve(old(view), a, now) == L.Ran(view, queued, trail)
    {
      queued := a.(receiptEvidence := if mandates[i].requiresReceiptCapability then RequiredPending else NotRequired);
      queued := queued.(status := Reserved, financialOutcome := Reserved, updatedAt := now);
      trail := [queued.status];
      Hold(i, a, now);
      queued := queued.(status := DispatchQueued, financialOutcome := DispatchQueued, updatedAt := now);
      trail := trail + [queued.status];
      Queue(queued, now);
    }

    /** The first attempt with this payment identifier. */
    method FindIdentifier(identifier: string) returns (i: int)
      requires Valid()
      ensures -1 <= i < |attempts|
      ensures
        match L.ByIdentifier(view.attempts, identifier)
        case Some(a) => i >= 0 && attempts[i] == view.attempts[a] && attempts[i].id == a
        case None => i < 0
    {
      i := Find(attempts, IdentifierKey, identifier);
      IdentifierLookup(i, identifier);
    }

    lemma IdentifierLookup(i: int, identifier: string)
      requires Valid() && -1 <= i < |attempts|
      requires if i >= 0 then attempts[i].paymentIdentifier == identifier else identifier !in Latest(attempts, IdentifierKey)
      ensures
        match L.ByIdentifier(view.attempts, identifier)
        case Some(a) => i >= 0 && attempts[i] == view.attempts[a] && attempts[i].id == a
        case None => i < 0
    {
      LatestHasTheRows(attempts, AttemptKey);
      LatestHasTheRows(attempts, IdentifierKey);
      match L.ByIdentifier(view.attempts, identifier)
      case Some(a) =>
        var row := view.attempts[a];
        assert row in attempts && IdentifierKey(row) == identifier;
        DistinctRowsAreFound(attempts, IdentifierKey, row);
        DistinctRowsAreFound(attempts, IdentifierKey, attempts[i]);
      case None =>
        if i >= 0 {
          DistinctRowsAreFound(attempts, AttemptKey, attempts[i]);
          assert L.UsesIdentifier(view.attempts, attempts[i].id, identifier);
        }
    }

    /** Row `i` is the attempt's mandate. */
    ghost predicate MandateAt(i: nat, a: Attempt)
      reads this
    {
      i < |mandates| && a.mandateId in view.mandates && view.mandates[a.mandateId] == mandates[i] && mandates[i].id == a.mandateId
    }

    /** The attempt is denied; a mandate found past its time is expired on the way. */
    method Refuse(i: nat, a: Attempt, reason: BlockedReason, expire: bool, now: Millis)
      returns (denied: Attempt, trail: seq<AttemptStatus>)
      requires Valid() && NewHere(a) && MandateAt(i, a)
      modifies this
      ensures Valid()
      ensures L.Deny(if expire then L.ExpireMandate(old(view), a.mandateId, now) else old(view), a, reason, now) ==
              L.Ran(view, denied, trail)
    {
      if expire {
        ExpireMandate(i, now);
      }
      denied, trail := Deny(a, reason, now);
    }

    /** From the new attempt on: authenticated, then decided by the policy. `trail` lists the statuses it is given. */
    method Decide(i: nat, a: Attempt, vendor: Vendor, treasury: L.Treasury, now: Millis)
      returns (r: Result<Attempt>, trail: seq<AttemptStatus>)
      requires Valid() && MandateAt(i, a) && a.id == view.nextId && a.id !in view.attempts
      requires forall b :: !L.UsesIdentifier(view.attempts, b, a.paymentIdentifier)
      modifies this
      ensures
        match L.Admitted(old(view), a, vendor, treasury, now)
        case Ok(ran) => r == Ok(ran.attempt) && Valid() && view == ran.ledger && trail == ran.trail
        case Err(e) => r == Err(e)
    {
      var mandate := mandates[i];
      var id := CreateId();
      trail := [a.status];
      var attempt := a.(status := AuthValidated, financialOutcome := AuthValidated);
      trail := trail + [attempt.status];
      PushNote(a.mandateId, a.id, AuditAuthValidated, EvtAuthValidated(a.mandateId), now);
      ghost var admitted := view;
      assert admitted == L.Admit(old(view), attempt, now) && attempt == L.Authenticated(a) && trail == [a.status, attempt.status];
      assert Valid() && NewHere(attempt) && MandateAt(i, attempt);
      var policy := EvaluatePolicy(mandate, Some(vendor), a.amountCents, now);
      L.AdmittedByPolicy(old(view), a, vendor, treasury, now);
      var rest;
      if policy.Denied? {
        var expire := policy.reason == MandateNotActive && mandate.status == IssuedActive && mandate.expiresAt <= now;
        var denied;
        denied, rest := Refuse(i, attempt, policy.reason, expire, now);
        r := Ok(denied);
      } else {
        r, rest := Approve(i, attempt, treasury, now);
      }
      trail := trail + rest;
    }

    /** The policy's approval, and then the treasury's say. */
    method Approve(i: nat, a: Attempt, treasury: L.Treasury, now: Millis) returns (r: Result<Attempt>, trail: seq<AttemptStatus>)
      requires Valid() && NewHere(a) && MandateAt(i, a)
      modifies this
      ensures
        match L.Enforced(L.Approve(old(view), a, now), a, treasury, now)
        case Ok(ran) => r == Ok(ran.attempt) && Valid() && view == ran.ledger && trail == ran.trail
        case Err(e) => r == Err(e)
    {
      PushNote(a.mandateId, a.id, AuditPolicyApproved, EvtPolicyApproved, now);
      r, trail := Enforce(i, a, treasury, now);
    }

    /** The treasury's say, on an attempt the policy approved. */
    method Enforce(i: nat, a: Attempt, treasury: L.Treasury, now: Millis) returns (r: Result<Attempt>, trail: seq<AttemptStatus>)
      requires Valid() && NewHere(a) && MandateAt(i, a)
      modifies this
      ensures
        match L.Enforced(old(view), a, treasury, now)
        case Ok(ran) => r == Ok(ran.attempt) && Valid() && view == ran.ledger && trail == ran.trail
        case Err(e) => r == Err(e)
      ensures
        match treasury
        case TreasuryThrows => r == Err(TreasuryFailed)
        case TreasuryDenies(code) => r.Ok? && R.DeniedOnly(old(view), view, a, r.value, TreasuryDenied(code), now)
        case TreasuryApproved => r.Ok? && R.ReservedOnly(old(view), view, a, r.value, now)
        case TreasuryNotEnforced => r.Ok? && R.ReservedOnly(old(view), view, a, r.value, now)
    {
      R.EnforcedAsSaid(view, a, treasury, now);
      match treasury
      case TreasuryThrows => return Err(TreasuryFailed), [];
      case TreasuryDenies(code) =>
        var denied;
        denied, trail := Deny(a, TreasuryDenied(code), now);
        return Ok(denied), trail;
      case TreasuryApproved =>
        PushNote(a.mandateId, a.id, AuditPolicyApproved, EvtTreasuryEnforced, now);
        var queued;
        queued, trail := Reserve(i, a, now);
        return Ok(queued), trail;
      case TreasuryNotEnforced =>
        var queued;
        queued, trail := Reserve(i, a, now);
        return Ok(queued), trail;
    }

    /** One call of the transaction, the check on its write included. The check on every read leaves no empty
        payment identifier. */
    method RunAttempt(input: L.RunInput, freshIdentifier: string, treasury: L.Treasury, now: Millis)
      returns (r: Result<Attempt>, trail: seq<AttemptStatus>)
      requires Valid() && NoneEmpty(view) && freshIdentifier != ""
      requires forall b :: !L.UsesIdentifier(view.attempts, b, freshIdentifier)
      modifies this
      ensures r.Ok? ==> NoneEmpty(view)
      ensures
        match L.RunAttempt(old(view), input, freshIdentifier, treasury, now)
        case Ok(ran) => r == Ok(ran.attempt) && Valid() && view == ran.ledger && trail == ran.trail
        case Err(e) => r == Err(e)
    {
      var vendorId, operatorId := Trim(input.vendorId), Trim(input.operatorId);
      var given := input.paymentIdentifier.Some? && input.paymentIdentifier.value != "";
      if input.amountCents <= 0 { return Err(Validation), []; }
      if vendorId == [] { return Err(Validation), []; }
      if operatorId == [] { return Err(Validation), []; }
      if given && Trim(input.paymentIdentifier.value) == [] { return Err(Validation), []; }
      var i := FindMandate(input.mandateId);
      if i < 0 { return Err(NotFound), []; }
      if given {
        var e := FindIdentifier(input.paymentIdentifier.value);
        if e >= 0 {
          var a := attempts[e];
          if a.mandateId != input.mandateId || a.vendorId != vendorId || a.amountCents != input.amountCents || a.operatorId != operatorId {
            return Err(IdentifierConflict), [];
          }
          return Ok(a), [];
        }
      }
      r, trail := RunNew(i, input, if input.paymentIdentifier.Some? then input.paymentIdentifier.value else freshIdentifier, treasury, now);
    }

    /** A request whose identifier is on no attempt; one stored under an empty identifier is refused on the write. */
    method RunNew(i: nat, input: L.RunInput, identifier: string, treasury: L.Treasury, now: Millis)
      returns (r: Result<Attempt>, trail: seq<AttemptStatus>)
      requires Valid() && NoneEmpty(view) && i < |mandates| && input.mandateId in view.mandates
      requires view.mandates[input.mandateId] == mandates[i] && mandates[i].id == input.mandateId
      requires forall b :: !L.UsesIdentifier(view.attempts, b, identifier)
      modifies this
      ensures r.Ok? ==> NoneEmpty(view)
      ensures
        match L.RunNew(old(view), input, identifier, treasury, now)
        case Ok(ran) => r == Ok(ran.attempt) && Valid() && view == ran.ledger && trail == ran.trail
        case Err(e) => r == Err(e)
    {
      var vendor := FindVendor(Trim(input.vendorId));
      if vendor.None? { return Err(NotFound), []; }
      var attempt := L.MaterializeAttempt(nextId, input.mandateId, vendor.value.id, Trim(input.operatorId), input.amountCents,
                                          identifier, now);
      NextIsUnused();
      NewRequestIsAdmitted(view, input, identifier, vendor.value, treasury, now);
      r, trail := Decide(i, attempt, vendor.value, treasury, now);
      if r.Ok? && identifier == "" { return Err(IntegrityRejected), trail; }
    }

    lemma NextIsUnused()
      requires Valid()
      ensures view.nextId == nextId && nextId !in view.attempts && forall t :: t in view.tasks ==> t < view.nextId
    {
      LatestHasTheRows(attempts, AttemptKey);
      LatestHasTheRows(workerTasks, TaskKey);
    }

    // ---- worker tasks ----

    /** The first task of this kind and attempt that is queued or leased, or -1. */
    method FindLiveTask(kind: TaskKind, attemptId: Id) returns (i: int)
      requires Valid()
      ensures -1 <= i < |workerTasks|
      ensures L.FindsLive(view.tasks, kind, attemptId, if i >= 0 then Some(workerTasks[i].id) else None)
    {
      LatestHasTheRows(workerTasks, TaskKey);
      for j := 0 to |workerTasks|
        invariant forall n :: 0 <= n < j ==> !Live(workerTasks[n], kind, attemptId)
      {
        if Live(workerTasks[j], kind, attemptId) {
          DistinctRowsAreFound(workerTasks, TaskKey, workerTasks[j]);
          return j;
        }
      }
      forall t ensures !L.LiveTask(view.tasks, t, kind, attemptId) {
        if t in view.tasks { assert view.tasks[t] in workerTasks; }
      }
      return -1;
    }

    predicate Live(t: Task, kind: TaskKind, attemptId: Id) {
      t.kind == kind && t.attemptId == attemptId && (t.status == Queued || t.status == Leased)
    }

    method EnqueueWorkerTask(kind: TaskKind, mandateId: Id, attemptId: Id, operatorId: Option<string>, now: Millis)
      returns (id: Id, ghost found: Option<Id>)
      requires Valid()
      modifies this`workerTasks, this`domainEvents, this`nextId, this`view
      ensures L.FindsLive(old(view).tasks, kind, attemptId, found)
      ensures Valid() && L.EnqueueWorkerTask(old(view), kind, mandateId, attemptId, operatorId, found, now) == L.Enqueued(view, id)
    {
      var i := FindLiveTask(kind, attemptId);
      if i >= 0 {
        return workerTasks[i].id, Some(workerTasks[i].id);
      }
      found := None;
      id := CreateId();
      AddTask(L.NewTask(id, kind, attemptId, mandateId, operatorId, now, now));
      PushEvent(OfTask, id, EvtTaskEnqueued, now);
    }

    method EnsureReconciliationQueued(mandateId: Id, attemptId: Id, now: Millis) returns (r: Result<Id>, ghost found: Option<Id>)
      requires Valid()
      modifies this
      ensures L.FindsLive(old(view).tasks, ReconcileAttempt, attemptId, found)
      ensures
        match L.EnsureReconciliationQueued(old(view), mandateId, attemptId, found, now)
        case Ok(l) => r.Ok? && r.value in view.tasks && Valid() && view == l
        case Err(e) => r == Err(e)
    {
      var a := FindAttempt(attemptId);
      var m := FindMandate(mandateId);
      found := L.FindLive(view.tasks, ReconcileAttempt, attemptId);
      if a < 0 || m < 0 { return Err(NotFound), found; }
      if attempts[a].mandateId != mandates[m].id { return Err(NotFound), found; }
      if attempts[a].status != ExecutionUnknown { return Err(NotReconcilable), found; }
      var id, f := EnqueueWorkerTask(ReconcileAttempt, mandateId, attemptId, Some(attempts[a].operatorId), now);
      return Ok(id), f;
    }

    /** Of those that may be leased among the first `n` tasks the oldest, and of equally old ones the first in the list,
        as a stable sort gives it. */
    ghost predicate IsPick(best: int, n: nat, kind: TaskKind, now: Millis)
      requires n <= |workerTasks|
      reads this
    {
      && -1 <= best < n
      && (best < 0 ==> forall j :: 0 <= j < n ==> !MayBeLeased(workerTasks[j], kind, now))
      && (best >= 0 ==>
            && MayBeLeased(workerTasks[best], kind, now)
            && (forall j :: 0 <= j < n && MayBeLeased(workerTasks[j], kind, now) ==>
                  workerTasks[best].createdAt <= workerTasks[j].createdAt)
            && (forall j :: 0 <= j < best && MayBeLeased(workerTasks[j], kind, now) ==>
                  workerTasks[best].createdAt < workerTasks[j].createdAt))
    }

    method PickTask(kind: TaskKind, now: Millis) returns (best: int)
      requires Valid()
      ensures IsPick(best, |workerTasks|, kind, now)
    {
      best := -1;
      for i := 0 to |workerTasks|
        invariant IsPick(best, i, kind, now)
      {
        var t := workerTasks[i];
        if L.Eligible(t, kind, now) && (best < 0 || t.createdAt < workerTasks[best].createdAt) {
          best := i;
        }
      }
    }

    lemma PickedIsNext(best: nat, kind: TaskKind, now: Millis)
      requires Valid() && best < |workerTasks| && MayBeLeased(workerTasks[best], kind, now)
      requires forall j :: 0 <= j < |workerTasks| && MayBeLeased(workerTasks[j], kind, now) ==>
        workerTasks[best].createdAt <= workerTasks[j].createdAt
      ensures OldestToLease(view.tasks, kind, now, workerTasks[best].id) && view.tasks[workerTasks[best].id] == workerTasks[best]
    {
      LatestHasTheRows(workerTasks, TaskKey);
      DistinctRowsAreFound(workerTasks, TaskKey, workerTasks[best]);
      forall u | u in view.tasks && MayBeLeased(view.tasks[u], kind, now) ensures workerTasks[best].createdAt <= view.tasks[u].createdAt {
        assert view.tasks[u] in workerTasks;
      }
    }

    lemma NoneIsNext(kind: TaskKind, now: Millis)
      requires Valid() && forall j :: 0 <= j < |workerTasks| ==> !MayBeLeased(workerTasks[j], kind, now)
      ensures forall t :: t in view.tasks ==> !MayBeLeased(view.tasks[t], kind, now)
    {
      LatestHasTheRows(workerTasks, TaskKey);
      forall t | t in view.tasks ensures !MayBeLeased(view.tasks[t], kind, now) {
        assert view.tasks[t] in workerTasks;
      }
    }

    /** Leases the next eligible task; None when there is none. */
    method LeaseNextWorkerTask(kind: TaskKind, workerName: string, now: Millis) returns (r: Result<Option<Claim>>)
      requires Valid()
      modifies this
      ensures r == Ok(None) <==> forall t :: t in old(view).tasks ==> !MayBeLeased(old(view).tasks[t], kind, now)
      ensures r == Ok(None) ==> Valid() && view == old(view)
      ensures r.Ok? && r.value.Some? ==>
        var c := r.value.value;
        && OldestToLease(old(view).tasks, kind, now, c.taskId) && Valid()
        && L.LeaseTask(old(view), c.taskId, workerName, now) == Ok(L.Lease(view, c))
        && old(view).tasks[c.taskId].attemptId in old(view).attempts && view == old(view).(tasks := view.tasks)
        && c.taskId in view.tasks && view.tasks == old(view).tasks[c.taskId := view.tasks[c.taskId]]
        && LeasesRow(old(view).tasks[c.taskId], old(view).attempts[old(view).tasks[c.taskId].attemptId], view.tasks[c.taskId], c,
                     workerName, now)
      ensures r.Err? ==> r == Err(Missing) && exists t :: OldestToLease(old(view).tasks, kind, now, t)
                                                          && old(view).tasks[t].attemptId !in old(view).attempts
    {
      var i := PickTask(kind, now);
      if i < 0 {
        NoneIsNext(kind, now);
        return Ok(None);
      }
      PickedIsNext(i, kind, now);
      assert view.tasks[workerTasks[i].id] == workerTasks[i] && MayBeLeased(view.tasks[workerTasks[i].id], kind, now);
      var task := L.LeasedTask(workerTasks[i], workerName, now);
      var a := FindAttempt(task.attemptId);
      if a < 0 { return Err(Missing); }
      SetTask(i, task);
      return Ok(Some(L.ClaimOf(task, attempts[a])));
    }

    method CompleteWorkerTask(taskId: Id, now: Millis) returns (r: Result<()>)
      requires Valid()
      modifies this
      ensures
        match L.CompleteTask(old(view), taskId, now)
        case Ok(l) => r == Ok(()) && Valid() && view == l
        case Err(e) => r == Err(e)
    {
      var i := FindTask(taskId);
      if i < 0 { return Err(NotFound); }
      SetTask(i, workerTasks[i].(status := Completed, leaseOwner := None, leaseExpiresAt := None, updatedAt := now,
                                 completedAt := Some(now)));
      PushEvent(OfTask, taskId, EvtTaskCompleted, now);
      return Ok(());
    }

    method FailWorkerTask(taskId: Id, now: Millis) returns (r: Result<()>)
      requires Valid()
      modifies this
      ensures
        match L.FailTask(old(view), taskId, now)
        case Ok(l) => r == Ok(()) && Valid() && view == l
        case Err(e) => r == Err(e)
    {
      var i := FindTask(taskId);
      if i < 0 { return Err(NotFound); }
      SetTask(i, workerTasks[i].(status := Failed, leaseOwner := None, leaseExpiresAt := None, updatedAt := now,
                                 completedAt := Some(now)));
      PushEvent(OfTask, taskId, EvtTaskFailed, now);
      return Ok(());
    }

    method RequeueWorkerTask(taskId: Id, now: Millis) returns (r: Result<()>)
      requires Valid()
      modifies this
      ensures
        match L.RequeueTask(old(view), taskId, now)
        case Ok(l) => r == Ok(()) && Valid() && view == l
        case Err(e) => r == Err(e)
    {
      var i := FindTask(taskId);
      if i < 0 { return Err(NotFound); }
      SetTask(i, workerTasks[i].(status := Queued, leaseOwner := None, leaseExpiresAt := None,
                                 availableAt := now + L.RECONCILIATION_RETRY_DELAY_MS, updatedAt := now));
      PushEvent(OfTask, taskId, EvtTaskRequeued, now);
      return Ok(());
    }

    // ---- the execution worker's transactions ----

    method BeginDispatch(c: Claim, now: Millis) returns (r: Result<()>)
      requires Valid()
      modifies this
      ensures
        match L.BeginDispatch(old(view), c, now)
        case Ok(l) => r == Ok(()) && Valid() && view == l
        case Err(e) => r == Err(e) && Valid() && view == old(view)
    {
      var i := FindAttempt(c.attemptId);
      if i < 0 { return Err(Missing); }
      if !CanTransitionAttempt(attempts[i].status, Dispatching) { return Err(InvalidTransition); }
      SetAttempt(i, attempts[i].(status := Dispatching, financialOutcome := Dispatching, updatedAt := now));
      PushNote(c.mandateId, c.attemptId, AuditAttemptDispatched, EvtDispatched(c.taskId), now);
      return Ok(());
    }

    method GetDispatchPreflightFailure(c: Claim, now: Millis) returns (r: Result<Option<BlockedReason>>)
      requires Valid()
      ensures r == L.PreflightFailure(view, c, now)
    {
      var m := FindMandate(c.mandateId);
      var a := FindAttempt(c.attemptId);
      if m < 0 || a < 0 { return Err(Missing); }
      var mandate := mandates[m];
      if mandate.expiresAt <= now || mandate.status == Expired { return Ok(Some(MandateExpiredBeforeDispatch)); }
      if mandate.status == Revoking || mandate.status == Revoked { return Ok(Some(MandateRevokedBeforeDispatch)); }
      if mandate.status != IssuedReserved { return Ok(Some(MandateNotDispatchable)); }
      if attempts[a].status != Dispatching { return Ok(Some(AttemptNotDispatchable)); }
      return Ok(None);
    }

    method PushOutcome(c: Claim, evidence: ReceiptEvidence, status: AttemptStatus, finalCents: int, now: Millis)
      requires Valid()
      modifies this`auditEntries, this`domainEvents, this`nextId, this`view
      ensures Valid() && view == L.OutcomeNotes(old(view), c, evidence, status, finalCents, now)
    {
      PushNote(c.mandateId, c.attemptId, AuditReceiptUpdated, EvtReceiptUpdated(evidence), now);
      PushNote(c.mandateId, c.attemptId, AuditFinancialOutcome, EvtFinancialOutcome(status, finalCents), now);
    }

    /** The rows of attempt and mandate as the vendor's answer leaves them. */
    method SettleRows(m: nat, a: nat, c: Claim, result: DispatchResult, now: Millis) returns (finalCents: int)
      requires Valid() && m < |mandates| && a < |attempts| && mandates[m].id == c.mandateId && attempts[a].id == c.attemptId
      requires c.mandateId in view.mandates && view.mandates[c.mandateId] == mandates[m]
      requires c.attemptId in view.attempts && view.attempts[c.attemptId] == attempts[a]
      modifies this`mandates, this`attempts, this`view
      ensures Valid() && view == L.Settle(old(view), c, result, now)
      ensures finalCents == L.ResolveSettledAmountCents(c.amountCents, result.FinalAmount())
    {
      var attempt, mandate := attempts[a], mandates[m];
      attempt := attempt.(status := result.Status(), financialOutcome := result.Status(), chargeReference := result.Reference(),
                          receiptEvidence := result.evidence, updatedAt := now);
      finalCents := L.ResolveSettledAmountCents(c.amountCents, result.FinalAmount());
      if result.Status() == ChargeSucceeded {
        mandate := mandate.(reservedCents := mandate.reservedCents - c.amountCents);
        mandate := mandate.(consumedCents := mandate.consumedCents + finalCents);
        mandate := mandate.(status := L.NextMandateStatusAfterResolution(mandate.status));
      } else if result.Status() == ChargeFailed {
        mandate := mandate.(reservedCents := mandate.reservedCents - c.amountCents);
        mandate := mandate.(status := L.NextMandateStatusAfterResolution(mandate.status));
      }
      mandate := mandate.(updatedAt := now);
      assert mandate == L.SettledMandate(mandates[m], c, result, now) && attempt == L.SettledAttempt(attempts[a], result, now);
      SetAttempt(a, attempt);
      SetMandate(m, mandate);
    }

    method ApplyDispatchResult(c: Claim, result: DispatchResult, now: Millis) returns (r: Result<()>, ghost found: Option<Id>)
      requires Valid()
      modifies this
      ensures L.FindsLive(old(view).tasks, ReconcileAttempt, c.attemptId, found)
      ensures
        match L.ApplyDispatchResult(old(view), c, result, found, now)
        case Ok(l) => r == Ok(()) && Valid() && view == l
        case Err(e) => r == Err(e)
      ensures r.Ok? ==>
        && S.OnlyTheClaimed(old(view), view, c)
        && S.AttemptAnswered(old(view).attempts[c.attemptId], view.attempts[c.attemptId], result, now)
        && S.MandateAnswered(old(view).mandates[c.mandateId], view.mandates[c.mandateId], c.amountCents, result, now)
    {
      if S.Claimed(view, c) { S.AnsweredRows(view, c, result, now); }
      found := L.FindLive(view.tasks, ReconcileAttempt, c.attemptId);
      var m := FindMandate(c.mandateId);
      var a := FindAttempt(c.attemptId);
      if m < 0 || a < 0 { return Err(Missing), found; }
      if !CanTransitionAttempt(attempts[a].status, result.Status()) { return Err(InvalidTransition), found; }
      var operatorId := attempts[a].operatorId;
      var finalCents := SettleRows(m, a, c, result, now);
      if result.Status() == ExecutionUnknown {
        PushAudit(c.mandateId, AuditReconciliationStarted, Some(c.attemptId), now);
        var task;
        task, found := EnqueueWorkerTask(ReconcileAttempt, c.mandateId, c.attemptId, Some(operatorId), now);
        PushEvent(OfAttempt, c.attemptId, EvtReconciliationStarted(task, result.payloadJson, result.requirementsJson), now);
      }
      PushOutcome(c, result.evidence, result.Status(), finalCents, now);
      if result.Status() != ExecutionUnknown {
        PushNote(c.mandateId, c.attemptId, AuditAttemptReconciled, EvtReconciled(result.Status()), now);
      }
      return Ok(()), found;
    }

    method ReleaseRows(m: nat, a: nat, c: Claim, reason: BlockedReason, now: Millis)
      requires Valid() && m < |mandates| && a < |attempts| && mandates[m].id == c.mandateId && attempts[a].id == c.attemptId
      requires c.mandateId in view.mandates && view.mandates[c.mandateId] == mandates[m]
      requires c.attemptId in view.attempts && view.attempts[c.attemptId] == attempts[a]
      modifies this`mandates, this`attempts, this`view
      ensures Valid() && view == L.Release(old(view), c, reason, now)
    {
      var attempt, mandate := attempts[a], mandates[m];
      attempt := attempt.(status := CancelledReleased, financialOutcome := CancelledReleased, receiptEvidence := NotRequired,
                          blockedReason := Some(reason), updatedAt := now);
      mandate := mandate.(reservedCents := L.Max(0, mandate.reservedCents - c.amountCents));
      mandate := mandate.(status := L.NextMandateStatusAfterResolution(mandate.status), updatedAt := now);
      assert mandate == L.ReleasedMandate(mandates[m], c, now) && attempt == L.ReleasedAttempt(attempts[a], reason, now);
      SetAttempt(a, attempt);
      SetMandate(m, mandate);
    }

    method ReleaseDispatch(c: Claim, reason: BlockedReason, now: Millis) returns (r: Result<()>)
      requires Valid()
      modifies this
      ensures
        match L.ReleaseDispatch(old(view), c, reason, now)
        case Ok(l) => r == Ok(()) && Valid() && view == l
        case Err(e) => r == Err(e)
      ensures r.Ok? ==>
        && S.OnlyTheClaimed(old(view), view, c)
        && S.AttemptReleased(old(view).attempts[c.attemptId], view.attempts[c.attemptId], reason, now)
        && S.MandateReleased(old(view).mandates[c.mandateId], view.mandates[c.mandateId], c.amountCents, now)
    {
      if S.Claimed(view, c) { S.ReleasedRows(view, c, reason, now); }
      var m := FindMandate(c.mandateId);
      var a := FindAttempt(c.attemptId);
      if m < 0 || a < 0 { return Err(Missing); }
      if !CanTransitionAttempt(attempts[a].status, CancelledReleased) { return Err(InvalidTransition); }
      ReleaseRows(m, a, c, reason, now);
      PushNote(c.mandateId, c.attemptId, AuditAttemptBlocked, EvtWorkerFailed, now);
      return Ok(());
    }

    // ---- the reconciliation worker's transactions ----

    /** The payload of the first event that recorded one for this attempt. */
    method FindPayload(attemptId: Id) returns (r: Option<(string, string)>)
      requires Valid()
      ensures r == P.FirstStarted(view.events, attemptId)
    {
      assert domainEvents[0..] == domainEvents;
      for i := 0 to |domainEvents|
        invariant P.FirstStarted(domainEvents, attemptId) == P.FirstStarted(domainEvents[i..], attemptId)
      {
        var e := domainEvents[i];
        assert domainEvents[i..][1..] == domainEvents[i + 1..];
        if e.entityType == OfAttempt && e.entityId == attemptId && e.kind.EvtReconciliationStarted? {
          return Some((e.kind.payloadJson, e.kind.requirementsJson));
        }
      }
      return None;
    }

    method ResolveRows(m: nat, a: nat, c: Claim, result: CorrelationResult, now: Millis) returns (finalCents: int)
      requires Valid() && m < |mandates| && a < |attempts| && mandates[m].id == c.mandateId && attempts[a].id == c.attemptId
      requires c.mandateId in view.mandates && view.mandates[c.mandateId] == mandates[m]
      requires c.attemptId in view.attempts && view.attempts[c.attemptId] == attempts[a]
      modifies this`mandates, this`attempts, this`view
      ensures Valid() && view == L.Resolve(old(view), c, result, now)
      ensures finalCents == L.ResolveSettledAmountCents(c.amountCents, result.finalAmount)
    {
      var attempt, mandate := attempts[a], mandates[m];
      attempt := attempt.(status := result.Status(), financialOutcome := result.Status(), receiptEvidence := result.evidence,
                          chargeReference := if result.reference.Some? then result.reference else attempt.chargeReference,
                          updatedAt := now);
      finalCents := L.ResolveSettledAmountCents(c.amountCents, result.finalAmount);
      if result.Status() == ChargeSucceeded {
        mandate := mandate.(consumedCents := mandate.consumedCents + finalCents);
      }
      mandate := mandate.(reservedCents := L.Max(0, mandate.reservedCents - c.amountCents));
      mandate := mandate.(status := L.NextMandateStatusAfterResolution(mandate.status), updatedAt := now);
      assert mandate == L.ResolvedMandate(mandates[m], c, result, now) && attempt == L.ResolvedAttempt(attempts[a], result, now);
      SetAttempt(a, attempt);
      SetMandate(m, mandate);
    }

    method ApplyReconciliationResult(c: Claim, result: CorrelationResult, now: Millis) returns (r: Result<()>)
      requires Valid()
      modifies this
      ensures
        match L.ApplyReconciliationResult(old(view), c, result, now)
        case Ok(l) => r == Ok(()) && Valid() && view == l
        case Err(e) => r == Err(e)
      ensures r.Ok? ==>
        && S.OnlyTheClaimed(old(view), view, c)
        && S.AttemptResolved(old(view).attempts[c.attemptId], view.attempts[c.attemptId], result, now)
        && S.MandateResolved(old(view).mandates[c.mandateId], view.mandates[c.mandateId], c.amountCents, result, now)
    {
      S.ReconciliationSettles(view, c, result, now);
      var m := FindMandate(c.mandateId);
      var a := FindAttempt(c.attemptId);
      if m < 0 || a < 0 { return Err(Missing); }
      if attempts[a].status != ExecutionUnknown { return Err(NotReconcilable); }
      var finalCents := ResolveRows(m, a, c, result, now);
      PushOutcome(c, result.evidence, result.Status(), finalCents, now);
      PushNote(c.mandateId, c.attemptId, AuditAttemptReconciled, EvtReconciled(result.Status()), now);
      return Ok(());
    }
  }
}

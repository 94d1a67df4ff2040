/** Cross-references: every id a row or entry mentions exists and agrees, and no id is used twice.
    Together with `Money` this is what the integrity check of every read and write looks for. */
module References {
  import opened Domain
  import opened Policy
  import opened Ledger
  import opened Money

  ghost predicate MandateRefOk(agents: map<string, Agent>, m: Mandate) {
    && m.agentId in agents && m.agentName == agents[m.agentId].name
    && (forall v :: v in m.approvedVendorIds ==> Registered(v))
    && (forall i, j :: 0 <= i < j < |m.approvedVendorIds| ==> m.approvedVendorIds[i] != m.approvedVendorIds[j])
  }

  ghost predicate TaskOk(ats: map<Id, Attempt>, t: Task, id: Id) {
    && t.id == id && t.attemptId in ats && ats[t.attemptId].mandateId == t.mandateId
    && (t.operatorId.Some? ==> t.operatorId.value == ats[t.attemptId].operatorId)
  }

  ghost predicate AuditTarget(ms: map<Id, Mandate>, ats: map<Id, Attempt>, m: Id, a: Option<Id>) {
    m in ms && (a.Some? ==> a.value in ats && ats[a.value].mandateId == m)
  }

  ghost predicate EventTarget(ms: map<Id, Mandate>, ats: map<Id, Attempt>, ts: map<Id, Task>, et: EntityType, id: Id) {
    && (et == OfMandate ==> id in ms) && (et == OfAttempt ==> id in ats) && (et == OfTask ==> id in ts)
  }

  /** Newest first, with ids that were never used before. */
  ghost predicate AuditsDescend(xs: seq<Audit>, bound: Id) {
    xs == [] || (xs[0].id < bound && AuditsDescend(xs[1..], xs[0].id))
  }

  ghost predicate EventsDescend(xs: seq<Event>, bound: Id) {
    xs == [] || (xs[0].id < bound && EventsDescend(xs[1..], xs[0].id))
  }

  ghost predicate AgentsOk(agents: map<string, Agent>) {
    forall g :: g in agents ==> agents[g].id == g
  }

  ghost predicate IdentifierOk(ats: map<Id, Attempt>, a: Id) {
    && a in ats && !Blank(ats[a].paymentIdentifier)
    && forall b :: UsesIdentifier(ats, b, ats[a].paymentIdentifier) ==> b == a
  }

  ghost predicate RowsOk(l: Ledger) {
    && AgentsOk(l.agents)
    && (forall m {:trigger MandateRefOk(l.agents, l.mandates[m])} :: m in l.mandates ==> MandateRefOk(l.agents, l.mandates[m]))
    && (forall a {:trigger IdentifierOk(l.attempts, a)} :: a in l.attempts ==> IdentifierOk(l.attempts, a))
    && (forall t {:trigger TaskOk(l.attempts, l.tasks[t], t)} :: t in l.tasks ==> TaskOk(l.attempts, l.tasks[t], t) && t < l.nextId)
  }

  /** The entries of `l` are in order and refer to rows of the given tables. */
  ghost predicate Entries(l: Ledger, ms: map<Id, Mandate>, ats: map<Id, Attempt>, ts: map<Id, Task>) {
    && AuditsDescend(l.audits, l.nextId) && EventsDescend(l.events, l.nextId)
    && (forall x {:trigger AuditTarget(ms, ats, x.mandateId, x.attemptId)} ::
          x in l.audits ==> AuditTarget(ms, ats, x.mandateId, x.attemptId))
    && (forall e {:trigger EventTarget(ms, ats, ts, e.entityType, e.entityId)} ::
          e in l.events ==> EventTarget(ms, ats, ts, e.entityType, e.entityId))
  }

  ghost predicate RefInv(l: Ledger) {
    RowsOk(l) && Entries(l, l.mandates, l.attempts, l.tasks)
  }

  // ---- entries ----

  lemma WithAuditKeepsEntries(l: Ledger, m: Id, kind: AuditKind, a: Option<Id>, now: Millis,
                              ms: map<Id, Mandate>, ats: map<Id, Attempt>, ts: map<Id, Task>)
    requires Entries(l, ms, ats, ts) && AuditTarget(ms, ats, m, a)
    ensures Entries(WithAudit(l, m, kind, a, now), ms, ats, ts)
  {
    var l' := WithAudit(l, m, kind, a, now);
    assert l'.audits[1..] == l.audits;
    forall x | x in l'.audits ensures AuditTarget(ms, ats, x.mandateId, x.attemptId) {
      assert x == l'.audits[0] || x in l.audits;
    }
    assert EventsDescend(l.events, l'.nextId);
  }

  lemma WithEventKeepsEntries(l: Ledger, et: EntityType, id: Id, kind: EventKind, now: Millis,
                              ms: map<Id, Mandate>, ats: map<Id, Attempt>, ts: map<Id, Task>)
    requires Entries(l, ms, ats, ts) && EventTarget(ms, ats, ts, et, id)
    ensures Entries(WithEvent(l, et, id, kind, now), ms, ats, ts)
  {
    var l' := WithEvent(l, et, id, kind, now);
    assert l'.events[1..] == l.events;
    forall e | e in l'.events ensures EventTarget(ms, ats, ts, e.entityType, e.entityId) {
      assert e == l'.events[0] || e in l.events;
    }
    assert AuditsDescend(l.audits, l'.nextId);
  }

  /** An audit entry and a domain event about the same attempt, as most steps write them. */
  lemma NoteKeepsEntries(l: Ledger, m: Id, a: Id, audit: AuditKind, kind: EventKind, now: Millis,
                         ms: map<Id, Mandate>, ats: map<Id, Attempt>, ts: map<Id, Task>)
    requires Entries(l, ms, ats, ts) && AuditTarget(ms, ats, m, Some(a))
    ensures Entries(WithEvent(WithAudit(l, m, audit, Some(a), now), OfAttempt, a, kind, now), ms, ats, ts)
  {
    WithAuditKeepsEntries(l, m, audit, Some(a), now, ms, ats, ts);
    WithEventKeepsEntries(WithAudit(l, m, audit, Some(a), now), OfAttempt, a, kind, now, ms, ats, ts);
  }

  // ---- rows ----

  /** Rows may be added and may change, but not in what others refer to. */
  ghost predicate KeepsRefs(l: Ledger, l': Ledger) {
    && l'.agents == l.agents && l.nextId <= l'.nextId
    && (forall m :: m in l.mandates ==> m in l'.mandates && SameMandateRefs(l.mandates[m], l'.mandates[m]))
    && (forall a :: a in l.attempts ==> a in l'.attempts && SameAttemptRefs(l.attempts[a], l'.attempts[a]))
    && (forall t :: t in l.tasks ==> t in l'.tasks && SameTaskRefs(l.tasks[t], l'.tasks[t]))
  }

  ghost predicate SameMandateRefs(m: Mandate, m': Mandate) {
    m'.agentId == m.agentId && m'.agentName == m.agentName && m'.approvedVendorIds == m.approvedVendorIds
  }

  ghost predicate SameAttemptRefs(a: Attempt, a': Attempt) {
    a'.mandateId == a.mandateId && a'.operatorId == a.operatorId && a'.paymentIdentifier == a.paymentIdentifier
  }

  ghost predicate SameTaskRefs(t: Task, t': Task) {
    t'.id == t.id && t'.attemptId == t.attemptId && t'.mandateId == t.mandateId && t'.operatorId == t.operatorId
  }

  lemma EntriesSurvive(l: Ledger, l': Ledger)
    requires RefInv(l) && KeepsRefs(l, l')
    ensures Entries(l, l'.mandates, l'.attempts, l'.tasks)
  {
    forall x | x in l.audits ensures AuditTarget(l'.mandates, l'.attempts, x.mandateId, x.attemptId) {
      assert AuditTarget(l.mandates, l.attempts, x.mandateId, x.attemptId);
    }
    forall e | e in l.events ensures EventTarget(l'.mandates, l'.attempts, l'.tasks, e.entityType, e.entityId) {
      assert EventTarget(l.mandates, l.attempts, l.tasks, e.entityType, e.entityId);
    }
  }

  /** Identifiers do not change, and at most one new attempt brings a new one. */
  lemma IdentifiersStayOk(ats: map<Id, Attempt>, ats': map<Id, Attempt>, added: Option<Id>)
    requires forall a {:trigger IdentifierOk(ats, a)} :: a in ats ==> IdentifierOk(ats, a)
    requires forall a :: a in ats ==> a in ats' && ats'[a].paymentIdentifier == ats[a].paymentIdentifier
    requires forall a :: a in ats' ==> a in ats || added == Some(a)
    requires added.Some? ==>
      && added.value in ats' && !Blank(ats'[added.value].paymentIdentifier)
      && forall b :: !UsesIdentifier(ats, b, ats'[added.value].paymentIdentifier)
    ensures forall a {:trigger IdentifierOk(ats', a)} :: a in ats' ==> IdentifierOk(ats', a)
  {
    forall a | a in ats' ensures IdentifierOk(ats', a) {
      if a in ats {
        assert IdentifierOk(ats, a);
      }
      forall b | UsesIdentifier(ats', b, ats'[a].paymentIdentifier) ensures b == a {
        if b in ats {
          assert UsesIdentifier(ats, b, ats'[a].paymentIdentifier);
        } else if a in ats {
          assert UsesIdentifier(ats, a, ats'[b].paymentIdentifier);
        }
      }
    }
  }

  /** Old rows only changed in what nothing refers to; there are no new ones. */
  lemma UpdateKeepsRows(l: Ledger, l': Ledger)
    requires RefInv(l) && KeepsRefs(l, l')
    requires l'.mandates.Keys == l.mandates.Keys && l'.attempts.Keys == l.attempts.Keys && l'.tasks.Keys == l.tasks.Keys
    ensures RowsOk(l') && Entries(l, l'.mandates, l'.attempts, l'.tasks)
  {
    EntriesSurvive(l, l');
    IdentifiersStayOk(l.attempts, l'.attempts, None);
    forall m | m in l'.mandates ensures MandateRefOk(l'.agents, l'.mandates[m]) {
      assert MandateRefOk(l.agents, l.mandates[m]);
    }
    forall t | t in l'.tasks ensures TaskOk(l'.attempts, l'.tasks[t], t) && t < l'.nextId {
      assert TaskOk(l.attempts, l.tasks[t], t);
    }
  }

  lemma NewMandateKeepsRows(l: Ledger, l': Ledger, m: Mandate)
    requires RefInv(l) && m.id !in l.mandates && MandateRefOk(l.agents, m) && l.nextId <= l'.nextId
    requires l'.agents == l.agents && l'.mandates == l.mandates[m.id := m] && l'.attempts == l.attempts && l'.tasks == l.tasks
    ensures RowsOk(l') && Entries(l, l'.mandates, l'.attempts, l'.tasks)
  {
    EntriesSurvive(l, l');
    IdentifiersStayOk(l.attempts, l'.attempts, None);
    forall n | n in l'.mandates ensures MandateRefOk(l'.agents, l'.mandates[n]) {
      if n != m.id { assert MandateRefOk(l.agents, l.mandates[n]); }
    }
    forall t | t in l'.tasks ensures TaskOk(l'.attempts, l'.tasks[t], t) && t < l'.nextId {
      assert TaskOk(l.attempts, l.tasks[t], t);
    }
  }

  ghost predicate NewIdentifier(l: Ledger, a: Attempt) {
    a.id !in l.attempts && !Blank(a.paymentIdentifier) && forall b :: !UsesIdentifier(l.attempts, b, a.paymentIdentifier)
  }

  /** A new attempt, and mandates changed in what nothing refers to. */
  lemma NewAttemptKeepsRows(l: Ledger, l': Ledger, a: Attempt)
    requires RefInv(l) && NewIdentifier(l, a) && KeepsRefs(l, l')
    requires l'.mandates.Keys == l.mandates.Keys && l'.attempts == l.attempts[a.id := a] && l'.tasks == l.tasks
    ensures RowsOk(l') && Entries(l, l'.mandates, l'.attempts, l'.tasks)
  {
    EntriesSurvive(l, l');
    forall n | n in l'.mandates ensures MandateRefOk(l'.agents, l'.mandates[n]) {
      assert MandateRefOk(l.agents, l.mandates[n]);
    }
    forall t | t in l'.tasks ensures TaskOk(l'.attempts, l'.tasks[t], t) && t < l'.nextId {
      assert TaskOk(l.attempts, l.tasks[t], t);
    }
    IdentifiersStayOk(l.attempts, l'.attempts, Some(a.id));
  }

  lemma NewTaskKeepsRows(l: Ledger, l': Ledger, t: Task)
    requires RowsOk(l) && t.id < l'.nextId && l.nextId <= l'.nextId && TaskOk(l.attempts, t, t.id)
    requires l'.agents == l.agents && l'.mandates == l.mandates && l'.attempts == l.attempts && l'.tasks == l.tasks[t.id := t]
    ensures RowsOk(l')
  {
    forall n | n in l'.mandates ensures MandateRefOk(l'.agents, l'.mandates[n]) {
      assert MandateRefOk(l.agents, l.mandates[n]);
    }
    forall u | u in l'.tasks ensures TaskOk(l'.attempts, l'.tasks[u], u) && u < l'.nextId {
      if u != t.id { assert TaskOk(l.attempts, l.tasks[u], u); }
    }
  }

  /** A task that does not exist yet may already be named. */
  lemma MoreTasksKeepEntries(l: Ledger, ms: map<Id, Mandate>, ats: map<Id, Attempt>, ts: map<Id, Task>, ts': map<Id, Task>)
    requires Entries(l, ms, ats, ts) && ts.Keys <= ts'.Keys
    ensures Entries(l, ms, ats, ts')
  {
    forall e | e in l.events ensures EventTarget(ms, ats, ts', e.entityType, e.entityId) {
      assert EventTarget(ms, ats, ts, e.entityType, e.entityId);
    }
  }

  // ---- operators ----

  lemma CreateKeepsRefs(l: Ledger, input: CreateInput, anchor: Option<string>, now: Millis)
    requires Sound(l) && RefInv(l) && CreateMandate(l, input, anchor, now).Ok?
    ensures RefInv(CreateMandate(l, input, anchor, now).value.ledger)
  {
    var l' := CreateMandate(l, input, anchor, now).value.ledger;
    NewMandateKeepsRows(l, l', l'.mandates[l.nextId]);
    var l1 := l.(mandates := l'.mandates, nextId := l.nextId + 1);
    WithAuditKeepsEntries(l1, l.nextId, AuditMandateIssued, None, now, l'.mandates, l'.attempts, l'.tasks);
    WithEventKeepsEntries(WithAudit(l1, l.nextId, AuditMandateIssued, None, now), OfMandate, l.nextId, MandateIssued, now,
                          l'.mandates, l'.attempts, l'.tasks);
  }

  lemma RevokeKeepsRefs(l: Ledger, mandateId: Id, anchor: Option<string>, now: Millis)
    requires RefInv(l) && RevokeMandate(l, mandateId, anchor, now).Ok?
    ensures RefInv(RevokeMandate(l, mandateId, anchor, now).value.ledger)
  {
    var l' := RevokeMandate(l, mandateId, anchor, now).value.ledger;
    UpdateKeepsRows(l, l');
    var l1 := l.(mandates := l'.mandates);
    WithAuditKeepsEntries(l1, mandateId, AuditMandateRevoked, None, now, l'.mandates, l'.attempts, l'.tasks);
    WithEventKeepsEntries(WithAudit(l1, mandateId, AuditMandateRevoked, None, now), OfMandate, mandateId, MandateRevoked, now,
                          l'.mandates, l'.attempts, l'.tasks);
  }

  lemma ExpireKeepsEntries(l: Ledger, m: Id, now: Millis, ms: map<Id, Mandate>, ats: map<Id, Attempt>, ts: map<Id, Task>)
    requires m in l.mandates && m in ms && Entries(l, ms, ats, ts)
    ensures Entries(ExpireMandate(l, m, now), ms, ats, ts)
  {
    var l1 := l.(mandates := ExpireMandate(l, m, now).mandates);
    WithAuditKeepsEntries(l1, m, AuditMandateExpired, None, now, ms, ats, ts);
    WithEventKeepsEntries(WithAudit(l1, m, AuditMandateExpired, None, now), OfMandate, m, MandateExpired, now, ms, ats, ts);
  }

  lemma DenyKeepsRefs(l: Ledger, l1: Ledger, a: Attempt, reason: BlockedReason, now: Millis)
    requires RefInv(l) && NewIdentifier(l, a) && Noted(l, l1, a) && a.mandateId in l1.mandates
    ensures RefInv(Deny(l1, a, reason, now).ledger)
  {
    var ran := Deny(l1, a, reason, now);
    var l' := ran.ledger;
    NewAttemptKeepsRows(l, l', ran.attempt);
    assert Entries(l1, l'.mandates, l'.attempts, l'.tasks);
    NoteKeepsEntries(l1.(attempts := l'.attempts), a.mandateId, a.id, AuditAttemptBlocked, EvtPolicyDenied(reason), now,
                     l'.mandates, l'.attempts, l'.tasks);
  }

  lemma ReserveKeepsRefs(l: Ledger, l1: Ledger, a: Attempt, now: Millis)
    requires RefInv(l) && NewIdentifier(l, a) && Noted(l, l1, a) && a.mandateId in l1.mandates && l1.mandates == l.mandates
    ensures RefInv(Reserve(l1, a, now).ledger)
  {
    var ran := Reserve(l1, a, now);
    var l', b := ran.ledger, ran.attempt;
    var held := Hold(l1, a, now);
    var rows := l.(mandates := held.mandates, attempts := l'.attempts, nextId := held.nextId);
    NewAttemptKeepsRows(l, rows, b);
    MoreTasksKeepEntries(l, rows.mandates, rows.attempts, rows.tasks, l'.tasks);
    NewTaskKeepsRows(rows, l', l'.tasks[held.nextId]);
    assert Entries(l1, l'.mandates, l'.attempts, l'.tasks);
    NoteKeepsEntries(l1.(mandates := held.mandates), a.mandateId, a.id, AuditAttemptReserved, EvtReserved(a.amountCents), now,
                     l'.mandates, l'.attempts, l'.tasks);
    QueueKeepsEntries(held, b, now, l'.mandates, l'.attempts, l'.tasks);
  }

  lemma QueueKeepsEntries(l: Ledger, a: Attempt, now: Millis, ms: map<Id, Mandate>, ats: map<Id, Attempt>, ts: map<Id, Task>)
    requires Entries(l, ms, ats, ts) && AuditTarget(ms, ats, a.mandateId, Some(a.id)) && l.nextId in ts
    ensures Entries(Queue(l, a, now), ms, ats, ts)
  {
    var l' := Queue(l, a, now);
    var l1 := l.(attempts := l'.attempts, tasks := l'.tasks, nextId := l.nextId + 1);
    NoteKeepsEntries(l1, a.mandateId, a.id, AuditAttemptQueued, EvtQueued(l.nextId), now, ms, ats, ts);
    var l3 := WithEvent(WithAudit(l1, a.mandateId, AuditAttemptQueued, Some(a.id), now), OfAttempt, a.id, EvtQueued(l.nextId), now);
    WithEventKeepsEntries(l3, OfTask, l.nextId, EvtTaskEnqueued, now, ms, ats, ts);
  }

  /** `l1` is `l` with entries about the attempt being admitted, good for any tables that hold it. */
  ghost predicate Noted(l: Ledger, l1: Ledger, a: Attempt) {
    && KeepsRefs(l, l1) && l1.mandates.Keys == l.mandates.Keys && l1.attempts == l.attempts && l1.tasks == l.tasks
    && a.id < l1.nextId
    && forall ms, ats, ts {:trigger Entries(l1, ms, ats, ts)} ::
         Entries(l, ms, ats, ts) && AuditTarget(ms, ats, a.mandateId, Some(a.id)) ==> Entries(l1, ms, ats, ts)
  }

  lemma NoteIsNoted(l: Ledger, l1: Ledger, a: Attempt, audit: AuditKind, kind: EventKind, now: Millis)
    requires Noted(l, l1, a)
    ensures Noted(l, WithEvent(WithAudit(l1, a.mandateId, audit, Some(a.id), now), OfAttempt, a.id, kind, now), a)
  {
    forall ms, ats, ts | Entries(l, ms, ats, ts) && AuditTarget(ms, ats, a.mandateId, Some(a.id))
      ensures Entries(WithEvent(WithAudit(l1, a.mandateId, audit, Some(a.id), now), OfAttempt, a.id, kind, now), ms, ats, ts)
    {
      NoteKeepsEntries(l1, a.mandateId, a.id, audit, kind, now, ms, ats, ts);
    }
  }

  lemma AdmitIsNoted(l: Ledger, a: Attempt, now: Millis)
    requires a.id == l.nextId
    ensures Noted(l, Admit(l, a, now), a)
  {
    var l0 := l.(nextId := a.id + 1);
    assert forall ms, ats, ts :: Entries(l, ms, ats, ts) ==> Entries(l0, ms, ats, ts);
    NoteIsNoted(l, l0, a, AuditAuthValidated, EvtAuthValidated(a.mandateId), now);
  }

  lemma ExpireIsNoted(l: Ledger, l1: Ledger, a: Attempt, now: Millis)
    requires Noted(l, l1, a) && a.mandateId in l1.mandates
    ensures Noted(l, ExpireMandate(l1, a.mandateId, now), a)
  {
    var l2 := ExpireMandate(l1, a.mandateId, now);
    forall ms, ats, ts | Entries(l, ms, ats, ts) && AuditTarget(ms, ats, a.mandateId, Some(a.id))
      ensures Entries(l2, ms, ats, ts)
    {
      ExpireKeepsEntries(l1, a.mandateId, now, ms, ats, ts);
    }
  }

  lemma AdmittedKeepsRefs(l: Ledger, a: Attempt, vendor: Vendor, treasury: Treasury, now: Millis)
    requires Sound(l) && RefInv(l) && NewIdentifier(l, a) && a.id == l.nextId && a.mandateId in l.mandates
    requires Admitted(l, a, vendor, treasury, now).Ok?
    ensures RefInv(Admitted(l, a, vendor, treasury, now).value.ledger)
  {
    var b := Authenticated(a);
    var m := l.mandates[b.mandateId];
    var l1 := Admit(l, b, now);
    AdmitIsNoted(l, b, now);
    var policy := EvaluatePolicy(m, Some(vendor), b.amountCents, now);
    if policy.Denied? {
      if policy.reason == MandateNotActive && m.status == IssuedActive && m.expiresAt <= now {
        ExpireIsNoted(l, l1, b, now);
        DenyKeepsRefs(l, ExpireMandate(l1, b.mandateId, now), b, policy.reason, now);
      } else {
        DenyKeepsRefs(l, l1, b, policy.reason, now);
      }
    } else {
      NoteIsNoted(l, l1, b, AuditPolicyApproved, EvtPolicyApproved, now);
      ApprovedKeepsRefs(l, Approve(l1, b, now), b, treasury, now);
    }
  }

  lemma ApprovedKeepsRefs(l: Ledger, l2: Ledger, a: Attempt, treasury: Treasury, now: Millis)
    requires RefInv(l) && NewIdentifier(l, a) && Noted(l, l2, a) && a.mandateId in l.mandates && l2.mandates == l.mandates
    ensures treasury.TreasuryDenies? ==> RefInv(Deny(l2, a, TreasuryDenied(treasury.code), now).ledger)
    ensures treasury.TreasuryApproved? ==> RefInv(Reserve(TreasuryEnforced(l2, a, now), a, now).ledger)
    ensures treasury.TreasuryNotEnforced? ==> RefInv(Reserve(l2, a, now).ledger)
  {
    match treasury
    case TreasuryDenies(code) => DenyKeepsRefs(l, l2, a, TreasuryDenied(code), now);
    case TreasuryApproved =>
      NoteIsNoted(l, l2, a, AuditPolicyApproved, EvtTreasuryEnforced, now);
      ReserveKeepsRefs(l, TreasuryEnforced(l2, a, now), a, now);
    case TreasuryNotEnforced => ReserveKeepsRefs(l, l2, a, now);
    case TreasuryThrows =>
  }

  lemma RunKeepsRefs(l: Ledger, input: RunInput, generated: string, treasury: Treasury, now: Millis)
    requires Sound(l) && RefInv(l) && RunAttempt(l, input, generated, treasury, now).Ok?
    requires !Blank(generated) && forall a :: !UsesIdentifier(l.attempts, a, generated)
    ensures RefInv(RunAttempt(l, input, generated, treasury, now).value.ledger)
  {
    RunIsRepeatOrAdmitted(l, input, generated, treasury, now);
    if RunAttempt(l, input, generated, treasury, now).value.ledger != l {
      var a := AttemptFor(l, input, generated, now);
      assert NewIdentifier(l, a);
      AdmittedKeepsRefs(l, a, FindVendor(a.vendorId).value, treasury, now);
    }
  }

  // ---- workers ----

  lemma TaskChangeKeepsRefs(l: Ledger, t: Id, task: Task, kind: EventKind, now: Millis)
    requires RefInv(l) && t in l.tasks && SameTaskRefs(l.tasks[t], task)
    ensures RefInv(l.(tasks := l.tasks[t := task]))
    ensures RefInv(WithEvent(l.(tasks := l.tasks[t := task]), OfTask, t, kind, now))
  {
    var l1 := l.(tasks := l.tasks[t := task]);
    UpdateKeepsRows(l, l1);
    UpdateKeepsRows(l, WithEvent(l1, OfTask, t, kind, now));
    WithEventKeepsEntries(l1, OfTask, t, kind, now, l1.mandates, l1.attempts, l1.tasks);
  }

  lemma BeginKeepsRefs(l: Ledger, c: Claim, now: Millis)
    requires Sound(l) && RefInv(l) && ClaimMatches(l, c) && BeginDispatch(l, c, now).Ok?
    ensures RefInv(BeginDispatch(l, c, now).value)
  {
    var l' := BeginDispatch(l, c, now).value;
    assert AttemptOk(l.mandates, l.attempts[c.attemptId], c.attemptId);
    UpdateKeepsRows(l, l');
    NoteKeepsEntries(l.(attempts := l'.attempts), c.mandateId, c.attemptId, AuditAttemptDispatched, EvtDispatched(c.taskId), now,
                     l'.mandates, l'.attempts, l'.tasks);
  }

  lemma ReleaseKeepsRefs(l: Ledger, c: Claim, reason: BlockedReason, now: Millis)
    requires RefInv(l) && ClaimMatches(l, c) && ReleaseDispatch(l, c, reason, now).Ok?
    ensures RefInv(ReleaseDispatch(l, c, reason, now).value)
  {
    var l' := ReleaseDispatch(l, c, reason, now).value;
    UpdateKeepsRows(l, l');
    NoteKeepsEntries(l.(attempts := l'.attempts, mandates := l'.mandates), c.mandateId, c.attemptId, AuditAttemptBlocked,
                     EvtWorkerFailed, now, l'.mandates, l'.attempts, l'.tasks);
  }

  lemma OutcomeKeepsEntries(l: Ledger, c: Claim, evidence: ReceiptEvidence, status: AttemptStatus, cents: int, now: Millis,
                            ms: map<Id, Mandate>, ats: map<Id, Attempt>, ts: map<Id, Task>)
    requires Entries(l, ms, ats, ts) && AuditTarget(ms, ats, c.mandateId, Some(c.attemptId))
    ensures Entries(OutcomeNotes(l, c, evidence, status, cents, now), ms, ats, ts)
  {
    NoteKeepsEntries(l, c.mandateId, c.attemptId, AuditReceiptUpdated, EvtReceiptUpdated(evidence), now, ms, ats, ts);
    var l1 := WithAudit(l, c.mandateId, AuditReceiptUpdated, Some(c.attemptId), now);
    var l2 := WithEvent(l1, OfAttempt, c.attemptId, EvtReceiptUpdated(evidence), now);
    NoteKeepsEntries(l2, c.mandateId, c.attemptId, AuditFinancialOutcome, EvtFinancialOutcome(status, cents), now, ms, ats, ts);
  }

  /** Settled by the vendor or by a reconciliation: `l0` is `l` with the two rows changed. */
  lemma SettlingKeepsRefs(l: Ledger, l0: Ledger, c: Claim, evidence: ReceiptEvidence, status: AttemptStatus, cents: int, now: Millis)
    requires RefInv(l) && KeepsRefs(l, l0) && l0.audits == l.audits && l0.events == l.events && l0.nextId == l.nextId
    requires l0.mandates.Keys == l.mandates.Keys && l0.attempts.Keys == l.attempts.Keys && l0.tasks == l.tasks
    requires AuditTarget(l0.mandates, l0.attempts, c.mandateId, Some(c.attemptId))
    ensures RefInv(ReconciledNotes(OutcomeNotes(l0, c, evidence, status, cents, now), c, status, now))
  {
    var l1 := OutcomeNotes(l0, c, evidence, status, cents, now);
    var l' := ReconciledNotes(l1, c, status, now);
    UpdateKeepsRows(l, l');
    OutcomeKeepsEntries(l0, c, evidence, status, cents, now, l'.mandates, l'.attempts, l'.tasks);
    NoteKeepsEntries(l1, c.mandateId, c.attemptId, AuditAttemptReconciled, EvtReconciled(status), now, l'.mandates, l'.attempts, l'.tasks);
  }

  lemma ReconciliationKeepsRefs(l: Ledger, c: Claim, r: CorrelationResult, now: Millis)
    requires RefInv(l) && ClaimMatches(l, c) && ApplyReconciliationResult(l, c, r, now).Ok?
    ensures RefInv(ApplyReconciliationResult(l, c, r, now).value)
  {
    var l' := ApplyReconciliationResult(l, c, r, now).value;
    SettlingKeepsRefs(l, l.(attempts := l'.attempts, mandates := l'.mandates), c, r.evidence, r.Status(),
                      ResolveSettledAmountCents(c.amountCents, r.finalAmount), now);
  }

  lemma EnqueueKeepsRefs(l: Ledger, mandateId: Id, attemptId: Id, found: Option<Id>, now: Millis)
    requires RefInv(l) && attemptId in l.attempts && l.attempts[attemptId].mandateId == mandateId
    requires FindsLive(l.tasks, ReconcileAttempt, attemptId, found)
    ensures
      var q := EnqueueWorkerTask(l, ReconcileAttempt, mandateId, attemptId, Some(l.attempts[attemptId].operatorId), found, now);
      RefInv(q.ledger) && q.taskId in q.ledger.tasks
  {
    if found.None? {
      var q := FreshTask(l, ReconcileAttempt, mandateId, attemptId, Some(l.attempts[attemptId].operatorId), now);
      var l1 := l.(tasks := q.ledger.tasks, nextId := l.nextId + 1);
      NewTaskKeepsRows(l, q.ledger, q.ledger.tasks[l.nextId]);
      MoreTasksKeepEntries(l, l.mandates, l.attempts, l.tasks, l1.tasks);
      WithEventKeepsEntries(l1, OfTask, l.nextId, EvtTaskEnqueued, now, l1.mandates, l1.attempts, l1.tasks);
    }
  }

  lemma DispatchResultKeepsRefs(l: Ledger, c: Claim, r: DispatchResult, found: Option<Id>, now: Millis)
    requires RefInv(l) && ClaimMatches(l, c) && ApplyDispatchResult(l, c, r, found, now).Ok?
    requires FindsLive(l.tasks, ReconcileAttempt, c.attemptId, found)
    ensures RefInv(ApplyDispatchResult(l, c, r, found, now).value)
  {
    var l0 := Settle(l, c, r, now);
    if r.DispatchUnknown? {
      UnknownKeepsRefs(l, c, r, found, now);
    } else {
      SettlingKeepsRefs(l, l0, c, r.evidence, r.Status(), ResolveSettledAmountCents(c.amountCents, r.FinalAmount()), now);
    }
  }

  /** The rows changed and the search for a reconcile task done. */
  lemma EnqueueAfterSettle(l: Ledger, c: Claim, r: DispatchResult, found: Option<Id>, now: Millis)
    requires RefInv(l) && ClaimMatches(l, c) && c.mandateId in l.mandates
    requires FindsLive(l.tasks, ReconcileAttempt, c.attemptId, found)
    ensures
      var l1 := WithAudit(Settle(l, c, r, now), c.mandateId, AuditReconciliationStarted, Some(c.attemptId), now);
      var q := EnqueueWorkerTask(l1, ReconcileAttempt, c.mandateId, c.attemptId, Some(l.attempts[c.attemptId].operatorId), found, now);
      RefInv(q.ledger) && q.taskId in q.ledger.tasks && ClaimMatches(q.ledger, c) && c.mandateId in q.ledger.mandates
  {
    var l0 := Settle(l, c, r, now);
    var l1 := WithAudit(l0, c.mandateId, AuditReconciliationStarted, Some(c.attemptId), now);
    UpdateKeepsRows(l, l1);
    WithAuditKeepsEntries(l0, c.mandateId, AuditReconciliationStarted, Some(c.attemptId), now, l0.mandates, l0.attempts, l0.tasks);
    EnqueueKeepsRefs(l1, c.mandateId, c.attemptId, found, now);
  }

  lemma StartedKeepsRefs(l: Ledger, c: Claim, t: Id, r: DispatchResult, cents: int, now: Millis)
    requires RefInv(l) && ClaimMatches(l, c) && c.mandateId in l.mandates && r.DispatchUnknown?
    ensures RefInv(OutcomeNotes(ReconciliationStarted(l, c, t, r, now), c, r.evidence, r.Status(), cents, now))
  {
    var l2 := ReconciliationStarted(l, c, t, r, now);
    WithEventKeepsEntries(l, OfAttempt, c.attemptId, EvtReconciliationStarted(t, r.payloadJson, r.requirementsJson), now,
                          l.mandates, l.attempts, l.tasks);
    OutcomeKeepsEntries(l2, c, r.evidence, r.Status(), cents, now, l.mandates, l.attempts, l.tasks);
    UpdateKeepsRows(l, OutcomeNotes(l2, c, r.evidence, r.Status(), cents, now));
  }

  lemma UnknownKeepsRefs(l: Ledger, c: Claim, r: DispatchResult, found: Option<Id>, now: Millis)
    requires RefInv(l) && ClaimMatches(l, c) && r.DispatchUnknown? && ApplyDispatchResult(l, c, r, found, now).Ok?
    requires FindsLive(l.tasks, ReconcileAttempt, c.attemptId, found)
    ensures RefInv(ApplyDispatchResult(l, c, r, found, now).value)
  {
    EnqueueAfterSettle(l, c, r, found, now);
    var l1 := WithAudit(Settle(l, c, r, now), c.mandateId, AuditReconciliationStarted, Some(c.attemptId), now);
    var q := EnqueueWorkerTask(l1, ReconcileAttempt, c.mandateId, c.attemptId, Some(l.attempts[c.attemptId].operatorId), found, now);
    StartedKeepsRefs(q.ledger, c, q.taskId, r, ResolveSettledAmountCents(c.amountCents, r.FinalAmount()), now);
  }
}

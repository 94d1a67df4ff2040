/** What a transaction writes to the two logs, entry by entry, and the words for a task's row that contracts share. */
module Entries {
  import opened Domain
  import opened Ledger

  // ---- tasks ----

  /** A task just made: queued, available at once, never leased. */
  predicate NewlyQueued(t: Task, kind: TaskKind, attemptId: Id, mandateId: Id, operatorId: string, now: Millis) {
    && t.kind == kind && t.attemptId == attemptId && t.mandateId == mandateId && t.operatorId == Some(operatorId)
    && t.status == Queued && t.availableAt == now && t.attemptCount == 0 && t.leaseOwner == None && t.leaseExpiresAt == None
    && t.createdAt == now == t.updatedAt && t.startedAt == None && t.completedAt == None
  }

  /** The task is of the kind, its time has come, and it waits in the queue or under a lease that has run out. */
  predicate MayBeLeased(t: Task, kind: TaskKind, now: Millis) {
    && t.kind == kind && t.availableAt <= now
    && match t.status
       case Queued => true
       case Leased => t.leaseExpiresAt.Some? && t.leaseExpiresAt.value <= now
       case Completed => false
       case Failed => false
  }

  /** No task that may be leased is older. */
  ghost predicate OldestToLease(tasks: map<Id, Task>, kind: TaskKind, now: Millis, t: Id) {
    && t in tasks && MayBeLeased(tasks[t], kind, now)
    && forall u :: u in tasks && MayBeLeased(tasks[u], kind, now) ==> tasks[t].createdAt <= tasks[u].createdAt
  }

  /** Of some tasks one is oldest. */
  lemma {:induction false} OldestExists(tasks: map<Id, Task>, ts: set<Id>) returns (t: Id)
    requires ts != {} && forall u :: u in ts ==> u in tasks
    ensures t in ts && forall u :: u in ts ==> tasks[t].createdAt <= tasks[u].createdAt
    decreases |ts|
  {
    var u :| u in ts;
    if ts == {u} {
      t := u;
    } else {
      t := OldestExists(tasks, ts - {u});
      if tasks[u].createdAt < tasks[t].createdAt { t := u; }
    }
  }

  /** The snapshot a worker gets of the task and its attempt. */
  predicate TakenFrom(c: Claim, t: Task, a: Attempt) {
    && c.taskId == t.id && c.leaseNo == t.attemptCount + 1 && c.attemptId == t.attemptId && c.mandateId == t.mandateId
    && c.vendorId == a.vendorId && c.amountCents == a.amountCents && c.paymentIdentifier == a.paymentIdentifier
    && (t.operatorId == Some(c.operatorId) || (t.operatorId == None && c.operatorId == a.operatorId))
  }

  /** The task's row after it is leased for half a minute, and the snapshot. */
  predicate LeasesRow(before: Task, a: Attempt, after: Task, c: Claim, worker: string, now: Millis) {
    && after == before.(status := Leased, leaseOwner := Some(worker), leaseExpiresAt := Some(now + 30_000), updatedAt := now,
                        startedAt := after.startedAt, attemptCount := before.attemptCount + 1)
    && after.startedAt == (if before.startedAt == None then Some(now) else before.startedAt)
    && TakenFrom(c, before, a)
  }

  // ---- entries ----

  datatype AuditNote = AuditNote(mandateId: Id, attemptId: Option<Id>, kind: AuditKind)

  datatype EventNote = EventNote(entityType: EntityType, entityId: Id, kind: EventKind)

  predicate AuditSays(x: Audit, note: AuditNote, now: Millis) {
    x.mandateId == note.mandateId && x.attemptId == note.attemptId && x.kind == note.kind && x.createdAt == now
  }

  predicate EventSays(e: Event, note: EventNote, now: Millis) {
    e.entityType == note.entityType && e.entityId == note.entityId && e.kind == note.kind && e.occurredAt == now
  }

  /** The logs of `l'` are those of `l` with these entries in front, newest first, each under an id that was unused. */
  ghost predicate Writes(l: Ledger, l': Ledger, audits: seq<AuditNote>, events: seq<EventNote>, now: Millis) {
    && l.nextId <= l'.nextId
    && |l'.audits| == |audits| + |l.audits| && l'.audits[|audits|..] == l.audits
    && (forall i :: 0 <= i < |audits| ==> AuditSays(l'.audits[i], audits[i], now) && l.nextId <= l'.audits[i].id < l'.nextId)
    && |l'.events| == |events| + |l.events| && l'.events[|events|..] == l.events
    && (forall i :: 0 <= i < |events| ==> EventSays(l'.events[i], events[i], now) && l.nextId <= l'.events[i].id < l'.nextId)
  }

  lemma NothingWritten(l: Ledger, l1: Ledger, now: Millis)
    requires l1.audits == l.audits && l1.events == l.events && l.nextId <= l1.nextId
    ensures Writes(l, l1, [], [], now)
  {}

  lemma AuditWritten(l: Ledger, l1: Ledger, audits: seq<AuditNote>, events: seq<EventNote>, m: Id, kind: AuditKind, a: Option<Id>,
                     now: Millis)
    requires Writes(l, l1, audits, events, now)
    ensures Writes(l, WithAudit(l1, m, kind, a, now), [AuditNote(m, a, kind)] + audits, events, now)
  {
    var l2, more := WithAudit(l1, m, kind, a, now), [AuditNote(m, a, kind)] + audits;
    assert l2.audits[|more|..] == l1.audits[|audits|..];
    forall i | 0 <= i < |more| ensures AuditSays(l2.audits[i], more[i], now) && l.nextId <= l2.audits[i].id < l2.nextId {
      if i > 0 { assert l2.audits[i] == l1.audits[i - 1] && more[i] == audits[i - 1]; }
    }
  }

  lemma EventWritten(l: Ledger, l1: Ledger, audits: seq<AuditNote>, events: seq<EventNote>, entityType: EntityType, id: Id, kind: EventKind,
                     now: Millis)
    requires Writes(l, l1, audits, events, now)
    ensures Writes(l, WithEvent(l1, entityType, id, kind, now), audits, [EventNote(entityType, id, kind)] + events, now)
  {
    var l2, more := WithEvent(l1, entityType, id, kind, now), [EventNote(entityType, id, kind)] + events;
    assert l2.events[|more|..] == l1.events[|events|..];
    forall i | 0 <= i < |more| ensures EventSays(l2.events[i], more[i], now) && l.nextId <= l2.events[i].id < l2.nextId {
      if i > 0 { assert l2.events[i] == l1.events[i - 1] && more[i] == events[i - 1]; }
    }
  }

  /** Rows may change between two entries. */
  lemma RowsBetween(l: Ledger, l1: Ledger, l2: Ledger, audits: seq<AuditNote>, events: seq<EventNote>, now: Millis)
    requires Writes(l, l1, audits, events, now) && l2.audits == l1.audits && l2.events == l1.events && l1.nextId <= l2.nextId
    ensures Writes(l, l2, audits, events, now)
  {}

  /** An audit entry and a domain event about one attempt. */
  lemma NoteWritten(l: Ledger, l1: Ledger, audits: seq<AuditNote>, events: seq<EventNote>, m: Id, a: Id, audit: AuditKind, event: EventKind,
                    now: Millis)
    requires Writes(l, l1, audits, events, now)
    ensures Writes(l, WithEvent(WithAudit(l1, m, audit, Some(a), now), OfAttempt, a, event, now),
                   [AuditNote(m, Some(a), audit)] + audits, [EventNote(OfAttempt, a, event)] + events, now)
  {
    AuditWritten(l, l1, audits, events, m, audit, Some(a), now);
    EventWritten(l, WithAudit(l1, m, audit, Some(a), now), [AuditNote(m, Some(a), audit)] + audits, events, OfAttempt, a, event, now);
  }
}

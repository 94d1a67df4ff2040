/** The check made on every write never rejects a reachable store, and neither do the tables. */
module Acceptance {
  import opened Domain
  import opened Ledger
  import opened Tables
  import opened Money
  import opened References
  import opened Protocol
  import opened Runs
  import opened Integrity
  import opened Persistence

  /** The arrays of `d` hold the rows and entries of `l`, in any order. */
  ghost predicate Lists(d: StoreData, l: Ledger) {
    && Distinct(d.agents, AgentKey) && Latest(d.agents, AgentKey) == l.agents
    && Distinct(d.mandates, MandateKey) && Latest(d.mandates, MandateKey) == l.mandates
    && Distinct(d.attempts, AttemptKey) && Latest(d.attempts, AttemptKey) == l.attempts
    && Distinct(d.workerTasks, TaskKey) && Latest(d.workerTasks, TaskKey) == l.tasks
    && multiset(d.auditEntries) == multiset(l.audits) && multiset(d.domainEvents) == multiset(l.events)
    && Distinct(d.groupedApprovals, ApprovalKey)
  }

  lemma {:induction false} DescendingAuditsAreDistinct(xs: seq<Audit>, bound: Id)
    requires AuditsDescend(xs, bound)
    ensures Distinct(xs, AuditKey) && forall x :: x in xs ==> x.id < bound
  {
    if xs != [] {
      DescendingAuditsAreDistinct(xs[1..], xs[0].id);
      assert xs == [xs[0]] + xs[1..];
      forall i, j | 0 <= i < j < |xs| ensures AuditKey(xs[i]) != AuditKey(xs[j]) {
        assert xs[j] == xs[1..][j - 1];
        if i > 0 { assert AuditKey(xs[1..][i - 1]) != AuditKey(xs[1..][j - 1]); }
      }
    }
  }

  lemma {:induction false} DescendingEventsAreDistinct(es: seq<Event>, bound: Id)
    requires EventsDescend(es, bound)
    ensures Distinct(es, EventKey) && forall e :: e in es ==> e.id < bound
  {
    if es != [] {
      DescendingEventsAreDistinct(es[1..], es[0].id);
      assert es == [es[0]] + es[1..];
      forall i, j | 0 <= i < j < |es| ensures EventKey(es[i]) != EventKey(es[j]) {
        assert es[j] == es[1..][j - 1];
        if i > 0 { assert EventKey(es[1..][i - 1]) != EventKey(es[1..][j - 1]); }
      }
    }
  }

  lemma IdsAreDistinct(d: StoreData, l: Ledger)
    requires RefInv(l) && Lists(d, l)
    ensures DistinctIds(d)
  {
    DescendingAuditsAreDistinct(l.audits, l.nextId);
    DescendingEventsAreDistinct(l.events, l.nextId);
    ReorderedStaysDistinct(l.audits, d.auditEntries, AuditKey);
    ReorderedStaysDistinct(l.events, d.domainEvents, EventKey);
  }

  /** Rows of the arrays are rows of the ledger, and the other way round. */
  lemma MandateListed(d: StoreData, l: Ledger, m: Id)
    requires Lists(d, l) && m in l.mandates && l.mandates[m].id == m
    ensures HasMandate(d, m)
  {
    LatestHasTheRows(d.mandates, MandateKey);
    assert l.mandates[m] in d.mandates;
  }

  lemma AttemptListed(d: StoreData, l: Ledger, a: Id)
    requires Lists(d, l) && a in l.attempts && l.attempts[a].id == a
    ensures HasAttempt(d, l.attempts[a], a, l.attempts[a].mandateId)
  {
    LatestHasTheRows(d.attempts, AttemptKey);
  }

  lemma IdentifiersAreDistinct(d: StoreData, l: Ledger)
    requires RefInv(l) && Lists(d, l)
    ensures Distinct(d.attempts, IdentifierKey)
  {
    forall i, j | 0 <= i < j < |d.attempts| ensures IdentifierKey(d.attempts[i]) != IdentifierKey(d.attempts[j]) {
      var a, b := d.attempts[i], d.attempts[j];
      assert AttemptKey(a) != AttemptKey(b);
      DistinctRowsAreFound(d.attempts, AttemptKey, a);
      DistinctRowsAreFound(d.attempts, AttemptKey, b);
      assert IdentifierOk(l.attempts, a.id);
      assert UsesIdentifier(l.attempts, b.id, b.paymentIdentifier);
    }
  }

  lemma ListedMandateIsGood(d: StoreData, l: Ledger, m: Mandate)
    requires Sound(l) && RefInv(l) && Lists(d, l) && m in d.mandates
    ensures GoodMandate(d, m)
  {
    DistinctRowsAreFound(d.mandates, MandateKey, m);
    assert AccountOk(l.mandates[m.id], l.attempts, m.id) && MandateRefOk(l.agents, l.mandates[m.id]);
    LatestHasTheRows(d.agents, AgentKey);
    assert l.agents[m.agentId] in d.agents;
  }

  lemma ListedAttemptIsGood(d: StoreData, l: Ledger, a: Attempt)
    requires Sound(l) && RefInv(l) && Lists(d, l) && a in d.attempts
    ensures GoodAttempt(d, a)
  {
    DistinctRowsAreFound(d.attempts, AttemptKey, a);
    assert AttemptOk(l.mandates, l.attempts[a.id], a.id) && IdentifierOk(l.attempts, a.id);
    assert AccountOk(l.mandates[a.mandateId], l.attempts, a.mandateId);
    MandateListed(d, l, a.mandateId);
  }

  lemma ListedTaskIsGood(d: StoreData, l: Ledger, t: Task)
    requires Sound(l) && RefInv(l) && Lists(d, l) && t in d.workerTasks
    ensures GoodTask(d, t)
  {
    DistinctRowsAreFound(d.workerTasks, TaskKey, t);
    assert TaskOk(l.attempts, l.tasks[t.id], t.id) && AttemptOk(l.mandates, l.attempts[t.attemptId], t.attemptId);
    assert AccountOk(l.mandates[t.mandateId], l.attempts, t.mandateId);
    MandateListed(d, l, t.mandateId);
    AttemptListed(d, l, t.attemptId);
  }

  lemma ListedAuditIsGood(d: StoreData, l: Ledger, x: Audit)
    requires Sound(l) && RefInv(l) && Lists(d, l) && x in d.auditEntries
    ensures GoodAudit(d, x)
  {
    assert x in multiset(l.audits);
    assert AuditTarget(l.mandates, l.attempts, x.mandateId, x.attemptId);
    assert AccountOk(l.mandates[x.mandateId], l.attempts, x.mandateId);
    MandateListed(d, l, x.mandateId);
    if x.attemptId.Some? {
      assert AttemptOk(l.mandates, l.attempts[x.attemptId.value], x.attemptId.value);
      AttemptListed(d, l, x.attemptId.value);
    }
  }

  lemma ListedEventIsGood(d: StoreData, l: Ledger, e: Event)
    requires Sound(l) && RefInv(l) && Lists(d, l) && e in d.domainEvents
    ensures GoodEvent(d, e)
  {
    assert e in multiset(l.events);
    assert EventTarget(l.mandates, l.attempts, l.tasks, e.entityType, e.entityId);
    match e.entityType
    case OfMandate =>
      assert AccountOk(l.mandates[e.entityId], l.attempts, e.entityId);
      MandateListed(d, l, e.entityId);
    case OfAttempt =>
      assert AttemptOk(l.mandates, l.attempts[e.entityId], e.entityId);
      AttemptListed(d, l, e.entityId);
    case OfTask =>
      assert TaskOk(l.attempts, l.tasks[e.entityId], e.entityId);
      LatestHasTheRows(d.workerTasks, TaskKey);
      assert l.tasks[e.entityId] in d.workerTasks;
    case OfSystem =>
  }

  lemma ListingsAreConsistent(d: StoreData, l: Ledger)
    requires Sound(l) && RefInv(l) && Lists(d, l)
    ensures Consistent(d)
  {
    IdsAreDistinct(d, l);
    IdentifiersAreDistinct(d, l);
    forall m | m in d.mandates ensures GoodMandate(d, m) { ListedMandateIsGood(d, l, m); }
    forall a | a in d.attempts ensures GoodAttempt(d, a) { ListedAttemptIsGood(d, l, a); }
    forall t | t in d.workerTasks ensures GoodTask(d, t) { ListedTaskIsGood(d, l, t); }
    forall x | x in d.auditEntries ensures GoodAudit(d, x) { ListedAuditIsGood(d, l, x); }
    forall e | e in d.domainEvents ensures GoodEvent(d, e) { ListedEventIsGood(d, l, e); }
  }

  /** Whatever a run did, the arrays it has to write pass the check: no code is deserved. */
  lemma NoReachableStoreIsRejected(s0: Sys, acts: seq<Action>, d: StoreData, c: Code)
    requires Init(s0) && Lists(d, Exec(s0, acts).ledger)
    ensures Consistent(d) && !Violated(d, c)
  {
    EveryReachableStateIsSafe(s0, acts);
    ListingsAreConsistent(d, Exec(s0, acts).ledger);
    ConsistentIsClean(d, c);
  }

  /** No run drops an attempt or changes its payment identifier. */
  lemma IdentifiersLast(l: Ledger, l': Ledger, d: StoreData, d': StoreData)
    requires Lasting(l, l') && RefInv(l') && Lists(d, l) && Lists(d', l')
    ensures IdentifiersSettled(Image(d).attempts, d'.attempts)
  {
    forall a | a in d'.attempts && a.id in l.attempts ensures l.attempts[a.id].paymentIdentifier == a.paymentIdentifier {
      DistinctRowsAreFound(d'.attempts, AttemptKey, a);
      assert AttemptLasts(l.attempts[a.id], l'.attempts[a.id]);
    }
  }

  /** Over the tables written in any reachable state, both writers accept the store of any later state: it is
      consistent, and no upsert clashes with a row not yet overwritten. */
  lemma NoLaterWriteClashes(s0: Sys, before: seq<Action>, later: seq<Action>, d: StoreData, d': StoreData)
    requires Init(s0) && Lists(d, Exec(s0, before).ledger) && Lists(d', Exec(s0, before + later).ledger)
    ensures Constrained(Image(d)) && Consistent(d') && NoClash(Image(d).attempts, d'.attempts)
  {
    EveryReachableStateIsSafe(s0, before);
    EveryReachableStateIsSafe(s0, before + later);
    RunsCompose(s0, before, later);
    RunsLast(Exec(s0, before), later);
    ListingsAreConsistent(d, Exec(s0, before).ledger);
    ListingsAreConsistent(d', Exec(s0, before + later).ledger);
    ImageIsConstrained(d);
    IdentifiersLast(Exec(s0, before).ledger, Exec(s0, before + later).ledger, d, d');
    SettledIdentifiersDoNotClash(Image(d).attempts, d'.attempts);
  }
}

/** The two ways a store is written to tables, and reading it back. A statement that violates a constraint
    throws; the transaction is then rolled back and the tables stay as they were. */
module Persistence {
  import opened Domain
  import opened Tables
  import opened Integrity

  /** The tables by primary key; a mandate row is a mandate without its vendors, which have a table of their own. */
  datatype Database = Database(
    agents: map<string, Agent>, mandates: map<Id, Mandate>, approved: set<(Id, string)>,
    attempts: map<Id, Attempt>, tasks: map<Id, Task>, audits: map<Id, Audit>, events: map<Id, Event>)

  const EMPTY := Database(map[], map[], {}, map[], map[], map[], map[])

  function Row(m: Mandate): Mandate {
    m.(approvedVendorIds := [])
  }

  function RowsOf(ms: seq<Mandate>): (rows: seq<Mandate>)
    ensures |rows| == |ms| && forall i :: 0 <= i < |ms| ==> rows[i] == Row(ms[i])
  {
    seq(|ms|, i requires 0 <= i < |ms| => Row(ms[i]))
  }

  function VendorsOf(m: Mandate): set<(Id, string)> {
    set v | v in m.approvedVendorIds :: (m.id, v)
  }

  function ApprovedBy(ms: seq<Mandate>): set<(Id, string)> {
    set m, v | m in ms && v in m.approvedVendorIds :: (m.id, v)
  }

  /** The tables that hold exactly this store. */
  function Image(d: StoreData): Database {
    Database(Latest(d.agents, AgentKey), Latest(RowsOf(d.mandates), MandateKey), ApprovedBy(d.mandates),
             Latest(d.attempts, AttemptKey), Latest(d.workerTasks, TaskKey), Latest(d.auditEntries, AuditKey),
             Latest(d.domainEvents, EventKey))
  }

  /** The foreign keys, and the unique payment identifier. */
  ghost predicate Constrained(t: Database) {
    && (forall m :: m in t.mandates ==> t.mandates[m].agentId in t.agents)
    && (forall p :: p in t.approved ==> p.0 in t.mandates)
    && (forall a :: a in t.attempts ==> t.attempts[a].mandateId in t.mandates)
    && (forall k :: k in t.tasks ==> t.tasks[k].attemptId in t.attempts && t.tasks[k].mandateId in t.mandates)
    && (forall x :: x in t.audits ==> t.audits[x].mandateId in t.mandates)
    && (forall a, b :: a in t.attempts && b in t.attempts && t.attempts[a].paymentIdentifier == t.attempts[b].paymentIdentifier ==> a == b)
    && (forall a :: a in t.attempts ==> t.attempts[a].id == a)
  }

  // ---- statements; None when a constraint is violated ----

  function UpsertMandate(t: Database, m: Mandate): Option<Database> {
    if m.agentId !in t.agents then None else Some(t.(mandates := t.mandates[m.id := Row(m)]))
  }

  /** The vendors of one mandate are deleted and inserted again. */
  function ReplaceVendors(t: Database, m: Mandate): Database {
    t.(approved := (set p | p in t.approved && p.0 != m.id) + VendorsOf(m))
  }

  predicate IdentifierTaken(attempts: map<Id, Attempt>, a: Attempt) {
    exists b :: b in attempts && b != a.id && attempts[b].paymentIdentifier == a.paymentIdentifier
  }

  function UpsertAttempt(t: Database, a: Attempt): Option<Database> {
    if a.mandateId !in t.mandates || IdentifierTaken(t.attempts, a) then None
    else Some(t.(attempts := t.attempts[a.id := a]))
  }

  function UpsertTask(t: Database, k: Task): Option<Database> {
    if k.attemptId !in t.attempts || k.mandateId !in t.mandates then None else Some(t.(tasks := t.tasks[k.id := k]))
  }

  function UpsertAudit(t: Database, x: Audit): Option<Database> {
    if x.mandateId !in t.mandates then None else Some(t.(audits := t.audits[x.id := x]))
  }

  /** Deleting attempts takes their tasks along. */
  function PruneAttempts(t: Database, keep: set<Id>): Database {
    var gone := t.attempts.Keys - keep;
    t.(attempts := t.attempts - gone, tasks := map k | k in t.tasks && t.tasks[k].attemptId !in gone :: t.tasks[k])
  }

  /** Deleting mandates takes along their vendors, attempts with their tasks, tasks and audit entries. */
  function PruneMandates(t: Database, keep: set<Id>): Database {
    var gone := t.mandates.Keys - keep;
    var attemptsGone := set a | a in t.attempts && t.attempts[a].mandateId in gone;
    t.(mandates := t.mandates - gone,
       approved := (set p | p in t.approved && p.0 !in gone),
       attempts := t.attempts - attemptsGone,
       tasks := map k | k in t.tasks && t.tasks[k].mandateId !in gone && t.tasks[k].attemptId !in attemptsGone :: t.tasks[k],
       audits := map x | x in t.audits && t.audits[x].mandateId !in gone :: t.audits[x])
  }

  /** An agent that a mandate refers to cannot be deleted. */
  function PruneAgents(t: Database, keep: set<string>): Option<Database> {
    var gone := t.agents.Keys - keep;
    if exists m :: m in t.mandates && t.mandates[m].agentId in gone then None
    else Some(t.(agents := t.agents - gone))
  }

  // ---- upsert, then prune (Postgres) ----

  /** The table after upserting these rows one by one. */
  function Overlay<K(==), V>(base: map<K, V>, rows: seq<V>, key: V -> K): map<K, V> {
    if rows == [] then base
    else
      var last := rows[|rows| - 1];
      Overlay(base, rows[..|rows| - 1], key)[key(last) := last]
  }

  lemma OverlayMore<K, V>(base: map<K, V>, rows: seq<V>, key: V -> K, i: nat)
    requires i < |rows|
    ensures Overlay(base, rows[..i + 1], key) == Overlay(base, rows[..i], key)[key(rows[i]) := rows[i]]
  {
    assert rows[..i + 1][..i] == rows[..i];
  }

  lemma {:induction false} OverlayIsMerge<K, V>(base: map<K, V>, rows: seq<V>, key: V -> K)
    ensures Overlay(base, rows, key) == base + Latest(rows, key)
  {
    if rows == [] {
    } else {
      OverlayIsMerge(base, rows[..|rows| - 1], key);
    }
  }

  method UpsertAgents(t0: Database, gs: seq<Agent>) returns (t: Database)
    ensures t == t0.(agents := Overlay(t0.agents, gs, AgentKey))
  {
    t := t0;
    for i := 0 to |gs|
      invariant t == t0.(agents := Overlay(t0.agents, gs[..i], AgentKey))
    {
      OverlayMore(t0.agents, gs, AgentKey, i);
      t := t.(agents := t.agents[gs[i].id := gs[i]]);
    }
    assert gs[..|gs|] == gs;
  }

  /** The vendor pairs when the mandates up to `i` have replaced theirs. */
  function Replaced(approved: set<(Id, string)>, ms: seq<Mandate>): set<(Id, string)> {
    (set p | p in approved && forall m :: m in ms ==> m.id != p.0) + ApprovedBy(ms)
  }

  lemma ReplacedMore(approved: set<(Id, string)>, ms: seq<Mandate>, i: nat)
    requires i < |ms| && Distinct(ms, MandateKey)
    ensures Replaced(approved, ms[..i + 1]) ==
            (set p | p in Replaced(approved, ms[..i]) && p.0 != ms[i].id) + VendorsOf(ms[i])
  {
    var front, more := ms[..i], ms[..i + 1];
    assert more == front + [ms[i]];
    forall m | m in front ensures m.id != ms[i].id {
      var k :| 0 <= k < i && front[k] == m;
      assert MandateKey(ms[k]) != MandateKey(ms[i]);
    }
  }

  method UpsertMandates(t0: Database, ms: seq<Mandate>) returns (r: Option<Database>)
    requires Distinct(ms, MandateKey)
    ensures r.Some? <==> forall m :: m in ms ==> m.agentId in t0.agents
    ensures r.Some? ==> r.value == t0.(mandates := Overlay(t0.mandates, RowsOf(ms), MandateKey), approved := Replaced(t0.approved, ms))
  {
    var t := t0;
    assert Replaced(t0.approved, ms[..0]) == t0.approved;
    for i := 0 to |ms|
      invariant t == t0.(mandates := Overlay(t0.mandates, RowsOf(ms)[..i], MandateKey), approved := Replaced(t0.approved, ms[..i]))
      invariant forall k :: 0 <= k < i ==> ms[k].agentId in t0.agents
    {
      OverlayMore(t0.mandates, RowsOf(ms), MandateKey, i);
      ReplacedMore(t0.approved, ms, i);
      var upserted := UpsertMandate(t, ms[i]);
      if upserted.None? { return None; }
      t := ReplaceVendors(upserted.value, ms[i]);
    }
    assert RowsOf(ms)[..|ms|] == RowsOf(ms) && ms[..|ms|] == ms;
    return Some(t);
  }

  /** When attempt `i` is written, no other row still holds its payment identifier: neither one that is about to be
      dropped, nor one that comes later in the list and has yet to get its own. */
  ghost predicate NoClashAt(held: map<Id, Attempt>, ats: seq<Attempt>, i: nat)
    requires i < |ats|
  {
    forall b :: b in held && b != ats[i].id && b !in Latest(ats[..i], AttemptKey) ==> held[b].paymentIdentifier != ats[i].paymentIdentifier
  }

  ghost predicate NoClash(held: map<Id, Attempt>, ats: seq<Attempt>) {
    forall i {:trigger NoClashAt(held, ats, i)} :: 0 <= i < |ats| ==> NoClashAt(held, ats, i)
  }

  /** Rows already written cannot take an identifier, as the new identifiers are all different. */
  lemma TakenMeansClash(held: map<Id, Attempt>, ats: seq<Attempt>, i: nat)
    requires i < |ats| && Distinct(ats, AttemptKey) && Distinct(ats, IdentifierKey)
    ensures IdentifierTaken(Overlay(held, ats[..i], AttemptKey), ats[i]) <==> !NoClashAt(held, ats, i)
  {
    var written, now := Latest(ats[..i], AttemptKey), Overlay(held, ats[..i], AttemptKey);
    OverlayIsMerge(held, ats[..i], AttemptKey);
    LatestHasTheRows(ats[..i], AttemptKey);
    forall b | b in written ensures now[b].paymentIdentifier != ats[i].paymentIdentifier {
      var k :| 0 <= k < i && ats[..i][k] == written[b];
      assert IdentifierKey(ats[k]) != IdentifierKey(ats[i]);
    }
    forall b | b in held && b !in written ensures b in now && now[b] == held[b] {}
    if !NoClashAt(held, ats, i) {
      var b :| b in held && b != ats[i].id && b !in written && held[b].paymentIdentifier == ats[i].paymentIdentifier;
      assert b in now && now[b].paymentIdentifier == ats[i].paymentIdentifier;
    }
  }

  method UpsertAttempts(t0: Database, ats: seq<Attempt>) returns (r: Option<Database>)
    requires Distinct(ats, AttemptKey) && Distinct(ats, IdentifierKey) && forall a :: a in ats ==> a.mandateId in t0.mandates
    ensures r.Some? <==> NoClash(t0.attempts, ats)
    ensures r.Some? ==> r.value == t0.(attempts := Overlay(t0.attempts, ats, AttemptKey))
  {
    var t := t0;
    for i := 0 to |ats|
      invariant t == t0.(attempts := Overlay(t0.attempts, ats[..i], AttemptKey))
      invariant forall k :: 0 <= k < i ==> NoClashAt(t0.attempts, ats, k)
    {
      OverlayMore(t0.attempts, ats, AttemptKey, i);
      TakenMeansClash(t0.attempts, ats, i);
      var upserted := UpsertAttempt(t, ats[i]);
      if upserted.None? { return None; }
      t := upserted.value;
    }
    assert ats[..|ats|] == ats;
    return Some(t);
  }

  method UpsertTasks(t0: Database, ts: seq<Task>) returns (r: Option<Database>)
    ensures r.Some? <==> forall k :: k in ts ==> k.attemptId in t0.attempts && k.mandateId in t0.mandates
    ensures r.Some? ==> r.value == t0.(tasks := Overlay(t0.tasks, ts, TaskKey))
  {
    var t := t0;
    for i := 0 to |ts|
      invariant t == t0.(tasks := Overlay(t0.tasks, ts[..i], TaskKey))
      invariant forall k :: 0 <= k < i ==> ts[k].attemptId in t0.attempts && ts[k].mandateId in t0.mandates
    {
      OverlayMore(t0.tasks, ts, TaskKey, i);
      var upserted := UpsertTask(t, ts[i]);
      if upserted.None? { return None; }
      t := upserted.value;
    }
    assert ts[..|ts|] == ts;
    return Some(t);
  }

  method UpsertAudits(t0: Database, xs: seq<Audit>) returns (r: Option<Database>)
    ensures r.Some? <==> forall x :: x in xs ==> x.mandateId in t0.mandates
    ensures r.Some? ==> r.value == t0.(audits := Overlay(t0.audits, xs, AuditKey))
  {
    var t := t0;
    for i := 0 to |xs|
      invariant t == t0.(audits := Overlay(t0.audits, xs[..i], AuditKey))
      invariant forall k :: 0 <= k < i ==> xs[k].mandateId in t0.mandates
    {
      OverlayMore(t0.audits, xs, AuditKey, i);
      var upserted := UpsertAudit(t, xs[i]);
      if upserted.None? { return None; }
      t := upserted.value;
    }
    assert xs[..|xs|] == xs;
    return Some(t);
  }

  method UpsertEvents(t0: Database, es: seq<Event>) returns (t: Database)
    ensures t == t0.(events := Overlay(t0.events, es, EventKey))
  {
    t := t0;
    for i := 0 to |es|
      invariant t == t0.(events := Overlay(t0.events, es[..i], EventKey))
    {
      OverlayMore(t0.events, es, EventKey, i);
      t := t.(events := t.events[es[i].id := es[i]]);
    }
    assert es[..|es|] == es;
  }

  /** Every old row overwritten or still there, every new one in place. */
  function Overlaid(t: Database, d: StoreData): Database {
    var image := Image(d);
    Database(t.agents + image.agents, t.mandates + image.mandates, Replaced(t.approved, d.mandates), t.attempts + image.attempts,
             t.tasks + image.tasks, t.audits + image.audits, t.events + image.events)
  }

  lemma OverlaidIsMerged(t: Database, d: StoreData)
    ensures Overlaid(t, d) ==
      Database(Overlay(t.agents, d.agents, AgentKey), Overlay(t.mandates, RowsOf(d.mandates), MandateKey),
               Replaced(t.approved, d.mandates), Overlay(t.attempts, d.attempts, AttemptKey),
               Overlay(t.tasks, d.workerTasks, TaskKey), Overlay(t.audits, d.auditEntries, AuditKey),
               Overlay(t.events, d.domainEvents, EventKey))
  {
    OverlayIsMerge(t.agents, d.agents, AgentKey);
    OverlayIsMerge(t.mandates, RowsOf(d.mandates), MandateKey);
    OverlayIsMerge(t.attempts, d.attempts, AttemptKey);
    OverlayIsMerge(t.tasks, d.workerTasks, TaskKey);
    OverlayIsMerge(t.audits, d.auditEntries, AuditKey);
    OverlayIsMerge(t.events, d.domainEvents, EventKey);
  }

  /** The references of a consistent store, as the tables see them. */
  lemma ConsistentRefers(d: StoreData)
    requires Consistent(d)
    ensures
      var image := Image(d);
      && (forall m :: m in d.mandates ==> m.agentId in image.agents && m.id in image.mandates)
      && (forall a :: a in d.attempts ==> a.mandateId in image.mandates && a.id in image.attempts)
      && (forall k :: k in d.workerTasks ==> k.attemptId in image.attempts && k.mandateId in image.mandates)
      && (forall x :: x in d.auditEntries ==> x.mandateId in image.mandates)
  {
    LatestHasTheRows(d.agents, AgentKey);
    LatestHasTheRows(RowsOf(d.mandates), MandateKey);
    LatestHasTheRows(d.attempts, AttemptKey);
    assert forall g: Agent :: AgentKey(g) == g.id;
    forall m | m in d.mandates ensures m.id in Image(d).mandates {
      var i :| 0 <= i < |d.mandates| && d.mandates[i] == m;
      assert RowsOf(d.mandates)[i] in RowsOf(d.mandates) && MandateKey(RowsOf(d.mandates)[i]) == m.id;
    }
    forall m | m in d.mandates ensures m.agentId in Image(d).agents { assert GoodMandate(d, m); }
    forall a | a in d.attempts ensures a.mandateId in Image(d).mandates && a.id in Image(d).attempts {
      assert GoodAttempt(d, a) && AttemptKey(a) == a.id;
    }
    forall k | k in d.workerTasks ensures k.attemptId in Image(d).attempts && k.mandateId in Image(d).mandates {
      assert GoodTask(d, k);
      var a :| HasAttempt(d, a, k.attemptId, k.mandateId);
      assert AttemptKey(a) == a.id;
    }
    forall x | x in d.auditEntries ensures x.mandateId in Image(d).mandates { assert GoodAudit(d, x); }
  }

  /** While they are written, every reference of the new rows finds its row. */
  lemma UpsertsRefer(t: Database, d: StoreData)
    requires Consistent(d)
    ensures forall m :: m in d.mandates ==> m.agentId in Overlay(t.agents, d.agents, AgentKey)
    ensures forall a :: a in d.attempts ==> a.mandateId in Overlay(t.mandates, RowsOf(d.mandates), MandateKey)
    ensures forall k :: k in d.workerTasks ==>
      k.attemptId in Overlay(t.attempts, d.attempts, AttemptKey) && k.mandateId in Overlay(t.mandates, RowsOf(d.mandates), MandateKey)
    ensures forall x :: x in d.auditEntries ==> x.mandateId in Overlay(t.mandates, RowsOf(d.mandates), MandateKey)
  {
    ConsistentRefers(d);
    OverlayIsMerge(t.agents, d.agents, AgentKey);
    OverlayIsMerge(t.mandates, RowsOf(d.mandates), MandateKey);
    OverlayIsMerge(t.attempts, d.attempts, AttemptKey);
  }

  method UpsertAll(t0: Database, d: StoreData) returns (r: Option<Database>)
    requires Consistent(d)
    ensures r.Some? <==> NoClash(t0.attempts, d.attempts)
    ensures r.Some? ==> r.value == Overlaid(t0, d)
  {
    UpsertsRefer(t0, d);
    OverlaidIsMerged(t0, d);
    var t := UpsertAgents(t0, d.agents);
    var withMandates := UpsertMandates(t, d.mandates);
    var withAttempts := UpsertAttempts(withMandates.value, d.attempts);
    if withAttempts.None? { return None; }
    var withTasks := UpsertTasks(withAttempts.value, d.workerTasks);
    var withAudits := UpsertAudits(withTasks.value, d.auditEntries);
    t := UpsertEvents(withAudits.value, d.domainEvents);
    return Some(t);
  }

  /** The six deletes, children first. */
  function Prune(t: Database, d: StoreData): Option<Database> {
    var image := Image(d);
    var t1 := t.(events := t.events - (t.events.Keys - image.events.Keys));
    var t2 := t1.(audits := t1.audits - (t1.audits.Keys - image.audits.Keys));
    var t3 := t2.(tasks := t2.tasks - (t2.tasks.Keys - image.tasks.Keys));
    PruneAgents(PruneMandates(PruneAttempts(t3, image.attempts.Keys), image.mandates.Keys), image.agents.Keys)
  }

  lemma Trimmed<K, V>(m: map<K, V>, n: map<K, V>)
    ensures (m + n) - ((m + n).Keys - n.Keys) == n
  {}

  /** The tasks all belong to attempts that stay. */
  lemma AttemptsGoAlone(t: Database, image: Database)
    requires t.tasks == image.tasks && forall k :: k in image.tasks ==> image.tasks[k].attemptId in image.attempts
    requires t.attempts - (t.attempts.Keys - image.attempts.Keys) == image.attempts
    ensures PruneAttempts(t, image.attempts.Keys) == t.(attempts := image.attempts)
  {}

  /** The attempts, tasks and entries all belong to mandates that stay. */
  lemma MandatesGoAlone(t: Database, image: Database)
    requires t.attempts == image.attempts && t.tasks == image.tasks && t.audits == image.audits
    requires forall a :: a in image.attempts ==> image.attempts[a].mandateId in image.mandates
    requires forall k :: k in image.tasks ==> image.tasks[k].mandateId in image.mandates
    requires forall x :: x in image.audits ==> image.audits[x].mandateId in image.mandates
    requires t.mandates - (t.mandates.Keys - image.mandates.Keys) == image.mandates
    requires (set p | p in t.approved && p.0 !in t.mandates.Keys - image.mandates.Keys) == image.approved
    ensures PruneMandates(t, image.mandates.Keys) == t.(mandates := image.mandates, approved := image.approved)
  {
    var gone := t.mandates.Keys - image.mandates.Keys;
    var attemptsGone := set a | a in t.attempts && t.attempts[a].mandateId in gone;
    assert attemptsGone == {};
    assert t.attempts - attemptsGone == t.attempts;
    assert (map k | k in t.tasks && t.tasks[k].mandateId !in gone && t.tasks[k].attemptId !in attemptsGone :: t.tasks[k]) == t.tasks;
    assert (map x | x in t.audits && t.audits[x].mandateId !in gone :: t.audits[x]) == t.audits;
  }

  lemma AgentsGo(t: Database, image: Database)
    requires t.mandates == image.mandates && forall m :: m in image.mandates ==> image.mandates[m].agentId in image.agents
    requires t.agents - (t.agents.Keys - image.agents.Keys) == image.agents
    ensures PruneAgents(t, image.agents.Keys) == Some(t.(agents := image.agents))
  {}

  /** Deleting what the new store does not hold leaves exactly the new store; no cascade reaches a row that stays. */
  lemma PruningLeavesTheImage(t0: Database, d: StoreData)
    requires Consistent(d)
    requires forall p :: p in t0.approved ==> p.0 in t0.mandates
    ensures Prune(Overlaid(t0, d), d) == Some(Image(d))
  {
    var image, t := Image(d), Overlaid(t0, d);
    ImageRows(d);
    VendorsThatStay(t0, d);
    Trimmed(t0.events, image.events);
    Trimmed(t0.audits, image.audits);
    Trimmed(t0.tasks, image.tasks);
    Trimmed(t0.attempts, image.attempts);
    Trimmed(t0.mandates, image.mandates);
    Trimmed(t0.agents, image.agents);
    var t3 := t.(events := image.events, audits := image.audits, tasks := image.tasks);
    AttemptsGoAlone(t3, image);
    var t4 := t3.(attempts := image.attempts);
    MandatesGoAlone(t4, image);
    AgentsGo(t4.(mandates := image.mandates, approved := image.approved), image);
  }

  /** Rows of the image are rows of the store. */
  lemma ImageRows(d: StoreData)
    requires Consistent(d)
    ensures
      var image := Image(d);
      && (forall m :: m in image.mandates ==> image.mandates[m].agentId in image.agents)
      && (forall a :: a in image.attempts ==> image.attempts[a].mandateId in image.mandates)
      && (forall k :: k in image.tasks ==> image.tasks[k].attemptId in image.attempts && image.tasks[k].mandateId in image.mandates)
      && (forall x :: x in image.audits ==> image.audits[x].mandateId in image.mandates)
      && (forall p :: p in image.approved ==> p.0 in image.mandates)
  {
    ConsistentRefers(d);
    LatestHasTheRows(RowsOf(d.mandates), MandateKey);
    LatestHasTheRows(d.attempts, AttemptKey);
    LatestHasTheRows(d.workerTasks, TaskKey);
    LatestHasTheRows(d.auditEntries, AuditKey);
    forall m | m in Image(d).mandates ensures Image(d).mandates[m].agentId in Image(d).agents {
      var i :| 0 <= i < |RowsOf(d.mandates)| && RowsOf(d.mandates)[i] == Image(d).mandates[m];
      assert d.mandates[i] in d.mandates;
    }
  }

  lemma VendorsThatStay(t0: Database, d: StoreData)
    requires Consistent(d) && forall p :: p in t0.approved ==> p.0 in t0.mandates
    ensures
      var gone := (t0.mandates + Image(d).mandates).Keys - Image(d).mandates.Keys;
      (set p | p in Replaced(t0.approved, d.mandates) && p.0 !in gone) == Image(d).approved
  {
    ImageRows(d);
    LatestHasTheRows(RowsOf(d.mandates), MandateKey);
    forall id | id in Image(d).mandates ensures exists m :: m in d.mandates && m.id == id {
      var i :| 0 <= i < |RowsOf(d.mandates)| && RowsOf(d.mandates)[i] == Image(d).mandates[id];
      assert d.mandates[i] in d.mandates;
    }
  }

  /** Upsert then prune ends in exactly the new store, from any tables whose constraints hold; it throws exactly for
      an inconsistent store or when an identifier clashes with a row not yet overwritten. */
  method WriteStoreToClient(t0: Database, d: StoreData) returns (r: Option<Database>)
    requires Constrained(t0)
    ensures r.Some? <==> Consistent(d) && NoClash(t0.attempts, d.attempts)
    ensures r.Some? ==> r.value == Image(d)
  {
    var issues := BuildStoreIntegrityReport(d);
    if issues != [] { return None; }
    var upserted := UpsertAll(t0, d);
    if upserted.None? { return None; }
    PruningLeavesTheImage(t0, d);
    r := Prune(upserted.value, d);
  }

  // ---- clear, then insert (SQLite) ----

  /** No key comes twice or is taken, every reference finds its row, and no unique column gets a value twice. */
  ghost predicate Insertable<K, V>(table: map<K, V>, rows: seq<V>, key: V -> K, refers: V -> bool, clashes: (V, V) -> bool) {
    && Distinct(rows, key) && (forall v :: v in rows ==> key(v) !in table && refers(v))
    && (forall i, j :: 0 <= i < j < |rows| ==> !clashes(rows[i], rows[j]))
    && (forall k, v :: k in table && v in rows ==> !clashes(table[k], v))
  }

  /** The table after the first `i` rows: what it held before and those rows, each under its key. */
  ghost predicate HoldsRows<K, V>(t: map<K, V>, table: map<K, V>, rows: seq<V>, key: V -> K, i: nat)
    requires i <= |rows|
  {
    && (forall k :: k in table ==> k in t && t[k] == table[k])
    && (forall j :: 0 <= j < i ==> key(rows[j]) in t && t[key(rows[j])] == rows[j])
    && (forall k :: k in t ==> (k in table && t[k] == table[k]) || exists j :: 0 <= j < i && k == key(rows[j]) && t[k] == rows[j])
  }

  predicate TurnedAway<K, V>(t: map<K, V>, v: V, key: V -> K, refers: V -> bool, clashes: (V, V) -> bool) {
    key(v) in t || !refers(v) || exists k :: k in t && clashes(t[k], v)
  }

  lemma OneMoreRow<K, V>(t: map<K, V>, table: map<K, V>, rows: seq<V>, key: V -> K, refers: V -> bool, clashes: (V, V) -> bool, i: nat)
    requires i < |rows| && HoldsRows(t, table, rows, key, i) && Insertable(table, rows[..i], key, refers, clashes)
    requires !TurnedAway(t, rows[i], key, refers, clashes)
    ensures Insertable(table, rows[..i + 1], key, refers, clashes)
    ensures HoldsRows(t[key(rows[i]) := rows[i]], table, rows, key, i + 1)
  {
    var front, more := rows[..i], rows[..i + 1];
    assert more == front + [rows[i]];
    forall j | 0 <= j < i ensures key(more[j]) != key(more[i]) && !clashes(more[j], more[i]) {
      assert more[j] == rows[j] && key(rows[j]) in t && t[key(rows[j])] == rows[j];
    }
    forall a, b | 0 <= a < b < i ensures key(more[a]) != key(more[b]) && !clashes(more[a], more[b]) {
      assert more[a] == front[a] && more[b] == front[b];
    }
    forall k | k in table ensures !clashes(table[k], rows[i]) {
      assert k in t && t[k] == table[k];
    }
  }

  /** Plain inserts into one table: a repeated key, a missing reference or a clash with a unique column throws. */
  method InsertRows<K(==), V>(table: map<K, V>, rows: seq<V>, key: V -> K, refers: V -> bool, clashes: (V, V) -> bool)
    returns (r: Option<map<K, V>>)
    ensures r.Some? <==> Insertable(table, rows, key, refers, clashes)
    ensures r.Some? ==> r.value == Overlay(table, rows, key)
  {
    var t := table;
    for i := 0 to |rows|
      invariant t == Overlay(table, rows[..i], key) && Insertable(table, rows[..i], key, refers, clashes)
      invariant HoldsRows(t, table, rows, key, i)
    {
      if key(rows[i]) in t || !refers(rows[i]) || exists k :: k in t && clashes(t[k], rows[i]) {
        NotInsertable(t, table, rows, key, refers, clashes, i);
        return None;
      }
      OverlayMore(table, rows, key, i);
      OneMoreRow(t, table, rows, key, refers, clashes, i);
      t := t[key(rows[i]) := rows[i]];
    }
    assert rows[..|rows|] == rows;
    return Some(t);
  }

  /** A row that is turned away shows that the list cannot be inserted. */
  lemma NotInsertable<K, V>(t: map<K, V>, table: map<K, V>, rows: seq<V>, key: V -> K, refers: V -> bool, clashes: (V, V) -> bool, i: nat)
    requires i < |rows| && HoldsRows(t, table, rows, key, i) && TurnedAway(t, rows[i], key, refers, clashes)
    ensures !Insertable(table, rows, key, refers, clashes)
  {
    assert rows[i] in rows;
  }

  method InsertVendors(approved: set<(Id, string)>, m: Mandate) returns (r: Option<set<(Id, string)>>)
    requires !Repeats(m.approvedVendorIds) && forall p :: p in approved ==> p.0 != m.id
    ensures r == Some(approved + VendorsOf(m))
  {
    var vs, pairs := m.approvedVendorIds, approved;
    for i := 0 to |vs|
      invariant pairs == approved + set v | v in vs[..i] :: (m.id, v)
    {
      assert vs[..i + 1] == vs[..i] + [vs[i]];
      if (m.id, vs[i]) in pairs { return None; }
      pairs := pairs + {(m.id, vs[i])};
    }
    assert vs[..|vs|] == vs;
    return Some(pairs);
  }

  method InsertAllVendors(ms: seq<Mandate>) returns (r: Option<set<(Id, string)>>)
    requires Distinct(ms, MandateKey) && forall m :: m in ms ==> !Repeats(m.approvedVendorIds)
    ensures r == Some(ApprovedBy(ms))
  {
    var pairs: set<(Id, string)> := {};
    for i := 0 to |ms|
      invariant pairs == ApprovedBy(ms[..i])
    {
      assert ms[..i + 1] == ms[..i] + [ms[i]];
      forall p | p in pairs ensures p.0 != ms[i].id {
        var m :| m in ms[..i] && p.0 == m.id;
        var k :| 0 <= k < i && ms[k] == m;
        assert MandateKey(ms[k]) != MandateKey(ms[i]);
      }
      var more := InsertVendors(pairs, ms[i]);
      if more.None? { return None; }
      pairs := more.value;
    }
    assert ms[..|ms|] == ms;
    return Some(pairs);
  }

  /** Clear, then insert, whatever the tables held: throws exactly for an inconsistent store, and ends in exactly the
      new store. (The vendors of all mandates are inserted after the mandates; no row depends on them.) */
  method WriteStoreSync(t0: Database, d: StoreData) returns (r: Option<Database>)
    ensures r.Some? <==> Consistent(d)
    ensures r.Some? ==> r.value == Image(d)
  {
    var issues := BuildStoreIntegrityReport(d);
    if issues != [] { return None; }
    r := InsertAll(d);
  }

  function NoUniqueColumn<V>(): (V, V) -> bool { (x, y) => false }
  function SameIdentifier(): (Attempt, Attempt) -> bool { (x: Attempt, y: Attempt) => x.paymentIdentifier == y.paymentIdentifier }
  function NoReference<V>(): V -> bool { v => true }
  function AgentIn(t: Database): Mandate -> bool { (m: Mandate) => m.agentId in t.agents }
  function MandateIn(t: Database): Attempt -> bool { (a: Attempt) => a.mandateId in t.mandates }
  function AttemptAndMandateIn(t: Database): Task -> bool { (k: Task) => k.attemptId in t.attempts && k.mandateId in t.mandates }
  function MandateOfAuditIn(t: Database): Audit -> bool { (x: Audit) => x.mandateId in t.mandates }

  lemma OverlayOfNothing<K, V>(rows: seq<V>, key: V -> K)
    ensures Overlay(map[], rows, key) == Latest(rows, key)
  {
    OverlayIsMerge(map[], rows, key);
  }

  lemma InsertedIsImage(d: StoreData)
    ensures Image(d) ==
      Database(Overlay(EMPTY.agents, d.agents, AgentKey), Overlay(EMPTY.mandates, RowsOf(d.mandates), MandateKey),
               ApprovedBy(d.mandates), Overlay(EMPTY.attempts, d.attempts, AttemptKey),
               Overlay(EMPTY.tasks, d.workerTasks, TaskKey), Overlay(EMPTY.audits, d.auditEntries, AuditKey),
               Overlay(EMPTY.events, d.domainEvents, EventKey))
  {
    OverlayOfNothing(d.agents, AgentKey);
    OverlayOfNothing(RowsOf(d.mandates), MandateKey);
    OverlayOfNothing(d.attempts, AttemptKey);
    OverlayOfNothing(d.workerTasks, TaskKey);
    OverlayOfNothing(d.auditEntries, AuditKey);
    OverlayOfNothing(d.domainEvents, EventKey);
  }

  method InsertAll(d: StoreData) returns (r: Option<Database>)
    requires Consistent(d)
    ensures r == Some(Image(d))
  {
    var image := Image(d);
    ReadyToInsert(d);
    InsertedIsImage(d);
    var agents := InsertRows(EMPTY.agents, d.agents, AgentKey, NoReference<Agent>(), NoUniqueColumn<Agent>());
    if agents.None? { return None; }
    var mandates := InsertRows(EMPTY.mandates, RowsOf(d.mandates), MandateKey, AgentIn(image), NoUniqueColumn<Mandate>());
    if mandates.None? { return None; }
    var approved := InsertAllVendors(d.mandates);
    if approved.None? { return None; }
    var attempts := InsertRows(EMPTY.attempts, d.attempts, AttemptKey, MandateIn(image), SameIdentifier());
    if attempts.None? { return None; }
    var tasks := InsertRows(EMPTY.tasks, d.workerTasks, TaskKey, AttemptAndMandateIn(image), NoUniqueColumn<Task>());
    if tasks.None? { return None; }
    var audits := InsertRows(EMPTY.audits, d.auditEntries, AuditKey, MandateOfAuditIn(image), NoUniqueColumn<Audit>());
    if audits.None? { return None; }
    var events := InsertRows(EMPTY.events, d.domainEvents, EventKey, NoReference<Event>(), NoUniqueColumn<Event>());
    if events.None? { return None; }
    return Some(Database(agents.value, mandates.value, approved.value, attempts.value, tasks.value, audits.value, events.value));
  }

  /** In a consistent store nothing stands in the way of an insert. */
  lemma ReadyToInsert(d: StoreData)
    requires Consistent(d)
    ensures Insertable(EMPTY.agents, d.agents, AgentKey, NoReference<Agent>(), NoUniqueColumn<Agent>())
    ensures Insertable(EMPTY.mandates, RowsOf(d.mandates), MandateKey, AgentIn(Image(d)), NoUniqueColumn<Mandate>())
    ensures Insertable(EMPTY.attempts, d.attempts, AttemptKey, MandateIn(Image(d)), SameIdentifier())
    ensures Insertable(EMPTY.tasks, d.workerTasks, TaskKey, AttemptAndMandateIn(Image(d)), NoUniqueColumn<Task>())
    ensures Insertable(EMPTY.audits, d.auditEntries, AuditKey, MandateOfAuditIn(Image(d)), NoUniqueColumn<Audit>())
    ensures Insertable(EMPTY.events, d.domainEvents, EventKey, NoReference<Event>(), NoUniqueColumn<Event>())
    ensures forall m :: m in d.mandates ==> !Repeats(m.approvedVendorIds)
  {
    ConsistentRefers(d);
    RowsAreDistinct(d);
    forall m | m in RowsOf(d.mandates) ensures m.agentId in Image(d).agents {
      var i :| 0 <= i < |RowsOf(d.mandates)| && RowsOf(d.mandates)[i] == m;
      assert d.mandates[i] in d.mandates;
    }
    forall i, j | 0 <= i < j < |d.attempts| ensures d.attempts[i].paymentIdentifier != d.attempts[j].paymentIdentifier {
      assert IdentifierKey(d.attempts[i]) != IdentifierKey(d.attempts[j]);
    }
    forall m | m in d.mandates ensures !Repeats(m.approvedVendorIds) { assert GoodMandate(d, m); }
  }

  lemma RowsAreDistinct(d: StoreData)
    requires Consistent(d)
    ensures Distinct(RowsOf(d.mandates), MandateKey)
  {
    var rows := RowsOf(d.mandates);
    forall i, j | 0 <= i < j < |rows| ensures MandateKey(rows[i]) != MandateKey(rows[j]) {
      assert MandateKey(d.mandates[i]) != MandateKey(d.mandates[j]);
    }
  }

  // ---- when the two agree ----

  /** Attempts that stay keep their identifiers, and those of dropped attempts are not used again. */
  ghost predicate IdentifiersSettled(held: map<Id, Attempt>, ats: seq<Attempt>) {
    && (forall a :: a in ats && a.id in held ==> held[a.id].paymentIdentifier == a.paymentIdentifier)
    && (forall b, a :: b in held && b !in Latest(ats, AttemptKey) && a in ats ==> a.paymentIdentifier != held[b].paymentIdentifier)
  }

  /** That is enough for the upserts not to clash, in any order of the list. */
  lemma SettledIdentifiersDoNotClash(held: map<Id, Attempt>, ats: seq<Attempt>)
    requires Distinct(ats, AttemptKey) && Distinct(ats, IdentifierKey) && IdentifiersSettled(held, ats)
    ensures NoClash(held, ats)
  {
    forall i | 0 <= i < |ats| ensures NoClashAt(held, ats, i) {
      forall b | b in held && b != ats[i].id && b !in Latest(ats[..i], AttemptKey)
        ensures held[b].paymentIdentifier != ats[i].paymentIdentifier
      {
        if b in Latest(ats, AttemptKey) { StayingRowDoesNotClash(held, ats, i, b); } else { assert ats[i] in ats; }
      }
    }
  }

  /** A row that stays keeps its identifier, so no other row takes it. */
  lemma StayingRowDoesNotClash(held: map<Id, Attempt>, ats: seq<Attempt>, i: nat, b: Id)
    requires Distinct(ats, IdentifierKey) && IdentifiersSettled(held, ats) && i < |ats|
    requires b in held && b != ats[i].id && b in Latest(ats, AttemptKey)
    ensures held[b].paymentIdentifier != ats[i].paymentIdentifier
  {
    LatestHasTheRows(ats, AttemptKey);
    var row := Latest(ats, AttemptKey)[b];
    assert row in ats && row.id == b && held[row.id].paymentIdentifier == row.paymentIdentifier;
    DistinctRowsAreFound(ats, IdentifierKey, row);
    DistinctRowsAreFound(ats, IdentifierKey, ats[i]);
  }

  lemma IdentifiersOfImageAreUnique(d: StoreData, a: Id, b: Id)
    requires Consistent(d) && a in Image(d).attempts && b in Image(d).attempts
    requires Image(d).attempts[a].paymentIdentifier == Image(d).attempts[b].paymentIdentifier
    ensures a == b
  {
    var ats := Image(d).attempts;
    LatestHasTheRows(d.attempts, AttemptKey);
    var i :| 0 <= i < |d.attempts| && d.attempts[i] == ats[a];
    var j :| 0 <= j < |d.attempts| && d.attempts[j] == ats[b];
    assert i < j ==> IdentifierKey(d.attempts[i]) != IdentifierKey(d.attempts[j]);
    assert j < i ==> IdentifierKey(d.attempts[j]) != IdentifierKey(d.attempts[i]);
  }

  /** The tables of a consistent store keep their constraints. */
  lemma ImageIsConstrained(d: StoreData)
    requires Consistent(d)
    ensures Constrained(Image(d))
  {
    ImageRows(d);
    LatestHasTheRows(d.attempts, AttemptKey);
    var ats := Image(d).attempts;
    forall a, b | a in ats && b in ats && ats[a].paymentIdentifier == ats[b].paymentIdentifier ensures a == b {
      IdentifiersOfImageAreUnique(d, a, b);
    }
  }

  /** The store in which two attempts have swapped their payment identifiers. */
  function Swapped(d: StoreData, i: nat, j: nat): StoreData
    requires i < j < |d.attempts|
  {
    var x, y := d.attempts[i], d.attempts[j];
    d.(attempts := d.attempts[i := x.(paymentIdentifier := y.paymentIdentifier)][j := y.(paymentIdentifier := x.paymentIdentifier)])
  }

  /** What attempt rows are asked for by other rows is the same after the swap. */
  lemma SwapKeepsTargets(d: StoreData, i: nat, j: nat, a: Attempt)
    requires i < j < |d.attempts| && a in d.attempts
    ensures exists b :: b in Swapped(d, i, j).attempts && b.id == a.id && b.mandateId == a.mandateId && b.operatorId == a.operatorId
  {
    var k :| 0 <= k < |d.attempts| && d.attempts[k] == a;
    assert Swapped(d, i, j).attempts[k] in Swapped(d, i, j).attempts;
  }

  lemma SwapKeepsKeys(d: StoreData, i: nat, j: nat)
    requires Consistent(d) && i < j < |d.attempts|
    ensures Distinct(Swapped(d, i, j).attempts, AttemptKey) && Distinct(Swapped(d, i, j).attempts, IdentifierKey)
  {
    var ats, ats' := d.attempts, Swapped(d, i, j).attempts;
    forall m, n | 0 <= m < n < |ats'| ensures AttemptKey(ats'[m]) != AttemptKey(ats'[n]) {
      assert AttemptKey(ats[m]) != AttemptKey(ats[n]);
    }
    forall m, n | 0 <= m < n < |ats'| ensures IdentifierKey(ats'[m]) != IdentifierKey(ats'[n]) {
      var m', n' := if m == i then j else if m == j then i else m, if n == i then j else if n == j then i else n;
      assert m' < n' ==> IdentifierKey(ats[m']) != IdentifierKey(ats[n']);
      assert n' < m' ==> IdentifierKey(ats[n']) != IdentifierKey(ats[m']);
    }
  }

  lemma SwapStaysConsistent(d: StoreData, i: nat, j: nat)
    requires Consistent(d) && i < j < |d.attempts|
    ensures Consistent(Swapped(d, i, j))
  {
    var d' := Swapped(d, i, j);
    SwapKeepsKeys(d, i, j);
    assert d.attempts[i] in d.attempts && d.attempts[j] in d.attempts;
    forall m | m in d'.mandates ensures GoodMandate(d', m) { assert GoodMandate(d, m); }
    forall a | a in d'.attempts ensures GoodAttempt(d', a) {
      var k :| 0 <= k < |d'.attempts| && d'.attempts[k] == a;
      assert GoodAttempt(d, d.attempts[k]) && GoodAttempt(d, d.attempts[i]) && GoodAttempt(d, d.attempts[j]);
      assert HasMandate(d, a.mandateId);
    }
    forall t | t in d'.workerTasks ensures GoodTask(d', t) {
      assert GoodTask(d, t) && HasMandate(d, t.mandateId);
      var a :| HasAttempt(d, a, t.attemptId, t.mandateId) && (t.operatorId.Some? ==> t.operatorId.value == a.operatorId);
      SwapKeepsTargets(d, i, j, a);
      var b :| b in d'.attempts && b.id == a.id && b.mandateId == a.mandateId && b.operatorId == a.operatorId;
      assert HasAttempt(d', b, t.attemptId, t.mandateId);
    }
    forall x | x in d'.auditEntries ensures GoodAudit(d', x) {
      assert GoodAudit(d, x) && HasMandate(d, x.mandateId);
      if x.attemptId.Some? {
        var a :| HasAttempt(d, a, x.attemptId.value, x.mandateId);
        SwapKeepsTargets(d, i, j, a);
        var b :| b in d'.attempts && b.id == a.id && b.mandateId == a.mandateId && b.operatorId == a.operatorId;
        assert HasAttempt(d', b, x.attemptId.value, x.mandateId);
      }
    }
    forall e | e in d'.domainEvents ensures GoodEvent(d', e) {
      assert GoodEvent(d, e);
      if e.entityType == OfAttempt {
        var a :| a in d.attempts && a.id == e.entityId;
        SwapKeepsTargets(d, i, j, a);
      } else if e.entityType == OfMandate {
        assert HasMandate(d, e.entityId);
      }
    }
  }

  /** Without it the two writers differ: over the tables of any consistent store, a consistent store in which two
      attempts have swapped their identifiers is refused by the upserts, and accepted by clear-then-insert. */
  lemma SwappedIdentifiersClash(d: StoreData, i: nat, j: nat)
    requires Consistent(d) && i < j < |d.attempts|
    ensures Constrained(Image(d)) && Consistent(Swapped(d, i, j)) && !NoClash(Image(d).attempts, Swapped(d, i, j).attempts)
  {
    ImageIsConstrained(d);
    SwapStaysConsistent(d, i, j);
    var held, ats' := Image(d).attempts, Swapped(d, i, j).attempts;
    var y := d.attempts[j];
    DistinctRowsAreFound(d.attempts, AttemptKey, y);
    assert AttemptKey(d.attempts[i]) != AttemptKey(y);
    LatestHasTheRows(ats'[..i], AttemptKey);
    forall a | a in ats'[..i] ensures a.id != y.id {
      var k :| 0 <= k < i && ats'[..i][k] == a;
      assert AttemptKey(d.attempts[k]) != AttemptKey(d.attempts[j]);
    }
    assert !NoClashAt(held, ats', i);
  }

  /** A store with two attempts, in which nothing is missing. */
  function TwoAttempts(): StoreData {
    var m := Mandate(0, "m", "g", "G", IssuedActive, 2, 0, 2, false, [], "tx", None, 1, 0, 0);
    var x := Attempt(1, 0, "v", 1, "o", ChargeSucceeded, ChargeSucceeded, NotRequired, None, None, "p", 0, 0);
    StoreData([Agent("g", "G", true)], [m], [x, x.(id := 2, paymentIdentifier := "q")], [], [], [], [])
  }

  /** There are such stores. */
  lemma SomeConsistentStoreIsRefused()
    ensures exists d, d' :: Consistent(d) && Consistent(d') && Constrained(Image(d)) && !NoClash(Image(d).attempts, d'.attempts)
  {
    var d := TwoAttempts();
    assert Agent("g", "G", true) in d.agents;
    assert d.mandates[0] in d.mandates && HasMandate(d, 0);
    assert "p"[0] in "p" && "q"[0] in "q" && !IsSpace('p') && !IsSpace('q');
    assert forall a :: a in d.attempts ==> GoodAttempt(d, a);
    assert Consistent(d);
    SwappedIdentifiersClash(d, 0, 1);
  }

  // ---- reading back ----

  /** What the queries return: the rows of each table in some order, and the vendor pairs by vendor. */
  datatype Answers = Answers(agents: seq<Agent>, vendors: seq<(Id, string)>, mandates: seq<Mandate>, attempts: seq<Attempt>,
                             tasks: seq<Task>, audits: seq<Audit>, events: seq<Event>)

  ghost predicate Selects<K, V>(rows: seq<V>, table: map<K, V>, key: V -> K) {
    Distinct(rows, key) && Latest(rows, key) == table
  }

  ghost predicate AnswersFor(q: Answers, t: Database, collates: (string, string) -> bool) {
    && Selects(q.agents, t.agents, AgentKey) && Selects(q.mandates, t.mandates, MandateKey)
    && Selects(q.attempts, t.attempts, AttemptKey) && Selects(q.tasks, t.tasks, TaskKey)
    && Selects(q.audits, t.audits, AuditKey) && Selects(q.events, t.events, EventKey)
    && !Repeats(q.vendors) && (forall p :: p in q.vendors <==> p in t.approved)
    && (forall i, j :: 0 <= i < j < |q.vendors| ==> !collates(q.vendors[j].1, q.vendors[i].1))
  }

  /** The vendors of one mandate, in the order of the rows. */
  function VendorsFor(rows: seq<(Id, string)>, m: Id): (vs: seq<string>)
    ensures forall v :: v in vs <==> (m, v) in rows
  {
    if rows == [] then []
    else
      var last := rows[|rows| - 1];
      assert rows == rows[..|rows| - 1] + [last];
      VendorsFor(rows[..|rows| - 1], m) + if last.0 == m then [last.1] else []
  }

  function At(byMandate: map<Id, seq<string>>, m: Id): seq<string> {
    if m in byMandate then byMandate[m] else []
  }

  lemma OneMoreVendor(rows: seq<(Id, string)>, i: nat, m: Id)
    requires i < |rows|
    ensures VendorsFor(rows[..i + 1], m) == VendorsFor(rows[..i], m) + if rows[i].0 == m then [rows[i].1] else []
  {
    assert rows[..i + 1][..i] == rows[..i];
  }

  method GroupVendors(rows: seq<(Id, string)>) returns (byMandate: map<Id, seq<string>>)
    ensures forall m :: At(byMandate, m) == VendorsFor(rows, m)
  {
    byMandate := map[];
    for i := 0 to |rows|
      invariant forall m :: At(byMandate, m) == VendorsFor(rows[..i], m)
    {
      ghost var before := byMandate;
      var id := rows[i].0;
      var current := if id in byMandate then byMandate[id] else [];
      byMandate := byMandate[id := current + [rows[i].1]];
      forall m ensures At(byMandate, m) == VendorsFor(rows[..i + 1], m) {
        assert At(before, m) == VendorsFor(rows[..i], m);
        OneMoreVendor(rows, i, m);
      }
    }
    assert rows[..|rows|] == rows;
  }

  /** The store the rows make up; grouped approvals have no table. */
  function Assembled(q: Answers): StoreData {
    StoreData(q.agents, seq(|q.mandates|, i requires 0 <= i < |q.mandates| =>
                q.mandates[i].(approvedVendorIds := VendorsFor(q.vendors, q.mandates[i].id))),
              q.attempts, q.tasks, q.audits, q.events, [])
  }

  /** The check on the read throws for rows that do not fit together. */
  method ReadStoreFromClient(q: Answers) returns (r: Option<StoreData>)
    ensures r == if Consistent(Assembled(q)) then Some(Assembled(q)) else None
  {
    var byMandate := GroupVendors(q.vendors);
    var mandates: seq<Mandate> := [];
    for i := 0 to |q.mandates|
      invariant mandates == Assembled(q).mandates[..i]
    {
      var m := q.mandates[i];
      assert At(byMandate, m.id) == VendorsFor(q.vendors, m.id);
      mandates := mandates + [m.(approvedVendorIds := if m.id in byMandate then byMandate[m.id] else [])];
    }
    var store := StoreData(q.agents, mandates, q.attempts, q.tasks, q.audits, q.events, []);
    assert store == Assembled(q);
    var issues := BuildStoreIntegrityReport(store);
    return if issues == [] then Some(store) else None;
  }

  lemma SameRows<K, V>(xs: seq<V>, ys: seq<V>, key: V -> K)
    requires Distinct(xs, key) && Distinct(ys, key) && Latest(xs, key) == Latest(ys, key)
    ensures multiset(xs) == multiset(ys)
  {
    LatestHasTheRows(xs, key);
    LatestHasTheRows(ys, key);
    forall v ensures multiset(xs)[v] == multiset(ys)[v] {
      DistinctOccursOnce(xs, key, v);
      DistinctOccursOnce(ys, key, v);
      if v in xs { DistinctRowsAreFound(xs, key, v); }
      if v in ys { DistinctRowsAreFound(ys, key, v); }
      assert v in xs <==> v in ys;
      assert v in multiset(xs) <==> v in xs;
      assert v in multiset(ys) <==> v in ys;
    }
  }

  lemma {:induction false} VendorsDoNotRepeat(rows: seq<(Id, string)>, m: Id)
    requires !Repeats(rows)
    ensures !Repeats(VendorsFor(rows, m))
  {
    if rows == [] {
    } else {
      var front, last := rows[..|rows| - 1], rows[|rows| - 1];
      assert rows == front + [last];
      RepeatsGrows(front, last);
      VendorsDoNotRepeat(front, m);
      if last.0 == m { RepeatsGrows(VendorsFor(front, m), last.1); }
    }
  }

  /** A mandate read back: the same but for the order of its vendors. */
  ghost predicate SameButForVendorOrder(m: Mandate, n: Mandate) {
    && m == n.(approvedVendorIds := m.approvedVendorIds) && !Repeats(m.approvedVendorIds)
    && forall v :: v in m.approvedVendorIds <==> v in n.approvedVendorIds
  }

  /** Reading back what was written gives the same store up to the order of the lists, without grouped approvals. */
  lemma WhatIsWrittenIsReadBack(d: StoreData, q: Answers, collates: (string, string) -> bool)
    requires Consistent(d) && AnswersFor(q, Image(d), collates)
    ensures
      var back := Assembled(q);
      && multiset(back.agents) == multiset(d.agents) && multiset(back.attempts) == multiset(d.attempts)
      && multiset(back.workerTasks) == multiset(d.workerTasks) && multiset(back.auditEntries) == multiset(d.auditEntries)
      && multiset(back.domainEvents) == multiset(d.domainEvents) && back.groupedApprovals == []
      && |back.mandates| == |d.mandates| && Distinct(back.mandates, MandateKey)
      && forall m :: m in back.mandates ==> exists n :: n in d.mandates && SameButForVendorOrder(m, n)
  {
    SameRows(q.agents, d.agents, AgentKey);
    SameRows(q.attempts, d.attempts, AttemptKey);
    SameRows(q.tasks, d.workerTasks, TaskKey);
    SameRows(q.audits, d.auditEntries, AuditKey);
    SameRows(q.events, d.domainEvents, EventKey);
    RowsAreDistinct(d);
    SameRows(q.mandates, RowsOf(d.mandates), MandateKey);
    assert |multiset(q.mandates)| == |multiset(RowsOf(d.mandates))|;
    var back := Assembled(q);
    forall i, j | 0 <= i < j < |back.mandates| ensures MandateKey(back.mandates[i]) != MandateKey(back.mandates[j]) {
      assert MandateKey(q.mandates[i]) != MandateKey(q.mandates[j]);
    }
    forall m | m in back.mandates ensures exists n :: n in d.mandates && SameButForVendorOrder(m, n) {
      var i :| 0 <= i < |back.mandates| && back.mandates[i] == m;
      var n := MandateReadBack(d, q, i, collates);
    }
  }

  lemma MandateReadBack(d: StoreData, q: Answers, i: nat, collates: (string, string) -> bool) returns (n: Mandate)
    requires Consistent(d) && AnswersFor(q, Image(d), collates) && i < |q.mandates|
    requires multiset(q.mandates) == multiset(RowsOf(d.mandates))
    ensures n in d.mandates && SameButForVendorOrder(Assembled(q).mandates[i], n)
  {
    assert q.mandates[i] in multiset(RowsOf(d.mandates));
    var k :| 0 <= k < |d.mandates| && RowsOf(d.mandates)[k] == q.mandates[i];
    n := d.mandates[k];
    VendorsDoNotRepeat(q.vendors, n.id);
    forall v ensures v in VendorsFor(q.vendors, n.id) <==> v in n.approvedVendorIds {
      if (n.id, v) in ApprovedBy(d.mandates) {
        var m :| m in d.mandates && m.id == n.id && v in m.approvedVendorIds;
        var j :| 0 <= j < |d.mandates| && d.mandates[j] == m;
        assert MandateKey(d.mandates[j]) == MandateKey(d.mandates[k]);
      }
    }
  }

  /** Each mandate's vendors come back in the order of the collation. */
  lemma {:induction false} VendorsComeBackSorted(rows: seq<(Id, string)>, m: Id, collates: (string, string) -> bool)
    requires forall i, j :: 0 <= i < j < |rows| ==> !collates(rows[j].1, rows[i].1)
    ensures forall i, j :: 0 <= i < j < |VendorsFor(rows, m)| ==> !collates(VendorsFor(rows, m)[j], VendorsFor(rows, m)[i])
  {
    if rows == [] {
    } else {
      var front, last := rows[..|rows| - 1], rows[|rows| - 1];
      VendorsComeBackSorted(front, m, collates);
      forall v | v in VendorsFor(front, m) ensures !collates(last.1, v) {
        assert (m, v) in front;
        var k :| 0 <= k < |front| && front[k] == (m, v);
        assert rows[k] == (m, v);
      }
    }
  }
}

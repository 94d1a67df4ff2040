/** What issuing and revoking a mandate come to, told by the request and the rows alone: when they succeed, with which
    error they fail otherwise, and everything that is different afterwards. */
module MandateTheorems {
  import opened Domain
  import opened Ledger
  import opened Entries
  import opened Protocol

  // ---- the approved vendors ----

  /** Some given id trims to `v`. */
  predicate AsksFor(ids: seq<string>, v: string) {
    exists i :: 0 <= i < |ids| && Trim(ids[i]) == v
  }

  /** `v` is asked for before `w` is. */
  predicate AskedBefore(ids: seq<string>, v: string, w: string) {
    exists i :: 0 <= i < |ids| && Trim(ids[i]) == v && forall k :: 0 <= k <= i ==> Trim(ids[k]) != w
  }

  /** The vendors asked for, each once, in the order in which they are first asked for. */
  ghost predicate FirstOccurrences(ids: seq<string>, vendors: seq<string>) {
    && (forall v :: v in vendors <==> AsksFor(ids, v))
    && (forall j, k :: 0 <= j < k < |vendors| ==> vendors[j] != vendors[k] && AskedBefore(ids, vendors[j], vendors[k]))
  }

  predicate KnownVendors(ids: seq<string>) {
    ids != [] && forall i :: 0 <= i < |ids| ==> Registered(Trim(ids[i]))
  }

  lemma {:induction false} DedupeKeepsOrder(ids: seq<string>, j: nat, k: nat)
    requires j < k < |Dedupe(ids)|
    ensures exists i :: 0 <= i < |ids| && ids[i] == Dedupe(ids)[j] && Dedupe(ids)[k] !in ids[..i + 1]
  {
    var front, last := ids[..|ids| - 1], ids[|ids| - 1];
    var r := Dedupe(front);
    if k < |r| {
      DedupeKeepsOrder(front, j, k);
      var i :| 0 <= i < |front| && front[i] == r[j] && r[k] !in front[..i + 1];
      assert front[..i + 1] == ids[..i + 1];
    } else {
      assert r[j] in front;
      var i :| 0 <= i < |front| && front[i] == r[j];
      assert forall v :: v in ids[..i + 1] ==> v in front;
    }
  }

  lemma TrimmedAndUnique(ids: seq<string>)
    ensures FirstOccurrences(ids, Dedupe(TrimAll(ids)))
  {
    var trimmed := TrimAll(ids);
    var vendors := Dedupe(trimmed);
    forall v ensures v in vendors <==> AsksFor(ids, v) {
      if v in trimmed { var i :| 0 <= i < |trimmed| && trimmed[i] == v; }
      if AsksFor(ids, v) {
        var i :| 0 <= i < |ids| && Trim(ids[i]) == v;
        assert trimmed[i] in trimmed;
      }
    }
    forall j, k | 0 <= j < k < |vendors| ensures vendors[j] != vendors[k] && AskedBefore(ids, vendors[j], vendors[k]) {
      DedupeKeepsOrder(trimmed, j, k);
      var i :| 0 <= i < |trimmed| && trimmed[i] == vendors[j] && vendors[k] !in trimmed[..i + 1];
      assert forall n :: 0 <= n <= i ==> trimmed[..i + 1][n] == Trim(ids[n]);
    }
  }

  /** The vendors asked for are accepted exactly if there is one and all are registered, and then they are kept all, each
      once, in the order of the request. */
  lemma VendorsAskedForAreKept(ids: seq<string>)
    ensures
      var r := NormalizeApprovedVendorIds(ids);
      if KnownVendors(ids) then r.Ok? && FirstOccurrences(ids, r.value) else r == Err(Validation)
  {
    TrimmedAndUnique(ids);
    var vendors := Dedupe(TrimAll(ids));
    if KnownVendors(ids) {
      forall v | v in ids ensures !Blank(v) {
        var i :| 0 <= i < |ids| && ids[i] == v;
        RegistryIs(Trim(v));
      }
      assert AsksFor(ids, Trim(ids[0]));
      forall v | v in vendors ensures Registered(v) {
        var i :| 0 <= i < |ids| && Trim(ids[i]) == v;
      }
    } else if ids != [] {
      var i :| 0 <= i < |ids| && !Registered(Trim(ids[i]));
      assert AsksFor(ids, Trim(ids[i]));
    } else {
      assert forall v :: !AsksFor(ids, v);
    }
  }

  // ---- issuing ----

  /** The request is well formed and comes from an active agent. */
  predicate MayIssue(l: Ledger, input: CreateInput, now: Millis) {
    && !Blank(input.name) && 0 < input.budgetCapCents && now < input.expiresAt
    && input.agentId in l.agents && l.agents[input.agentId].active
  }

  /** A mandate is issued exactly if the request is well formed, the anchor returned a reference that is not blank, and
      the vendors are known; a failing anchor is noticed before unknown vendors. */
  lemma WhenAMandateIsIssued(l: Ledger, input: CreateInput, anchor: Option<string>, now: Millis)
    ensures
      var r := CreateMandate(l, input, anchor, now);
      if !MayIssue(l, input, now) then r == Err(Validation)
      else if anchor.None? then r == Err(AnchorFailed)
      else r.Ok? == (!Blank(anchor.value) && KnownVendors(input.approvedVendorIds)) && (r.Err? ==> r == Err(Validation))
  {
    VendorsAskedForAreKept(input.approvedVendorIds);
  }

  /** `l'` is `l` with the mandate that was asked for, nothing reserved or consumed on it, and its two entries. */
  ghost predicate Issued(l: Ledger, l': Ledger, input: CreateInput, anchor: Option<string>, now: Millis) {
    && l.nextId in l'.mandates && l'.mandates == l.mandates[l.nextId := l'.mandates[l.nextId]]
    && l'.attempts == l.attempts && l'.tasks == l.tasks && l'.agents == l.agents
    && (var m := l'.mandates[l.nextId];
        && m.id == l.nextId && m.status == IssuedActive && m.name == Trim(input.name)
        && input.agentId in l.agents && m.agentId == input.agentId && m.agentName == l.agents[input.agentId].name
        && m.budgetCapCents == input.budgetCapCents && m.reservedCents == 0 == m.consumedCents
        && m.requiresReceiptCapability == input.requiresReceiptCapability && m.expiresAt == input.expiresAt
        && FirstOccurrences(input.approvedVendorIds, m.approvedVendorIds)
        && anchor == Some(m.morphIssueTxId) && m.morphRevokeTxId == None && m.createdAt == now == m.updatedAt)
    && Writes(l, l', [AuditNote(l.nextId, None, AuditMandateIssued)], [EventNote(OfMandate, l.nextId, MandateIssued)], now)
  }

  /** The new mandate is what was asked for; nothing else is new but its two entries. */
  lemma IssuedAsAskedFor(l: Ledger, input: CreateInput, anchor: Option<string>, now: Millis)
    requires CreateMandate(l, input, anchor, now).Ok?
    ensures Issued(l, CreateMandate(l, input, anchor, now).value.ledger, input, anchor, now)
  {
    VendorsAskedForAreKept(input.approvedVendorIds);
    IssueWrites(l, input, anchor, now);
  }

  lemma IssueWrites(l: Ledger, input: CreateInput, anchor: Option<string>, now: Millis)
    requires CreateMandate(l, input, anchor, now).Ok?
    ensures Writes(l, CreateMandate(l, input, anchor, now).value.ledger, [AuditNote(l.nextId, None, AuditMandateIssued)],
                   [EventNote(OfMandate, l.nextId, MandateIssued)], now)
  {
    var l' := CreateMandate(l, input, anchor, now).value.ledger;
    var l1 := l.(mandates := l'.mandates, nextId := l.nextId + 1);
    NothingWritten(l, l1, now);
    AuditWritten(l, l1, [], [], l.nextId, AuditMandateIssued, None, now);
    EventWritten(l, WithAudit(l1, l.nextId, AuditMandateIssued, None, now), [AuditNote(l.nextId, None, AuditMandateIssued)], [],
                 OfMandate, l.nextId, MandateIssued, now);
  }

  /** In any state a request for a mandate issues it or changes nothing. */
  lemma IssueTakesEffect(s: Sys, input: CreateInput, anchor: Option<string>)
    ensures
      var s' := Do(s, Create(input, anchor));
      if MayIssue(s.ledger, input, s.now) && anchor.Some? && !Blank(anchor.value) && KnownVendors(input.approvedVendorIds)
      then s' == s.(ledger := s'.ledger) && Issued(s.ledger, s'.ledger, input, anchor, s.now)
      else s' == s
  {
    WhenAMandateIsIssued(s.ledger, input, anchor, s.now);
    if CreateMandate(s.ledger, input, anchor, s.now).Ok? { IssuedAsAskedFor(s.ledger, input, anchor, s.now); }
    CreationCommits(s, input, anchor);
  }

  lemma CreationCommits(s: Sys, input: CreateInput, anchor: Option<string>)
    ensures
      var r := CreateMandate(s.ledger, input, anchor, s.now);
      Do(s, Create(input, anchor)) == if r.Ok? then s.(ledger := r.value.ledger) else s
  {}

  // ---- revoking ----

  /** A mandate is revoked exactly if it is live, with or without a reservation, and the anchor returned a reference that
      is not blank. */
  lemma WhenAMandateIsRevoked(l: Ledger, m: Id, anchor: Option<string>, now: Millis)
    ensures
      var r := RevokeMandate(l, m, anchor, now);
      if m !in l.mandates then r == Err(NotFound)
      else if l.mandates[m].status != IssuedActive && l.mandates[m].status != IssuedReserved then r == Err(InvalidTransition)
      else if anchor.None? then r == Err(AnchorFailed)
      else if Blank(anchor.value) then r == Err(Validation)
      else r.Ok?
  {}

  /** `l'` is `l` with the mandate revoked and its two entries: what is reserved and consumed and every term of the
      mandate stay, and so does every other row. */
  ghost predicate RevokedOnly(l: Ledger, l': Ledger, m: Id, anchor: Option<string>, now: Millis) {
    && m in l.mandates && m in l'.mandates && l'.mandates == l.mandates[m := l'.mandates[m]]
    && l'.attempts == l.attempts && l'.tasks == l.tasks && l'.agents == l.agents
    && (var before, after := l.mandates[m], l'.mandates[m];
        && after.status == Revoked && after.morphRevokeTxId == anchor && after.updatedAt == now
        && before == after.(status := before.status, morphRevokeTxId := before.morphRevokeTxId, updatedAt := before.updatedAt))
    && Writes(l, l', [AuditNote(m, None, AuditMandateRevoked)], [EventNote(OfMandate, m, MandateRevoked)], now)
  }

  lemma RevokedAndNothingElse(l: Ledger, m: Id, anchor: Option<string>, now: Millis)
    requires RevokeMandate(l, m, anchor, now).Ok?
    ensures RevokedOnly(l, RevokeMandate(l, m, anchor, now).value.ledger, m, anchor, now)
  {
    var l1 := l.(mandates := RevokeMandate(l, m, anchor, now).value.ledger.mandates);
    NothingWritten(l, l1, now);
    AuditWritten(l, l1, [], [], m, AuditMandateRevoked, None, now);
    EventWritten(l, WithAudit(l1, m, AuditMandateRevoked, None, now), [AuditNote(m, None, AuditMandateRevoked)], [],
                 OfMandate, m, MandateRevoked, now);
  }

  predicate MayRevoke(l: Ledger, m: Id) {
    m in l.mandates && (l.mandates[m].status == IssuedActive || l.mandates[m].status == IssuedReserved)
  }

  lemma RevocationAsAWhole(l: Ledger, m: Id, anchor: Option<string>, now: Millis)
    ensures
      match RevokeMandate(l, m, anchor, now)
      case Ok(done) => MayRevoke(l, m) && anchor.Some? && !Blank(anchor.value) && RevokedOnly(l, done.ledger, m, anchor, now)
      case Err(_) => !(MayRevoke(l, m) && anchor.Some? && !Blank(anchor.value))
  {
    WhenAMandateIsRevoked(l, m, anchor, now);
    if RevokeMandate(l, m, anchor, now).Ok? { RevokedAndNothingElse(l, m, anchor, now); }
  }

  /** In any state, whatever its attempts and workers are doing, a live mandate can be revoked at once; otherwise a
      revocation changes nothing. */
  lemma RevocationTakesEffect(s: Sys, m: Id, anchor: Option<string>)
    ensures
      var s' := Do(s, Revoke(m, anchor));
      if MayRevoke(s.ledger, m) && anchor.Some? && !Blank(anchor.value)
      then s' == s.(ledger := s'.ledger) && RevokedOnly(s.ledger, s'.ledger, m, anchor, s.now)
      else s' == s
  {
    RevocationAsAWhole(s.ledger, m, anchor, s.now);
    RevocationCommits(s, m, anchor);
  }

  lemma RevocationCommits(s: Sys, m: Id, anchor: Option<string>)
    ensures
      var r := RevokeMandate(s.ledger, m, anchor, s.now);
      Do(s, Revoke(m, anchor)) == if r.Ok? then s.(ledger := r.value.ledger) else s
  {}
}

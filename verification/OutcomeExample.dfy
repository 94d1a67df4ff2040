/** A run in which the vendor reports a success and the attempt ends released. */
module OutcomeExample {
  import opened Domain
  import opened Ledger
  import opened Money
  import opened Protocol
  import opened Runs
  import opened OutcomeTheorems

  const VENDOR: string := "morph-market-data"
  const SUCCESS: DispatchResult := DispatchSucceeded("r", NotRequired, NotReported)

  lemma TrimOfSolid(s: string)
    requires s != [] && !IsSpace(s[0]) && !IsSpace(s[|s| - 1])
    ensures Trim(s) == s && !Blank(s)
  {
    assert s[0] in s;
  }

  function OneAgent(): Sys {
    Sys(Ledger(map["g" := Agent("g", "G", true)], map[], map[], map[], [], [], 0), 0, map[], multiset{}, map[], map[], [])
  }

  function Issue(): Action {
    Create(CreateInput("m", "g", 1, 1, [VENDOR], false), Some("x"))
  }

  function Request(): Action {
    Run(RunInput(0, VENDOR, 1, "o", None), "p", TreasuryNotEnforced)
  }

  lemma VendorIsKnown()
    ensures Registered(VENDOR) && Trim(VENDOR) == VENDOR && !Blank(VENDOR)
  {
    assert VENDOR_REGISTRY[0] in VENDOR_REGISTRY && VENDOR_REGISTRY[0].id == VENDOR;
    TrimOfSolid(VENDOR);
  }

  lemma VendorIsApproved()
    ensures NormalizeApprovedVendorIds([VENDOR]) == Ok([VENDOR])
  {
    VendorIsKnown();
    assert TrimAll([VENDOR]) == [VENDOR];
    assert [VENDOR][..0] == [] && Dedupe([VENDOR][..0]) == [];
    assert Dedupe([VENDOR]) == [VENDOR];
  }

  /** One active mandate with room for one cent, and nothing else. */
  ghost predicate Issued(s: Sys) {
    && 0 in s.ledger.mandates && s.ledger.attempts == map[] && s.ledger.tasks == map[] && s.workers == map[] && s.now == 0
    && var m := s.ledger.mandates[0];
    && m.status == IssuedActive && m.expiresAt == 1 && m.reservedCents == 0 && m.consumedCents == 0 && m.budgetCapCents == 1
    && m.approvedVendorIds == [VENDOR] && !m.requiresReceiptCapability
  }

  lemma IssueIsIssued()
    ensures Init(OneAgent()) && Issued(Do(OneAgent(), Issue()))
  {
    VendorIsApproved();
    assert !IsSpace("m"[0]) && "m"[0] in "m" && !IsSpace("x"[0]) && "x"[0] in "x";
    var l, input := OneAgent().ledger, Issue().create;
    var made := AnchorMandate(l, input, l.agents["g"], Some("x"), Ok([VENDOR]), 0);
    assert CreateMandate(l, input, Some("x"), 0) == made;
    CreateCommits(OneAgent(), input, Some("x"), made.value);
    OnlyMandateIssued(l, input, l.agents["g"]);
  }

  lemma CreateCommits(s: Sys, input: CreateInput, anchor: Option<string>, made: Anchored)
    requires CreateMandate(s.ledger, input, anchor, s.now) == Ok(made)
    ensures Do(s, Create(input, anchor)) == s.(ledger := made.ledger)
  {}

  lemma OnlyMandateIssued(l: Ledger, input: CreateInput, agent: Agent)
    requires l.nextId == 0 && input == Issue().create && !Blank("x")
    ensures
      var r := AnchorMandate(l, input, agent, Some("x"), Ok([VENDOR]), 0);
      && r.Ok? && r.value.ledger.attempts == l.attempts && r.value.ledger.tasks == l.tasks && 0 in r.value.ledger.mandates
      && var m := r.value.ledger.mandates[0];
      && m.status == IssuedActive && m.expiresAt == 1 && m.reservedCents == 0 && m.consumedCents == 0 && m.budgetCapCents == 1
      && m.approvedVendorIds == [VENDOR] && !m.requiresReceiptCapability
  {}

  /** Its only attempt waits for dispatch by its only task. */
  ghost predicate Waiting(s: Sys, a: Id, t: Id) {
    && s.workers == map[] && s.now == 0 && 0 in s.ledger.mandates && a in s.ledger.attempts && s.ledger.tasks.Keys == {t}
    && s.ledger.mandates[0].status == IssuedReserved && s.ledger.mandates[0].expiresAt == 1
    && s.ledger.attempts[a].status == DispatchQueued && s.ledger.attempts[a].vendorId == VENDOR
    && s.ledger.tasks[t].id == t && s.ledger.tasks[t].kind == DispatchAttempt && s.ledger.tasks[t].status == Queued
    && s.ledger.tasks[t].attemptId == a && s.ledger.tasks[t].mandateId == 0 && s.ledger.tasks[t].availableAt == 0
  }

  function FirstAttempt(l: Ledger): Attempt {
    MaterializeAttempt(l.nextId, 0, VENDOR, "o", 1, "p", 0)
  }

  /** The request passes every check. */
  lemma RequestIsAdmitted(s: Sys)
    requires Issued(s)
    ensures FreshIdentifier(s.ledger, "p") && FindVendor(VENDOR).Some?
    ensures RunAttempt(s.ledger, Request().run, "p", TreasuryNotEnforced, 0) ==
            Admitted(s.ledger, FirstAttempt(s.ledger), FindVendor(VENDOR).value, TreasuryNotEnforced, 0)
  {
    VendorIsKnown();
    TrimOfSolid("o");
    TrimOfSolid("p");
  }

  /** The policy approves it, and the treasury is not asked. */
  lemma FirstIsReserved(s: Sys, vendor: Vendor)
    requires Issued(s) && FindVendor(VENDOR) == Some(vendor)
    ensures
      var a, b := FirstAttempt(s.ledger), Authenticated(FirstAttempt(s.ledger));
      var ready := Approve(Admit(s.ledger, b, 0), b, 0);
      && ready.mandates == s.ledger.mandates
      && Admitted(s.ledger, a, vendor, TreasuryNotEnforced, 0) == Ok(After(a, b, Reserve(ready, b, 0)))
  {
    ApprovalLeavesRoom(s.ledger.mandates[0], Some(vendor), 1, 0);
  }

  lemma RequestIsReserved(s: Sys)
    requires Issued(s)
    ensures
      var b := Authenticated(FirstAttempt(s.ledger));
      var ready := Approve(Admit(s.ledger, b, 0), b, 0);
      && ready.mandates == s.ledger.mandates
      && Do(s, Request()) == s.(ledger := Reserve(ready, b, 0).ledger)
  {
    var a, b := FirstAttempt(s.ledger), Authenticated(FirstAttempt(s.ledger));
    RequestIsAdmitted(s);
    FirstIsReserved(s, FindVendor(VENDOR).value);
    RunCommits(s, Request().run, "p", TreasuryNotEnforced, After(a, b, Reserve(Approve(Admit(s.ledger, b, 0), b, 0), b, 0)));
  }

  lemma RunCommits(s: Sys, input: RunInput, generated: string, treasury: Treasury, ran: Ran)
    requires FreshIdentifier(s.ledger, generated) && RunAttempt(s.ledger, input, generated, treasury, s.now) == Ok(ran)
    ensures Do(s, Run(input, generated, treasury)) == s.(ledger := ran.ledger)
  {}

  lemma RequestWaits(s: Sys) returns (a: Id, t: Id)
    requires Issued(s)
    ensures Waiting(Do(s, Request()), a, t)
  {
    RequestIsReserved(s);
    var b := Authenticated(FirstAttempt(s.ledger));
    var ready := Approve(Admit(s.ledger, b, 0), b, 0);
    a, t := b.id, Hold(ready, b, 0).nextId;
    ReservedWaits(s.ledger, ready, b, a, t);
  }

  lemma ReservedWaits(l: Ledger, ready: Ledger, b: Attempt, a: Id, t: Id)
    requires 0 in l.mandates && ready.mandates == l.mandates && ready.tasks == map[] && b.mandateId == 0 && b.vendorId == VENDOR
    requires a == b.id && t == Hold(ready, b, 0).nextId
    ensures
      var l' := Reserve(ready, b, 0).ledger;
      && 0 in l'.mandates && l'.mandates[0] == Hold(ready, b, 0).mandates[0] && a in l'.attempts
      && l'.tasks == map[t := NewTask(t, DispatchAttempt, a, 0, Some(b.operatorId), 0, 0)]
      && l'.attempts[a].status == DispatchQueued && l'.attempts[a].vendorId == VENDOR
  {}

  /** A worker has leased the task and can go on up to the vendor's call. */
  ghost predicate Leased(s: Sys, a: Id) {
    && 0 in s.workers && s.workers[0].ExecLeased? && s.now == 0
    && var c := s.workers[0].claim;
    && c.attemptId == a && c.mandateId == 0 && c.vendorId == VENDOR && a in s.ledger.attempts && 0 in s.ledger.mandates
    && s.ledger.attempts[a].status == DispatchQueued
    && s.ledger.mandates[0].status == IssuedReserved && s.ledger.mandates[0].expiresAt == 1
  }

  lemma LeaseIsLeased(s: Sys, a: Id, t: Id)
    requires Waiting(s, a, t)
    ensures Leased(Do(s, LeaseNext(0, DispatchAttempt, "w", t)), a)
  {
    assert t in s.ledger.tasks;
    assert IsNext(s.ledger.tasks, DispatchAttempt, 0, t);
  }

  /** Begin, preflight and the call itself. */
  lemma LeasedIsSent(s: Sys, a: Id)
    requires Leased(s, a)
    ensures
      var s' := Do(Do(Do(s, Proceed(0)), Proceed(0)), Proceed(0));
      0 in s'.workers && s'.workers[0].ExecAwaiting? && s'.workers[0].claim.attemptId == a
  {
    BeginsDispatch(s, a);
    ClearsPreflight(Do(s, Proceed(0)), a);
  }

  /** The worker has moved the attempt to dispatching. */
  ghost predicate Begun(s: Sys, a: Id) {
    && 0 in s.workers && s.workers[0].ExecBegun? && s.now == 0
    && var c := s.workers[0].claim;
    && c.attemptId == a && c.mandateId == 0 && c.vendorId == VENDOR && a in s.ledger.attempts && 0 in s.ledger.mandates
    && s.ledger.attempts[a].status == Dispatching
    && s.ledger.mandates[0].status == IssuedReserved && s.ledger.mandates[0].expiresAt == 1
  }

  lemma BeginsDispatch(s: Sys, a: Id)
    requires Leased(s, a)
    ensures Begun(Do(s, Proceed(0)), a)
  {}

  lemma ClearsPreflight(s: Sys, a: Id)
    requires Begun(s, a)
    ensures
      var s' := Do(s, Proceed(0));
      0 in s'.workers && s'.workers[0] == ExecCleared(s.workers[0].claim)
  {
    VendorIsKnown();
  }

  lemma SomeRunIsLeased() returns (acts: seq<Action>, a: Id)
    ensures Init(OneAgent()) && Leased(Exec(OneAgent(), acts), a)
  {
    var s0 := OneAgent();
    IssueIsIssued();
    ExecOneMore(s0, [], Issue());
    var issued := [] + [Issue()];
    var t;
    a, t := RequestWaits(Exec(s0, issued));
    ExecOneMore(s0, issued, Request());
    var lease := LeaseNext(0, DispatchAttempt, "w", t);
    LeaseIsLeased(Exec(s0, issued + [Request()]), a, t);
    ExecOneMore(s0, issued + [Request()], lease);
    acts := issued + [Request()] + [lease];
  }

  /** There is a run in which a worker holds the vendor's report of a success. */
  lemma SomeRunIsAnswered() returns (acts: seq<Action>, a: Id)
    ensures Init(OneAgent())
    ensures
      var s := Exec(OneAgent(), acts);
      0 in s.workers && s.workers[0].ExecAnswered? && s.workers[0].claim.attemptId == a && s.workers[0].answer == SUCCESS
  {
    var leased;
    leased, a := SomeRunIsLeased();
    LeasedIsSent(Exec(OneAgent(), leased), a);
    var sent := ThreeTimes(OneAgent(), leased, Proceed(0));
    ExecOneMore(OneAgent(), sent, VendorAnswers(0, SUCCESS));
    acts := sent + [VendorAnswers(0, SUCCESS)];
  }

  lemma ThreeTimes(s0: Sys, acts: seq<Action>, act: Action) returns (more: seq<Action>)
    ensures Exec(s0, more) == Do(Do(Do(Exec(s0, acts), act), act), act)
  {
    ExecOneMore(s0, acts, act);
    ExecOneMore(s0, acts + [act], act);
    ExecOneMore(s0, acts + [act] + [act], act);
    more := acts + [act] + [act] + [act];
  }

  /** There is a run in which the vendor reported a success and the attempt ends released: nothing is consumed. */
  lemma ASuccessCanEndReleased()
    ensures exists s0, acts, a ::
      && Init(s0) && AnswerOf(s0, acts, a) == Some(SUCCESS) && HasStatus(Exec(s0, acts).ledger, a, CancelledReleased)
  {
    var s0 := OneAgent();
    var acts, a := SomeRunIsAnswered();
    EveryReachableStateIsSafe(s0, acts);
    ThrownAnswerIsReleased(Exec(s0, acts), 0);
    ExecOneMore(s0, acts, Throws(0));
    ExecOneMore(s0, acts + [Throws(0)], Proceed(0));
    var more := acts + [Throws(0)] + [Proceed(0)];
    AnswersAreOnRecord(s0, acts, a);
    AnswerIsRecorded(Exec(s0, acts), Throws(0), a);
    AnswersAreOnRecord(s0, acts + [Throws(0)], a);
    AnswerIsRecorded(Exec(s0, acts + [Throws(0)]), Proceed(0), a);
    AnswersAreOnRecord(s0, more, a);
    assert Init(s0) && AnswerOf(s0, more, a) == Some(SUCCESS) && HasStatus(Exec(s0, more).ledger, a, CancelledReleased);
  }
}

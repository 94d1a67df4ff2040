/** Main results about repeated requests: a payment identifier stands for one attempt and one reservation. */
module Idempotency {
  import opened Domain
  import opened Ledger
  import opened Money
  import opened References
  import opened Log
  import opened Protocol
  import opened Workers
  import opened System
  import opened Runs

  predicate Given(input: RunInput) {
    input.paymentIdentifier.Some? && input.paymentIdentifier.value != ""
  }

  /** The fields a repeat has to agree in. */
  predicate SameFields(x: RunInput, y: RunInput) {
    && x.paymentIdentifier == y.paymentIdentifier && x.mandateId == y.mandateId && x.amountCents == y.amountCents
    && Trim(x.vendorId) == Trim(y.vendorId) && Trim(x.operatorId) == Trim(y.operatorId)
  }

  lemma AdmittedStores(l: Ledger, a: Attempt, vendor: Vendor, treasury: Treasury, now: Millis)
    requires a.mandateId in l.mandates && Admitted(l, a, vendor, treasury, now).Ok?
    ensures
      var ran := Admitted(l, a, vendor, treasury, now).value;
      ran.attempt.id in ran.ledger.attempts && ran.ledger.attempts[ran.attempt.id] == ran.attempt && SameDeal(a, ran.attempt)
  {}

  /** A request that succeeds returns the stored attempt that answers it. */
  lemma RunStores(l: Ledger, input: RunInput, generated: string, treasury: Treasury, now: Millis)
    requires Sound(l) && RunAttempt(l, input, generated, treasury, now).Ok?
    ensures
      var ran := RunAttempt(l, input, generated, treasury, now).value;
      && ran.attempt.id in ran.ledger.attempts && ran.ledger.attempts[ran.attempt.id] == ran.attempt
      && SameRequest(ran.attempt, input) && !Blank(input.operatorId)
      && (Given(input) ==> ran.attempt.paymentIdentifier == input.paymentIdentifier.value)
  {
    var existing := if Given(input) then ByIdentifier(l.attempts, input.paymentIdentifier.value) else None;
    if existing.Some? {
      assert AttemptOk(l.mandates, l.attempts[existing.value], existing.value);
    } else {
      var a := AttemptFor(l, input, generated, now);
      AdmittedStores(l, a, FindVendor(a.vendorId).value, treasury, now);
    }
  }

  lemma RegisteredIsNotBlank(vendorId: string)
    requires Registered(Trim(vendorId))
    ensures !Blank(vendorId)
  {}

  /** With its identifier on record, a request finds that attempt and makes none: the same fields, with an operator
      named, get it back; other fields that pass the checks before conflict; the rest fail those checks. */
  lemma RepeatFindsTheAttempt(l: Ledger, input: RunInput, generated: string, treasury: Treasury, now: Millis, a: Id)
    requires Sound(l) && RefInv(l) && Given(input) && a in l.attempts
    requires l.attempts[a].paymentIdentifier == input.paymentIdentifier.value
    ensures
      var r := RunAttempt(l, input, generated, treasury, now);
      if SameRequest(l.attempts[a], input) && !Blank(input.operatorId) then r == Ok(Ran(l, l.attempts[a], []))
      else if input.amountCents <= 0 || Blank(input.vendorId) || Blank(input.operatorId) then r == Err(Validation)
      else if input.mandateId !in l.mandates then r == Err(NotFound)
      else r == Err(IdentifierConflict)
  {
    var p := input.paymentIdentifier.value;
    assert IdentifierOk(l.attempts, a) && AttemptOk(l.mandates, l.attempts[a], a);
    assert UsesIdentifier(l.attempts, a, p);
    var found := ByIdentifier(l.attempts, p);
    assert UsesIdentifier(l.attempts, found.value, l.attempts[a].paymentIdentifier);
    if SameRequest(l.attempts[a], input) {
      RegisteredIsNotBlank(input.vendorId);
    }
  }

  /** In this state attempt `a` answers the identifier for good: the same fields return it and change nothing,
      different fields fail and change nothing, no other attempt uses it, and it is reserved for at most once. */
  ghost predicate Answered(s: Sys, a: Id, input: RunInput, again: RunInput, generated: string, treasury: Treasury)
    requires Given(input)
  {
    var r := RunAttempt(s.ledger, again, generated, treasury, s.now);
    && a in s.ledger.attempts
    && (if SameFields(again, input) then r == Ok(Ran(s.ledger, s.ledger.attempts[a], [])) else r.Err?)
    && Do(s, Run(again, generated, treasury)) == s
    && (forall b :: UsesIdentifier(s.ledger.attempts, b, input.paymentIdentifier.value) ==> b == a)
    && Replay(s.ledger.events, Naming(a, Reserved), s.ledger.attempts) <= 1
  }

  /** The attempt that answered `input`, as a later state knows it. */
  ghost predicate KnownAs(s: Sys, a: Id, input: RunInput)
    requires Given(input)
  {
    && a in s.ledger.attempts && SameRequest(s.ledger.attempts[a], input) && !Blank(input.operatorId)
    && s.ledger.attempts[a].paymentIdentifier == input.paymentIdentifier.value
  }

  lemma FirstRequestIsKnown(s: Sys, input: RunInput, generated: string, treasury: Treasury)
    requires Inv(s) && Given(input) && FreshIdentifier(s.ledger, generated)
    requires RunAttempt(s.ledger, input, generated, treasury, s.now).Ok?
    ensures KnownAs(Do(s, Run(input, generated, treasury)), RunAttempt(s.ledger, input, generated, treasury, s.now).value.attempt.id, input)
  {
    RunStores(s.ledger, input, generated, treasury, s.now);
  }

  lemma KnownLater(s: Sys, a: Id, input: RunInput, later: seq<Action>)
    requires Inv(s) && Given(input) && KnownAs(s, a, input)
    ensures KnownAs(Exec(s, later), a, input)
  {
    RunsLast(s, later);
    assert AttemptLasts(s.ledger.attempts[a], Exec(s, later).ledger.attempts[a]);
  }

  lemma RepeatIsAnswered(s: Sys, a: Id, input: RunInput, again: RunInput, generated: string, treasury: Treasury)
    requires Inv(s) && Given(input) && KnownAs(s, a, input) && again.paymentIdentifier == input.paymentIdentifier
    ensures
      var r := RunAttempt(s.ledger, again, generated, treasury, s.now);
      if SameFields(again, input) then r == Ok(Ran(s.ledger, s.ledger.attempts[a], [])) else r.Err?
  {
    RepeatFindsTheAttempt(s.ledger, again, generated, treasury, s.now, a);
    assert Trim(again.operatorId) == Trim(input.operatorId) ==> (Blank(again.operatorId) <==> Blank(input.operatorId));
  }

  lemma OneUserOneReservation(s: Sys, a: Id, input: RunInput)
    requires Inv(s) && Given(input) && KnownAs(s, a, input)
    ensures forall b :: UsesIdentifier(s.ledger.attempts, b, input.paymentIdentifier.value) ==> b == a
    ensures Replay(s.ledger.events, Naming(a, Reserved), s.ledger.attempts) <= 1
  {
    assert IdentifierOk(s.ledger.attempts, a);
    assert Logged(RecordOf(s.ledger), a, s.ledger.attempts[a].status);
  }

  lemma SameLedgerSameState(s: Sys, input: RunInput, generated: string, treasury: Treasury)
    requires
      var r := RunAttempt(s.ledger, input, generated, treasury, s.now);
      r.Ok? ==> r.value.ledger == s.ledger
    ensures Do(s, Run(input, generated, treasury)) == s
  {}

  lemma KnownMeansAnswered(s: Sys, a: Id, input: RunInput, again: RunInput, generated: string, treasury: Treasury)
    requires Inv(s) && Given(input) && KnownAs(s, a, input) && again.paymentIdentifier == input.paymentIdentifier
    ensures Answered(s, a, input, again, generated, treasury)
  {
    RepeatIsAnswered(s, a, input, again, generated, treasury);
    OneUserOneReservation(s, a, input);
    SameLedgerSameState(s, again, generated, treasury);
  }

  /** Once a request with an identifier has succeeded it is answered for good, whatever happens in between and
      however often it is repeated. */
  lemma RequestsAreIdempotent(s0: Sys, before: seq<Action>, input: RunInput, generated: string, treasury: Treasury,
                              later: seq<Action>, again: RunInput, generated2: string, treasury2: Treasury)
    requires Init(s0) && Given(input) && FreshIdentifier(Exec(s0, before).ledger, generated)
    requires RunAttempt(Exec(s0, before).ledger, input, generated, treasury, Exec(s0, before).now).Ok?
    requires again.paymentIdentifier == input.paymentIdentifier
    ensures
      var s := Exec(s0, before);
      var a := RunAttempt(s.ledger, input, generated, treasury, s.now).value.attempt.id;
      Answered(Exec(Do(s, Run(input, generated, treasury)), later), a, input, again, generated2, treasury2)
  {
    var s := Exec(s0, before);
    EveryReachableStateIsSafe(s0, before);
    var a := RunAttempt(s.ledger, input, generated, treasury, s.now).value.attempt.id;
    var s1 := Do(s, Run(input, generated, treasury));
    FirstRequestIsKnown(s, input, generated, treasury);
    ActionKeeps(s, Run(input, generated, treasury));
    EveryRunIsSafe(s1, later);
    KnownLater(s1, a, input, later);
    KnownMeansAnswered(Exec(s1, later), a, input, again, generated2, treasury2);
  }
}

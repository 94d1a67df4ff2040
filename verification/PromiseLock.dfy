/** The promise chain that runs store transactions one at a time: each caller waits for the promise of the
    caller before it and resolves its own when it is through, whether its body returned or threw. */
module PromiseLock {
  import opened Domain

  /** What a transaction body makes of the store it is given; None when it throws. */
  type Body<!D> = D -> Option<D>

  datatype Phase = Waiting | Working | Done

  /** `previous` and `own` are the promises the caller waits for and resolves; `draft` is the copy it works on. */
  datatype Call<!D> = Call(body: Body<D>, previous: nat, own: nat, phase: Phase, draft: D)

  /** Promises are numbered; number 0 is resolved from the start. `tail` is the variable `lock`. */
  datatype State<!D> = State(resolved: seq<bool>, tail: nat, calls: seq<Call<D>>, store: D)

  datatype Event<!D> = Arrive(body: Body<D>) | Resume(caller: nat) | Finish(caller: nat)

  function Initial<D>(store: D): State<D> {
    State([true], 0, [], store)
  }

  /** What a body leaves in the store: its result if the check on the write accepts it, else what was there. */
  function Outcome<D>(accepts: D -> bool, store: D, draft: D, body: Body<D>): D {
    var result := body(draft);
    if result.Some? && accepts(result.value) then result.value else store
  }

  predicate CanResume<D>(s: State<D>, i: nat) {
    i < |s.calls| && s.calls[i].phase == Waiting && s.calls[i].previous < |s.resolved| && s.resolved[s.calls[i].previous]
  }

  predicate CanFinish<D>(s: State<D>, i: nat) {
    i < |s.calls| && s.calls[i].phase == Working && s.calls[i].own < |s.resolved|
  }

  function Release<D>(s: State<D>, i: nat): State<D>
    requires i < |s.calls| && s.calls[i].own < |s.resolved|
  {
    s.(resolved := s.resolved[s.calls[i].own := true], calls := s.calls[i := s.calls[i].(phase := Done)])
  }

  /** One turn of the event loop; an event that cannot happen changes nothing. */
  function Step<D>(accepts: D -> bool, s: State<D>, e: Event<D>): State<D> {
    match e
    case Arrive(body) =>
      State(s.resolved + [false], |s.resolved|, s.calls + [Call(body, s.tail, |s.resolved|, Waiting, s.store)], s.store)
    case Resume(i) =>
      if !CanResume(s, i) then s
      else if accepts(s.store) then s.(calls := s.calls[i := s.calls[i].(phase := Working, draft := s.store)])
      else if s.calls[i].own < |s.resolved| then Release(s, i)
      else s
    case Finish(i) =>
      if !CanFinish(s, i) then s
      else Release(s, i).(store := Outcome(accepts, s.store, s.calls[i].draft, s.calls[i].body))
  }

  function Run<D>(accepts: D -> bool, store: D, es: seq<Event<D>>): State<D> {
    if es == [] then Initial(store) else Step(accepts, Run(accepts, store, es[..|es| - 1]), es[|es| - 1])
  }

  // ---- the lock as the module keeps it ----

  lemma RunOneMore<D>(accepts: D -> bool, store: D, es: seq<Event<D>>, e: Event<D>)
    ensures Run(accepts, store, es + [e]) == Step(accepts, Run(accepts, store, es), e)
  {
    assert (es + [e])[..|es|] == es;
  }

  class Lock<D> {
    const accepts: D -> bool
    var resolved: seq<bool>
    var lock: nat
    var calls: seq<Call<D>>
    var store: D
    /** The store at the start, and everything that has happened since. */
    ghost const first: D
    ghost var events: seq<Event<D>>

    function View(): State<D>
      reads this
    {
      State(resolved, lock, calls, store)
    }

    /** The fields are where the events lead. */
    ghost predicate Valid()
      reads this
    {
      View() == Run(accepts, first, events)
    }

    constructor (accepts: D -> bool, store: D)
      ensures Valid() && this.accepts == accepts && first == store && events == []
    {
      this.accepts := accepts;
      this.store := store;
      resolved, lock, calls := [true], 0, [];
      first, events := store, [];
    }

    /** Up to the first await: take the tail of the chain and put an own promise in its place. */
    method Enter(body: Body<D>) returns (caller: nat)
      requires Valid()
      modifies this
      ensures Valid() && events == old(events) + [Arrive(body)] && store == old(store)
      ensures caller == |old(calls)| && |calls| == caller + 1 && calls[..caller] == old(calls)
      ensures calls[caller].body == body && calls[caller].phase == Waiting && calls[caller].previous == old(lock)
      ensures calls[caller].own == lock < |resolved| && !resolved[lock]
    {
      RunOneMore(accepts, first, events, Arrive(body));
      var previous := lock;
      resolved := resolved + [false];
      lock := |resolved| - 1;
      calls := calls + [Call(body, previous, lock, Waiting, store)];
      events := events + [Arrive(body)];
      return |calls| - 1;
    }

    /** The awaited promise is resolved: read the store, which throws when the check on reads fails. The caller then
        works on the current store, alone, or is through. */
    method Begin(i: nat)
      requires Valid() && CanResume(View(), i)
      modifies this
      ensures Valid() && events == old(events) + [Resume(i)] && store == old(store)
      ensures |calls| == |old(calls)| && forall k :: 0 <= k < |calls| && k != i ==> calls[k] == old(calls)[k]
      ensures accepts(store) ==> calls[i].phase == Working && calls[i].draft == store
      ensures accepts(store) ==> forall k :: 0 <= k < |calls| && calls[k].phase == Working ==> k == i
      ensures !accepts(store) ==> calls[i].phase == Done && (i + 1 < |calls| ==> CanResume(View(), i + 1))
    {
      NextInLine(accepts, first, events, i);
      RunOneMore(accepts, first, events, Resume(i));
      if accepts(store) {
        calls := calls[i := calls[i].(phase := Working, draft := store)];
      } else {
        resolved := resolved[calls[i].own := true];
        calls := calls[i := calls[i].(phase := Done)];
      }
      events := events + [Resume(i)];
    }

    /** The body settles: write what it made if it returned and the check accepts it, and release in any case. The
        store is then what the bodies up to this one make of the first store, one after another. */
    method End(i: nat)
      requires Valid() && CanFinish(View(), i)
      modifies this
      ensures Valid() && events == old(events) + [Finish(i)]
      ensures |calls| == |old(calls)| && forall k :: 0 <= k < |calls| && k != i ==> calls[k] == old(calls)[k]
      ensures calls[i].phase == Done && (i + 1 < |calls| ==> CanResume(View(), i + 1))
      ensures store == match calls[i].body(old(store))
                       case Some(after) => if accepts(after) then after else old(store)
                       case None => old(store)
      ensures store == Serial(accepts, first, Bodies(calls[..i + 1]))
    {
      FinishLeads(accepts, first, events, i);
      var result := calls[i].body(calls[i].draft);
      if result.Some? {
        if accepts(result.value) {
          store := result.value;
        }
      }
      resolved := resolved[calls[i].own := true];
      calls := calls[i := calls[i].(phase := Done)];
      events := events + [Finish(i)];
    }
  }

  /** A caller that can go on is the first one not through. */
  lemma NextInLine<D>(accepts: D -> bool, store: D, es: seq<Event<D>>, i: nat)
    requires CanResume(Run(accepts, store, es), i) || CanFinish(Run(accepts, store, es), i)
    ensures
      var s := Run(accepts, store, es);
      && s.calls[i].own == i + 1 < |s.resolved| && |s.resolved| == |s.calls| + 1
      && (s.calls[i].phase == Working ==> s.calls[i].draft == s.store)
      && (forall k :: 0 <= k < i ==> s.calls[k].phase == Done)
      && (forall k :: i < k < |s.calls| ==> s.calls[k].phase == Waiting && s.calls[k].previous == k)
  {
    var n := EveryRunIsOrderly(accepts, store, es);
    var s := Run(accepts, store, es);
    assert InLine(s, n, i);
    if i > 0 { assert InLine(s, n, i - 1); }
    assert i == n;
    forall k | 0 <= k < |s.calls|
      ensures (k < i ==> s.calls[k].phase == Done) && (i < k ==> s.calls[k].phase == Waiting && s.calls[k].previous == k)
    {
      assert InLine(s, n, k);
    }
  }

  /** Once caller `i` is through and no later one is, the store is the fold over the bodies up to it. */
  lemma FinishedInOrder<D>(accepts: D -> bool, store: D, es: seq<Event<D>>, i: nat)
    requires
      var s := Run(accepts, store, es);
      && i < |s.calls| && s.calls[i].phase == Done && forall k :: i < k < |s.calls| ==> s.calls[k].phase == Waiting
    ensures Run(accepts, store, es).store == Serial(accepts, store, Bodies(Run(accepts, store, es).calls[..i + 1]))
  {
    var n := EveryRunIsOrderly(accepts, store, es);
    var s := Run(accepts, store, es);
    assert InLine(s, n, i);
    if i + 1 < |s.calls| { assert InLine(s, n, i + 1); }
    assert n == i + 1;
  }

  /** What the end of a body leads to: its caller is through, the next one can go on, and the store is that fold. */
  lemma FinishLeads<D>(accepts: D -> bool, store: D, es: seq<Event<D>>, i: nat)
    requires CanFinish(Run(accepts, store, es), i)
    ensures
      var s, s' := Run(accepts, store, es), Run(accepts, store, es + [Finish(i)]);
      && s' == Step(accepts, s, Finish(i)) && s.calls[i].draft == s.store
      && (i + 1 < |s'.calls| ==> CanResume(s', i + 1))
      && s'.store == Serial(accepts, store, Bodies(s'.calls[..i + 1]))
  {
    NextInLine(accepts, store, es, i);
    RunOneMore(accepts, store, es, Finish(i));
    FinishedInOrder(accepts, store, es + [Finish(i)], i);
  }

  // ---- one at a time, in order ----

  /** The store after these bodies run one after another; a body that throws or is refused adds nothing, and
      nothing runs on a store the check refuses. */
  function Serial<D>(accepts: D -> bool, store: D, bodies: seq<Body<D>>): D {
    if bodies == [] then store
    else
      var before := Serial(accepts, store, bodies[..|bodies| - 1]);
      if !accepts(before) then before
      else match bodies[|bodies| - 1](before)
           case Some(after) => if accepts(after) then after else before
           case None => before
  }

  /** The check on writes keeps a store that passes the check passing it. */
  lemma {:induction false} SerialStaysAccepted<D>(accepts: D -> bool, store: D, bodies: seq<Body<D>>)
    requires accepts(store)
    ensures accepts(Serial(accepts, store, bodies))
  {
    if bodies != [] { SerialStaysAccepted(accepts, store, bodies[..|bodies| - 1]); }
  }

  function Bodies<D>(calls: seq<Call<D>>): (bodies: seq<Body<D>>)
    ensures |bodies| == |calls| && forall i :: 0 <= i < |calls| ==> bodies[i] == calls[i].body
  {
    seq(|calls|, i requires 0 <= i < |calls| => calls[i].body)
  }

  /** Caller `i` in a state where the first `n` callers are through. */
  ghost predicate InLine<D>(s: State<D>, n: nat, i: nat)
    requires i < |s.calls| && |s.resolved| == |s.calls| + 1
  {
    var c := s.calls[i];
    && c.previous == i && c.own == i + 1 && (s.resolved[i + 1] <==> i < n)
    && (i < n <==> c.phase == Done) && (i > n ==> c.phase == Waiting) && (c.phase == Working ==> c.draft == s.store)
  }

  /** The first `n` callers are through, in order of arrival, and only the next may be at work. */
  ghost predicate Orderly<D>(accepts: D -> bool, store: D, s: State<D>, n: nat) {
    && n <= |s.calls| && |s.resolved| == |s.calls| + 1 && s.tail == |s.calls| && s.resolved[0]
    && (forall i {:trigger InLine(s, n, i)} :: 0 <= i < |s.calls| ==> InLine(s, n, i))
    && (n < |s.calls| && s.calls[n].phase == Working ==> accepts(s.store))
    && s.store == Serial(accepts, store, Bodies(s.calls[..n]))
  }

  lemma ArriveStaysOrderly<D>(accepts: D -> bool, store: D, s: State<D>, n: nat, body: Body<D>)
    requires Orderly(accepts, store, s, n)
    ensures Orderly(accepts, store, Step(accepts, s, Arrive(body)), n)
  {
    var s' := Step(accepts, s, Arrive(body));
    assert s'.calls[..n] == s.calls[..n];
    if n < |s.calls| { assert InLine(s, n, n); }
    forall i | 0 <= i < |s'.calls| ensures InLine(s', n, i) {
      if i < |s.calls| { assert InLine(s, n, i); }
    }
  }

  /** Only the caller next in line can move, and moving keeps the order. */
  lemma MoveStaysOrderly<D>(accepts: D -> bool, store: D, s: State<D>, n: nat, e: Event<D>) returns (n': nat)
    requires Orderly(accepts, store, s, n) && !e.Arrive?
    ensures n <= n' <= n + 1 && Orderly(accepts, store, Step(accepts, s, e), n')
  {
    var s' := Step(accepts, s, e);
    var i := e.caller;
    var moves := if e.Resume? then CanResume(s, i) else CanFinish(s, i);
    if !moves {
      return n;
    }
    assert InLine(s, n, i);
    if i > 0 { assert InLine(s, n, i - 1); }
    assert i == n;
    if n + 1 < |s.calls| { assert InLine(s, n, n + 1); }
    n' := if s'.calls[n].phase == Done then n + 1 else n;
    forall k | 0 <= k < |s'.calls| && k != n ensures InLine(s', n', k) {
      assert InLine(s, n, k);
    }
    if s'.calls[n].phase == Done {
      assert s'.calls[..n + 1][..n] == s'.calls[..n];
      assert Bodies(s'.calls[..n + 1])[..n] == Bodies(s.calls[..n]);
      assert InLine(s', n + 1, n);
    } else {
      assert s'.calls[..n] == s.calls[..n];
      assert InLine(s', n, n);
    }
  }

  lemma {:induction false} EveryRunIsOrderly<D>(accepts: D -> bool, store: D, es: seq<Event<D>>) returns (n: nat)
    ensures Orderly(accepts, store, Run(accepts, store, es), n)
  {
    if es == [] {
      n := 0;
    } else {
      var e := es[|es| - 1];
      n := EveryRunIsOrderly(accepts, store, es[..|es| - 1]);
      if e.Arrive? {
        ArriveStaysOrderly(accepts, store, Run(accepts, store, es[..|es| - 1]), n, e.body);
      } else {
        n := MoveStaysOrderly(accepts, store, Run(accepts, store, es[..|es| - 1]), n, e);
      }
    }
  }

  /** However arrivals, resumptions and endings interleave: at most one body is at work, callers finish in order of
      arrival, and the store is what the finished bodies make of it one after another. */
  lemma TransactionsAreSerialised<D>(accepts: D -> bool, store: D, es: seq<Event<D>>) returns (n: nat)
    ensures
      var s := Run(accepts, store, es);
      && n <= |s.calls|
      && (forall i, j :: 0 <= i < |s.calls| && 0 <= j < |s.calls| && s.calls[i].phase == Working && s.calls[j].phase == Working ==> i == j)
      && (forall i :: 0 <= i < |s.calls| ==> (s.calls[i].phase == Done <==> i < n))
      && (forall i :: 0 <= i < |s.calls| && s.calls[i].phase == Working ==> s.calls[i].draft == s.store)
      && s.store == Serial(accepts, store, Bodies(s.calls[..n]))
  {
    n := EveryRunIsOrderly(accepts, store, es);
    var s := Run(accepts, store, es);
    forall i | 0 <= i < |s.calls|
      ensures (s.calls[i].phase == Done <==> i < n) && (s.calls[i].phase == Working ==> i == n && s.calls[i].draft == s.store)
    {
      assert InLine(s, n, i);
    }
  }

  /** If the store passes the check at the start it passes it always, so that no read is refused: whatever the bodies
      return, every caller that resumes gets to work on it. */
  lemma AcceptedStaysAccepted<D>(accepts: D -> bool, store: D, es: seq<Event<D>>, i: nat)
    requires accepts(store)
    ensures accepts(Run(accepts, store, es).store)
    ensures
      var s := Run(accepts, store, es);
      CanResume(s, i) ==> Step(accepts, s, Resume(i)).calls[i].phase == Working && Step(accepts, s, Resume(i)).calls[i].draft == s.store
  {
    var n := TransactionsAreSerialised(accepts, store, es);
    SerialStaysAccepted(accepts, store, Bodies(Run(accepts, store, es).calls[..n]));
  }

  /** The chain never gets stuck: the first caller that is not through can always go on, a body at work always
      ends released, and then the next one can go on, also when the body threw or its result was refused. */
  lemma NobodyWaitsForEver<D>(accepts: D -> bool, store: D, es: seq<Event<D>>, i: nat)
    requires
      var s := Run(accepts, store, es);
      i < |s.calls| && s.calls[i].phase != Done && forall k :: 0 <= k < i ==> s.calls[k].phase == Done
    ensures
      var s := Run(accepts, store, es);
      if s.calls[i].phase == Waiting then
        CanResume(s, i) && Step(accepts, s, Resume(i)).calls[i].phase == if accepts(s.store) then Working else Done
      else
        && CanFinish(s, i) && Step(accepts, s, Finish(i)).calls[i].phase == Done
        && (i + 1 < |s.calls| ==> CanResume(Step(accepts, s, Finish(i)), i + 1))
  {
    var n := EveryRunIsOrderly(accepts, store, es);
    var s := Run(accepts, store, es);
    assert InLine(s, n, i);
    if i > 0 { assert InLine(s, n, i - 1); }
    if i + 1 < |s.calls| { assert InLine(s, n, i + 1); }
  }
}

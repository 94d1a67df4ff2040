/** Rows in a list, looked up by key: the last row with a key wins, as in a `Map` built from the list. */
module Tables {
  import opened Domain

  function AgentKey(g: Agent): string { g.id }
  function MandateKey(m: Mandate): Id { m.id }
  function AttemptKey(a: Attempt): Id { a.id }
  function TaskKey(t: Task): Id { t.id }
  function AuditKey(x: Audit): Id { x.id }
  function EventKey(e: Event): Id { e.id }
  function ApprovalKey(g: GroupedApproval): Id { g.id }
  function IdentifierKey(a: Attempt): string { a.paymentIdentifier }

  function Latest<K(==), V>(rows: seq<V>, key: V -> K): map<K, V> {
    if rows == [] then map[]
    else
      var last := rows[|rows| - 1];
      Latest(rows[..|rows| - 1], key)[key(last) := last]
  }

  predicate Distinct<K(==), V>(rows: seq<V>, key: V -> K) {
    forall i, j {:trigger key(rows[i]), key(rows[j])} :: 0 <= i < j < |rows| ==> key(rows[i]) != key(rows[j])
  }

  /** The map has exactly the keys of the rows, each with a row of that key. */
  lemma {:induction false} LatestHasTheRows<K, V>(rows: seq<V>, key: V -> K)
    ensures forall r :: r in rows ==> key(r) in Latest(rows, key)
    ensures forall k :: k in Latest(rows, key) ==> Latest(rows, key)[k] in rows && key(Latest(rows, key)[k]) == k
  {
    if rows == [] {
    } else {
      var front, last := rows[..|rows| - 1], rows[|rows| - 1];
      LatestHasTheRows(front, key);
      assert rows == front + [last];
    }
  }

  /** Without repeated keys every row is found under its own. */
  lemma DistinctRowsAreFound<K, V>(rows: seq<V>, key: V -> K, r: V)
    requires Distinct(rows, key) && r in rows
    ensures key(r) in Latest(rows, key) && Latest(rows, key)[key(r)] == r
  {
    LatestHasTheRows(rows, key);
  }

  lemma MapsAreEqual<K, V>(m: map<K, V>, n: map<K, V>)
    requires forall k :: k in m <==> k in n
    requires forall k :: k in m ==> m[k] == n[k]
    ensures m == n
  {}

  /** Overwriting a row in place overwrites its entry. */
  lemma OverwrittenRow<K, V>(rows: seq<V>, key: V -> K, i: nat, r: V)
    requires Distinct(rows, key) && i < |rows| && key(r) == key(rows[i])
    ensures Distinct(rows[i := r], key)
    ensures Latest(rows[i := r], key) == Latest(rows, key)[key(r) := r]
  {
    var rows' := rows[i := r];
    LatestHasTheRows(rows, key);
    LatestHasTheRows(rows', key);
    forall k | k in Latest(rows, key)[key(r) := r] ensures k in Latest(rows', key) {
      if k == key(r) {
        assert rows'[i] in rows';
      } else {
        var j :| 0 <= j < |rows| && rows[j] == Latest(rows, key)[k];
        assert rows'[j] in rows';
      }
    }
    forall k | k in Latest(rows', key) ensures Latest(rows', key)[k] == Latest(rows, key)[key(r) := r][k] {
      var j :| 0 <= j < |rows| && rows'[j] == Latest(rows', key)[k];
      if j != i {
        assert rows[j] in rows;
        DistinctRowsAreFound(rows, key, rows[j]);
      }
    }
    MapsAreEqual(Latest(rows', key), Latest(rows, key)[key(r) := r]);
  }

  /** A new row at the front adds its entry. */
  lemma {:induction false} UnshiftedRow<K, V>(rows: seq<V>, key: V -> K, r: V)
    requires key(r) !in Latest(rows, key)
    ensures Latest([r] + rows, key) == Latest(rows, key)[key(r) := r]
    ensures Distinct(rows, key) ==> Distinct([r] + rows, key)
  {
    LatestHasTheRows(rows, key);
    if rows == [] {
      assert ([r] + rows)[..0] == [];
    } else {
      var front, last := rows[..|rows| - 1], rows[|rows| - 1];
      assert last in rows;
      assert ([r] + rows)[..|rows|] == [r] + front;
      UnshiftedRow(front, key, r);
    }
  }

  /** In which order the rows come makes no difference to which keys repeat. */
  lemma ReorderedStaysDistinct<K, V>(xs: seq<V>, ys: seq<V>, key: V -> K)
    requires Distinct(xs, key) && multiset(xs) == multiset(ys)
    ensures Distinct(ys, key)
  {
    forall i, j | 0 <= i < j < |ys| ensures key(ys[i]) != key(ys[j]) {
      assert ys[i] in multiset(xs) && ys[j] in multiset(xs);
      assert ys[i] in xs && ys[j] in xs;
      DistinctOccursOnce(xs, key, ys[i]);
      if ys[i] == ys[j] { TwiceThere(ys, i, j); }
    }
  }

  lemma {:induction false} DistinctOccursOnce<K, V>(xs: seq<V>, key: V -> K, x: V)
    requires Distinct(xs, key)
    ensures multiset(xs)[x] <= 1
  {
    if xs == [] {
    } else {
      var front, last := xs[..|xs| - 1], xs[|xs| - 1];
      DistinctOccursOnce(front, key, x);
      assert xs == front + [last];
      if last == x {
        forall i | 0 <= i < |front| ensures front[i] != x { assert key(xs[i]) != key(xs[|xs| - 1]); }
        assert multiset(front)[x] == 0;
      }
    }
  }

  lemma TwiceThere<V>(ys: seq<V>, i: nat, j: nat)
    requires i < j < |ys| && ys[i] == ys[j]
    ensures multiset(ys)[ys[i]] >= 2
  {
    assert ys == ys[..j] + [ys[j]] + ys[j + 1..];
    assert ys[..j][i] == ys[i];
    assert ys[i] in multiset(ys[..j]);
  }
}

/** The printer set against the grammar: what it prints is a JSON text of the value, without white space and with the
    members of every object in the order of their keys. */
module JsonText {
  import opened StableJson

  // ---- strings ----

  function HexValue(c: char): int {
    if '0' <= c <= '9' then c as int - '0' as int
    else if 'a' <= c <= 'f' then c as int - 'a' as int + 10
    else -1
  }

  /** What a backslash before this character stands for, section 7 of RFC 8259. */
  function Short(c: char): int {
    match c
    case '"' => 34
    case '\\' => 92
    case 'b' => 8
    case 'f' => 12
    case 'n' => 10
    case 'r' => 13
    case 't' => 9
    case _ => -1
  }

  /** `r` stands for the character `c`: as itself, behind a backslash, or by its number when there is no shorter way. */
  predicate StandsFor(r: string, c: char) {
    var n := c as int;
    if n >= 32 && n != 34 && n != 92 then r == [c]
    else if n in {34, 92, 8, 12, 10, 13, 9} then |r| == 2 && r[0] == '\\' && Short(r[1]) == n
    else |r| == 6 && r[..4] == "\\u00" && HexValue(r[4]) >= 0 && HexValue(r[5]) >= 0 && 16 * HexValue(r[4]) + HexValue(r[5]) == n
  }

  function Concat(parts: seq<string>): string {
    if parts == [] then "" else parts[0] + Concat(parts[1..])
  }

  ghost predicate StringText(t: string, s: string) {
    exists parts: seq<string> ::
      && |parts| == |s| && (forall i :: 0 <= i < |s| ==> StandsFor(parts[i], s[i]))
      && t == ['"'] + Concat(parts) + ['"']
  }

  // ---- the order of members ----

  /** A comparison whose ties are transitive, as a sort needs it. */
  ghost predicate WeakOrdering(before: Before) {
    Ordering(before) && forall x, y, z :: before(x, z) ==> before(x, y) || before(y, z)
  }

  predicate Ties(x: string, y: string, before: Before) {
    !before(x, y) && !before(y, x)
  }

  /** The members whose key ties with this one, in their order. */
  function TiedWith(ms: seq<Member>, key: string, before: Before): seq<Member> {
    if ms == [] then []
    else TiedWith(ms[..|ms| - 1], key, before) + IfTied(ms[|ms| - 1], key, before)
  }

  function IfTied(m: Member, key: string, before: Before): seq<Member> {
    if Ties(m.key, key, before) then [m] else []
  }

  /** No key belongs before one that comes earlier. */
  predicate Ascending(ms: seq<Member>, before: Before) {
    forall i, j :: 0 <= i < j < |ms| ==> !before(ms[j].key, ms[i].key)
  }

  /** `ms` are the members in ascending order, and those that tie in the order they had. */
  ghost predicate InOrder(ms: seq<Member>, members: seq<Member>, before: Before) {
    && multiset(ms) == multiset(members) && Ascending(ms, before)
    && (forall key :: TiedWith(ms, key, before) == TiedWith(members, key, before))
  }

  // ---- values ----

  /** The parts with a comma between any two. */
  function Joined(parts: seq<string>): string {
    if parts == [] then ""
    else if |parts| == 1 then parts[0]
    else parts[0] + [','] + Joined(parts[1..])
  }

  ghost predicate TextOf(t: string, v: Json, before: Before)
    decreases Depth(v), 0
  {
    match v
    case Null => t == "null"
    case Bool(b) => t == if b then "true" else "false"
    case Number(token) => t == token
    case String(text) => StringText(t, text)
    case Array(items) => exists parts :: ItemTexts(parts, items, before) && t == ['['] + Joined(parts) + [']']
    case Object(members) =>
      exists ms, parts ::
        && InOrder(ms, members, before) && MemberTexts(parts, ms, members, before)
        && t == ['{'] + Joined(parts) + ['}']
  }

  ghost predicate ItemTexts(parts: seq<string>, items: seq<Json>, before: Before)
    decreases ItemsDepth(items), 1
  {
    |parts| == |items| && forall i :: 0 <= i < |items| ==> TextOf(parts[i], items[i], before)
  }

  /** Each part is the text of one of the members, in the order of `ms`. */
  ghost predicate MemberTexts(parts: seq<string>, ms: seq<Member>, members: seq<Member>, before: Before)
    decreases MembersDepth(members), 2
  {
    && |parts| == |ms|
    && forall i :: 0 <= i < |ms| ==> ms[i] in members && MemberHasText(parts[i], ms[i], before)
  }

  ghost predicate MemberHasText(t: string, m: Member, before: Before)
    decreases Depth(m.value), 1
  {
    exists key, value :: StringText(key, m.key) && TextOf(value, m.value, before) && t == key + [':'] + value
  }

  // ---- the sort is stable ----

  lemma TiedOneMore(ms: seq<Member>, m: Member, key: string, before: Before)
    ensures TiedWith(ms + [m], key, before) == TiedWith(ms, key, before) + IfTied(m, key, before)
  {
    assert (ms + [m])[..|ms|] == ms;
  }

  /** Two members that do not tie with each other do not both tie with a third key. */
  lemma MayBeSwapped(m: Member, n: Member, key: string, before: Before)
    requires WeakOrdering(before) && before(m.key, n.key)
    ensures IfTied(m, key, before) + IfTied(n, key, before) == IfTied(n, key, before) + IfTied(m, key, before)
  {
    assert before(m.key, key) || before(key, n.key);
  }

  lemma Swapped<T>(s: seq<T>, x: seq<T>, y: seq<T>)
    requires x + y == y + x
    ensures (s + x) + y == (s + y) + x
  {
    assert (s + x) + y == s + (x + y) && (s + y) + x == s + (y + x);
  }

  lemma OnePlaceOn(front: seq<Member>, inserted: seq<Member>, m: Member, last: Member, key: string, before: Before)
    requires TiedWith(inserted, key, before) == TiedWith(front + [m], key, before)
    requires WeakOrdering(before) && before(m.key, last.key)
    ensures TiedWith(inserted + [last], key, before) == TiedWith((front + [last]) + [m], key, before)
  {
    MayBeSwapped(m, last, key, before);
    TiedOneMore(front, m, key, before);
    TiedOneMore(inserted, last, key, before);
    TiedOneMore(front, last, key, before);
    TiedOneMore(front + [last], m, key, before);
    Swapped(TiedWith(front, key, before), IfTied(m, key, before), IfTied(last, key, before));
  }

  lemma {:induction false} InsertIsStable(sorted: seq<Member>, m: Member, key: string, before: Before)
    requires WeakOrdering(before)
    ensures TiedWith(Insert(sorted, m, before), key, before) == TiedWith(sorted + [m], key, before)
  {
    if sorted == [] {
      assert [] + [m] == [m];
    } else {
      var front, last := sorted[..|sorted| - 1], sorted[|sorted| - 1];
      if before(m.key, last.key) {
        assert sorted == front + [last];
        InsertIsStable(front, m, key, before);
        OnePlaceOn(front, Insert(front, m, before), m, last, key, before);
      } else {
        assert Insert(sorted, m, before) == sorted + [m];
      }
    }
  }

  lemma NotBefore(x: string, y: string, z: string, before: Before)
    requires WeakOrdering(before) && !before(y, x) && !before(z, y)
    ensures !before(z, x)
  {}

  lemma {:induction false} InsertAscends(sorted: seq<Member>, m: Member, before: Before)
    requires WeakOrdering(before) && Ascending(sorted, before)
    ensures Ascending(Insert(sorted, m, before), before)
  {
    if sorted != [] {
      var front, last := sorted[..|sorted| - 1], sorted[|sorted| - 1];
      if before(m.key, last.key) {
        InsertAscends(front, m, before);
        var r := Insert(front, m, before);
        InsertAdds(front, m, before);
        forall i | 0 <= i < |r| ensures !before(last.key, r[i].key) {
          assert r[i] in multiset(r);
          if r[i] != m {
            var k :| 0 <= k < |front| && front[k] == r[i];
            assert sorted[k] == r[i] && sorted[|sorted| - 1] == last;
          }
        }
      } else {
        forall i | 0 <= i < |sorted| ensures !before(m.key, sorted[i].key) {
          NotBefore(sorted[i].key, last.key, m.key, before);
        }
      }
    }
  }

  lemma SameTies(front: seq<Member>, sorted: seq<Member>, last: Member, key: string, before: Before)
    requires WeakOrdering(before) && TiedWith(sorted, key, before) == TiedWith(front, key, before)
    ensures TiedWith(Insert(sorted, last, before), key, before) == TiedWith(front + [last], key, before)
  {
    InsertIsStable(sorted, last, key, before);
    TiedOneMore(sorted, last, key, before);
    TiedOneMore(front, last, key, before);
  }

  /** The sort puts the members in order and leaves those that tie in the order they had. */
  lemma {:induction false} SortIsStable(ms: seq<Member>, before: Before)
    requires WeakOrdering(before)
    ensures InOrder(Sort(ms, before), ms, before)
  {
    if ms != [] {
      var front, last := ms[..|ms| - 1], ms[|ms| - 1];
      SortIsStable(front, before);
      var sorted := Sort(front, before);
      InsertAscends(sorted, last, before);
      assert front + [last] == ms;
      forall key ensures TiedWith(Insert(sorted, last, before), key, before) == TiedWith(front + [last], key, before) {
        SameTies(front, sorted, last, key, before);
      }
    }
  }

  // ---- what is printed ----

  lemma EscapeStandsFor(c: char)
    ensures StandsFor(Escape(c), c)
  {
    var n := c as int;
    if n < 32 && n !in {8, 12, 10, 13, 9} {
      var r := Escape(c);
      assert r == "\\u00" + [HexDigit(n / 16), HexDigit(n % 16)];
      assert r[..4] == "\\u00" && HexValue(r[4]) == n / 16 && HexValue(r[5]) == n % 16;
    }
  }

  lemma {:induction false} EscapedText(s: string) returns (parts: seq<string>)
    ensures |parts| == |s| && forall i :: 0 <= i < |s| ==> StandsFor(parts[i], s[i])
    ensures EscapeAll(s) == Concat(parts)
  {
    if s == "" {
      parts := [];
    } else {
      var rest := EscapedText(s[1..]);
      parts := [Escape(s[0])] + rest;
      EscapeStandsFor(s[0]);
      assert parts[1..] == rest;
    }
  }

  lemma QuoteIsText(s: string)
    ensures StringText(Quote(s), s)
  {
    var parts := EscapedText(s);
  }

  lemma {:induction false} ItemsAreTexts(items: seq<Json>, before: Before) returns (parts: seq<string>)
    requires WeakOrdering(before)
    ensures ItemTexts(parts, items, before) && PrintItems(items, before) == Joined(parts)
    decreases ItemsDepth(items), 1 + |items|
  {
    if items == [] {
      parts := [];
    } else {
      PrintIsText(items[0], before);
      var rest := ItemsAreTexts(items[1..], before);
      parts := [Print(items[0], before)] + rest;
      assert parts[1..] == rest;
      assert |items| == 1 ==> rest == [];
    }
  }

  lemma MemberIsText(m: Member, before: Before)
    requires WeakOrdering(before)
    ensures MemberHasText(PrintMember(m, before), m, before)
    decreases Depth(m.value), 1
  {
    QuoteIsText(m.key);
    PrintIsText(m.value, before);
  }

  lemma {:induction false} MembersAreTexts(ms: seq<Member>, before: Before) returns (parts: seq<string>)
    requires WeakOrdering(before)
    ensures |parts| == |ms| && forall i :: 0 <= i < |ms| ==> MemberHasText(parts[i], ms[i], before)
    ensures PrintMembers(ms, before) == Joined(parts)
    decreases MembersDepth(ms), 2 + |ms|
  {
    if ms == [] {
      parts := [];
    } else {
      MemberIsText(ms[0], before);
      var rest := MembersAreTexts(ms[1..], before);
      parts := [PrintMember(ms[0], before)] + rest;
      assert parts[1..] == rest;
      assert |ms| == 1 ==> rest == [];
    }
  }

  /** Whatever is printed is a JSON text of the value, every object's members in the order of their keys, and those that
      tie in the order they had. */
  lemma {:induction false} PrintIsText(v: Json, before: Before)
    requires WeakOrdering(before)
    ensures TextOf(Print(v, before), v, before)
    decreases Depth(v), 0
  {
    match v
    case String(text) => QuoteIsText(text);
    case Array(items) =>
      var parts := ItemsAreTexts(items, before);
    case Object(members) =>
      var ms := Sort(members, before);
      FewerMembersAreNoDeeper(ms, members);
      SortIsStable(members, before);
      var parts := MembersAreTexts(ms, before);
      assert MemberTexts(parts, ms, members, before);
    case _ =>
  }
}

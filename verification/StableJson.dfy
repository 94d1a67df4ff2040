/** The canonical printer that payment payloads are compared by: keys sorted at every depth. */
module StableJson {

  /** A parsed JSON value; `members` is in the order `Object.entries` gives, and a number is its JSON text. */
  datatype Json =
    | Null | Bool(b: bool) | Number(token: string) | String(text: string)
    | Array(items: seq<Json>) | Object(members: seq<Member>)

  datatype Member = Member(key: string, value: Json)

  /** The comparison the sort uses: the left key comes before the right one. */
  type Before = (string, string) -> bool

  // ---- depth, for recursion through lists ----

  function Depth(v: Json): nat {
    match v
    case Array(items) => 1 + ItemsDepth(items)
    case Object(members) => 1 + MembersDepth(members)
    case _ => 0
  }

  function ItemsDepth(items: seq<Json>): (d: nat)
    ensures forall i :: 0 <= i < |items| ==> Depth(items[i]) <= d
  {
    if items == [] then 0
    else
      var d, rest := Depth(items[0]), ItemsDepth(items[1..]);
      assert forall i :: 0 < i < |items| ==> items[i] == items[1..][i - 1];
      if d < rest then rest else d
  }

  function MembersDepth(ms: seq<Member>): (d: nat)
    ensures forall m :: m in ms ==> Depth(m.value) <= d
  {
    if ms == [] then 0
    else
      var d, rest := Depth(ms[0].value), MembersDepth(ms[1..]);
      assert forall m :: m in ms ==> m == ms[0] || m in ms[1..];
      if d < rest then rest else d
  }

  lemma {:induction false} FewerMembersAreNoDeeper(ms: seq<Member>, ns: seq<Member>)
    requires forall m :: m in ms ==> m in ns
    ensures MembersDepth(ms) <= MembersDepth(ns)
  {
    if ms != [] {
      assert ms[0] in ms && forall m :: m in ms[1..] ==> m in ms;
      FewerMembersAreNoDeeper(ms[1..], ns);
    }
  }

  // ---- the stable sort ----

  function Insert(sorted: seq<Member>, m: Member, before: Before): seq<Member> {
    if sorted == [] then [m]
    else
      var front, last := sorted[..|sorted| - 1], sorted[|sorted| - 1];
      if before(m.key, last.key) then Insert(front, m, before) + [last] else sorted + [m]
  }

  lemma {:induction false} InsertAdds(sorted: seq<Member>, m: Member, before: Before)
    ensures multiset(Insert(sorted, m, before)) == multiset(sorted) + multiset{m}
  {
    if sorted != [] {
      InsertAdds(sorted[..|sorted| - 1], m, before);
      assert sorted == sorted[..|sorted| - 1] + [sorted[|sorted| - 1]];
    }
  }

  function Sort(ms: seq<Member>, before: Before): (r: seq<Member>)
    ensures multiset(r) == multiset(ms)
    ensures forall m :: m in r <==> m in ms
  {
    if ms == [] then []
    else
      assert ms == ms[..|ms| - 1] + [ms[|ms| - 1]];
      InsertAdds(Sort(ms[..|ms| - 1], before), ms[|ms| - 1], before);
      var r := Insert(Sort(ms[..|ms| - 1], before), ms[|ms| - 1], before);
      assert forall m :: m in r <==> m in multiset(r);
      assert forall m :: m in ms <==> m in multiset(ms);
      r
  }

  // ---- the printer ----

  function HexDigit(n: nat): char
    requires n < 16
  {
    if n < 10 then ('0' as int + n) as char else ('a' as int + (n - 10)) as char
  }

  /** One character of a string, as section 7 of RFC 8259 lets it be written. */
  function Escape(c: char): (r: string)
    ensures r != "" && r[0] != '"'
  {
    if c == '"' then "\\\""
    else if c == '\\' then "\\\\"
    else if c as int == 8 then "\\b"
    else if c == '\t' then "\\t"
    else if c == '\n' then "\\n"
    else if c as int == 12 then "\\f"
    else if c == '\r' then "\\r"
    else if c as int < 32 then "\\u00" + [HexDigit(c as int / 16), HexDigit(c as int % 16)]
    else [c]
  }

  function EscapeAll(s: string): string {
    if s == "" then "" else Escape(s[0]) + EscapeAll(s[1..])
  }

  function Quote(s: string): string {
    "\"" + EscapeAll(s) + "\""
  }

  function Print(v: Json, before: Before): string
    decreases Depth(v), 0
  {
    match v
    case Null => "null"
    case Bool(b) => if b then "true" else "false"
    case Number(token) => token
    case String(text) => Quote(text)
    case Array(items) => "[" + PrintItems(items, before) + "]"
    case Object(members) =>
      FewerMembersAreNoDeeper(Sort(members, before), members);
      "{" + PrintMembers(Sort(members, before), before) + "}"
  }

  function PrintItems(items: seq<Json>, before: Before): string
    decreases ItemsDepth(items), 1 + |items|
  {
    if items == [] then ""
    else if |items| == 1 then Print(items[0], before)
    else Print(items[0], before) + "," + PrintItems(items[1..], before)
  }

  function PrintMember(m: Member, before: Before): string
    decreases Depth(m.value), 1
  {
    Quote(m.key) + ":" + Print(m.value, before)
  }

  function PrintMembers(ms: seq<Member>, before: Before): string
    decreases MembersDepth(ms), 2 + |ms|
  {
    if ms == [] then ""
    else if |ms| == 1 then PrintMember(ms[0], before)
    else PrintMember(ms[0], before) + "," + PrintMembers(ms[1..], before)
  }

  // ---- values ----

  predicate IsDigit(c: char) { '0' <= c <= '9' }

  predicate Digits(s: string) { s != "" && forall c :: c in s ==> IsDigit(c) }

  /** [ minus ] int [ frac ] [ exp ], section 6 of RFC 8259. */
  ghost predicate NumberToken(s: string) {
    exists minus, whole, frac, exp ::
      && s == minus + whole + frac + exp
      && (minus == "" || minus == "-")
      && Digits(whole) && (|whole| > 1 ==> whole[0] != '0')
      && (frac == "" || (frac[0] == '.' && Digits(frac[1..])))
      && (exp == "" || Exponent(exp))
  }

  predicate Exponent(s: string) {
    && |s| >= 2 && (s[0] == 'e' || s[0] == 'E')
    && if s[1] == '+' || s[1] == '-' then Digits(s[2..]) else Digits(s[1..])
  }

  /** No object has a key twice, and numbers are numbers. */
  ghost predicate WellFormed(v: Json)
    decreases v
  {
    match v
    case Number(token) => NumberToken(token)
    case Array(items) => forall i :: 0 <= i < |items| ==> WellFormed(items[i])
    case Object(members) =>
      && (forall i, j :: 0 <= i < j < |members| ==> members[i].key != members[j].key)
      && (forall i :: 0 <= i < |members| ==> WellFormed(members[i].value))
    case _ => true
  }

  /** Equal up to the order of the keys of objects, at any depth. */
  ghost predicate Same(v: Json, w: Json)
    decreases v
  {
    match v
    case Array(items) =>
      w.Array? && |w.items| == |items| && forall i :: 0 <= i < |items| ==> Same(items[i], w.items[i])
    case Object(members) =>
      && w.Object? && |w.members| == |members|
      && forall i :: 0 <= i < |members| ==>
           exists j :: 0 <= j < |w.members| && w.members[j].key == members[i].key && Same(members[i].value, w.members[j].value)
    case _ => w == v
  }

  // ---- equal texts come from equal values only ----

  /** What may follow a value inside another one, or nothing. */
  predicate Ends(r: string) {
    r == "" || r[0] == ',' || r[0] == ']' || r[0] == '}'
  }

  /** Texts that begin with stretches of equal length agree piecewise. */
  lemma Peel(a: string, b: string, x: string, y: string)
    requires a + x == b + y && |a| == |b|
    ensures a == b && x == y
  {
    assert a == (a + x)[..|a|] && b == (b + y)[..|b|];
    assert x == (a + x)[|a|..] && y == (b + y)[|b|..];
  }

  lemma Regroup(a: string, b: string, c: string)
    ensures (a + b) + c == a + (b + c)
  {}

  lemma EscapeShape(c: char)
    ensures
      var r := Escape(c);
      && (|r| == 1 || |r| == 2 || |r| == 6) && (r[0] == '\\' <==> |r| > 1)
      && (|r| > 1 ==> (r[1] == 'u' <==> |r| == 6))
  {}

  lemma EscapeIsInjective(c: char, d: char)
    requires Escape(c) == Escape(d)
    ensures c == d
  {
    EscapeShape(c);
    EscapeShape(d);
    if |Escape(c)| == 6 {
      assert Escape(c)[4] == Escape(d)[4] && Escape(c)[5] == Escape(d)[5];
      assert c as int / 16 == d as int / 16 && c as int % 16 == d as int % 16;
    } else if |Escape(c)| == 2 {
      assert Escape(c)[1] == Escape(d)[1];
    } else {
      assert Escape(c)[0] == Escape(d)[0];
    }
  }

  lemma EscapesAreDistinct(c: char, d: char, x: string, y: string)
    requires Escape(c) + x == Escape(d) + y
    ensures c == d && x == y
  {
    EscapeShape(c);
    EscapeShape(d);
    var e, f := Escape(c), Escape(d);
    assert e[0] == (e + x)[0] == (f + y)[0] == f[0];
    if |e| > 1 {
      assert e[1] == (e + x)[1] == (f + y)[1] == f[1];
    }
    Peel(e, f, x, y);
    EscapeIsInjective(c, d);
  }

  /** `Q(s, x)` is the rest of a quoted string and what follows it. */
  function Q(s: string, x: string): string {
    EscapeAll(s) + ("\"" + x)
  }

  lemma QUnfolds(s: string, x: string)
    requires s != ""
    ensures Q(s, x) == Escape(s[0]) + Q(s[1..], x) && Q(s, x)[0] != '"'
  {
    Regroup(Escape(s[0]), EscapeAll(s[1..]), "\"" + x);
  }

  lemma QEnds(x: string)
    ensures Q("", x) == "\"" + x && Q("", x)[0] == '"'
  {}

  lemma {:induction false} QuotesAreDistinct(s: string, t: string, x: string, y: string)
    requires Q(s, x) == Q(t, y)
    ensures s == t && x == y
  {
    QEnds(x);
    QEnds(y);
    if s != "" { QUnfolds(s, x); }
    if t != "" { QUnfolds(t, y); }
    if s == "" {
      Peel("\"", "\"", x, y);
    } else {
      EscapesAreDistinct(s[0], t[0], Q(s[1..], x), Q(t[1..], y));
      QuotesAreDistinct(s[1..], t[1..], x, y);
      assert s == [s[0]] + s[1..] && t == [t[0]] + t[1..];
    }
  }

  predicate NumberChar(c: char) {
    IsDigit(c) || c == '-' || c == '+' || c == '.' || c == 'e' || c == 'E'
  }

  lemma NumbersAreNumberChars(token: string)
    requires NumberToken(token)
    ensures token != "" && (IsDigit(token[0]) || token[0] == '-') && forall c :: c in token ==> NumberChar(c)
  {
    var minus, whole, frac, exp :|
      && token == minus + whole + frac + exp
      && (minus == "" || minus == "-")
      && Digits(whole) && (|whole| > 1 ==> whole[0] != '0')
      && (frac == "" || (frac[0] == '.' && Digits(frac[1..])))
      && (exp == "" || Exponent(exp));
    if frac != "" { assert frac == [frac[0]] + frac[1..]; }
    if exp != "" {
      assert exp == [exp[0]] + exp[1..] && exp[1..] == [exp[1]] + exp[2..];
    }
    assert whole[0] in whole;
    assert token[0] == if minus == "" then whole[0] else '-';
  }

  lemma ShorterRunsOn(t: string, u: string, r: string, q: string)
    requires t + r == u + q && |t| < |u|
    ensures r != "" && r[0] in u
  {
    assert (t + r)[|t|] == r[0] && (u + q)[|t|] == u[|t|];
  }

  lemma RunsOfNumberCharsEndTogether(t: string, u: string, r: string, q: string)
    requires t + r == u + q && Ends(r) && Ends(q)
    requires (forall c :: c in t ==> NumberChar(c)) && forall c :: c in u ==> NumberChar(c)
    ensures t == u && r == q
  {
    if |t| < |u| {
      ShorterRunsOn(t, u, r, q);
    } else if |u| < |t| {
      ShorterRunsOn(u, t, q, r);
    }
    Peel(t, u, r, q);
  }

  /** The first character tells the kind of value. */
  lemma FirstCharacter(v: Json, before: Before)
    requires WellFormed(v)
    ensures
      var text := Print(v, before);
      && text != ""
      && (v.Null? <==> text[0] == 'n') && (v.Bool? && v.b <==> text[0] == 't') && (v.Bool? && !v.b <==> text[0] == 'f')
      && (v.Number? <==> IsDigit(text[0]) || text[0] == '-') && (v.String? <==> text[0] == '"')
      && (v.Array? <==> text[0] == '[') && (v.Object? <==> text[0] == '{')
  {
    if v.Number? { NumbersAreNumberChars(v.token); }
  }

  ghost predicate SameItems(vs: seq<Json>, ws: seq<Json>) {
    |vs| == |ws| && forall i :: 0 <= i < |vs| ==> Same(vs[i], ws[i])
  }

  ghost predicate SameMembers(ms: seq<Member>, ns: seq<Member>) {
    |ms| == |ns| && forall i :: 0 <= i < |ms| ==> ms[i].key == ns[i].key && Same(ms[i].value, ns[i].value)
  }

  /** The rest of a printed array and what follows it. */
  function RestOfItems(items: seq<Json>, r: string, before: Before): string
    decreases |items|, 1
  {
    if items == [] then "]" + r
    else Print(items[0], before) + AfterItem(items, r, before)
  }

  function AfterItem(items: seq<Json>, r: string, before: Before): string
    requires items != []
    decreases |items|, 0
  {
    if |items| == 1 then "]" + r else "," + RestOfItems(items[1..], r, before)
  }

  lemma {:induction false} ArrayText(items: seq<Json>, r: string, before: Before)
    ensures PrintItems(items, before) + ("]" + r) == RestOfItems(items, r, before)
  {
    if |items| > 1 {
      ArrayText(items[1..], r, before);
      Regroup(Print(items[0], before), "," + PrintItems(items[1..], before), "]" + r);
      Regroup(",", PrintItems(items[1..], before), "]" + r);
      Regroup(Print(items[0], before), ",", PrintItems(items[1..], before));
    }
  }

  /** The rest of a printed object and what follows it. */
  function RestOfMembers(ms: seq<Member>, r: string, before: Before): string
    decreases |ms|, 1
  {
    if ms == [] then "}" + r
    else "\"" + Q(ms[0].key, ":" + (Print(ms[0].value, before) + AfterMember(ms, r, before)))
  }

  function AfterMember(ms: seq<Member>, r: string, before: Before): string
    requires ms != []
    decreases |ms|, 0
  {
    if |ms| == 1 then "}" + r else "," + RestOfMembers(ms[1..], r, before)
  }

  lemma MemberText(m: Member, x: string, before: Before)
    ensures PrintMember(m, before) + x == "\"" + Q(m.key, ":" + (Print(m.value, before) + x))
  {
    var key, value := EscapeAll(m.key), Print(m.value, before);
    Regroup("\"" + key + "\"" + ":", value, x);
    Regroup("\"" + key + "\"", ":", value + x);
    Regroup("\"" + key, "\"", ":" + (value + x));
    Regroup("\"", key, "\"" + (":" + (value + x)));
    Regroup("\"" + key + "\"", ":", value);
  }

  lemma {:induction false} ObjectText(ms: seq<Member>, r: string, before: Before)
    ensures PrintMembers(ms, before) + ("}" + r) == RestOfMembers(ms, r, before)
  {
    if |ms| > 0 { MemberText(ms[0], AfterMember(ms, r, before), before); }
    if |ms| > 1 {
      ObjectText(ms[1..], r, before);
      Regroup(PrintMember(ms[0], before), "," + PrintMembers(ms[1..], before), "}" + r);
      Regroup(",", PrintMembers(ms[1..], before), "}" + r);
      Regroup(PrintMember(ms[0], before), ",", PrintMembers(ms[1..], before));
    }
  }

  /** Equal first characters, and equal rests. */
  lemma PeelOne(a: char, b: char, x: string, y: string)
    requires [a] + x == [b] + y
    ensures a == b && x == y
  {
    Peel([a], [b], x, y);
  }

  lemma BeginsWith(a: string, x: string)
    requires a != ""
    ensures (a + x)[0] == a[0]
  {}

  lemma ItemsBegin(items: seq<Json>, r: string, before: Before)
    requires items != [] ==> WellFormed(items[0])
    ensures RestOfItems(items, r, before) != "" && (RestOfItems(items, r, before)[0] == ']' <==> items == [])
  {
    if items != [] {
      FirstCharacter(items[0], before);
      BeginsWith(Print(items[0], before), AfterItem(items, r, before));
    }
  }

  lemma {:induction false} PrintedItemsAreUnique(vs: seq<Json>, ws: seq<Json>, r: string, q: string, before: Before)
    requires (forall i :: 0 <= i < |vs| ==> WellFormed(vs[i])) && (forall i :: 0 <= i < |ws| ==> WellFormed(ws[i]))
    requires RestOfItems(vs, r, before) == RestOfItems(ws, q, before)
    ensures SameItems(vs, ws) && r == q
    decreases ItemsDepth(vs), 1 + 2 * |vs|
  {
    ItemsBegin(vs, r, before);
    ItemsBegin(ws, q, before);
    if vs == [] {
      PeelOne(']', ']', r, q);
    } else {
      PrintedValueIsUnique(vs[0], ws[0], AfterItem(vs, r, before), AfterItem(ws, q, before), before);
      MoreItemsAreUnique(vs, ws, r, q, before);
    }
  }

  lemma {:induction false} MoreItemsAreUnique(vs: seq<Json>, ws: seq<Json>, r: string, q: string, before: Before)
    requires (forall i :: 0 <= i < |vs| ==> WellFormed(vs[i])) && (forall i :: 0 <= i < |ws| ==> WellFormed(ws[i]))
    requires vs != [] && ws != [] && AfterItem(vs, r, before) == AfterItem(ws, q, before) && Same(vs[0], ws[0])
    ensures SameItems(vs, ws) && r == q
    decreases ItemsDepth(vs), 2 * |vs|
  {
    var x := if |vs| == 1 then r else RestOfItems(vs[1..], r, before);
    var y := if |ws| == 1 then q else RestOfItems(ws[1..], q, before);
    PeelOne(if |vs| == 1 then ']' else ',', if |ws| == 1 then ']' else ',', x, y);
    if |vs| > 1 {
      PrintedItemsAreUnique(vs[1..], ws[1..], r, q, before);
      assert forall i :: 0 < i < |vs| ==> vs[i] == vs[1..][i - 1] && ws[i] == ws[1..][i - 1];
    }
  }

  ghost predicate WellFormedMembers(ms: seq<Member>) {
    forall m :: m in ms ==> WellFormed(m.value)
  }

  lemma {:induction false} PrintedMembersAreUnique(ms: seq<Member>, ns: seq<Member>, r: string, q: string, before: Before)
    requires WellFormedMembers(ms) && WellFormedMembers(ns)
    requires RestOfMembers(ms, r, before) == RestOfMembers(ns, q, before)
    ensures SameMembers(ms, ns) && r == q
    decreases MembersDepth(ms), 1 + 2 * |ms|
  {
    if ms == [] || ns == [] {
      assert RestOfMembers(ms, r, before)[0] == RestOfMembers(ns, q, before)[0];
      PeelOne('}', '}', r, q);
    } else {
      var u, v := ms[0].value, ns[0].value;
      var x, y := ":" + (Print(u, before) + AfterMember(ms, r, before)), ":" + (Print(v, before) + AfterMember(ns, q, before));
      PeelOne('"', '"', Q(ms[0].key, x), Q(ns[0].key, y));
      QuotesAreDistinct(ms[0].key, ns[0].key, x, y);
      PeelOne(':', ':', Print(u, before) + AfterMember(ms, r, before), Print(v, before) + AfterMember(ns, q, before));
      assert ms[0] in ms && ns[0] in ns;
      PrintedValueIsUnique(u, v, AfterMember(ms, r, before), AfterMember(ns, q, before), before);
      MoreMembersAreUnique(ms, ns, r, q, before);
    }
  }

  lemma FirstAndRestAreSame(ms: seq<Member>, ns: seq<Member>)
    requires ms != [] && ns != [] && ms[0].key == ns[0].key && Same(ms[0].value, ns[0].value) && SameMembers(ms[1..], ns[1..])
    ensures SameMembers(ms, ns)
  {
    assert forall i :: 0 < i < |ms| ==> ms[i] == ms[1..][i - 1] && ns[i] == ns[1..][i - 1];
  }

  lemma {:induction false} MoreMembersAreUnique(ms: seq<Member>, ns: seq<Member>, r: string, q: string, before: Before)
    requires WellFormedMembers(ms) && WellFormedMembers(ns)
    requires ms != [] && ns != [] && AfterMember(ms, r, before) == AfterMember(ns, q, before)
    requires ms[0].key == ns[0].key && Same(ms[0].value, ns[0].value)
    ensures SameMembers(ms, ns) && r == q
    decreases MembersDepth(ms), 2 * |ms|
  {
    var x := if |ms| == 1 then r else RestOfMembers(ms[1..], r, before);
    var y := if |ns| == 1 then q else RestOfMembers(ns[1..], q, before);
    PeelOne(if |ms| == 1 then '}' else ',', if |ns| == 1 then '}' else ',', x, y);
    if |ms| > 1 {
      PrintedMembersAreUnique(ms[1..], ns[1..], r, q, before);
      FirstAndRestAreSame(ms, ns);
    }
  }

  /** A printed value can be read off the front of any text in one way only. */
  lemma {:induction false} PrintedValueIsUnique(v: Json, w: Json, r: string, q: string, before: Before)
    requires WellFormed(v) && WellFormed(w) && Ends(r) && Ends(q)
    requires Print(v, before) + r == Print(w, before) + q
    ensures Same(v, w) && r == q
    decreases Depth(v), 0
  {
    FirstCharacter(v, before);
    FirstCharacter(w, before);
    BeginsWith(Print(v, before), r);
    BeginsWith(Print(w, before), q);
    match v
    case Null => Peel("null", "null", r, q);
    case Bool(b) => Peel(Print(v, before), Print(w, before), r, q);
    case Number(token) =>
      NumbersAreNumberChars(token);
      NumbersAreNumberChars(w.token);
      RunsOfNumberCharsEndTogether(token, w.token, r, q);
    case String(text) =>
      QuotedText(text, r);
      QuotedText(w.text, q);
      PeelOne('"', '"', Q(text, r), Q(w.text, q));
      QuotesAreDistinct(text, w.text, r, q);
    case Array(items) =>
      BracketedText("[", PrintItems(items, before), "]", r);
      BracketedText("[", PrintItems(w.items, before), "]", q);
      ArrayText(items, r, before);
      ArrayText(w.items, q, before);
      PeelOne('[', '[', RestOfItems(items, r, before), RestOfItems(w.items, q, before));
      PrintedItemsAreUnique(items, w.items, r, q, before);
    case Object(members) =>
      ObjectsAreUnique(members, w.members, r, q, before);
  }

  lemma {:induction false} ObjectsAreUnique(members: seq<Member>, members': seq<Member>, r: string, q: string, before: Before)
    requires WellFormed(Object(members)) && WellFormed(Object(members'))
    requires Print(Object(members), before) + r == Print(Object(members'), before) + q
    ensures Same(Object(members), Object(members')) && r == q
    decreases MembersDepth(members), 2 + 2 * |members|
  {
    var ms, ns := Sort(members, before), Sort(members', before);
    BracketedText("{", PrintMembers(ms, before), "}", r);
    BracketedText("{", PrintMembers(ns, before), "}", q);
    ObjectText(ms, r, before);
    ObjectText(ns, q, before);
    PeelOne('{', '{', RestOfMembers(ms, r, before), RestOfMembers(ns, q, before));
    FewerMembersAreNoDeeper(ms, members);
    SortKeepsLength(members, before);
    PrintedMembersAreUnique(ms, ns, r, q, before);
    SortedSame(members, members', before);
  }

  lemma SortKeepsLength(ms: seq<Member>, before: Before)
    ensures |Sort(ms, before)| == |ms|
  {
    assert |multiset(Sort(ms, before))| == |multiset(ms)|;
  }

  lemma QuotedText(s: string, r: string)
    ensures Quote(s) + r == "\"" + Q(s, r)
  {
    Regroup("\"" + EscapeAll(s), "\"", r);
    Regroup("\"", EscapeAll(s), "\"" + r);
  }

  lemma BracketedText(open: string, inner: string, close: string, r: string)
    ensures (open + inner + close) + r == open + (inner + (close + r))
  {
    Regroup(open + inner, close, r);
    Regroup(open, inner, close + r);
  }

  /** Members that agree in sorted order agree. */
  lemma SortedSame(ms: seq<Member>, ns: seq<Member>, before: Before)
    requires SameMembers(Sort(ms, before), Sort(ns, before))
    ensures Same(Object(ms), Object(ns))
  {
    SortKeepsLength(ms, before);
    SortKeepsLength(ns, before);
    forall i | 0 <= i < |ms|
      ensures exists j :: 0 <= j < |ns| && ns[j].key == ms[i].key && Same(ms[i].value, ns[j].value)
    {
      var j := SortedTwin(ms, ns, i, before);
    }
  }

  lemma SortedTwin(ms: seq<Member>, ns: seq<Member>, i: nat, before: Before) returns (j: nat)
    requires i < |ms| && SameMembers(Sort(ms, before), Sort(ns, before))
    ensures j < |ns| && ns[j].key == ms[i].key && Same(ms[i].value, ns[j].value)
  {
    var ms', ns' := Sort(ms, before), Sort(ns, before);
    assert ms[i] in ms && ms[i] in ms';
    var k :| 0 <= k < |ms'| && ms'[k] == ms[i];
    assert ns'[k] in ns' && ns'[k] in ns;
    j :| 0 <= j < |ns| && ns[j] == ns'[k];
  }

  // ---- equal values have equal texts, when the comparison tells all keys apart ----

  /** A comparison as a sort needs it; different keys may tie. */
  ghost predicate Ordering(before: Before) {
    && (forall x, y :: before(x, y) ==> !before(y, x))
    && (forall x, y, z :: before(x, y) && before(y, z) ==> before(x, z))
  }

  /** Different keys never tie. */
  ghost predicate TellsApart(before: Before) {
    forall x, y :: x != y ==> before(x, y) || before(y, x)
  }

  predicate DistinctKeys(ms: seq<Member>) {
    forall i, j :: 0 <= i < j < |ms| ==> ms[i].key != ms[j].key
  }

  predicate Sorted(ms: seq<Member>, before: Before) {
    forall i, j :: 0 <= i < j < |ms| ==> before(ms[i].key, ms[j].key)
  }

  lemma {:induction false} InsertKeepsSorted(sorted: seq<Member>, m: Member, before: Before)
    requires Ordering(before) && TellsApart(before) && Sorted(sorted, before)
    requires forall i :: 0 <= i < |sorted| ==> sorted[i].key != m.key
    ensures Sorted(Insert(sorted, m, before), before)
  {
    if sorted == [] {
    } else {
      var front, last := sorted[..|sorted| - 1], sorted[|sorted| - 1];
      if before(m.key, last.key) {
        InsertKeepsSorted(front, m, before);
        var r := Insert(front, m, before);
        InsertAdds(front, m, before);
        forall i | 0 <= i < |r| ensures before(r[i].key, last.key) {
          assert r[i] in multiset(r);
          assert r[i] == m || r[i] in front;
        }
      } else {
        forall i | 0 <= i < |sorted| ensures before(sorted[i].key, m.key) {
          if i < |front| { assert before(sorted[i].key, last.key); }
        }
      }
    }
  }

  lemma {:induction false} SortSorts(ms: seq<Member>, before: Before)
    requires Ordering(before) && TellsApart(before) && DistinctKeys(ms)
    ensures Sorted(Sort(ms, before), before)
  {
    if ms == [] {
    } else {
      var front, last := ms[..|ms| - 1], ms[|ms| - 1];
      SortSorts(front, before);
      forall m | m in Sort(front, before) ensures m.key != last.key {
        assert m in front;
        var k :| 0 <= k < |front| && front[k] == m;
        assert ms[k].key != ms[|ms| - 1].key;
      }
      InsertKeepsSorted(Sort(front, before), last, before);
    }
  }

  function Keys(ms: seq<Member>): set<string> {
    set m | m in ms :: m.key
  }

  lemma LastKeyIsNew(ms: seq<Member>)
    requires ms != [] && DistinctKeys(ms)
    ensures DistinctKeys(ms[..|ms| - 1]) && ms[|ms| - 1].key !in Keys(ms[..|ms| - 1])
    ensures Keys(ms) == Keys(ms[..|ms| - 1]) + {ms[|ms| - 1].key}
  {
    var front, last := ms[..|ms| - 1], ms[|ms| - 1];
    assert forall m :: m in ms <==> m in front || m == last by { assert ms == front + [last]; }
    forall m | m in front ensures m.key != last.key {
      var k :| 0 <= k < |front| && front[k] == m;
      assert ms[k].key != ms[|ms| - 1].key;
    }
  }

  lemma {:induction false} AsManyKeys(ms: seq<Member>)
    requires DistinctKeys(ms)
    ensures |Keys(ms)| == |ms|
  {
    if ms == [] {
    } else {
      LastKeyIsNew(ms);
      AsManyKeys(ms[..|ms| - 1]);
    }
  }

  lemma SubsetOfEqualSize(a: set<string>, b: set<string>)
    requires a <= b && |a| == |b|
    ensures a == b
  {
    if a != b {
      var x :| x in b && x !in a;
      assert a <= b - {x};
      SubsetIsSmaller(a, b - {x});
    }
  }

  lemma {:induction false} SubsetIsSmaller(a: set<string>, b: set<string>)
    requires a <= b
    ensures |a| <= |b|
    decreases |b|
  {
    if a == {} {
    } else {
      var x :| x in a;
      SubsetIsSmaller(a - {x}, b - {x});
    }
  }

  /** Sorted lists with the same keys have them in the same places. */
  lemma {:induction false} SortedKeysAgree(ms: seq<Member>, ns: seq<Member>, before: Before)
    requires Ordering(before) && Sorted(ms, before) && Sorted(ns, before) && Keys(ms) == Keys(ns)
    ensures |ms| == |ns| && forall i :: 0 <= i < |ms| ==> ms[i].key == ns[i].key
    decreases |ms|
  {
    if ms == [] {
      assert forall n :: n in ns ==> n.key in Keys(ns);
    } else {
      assert ms[0].key in Keys(ms);
      var n :| n in ns && n.key == ms[0].key;
      assert ns[0].key in Keys(ms);
      var m :| m in ms && m.key == ns[0].key;
      SmallestKeysAgree(ms, ns, before);
      KeysOfRest(ms, before);
      KeysOfRest(ns, before);
      SortedKeysAgree(ms[1..], ns[1..], before);
      assert forall i :: 0 < i < |ms| ==> ms[i] == ms[1..][i - 1] && ns[i] == ns[1..][i - 1];
    }
  }

  lemma SmallestKeysAgree(ms: seq<Member>, ns: seq<Member>, before: Before)
    requires Ordering(before) && Sorted(ms, before) && Sorted(ns, before) && ms != [] && ns != []
    requires ms[0].key in Keys(ns) && ns[0].key in Keys(ms)
    ensures ms[0].key == ns[0].key
  {
    var n :| n in ns && n.key == ms[0].key;
    var m :| m in ms && m.key == ns[0].key;
    var j :| 0 <= j < |ns| && ns[j] == n;
    var k :| 0 <= k < |ms| && ms[k] == m;
    assert j > 0 ==> before(ns[0].key, ns[j].key);
    assert k > 0 ==> before(ms[0].key, ms[k].key);
  }

  lemma KeysOfRest(ms: seq<Member>, before: Before)
    requires Ordering(before) && Sorted(ms, before) && ms != []
    ensures Keys(ms[1..]) == Keys(ms) - {ms[0].key}
  {
    assert forall m :: m in ms <==> m == ms[0] || m in ms[1..];
    forall m | m in ms[1..] ensures m.key != ms[0].key {
      var k :| 0 <= k < |ms[1..]| && ms[1..][k] == m;
      assert before(ms[0].key, ms[k + 1].key);
      assert !before(ms[0].key, ms[0].key);
    }
  }

  lemma SameMembersHaveSameKeys(ms: seq<Member>, ns: seq<Member>)
    requires DistinctKeys(ms) && DistinctKeys(ns) && Same(Object(ms), Object(ns))
    ensures Keys(ms) == Keys(ns)
  {
    forall k | k in Keys(ms) ensures k in Keys(ns) {
      var m :| m in ms && m.key == k;
      var i :| 0 <= i < |ms| && ms[i] == m;
      var j :| 0 <= j < |ns| && ns[j].key == ms[i].key && Same(ms[i].value, ns[j].value);
      assert ns[j] in ns;
    }
    AsManyKeys(ms);
    AsManyKeys(ns);
    SubsetOfEqualSize(Keys(ms), Keys(ns));
  }

  lemma SortKeepsKeys(ms: seq<Member>, before: Before)
    ensures Keys(Sort(ms, before)) == Keys(ms)
  {}

  /** In sorted order the members pair up. */
  lemma SortedMembersPairUp(ms: seq<Member>, ns: seq<Member>, before: Before)
    requires Ordering(before) && TellsApart(before) && DistinctKeys(ms) && DistinctKeys(ns) && Same(Object(ms), Object(ns))
    ensures SameMembers(Sort(ms, before), Sort(ns, before))
  {
    var ms', ns' := Sort(ms, before), Sort(ns, before);
    SortSorts(ms, before);
    SortSorts(ns, before);
    SameMembersHaveSameKeys(ms, ns);
    SortKeepsKeys(ms, before);
    SortKeepsKeys(ns, before);
    SortedKeysAgree(ms', ns', before);
    forall i | 0 <= i < |ms'| ensures Same(ms'[i].value, ns'[i].value) {
      MemberHasItsTwin(ms, ns, ms'[i], ns'[i]);
    }
  }

  lemma MemberHasItsTwin(ms: seq<Member>, ns: seq<Member>, m: Member, n: Member)
    requires DistinctKeys(ns) && Same(Object(ms), Object(ns)) && m in ms && n in ns && m.key == n.key
    ensures Same(m.value, n.value)
  {
    var i :| 0 <= i < |ms| && ms[i] == m;
    var j :| 0 <= j < |ns| && ns[j].key == ms[i].key && Same(ms[i].value, ns[j].value);
    var k :| 0 <= k < |ns| && ns[k] == n;
    assert j == k;
  }

  lemma {:induction false} SameItemsPrintAlike(vs: seq<Json>, ws: seq<Json>, before: Before)
    requires Ordering(before) && TellsApart(before) && SameItems(vs, ws)
    requires forall i :: 0 <= i < |vs| ==> WellFormed(vs[i]) && WellFormed(ws[i])
    ensures PrintItems(vs, before) == PrintItems(ws, before)
    decreases ItemsDepth(vs), 1 + |vs|
  {
    if vs != [] {
      SameValuesPrintAlike(vs[0], ws[0], before);
      if |vs| > 1 { SameItemsPrintAlike(vs[1..], ws[1..], before); }
    }
  }

  lemma {:induction false} SameMembersPrintAlike(ms: seq<Member>, ns: seq<Member>, before: Before)
    requires Ordering(before) && TellsApart(before) && SameMembers(ms, ns) && WellFormedMembers(ms) && WellFormedMembers(ns)
    ensures PrintMembers(ms, before) == PrintMembers(ns, before)
    decreases MembersDepth(ms), 1 + |ms|
  {
    if ms != [] {
      assert ms[0] in ms && ns[0] in ns;
      SameValuesPrintAlike(ms[0].value, ns[0].value, before);
      if |ms| > 1 {
        assert SameMembers(ms[1..], ns[1..]) && WellFormedMembers(ms[1..]) && WellFormedMembers(ns[1..]);
        SameMembersPrintAlike(ms[1..], ns[1..], before);
      }
    }
  }

  /** Values that differ only in the order of object keys, at any depth, print to the same text. */
  lemma {:induction false} SameValuesPrintAlike(v: Json, w: Json, before: Before)
    requires Ordering(before) && TellsApart(before) && WellFormed(v) && WellFormed(w) && Same(v, w)
    ensures Print(v, before) == Print(w, before)
    decreases Depth(v), 0
  {
    match v
    case Array(items) => SameItemsPrintAlike(items, w.items, before);
    case Object(members) =>
      var ms, ns := Sort(members, before), Sort(w.members, before);
      SortedMembersPairUp(members, w.members, before);
      FewerMembersAreNoDeeper(ms, members);
      SortKeepsLength(members, before);
      assert WellFormedMembers(ms) && WellFormedMembers(ns);
      SameMembersPrintAlike(ms, ns, before);
    case _ =>
  }

  // ---- the main results ----

  /** Equal texts come only from values that differ at most in the order of object keys, whatever the comparison. */
  lemma EqualTextsMeanSameValues(v: Json, w: Json, before: Before)
    requires WellFormed(v) && WellFormed(w) && Print(v, before) == Print(w, before)
    ensures Same(v, w)
  {
    assert Print(v, before) + "" == Print(w, before) + "";
    PrintedValueIsUnique(v, w, "", "", before);
  }

  ghost predicate Canonical(before: Before) {
    forall v, w :: WellFormed(v) && WellFormed(w) && Same(v, w) ==> Print(v, before) == Print(w, before)
  }

  /** With a comparison under which no two keys tie, texts are equal exactly for the same values. */
  lemma StableJsonIsCanonical(v: Json, w: Json, before: Before)
    requires Ordering(before) && TellsApart(before) && WellFormed(v) && WellFormed(w)
    ensures Print(v, before) == Print(w, before) <==> Same(v, w)
  {
    if Same(v, w) { SameValuesPrintAlike(v, w, before); }
    if Print(v, before) == Print(w, before) { EqualTextsMeanSameValues(v, w, before); }
  }

  function Pair(x: string, y: string): seq<Member> {
    [Member(x, Null), Member(y, Null)]
  }

  /** Keys that tie stay in the order they came in. */
  lemma TiedPairIsSorted(x: string, y: string, before: Before)
    requires !before(y, x)
    ensures Sort(Pair(x, y), before) == Pair(x, y)
  {
    var xy := Pair(x, y);
    assert xy[..1] == [xy[0]] && [xy[0]][..0] == [];
    assert Sort([xy[0]], before) == Insert(Sort([], before), xy[0], before) == [xy[0]];
  }

  lemma PairsAreSame(x: string, y: string)
    requires x != y
    ensures WellFormed(Object(Pair(x, y))) && Same(Object(Pair(x, y)), Object(Pair(y, x)))
  {
    assert Pair(y, x)[1].key == x && Pair(y, x)[0].key == y;
    assert Same(Null, Null);
  }

  /** Two keys that tie give one value with two texts. */
  lemma TiedKeysShow(x: string, y: string, before: Before)
    requires x != y && !before(x, y) && !before(y, x)
    ensures Print(Object(Pair(x, y)), before) != Print(Object(Pair(y, x)), before)
  {
    TiedPairIsSorted(x, y, before);
    TiedPairIsSorted(y, x, before);
    PairsAreSame(x, y);
    PairsAreSame(y, x);
    if Print(Object(Pair(x, y)), before) == Print(Object(Pair(y, x)), before) {
      ObjectsAreEqual(Pair(x, y), Pair(y, x), before);
    }
  }

  lemma ObjectsAreEqual(ms: seq<Member>, ns: seq<Member>, before: Before)
    requires WellFormed(Object(ms)) && WellFormed(Object(ns)) && Print(Object(ms), before) == Print(Object(ns), before)
    ensures SameMembers(Sort(ms, before), Sort(ns, before))
  {
    var ms', ns' := Sort(ms, before), Sort(ns, before);
    BracketedText("{", PrintMembers(ms', before), "}", "");
    BracketedText("{", PrintMembers(ns', before), "}", "");
    ObjectText(ms', "", before);
    ObjectText(ns', "", before);
    assert Print(Object(ms), before) + "" == Print(Object(ns), before) + "";
    PeelOne('{', '{', RestOfMembers(ms', "", before), RestOfMembers(ns', "", before));
    PrintedMembersAreUnique(ms', ns', "", "", before);
  }

  /** The printer is canonical for a comparison exactly when no two different keys tie under it. */
  lemma CanonicalIffNoTies(before: Before)
    requires Ordering(before)
    ensures Canonical(before) <==> TellsApart(before)
  {
    if TellsApart(before) {
      forall v, w | WellFormed(v) && WellFormed(w) && Same(v, w) ensures Print(v, before) == Print(w, before) {
        SameValuesPrintAlike(v, w, before);
      }
    } else {
      var x, y :| x != y && !before(x, y) && !before(y, x);
      TiesAreNotCanonical(x, y, before);
    }
  }

  lemma TiesAreNotCanonical(x: string, y: string, before: Before)
    requires x != y && !before(x, y) && !before(y, x)
    ensures !Canonical(before)
  {
    TiedKeysShow(x, y, before);
    PairsAreSame(x, y);
    PairsAreSame(y, x);
  }
}

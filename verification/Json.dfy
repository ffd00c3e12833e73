/** Canonical JSON text, on which every hash of the Frappe pack is computed. */
module Json {
  import opened Text

  /** A JavaScript value. Object members are kept in insertion order. The last three
      constructors are the values `canonicalJson` refuses: `undefined`, a non-finite number,
      and anything else (functions, symbols, big integers). */
  datatype Json =
    | Null
    | Bool(b: bool)
    | Num(n: int)
    | Str(s: string)
    | Arr(items: seq<Json>)
    | Obj(members: seq<Member>)
    | Undefined
    | NonFinite
    | Unsupported

  datatype Member = Member(key: string, value: Json)

  function KeySet(ms: seq<Member>): set<string> {
    set i | 0 <= i < |ms| :: ms[i].key
  }

  predicate DistinctKeys(ms: seq<Member>) {
    forall i, j :: 0 <= i < j < |ms| ==> ms[i].key != ms[j].key
  }

  /** Position of the first member with the given key. */
  function IndexOf(ms: seq<Member>, key: string): (i: nat)
    requires key in KeySet(ms)
    ensures i < |ms| && ms[i].key == key
  {
    if ms[0].key == key then 0 else
      assert key in KeySet(ms[1..]) by {
        var j :| 0 <= j < |ms| && ms[j].key == key;
        assert ms[1..][j - 1].key == key;
      }
      1 + IndexOf(ms[1..], key)
  }

  /** No refused value anywhere, and object keys distinct as in every JavaScript object. */
  predicate Canonicalizable(v: Json) {
    match v
    case Undefined => false
    case NonFinite => false
    case Unsupported => false
    case Arr(items) => forall i :: 0 <= i < |items| ==> Canonicalizable(items[i])
    case Obj(ms) => DistinctKeys(ms) && forall i :: 0 <= i < |ms| ==> Canonicalizable(ms[i].value)
    case _ => true
  }

  /** Equality of values up to the insertion order of object members. */
  ghost predicate SameValue(a: Json, b: Json)
    decreases a
  {
    match a
    case Arr(xs) => b.Arr? && |xs| == |b.items| && forall i :: 0 <= i < |xs| ==> SameValue(xs[i], b.items[i])
    case Obj(ms) =>
      b.Obj? && KeySet(ms) == KeySet(b.members) &&
      forall i :: 0 <= i < |ms| ==>
        (ms[i].key in KeySet(b.members) && SameValue(ms[i].value, b.members[IndexOf(b.members, ms[i].key)].value))
    case _ => a == b
  }

  // ------------------------------------------------------------------ text

  function Digit(d: nat): char
    requires d < 10
  {
    ('0' as int + d) as char
  }

  predicate IsDigit(c: char) {
    '0' <= c <= '9'
  }

  function NatText(n: nat): (r: string)
    ensures |r| > 0 && forall i :: 0 <= i < |r| ==> IsDigit(r[i])
  {
    if n < 10 then [Digit(n)] else NatText(n / 10) + [Digit(n % 10)]
  }

  function IntText(n: int): string {
    if n < 0 then "-" + NatText(-n) else NatText(n)
  }

  function HexDigit(d: nat): char
    requires d < 16
  {
    if d < 10 then Digit(d) else ('a' as int + d - 10) as char
  }

  /** One character inside a JSON string literal. */
  function EscapeChar(c: char): (r: string)
    ensures |r| > 0
  {
    if c == '\"' then "\\\""
    else if c == '\\' then "\\\\"
    else if c as int == 8 then "\\b"
    else if c == '\t' then "\\t"
    else if c == '\n' then "\\n"
    else if c as int == 12 then "\\f"
    else if c == '\r' then "\\r"
    else if c as int < 16 then "\\u000" + [HexDigit(c as int)]
    else if c as int < 32 then "\\u001" + [HexDigit(c as int - 16)]
    else [c]
  }

  function EscapeAll(s: string): string {
    if s == "" then "" else EscapeChar(s[0]) + EscapeAll(s[1..])
  }

  function Quote(s: string): string {
    "\"" + EscapeAll(s) + "\""
  }

  /** The text of a value, object members in key order. */
  function ValueText(v: Json): string
    requires Canonicalizable(v)
    decreases v, 0
  {
    match v
    case Null => "null"
    case Bool(b) => if b then "true" else "false"
    case Num(n) => IntText(n)
    case Str(s) => Quote(s)
    case Arr(items) => if items == [] then "[]" else "[" + ValueText(items[0]) + ItemsText(items[1..])
    case Obj(ms) => "{" + MembersText(ms, SortedKeys(KeySet(ms)), true)
  }

  function ItemsText(items: seq<Json>): string
    requires forall i :: 0 <= i < |items| ==> Canonicalizable(items[i])
    decreases items, 0
  {
    if items == [] then "]" else "," + ValueText(items[0]) + ItemsText(items[1..])
  }

  function MembersText(ms: seq<Member>, keys: seq<string>, first: bool): string
    requires forall i :: 0 <= i < |ms| ==> Canonicalizable(ms[i].value)
    requires forall k :: k in keys ==> k in KeySet(ms)
    decreases ms, |keys|
  {
    if keys == [] then "}" else
      (if first then "" else ",") + Quote(keys[0]) + ":" + ValueText(ms[IndexOf(ms, keys[0])].value)
      + MembersText(ms, keys[1..], false)
  }

  /** `canonicalJson`: the text, or the TypeError it throws. */
  function CanonicalJson(v: Json): Result<string, string> {
    if Canonicalizable(v) then Ok(ValueText(v)) else Err("TypeError")
  }

  // ---------------------------------------------- reading a text back is unique

  /** What may follow a value inside a larger text. */
  predicate Delimited(x: string) {
    x == "" || !IsDigit(x[0])
  }

  /** Equal texts cut at equal lengths. */
  lemma CutEqual(s: string, x: string, t: string, y: string)
    requires s + x == t + y && |s| == |t|
    ensures s == t && x == y
  {
    assert s == (s + x)[..|s|] && t == (t + y)[..|t|];
    assert x == (s + x)[|s|..] && y == (t + y)[|t|..];
  }

  lemma Assoc(a: string, b: string, c: string, d: string)
    ensures (a + b) + c == a + (b + c)
    ensures ((a + b) + c) + d == a + (b + (c + d))
  {
  }

  function NatValue(s: string): int {
    if s == "" then 0 else 10 * NatValue(s[..|s| - 1]) + (s[|s| - 1] as int - '0' as int)
  }

  lemma {:induction false} NatRoundTrip(n: nat)
    ensures NatValue(NatText(n)) == n
  {
    if n >= 10 {
      NatRoundTrip(n / 10);
      assert NatText(n)[..|NatText(n)| - 1] == NatText(n / 10);
    } else {
      assert NatText(n)[..0] == "";
    }
  }

  /** Length of the longest prefix of digits. */
  function DigitRun(s: string): nat {
    if s == "" || !IsDigit(s[0]) then 0 else 1 + DigitRun(s[1..])
  }

  lemma {:induction false} DigitRunOf(s: string, x: string)
    requires (forall i :: 0 <= i < |s| ==> IsDigit(s[i])) && Delimited(x)
    ensures DigitRun(s + x) == |s|
  {
    if s == "" {
      assert s + x == x;
    } else {
      assert (s + x)[1..] == s[1..] + x;
      DigitRunOf(s[1..], x);
    }
  }

  lemma NatTextUnique(m: nat, n: nat, x: string, y: string)
    requires Delimited(x) && Delimited(y)
    requires NatText(m) + x == NatText(n) + y
    ensures m == n && x == y
  {
    DigitRunOf(NatText(m), x);
    DigitRunOf(NatText(n), y);
    CutEqual(NatText(m), x, NatText(n), y);
    NatRoundTrip(m);
    NatRoundTrip(n);
  }

  lemma SameHead(s: string, x: string, t: string, y: string)
    requires s + x == t + y && s != "" && t != ""
    ensures s[0] == t[0]
  {
    assert (s + x)[0] == s[0] && (t + y)[0] == t[0];
  }

  lemma IntTextHead(n: int)
    ensures IntText(n) != "" && (IntText(n)[0] == '-' <==> n < 0)
  {
  }

  lemma IntTextUnique(m: int, n: int, x: string, y: string)
    requires Delimited(x) && Delimited(y)
    requires IntText(m) + x == IntText(n) + y
    ensures m == n && x == y
  {
    SameHead(IntText(m), x, IntText(n), y);
    IntTextHead(m);
    IntTextHead(n);
    if m < 0 {
      Assoc("-", NatText(-m), x, "");
      Assoc("-", NatText(-n), y, "");
      CutEqual("-", NatText(-m) + x, "-", NatText(-n) + y);
      NatTextUnique(-m, -n, x, y);
    } else {
      NatTextUnique(m, n, x, y);
    }
  }

  /** The escapes form a prefix code. */
  lemma EscapeCharUnique(c: char, d: char, x: string, y: string)
    requires EscapeChar(c) + x == EscapeChar(d) + y
    ensures c == d && x == y
  {
    var s, t := EscapeChar(c), EscapeChar(d);
    assert s[0] == (s + x)[0] == (t + y)[0] == t[0];
    if |s| > 1 {
      assert s[1] == (s + x)[1] == (t + y)[1] == t[1];
      if s[1] == 'u' {
        assert s[4] == (s + x)[4] == (t + y)[4] == t[4];
        assert s[5] == (s + x)[5] == (t + y)[5] == t[5];
      }
    }
    assert c == d;
    assert x == (s + x)[|s|..] == (t + y)[|t|..] == y;
  }

  lemma {:induction false} EscapeAllUnique(a: string, b: string, x: string, y: string)
    requires EscapeAll(a) + "\"" + x == EscapeAll(b) + "\"" + y
    ensures a == b && x == y
    decreases |a| + |b|
  {
    if a == "" || b == "" {
      EscapeHead(a, x);
      EscapeHead(b, y);
      CutEqual("\"", x, "\"", y);
    } else {
      Assoc(EscapeChar(a[0]), EscapeAll(a[1..]), "\"", x);
      Assoc(EscapeChar(b[0]), EscapeAll(b[1..]), "\"", y);
      Assoc(EscapeAll(a[1..]), "\"", x, "");
      Assoc(EscapeAll(b[1..]), "\"", y, "");
      EscapeCharUnique(a[0], b[0], EscapeAll(a[1..]) + "\"" + x, EscapeAll(b[1..]) + "\"" + y);
      EscapeAllUnique(a[1..], b[1..], x, y);
      assert a == [a[0]] + a[1..] && b == [b[0]] + b[1..];
    }
  }

  lemma EscapeHead(a: string, x: string)
    ensures (EscapeAll(a) + "\"" + x)[0] == '\"' <==> a == ""
    ensures a == "" ==> EscapeAll(a) + "\"" + x == "\"" + x
  {
    if a != "" {
      assert (EscapeAll(a) + "\"" + x)[0] == EscapeChar(a[0])[0];
    }
  }

  lemma QuoteUnique(a: string, b: string, x: string, y: string)
    requires Quote(a) + x == Quote(b) + y
    ensures a == b && x == y
  {
    Assoc("\"", EscapeAll(a), "\"", x);
    Assoc("\"", EscapeAll(b), "\"", y);
    Assoc(EscapeAll(a), "\"", x, "");
    Assoc(EscapeAll(b), "\"", y, "");
    CutEqual("\"", EscapeAll(a) + "\"" + x, "\"", EscapeAll(b) + "\"" + y);
    EscapeAllUnique(a, b, x, y);
  }

  /** The first character of a value's text says what kind of value it is. */
  lemma FirstChar(v: Json)
    requires Canonicalizable(v)
    ensures |ValueText(v)| > 0
    ensures var c := ValueText(v)[0];
      match v
      case Null => c == 'n'
      case Bool(b) => c == if b then 't' else 'f'
      case Num(_) => c == '-' || IsDigit(c)
      case Str(_) => c == '\"'
      case Arr(_) => c == '['
      case Obj(_) => c == '{'
      case _ => true
  {
  }

  /** A value's text followed by anything a value can be followed by determines both. */
  lemma {:induction false} ValueTextUnique(a: Json, b: Json, x: string, y: string)
    requires Canonicalizable(a) && Canonicalizable(b) && Delimited(x) && Delimited(y)
    requires ValueText(a) + x == ValueText(b) + y
    ensures SameValue(a, b) && x == y
    decreases a, 1
  {
    FirstChar(a);
    FirstChar(b);
    SameHead(ValueText(a), x, ValueText(b), y);
    match a {
      case Null => CutEqual(ValueText(a), x, ValueText(b), y);
      case Bool(p) => CutEqual(ValueText(a), x, ValueText(b), y);
      case Num(m) => IntTextUnique(m, b.n, x, y);
      case Str(p) => QuoteUnique(p, b.s, x, y);
      case Arr(p) => ArrayTextUnique(a, b, x, y);
      case Obj(p) => ObjectTextUnique(a, b, x, y);
    }
  }

  lemma {:induction false} ArrayTextUnique(a: Json, b: Json, x: string, y: string)
    requires a.Arr? && b.Arr?
    requires Canonicalizable(a) && Canonicalizable(b) && Delimited(x) && Delimited(y)
    requires ValueText(a) + x == ValueText(b) + y
    ensures SameValue(a, b) && x == y
    decreases a.items, 1
  {
    var p, q := a.items, b.items;
    ArrayText(p, x);
    ArrayText(q, y);
    CutEqual("[", FirstItemText(p, x), "[", FirstItemText(q, y));
    if p == [] || q == [] {
      FirstItemHead(p, x);
      FirstItemHead(q, y);
      CutEqual("]", x, "]", y);
    } else {
      var s1, t1 := ItemsText(p[1..]) + x, ItemsText(q[1..]) + y;
      ItemsDelimited(p[1..], x);
      ItemsDelimited(q[1..], y);
      ValueTextUnique(p[0], q[0], s1, t1);
      ItemsTextUnique(p[1..], q[1..], x, y);
      SameItems(p, q);
    }
  }

  ghost function FirstItemText(p: seq<Json>, x: string): string
    requires forall i :: 0 <= i < |p| ==> Canonicalizable(p[i])
  {
    if p == [] then "]" + x else ValueText(p[0]) + (ItemsText(p[1..]) + x)
  }

  lemma ArrayText(p: seq<Json>, x: string)
    requires forall i :: 0 <= i < |p| ==> Canonicalizable(p[i])
    ensures ValueText(Arr(p)) + x == "[" + FirstItemText(p, x)
  {
    if p == [] {
      assert "[]" + x == "[" + ("]" + x);
    } else {
      Assoc("[", ValueText(p[0]), ItemsText(p[1..]), x);
    }
  }

  lemma FirstItemHead(p: seq<Json>, x: string)
    requires forall i :: 0 <= i < |p| ==> Canonicalizable(p[i])
    ensures FirstItemText(p, x) != ""
    ensures FirstItemText(p, x)[0] == ']' <==> p == []
  {
    if p != [] { FirstChar(p[0]); }
  }

  lemma ItemsDelimited(p: seq<Json>, x: string)
    requires forall i :: 0 <= i < |p| ==> Canonicalizable(p[i])
    ensures (ItemsText(p) + x)[0] == if p == [] then ']' else ','
    ensures Delimited(ItemsText(p) + x)
  {
  }

  lemma SameItems(p: seq<Json>, q: seq<Json>)
    requires p != [] && q != [] && SameValue(p[0], q[0])
    requires |p[1..]| == |q[1..]| && forall i :: 0 <= i < |p[1..]| ==> SameValue(p[1..][i], q[1..][i])
    ensures |p| == |q| && forall i :: 0 <= i < |p| ==> SameValue(p[i], q[i])
  {
    forall i | 0 <= i < |p| ensures SameValue(p[i], q[i]) {
      if i > 0 { assert p[i] == p[1..][i - 1] && q[i] == q[1..][i - 1]; }
    }
  }

  lemma {:induction false} ItemsTextUnique(p: seq<Json>, q: seq<Json>, x: string, y: string)
    requires forall i :: 0 <= i < |p| ==> Canonicalizable(p[i])
    requires forall i :: 0 <= i < |q| ==> Canonicalizable(q[i])
    requires ItemsText(p) + x == ItemsText(q) + y
    ensures |p| == |q| && (forall i :: 0 <= i < |p| ==> SameValue(p[i], q[i])) && x == y
    decreases p, 0
  {
    ItemsDelimited(p, x);
    ItemsDelimited(q, y);
    assert p == [] <==> q == [];
    if p == [] {
      CutEqual("]", x, "]", y);
    } else {
      var s1, t1 := ItemsText(p[1..]) + x, ItemsText(q[1..]) + y;
      Assoc(",", ValueText(p[0]), ItemsText(p[1..]), x);
      Assoc(",", ValueText(q[0]), ItemsText(q[1..]), y);
      CutEqual(",", ValueText(p[0]) + s1, ",", ValueText(q[0]) + t1);
      ItemsDelimited(p[1..], x);
      ItemsDelimited(q[1..], y);
      ValueTextUnique(p[0], q[0], s1, t1);
      ItemsTextUnique(p[1..], q[1..], x, y);
      SameItems(p, q);
    }
  }

  lemma {:induction false} ObjectTextUnique(a: Json, b: Json, x: string, y: string)
    requires a.Obj? && b.Obj?
    requires Canonicalizable(a) && Canonicalizable(b)
    requires ValueText(a) + x == ValueText(b) + y
    ensures SameValue(a, b) && x == y
    decreases a, 0
  {
    var p, q := a.members, b.members;
    var ks, ls := SortedKeys(KeySet(p)), SortedKeys(KeySet(q));
    BehindBraces(MembersText(p, ks, true), x, MembersText(q, ls, true), y);
    MembersTextUnique(p, ks, q, ls, true, x, y);
    SameSortedKeys(KeySet(p), KeySet(q));
    SameMembers(p, q);
  }

  lemma BehindBraces(s: string, x: string, t: string, y: string)
    requires "{" + s + x == "{" + t + y
    ensures s + x == t + y
  {
    Assoc("{", s, x, "");
    Assoc("{", t, y, "");
    CutEqual("{", s + x, "{", t + y);
  }

  lemma SameSortedKeys(a: set<string>, b: set<string>)
    requires SortedKeys(a) == SortedKeys(b)
    ensures a == b
  {
    forall k ensures k in a <==> k in b { assert k in SortedKeys(a) <==> k in SortedKeys(b); }
  }

  lemma SameMembers(p: seq<Member>, q: seq<Member>)
    requires DistinctKeys(p) && KeySet(p) == KeySet(q)
    requires forall k :: k in KeySet(p) ==> SameValue(p[IndexOf(p, k)].value, q[IndexOf(q, k)].value)
    ensures SameValue(Obj(p), Obj(q))
  {
    forall i | 0 <= i < |p|
      ensures p[i].key in KeySet(q) && SameValue(p[i].value, q[IndexOf(q, p[i].key)].value)
    {
      assert p[i].key in KeySet(p);
      assert IndexOf(p, p[i].key) == i;
    }
  }

  lemma MembersDelimited(p: seq<Member>, ks: seq<string>, first: bool, x: string)
    requires forall i :: 0 <= i < |p| ==> Canonicalizable(p[i].value)
    requires forall k :: k in ks ==> k in KeySet(p)
    ensures (MembersText(p, ks, first) + x)[0] == if ks == [] then '}' else if first then '\"' else ','
    ensures Delimited(MembersText(p, ks, first) + x)
  {
    if ks != [] {
      assert MembersText(p, ks, first)[0] == if first then Quote(ks[0])[0] else ',';
    }
  }

  /** The text of one member, and what follows it. */
  lemma MemberStep(p: seq<Member>, ks: seq<string>, first: bool, x: string)
    requires forall i :: 0 <= i < |p| ==> Canonicalizable(p[i].value)
    requires ks != [] && forall k :: k in ks ==> k in KeySet(p)
    ensures MembersText(p, ks, first) + x ==
      (if first then "" else ",") + (Quote(ks[0]) + (":" + (ValueText(p[IndexOf(p, ks[0])].value)
      + (MembersText(p, ks[1..], false) + x))))
  {
    var c, k, v, r := if first then "" else ",", Quote(ks[0]), ValueText(p[IndexOf(p, ks[0])].value),
      MembersText(p, ks[1..], false);
    assert MembersText(p, ks, first) == c + k + ":" + v + r;
    Assoc(c + k + ":", v, r, x);
    Assoc(c + k, ":", v + (r + x), "");
    Assoc(c, k, ":" + (v + (r + x)), "");
  }

  lemma MemberCut(c: string, k: string, l: string, s: string, t: string)
    requires c + (Quote(k) + (":" + s)) == c + (Quote(l) + (":" + t))
    ensures k == l && s == t
  {
    CutEqual(c, Quote(k) + (":" + s), c, Quote(l) + (":" + t));
    QuoteUnique(k, l, ":" + s, ":" + t);
    CutEqual(":", s, ":", t);
  }

  lemma {:induction false} MembersTextUnique(p: seq<Member>, ks: seq<string>, q: seq<Member>, ls: seq<string>,
                                             first: bool, x: string, y: string)
    requires forall i :: 0 <= i < |p| ==> Canonicalizable(p[i].value)
    requires forall i :: 0 <= i < |q| ==> Canonicalizable(q[i].value)
    requires (forall k :: k in ks ==> k in KeySet(p)) && (forall k :: k in ls ==> k in KeySet(q))
    requires MembersText(p, ks, first) + x == MembersText(q, ls, first) + y
    ensures ks == ls && x == y
    ensures forall k :: k in ks ==> SameValue(p[IndexOf(p, k)].value, q[IndexOf(q, k)].value)
    decreases p, |ks|
  {
    MembersDelimited(p, ks, first, x);
    MembersDelimited(q, ls, first, y);
    if ks == [] || ls == [] {
      CutEqual("}", x, "}", y);
    } else {
      MembersHeadUnique(p, ks, q, ls, first, x, y);
      var k, kr, lr := ks[0], ks[1..], ls[1..];
      assert ks == [k] + kr && ls == [k] + lr;
      MembersDelimited(p, kr, false, x);
      MembersDelimited(q, lr, false, y);
      ValueTextUnique(p[IndexOf(p, k)].value, q[IndexOf(q, k)].value,
                      MembersText(p, kr, false) + x, MembersText(q, lr, false) + y);
      MembersTextUnique(p, kr, q, lr, false, x, y);
    }
  }

  lemma MembersHeadUnique(p: seq<Member>, ks: seq<string>, q: seq<Member>, ls: seq<string>,
                          first: bool, x: string, y: string)
    requires forall i :: 0 <= i < |p| ==> Canonicalizable(p[i].value)
    requires forall i :: 0 <= i < |q| ==> Canonicalizable(q[i].value)
    requires (forall k :: k in ks ==> k in KeySet(p)) && (forall k :: k in ls ==> k in KeySet(q))
    requires ks != [] && ls != []
    requires MembersText(p, ks, first) + x == MembersText(q, ls, first) + y
    ensures ks[0] == ls[0]
    ensures ValueText(p[IndexOf(p, ks[0])].value) + (MembersText(p, ks[1..], false) + x)
         == ValueText(q[IndexOf(q, ks[0])].value) + (MembersText(q, ls[1..], false) + y)
  {
    MemberStep(p, ks, first, x);
    MemberStep(q, ls, first, y);
    MemberCut(if first then "" else ",", ks[0], ls[0],
              ValueText(p[IndexOf(p, ks[0])].value) + (MembersText(p, ks[1..], false) + x),
              ValueText(q[IndexOf(q, ls[0])].value) + (MembersText(q, ls[1..], false) + y));
  }

  // -------------------------------------------- equal values have equal texts

  lemma {:induction false} SameValueSameText(a: Json, b: Json)
    requires Canonicalizable(a) && Canonicalizable(b) && SameValue(a, b)
    ensures ValueText(a) == ValueText(b)
    decreases a, 0
  {
    match a {
      case Arr(p) =>
        var q := b.items;
        if p != [] {
          SameValueSameText(p[0], q[0]);
          assert forall i :: 0 <= i < |p[1..]| ==> p[1..][i] == p[i + 1] && q[1..][i] == q[i + 1];
          SameItemsSameText(p[1..], q[1..]);
        }
      case Obj(p) =>
        var q := b.members;
        forall k | k in KeySet(p) ensures SameValue(p[IndexOf(p, k)].value, q[IndexOf(q, k)].value) {
          var i := IndexOf(p, k);
          assert p[i].key == k;
        }
        SameMembersSameText(p, q, SortedKeys(KeySet(p)), true);
      case _ =>
    }
  }

  lemma {:induction false} SameItemsSameText(p: seq<Json>, q: seq<Json>)
    requires forall i :: 0 <= i < |p| ==> Canonicalizable(p[i])
    requires forall i :: 0 <= i < |q| ==> Canonicalizable(q[i])
    requires |p| == |q| && forall i :: 0 <= i < |p| ==> SameValue(p[i], q[i])
    ensures ItemsText(p) == ItemsText(q)
    decreases p, 0
  {
    if p != [] {
      SameValueSameText(p[0], q[0]);
      assert forall i :: 0 <= i < |p[1..]| ==> p[1..][i] == p[i + 1] && q[1..][i] == q[i + 1];
      SameItemsSameText(p[1..], q[1..]);
    }
  }

  lemma {:induction false} SameMembersSameText(p: seq<Member>, q: seq<Member>, ks: seq<string>, first: bool)
    requires forall i :: 0 <= i < |p| ==> Canonicalizable(p[i].value)
    requires forall i :: 0 <= i < |q| ==> Canonicalizable(q[i].value)
    requires forall k :: k in ks ==> k in KeySet(p) && k in KeySet(q)
    requires forall k :: k in ks ==> SameValue(p[IndexOf(p, k)].value, q[IndexOf(q, k)].value)
    ensures MembersText(p, ks, first) == MembersText(q, ks, first)
    decreases p, |ks|
  {
    if ks != [] {
      SameValueSameText(p[IndexOf(p, ks[0])].value, q[IndexOf(q, ks[0])].value);
      SameMembersSameText(p, q, ks[1..], false);
    }
  }

  /** Two values have the same canonical text exactly when they are equal up to member order. */
  lemma CanonicalJsonInjective(a: Json, b: Json)
    requires Canonicalizable(a) && Canonicalizable(b)
    ensures CanonicalJson(a) == CanonicalJson(b) <==> SameValue(a, b)
  {
    if CanonicalJson(a) == CanonicalJson(b) {
      assert ValueText(a) + "" == ValueText(b) + "";
      ValueTextUnique(a, b, "", "");
    }
    if SameValue(a, b) {
      SameValueSameText(a, b);
    }
  }

  // --------------------------------------------------- objects of one shape

  lemma {:induction false} MemberAt(ms: seq<Member>, i: nat)
    requires DistinctKeys(ms) && i < |ms| && ms[i].key in KeySet(ms)
    ensures IndexOf(ms, ms[i].key) == i
  {
  }

  /** Equal objects with the same keys in the same places agree place by place. */
  lemma PlacesAgree(ms: seq<Member>, ns: seq<Member>, i: nat)
    requires |ms| == |ns| && DistinctKeys(ns) && i < |ms| && ms[i].key == ns[i].key
    requires SameValue(Obj(ms), Obj(ns))
    ensures SameValue(ms[i].value, ns[i].value)
  {
    assert ms[i].key in KeySet(ns);
    MemberAt(ns, i);
  }
}

/** The evaluator on conditions made of the tests it accepts: when the scanner passes over a test, when a test
    looks like a function call, and what every condition evaluates to. */
module MandatoryConditions {
  import opened Text
  import opened MandatoryDependsOn
  import opened MandatoryAtoms

  // ------------------------------------------------------------------ where a literal ends

  /** A quote of the literal's own kind that no backslash precedes. */
  predicate UnescapedAt(q: char, text: string, i: nat) {
    i < |text| && text[i] == q && (i == 0 || text[i - 1] != '\\')
  }

  predicate NoneUnescaped(q: char, text: string) {
    forall i :: 0 <= i < |text| ==> !UnescapedAt(q, text, i)
  }

  predicate EndsInBackslash(text: string) {
    |text| > 0 && text[|text| - 1] == '\\'
  }

  /** The literal's closing quote is the first one that closes it. */
  predicate Closed(q: char, text: string) {
    NoneUnescaped(q, text) && !EndsInBackslash(text)
  }

  /** Level, and without operators outside quotes and brackets. */
  predicate Flat(t: string) {
    Level(t) && Quiet('|', TOP, ' ', t) && Quiet('&', TOP, ' ', t)
  }

  /** The literal is closed where it ends, or what follows its first closing quote is flat on its own. */
  ghost predicate EndsWell(q: char, text: string) {
    Closed(q, text) || exists i :: 0 <= i < |text| && EndsEarly(q, text, i)
  }

  predicate EndsEarly(q: char, text: string, i: nat) {
    UnescapedAt(q, text, i) && Closed(q, text[..i]) && Flat(text[i + 1..] + [q])
  }

  // ------------------------------------------------------------------ scanning a literal

  /** No quote closes the literal `q` while `t` is read after `prev`. */
  predicate Escaped(q: char, prev: char, t: string)
    decreases t
  {
    t == "" || ((t[0] == q ==> prev == '\\') && Escaped(q, t[0], t[1..]))
  }

  lemma {:induction false} NoneUnescapedEscaped(q: char, prev: char, t: string)
    requires t != "" && t[0] == q ==> prev == '\\'
    requires forall i :: 0 < i < |t| && t[i] == q ==> t[i - 1] == '\\'
    ensures Escaped(q, prev, t)
    decreases t
  {
    if t != "" {
      var u := t[1..];
      assert u != "" && u[0] == q ==> t[1] == q;
      forall i | 0 < i < |u| && u[i] == q ensures u[i - 1] == '\\' { assert t[i + 1] == q; }
      NoneUnescapedEscaped(q, t[0], u);
    }
  }

  function InQuote(st: Scan, q: char): Scan {
    st.(quote := Some(q))
  }

  /** Inside a literal nothing counts. */
  lemma {:induction false} InsideLiteral(o: char, st: Scan, q: char, prev: char, t: string)
    requires Escaped(q, prev, t) && st.parens >= 0
    ensures Run(InQuote(st, q), prev, t) == InQuote(st, q)
    ensures Quiet(o, InQuote(st, q), prev, t) && NeverNegative(InQuote(st, q), prev, t)
    decreases t
  {
    if t != "" { InsideLiteral(o, st, q, t[0], t[1..]); }
  }

  /** A literal's opening quote and text, none of whose quotes closes it. */
  lemma OpenedLiteral(o: char, st: Scan, prev: char, q: char, text: string)
    requires IsQuote(q) && (o == '&' || o == '|') && st.quote.None? && st.parens >= 0 && NoneUnescaped(q, text)
    ensures Run(st, prev, [q] + text) == InQuote(st, q)
    ensures Quiet(o, st, prev, [q] + text) && NeverNegative(st, prev, [q] + text)
  {
    assert text != "" ==> !UnescapedAt(q, text, 0);
    forall i | 0 < i < |text| && text[i] == q ensures text[i - 1] == '\\' { assert !UnescapedAt(q, text, i); }
    NoneUnescapedEscaped(q, q, text);
    InsideLiteral(o, st, q, q, text);
    assert ([q] + text)[1..] == text;
  }

  lemma CloseQuote(o: char, st: Scan, prev: char, q: char)
    requires st.quote.None? && st.parens >= 0
    ensures Run(InQuote(st, q), prev, [q]) == if prev == '\\' then InQuote(st, q) else st
    ensures Quiet(o, InQuote(st, q), prev, [q]) && NeverNegative(InQuote(st, q), prev, [q])
  {
    assert [q][1..] == "";
  }

  /** A closed literal leaves the scanner as it was. */
  lemma ClosedLiteral(o: char, st: Scan, prev: char, q: char, text: string)
    requires IsQuote(q) && (o == '&' || o == '|') && st.quote.None? && st.parens >= 0 && Closed(q, text)
    ensures var t := [q] + (text + [q]);
      Run(st, prev, t) == st && Quiet(o, st, prev, t) && NeverNegative(st, prev, t)
  {
    OpenedLiteral(o, st, prev, q, text);
    assert [q] + (text + [q]) == ([q] + text) + [q];
    RunAppend(o, st, prev, [q] + text, [q]);
    CloseQuote(o, st, LastOr(prev, [q] + text), q);
  }

  lemma ClosedFlat(q: char, text: string)
    requires IsQuote(q) && Closed(q, text)
    ensures Flat([q] + (text + [q]))
  {
    ClosedLiteral('|', TOP, ' ', q, text);
    ClosedLiteral('&', TOP, ' ', q, text);
  }

  /** Whose closing quote is escaped is never closed. */
  lemma UnclosedNotLevel(q: char, text: string)
    requires IsQuote(q) && NoneUnescaped(q, text) && EndsInBackslash(text)
    ensures !Level([q] + (text + [q]))
  {
    OpenedLiteral('|', TOP, ' ', q, text);
    assert [q] + (text + [q]) == ([q] + text) + [q];
    RunAppend('|', TOP, ' ', [q] + text, [q]);
    assert LastOr(' ', [q] + text) == '\\';
    CloseQuote('|', TOP, '\\', q);
  }

  lemma FlatAppend(a: string, b: string)
    requires Flat(a)
    ensures Flat(a + b) <==> Flat(b)
  {
    RunAppend('|', TOP, ' ', a, b);
    RunAppend('&', TOP, ' ', a, b);
    PrevIrrelevant('|', LastOr(' ', a), ' ', b);
    PrevIrrelevant('&', LastOr(' ', a), ' ', b);
  }

  lemma FirstUnescaped(q: char, text: string) returns (i: nat)
    requires !NoneUnescaped(q, text)
    ensures UnescapedAt(q, text, i) && Closed(q, text[..i])
  {
    i := 0;
    while !UnescapedAt(q, text, i)
      invariant i <= |text| && forall j :: 0 <= j < i ==> !UnescapedAt(q, text, j)
      invariant exists k :: i <= k < |text| && UnescapedAt(q, text, k)
      decreases |text| - i
    {
      i := i + 1;
    }
    forall j | 0 <= j < i ensures !UnescapedAt(q, text[..i], j) { assert !UnescapedAt(q, text, j); }
  }

  /** A literal that is closed early splits there. */
  lemma EarlySplit(q: char, text: string, i: nat)
    requires IsQuote(q) && UnescapedAt(q, text, i) && Closed(q, text[..i])
    ensures Flat([q] + (text + [q])) <==> Flat(text[i + 1..] + [q])
  {
    var first := [q] + (text[..i] + [q]);
    ClosedFlat(q, text[..i]);
    assert text == text[..i] + [q] + text[i + 1..];
    assert [q] + (text + [q]) == first + (text[i + 1..] + [q]);
    FlatAppend(first, text[i + 1..] + [q]);
  }

  /** Which string literals the scanner passes over unharmed. */
  lemma LiteralFlatIff(q: char, text: string)
    requires IsQuote(q)
    ensures Flat([q] + (text + [q])) <==> EndsWell(q, text)
  {
    if Closed(q, text) {
      ClosedFlat(q, text);
    } else if NoneUnescaped(q, text) {
      UnclosedNotLevel(q, text);
      assert forall i :: 0 <= i < |text| ==> !UnescapedAt(q, text, i);
    } else {
      var i := FirstUnescaped(q, text);
      EarlySplit(q, text, i);
      if EndsWell(q, text) {
        var j :| 0 <= j < |text| && EndsEarly(q, text, j);
        EarlySplit(q, text, j);
      }
      if Flat(text[i + 1..] + [q]) { assert EndsEarly(q, text, i); }
    }
  }

  // ------------------------------------------------------------------ scanning a test

  /** Neither quote, bracket nor operator. */
  predicate Plain(t: string) {
    forall i :: 0 <= i < |t| ==> PlainChar(t[i])
  }

  predicate PlainChar(c: char) {
    !IsQuote(c) && c != '(' && c != ')' && c != '[' && c != ']' && c != '&' && c != '|'
  }

  lemma {:induction false} PlainPasses(o: char, st: Scan, prev: char, t: string)
    requires Plain(t) && st.quote.None? && st.parens >= 0 && (o == '&' || o == '|')
    ensures Run(st, prev, t) == st && Quiet(o, st, prev, t) && NeverNegative(st, prev, t)
    decreases t
  {
    if t != "" {
      assert PlainChar(t[0]);
      assert forall i :: 0 <= i < |t[1..]| ==> t[1..][i] == t[i + 1];
      PlainPasses(o, st, t[0], t[1..]);
    }
  }

  lemma PlainFlat(t: string)
    requires Plain(t)
    ensures Flat(t)
  {
    PlainPasses('|', TOP, ' ', t);
    PlainPasses('&', TOP, ' ', t);
  }

  lemma NamePlain(s: string)
    requires IsName(s) || Blank(s)
    ensures Plain(s)
  {
    forall i | 0 <= i < |s| ensures PlainChar(s[i]) { assert IsWord(s[i]) || IsSpace(s[i]); }
  }

  lemma PlainAppend(a: string, b: string)
    requires Plain(a) && Plain(b)
    ensures Plain(a + b)
  {
  }

  lemma NumberPlain(s: string)
    requires IsNumber(s)
    ensures Plain(s) && |s| > 0 && !IsSpace(s[|s| - 1])
  {
    var m := if s != "" && s[0] == '-' then s[1..] else s;
    assert Plain(m) && !IsSpace(m[|m| - 1]) && |m| > 0 by {
      if IsDigits(m) {
        DigitsPlain(m);
      } else {
        var k :| 0 <= k < |m| && PointAt(m, k);
        PointPlain(m, k);
      }
    }
    assert s == (if s != "" && s[0] == '-' then "-" else "") + m;
  }

  lemma PointPlain(m: string, k: nat)
    requires PointAt(m, k)
    ensures Plain(m) && !IsSpace(m[|m| - 1])
  {
    DigitsPlain(m[..k]);
    DigitsPlain(m[k + 1..]);
    assert m == m[..k] + (['.'] + m[k + 1..]);
    PlainAppend(['.'], m[k + 1..]);
    PlainAppend(m[..k], ['.'] + m[k + 1..]);
  }

  lemma DigitsPlain(s: string)
    requires IsDigits(s)
    ensures Plain(s) && !IsSpace(s[|s| - 1])
  {
  }

  /** What precedes the literal of a comparison. */
  function Before(a: Test): string
    requires a.Compare?
  {
    DOC + (a.field + (a.l + (OpText(a.op) + a.r)))
  }

  lemma CompareText(a: Test)
    requires FineTest(a) && a.Compare?
    ensures TestText(a) == Before(a) + LiteralText(a.literal) && Plain(Before(a))
  {
    NamePlain(a.field);
    NamePlain(a.l);
    NamePlain(a.r);
    PlainAppend(OpText(a.op), a.r);
    PlainAppend(a.l, OpText(a.op) + a.r);
    PlainAppend(a.field, a.l + (OpText(a.op) + a.r));
    PlainAppend(DOC, a.field + (a.l + (OpText(a.op) + a.r)));
    FiveParts(DOC, a.field, a.l, OpText(a.op), a.r, LiteralText(a.literal));
  }

  lemma FiveParts(a: string, b: string, c: string, d: string, e: string, x: string)
    ensures a + (b + (c + (d + (e + x)))) == (a + (b + (c + (d + e)))) + x
  {
    assert d + (e + x) == (d + e) + x;
    assert c + ((d + e) + x) == (c + (d + e)) + x;
    assert b + ((c + (d + e)) + x) == (b + (c + (d + e))) + x;
  }

  /** The literal of a comparison, and every literal of a list, ends where it is meant to. */
  ghost predicate LiteralsEnd(a: Test) {
    match a
    case Compare(_, _, _, _, literal) => literal.Quoted? ==> EndsWell(literal.quote, literal.text)
    case Membership(_, _, items, _, _, _, _) => forall i :: 0 <= i < |items| ==> ItemCloses(items[i])
    case _ => true
  }

  predicate ItemCloses(i: Item) {
    i.literal.Quoted? ==> Closed(i.literal.quote, i.literal.text)
  }

  lemma LiteralPlain(x: Literal)
    requires FineLiteral(x) && !x.Quoted?
    ensures var t := LiteralText(x); |t| > 0 && Plain(t) && !IsSpace(t[|t| - 1])
  {
    if x.Number? { NumberPlain(x.text); }
  }

  lemma CompareFlatIff(a: Test)
    requires FineTest(a) && a.Compare?
    ensures Flat(TestText(a)) <==> LiteralsEnd(a)
  {
    CompareText(a);
    PlainFlat(Before(a));
    FlatAppend(Before(a), LiteralText(a.literal));
    if a.literal.Quoted? {
      LiteralFlatIff(a.literal.quote, a.literal.text);
    } else {
      LiteralPlain(a.literal);
      PlainFlat(LiteralText(a.literal));
    }
  }

  /** Comparisons are atoms of a condition exactly when their literal ends where it is meant to. */
  lemma CompareAtomIff(a: Test)
    requires FineTest(a) && a.Compare?
    ensures AtomText(TestText(a)) <==> LiteralsEnd(a)
  {
    CompareFlatIff(a);
    CompareText(a);
    var t := TestText(a);
    var x := LiteralText(a.literal);
    assert t[0] == 'd' && t[|t| - 1] == x[|x| - 1] && !IsSpace(x[|x| - 1]) by {
      if !a.literal.Quoted? { LiteralPlain(a.literal); }
    }
    Differs(t, EVAL, 0);
  }

  lemma TruthAtom(a: Test)
    requires FineTest(a) && (a.Truth? || a.Bare?)
    ensures AtomText(TestText(a))
  {
    var t := TestText(a);
    NamePlain(a.field);
    PlainAppend(DOC, a.field);
    PlainAppend(if a.Truth? && a.negated then "!" else "", DOC + a.field);
    PlainFlat(t);
    assert t[|t| - 1] == a.field[|a.field| - 1] && IsWord(t[|t| - 1]);
    NotEval(t);
  }

  /** A text with a word or a mark of negation in place of the colon. */
  lemma NotEval(t: string)
    requires |t| > 4 ==> t[4] != ':'
    ensures !StartsEval(t)
  {
    Differs(t, EVAL, 4);
  }

  // ------------------------------------------------------------------ scanning a list

  /** Read at `st`, the text changes nothing and shows no operator. */
  predicate Passes(o: char, st: Scan, prev: char, t: string) {
    Run(st, prev, t) == st && Quiet(o, st, prev, t) && NeverNegative(st, prev, t)
  }

  lemma PassAppend(o: char, st: Scan, prev: char, a: string, b: string)
    requires Passes(o, st, prev, a) && Passes(o, st, LastOr(prev, a), b)
    ensures Passes(o, st, prev, a + b)
  {
    RunAppend(o, st, prev, a, b);
  }

  lemma ItemPasses(o: char, st: Scan, prev: char, i: Item)
    requires (o == '&' || o == '|') && st.quote.None? && st.parens >= 0
    requires Blank(i.before) && Blank(i.after) && FineLiteral(i.literal) && ItemCloses(i)
    ensures Passes(o, st, prev, ItemText(i))
  {
    var x := LiteralText(i.literal);
    NamePlain(i.before);
    NamePlain(i.after);
    PlainPasses(o, st, prev, i.before);
    var p := LastOr(prev, i.before);
    if i.literal.Quoted? {
      ClosedLiteral(o, st, p, i.literal.quote, i.literal.text);
    } else {
      LiteralPlain(i.literal);
      PlainPasses(o, st, p, x);
    }
    PlainPasses(o, st, LastOr(p, x), i.after);
    PassAppend(o, st, p, x, i.after);
    PassAppend(o, st, prev, i.before, x + i.after);
  }

  ghost predicate FineItems(items: seq<Item>) {
    forall i :: 0 <= i < |items| ==>
      Blank(items[i].before) && Blank(items[i].after) && FineLiteral(items[i].literal) && ItemCloses(items[i])
  }

  lemma {:induction false} ItemsPass(o: char, st: Scan, prev: char, items: seq<Item>)
    requires (o == '&' || o == '|') && st.quote.None? && st.parens >= 0 && FineItems(items)
    ensures Passes(o, st, prev, ItemsText(items))
    decreases |items|
  {
    if items != [] {
      var first := ItemText(items[0]);
      ItemPasses(o, st, prev, items[0]);
      if |items| > 1 {
        PlainPasses(o, st, LastOr(prev, first), [',']);
        ItemsPass(o, st, ',', items[1..]);
        PassAppend(o, st, LastOr(prev, first), [','], ItemsText(items[1..]));
        PassAppend(o, st, prev, first, [','] + ItemsText(items[1..]));
      }
    }
  }

  lemma ListLevel(items: seq<Item>)
    requires FineItems(items)
    ensures Level(ListText(items))
  {
    var st := Scan(0, 1, None);
    var inner := ItemsText(items);
    var s := inner + [']'];
    ItemsPass('|', st, '[', items);
    RunAppend('|', st, '[', inner, [']']);
    assert [']'][1..] == "" && Next(st, LastOr('[', inner), ']') == TOP;
    assert (['['] + s)[1..] == s && Next(TOP, ' ', '[') == st;
  }

  /** The arguments of a membership test, without the parentheses. */
  function Arguments(a: Test): string
    requires a.Membership?
  {
    a.p + (ListText(a.items) + (a.q + ([','] + (a.r + (DOC + (a.field + a.t))))))
  }

  lemma ArgumentsText(a: Test)
    requires a.Membership?
    ensures TestText(a) == (if a.negated then "!in_list" else "in_list") + ("(" + (Arguments(a) + ")"))
  {
    var end := a.t + [')'];
    assert TailText(a.q, a.r, a.field, a.t) == (a.q + ([','] + (a.r + (DOC + (a.field + a.t))))) + [')'];
    assert TestText(a) == (if a.negated then "!" else "") + (IN_LIST + (Arguments(a) + [')']));
    assert IN_LIST == "in_list" + "(";
  }

  lemma ArgumentsLevel(a: Test)
    requires FineTest(a) && a.Membership? && LiteralsEnd(a)
    ensures Level(Arguments(a))
  {
    NamePlain(a.p);
    NamePlain(a.q);
    NamePlain(a.r);
    NamePlain(a.field);
    NamePlain(a.t);
    PlainAppend(a.field, a.t);
    PlainAppend(DOC, a.field + a.t);
    PlainAppend(a.r, DOC + (a.field + a.t));
    PlainAppend([','], a.r + (DOC + (a.field + a.t)));
    PlainAppend(a.q, [','] + (a.r + (DOC + (a.field + a.t))));
    PlainFlat(a.p);
    PlainFlat(a.q + ([','] + (a.r + (DOC + (a.field + a.t)))));
    ListLevel(a.items);
    LevelAppend('|', ListText(a.items), a.q + ([','] + (a.r + (DOC + (a.field + a.t)))));
    LevelAppend('|', a.p, ListText(a.items) + (a.q + ([','] + (a.r + (DOC + (a.field + a.t))))));
  }

  lemma ListHead(negated: bool)
    ensures var head := if negated then "!in_list" else "in_list";
      Plain(head) && |head| > 4 && !IsSpace(head[0]) && head[4] != ':'
  {
  }

  lemma MembershipAtom(a: Test)
    requires FineTest(a) && a.Membership? && LiteralsEnd(a)
    ensures AtomText(TestText(a))
  {
    var head := if a.negated then "!in_list" else "in_list";
    ListHead(a.negated);
    ArgumentsText(a);
    ArgumentsLevel(a);
    GroupFlat(Arguments(a));
    HeadedAtom(head, "(" + (Arguments(a) + ")"));
  }

  lemma HeadedAtom(head: string, b: string)
    requires Plain(head) && |head| > 4 && !IsSpace(head[0]) && head[4] != ':' && Flat(b) && |b| > 0 && b[|b| - 1] == ')'
    ensures AtomText(head + b)
  {
    PlainFlat(head);
    FlatAppend(head, b);
    assert PlainChar(head[0]);
    FlatAtom(head + b);
  }

  lemma FlatAtom(t: string)
    requires |t| > 4 && Flat(t) && Trimmed(t) && t[0] != '(' && t[4] != ':'
    ensures AtomText(t)
  {
    NotEval(t);
  }

  lemma GroupFlat(m: string)
    requires Level(m)
    ensures Flat("(" + (m + ")"))
  {
    GroupLevel('|', m);
    GroupLevel('&', m);
  }

  /** Tests whose literals end where they are meant to are atoms of conditions. */
  lemma TestAtom(a: Test)
    requires FineTest(a) && LiteralsEnd(a)
    ensures AtomText(TestText(a))
  {
    match a {
      case Membership(_, _, _, _, _, _, _) => MembershipAtom(a);
      case Compare(_, _, _, _, _) => CompareAtomIff(a);
      case _ => TruthAtom(a);
    }
  }

  // ------------------------------------------------------------------ what looks like a call

  /** A character that ends every name and separates it from a parenthesis. */
  predicate Separates(c: char) {
    !IsWord(c) && c != '.' && !IsSpace(c) && c != '('
  }

  /** A call lies on one side of a separator. */
  lemma SepForeign(a: string, c: char, b: string)
    requires Separates(c)
    ensures ForeignCall(a + ([c] + b)) <==> ForeignCall(a) || ForeignCall(b)
  {
    var src := a + ([c] + b);
    assert forall k :: 0 <= k < |a| ==> a[k] == src[0 + k];
    assert src[|a|] == c && forall k :: 0 <= k < |b| ==> b[k] == src[|a| + 1 + k];
    if ForeignCall(a) {
      CallOutside(src, 0, a);
    } else if ForeignCall(b) {
      CallOutside(src, |a| + 1, b);
    } else {
      SepNothingElse(a, c, b);
    }
  }

  lemma SepNothingElse(a: string, c: char, b: string)
    requires Separates(c) && !ForeignCall(a) && !ForeignCall(b)
    ensures !ForeignCall(a + ([c] + b))
  {
    var src := a + ([c] + b);
    var n := |a|;
    assert forall k :: 0 <= k < |a| ==> a[k] == src[0 + k];
    assert src[n] == c && forall k :: 0 <= k < |b| ==> b[k] == src[n + 1 + k];
    forall s, e, p | CallAt(src, s, e, p) ensures src[s..e] == "in_list" {
      assert !(s <= n <= p);
      if p < n {
        CallInside(src, 0, a, s, e, p);
      } else {
        CallInside(src, n + 1, b, s, e, p);
      }
    }
  }

  lemma NoParenNoCall(t: string)
    requires '(' !in t
    ensures !ForeignCall(t)
  {
  }

  lemma PlainNoCall(t: string)
    requires Plain(t)
    ensures !ForeignCall(t)
  {
    forall i | 0 <= i < |t| ensures t[i] != '(' { assert PlainChar(t[i]); }
  }

  lemma QuotedForeign(q: char, text: string, after: string)
    requires IsQuote(q) && Plain(after)
    ensures ForeignCall([q] + (text + ([q] + after))) <==> ForeignCall(text)
  {
    assert [q] + (text + ([q] + after)) == "" + ([q] + (text + ([q] + after)));
    SepForeign("", q, text + ([q] + after));
    SepForeign(text, q, after);
    PlainNoCall("");
    PlainNoCall(after);
  }

  /** The literal's text contains what looks like a call. */
  ghost predicate LiteralCalls(x: Literal) {
    x.Quoted? && ForeignCall(x.text)
  }

  lemma LiteralForeign(before: string, x: Literal, after: string)
    requires Plain(before) && Plain(after) && FineLiteral(x)
    ensures ForeignCall(before + (LiteralText(x) + after)) <==> LiteralCalls(x)
  {
    if x.Quoted? {
      var rest := x.text + ([x.quote] + after);
      assert LiteralText(x) + after == [x.quote] + rest;
      SepForeign(before, x.quote, rest);
      PlainNoCall(before);
      SepForeign(x.text, x.quote, after);
      PlainNoCall(after);
    } else {
      LiteralPlain(x);
      PlainAppend(LiteralText(x), after);
      PlainAppend(before, LiteralText(x) + after);
      PlainNoCall(before + (LiteralText(x) + after));
    }
  }

  ghost predicate ItemsCall(items: seq<Item>) {
    exists i :: 0 <= i < |items| && LiteralCalls(items[i].literal)
  }

  lemma {:induction false} ItemsForeign(items: seq<Item>)
    requires forall i :: 0 <= i < |items| ==>
      Blank(items[i].before) && Blank(items[i].after) && FineLiteral(items[i].literal)
    ensures ForeignCall(ItemsText(items)) <==> ItemsCall(items)
    decreases |items|
  {
    if items == [] {
      PlainNoCall("");
    } else {
      NamePlain(items[0].before);
      NamePlain(items[0].after);
      LiteralForeign(items[0].before, items[0].literal, items[0].after);
      if |items| > 1 {
        ItemsForeign(items[1..]);
        SepForeign(ItemText(items[0]), ',', ItemsText(items[1..]));
        ItemsCallSplit(items);
      }
    }
  }

  lemma ItemsCallSplit(items: seq<Item>)
    requires |items| > 1
    ensures ItemsCall(items) <==> LiteralCalls(items[0].literal) || ItemsCall(items[1..])
  {
    if ItemsCall(items[1..]) {
      var i :| 0 <= i < |items[1..]| && LiteralCalls(items[1..][i].literal);
      assert LiteralCalls(items[i + 1].literal);
    }
    if ItemsCall(items) {
      var i :| 0 <= i < |items| && LiteralCalls(items[i].literal);
      if i > 0 { assert LiteralCalls(items[1..][i - 1].literal); }
    }
  }

  lemma InListNoCall(p: string)
    requires Blank(p)
    ensures !ForeignCall(IN_LIST + p)
  {
    var src := IN_LIST + p;
    assert forall k :: 8 <= k < |src| ==> src[k] == p[k - 8] && IsSpace(src[k]);
    forall s, e, at | CallAt(src, s, e, at) ensures src[s..e] == "in_list" {
      assert !(at >= 8) && IsWord(src[0]) && IsWord(src[1]) && IsWord(src[2]) && IsWord(src[3]);
      assert IsWord(src[4]) && IsWord(src[5]) && IsWord(src[6]) && src[7] == '(';
      assert at == 7 && !(e < 7) && !(s > 0);
      assert src[0..7] == "in_list";
    }
  }

  /** A test looks like a function call exactly when the text of one of its string literals does. */
  ghost predicate TestCalls(a: Test) {
    match a
    case Compare(_, _, _, _, literal) => LiteralCalls(literal)
    case Membership(_, _, items, _, _, _, _) => ItemsCall(items)
    case _ => false
  }

  lemma TestForeign(a: Test)
    requires FineTest(a)
    ensures ForeignCall(TestText(a)) <==> TestCalls(a)
  {
    match a {
      case Compare(_, _, _, _, literal) =>
        CompareText(a);
        LiteralForeign(Before(a), literal, "");
        assert LiteralText(literal) + "" == LiteralText(literal);
      case Membership(_, _, _, _, _, _, _) => MembershipForeign(a);
      case Truth(negated, field) =>
        NamePlain(field);
        PlainAppend(DOC, field);
        PlainAppend(if negated then "!" else "", DOC + field);
        PlainNoCall(TestText(a));
      case Bare(field) =>
        NamePlain(field);
        PlainNoCall(field);
    }
  }

  lemma MembershipForeign(a: Test)
    requires FineTest(a) && a.Membership?
    ensures ForeignCall(TestText(a)) <==> ItemsCall(a.items)
  {
    var tail := TailText(a.q, a.r, a.field, a.t);
    var inner := ItemsText(a.items) + ([']'] + tail);
    var body := (IN_LIST + a.p) + (['['] + inner);
    assert IN_LIST + (a.p + (ListText(a.items) + tail)) == body;
    if a.negated {
      assert TestText(a) == "" + (['!'] + body);
      SepForeign("", '!', body);
      PlainNoCall("");
    } else {
      assert TestText(a) == body;
    }
    SepForeign(IN_LIST + a.p, '[', inner);
    InListNoCall(a.p);
    SepForeign(ItemsText(a.items), ']', tail);
    forall k | 0 <= k < |tail| ensures tail[k] != '(' { TailPlain(a.q, a.r, a.field, a.t, k); }
    NoParenNoCall(tail);
    ItemsForeign(a.items);
  }

  // ------------------------------------------------------------------ conditions

  /** A condition; the strings are the blanks around operators and inside parentheses. */
  datatype Condition =
    | One(test: Test)
    | Paren(before: string, inner: Condition, after: string)
    | Both(left: Condition, l: string, r: string, right: Condition)
    | Either(left: Condition, l: string, r: string, right: Condition)

  function Rendered(t: Condition): Expr {
    match t
    case One(test) => Atom(TestText(test))
    case Paren(before, inner, after) => Group(before, Rendered(inner), after)
    case Both(a, l, r, b) => And(Rendered(a), l, r, Rendered(b))
    case Either(a, l, r, b) => Or(Rendered(a), l, r, Rendered(b))
  }

  function ConditionMeaning(d: Document, t: Condition): bool {
    match t
    case One(test) => TestMeaning(d, test)
    case Paren(_, inner, _) => ConditionMeaning(d, inner)
    case Both(a, _, _, b) => ConditionMeaning(d, a) && ConditionMeaning(d, b)
    case Either(a, _, _, b) => ConditionMeaning(d, a) || ConditionMeaning(d, b)
  }

  /** Accepted tests, blanks where blanks may be, and no disjunction directly under a conjunction. */
  predicate FineCondition(t: Condition) {
    match t
    case One(test) => FineTest(test)
    case Paren(before, inner, after) => Blank(before) && Blank(after) && FineCondition(inner)
    case Both(a, l, r, b) => Blank(l) && Blank(r) && FineCondition(a) && FineCondition(b) && !a.Either? && !b.Either?
    case Either(a, l, r, b) => Blank(l) && Blank(r) && FineCondition(a) && FineCondition(b)
  }

  /** Every string literal ends where it is meant to. */
  ghost predicate ConditionEnds(t: Condition) {
    match t
    case One(test) => LiteralsEnd(test)
    case Paren(_, inner, _) => ConditionEnds(inner)
    case Both(a, _, _, b) => ConditionEnds(a) && ConditionEnds(b)
    case Either(a, _, _, b) => ConditionEnds(a) && ConditionEnds(b)
  }

  /** The same, except that in the last test, if it is in no parentheses, a backslash may precede the closing quote. */
  ghost predicate EndsButLast(t: Condition) {
    match t
    case One(test) => LiteralsEnd(test) || Unclosed(test)
    case Paren(_, _, _) => ConditionEnds(t)
    case Both(a, _, _, b) => ConditionEnds(a) && EndsButLast(b)
    case Either(a, _, _, b) => ConditionEnds(a) && EndsButLast(b)
  }

  lemma {:induction false} EndsEverywhere(t: Condition)
    requires ConditionEnds(t)
    ensures EndsButLast(t)
  {
    if t.Both? || t.Either? { EndsEverywhere(t.right); }
  }

  /** Some string literal contains what looks like a call. */
  ghost predicate ConditionCalls(t: Condition) {
    match t
    case One(test) => TestCalls(test)
    case Paren(_, inner, _) => ConditionCalls(inner)
    case Both(a, _, _, b) => ConditionCalls(a) || ConditionCalls(b)
    case Either(a, _, _, b) => ConditionCalls(a) || ConditionCalls(b)
  }

  function DecideFor(d: Document): string -> bool {
    (src: string) => Decide(d, src)
  }

  /** `evaluateMandatoryDependency` for a document. */
  ghost function EvaluateCondition(d: Document, expression: string): bool {
    Evaluate(DecideFor(d), expression)
  }

  lemma {:induction false} RenderedFine(d: Document, t: Condition)
    requires FineCondition(t) && ConditionEnds(t)
    ensures WellFormed(Rendered(t)) && Meaning(DecideFor(d), Rendered(t)) == ConditionMeaning(d, t)
    ensures Calls(Rendered(t)) == ConditionCalls(t)
  {
    match t {
      case One(test) =>
        TestAtom(test);
        TestReadsBack(d, test);
        TestForeign(test);
      case Paren(_, inner, _) => RenderedFine(d, inner);
      case Both(a, _, _, b) =>
        RenderedFine(d, a);
        RenderedFine(d, b);
      case Either(a, _, _, b) =>
        RenderedFine(d, a);
        RenderedFine(d, b);
    }
  }

  /** What is written of a test that may only stand last. */
  lemma LastTest(d: Document, a: Test)
    requires FineTest(a) && (LiteralsEnd(a) || Unclosed(a))
    ensures EndText(TestText(a)) && Decide(d, TestText(a)) == TestMeaning(d, a)
    ensures ForeignCall(TestText(a)) <==> TestCalls(a)
  {
    if LiteralsEnd(a) { TestAtom(a); } else { UnclosedEnd(a); }
    TestReadsBack(d, a);
    TestForeign(a);
  }

  lemma {:induction false} RenderedReadable(d: Document, t: Condition)
    requires FineCondition(t) && EndsButLast(t)
    ensures Readable(Rendered(t)) && Meaning(DecideFor(d), Rendered(t)) == ConditionMeaning(d, t)
    ensures Calls(Rendered(t)) == ConditionCalls(t)
  {
    match t {
      case One(test) => LastTest(d, test);
      case Paren(_, _, _) => RenderedFine(d, t);
      case Both(a, _, _, b) =>
        RenderedFine(d, a);
        RenderedReadable(d, b);
      case Either(a, _, _, b) =>
        RenderedFine(d, a);
        RenderedReadable(d, b);
    }
  }

  /** Evaluating any text of a condition whose string literals end where they are meant to, the last test's
      possibly excepted, gives true exactly when its meaning is true and no string literal contains what
      looks like a call. */
  lemma ConditionExactly(d: Document, t: Condition, before: string, eval: bool, pad: string, after: string)
    requires FineCondition(t) && EndsButLast(t) && Blank(before) && Blank(pad) && Blank(after)
    ensures EvaluateCondition(d, Given(before, eval, pad, Write(Rendered(t)), after))
      <==> ConditionMeaning(d, t) && !ConditionCalls(t)
  {
    RenderedReadable(d, t);
    EvaluateExactly(DecideFor(d), Rendered(t), before, eval, pad, after);
  }

  /** The same of the text as it is written. */
  lemma WrittenExactly(d: Document, t: Condition)
    requires FineCondition(t) && EndsButLast(t)
    ensures EvaluateCondition(d, Write(Rendered(t))) <==> ConditionMeaning(d, t) && !ConditionCalls(t)
  {
    ConditionExactly(d, t, "", false, "", "");
    GivenPlain(Write(Rendered(t)));
  }

  /** A string literal that contains what looks like a call makes its condition false: `doc.x == "f(y)"`. */
  lemma CallMissed(d: Document)
    requires d.equals("x", Quoted('\"', "f(y)"))
    ensures var t := One(Compare("x", " ", Loose, " ", Quoted('\"', "f(y)")));
      && FineCondition(t) && ConditionEnds(t) && ConditionMeaning(d, t)
      && !EvaluateCondition(d, Write(Rendered(t)))
  {
    var t := One(Compare("x", " ", Loose, " ", Quoted('\"', "f(y)")));
    assert Closed('\"', "f(y)");
    assert CallAt("f(y)", 0, 1, 1) && "f(y)"[0..1] == "f";
    EndsEverywhere(t);
    WrittenExactly(d, t);
  }

  // ------------------------------------------------------------------ literals that end in a backslash

  /** A comparison with a literal whose closing quote a backslash precedes. */
  predicate Unclosed(a: Test) {
    && FineTest(a) && a.Compare? && a.literal.Quoted?
    && NoneUnescaped(a.literal.quote, a.literal.text) && EndsInBackslash(a.literal.text)
  }

  /** Whatever follows the unclosed literal is read as part of it. */
  lemma SwallowsRest(o: char, st: Scan, prev: char, q: char, text: string, rest: string)
    requires (o == '&' || o == '|') && IsQuote(q) && st.quote.None? && st.parens >= 0 && q !in rest
    requires NoneUnescaped(q, text) && EndsInBackslash(text)
    ensures var t := ([q] + text) + ([q] + rest); Quiet(o, st, prev, t) && Run(st, prev, t) == InQuote(st, q)
  {
    var head, tail := [q] + text, [q] + rest;
    OpenedLiteral(o, st, prev, q, text);
    assert LastOr(prev, head) == '\\';
    NoneUnescapedEscaped(q, '\\', tail);
    InsideLiteral(o, st, q, '\\', tail);
    RunAppend(o, st, prev, head, tail);
  }

  lemma SwallowsQuiet(o: char, st: Scan, prev: char, a: Test, rest: string)
    requires (o == '&' || o == '|') && Unclosed(a) && st.quote.None? && st.parens >= 0 && a.literal.quote !in rest
    ensures Quiet(o, st, prev, TestText(a) + rest)
    ensures Run(st, prev, TestText(a) + rest) == InQuote(st, a.literal.quote)
  {
    var t := ([a.literal.quote] + a.literal.text) + ([a.literal.quote] + rest);
    CompareText(a);
    assert LiteralText(a.literal) + rest == t;
    assert TestText(a) + rest == Before(a) + t;
    PlainPasses(o, st, prev, Before(a));
    SwallowsRest(o, st, LastOr(prev, Before(a)), a.literal.quote, a.literal.text, rest);
    RunAppend(o, st, prev, Before(a), t);
  }

  lemma UnclosedEnd(a: Test)
    requires Unclosed(a)
    ensures EndText(TestText(a))
  {
    var t := TestText(a);
    assert t + "" == t;
    SwallowsQuiet('|', TOP, ' ', a, "");
    SwallowsQuiet('&', TOP, ' ', a, "");
    CompareText(a);
    assert t[0] == 'd' && t[|t| - 1] == a.literal.quote;
    Differs(t, EVAL, 0);
  }

  /** Alone, such a test is evaluated to its meaning. */
  lemma UnclosedAlone(d: Document, a: Test)
    requires Unclosed(a)
    ensures EvaluateCondition(d, TestText(a)) <==> TestMeaning(d, a) && !TestCalls(a)
  {
    WrittenExactly(d, One(a));
  }

  /** A trimmed text in no parentheses is looked at as it is. */
  lemma PlainSource(src: string)
    requires src != "" && Trimmed(src) && src[0] != 'e' && !Wrapped(src)
    ensures Source(src) == src
  {
    TrimIdempotent(src);
    Differs(src, EVAL, 0);
  }

  /** Where the scanner finds no operator, the text as a whole decides. */
  lemma QuietDecides(leaf: string -> bool, src: string)
    requires Source(src) == src && Quiet('|', TOP, ' ', src) && Quiet('&', TOP, ' ', src)
    ensures Evaluate(leaf, src) <==> !ForeignCall(src) && leaf(src)
  {
    QuietToTheEnd('|', TOP, ' ', "", src);
    QuietToTheEnd('&', TOP, ' ', "", src);
  }

  lemma OpenLiteralUnread(q: char, z: string)
    requires IsQuote(q) && |z| > 0 && z[0] == q && z[|z| - 1] != q
    ensures ReadLiteral(z).None?
  {
    if IsNumber(z) { NumberHead(z); }
  }

  lemma QuotedNoName(src: string, k: nat)
    requires 4 <= k < |src| && IsQuote(src[k])
    ensures !IsName(src[4..]) && !IsName(src)
  {
    assert src[4..][k - 4] == src[k];
  }

  lemma NothingRead(d: Document, src: string)
    requires src != "" && src[0] != 'i' && src[0] != '!' && ReadComparison(src).None?
    requires !IsName(src) && (|src| >= 4 ==> !IsName(src[4..]))
    ensures !Decide(d, src)
  {
    Differs(src, IN_LIST, 0);
    Differs(src, "!doc.", 0);
  }

  lemma SwallowedOperand(a: Test, rest: string)
    requires Unclosed(a) && rest != "" && a.literal.quote !in rest
    ensures ReadComparison(TestText(a) + rest).None?
  {
    var x := LiteralText(a.literal);
    var z := x + rest;
    assert z[|z| - 1] == rest[|rest| - 1] && z[0] == a.literal.quote;
    OpenLiteralUnread(a.literal.quote, z);
    OperandRead(a.field, a.l, a.op, a.r, z);
    Regroup(a.r, x, rest);
    Regroup(OpText(a.op), a.r + x, rest);
    Regroup(a.l, OpText(a.op) + (a.r + x), rest);
    Regroup(a.field, a.l + (OpText(a.op) + (a.r + x)), rest);
    Regroup(DOC, a.field + (a.l + (OpText(a.op) + (a.r + x))), rest);
  }

  lemma SwallowedUnread(d: Document, a: Test, rest: string)
    requires Unclosed(a) && rest != "" && a.literal.quote !in rest
    ensures !Decide(d, TestText(a) + rest)
  {
    SwallowedOperand(a, rest);
    CompareText(a);
    assert (TestText(a) + rest)[|Before(a)|] == a.literal.quote;
    QuotedNoName(TestText(a) + rest, |Before(a)|);
    NothingRead(d, TestText(a) + rest);
  }

  /** A condition that begins with a test whose literal ends in a backslash is false whatever follows, as long
      as the literal's kind of quote does not: the operator is read as part of the literal. */
  lemma UnclosedSwallows(d: Document, a: Test, l: string, o: char, r: string, b: string)
    requires Unclosed(a) && Blank(l) && Blank(r) && (o == '&' || o == '|')
    requires b != "" && Trimmed(b) && a.literal.quote !in b
    ensures !EvaluateCondition(d, Join(TestText(a), l, o, r, b))
  {
    var rest := l + ([o, o] + (r + b));
    var src := TestText(a) + rest;
    assert src[0] == 'd' && src[|src| - 1] == b[|b| - 1];
    forall k | 0 <= k < |rest| ensures rest[k] != a.literal.quote { JoinedChars(l, o, r, b, k); }
    SwallowsQuiet('|', TOP, ' ', a, rest);
    SwallowsQuiet('&', TOP, ' ', a, rest);
    PlainSource(src);
    QuietDecides(DecideFor(d), src);
    SwallowedUnread(d, a, rest);
  }

  lemma JoinedChars(l: string, o: char, r: string, b: string, k: nat)
    requires Blank(l) && Blank(r) && k < |l + ([o, o] + (r + b))|
    ensures var c := (l + ([o, o] + (r + b)))[k]; IsSpace(c) || c == o || c in b
  {
    var tail := [o, o] + (r + b);
    if k >= |l| {
      var i := k - |l|;
      assert (l + tail)[k] == tail[i];
      if i >= 2 {
        assert tail[i] == (r + b)[i - 2];
        if i - 2 >= |r| { assert (r + b)[i - 2] == b[i - 2 - |r|]; } else { assert (r + b)[i - 2] == r[i - 2]; }
      }
    } else {
      assert (l + tail)[k] == l[k];
    }
  }

  lemma {:induction false} ClosesDepth(st: Scan, prev: char, rest: string)
    requires Closes(st, prev, rest)
    ensures Run(st, prev, rest).parens == 0
    decreases rest
  {
    if rest != "" { ClosesDepth(Next(st, prev, rest[0]), rest[0], rest[1..]); }
  }

  lemma ParenthesesStay(a: Test)
    requires Unclosed(a)
    ensures var src := "(" + (TestText(a) + ")");
      Quiet('|', TOP, ' ', src) && Quiet('&', TOP, ' ', src) && !Wrapped(src)
  {
    var x := TestText(a) + ")";
    var src := "(" + x;
    assert src[1..] == x && Next(TOP, ' ', '(') == Deeper(TOP);
    SwallowsQuiet('|', Deeper(TOP), '(', a, ")");
    SwallowsQuiet('&', Deeper(TOP), '(', a, ")");
    if Closes(TOP, ' ', src) { ClosesDepth(TOP, ' ', src); }
  }

  lemma ParenthesesUnread(d: Document, a: Test)
    requires Unclosed(a)
    ensures !Decide(d, "(" + (TestText(a) + ")"))
  {
    var src := "(" + (TestText(a) + ")");
    CompareText(a);
    assert src[1 + |Before(a)|] == a.literal.quote;
    QuotedNoName(src, 1 + |Before(a)|);
    Differs(src, DOC, 0);
    NothingRead(d, src);
  }

  /** In parentheses such a test is false, too: the closing parenthesis is read as part of the literal. */
  lemma UnclosedInParentheses(d: Document, a: Test)
    requires Unclosed(a)
    ensures !EvaluateCondition(d, "(" + (TestText(a) + ")"))
  {
    var src := "(" + (TestText(a) + ")");
    assert src[0] == '(' && src[|src| - 1] == ')';
    ParenthesesStay(a);
    PlainSource(src);
    QuietDecides(DecideFor(d), src);
    ParenthesesUnread(d, a);
  }

  lemma FieldText(field: string, q: char)
    requires IsName(field) && IsQuote(q)
    ensures TestText(Truth(false, field)) == DOC + field
    ensures q !in DOC + field && DOC + field != "" && Trimmed(DOC + field)
  {
    var b := DOC + field;
    forall i | 0 <= i < |b| ensures b[i] != q && !IsSpace(b[i]) { if i >= 4 { assert b[i] == field[i - 4]; } }
  }

  /** So the meaning is missed by every conjunction of such a test and another that both hold. */
  lemma UnclosedMissed(d: Document, a: Test, l: string, r: string, b: Test, t: Condition)
    requires Unclosed(a) && !TestCalls(a) && TestMeaning(d, a) && Blank(l) && Blank(r)
    requires b.Truth? && !b.negated && IsName(b.field) && d.truthy(b.field)
    requires t == Both(One(a), l, r, One(b))
    ensures FineCondition(t) && ConditionMeaning(d, t) && !ConditionCalls(t)
    ensures !EvaluateCondition(d, Write(Rendered(t)))
  {
    FieldText(b.field, a.literal.quote);
    BothHold(d, a, l, r, b, t);
    UnclosedSwallows(d, a, l, '&', r, TestText(b));
  }

  lemma BothHold(d: Document, a: Test, l: string, r: string, b: Test, t: Condition)
    requires FineTest(a) && FineTest(b) && TestMeaning(d, a) && TestMeaning(d, b) && !TestCalls(a) && !TestCalls(b)
    requires Blank(l) && Blank(r) && t == Both(One(a), l, r, One(b))
    ensures FineCondition(t) && ConditionMeaning(d, t) && !ConditionCalls(t)
    ensures Write(Rendered(t)) == Join(TestText(a), l, '&', r, TestText(b))
  {
    assert FineCondition(One(a)) && FineCondition(One(b));
    assert ConditionMeaning(d, One(a)) && ConditionMeaning(d, One(b));
    assert !ConditionCalls(One(a)) && !ConditionCalls(One(b));
  }

  /** For instance by `doc.x == "a\" && doc.y`. */
  lemma BackslashMissed(d: Document) returns (t: Condition)
    requires d.equals("x", Quoted('\"', "a\\")) && d.truthy("y")
    ensures t == Both(One(Compare("x", " ", Loose, " ", Quoted('\"', "a\\"))), " ", " ", One(Truth(false, "y")))
    ensures FineCondition(t) && ConditionMeaning(d, t) && !ConditionCalls(t)
    ensures !EvaluateCondition(d, Write(Rendered(t)))
  {
    var a, b := Compare("x", " ", Loose, " ", Quoted('\"', "a\\")), Truth(false, "y");
    PlainNoCall("a\\");
    t := Both(One(a), " ", " ", One(b));
    UnclosedMissed(d, a, " ", " ", b, t);
  }

  // ------------------------------------------------------------------ operators outside a literal that ends early

  /** A literal with an operator between two quotes of its own kind. */
  function Straddling(q: char, x: string, l: string, o: char, r: string, y: string): Literal {
    Quoted(q, x + ([q] + (l + ([o, o] + (r + ([q] + y))))))
  }

  lemma Regroup(a: string, b: string, c: string)
    ensures (a + b) + c == a + (b + c)
  {
  }

  lemma StraddlingLiteral(q: char, x: string, l: string, op: string, r: string, y: string)
    ensures var inner := l + (op + (r + ([q] + y)));
      [q] + ((x + ([q] + inner)) + [q]) == ([q] + (x + [q])) + (l + (op + (r + ([q] + (y + [q])))))
  {
    var inner := l + (op + (r + ([q] + y)));
    Regroup([q], y, [q]);
    Regroup(r, [q] + y, [q]);
    Regroup(op, r + ([q] + y), [q]);
    Regroup(l, op + (r + ([q] + y)), [q]);
    Regroup([q], inner, [q]);
    Regroup(x, [q] + inner, [q]);
    Regroup(x, [q], inner + [q]);
    Regroup([q], x + [q], inner + [q]);
  }

  lemma StraddlingText(a: Test, q: char, x: string, l: string, o: char, r: string, y: string)
    requires a.Compare? && a.literal == Straddling(q, x, l, o, r, y)
    ensures TestText(a) == Join(TestText(a.(literal := Quoted(q, x))), l, o, r, [q] + (y + [q]))
  {
    var rest := l + ([o, o] + (r + ([q] + (y + [q]))));
    StraddlingLiteral(q, x, l, [o, o], r, y);
    FiveParts(DOC, a.field, a.l, OpText(a.op), a.r, LiteralText(Quoted(q, x)) + rest);
    FiveParts(DOC, a.field, a.l, OpText(a.op), a.r, LiteralText(Quoted(q, x)));
  }

  /** A string literal alone decides nothing. */
  lemma LiteralUnread(d: Document, q: char, y: string)
    requires IsQuote(q)
    ensures !Decide(d, [q] + (y + [q]))
  {
    var src := [q] + (y + [q]);
    Differs(src, DOC, 0);
    assert |src| > 4 ==> src[4..][|src| - 5] == q;
    NothingRead(d, src);
  }

  lemma LiteralAtom(q: char, y: string)
    requires IsQuote(q) && Closed(q, y)
    ensures AtomText([q] + (y + [q])) && (ForeignCall([q] + (y + [q])) <==> ForeignCall(y))
  {
    var t := [q] + (y + [q]);
    ClosedFlat(q, y);
    Differs(t, EVAL, 0);
    assert t[0] == q && t[|t| - 1] == q;
    QuotedForeign(q, y, "");
    assert [q] + "" == [q];
  }

  /** A test whose literal has an operator between two quotes of its own kind is accepted, but evaluated as
      the comparison with what stands before the first of them, joined with false. */
  lemma StraddlingSplits(d: Document, a: Test, q: char, x: string, l: string, o: char, r: string, y: string)
    requires FineTest(a) && a.Compare? && a.literal == Straddling(q, x, l, o, r, y) && OneLine(x)
    requires Closed(q, x) && Closed(q, y) && Blank(l) && Blank(r) && (o == '&' || o == '|')
    ensures EvaluateCondition(d, TestText(a)) <==>
      o == '|' && TestMeaning(d, a.(literal := Quoted(q, x))) && !ForeignCall(x) && !ForeignCall(y)
  {
    var first := a.(literal := Quoted(q, x));
    var other := [q] + (y + [q]);
    StraddlingText(a, q, x, l, o, r, y);
    TestAtom(first);
    TestReadsBack(d, first);
    TestForeign(first);
    LiteralAtom(q, y);
    LiteralUnread(d, q, y);
    JoinedWithFalse(DecideFor(d), TestText(first), l, o, r, other);
  }

  lemma JoinedWithFalse(leaf: string -> bool, t: string, l: string, o: char, r: string, other: string)
    requires AtomText(t) && AtomText(other) && !leaf(other) && Blank(l) && Blank(r) && (o == '&' || o == '|')
    ensures Evaluate(leaf, Join(t, l, o, r, other)) <==>
      o == '|' && leaf(t) && !ForeignCall(t) && !ForeignCall(other)
  {
    var e := if o == '|' then Or(Atom(t), l, r, Atom(other)) else And(Atom(t), l, r, Atom(other));
    TwoAtoms(leaf, t, l, o, r, other, e);
    GivenPlain(Write(e));
    EvaluateExactly(leaf, e, "", false, "", "");
  }

  lemma TwoAtoms(leaf: string -> bool, t: string, l: string, o: char, r: string, other: string, e: Expr)
    requires AtomText(t) && AtomText(other) && Blank(l) && Blank(r) && (o == '&' || o == '|')
    requires e == if o == '|' then Or(Atom(t), l, r, Atom(other)) else And(Atom(t), l, r, Atom(other))
    ensures Readable(e) && Write(e) == Join(t, l, o, r, other)
    ensures Meaning(leaf, e) == (if o == '|' then leaf(t) || leaf(other) else leaf(t) && leaf(other))
    ensures Calls(e) <==> ForeignCall(t) || ForeignCall(other)
  {
    assert WellFormed(Atom(t)) && Readable(Atom(other));
  }

  lemma GivenPlain(t: string)
    ensures Given("", false, "", t, "") == t
  {
  }

  /** So the meaning is missed by `doc.x == "a" || "b"`, one test that compares with `a" || "b`: it is true
      of a document where `x` is `a`. */
  lemma OperatorMissed(d: Document)
    requires d.equals("x", Quoted('\"', "a")) && !d.equals("x", Straddling('\"', "a", " ", '|', " ", "b"))
    ensures var a := Compare("x", " ", Loose, " ", Straddling('\"', "a", " ", '|', " ", "b"));
      && FineTest(a) && !TestMeaning(d, a) && EvaluateCondition(d, TestText(a))
  {
    var a := Compare("x", " ", Loose, " ", Straddling('\"', "a", " ", '|', " ", "b"));
    PlainNoCall("a");
    PlainNoCall("b");
    StraddlingSplits(d, a, '\"', "a", " ", '|', " ", "b");
  }
}

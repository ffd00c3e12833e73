/** The `mandatory_depends_on` evaluator: a quote- and bracket-aware splitter and a recursive
    evaluator, proved against the meaning of the and/or tree the text renders. */
module MandatoryDependsOn {
  import opened Text

  // ------------------------------------------------------------------ scanning

  /** Nesting depth and open quote while a text is read from left to right. */
  datatype Scan = Scan(parens: int, brackets: int, quote: Option<char>)

  const TOP := Scan(0, 0, None)

  predicate IsQuote(c: char) {
    c == '\"' || c == '\''
  }

  /** The state after reading `c`, which follows `prev`. */
  function Next(st: Scan, prev: char, c: char): Scan {
    if st.quote.Some? then
      if c == st.quote.value && prev != '\\' then st.(quote := None) else st
    else if IsQuote(c) then st.(quote := Some(c))
    else if c == '(' then st.(parens := st.parens + 1)
    else if c == ')' then st.(parens := st.parens - 1)
    else if c == '[' then st.(brackets := st.brackets + 1)
    else if c == ']' then st.(brackets := st.brackets - 1)
    else st
  }

  function Run(st: Scan, prev: char, t: string): Scan
    decreases t
  {
    if t == "" then st else Run(Next(st, prev, t[0]), t[0], t[1..])
  }

  /** `slice(index, index + 2) === operator` where it counts: outside quotes and brackets. */
  predicate AtOperator(o: char, st: Scan, rest: string) {
    st == TOP && |rest| >= 2 && rest[0] == o && rest[1] == o
  }

  /** The trimmed parts of `cur + rest`, `cur` being the part of the current one already read. */
  function Pieces(o: char, st: Scan, prev: char, cur: string, rest: string): seq<string>
    requires o == '&' || o == '|'
    decreases |rest|
  {
    if |rest| < 2 then [Trim(cur + rest)]
    else if AtOperator(o, st, rest) then [Trim(cur)] + Pieces(o, st, o, "", rest[2..])
    else Pieces(o, Next(st, prev, rest[0]), rest[0], cur + [rest[0]], rest[1..])
  }

  /** Each of several parts is shorter than the text: why the evaluator terminates. */
  lemma {:induction false} PiecesShorter(o: char, st: Scan, prev: char, cur: string, rest: string)
    requires o == '&' || o == '|'
    ensures var r := Pieces(o, st, prev, cur, rest);
      && |r| >= 1 && (forall p :: p in r ==> |p| <= |cur| + |rest|)
      && (|r| > 1 ==> forall p :: p in r ==> |p| < |cur| + |rest|)
    decreases |rest|
  {
    if |rest| >= 2 {
      if AtOperator(o, st, rest) {
        PiecesShorter(o, st, o, "", rest[2..]);
      } else {
        PiecesShorter(o, Next(st, prev, rest[0]), rest[0], cur + [rest[0]], rest[1..]);
      }
    }
  }

  function NonEmpty(parts: seq<string>): (r: seq<string>)
    ensures |r| <= |parts| && forall p :: p in r ==> p in parts && p != ""
  {
    if parts == [] then [] else (if parts[0] == "" then [] else [parts[0]]) + NonEmpty(parts[1..])
  }

  function SplitTopLevel(o: char, value: string): (r: seq<string>)
    requires o == '&' || o == '|'
    ensures |r| > 1 ==> forall p :: p in r ==> |p| < |value|
  {
    PiecesShorter(o, TOP, ' ', "", value);
    var parts := Pieces(o, TOP, ' ', "", value);
    if |parts| == 1 then [value] else NonEmpty(parts)
  }

  /** The same parts in terms of positions of the whole text. */
  ghost function PiecesFrom(o: char, st: Scan, prev: char, value: string, start: nat, index: nat): seq<string>
    requires start <= index <= |value|
    decreases |value| - index
  {
    if index + 1 >= |value| then [Trim(value[start..])]
    else if st == TOP && value[index] == o && value[index + 1] == o then
      [Trim(value[start..index])] + PiecesFrom(o, st, o, value, index + 2, index + 2)
    else PiecesFrom(o, Next(st, prev, value[index]), value[index], value, start, index + 1)
  }

  lemma {:induction false} PiecesFromIsPieces(o: char, st: Scan, prev: char, value: string, start: nat, index: nat)
    requires (o == '&' || o == '|') && start <= index <= |value|
    ensures PiecesFrom(o, st, prev, value, start, index) == Pieces(o, st, prev, value[start..index], value[index..])
    decreases |value| - index
  {
    if index + 1 >= |value| {
      assert value[start..index] + value[index..] == value[start..];
    } else if AtOperator(o, st, value[index..]) {
      assert value[index..][2..] == value[index + 2..] && value[index + 2..index + 2] == "";
      PiecesFromIsPieces(o, st, o, value, index + 2, index + 2);
    } else {
      PiecesNext(o, st, prev, value, start, index);
      PiecesFromIsPieces(o, Next(st, prev, value[index]), value[index], value, start, index + 1);
    }
  }

  /** One character that is not at an operator joins the current part. */
  lemma PiecesNext(o: char, st: Scan, prev: char, value: string, start: nat, index: nat)
    requires (o == '&' || o == '|') && start <= index && index + 1 < |value| && !AtOperator(o, st, value[index..])
    ensures Pieces(o, st, prev, value[start..index], value[index..])
         == Pieces(o, Next(st, prev, value[index]), value[index], value[start..index + 1], value[index + 1..])
  {
    assert value[index..][1..] == value[index + 1..];
    assert value[start..index] + [value[index]] == value[start..index + 1];
  }

  /** The loop of `splitTopLevelExpression`: the parts before the last one, and where that starts. */
  method CollectParts(value: string, o: char) returns (parts: seq<string>, start: nat)
    requires o == '&' || o == '|'
    ensures start <= |value| && (parts == [] ==> start == 0)
    ensures PiecesFrom(o, TOP, ' ', value, 0, 0) == parts + [Trim(value[start..])]
  {
    parts, start := [], 0;
    var index := 0;
    var parentheses, brackets := 0, 0;
    var quote: Option<char> := None;
    var prev := ' ';
    while index + 1 < |value|
      invariant start <= index <= |value|
      invariant PiecesFrom(o, TOP, ' ', value, 0, 0)
        == parts + PiecesFrom(o, Scan(parentheses, brackets, quote), prev, value, start, index)
      invariant parts == [] ==> start == 0
      decreases |value| - index
    {
      var c := value[index];
      if quote.Some? {
        if c == quote.value && prev != '\\' { quote := None; }
      } else if IsQuote(c) {
        quote := Some(c);
      } else if c == '(' {
        parentheses := parentheses + 1;
      } else if c == ')' {
        parentheses := parentheses - 1;
      } else if c == '[' {
        brackets := brackets + 1;
      } else if c == ']' {
        brackets := brackets - 1;
      } else if parentheses == 0 && brackets == 0 && c == o && value[index + 1] == o {
        parts := parts + [Trim(value[start..index])];
        start, index, prev := index + 2, index + 2, o;
        continue;
      }
      index, prev := index + 1, c;
    }
  }

  /** `splitTopLevelExpression`; the operator is `o` twice. */
  method SplitTopLevelExpression(value: string, o: char) returns (r: seq<string>)
    requires o == '&' || o == '|'
    ensures r == SplitTopLevel(o, value)
  {
    var parts, start := CollectParts(value, o);
    PiecesFromIsPieces(o, TOP, ' ', value, 0, 0);
    assert value[0..0] == "" && value[0..] == value;
    if parts == [] {
      return [value];
    }
    r := NonEmpty(parts + [Trim(value[start..])]);
  }

  /** The rest of the loop: no return to depth zero before the last character, and depth zero at the end. */
  predicate Closes(st: Scan, prev: char, rest: string)
    decreases rest
  {
    if rest == "" then st.parens == 0
    else
      var next := Next(st, prev, rest[0]);
      if st.quote.None? && !IsQuote(rest[0]) && next.parens == 0 && |rest| > 1 then false
      else Closes(next, rest[0], rest[1..])
  }

  /** `enclosesWholeExpression`. */
  method EnclosesWholeExpression(value: string) returns (r: bool)
    ensures r == Closes(TOP, ' ', value)
    ensures r <==> Run(TOP, ' ', value).parens == 0 && forall i :: 0 <= i < |value| - 1 ==> !ComesBack(value, i)
  {
    ClosesIff(value);
    var depth := 0;
    var quote: Option<char> := None;
    ghost var st, prev := TOP, ' ';
    for index := 0 to |value|
      invariant st.parens == depth && st.quote == quote
      invariant quote.Some? ==> index > 0 && prev == value[index - 1]
      invariant Closes(TOP, ' ', value) == Closes(st, prev, value[index..])
    {
      var c := value[index];
      assert value[index..][1..] == value[index + 1..];
      st := Next(st, prev, c);
      if quote.Some? {
        if c == quote.value && value[index - 1] != '\\' { quote := None; }
        prev := c;
        continue;
      }
      prev := c;
      if IsQuote(c) {
        quote := Some(c);
        continue;
      }
      if c == '(' { depth := depth + 1; }
      if c == ')' { depth := depth - 1; }
      if depth == 0 && index < |value| - 1 {
        return false;
      }
    }
    r := depth == 0;
  }

  predicate Wrapped(s: string) {
    |s| >= 2 && s[0] == '(' && s[|s| - 1] == ')' && Closes(TOP, ' ', s)
  }

  /** Parentheses around the whole text removed, as often as there are any. */
  function Unwrapped(s: string): (r: string)
    ensures |r| <= |s|
    decreases |s|
  {
    if Wrapped(s) then Unwrapped(Trim(s[1..|s| - 1])) else s
  }

  /** `unwrapExpression`. */
  method UnwrapExpression(value: string) returns (r: string)
    ensures r == Unwrapped(Trim(value))
  {
    r := Trim(value);
    while true
      invariant Unwrapped(Trim(value)) == Unwrapped(r)
      decreases |r|
    {
      if !(|r| >= 2 && r[0] == '(' && r[|r| - 1] == ')') { return; }
      var whole := EnclosesWholeExpression(r);
      if !whole { return; }
      r := Trim(r[1..|r| - 1]);
    }
  }

  // ----------------------------------------------------------------- evaluation

  predicate IsWord(c: char) {
    'a' <= c <= 'z' || 'A' <= c <= 'Z' || '0' <= c <= '9' || c == '_'
  }

  predicate IsNameStart(c: char) {
    IsWord(c) && !('0' <= c <= '9')
  }

  /** `src[s..e]` is a name called at the parenthesis `src[p]`. */
  predicate CallAt(src: string, s: int, e: int, p: int) {
    && 0 <= s < e <= p < |src| && src[p] == '('
    && (forall k :: e <= k < p ==> IsSpace(src[k]))
    && (forall k :: s <= k < e ==> IsWord(src[k]) || src[k] == '.')
    && IsNameStart(src[s]) && (s == 0 || !IsWord(src[s - 1]))
  }

  /** Some function other than `in_list` seems to be called, string literals included. */
  ghost predicate ForeignCall(src: string) {
    exists s, e, p :: CallAt(src, s, e, p) && src[s..e] != "in_list"
  }

  const EVAL := "eval:"

  function StripEval(s: string): string {
    if |s| >= 5 && s[..5] == EVAL then TrimLeft(s[5..]) else s
  }

  /** The text `evaluateMandatoryDependency` looks at. */
  function Source(expression: string): (r: string)
    ensures |r| <= |expression|
  {
    Unwrapped(Trim(Trim(StripEval(Trim(expression)))))
  }

  /** `evaluateMandatoryDependency`; `leaf` decides a text without top-level operators. */
  ghost function Evaluate(leaf: string -> bool, expression: string): bool
    decreases |expression|, 1, 0
  {
    var source := Source(expression);
    if ForeignCall(source) then false
    else
      var disjunction := SplitTopLevel('|', source);
      if |disjunction| > 1 then EvaluateSome(leaf, disjunction, |expression|)
      else
        var conjunction := SplitTopLevel('&', source);
        if |conjunction| > 1 then EvaluateEvery(leaf, conjunction, |expression|)
        else leaf(source)
  }

  /** `parts.some(evaluate)`; every part is shorter than `n`. */
  ghost function EvaluateSome(leaf: string -> bool, parts: seq<string>, n: nat): bool
    requires forall p :: p in parts ==> |p| < n
    decreases n, 0, |parts|
  {
    parts != [] && (Evaluate(leaf, parts[0]) || EvaluateSome(leaf, parts[1..], n))
  }

  /** `parts.every(evaluate)`. */
  ghost function EvaluateEvery(leaf: string -> bool, parts: seq<string>, n: nat): bool
    requires forall p :: p in parts ==> |p| < n
    decreases n, 0, |parts|
  {
    parts == [] || (Evaluate(leaf, parts[0]) && EvaluateEvery(leaf, parts[1..], n))
  }

  // ----------------------------------------------- and/or trees and their texts

  /** A written condition; the strings are the blanks around operators and inside parentheses. */
  datatype Expr =
    | Atom(text: string)
    | Group(before: string, inner: Expr, after: string)
    | And(left: Expr, l: string, r: string, right: Expr)
    | Or(left: Expr, l: string, r: string, right: Expr)

  function Join(a: string, l: string, o: char, r: string, b: string): string {
    a + (l + ([o, o] + (r + b)))
  }

  function Write(e: Expr): string {
    match e
    case Atom(text) => text
    case Group(before, inner, after) => "(" + ((before + Write(inner) + after) + ")")
    case And(a, l, r, b) => Join(Write(a), l, '&', r, Write(b))
    case Or(a, l, r, b) => Join(Write(a), l, '|', r, Write(b))
  }

  function Meaning(leaf: string -> bool, e: Expr): bool {
    match e
    case Atom(text) => leaf(text)
    case Group(_, inner, _) => Meaning(leaf, inner)
    case And(a, _, _, b) => Meaning(leaf, a) && Meaning(leaf, b)
    case Or(a, _, _, b) => Meaning(leaf, a) || Meaning(leaf, b)
  }

  /** Outside quotes and brackets there is no `o`. */
  predicate Quiet(o: char, st: Scan, prev: char, t: string)
    decreases t
  {
    t == "" || ((st == TOP ==> t[0] != o) && Quiet(o, Next(st, prev, t[0]), t[0], t[1..]))
  }

  predicate NeverNegative(st: Scan, prev: char, t: string)
    decreases t
  {
    st.parens >= 0 && (t == "" || NeverNegative(Next(st, prev, t[0]), t[0], t[1..]))
  }

  /** Reading `t` at the top ends at the top, and no parenthesis is closed before it is opened. */
  predicate Level(t: string) {
    Run(TOP, ' ', t) == TOP && NeverNegative(TOP, ' ', t)
  }

  predicate StartsEval(t: string) {
    |t| >= 5 && t[..5] == EVAL
  }

  /** A text the evaluator hands to `leaf` unchanged, where nothing follows it. */
  ghost predicate EndText(t: string) {
    && t != "" && Trimmed(t)
    && Quiet('|', TOP, ' ', t) && Quiet('&', TOP, ' ', t)
    && !Wrapped(t) && !StartsEval(t)
  }

  /** A text the evaluator hands to `leaf` unchanged, wherever it stands. */
  ghost predicate AtomText(t: string) {
    EndText(t) && Level(t)
  }

  /** Some atom looks as if it called a function: outside string literals it does, inside it may just say so. */
  ghost predicate Calls(e: Expr) {
    match e
    case Atom(text) => ForeignCall(text)
    case Group(_, inner, _) => Calls(inner)
    case And(a, _, _, b) => Calls(a) || Calls(b)
    case Or(a, _, _, b) => Calls(a) || Calls(b)
  }

  /** Precedence is respected: no `Or` directly under an `And`. */
  ghost predicate WellFormed(e: Expr) {
    match e
    case Atom(text) => AtomText(text)
    case Group(before, inner, after) => Blank(before) && Blank(after) && WellFormed(inner)
    case And(a, l, r, b) => Blank(l) && Blank(r) && WellFormed(a) && WellFormed(b) && !a.Or? && !b.Or?
    case Or(a, l, r, b) => Blank(l) && Blank(r) && WellFormed(a) && WellFormed(b)
  }

  /** The same, except that the last atom, if it is in no parentheses, need not leave the scanner level. */
  ghost predicate Readable(e: Expr) {
    match e
    case Atom(text) => EndText(text)
    case Group(_, _, _) => WellFormed(e)
    case And(a, l, r, b) => Blank(l) && Blank(r) && WellFormed(a) && Readable(b) && !a.Or? && !b.Or?
    case Or(a, l, r, b) => Blank(l) && Blank(r) && WellFormed(a) && Readable(b)
  }

  lemma {:induction false} WellFormedReadable(e: Expr)
    requires WellFormed(e)
    ensures Readable(e)
  {
    if e.And? || e.Or? { WellFormedReadable(e.right); }
  }

  // ------------------------------------------------------------ scanning lemmas

  /** After reading the character at `i`, which is outside string literals, the depth is zero. */
  predicate ComesBack(value: string, i: nat)
    requires i < |value|
  {
    Run(TOP, ' ', value[..i]).quote.None? && !IsQuote(value[i]) && Run(TOP, ' ', value[..i + 1]).parens == 0
  }

  lemma {:induction false} ClosesFrom(a: string, rest: string)
    ensures Closes(Run(TOP, ' ', a), LastOr(' ', a), rest) <==>
      && Run(TOP, ' ', a + rest).parens == 0
      && forall i :: |a| <= i < |a + rest| - 1 ==> !ComesBack(a + rest, i)
    decreases rest
  {
    var value := a + rest;
    if rest == "" {
      assert value == a;
    } else {
      var st, c := Run(TOP, ' ', a), rest[0];
      assert value[..|a|] == a && value[..|a| + 1] == a + [c] && (a + [c]) + rest[1..] == value;
      RunAppend('&', TOP, ' ', a, [c]);
      assert [c][1..] == "" && Run(st, LastOr(' ', a), [c]) == Next(st, LastOr(' ', a), c);
      ClosesFrom(a + [c], rest[1..]);
      assert |rest| > 1 ==> (ComesBack(value, |a|) <==>
        st.quote.None? && !IsQuote(c) && Next(st, LastOr(' ', a), c).parens == 0);
    }
  }

  lemma ClosesIff(value: string)
    ensures Closes(TOP, ' ', value) <==>
      Run(TOP, ' ', value).parens == 0 && forall i :: 0 <= i < |value| - 1 ==> !ComesBack(value, i)
  {
    ClosesFrom("", value);
    assert "" + value == value;
  }

  function LastOr(prev: char, t: string): char {
    if t == "" then prev else t[|t| - 1]
  }

  lemma {:induction false} RunAppend(o: char, st: Scan, prev: char, a: string, b: string)
    ensures var p := LastOr(prev, a);
      && Run(st, prev, a + b) == Run(Run(st, prev, a), p, b)
      && (NeverNegative(st, prev, a + b) <==> NeverNegative(st, prev, a) && NeverNegative(Run(st, prev, a), p, b))
      && (Quiet(o, st, prev, a + b) <==> Quiet(o, st, prev, a) && Quiet(o, Run(st, prev, a), p, b))
    decreases a
  {
    if a == "" {
      assert a + b == b;
    } else {
      assert (a + b)[1..] == a[1..] + b;
      RunAppend(o, Next(st, prev, a[0]), a[0], a[1..], b);
    }
  }

  lemma NeverNegativeNow(st: Scan, prev: char, t: string)
    requires NeverNegative(st, prev, t)
    ensures NeverNegative(st, prev, "")
  {
  }

  lemma LevelAppend(o: char, a: string, b: string)
    requires Level(a)
    ensures Level(b) ==> Level(a + b)
    ensures Quiet(o, TOP, ' ', a + b) <==> Quiet(o, TOP, ' ', a) && Quiet(o, TOP, ' ', b)
  {
    RunAppend(o, TOP, ' ', a, b);
    PrevIrrelevant(o, LastOr(' ', a), ' ', b);
  }

  /** At the top, outside quotes, the previous character does not matter. */
  lemma PrevIrrelevant(o: char, p: char, q: char, t: string)
    ensures Run(TOP, p, t) == Run(TOP, q, t)
    ensures Quiet(o, TOP, p, t) == Quiet(o, TOP, q, t)
    ensures NeverNegative(TOP, p, t) == NeverNegative(TOP, q, t)
  {
    if t != "" { assert Next(TOP, p, t[0]) == Next(TOP, q, t[0]); }
  }

  lemma {:induction false} BlankLevel(o: char, prev: char, t: string)
    requires Blank(t) && (o == '&' || o == '|')
    ensures Run(TOP, prev, t) == TOP && NeverNegative(TOP, prev, t) && Quiet(o, TOP, prev, t)
    decreases t
  {
    if t != "" {
      assert IsSpace(t[0]);
      BlankLevel(o, t[0], t[1..]);
    }
  }

  lemma OperatorLevel(o: char, op: char)
    requires op == '&' || op == '|'
    ensures Level([op, op]) && (o != op ==> Quiet(o, TOP, ' ', [op, op]))
  {
    assert [op][1..] == "" && [op] + [op] == [op, op];
    assert Next(TOP, ' ', op) == TOP && NeverNegative(TOP, op, "");
    LevelAppend(o, [op], [op]);
  }

  lemma JoinLevel(o: char, a: string, l: string, op: char, r: string, b: string)
    requires Level(a) && Blank(l) && Blank(r) && (op == '&' || op == '|') && (o == '&' || o == '|')
    ensures Level(b) ==> Level(Join(a, l, op, r, b))
    ensures o != op && Quiet(o, TOP, ' ', a) && Quiet(o, TOP, ' ', b) ==> Quiet(o, TOP, ' ', Join(a, l, op, r, b))
  {
    BlankLevel(o, ' ', l);
    BlankLevel(o, ' ', r);
    OperatorLevel(o, op);
    LevelAppend(o, r, b);
    LevelAppend(o, [op, op], r + b);
    LevelAppend(o, l, [op, op] + (r + b));
    LevelAppend(o, a, l + ([op, op] + (r + b)));
  }

  function Deeper(st: Scan): Scan {
    st.(parens := st.parens + 1)
  }

  /** The same text inside one more parenthesis: never at the top, hence quiet. */
  lemma {:induction false} RunDeeper(o: char, st: Scan, prev: char, t: string)
    requires NeverNegative(st, prev, t)
    ensures Run(Deeper(st), prev, t) == Deeper(Run(st, prev, t))
    ensures Quiet(o, Deeper(st), prev, t) && NeverNegative(Deeper(st), prev, t)
    decreases t
  {
    if t != "" {
      RunDeeper(o, Next(st, prev, t[0]), t[0], t[1..]);
    }
  }

  lemma GroupLevel(o: char, m: string)
    requires Level(m) && (o == '&' || o == '|')
    ensures Level("(" + (m + ")")) && Quiet(o, TOP, ' ', "(" + (m + ")"))
  {
    var s := m + ")";
    assert ("(" + s)[1..] == s;
    assert Next(TOP, ' ', '(') == Deeper(TOP);
    PrevIrrelevant(o, '(', ' ', m);
    RunDeeper(o, TOP, '(', m);
    RunAppend(o, Deeper(TOP), '(', m, ")");
    LastClose(o, LastOr('(', m));
  }

  lemma LastClose(o: char, prev: char)
    requires o == '&' || o == '|'
    ensures Run(Deeper(TOP), prev, ")") == TOP && NeverNegative(Deeper(TOP), prev, ")")
      && Quiet(o, Deeper(TOP), prev, ")")
  {
    assert ")"[1..] == "";
  }

  // ---------------------------------------------- which texts are parenthesised

  /** A text that comes back to the top before its end is not enclosed. */
  lemma {:induction false} ClosesEarly(st: Scan, prev: char, a: string, x: string)
    requires Run(st, prev, a) == TOP && |x| >= 2 && !IsQuote(x[0]) && x[0] != '(' && x[0] != ')'
    ensures !Closes(st, prev, a + x)
    decreases a
  {
    if a == "" {
      assert a + x == x;
    } else {
      assert (a + x)[1..] == a[1..] + x;
      ClosesEarly(Next(st, prev, a[0]), a[0], a[1..], x);
    }
  }

  lemma {:induction false} ClosesLate(st: Scan, prev: char, m: string)
    requires NeverNegative(st, prev, m) && Run(st, prev, m) == TOP
    ensures Closes(Deeper(st), prev, m + ")")
    decreases m
  {
    if m == "" {
      assert m + ")" == ")" && ")"[1..] == "";
    } else {
      assert (m + ")")[1..] == m[1..] + ")";
      ClosesLate(Next(st, prev, m[0]), m[0], m[1..]);
      NeverNegativeNow(Next(st, prev, m[0]), m[0], m[1..]);
    }
  }

  lemma GroupWrapped(m: string)
    requires Level(m)
    ensures Wrapped("(" + (m + ")"))
  {
    var s := m + ")";
    assert ("(" + s)[1..] == s;
    assert Next(TOP, ' ', '(') == Deeper(TOP);
    PrevIrrelevant('&', '(', ' ', m);
    ClosesLate(TOP, '(', m);
  }

  lemma JoinNotWrapped(a: string, l: string, op: char, r: string, b: string)
    requires Level(a) && Blank(l) && (op == '&' || op == '|')
    ensures !Wrapped(Join(a, l, op, r, b))
  {
    var x := l + ([op, op] + (r + b));
    assert x[0] == if l == "" then op else l[0];
    assert l != "" ==> IsSpace(l[0]);
    ClosesEarly(TOP, ' ', a, x);
  }

  // -------------------------------------------------- no call appears by joining

  lemma CallInside(src: string, n: nat, t: string, s: int, e: int, p: int)
    requires CallAt(src, s, e, p) && n <= s && p < n + |t| <= |src|
    requires forall k :: 0 <= k < |t| ==> t[k] == src[n + k]
    ensures CallAt(t, s - n, e - n, p - n)
    ensures t[s - n..e - n] == src[s..e]
  {
  }

  /** A call found in a joined text lies in one of the two, because it contains no operator
      and starts and ends with something other than a blank. */
  lemma JoinForeign(a: string, l: string, op: char, r: string, b: string)
    requires Blank(l) && Blank(r) && (op == '&' || op == '|')
    ensures ForeignCall(Join(a, l, op, r, b)) <==> ForeignCall(a) || ForeignCall(b)
  {
    JoinCalls(a, l, op, r, b);
    if !ForeignCall(a) && !ForeignCall(b) { JoinCallsNothingElse(a, l, op, r, b); }
  }

  /** A call stays a call in a longer text if no word ends where the shorter one begins. */
  lemma CallOutside(src: string, n: nat, t: string)
    requires ForeignCall(t) && n + |t| <= |src| && (n == 0 || !IsWord(src[n - 1]))
    requires forall k :: 0 <= k < |t| ==> t[k] == src[n + k]
    ensures ForeignCall(src)
  {
    var s, e, p :| CallAt(t, s, e, p) && t[s..e] != "in_list";
    assert src[n + s..n + e] == t[s..e];
    forall k | n + e <= k < n + p ensures IsSpace(src[k]) { assert t[k - n] == src[n + (k - n)]; }
    forall k | n + s <= k < n + e ensures IsWord(src[k]) || src[k] == '.' { assert t[k - n] == src[n + (k - n)]; }
    assert s > 0 ==> src[n + s - 1] == t[s - 1];
    assert CallAt(src, n + s, n + e, n + p);
  }

  lemma JoinCalls(a: string, l: string, op: char, r: string, b: string)
    requires Blank(l) && Blank(r) && (op == '&' || op == '|')
    ensures ForeignCall(a) || ForeignCall(b) ==> ForeignCall(Join(a, l, op, r, b))
  {
    var src := Join(a, l, op, r, b);
    if ForeignCall(a) {
      assert forall k :: 0 <= k < |a| ==> a[k] == src[0 + k];
      CallOutside(src, 0, a);
    } else if ForeignCall(b) {
      JoinRight(a, l, op, r, b);
      CallOutside(src, |a| + |l| + 2 + |r|, b);
    }
  }

  lemma JoinRight(a: string, l: string, op: char, r: string, b: string)
    requires Blank(l) && Blank(r) && (op == '&' || op == '|')
    ensures var src, m := Join(a, l, op, r, b), |a| + |l| + 2 + |r|;
      && m + |b| == |src| && !IsWord(src[m - 1]) && forall k :: 0 <= k < |b| ==> b[k] == src[m + k]
  {
    var src, m := Join(a, l, op, r, b), |a| + |l| + 2 + |r|;
    assert src[m - 1] == if r == "" then op else r[|r| - 1];
  }

  lemma JoinCallsNothingElse(a: string, l: string, op: char, r: string, b: string)
    requires Blank(l) && Blank(r) && (op == '&' || op == '|') && !ForeignCall(a) && !ForeignCall(b)
    ensures !ForeignCall(Join(a, l, op, r, b))
  {
    var src := Join(a, l, op, r, b);
    var n, m := |a| + |l|, |a| + |l| + 2 + |r|;
    assert forall k :: 0 <= k < |a| ==> a[k] == src[0 + k];
    assert forall k :: |a| <= k < n ==> src[k] == l[k - |a|] && IsSpace(src[k]);
    assert src[n] == op && src[n + 1] == op;
    assert forall k :: n + 2 <= k < m ==> src[k] == r[k - n - 2] && IsSpace(src[k]);
    assert forall k :: 0 <= k < |b| ==> b[k] == src[m + k];
    forall s, e, p | CallAt(src, s, e, p) ensures src[s..e] == "in_list" {
      assert !(s <= n <= p) && !(s <= n + 1 <= p);
      if p < n {
        CallInside(src, 0, a, s, e, p);
      } else {
        CallInside(src, m, b, s, e, p);
      }
    }
  }

  lemma GroupForeign(before: string, t: string, after: string)
    requires Blank(before) && Blank(after)
    ensures ForeignCall("(" + ((before + t + after) + ")")) <==> ForeignCall(t)
  {
    var src := "(" + ((before + t + after) + ")");
    var n := 1 + |before|;
    assert src[0] == '(' && forall k :: 1 <= k < n ==> src[k] == before[k - 1] && IsSpace(src[k]);
    if ForeignCall(t) { CallOutside(src, n, t); } else { GroupCallsNothingElse(before, t, after); }
  }

  lemma GroupCallsNothingElse(before: string, t: string, after: string)
    requires Blank(before) && Blank(after) && !ForeignCall(t)
    ensures !ForeignCall("(" + ((before + t + after) + ")"))
  {
    var src := "(" + ((before + t + after) + ")");
    var n, m := 1 + |before|, 1 + |before| + |t|;
    assert forall k :: 1 <= k < n ==> src[k] == before[k - 1] && IsSpace(src[k]);
    assert forall k :: 0 <= k < |t| ==> t[k] == src[n + k];
    assert forall k :: m <= k < m + |after| ==> src[k] == after[k - m] && IsSpace(src[k]);
    assert src[0] == '(' && src[|src| - 1] == ')';
    forall s, e, p | CallAt(src, s, e, p) ensures src[s..e] == "in_list" {
      CallInside(src, n, t, s, e, p);
    }
  }

  lemma JoinNotEval(a: string, l: string, op: char, r: string, b: string)
    requires a != "" && !StartsEval(a) && Blank(l) && (op == '&' || op == '|')
    ensures !StartsEval(Join(a, l, op, r, b))
  {
    var s, k := Join(a, l, op, r, b), |a|;
    assert s[k] == if l == "" then op else l[0];
    assert l != "" ==> IsSpace(l[0]);
    assert k >= 5 ==> s[..5] == a[..5];
    assert k < 5 && |s| >= 5 ==> s[..5][k] != EVAL[k];
  }

  // ------------------------------------------------------ the shape of a text

  /** What the scanner sees of a text in parentheses. */
  lemma GroupShape(before: string, t: string, after: string)
    requires Blank(before) && Blank(after) && Level(t)
    ensures var g := "(" + ((before + t + after) + ")");
      && Trimmed(g) && Level(g) && Quiet('|', TOP, ' ', g) && Quiet('&', TOP, ' ', g) && Wrapped(g)
      && !StartsEval(g) && (ForeignCall(g) <==> ForeignCall(t))
  {
    BlankLevel('&', ' ', before);
    BlankLevel('&', ' ', after);
    LevelAppend('&', before, t);
    LevelAppend('&', before + t, after);
    GroupLevel('|', before + t + after);
    GroupLevel('&', before + t + after);
    GroupWrapped(before + t + after);
    GroupForeign(before, t, after);
  }

  /** What the scanner sees of a condition that can be read. */
  lemma {:induction false} WriteShape(e: Expr)
    requires Readable(e)
    ensures var t := Write(e);
      && t != "" && Trimmed(t)
      && (!e.Or? ==> Quiet('|', TOP, ' ', t)) && (!e.Or? && !e.And? ==> Quiet('&', TOP, ' ', t))
      && !StartsEval(t) && (ForeignCall(t) <==> Calls(e)) && (Wrapped(t) <==> e.Group?)
      && (WellFormed(e) ==> Level(t))
  {
    match e {
      case Atom(_) =>
      case Group(before, inner, after) =>
        WellFormedReadable(inner);
        WriteShape(inner);
        GroupShape(before, Write(inner), after);
      case And(a, l, r, b) =>
        WellFormedReadable(a);
        WriteShape(a);
        WriteShape(b);
        JoinShape(Write(a), l, '&', r, Write(b));
        JoinForeign(Write(a), l, '&', r, Write(b));
        JoinLevel('|', Write(a), l, '&', r, Write(b));
      case Or(a, l, r, b) =>
        WellFormedReadable(a);
        WriteShape(a);
        WriteShape(b);
        JoinShape(Write(a), l, '|', r, Write(b));
        JoinForeign(Write(a), l, '|', r, Write(b));
        JoinLevel('&', Write(a), l, '|', r, Write(b));
    }
  }

  lemma JoinShape(a: string, l: string, op: char, r: string, b: string)
    requires a != "" && b != "" && Trimmed(a) && Trimmed(b) && Level(a) && Blank(l) && Blank(r)
      && (op == '&' || op == '|')
    requires !StartsEval(a)
    ensures var t := Join(a, l, op, r, b);
      t != "" && Trimmed(t) && !StartsEval(t) && !Wrapped(t)
  {
    var t := Join(a, l, op, r, b);
    assert t[0] == a[0] && t[|t| - 1] == b[|b| - 1];
    JoinNotEval(a, l, op, r, b);
    JoinNotWrapped(a, l, op, r, b);
  }

  // ------------------------------------------------------------- splitting it

  /** The operands of a chain of one operator. */
  function Operands(o: char, e: Expr): (r: seq<Expr>)
    ensures |r| >= 1
    ensures (o == '|' && e.Or?) || (o == '&' && e.And?) ==> |r| >= 2
  {
    if (o == '|' && e.Or?) || (o == '&' && e.And?) then Operands(o, e.left) + Operands(o, e.right) else [e]
  }

  function Texts(es: seq<Expr>): (r: seq<string>)
    ensures |r| == |es| && forall i :: 0 <= i < |es| ==> r[i] == Write(es[i])
  {
    if es == [] then [] else [Write(es[0])] + Texts(es[1..])
  }

  lemma TextsAppend(a: seq<Expr>, b: seq<Expr>)
    ensures Texts(a + b) == Texts(a) + Texts(b)
  {
  }

  lemma PiecesStep(o: char, st: Scan, prev: char, cur: string, t: string, rest: string)
    requires (o == '&' || o == '|') && t != "" && |t| + |rest| >= 2 && (st == TOP ==> t[0] != o)
    ensures Pieces(o, st, prev, cur, t + rest) == Pieces(o, Next(st, prev, t[0]), t[0], cur + [t[0]], t[1..] + rest)
  {
    assert (t + rest)[1..] == t[1..] + rest && (t + rest)[0] == t[0];
  }

  lemma {:induction false} SkipQuiet(o: char, st: Scan, prev: char, cur: string, t: string, rest: string)
    requires (o == '&' || o == '|') && Quiet(o, st, prev, t) && rest != ""
    ensures Pieces(o, st, prev, cur, t + rest) == Pieces(o, Run(st, prev, t), LastOr(prev, t), cur + t, rest)
    decreases t
  {
    if t == "" {
      assert t + rest == rest && cur + t == cur;
    } else {
      PiecesStep(o, st, prev, cur, t, rest);
      SkipQuiet(o, Next(st, prev, t[0]), t[0], cur + [t[0]], t[1..], rest);
      assert cur + [t[0]] + t[1..] == cur + t;
      assert LastOr(t[0], t[1..]) == LastOr(prev, t);
    }
  }

  lemma {:induction false} QuietToTheEnd(o: char, st: Scan, prev: char, cur: string, t: string)
    requires (o == '&' || o == '|') && Quiet(o, st, prev, t)
    ensures Pieces(o, st, prev, cur, t) == [Trim(cur + t)]
    decreases t
  {
    if |t| >= 2 {
      PiecesStep(o, st, prev, cur, t, "");
      assert t + "" == t && t[1..] + "" == t[1..];
      QuietToTheEnd(o, Next(st, prev, t[0]), t[0], cur + [t[0]], t[1..]);
      assert cur + [t[0]] + t[1..] == cur + t;
    }
  }

  lemma PiecesPrev(o: char, p: char, q: char, cur: string, rest: string)
    requires o == '&' || o == '|'
    ensures Pieces(o, TOP, p, cur, rest) == Pieces(o, TOP, q, cur, rest)
  {
  }

  /** A quiet text, blanks and the operator: one piece. */
  lemma PieceThenOperator(o: char, pad: string, t: string, after: string, rest: string)
    requires (o == '&' || o == '|') && Blank(pad) && Blank(after) && t != "" && Trimmed(t) && Level(t)
      && Quiet(o, TOP, ' ', t)
    ensures Pieces(o, TOP, ' ', pad, t + (after + ([o, o] + rest))) == [t] + Pieces(o, TOP, ' ', "", rest)
  {
    SkipQuiet(o, TOP, ' ', pad, t, after + ([o, o] + rest));
    PiecesPrev(o, t[|t| - 1], ' ', pad + t, after + ([o, o] + rest));
    BlankLevel(o, ' ', after);
    SkipQuiet(o, TOP, ' ', pad + t, after, [o, o] + rest);
    PiecesPrev(o, LastOr(' ', after), ' ', pad + t + after, [o, o] + rest);
    assert ([o, o] + rest)[2..] == rest;
    TrimPadded(pad, t, after);
    PiecesPrev(o, o, ' ', "", rest);
  }

  lemma PieceAtEnd(o: char, pad: string, t: string)
    requires (o == '&' || o == '|') && Blank(pad) && t != "" && Trimmed(t) && Quiet(o, TOP, ' ', t)
    ensures Pieces(o, TOP, ' ', pad, t) == [t]
  {
    QuietToTheEnd(o, TOP, ' ', pad, t);
    assert pad + t == pad + t + "";
    TrimPadded(pad, t, "");
  }

  ghost predicate Splittable(o: char, e: Expr) {
    Readable(e) && (o == '|' || (o == '&' && !e.Or?))
  }

  ghost predicate ChainOf(o: char, e: Expr) {
    (o == '|' && e.Or?) || (o == '&' && e.And?)
  }

  lemma ChainText(o: char, e: Expr)
    requires ChainOf(o, e)
    ensures Write(e) == Join(Write(e.left), e.l, o, e.r, Write(e.right))
    ensures Texts(Operands(o, e)) == Texts(Operands(o, e.left)) + Texts(Operands(o, e.right))
  {
    TextsAppend(Operands(o, e.left), Operands(o, e.right));
  }

  lemma JoinThen(a: string, l: string, o: char, r: string, b: string, x: string)
    ensures Join(a, l, o, r, b) + x == a + (l + ([o, o] + (r + (b + x))))
  {
  }

  lemma {:induction false} PiecesThenOperator(o: char, e: Expr, pad: string, after: string, rest: string)
    requires Splittable(o, e) && WellFormed(e) && Blank(pad) && Blank(after)
    ensures Pieces(o, TOP, ' ', pad, Write(e) + (after + ([o, o] + rest)))
         == Texts(Operands(o, e)) + Pieces(o, TOP, ' ', "", rest)
    decreases e
  {
    if ChainOf(o, e) {
      var x := after + ([o, o] + rest);
      var tail := Write(e.right) + x;
      ChainText(o, e);
      WellFormedReadable(e.left);
      WellFormedReadable(e.right);
      JoinThen(Write(e.left), e.l, o, e.r, Write(e.right), x);
      PiecesThenOperator(o, e.left, pad, e.l, e.r + tail);
      SkipBlank(o, e.r, tail);
      PiecesThenOperator(o, e.right, e.r, after, rest);
      SeqAssoc(Texts(Operands(o, e.left)), Texts(Operands(o, e.right)), Pieces(o, TOP, ' ', "", rest));
    } else {
      WriteShape(e);
      PieceThenOperator(o, pad, Write(e), after, rest);
      assert Texts([e]) == [Write(e)];
    }
  }

  lemma SeqAssoc(a: seq<string>, b: seq<string>, c: seq<string>)
    ensures (a + b) + c == a + (b + c)
  {
  }

  lemma SkipBlank(o: char, r: string, tail: string)
    requires (o == '&' || o == '|') && Blank(r) && tail != ""
    ensures Pieces(o, TOP, ' ', "", r + tail) == Pieces(o, TOP, ' ', r, tail)
  {
    BlankLevel(o, ' ', r);
    SkipQuiet(o, TOP, ' ', "", r, tail);
    assert "" + r == r;
    PiecesPrev(o, LastOr(' ', r), ' ', r, tail);
  }

  lemma {:induction false} PiecesOf(o: char, e: Expr, pad: string)
    requires Splittable(o, e) && Blank(pad)
    ensures Pieces(o, TOP, ' ', pad, Write(e)) == Texts(Operands(o, e))
    decreases e
  {
    if ChainOf(o, e) {
      ChainText(o, e);
      WellFormedReadable(e.left);
      WriteShape(e.right);
      PiecesThenOperator(o, e.left, pad, e.l, e.r + Write(e.right));
      SkipBlank(o, e.r, Write(e.right));
      PiecesOf(o, e.right, e.r);
    } else {
      WriteShape(e);
      PieceAtEnd(o, pad, Write(e));
      assert Texts([e]) == [Write(e)];
    }
  }

  lemma {:induction false} NonEmptyAll(parts: seq<string>)
    requires forall p :: p in parts ==> p != ""
    ensures NonEmpty(parts) == parts
  {
    if parts != [] {
      assert parts[0] in parts && forall p :: p in parts[1..] ==> p in parts;
      NonEmptyAll(parts[1..]);
    }
  }

  lemma {:induction false} OperandsSmaller(o: char, e: Expr, i: nat)
    requires Readable(e) && i < |Operands(o, e)|
    ensures var p := Operands(o, e)[i];
      Readable(p) && (Calls(p) ==> Calls(e)) && (|Operands(o, e)| > 1 ==> p < e) && (p == e || p < e)
  {
    if (o == '|' && e.Or?) || (o == '&' && e.And?) {
      var n := |Operands(o, e.left)|;
      WellFormedReadable(e.left);
      if i < n { OperandsSmaller(o, e.left, i); } else { OperandsSmaller(o, e.right, i - n); }
    }
  }

  lemma OperandTextsNonEmpty(o: char, e: Expr)
    requires Readable(e)
    ensures forall p :: p in Texts(Operands(o, e)) ==> p != ""
  {
    var parts := Texts(Operands(o, e));
    forall p | p in parts ensures p != "" {
      var i :| 0 <= i < |parts| && parts[i] == p;
      OperandsSmaller(o, e, i);
      WriteShape(Operands(o, e)[i]);
    }
  }

  /** The splitter returns the texts of the operands of the outermost chain. */
  lemma SplitWritten(o: char, e: Expr)
    requires Splittable(o, e)
    ensures SplitTopLevel(o, Write(e)) == Texts(Operands(o, e))
  {
    PiecesOf(o, e, "");
    OperandTextsNonEmpty(o, e);
    NonEmptyAll(Texts(Operands(o, e)));
    if !ChainOf(o, e) { assert Texts([e]) == [Write(e)]; }
  }

  // ------------------------------------------------------------ evaluating it

  function Bare(e: Expr): (r: Expr)
    ensures !r.Group? && (r == e || r < e)
  {
    if e.Group? then Bare(e.inner) else e
  }

  lemma UnwrapStep(s: string)
    ensures Unwrapped(s) == if Wrapped(s) then Unwrapped(Trim(s[1..|s| - 1])) else s
  {
  }

  lemma {:induction false} UnwrapWritten(leaf: string -> bool, e: Expr)
    requires Readable(e)
    ensures Unwrapped(Write(e)) == Write(Bare(e)) && Readable(Bare(e)) && Meaning(leaf, Bare(e)) == Meaning(leaf, e)
    ensures Calls(Bare(e)) == Calls(e)
  {
    var t := Write(e);
    assert t != "" && (Wrapped(t) <==> e.Group?) by { WriteShape(e); }
    UnwrapStep(t);
    if e.Group? {
      WellFormedReadable(e.inner);
      assert Write(e.inner) != "" && Trimmed(Write(e.inner)) by { WriteShape(e.inner); }
      InsideGroup(e.before, Write(e.inner), e.after);
      UnwrapWritten(leaf, e.inner);
    }
  }

  lemma InsideGroup(before: string, t: string, after: string)
    requires Blank(before) && Blank(after) && Trimmed(t) && t != ""
    ensures var g := "(" + ((before + t + after) + ")"); Trim(g[1..|g| - 1]) == t
  {
    var g := "(" + ((before + t + after) + ")");
    assert g[1..|g| - 1] == before + t + after;
    TrimPadded(before, t, after);
  }

  function Meanings(leaf: string -> bool, es: seq<Expr>): (r: seq<bool>)
    ensures |r| == |es| && forall i :: 0 <= i < |es| ==> r[i] == Meaning(leaf, es[i])
  {
    if es == [] then [] else [Meaning(leaf, es[0])] + Meanings(leaf, es[1..])
  }

  lemma {:induction false} MeaningsAppend(leaf: string -> bool, a: seq<Expr>, b: seq<Expr>)
    ensures Meanings(leaf, a + b) == Meanings(leaf, a) + Meanings(leaf, b)
  {
  }

  lemma {:induction false} MeaningOfOr(leaf: string -> bool, e: Expr)
    ensures Meaning(leaf, e) <==> true in Meanings(leaf, Operands('|', e))
  {
    if e.Or? {
      MeaningOfOr(leaf, e.left);
      MeaningOfOr(leaf, e.right);
      MeaningsAppend(leaf, Operands('|', e.left), Operands('|', e.right));
    }
  }

  lemma {:induction false} MeaningOfAnd(leaf: string -> bool, e: Expr)
    ensures Meaning(leaf, e) <==> false !in Meanings(leaf, Operands('&', e))
  {
    if e.And? {
      MeaningOfAnd(leaf, e.left);
      MeaningOfAnd(leaf, e.right);
      MeaningsAppend(leaf, Operands('&', e.left), Operands('&', e.right));
    }
  }

  /** The texts a condition may be given as: blanks around it, with or without `eval:`. */
  function Given(before: string, eval: bool, pad: string, t: string, after: string): string {
    before + ((if eval then EVAL else "") + (pad + t)) + after
  }

  lemma StripGiven(before: string, eval: bool, pad: string, t: string, after: string)
    requires t != "" && Trimmed(t) && !StartsEval(t) && Blank(before) && Blank(pad) && Blank(after)
    ensures Trim(StripEval(Trim(Given(before, eval, pad, t, after)))) == t
  {
    if eval {
      var u := EVAL + (pad + t);
      assert u[|u| - 1] == t[|t| - 1];
      TrimPadded(before, u, after);
      assert u[..5] == EVAL && u[5..] == pad + t;
      TrimLeftPadded(pad, t);
    } else {
      assert Given(before, eval, pad, t, after) == (before + pad) + t + after;
      TrimPadded(before + pad, t, after);
    }
    TrimIdempotent(t);
  }

  lemma SourceWritten(leaf: string -> bool, e: Expr, before: string, eval: bool, pad: string, after: string)
    requires Readable(e) && Blank(before) && Blank(pad) && Blank(after)
    ensures Source(Given(before, eval, pad, Write(e), after)) == Write(Bare(e))
  {
    WriteShape(e);
    StripGiven(before, eval, pad, Write(e), after);
    TrimIdempotent(Write(e));
    UnwrapWritten(leaf, e);
  }

  lemma {:induction false} TrimLeftPadded(pad: string, t: string)
    requires Blank(pad) && t != "" && !IsSpace(t[0])
    ensures TrimLeft(pad + t) == t
  {
    if pad == "" {
      assert pad + t == t;
    } else {
      assert (pad + t)[1..] == pad[1..] + t;
      TrimLeftPadded(pad[1..], t);
    }
  }

  /** For every condition: evaluating any of its texts gives the boolean meaning of the tree, exactly
      when no atom looks like a call or the meaning is false anyway. */
  lemma EvaluateExactly(leaf: string -> bool, e: Expr, before: string, eval: bool, pad: string, after: string)
    requires Readable(e) && Blank(before) && Blank(pad) && Blank(after)
    ensures Evaluate(leaf, Given(before, eval, pad, Write(e), after)) <==> Meaning(leaf, e) && !Calls(e)
  {
    if Calls(e) {
      SourceWritten(leaf, e, before, eval, pad, after);
      UnwrapWritten(leaf, e);
      WriteShape(Bare(e));
    } else {
      EvaluateCorrect(leaf, e, before, eval, pad, after);
    }
  }

  /** Without such an atom, evaluating any of its texts gives the meaning. */
  lemma {:induction false} EvaluateCorrect(leaf: string -> bool, e: Expr, before: string, eval: bool, pad: string,
                                           after: string)
    requires Readable(e) && !Calls(e) && Blank(before) && Blank(pad) && Blank(after)
    ensures Evaluate(leaf, Given(before, eval, pad, Write(e), after)) == Meaning(leaf, e)
    decreases e, 1
  {
    SourceWritten(leaf, e, before, eval, pad, after);
    UnwrapWritten(leaf, e);
    var c := Bare(e);
    WriteShape(c);
    SplitWritten('|', c);
    if c.Or? {
      OperandsCorrect(leaf, '|', c);
      SomePart(leaf, Texts(Operands('|', c)), Meanings(leaf, Operands('|', c)),
        |Given(before, eval, pad, Write(e), after)|);
      MeaningOfOr(leaf, c);
    } else {
      SplitWritten('&', c);
      if c.And? {
        OperandsCorrect(leaf, '&', c);
        EveryPart(leaf, Texts(Operands('&', c)), Meanings(leaf, Operands('&', c)),
          |Given(before, eval, pad, Write(e), after)|);
        MeaningOfAnd(leaf, c);
      }
    }
  }

  lemma {:induction false} OperandsCorrect(leaf: string -> bool, o: char, c: Expr)
    requires Readable(c) && !Calls(c) && |Operands(o, c)| > 1
    ensures forall i :: 0 <= i < |Operands(o, c)| ==>
      Evaluate(leaf, Texts(Operands(o, c))[i]) == Meanings(leaf, Operands(o, c))[i]
    decreases c, 0
  {
    forall i | 0 <= i < |Operands(o, c)|
      ensures Evaluate(leaf, Texts(Operands(o, c))[i]) == Meanings(leaf, Operands(o, c))[i]
    {
      OperandsSmaller(o, c, i);
      var p := Operands(o, c)[i];
      EvaluateCorrect(leaf, p, "", false, "", "");
      assert Given("", false, "", Write(p), "") == Write(p);
    }
  }

  lemma {:induction false} SomePart(leaf: string -> bool, ts: seq<string>, values: seq<bool>, n: nat)
    requires |ts| == |values| && forall i :: 0 <= i < |ts| ==> Evaluate(leaf, ts[i]) == values[i]
    requires forall p :: p in ts ==> |p| < n
    ensures EvaluateSome(leaf, ts, n) <==> true in values
    decreases |ts|
  {
    if ts != [] {
      SomePart(leaf, ts[1..], values[1..], n);
    }
  }

  lemma {:induction false} EveryPart(leaf: string -> bool, ts: seq<string>, values: seq<bool>, n: nat)
    requires |ts| == |values| && forall i :: 0 <= i < |ts| ==> Evaluate(leaf, ts[i]) == values[i]
    requires forall p :: p in ts ==> |p| < n
    ensures EvaluateEvery(leaf, ts, n) <==> false !in values
    decreases |ts|
  {
    if ts != [] {
      EveryPart(leaf, ts[1..], values[1..], n);
    }
  }
}

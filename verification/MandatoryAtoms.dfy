/** The tests a `mandatory_depends_on` condition is made of: how they are written, how the evaluator's four
    regular expressions read them back, and which of them its scanner passes over unharmed. */
module MandatoryAtoms {
  import opened Text
  import opened MandatoryDependsOn

  // ------------------------------------------------------------------ tests and their texts

  datatype Literal = Quoted(quote: char, text: string) | Word(text: string) | Number(text: string)

  datatype Comparison = Strict | Loose | NotStrict | NotLoose

  /** One element of a list, with the blanks around it. */
  datatype Item = Item(before: string, literal: Literal, after: string)

  /** The accepted forms; the unnamed strings are blanks. */
  datatype Test =
    | Truth(negated: bool, field: string)
    | Bare(field: string)
    | Compare(field: string, l: string, op: Comparison, r: string, literal: Literal)
    | Membership(negated: bool, p: string, items: seq<Item>, q: string, r: string, field: string, t: string)

  const DOC := "doc."
  const IN_LIST := "in_list("

  function OpText(op: Comparison): string {
    match op
    case Strict => "==="
    case Loose => "=="
    case NotStrict => "!=="
    case NotLoose => "!="
  }

  function LiteralText(x: Literal): string {
    match x
    case Quoted(quote, text) => [quote] + (text + [quote])
    case Word(text) => text
    case Number(text) => text
  }

  function ItemText(i: Item): string {
    i.before + (LiteralText(i.literal) + i.after)
  }

  function ItemsText(items: seq<Item>): string {
    if items == [] then ""
    else if |items| == 1 then ItemText(items[0])
    else ItemText(items[0]) + ([','] + ItemsText(items[1..]))
  }

  function ListText(items: seq<Item>): string {
    ['['] + (ItemsText(items) + [']'])
  }

  /** What follows the list: a comma, the field and the closing parenthesis. */
  function TailText(q: string, r: string, field: string, t: string): string {
    q + ([','] + (r + (DOC + (field + (t + [')'])))))
  }

  function TestText(a: Test): string {
    match a
    case Truth(negated, field) => (if negated then "!" else "") + (DOC + field)
    case Bare(field) => field
    case Compare(field, l, op, r, literal) => DOC + (field + (l + (OpText(op) + (r + LiteralText(literal)))))
    case Membership(negated, p, items, q, r, field, t) =>
      (if negated then "!" else "") + (IN_LIST + (p + (ListText(items) + TailText(q, r, field, t))))
  }

  predicate IsName(s: string) {
    |s| > 0 && forall i :: 0 <= i < |s| ==> IsWord(s[i])
  }

  predicate IsDigits(s: string) {
    |s| > 0 && forall i :: 0 <= i < |s| ==> '0' <= s[i] <= '9'
  }

  predicate PointAt(m: string, k: nat) {
    k < |m| && m[k] == '.' && IsDigits(m[..k]) && IsDigits(m[k + 1..])
  }

  /** `-?\d+(?:\.\d+)?` */
  predicate IsNumber(s: string) {
    var m := if s != "" && s[0] == '-' then s[1..] else s;
    IsDigits(m) || exists k :: 0 <= k < |m| && PointAt(m, k)
  }

  predicate IsKeyword(s: string) {
    s == "true" || s == "false" || s == "null"
  }

  /** No line terminator, as `.` demands. */
  predicate OneLine(s: string) {
    forall i :: 0 <= i < |s| ==> s[i] != '\n' && s[i] != '\r' && s[i] != '\U{2028}' && s[i] != '\U{2029}'
  }

  predicate FineLiteral(x: Literal) {
    match x
    case Quoted(quote, text) => IsQuote(quote) && OneLine(text)
    case Word(text) => IsKeyword(text)
    case Number(text) => IsNumber(text)
  }

  predicate FineTest(a: Test) {
    match a
    case Truth(_, field) => IsName(field)
    case Bare(field) => IsName(field)
    case Compare(field, l, _, r, literal) => IsName(field) && Blank(l) && Blank(r) && FineLiteral(literal)
    case Membership(_, p, items, q, r, field, t) =>
      && IsName(field) && Blank(p) && Blank(q) && Blank(r) && Blank(t)
      && forall i :: 0 <= i < |items| ==>
           Blank(items[i].before) && Blank(items[i].after) && FineLiteral(items[i].literal)
  }

  // ------------------------------------------------------------------ what they mean

  /** The document's values as the tests see them: the truth of a field, its equality with a literal, and
      its membership in a list, given by its text; None when that is no list of literals. */
  datatype Document = Document(
    truthy: string -> bool, equals: (string, Literal) -> bool, contains: (string, string) -> Option<bool>)

  function TestMeaning(d: Document, a: Test): bool {
    match a
    case Truth(negated, field) => d.truthy(field) != negated
    case Bare(field) => d.truthy(field)
    case Compare(field, _, op, _, literal) => d.equals(field, literal) == (op == Strict || op == Loose)
    case Membership(negated, _, items, _, _, field, _) =>
      var found := d.contains(ListText(items), field);
      found.Some? && found.value != negated
  }

  // ------------------------------------------------------------------ reading them

  predicate Starts(s: string, prefix: string) {
    |s| >= |prefix| && s[..|prefix|] == prefix
  }

  /** The longest name at the start. */
  function NameAt(s: string): (r: string)
    ensures |r| <= |s| && s[..|r|] == r
  {
    if s != "" && IsWord(s[0]) then [s[0]] + NameAt(s[1..]) else ""
  }

  function LastIndex(s: string, c: char): (n: nat)
    requires c in s
    ensures n < |s| && s[n] == c && forall j :: n < j < |s| ==> s[j] != c
  {
    if s[|s| - 1] == c then |s| - 1
    else
      assert c in s[..|s| - 1];
      LastIndex(s[..|s| - 1], c)
  }

  /** A comma, the field and the closing parenthesis. */
  function ReadTail(tail: string): Option<string> {
    var a := TrimLeft(tail);
    if a == "" || a[0] != ',' then None
    else
      var b := TrimLeft(a[1..]);
      if !Starts(b, DOC) then None
      else
        var name := NameAt(b[4..]);
        if name != "" && TrimLeft(b[4..][|name|..]) == ")" then Some(name) else None
  }

  datatype Read = Found(list: string, field: string) | NoMatch

  /** After `in_list(`: the list, which ends at the last bracket, and the rest. */
  function ReadArguments(rest: string): Read {
    if rest == "" || rest[0] != '[' || ']' !in rest then NoMatch
    else
      var n := LastIndex(rest, ']');
      var field := ReadTail(rest[n + 1..]);
      if field.None? then NoMatch else Found(rest[..n + 1], field.value)
  }

  predicate Negated(src: string) {
    src != "" && src[0] == '!'
  }

  /** The membership expression. */
  function ReadMembership(src: string): Read {
    var body := if Negated(src) then src[1..] else src;
    if Starts(body, IN_LIST) then ReadArguments(TrimLeft(body[8..])) else NoMatch
  }

  function ReadOp(s: string): Option<Comparison> {
    if Starts(s, "===") then Some(Strict)
    else if Starts(s, "==") then Some(Loose)
    else if Starts(s, "!==") then Some(NotStrict)
    else if Starts(s, "!=") then Some(NotLoose)
    else None
  }

  function ReadLiteral(s: string): Option<Literal> {
    if |s| >= 2 && IsQuote(s[0]) && s[|s| - 1] == s[0] && OneLine(s[1..|s| - 1]) then Some(Quoted(s[0], s[1..|s| - 1]))
    else if IsKeyword(s) then Some(Word(s))
    else if IsNumber(s) then Some(Number(s))
    else None
  }

  datatype Compared = Compared(field: string, op: Comparison, literal: Literal)

  /** The comparison expression. */
  function ReadComparison(src: string): Option<Compared> {
    if !Starts(src, DOC) then None
    else
      var field := NameAt(src[4..]);
      var rest := TrimLeft(src[4..][|field|..]);
      var op := ReadOp(rest);
      if field == "" || op.None? then None
      else
        var literal := ReadLiteral(TrimLeft(rest[|OpText(op.value)|..]));
        if literal.None? then None else Some(Compared(field, op.value, literal.value))
  }

  /** What the evaluator makes of a text without top-level operators: the four expressions in turn. */
  function Decide(d: Document, src: string): bool {
    var member := ReadMembership(src);
    var compared := ReadComparison(src);
    if member.Found? then
      var found := d.contains(member.list, member.field);
      found.Some? && found.value != Negated(src)
    else if compared.Some? then
      d.equals(compared.value.field, compared.value.literal) ==
        (compared.value.op == Strict || compared.value.op == Loose)
    else if Starts(src, "!doc.") && IsName(src[5..]) then !d.truthy(src[5..])
    else if Starts(src, DOC) && IsName(src[4..]) then d.truthy(src[4..])
    else IsName(src) && d.truthy(src)
  }

  // ------------------------------------------------------------------ they read back

  lemma {:induction false} NameAtName(name: string, rest: string)
    requires (forall i :: 0 <= i < |name| ==> IsWord(name[i])) && (rest == "" || !IsWord(rest[0]))
    ensures NameAt(name + rest) == name
    decreases |name|
  {
    if name == "" {
      assert name + rest == rest;
    } else {
      assert (name + rest)[1..] == name[1..] + rest;
      NameAtName(name[1..], rest);
    }
  }

  lemma SkipPad(pad: string, t: string)
    requires Blank(pad) && t != "" && !IsSpace(t[0])
    ensures TrimLeft(pad + t) == t
  {
    TrimLeftPadded(pad, t);
  }

  lemma StartsWith(prefix: string, rest: string)
    ensures Starts(prefix + rest, prefix) && (prefix + rest)[|prefix|..] == rest
  {
  }

  /** A text that differs from the prefix somewhere does not start with it. */
  lemma Differs(s: string, prefix: string, k: nat)
    requires k < |prefix| && (k < |s| ==> s[k] != prefix[k])
    ensures !Starts(s, prefix)
  {
    if |s| >= |prefix| { assert s[..|prefix|][k] == s[k]; }
  }

  /** After the field: blanks, then a character that is neither blank nor part of a name. */
  lemma PaddedHead(pad: string, t: string)
    requires Blank(pad) && t != "" && !IsWord(t[0])
    ensures pad + t != "" && !IsWord((pad + t)[0])
  {
    if pad != "" { assert IsSpace(pad[0]); }
  }

  lemma TailReads(q: string, r: string, field: string, t: string)
    requires IsName(field) && Blank(q) && Blank(r) && Blank(t)
    ensures ReadTail(TailText(q, r, field, t)) == Some(field)
  {
    var end := t + [')'];
    var b := DOC + (field + end);
    var a := [','] + (r + b);
    SkipPad(q, a);
    assert a[1..] == r + b;
    SkipPad(r, b);
    StartsWith(DOC, field + end);
    PaddedHead(t, [')']);
    NameAtName(field, end);
    assert (field + end)[|field|..] == end;
    SkipPad(t, [')']);
  }

  lemma TailPlain(q: string, r: string, field: string, t: string, k: nat)
    requires IsName(field) && Blank(q) && Blank(r) && Blank(t) && k < |TailText(q, r, field, t)|
    ensures var c := TailText(q, r, field, t)[k];
      IsSpace(c) || IsWord(c) || c == ',' || c == '.' || c == ')'
  {
    var end := t + [')'];
    var b := DOC + (field + end);
    var c1 := r + b;
    if k < |q| { assert TailText(q, r, field, t)[k] == q[k]; }
    else if k > |q| {
      var i := k - |q| - 1;
      assert TailText(q, r, field, t)[k] == c1[i];
      if i < |r| { assert c1[i] == r[i]; } else { FieldPlain(field, t, i - |r|); }
    }
  }

  lemma FieldPlain(field: string, t: string, k: nat)
    requires IsName(field) && Blank(t) && k < |DOC + (field + (t + [')']))|
    ensures var c := (DOC + (field + (t + [')'])))[k];
      IsSpace(c) || IsWord(c) || c == '.' || c == ')'
  {
    var end := t + [')'];
    if k >= 4 {
      var i := k - 4;
      assert (DOC + (field + end))[k] == (field + end)[i];
      if i >= |field| { assert (field + end)[i] == end[i - |field|]; }
    }
  }

  lemma MembershipReads(a: Test)
    requires FineTest(a) && a.Membership?
    ensures ReadMembership(TestText(a)) == Found(ListText(a.items), a.field) && Negated(TestText(a)) == a.negated
  {
    var list := ListText(a.items);
    var rest := list + TailText(a.q, a.r, a.field, a.t);
    var body := IN_LIST + (a.p + rest);
    assert TestText(a) == (if a.negated then "!" else "") + body;
    assert body[0] == 'i' && (a.negated ==> TestText(a)[1..] == body) && (!a.negated ==> TestText(a) == body);
    StartsWith(IN_LIST, a.p + rest);
    SkipPad(a.p, rest);
    ArgumentsRead(list, a.q, a.r, a.field, a.t);
  }

  lemma ArgumentsRead(list: string, q: string, r: string, field: string, t: string)
    requires list != "" && list[0] == '[' && list[|list| - 1] == ']' && IsName(field) && Blank(q) && Blank(r)
      && Blank(t)
    ensures ReadArguments(list + TailText(q, r, field, t)) == Found(list, field)
  {
    ListEnds(list, q, r, field, t);
    TailReads(q, r, field, t);
  }

  /** The last bracket is the one that ends the list. */
  lemma ListEnds(list: string, q: string, r: string, field: string, t: string)
    requires list != "" && list[|list| - 1] == ']' && IsName(field) && Blank(q) && Blank(r) && Blank(t)
    ensures var tail := TailText(q, r, field, t); var rest := list + tail;
      && ']' in rest && LastIndex(rest, ']') == |list| - 1
      && rest[..|list|] == list && rest[|list|..] == tail
  {
    var rest := list + TailText(q, r, field, t);
    assert rest[|list| - 1] == ']';
    forall j | |list| <= j < |rest| ensures rest[j] != ']' { TailPlain(q, r, field, t, j - |list|); }
  }

  lemma PointHead(s: string, k: nat)
    requires PointAt(s, k)
    ensures '0' <= s[0] <= '9'
  {
    assert s[..k][0] == s[0];
  }

  lemma NumberHead(s: string)
    requires IsNumber(s)
    ensures s != "" && (s[0] == '-' || '0' <= s[0] <= '9')
  {
    if s != "" && s[0] != '-' && !IsDigits(s) {
      var k :| 0 <= k < |s| && PointAt(s, k);
      PointHead(s, k);
    }
  }

  lemma LiteralHead(x: Literal)
    requires FineLiteral(x)
    ensures var t := LiteralText(x); t != "" && !IsSpace(t[0]) && t[0] != '='
  {
    match x {
      case Quoted(quote, text) => assert LiteralText(x)[0] == quote;
      case Word(text) => assert text[0] == 't' || text[0] == 'f' || text[0] == 'n';
      case Number(text) => NumberHead(text);
    }
  }

  lemma LiteralReads(x: Literal)
    requires FineLiteral(x)
    ensures ReadLiteral(LiteralText(x)) == Some(x)
  {
    match x {
      case Quoted(quote, text) => assert LiteralText(x)[1..|LiteralText(x)| - 1] == text;
      case Word(text) =>
      case Number(text) => NumberHead(text);
    }
  }

  lemma OpReads(op: Comparison, rest: string)
    requires rest != "" && rest[0] != '='
    ensures ReadOp(OpText(op) + rest) == Some(op)
  {
    var s := OpText(op) + rest;
    StartsWith(OpText(op), rest);
    if op == Loose || op == NotLoose { assert s[2] == rest[0]; }
    if op != Strict { Differs(s, "===", if op == Loose then 2 else 0); }
    if op == NotStrict || op == NotLoose { Differs(s, "==", 0); }
    if op == NotLoose { Differs(s, "!==", 2); }
  }

  /** A comparison is read up to its operand, whatever that is. */
  lemma OperandRead(field: string, l: string, op: Comparison, r: string, z: string)
    requires IsName(field) && Blank(l) && Blank(r) && z != "" && !IsSpace(z[0]) && z[0] != '='
    ensures var literal := ReadLiteral(z);
      ReadComparison(DOC + (field + (l + (OpText(op) + (r + z))))) ==
      if literal.None? then None else Some(Compared(field, op, literal.value))
  {
    var rest := OpText(op) + (r + z);
    if r != "" { assert IsSpace(r[0]); }
    assert (r + z)[0] == if r == "" then z[0] else r[0];
    OpReads(op, r + z);
    StartsWith(DOC, field + (l + rest));
    PaddedHead(l, rest);
    NameAtName(field, l + rest);
    assert (field + (l + rest))[|field|..] == l + rest;
    SkipPad(l, rest);
    StartsWith(OpText(op), r + z);
    SkipPad(r, z);
  }

  lemma ComparisonReads(a: Test)
    requires FineTest(a) && a.Compare?
    ensures ReadComparison(TestText(a)) == Some(Compared(a.field, a.op, a.literal))
  {
    LiteralHead(a.literal);
    LiteralReads(a.literal);
    OperandRead(a.field, a.l, a.op, a.r, LiteralText(a.literal));
  }

  /** Names contain neither a point nor a parenthesis. */
  lemma NameNoStart(s: string, prefix: string)
    requires IsName(s) && (prefix == DOC || prefix == IN_LIST || prefix == "!doc.")
    ensures !Starts(s, prefix)
  {
    Differs(s, prefix, |prefix| - 1);
  }

  lemma TruthReads(d: Document, a: Test)
    requires FineTest(a) && (a.Truth? || a.Bare?)
    ensures Decide(d, TestText(a)) == TestMeaning(d, a)
  {
    var s := TestText(a);
    if a.Bare? {
      NameNoStart(s, DOC);
      NameNoStart(s, IN_LIST);
      NameNoStart(s, "!doc.");
    } else {
      DocReads(a.field);
      Differs(DOC + a.field, IN_LIST, 0);
      if a.negated {
        assert s[1..] == DOC + a.field && s[5..] == a.field && s[..5] == "!doc.";
        Differs(s, DOC, 0);
      } else {
        assert s == DOC + a.field;
        Differs(s, "!doc.", 0);
      }
    }
  }

  lemma DocReads(field: string)
    requires IsName(field)
    ensures (DOC + field)[4..] == field && Starts(DOC + field, DOC) && ReadComparison(DOC + field).None?
  {
    StartsWith(DOC, field);
    NameAtName(field, "");
    assert field + "" == field && field[|field|..] == "";
    Differs("", "===", 0);
  }

  /** Every test is read back as it was written, quotes or not: what is decided is what it means. */
  lemma TestReadsBack(d: Document, a: Test)
    requires FineTest(a)
    ensures Decide(d, TestText(a)) == TestMeaning(d, a)
  {
    match a {
      case Membership(_, _, _, _, _, _, _) => MembershipReads(a);
      case Compare(_, _, _, _, _) =>
        ComparisonReads(a);
        Differs(TestText(a), IN_LIST, 0);
      case _ => TruthReads(d, a);
    }
  }
}

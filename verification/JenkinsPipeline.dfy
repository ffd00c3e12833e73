/** Inline Pipeline scripts inside a Jenkins job's XML. */
module JenkinsPipeline {
  import opened Text

  // ------------------------------------------------------- String.prototype

  predicate StartsWith(s: string, p: string) {
    |p| <= |s| && s[..|p|] == p
  }

  lemma Differs(s: string, p: string, i: nat)
    requires i < |s| && i < |p| && s[i] != p[i]
    ensures !StartsWith(s, p)
  {
    assert |p| <= |s| ==> s[..|p|][i] == s[i];
  }

  /** `replaceAll` with a text pattern. */
  function ReplaceAll(s: string, pattern: string, sub: string): string
    requires pattern != ""
  {
    if s == "" then ""
    else if StartsWith(s, pattern) then sub + ReplaceAll(s[|pattern|..], pattern, sub)
    else [s[0]] + ReplaceAll(s[1..], pattern, sub)
  }

  predicate Occurs(s: string, tag: string, i: int) {
    0 <= i && i + |tag| <= |s| && s[i..i + |tag|] == tag
  }

  ghost predicate FirstAt(s: string, tag: string, i: int) {
    Occurs(s, tag, i) && forall k :: 0 <= k < i ==> !Occurs(s, tag, k)
  }

  /** Position of the first occurrence. */
  ghost function Find(s: string, tag: string): (r: Option<int>)
    ensures r.Some? ==> FirstAt(s, tag, r.value)
  {
    if exists i :: FirstAt(s, tag, i) then
      var i :| FirstAt(s, tag, i);
      Some(i)
    else None
  }

  lemma FindIs(s: string, tag: string, i: int)
    requires FirstAt(s, tag, i)
    ensures Find(s, tag) == Some(i)
  {
    var j := Find(s, tag).value;
    assert !(j < i) && !(i < j);
  }

  /** Nothing is found only where the tag does not occur. */
  lemma {:induction false} FindComplete(s: string, tag: string, i: nat)
    requires Find(s, tag).None?
    ensures !Occurs(s, tag, i)
    decreases i
  {
    forall k | 0 <= k < i ensures !Occurs(s, tag, k) { FindComplete(s, tag, k); }
    assert !FirstAt(s, tag, i);
  }

  // ------------------------------------------------------------ the repository

  const OPEN := "<script>"
  const CLOSE := "</script>"

  /** `escapeXml`. */
  function EscapeXml(value: string): string {
    ReplaceAll(ReplaceAll(ReplaceAll(value, "&", "&amp;"), "<", "&lt;"), ">", "&gt;")
  }

  /** The five replacements of `scriptFromConfig`, in its order. */
  function Unescape(text: string): string {
    ReplaceAll(ReplaceAll(ReplaceAll(ReplaceAll(ReplaceAll(text, "&lt;", "<"), "&gt;", ">"), "&quot;", "\""), "&apos;",
      "'"), "&amp;", "&")
  }

  datatype Match = Match(before: string, content: string, after: string)

  /** The first match of a lazy pattern for everything between two tags. */
  ghost function MatchBetween(xml: string, open: string, close: string): Option<Match> {
    match Find(xml, open)
    case None => None
    case Some(i) =>
      var rest := xml[i + |open|..];
      match Find(rest, close)
      case None => None
      case Some(j) => Some(Match(xml[..i], rest[..j], rest[j + |close|..]))
  }

  ghost function MatchScript(xml: string): Option<Match> {
    MatchBetween(xml, OPEN, CLOSE)
  }

  /** `scriptFromConfig`. */
  ghost function ScriptFromConfig(xml: string): Option<string> {
    match MatchScript(xml)
    case None => None
    case Some(m) => Some(Unescape(m.content))
  }

  /** The constant text before the script element, in pieces. */
  const PROLOG_PIECES: seq<string> := [
    "<?xml version='1.1' ", "encoding='UTF-8'?>\n",
    "<flow-definition ", "plugin=\"workflow-job\">\n",
    "  <actions/>\n", "  <description>",
    "Managed through Muster ", "governed Jenkins integration.", "</description>\n",
    "  <keepDependencies>", "false</keepDependencies>\n",
    "  <properties/>\n", "  <definition class=",
    "\"org.jenkinsci.plugins.", "workflow.cps.CpsFlowDefinition", "\" plugin=\"workflow-cps\">\n", "    "]

  function Concat(pieces: seq<string>): string {
    if pieces == [] then "" else pieces[0] + Concat(pieces[1..])
  }

  const PROLOG := Concat(PROLOG_PIECES)

  const EPILOG :=
    "\n    <sandbox>true</sandbox>\n  </definition>\n  <triggers/>\n  <disabled>false</disabled>\n</flow-definition>\n"

  /** `workflowXml`. */
  function WorkflowXml(script: string): string {
    PROLOG + (OPEN + (EscapeXml(script) + (CLOSE + EPILOG)))
  }

  /** The replacement text as `String.prototype.replace` reads it, for a pattern without groups. */
  function Expand(text: string, matched: string, before: string, after: string): string {
    if text == "" then ""
    else if text[0] == '$' && |text| > 1 then
      if text[1] == '$' then "$" + Expand(text[2..], matched, before, after)
      else if text[1] == '&' then matched + Expand(text[2..], matched, before, after)
      else if text[1] == '`' then before + Expand(text[2..], matched, before, after)
      else if text[1] == '\'' then after + Expand(text[2..], matched, before, after)
      else [text[0]] + Expand(text[1..], matched, before, after)
    else [text[0]] + Expand(text[1..], matched, before, after)
  }

  /** `pipelineXml`. */
  ghost function PipelineXml(found: bool, xml: string, script: string): Result<string, string> {
    if !found then Ok(WorkflowXml(script))
    else if ScriptFromConfig(xml) == Some(script) then Ok(xml)
    else match MatchScript(xml)
      case None => Err("Existing Jenkins job is not an inline Pipeline script.")
      case Some(m) =>
        Ok(m.before + Expand(OPEN + (EscapeXml(script) + CLOSE), OPEN + m.content + CLOSE, m.before, m.after) + m.after)
  }

  /** The script element of an inline Pipeline: an opening tag with a closing tag somewhere behind it. */
  predicate HasScriptElement(xml: string) {
    exists i, j :: 0 <= i && i + |OPEN| <= j <= |xml| && Occurs(xml, OPEN, i) && Occurs(xml, CLOSE, j)
  }

  lemma MatchedElement(xml: string)
    ensures MatchScript(xml).Some? <==> HasScriptElement(xml)
  {
    if MatchScript(xml).Some? {
      var i := Find(xml, OPEN).value;
      var rest := xml[i + |OPEN|..];
      var j := Find(rest, CLOSE).value;
      assert rest[j..j + |CLOSE|] == xml[i + |OPEN| + j..i + |OPEN| + j + |CLOSE|];
      assert Occurs(xml, OPEN, i) && Occurs(xml, CLOSE, i + |OPEN| + j);
    }
    if HasScriptElement(xml) {
      var i, j :| 0 <= i && i + |OPEN| <= j <= |xml| && Occurs(xml, OPEN, i) && Occurs(xml, CLOSE, j);
      assert Find(xml, OPEN).Some? by { if Find(xml, OPEN).None? { FindComplete(xml, OPEN, i); } }
      CloseFound(xml, Find(xml, OPEN).value, i, j);
    }
  }

  /** A closing tag behind some opening tag is behind the first one. */
  lemma CloseFound(xml: string, first: int, i: int, j: int)
    requires FirstAt(xml, OPEN, first) && 0 <= i && i + |OPEN| <= j && Occurs(xml, OPEN, i) && Occurs(xml, CLOSE, j)
    ensures Find(xml[first + |OPEN|..], CLOSE).Some?
  {
    var rest := xml[first + |OPEN|..];
    var k := j - first - |OPEN|;
    assert first <= i;
    assert rest[k..k + |CLOSE|] == xml[j..j + |CLOSE|];
    assert Occurs(rest, CLOSE, k);
    if Find(rest, CLOSE).None? { FindComplete(rest, CLOSE, k); }
  }

  /** Writing refuses exactly an existing job without such an element. */
  lemma PipelineRefusesIff(found: bool, xml: string, script: string)
    ensures PipelineXml(found, xml, script).Err? <==> found && !HasScriptElement(xml)
  {
    MatchedElement(xml);
  }

  // ------------------------------------------------------- escaping, one by one

  /** How a character is written after `k` of the replacements that undo the escape. */
  function Entity(k: nat, c: char): string {
    if c == '&' && k < 3 then "&amp;"
    else if c == '<' && k < 1 then "&lt;"
    else if c == '>' && k < 2 then "&gt;"
    else [c]
  }

  function Entities(k: nat, s: string): string {
    if s == "" then "" else Entity(k, s[0]) + Entities(k, s[1..])
  }

  lemma Assoc(a: string, b: string, c: string)
    ensures (a + b) + c == a + (b + c)
  {
  }

  lemma {:induction false} EntitiesAppend(k: nat, a: string, b: string)
    ensures Entities(k, a + b) == Entities(k, a) + Entities(k, b)
  {
    if a == "" {
      assert a + b == b;
    } else {
      assert (a + b)[1..] == a[1..] + b;
      EntitiesAppend(k, a[1..], b);
      Assoc(Entity(k, a[0]), Entities(k, a[1..]), Entities(k, b));
    }
  }

  /** Replacing single characters works piecewise. */
  lemma {:induction false} ReplaceCharAppend(a: string, b: string, p: char, sub: string)
    ensures ReplaceAll(a + b, [p], sub) == ReplaceAll(a, [p], sub) + ReplaceAll(b, [p], sub)
  {
    if a == "" {
      assert a + b == b;
    } else {
      assert (a + b)[1..] == a[1..] + b;
      ReplaceCharAppend(a[1..], b, p, sub);
    }
  }

  lemma ReplaceOneChar(c: char, p: char, sub: string)
    ensures ReplaceAll([c], [p], sub) == if c == p then sub else [c]
  {
    assert [c][1..] == "";
  }

  lemma {:induction false} ReplaceCharAbsent(a: string, p: char, sub: string)
    requires p !in a
    ensures ReplaceAll(a, [p], sub) == a
  {
    if a != "" { ReplaceCharAbsent(a[1..], p, sub); }
  }

  /** Escaping writes every character as its entity. */
  lemma {:induction false} EscapeIsEntities(s: string)
    ensures EscapeXml(s) == Entities(0, s)
  {
    if s != "" {
      var c, t := s[0], s[1..];
      assert s == [c] + t;
      EscapeIsEntities(t);
      ReplaceCharAppend([c], t, '&', "&amp;");
      ReplaceOneChar(c, '&', "&amp;");
      var c1, t1 := ReplaceAll([c], "&", "&amp;"), ReplaceAll(t, "&", "&amp;");
      ReplaceCharAppend(c1, t1, '<', "&lt;");
      ReplaceOneChar(c, '<', "&lt;");
      ReplaceCharAbsent("&amp;", '<', "&lt;");
      var c2, t2 := ReplaceAll(c1, "<", "&lt;"), ReplaceAll(t1, "<", "&lt;");
      ReplaceCharAppend(c2, t2, '>', "&gt;");
      ReplaceOneChar(c, '>', "&gt;");
      ReplaceCharAbsent("&amp;", '>', "&gt;");
      ReplaceCharAbsent("&lt;", '>', "&gt;");
    }
  }

  /** A pattern that starts with '&' passes over a text without one. */
  lemma {:induction false} PassOver(t: string, x: string, pattern: string, sub: string)
    requires pattern != "" && pattern[0] == '&' && '&' !in t
    ensures ReplaceAll(t + x, pattern, sub) == t + ReplaceAll(x, pattern, sub)
  {
    if t == "" {
      assert t + x == x;
    } else {
      assert (t + x)[1..] == t[1..] + x && (t + x)[0] == t[0];
      assert !StartsWith(t + x, pattern);
      PassOver(t[1..], x, pattern, sub);
      Assoc([t[0]], t[1..], ReplaceAll(x, pattern, sub));
    }
  }

  /** An entity different from the pattern is passed over. */
  lemma PassEntity(t: string, x: string, pattern: string, sub: string, i: nat)
    requires pattern != "" && pattern[0] == '&' && t != "" && t[0] == '&' && '&' !in t[1..]
    requires i < |t| && i < |pattern| && t[i] != pattern[i]
    ensures ReplaceAll(t + x, pattern, sub) == t + ReplaceAll(x, pattern, sub)
  {
    assert (t + x)[i] == t[i];
    Differs(t + x, pattern, i);
    assert (t + x)[1..] == t[1..] + x;
    PassOver(t[1..], x, pattern, sub);
    assert t == [t[0]] + t[1..];
    Assoc([t[0]], t[1..], ReplaceAll(x, pattern, sub));
  }

  lemma TakeEntity(x: string, pattern: string, sub: string)
    requires pattern != ""
    ensures ReplaceAll(pattern + x, pattern, sub) == sub + ReplaceAll(x, pattern, sub)
  {
    assert (pattern + x)[..|pattern|] == pattern && (pattern + x)[|pattern|..] == x;
  }

  /** The replacements in order, and how far the escape is undone before and after each. */
  function Pattern(step: nat): string
    requires step < 5
  {
    ["&lt;", "&gt;", "&quot;", "&apos;", "&amp;"][step]
  }

  function By(step: nat): string
    requires step < 5
  {
    ["<", ">", "\"", "'", "&"][step]
  }

  function Undone(step: nat): nat
    requires step <= 5
  {
    [0, 1, 2, 2, 2, 3][step]
  }

  lemma UndoOne(step: nat, c: char, x: string)
    requires step < 5
    ensures ReplaceAll(Entity(Undone(step), c) + x, Pattern(step), By(step))
         == Entity(Undone(step + 1), c) + ReplaceAll(x, Pattern(step), By(step))
  {
    var t, pattern, sub := Entity(Undone(step), c), Pattern(step), By(step);
    if t == pattern {
      TakeEntity(x, pattern, sub);
    } else if |t| == 1 {
      PassOver(t, x, pattern, sub);
    } else {
      PassEntity(t, x, pattern, sub, if t[1] != pattern[1] then 1 else 2);
    }
  }

  lemma {:induction false} UndoAll(step: nat, s: string, x: string)
    requires step < 5
    ensures ReplaceAll(Entities(Undone(step), s) + x, Pattern(step), By(step))
         == Entities(Undone(step + 1), s) + ReplaceAll(x, Pattern(step), By(step))
  {
    if s == "" {
      assert "" + x == x;
    } else {
      var e, es := Entity(Undone(step), s[0]), Entities(Undone(step), s[1..]);
      Assoc(e, es, x);
      UndoOne(step, s[0], es + x);
      UndoAll(step, s[1..], x);
      Assoc(Entity(Undone(step + 1), s[0]), Entities(Undone(step + 1), s[1..]), ReplaceAll(x, Pattern(step), By(step)));
    }
  }

  lemma {:induction false} EntitiesDone(s: string)
    ensures Entities(3, s) == s
  {
    if s != "" { EntitiesDone(s[1..]); }
  }

  /** Unescaping undoes the escape of a front part whatever follows it. */
  lemma UnescapeEscaped(s: string, x: string)
    ensures Unescape(EscapeXml(s) + x) == s + Unescape(x)
  {
    EscapeIsEntities(s);
    UndoAll(0, s, x);
    var x1 := ReplaceAll(x, "&lt;", "<");
    UndoAll(1, s, x1);
    var x2 := ReplaceAll(x1, "&gt;", ">");
    UndoAll(2, s, x2);
    var x3 := ReplaceAll(x2, "&quot;", "\"");
    UndoAll(3, s, x3);
    var x4 := ReplaceAll(x3, "&apos;", "'");
    UndoAll(4, s, x4);
    EntitiesDone(s);
  }

  /** Five global replacements in sequence undo the escape of every text. */
  lemma UnescapeInvertsEscape(s: string)
    ensures Unescape(EscapeXml(s)) == s
  {
    UnescapeEscaped(s, "");
    assert EscapeXml(s) + "" == EscapeXml(s) && s + "" == s;
  }

  // --------------------------------------------------------- finding the element

  /** No tag that starts like a script element begins in `p`. */
  predicate NoScriptTag(p: string) {
    (forall k :: 0 <= k < |p| - 1 && p[k] == '<' ==> p[k + 1] != 's') && (p == "" || p[|p| - 1] != '<')
  }

  lemma NoScriptTagAppend(p: string, q: string)
    requires NoScriptTag(p) && NoScriptTag(q)
    ensures NoScriptTag(p + q)
  {
    var s := p + q;
    forall k | 0 <= k < |s| - 1 && s[k] == '<' ensures s[k + 1] != 's' {
      if k < |p| { assert p[k] == '<' && k < |p| - 1; } else { assert q[k - |p|] == '<'; }
    }
  }

  lemma {:induction false} ConcatHasNoScriptTag(pieces: seq<string>)
    requires forall i :: 0 <= i < |pieces| ==> NoScriptTag(pieces[i])
    ensures NoScriptTag(Concat(pieces))
  {
    if pieces != [] {
      ConcatHasNoScriptTag(pieces[1..]);
      NoScriptTagAppend(pieces[0], Concat(pieces[1..]));
    }
  }

  lemma PrologHasNoScriptTag()
    ensures NoScriptTag(PROLOG)
  {
    PiecesTo5();
    PiecesTo9();
    PiecesTo13();
    PiecesTo15();
    PiecesTo17();
    ConcatHasNoScriptTag(PROLOG_PIECES);
  }

  lemma PiecesTo5()
    ensures forall i :: 0 <= i < 5 ==> NoScriptTag(PROLOG_PIECES[i])
  {
    assert NoScriptTag(PROLOG_PIECES[0]) && NoScriptTag(PROLOG_PIECES[1]) && NoScriptTag(PROLOG_PIECES[2]);
    assert NoScriptTag(PROLOG_PIECES[3]) && NoScriptTag(PROLOG_PIECES[4]);
  }

  lemma PiecesTo9()
    ensures forall i :: 5 <= i < 9 ==> NoScriptTag(PROLOG_PIECES[i])
  {
    assert NoScriptTag(PROLOG_PIECES[5]) && NoScriptTag(PROLOG_PIECES[6]);
    assert NoScriptTag(PROLOG_PIECES[7]) && NoScriptTag(PROLOG_PIECES[8]);
  }

  lemma PiecesTo13()
    ensures forall i :: 9 <= i < 13 ==> NoScriptTag(PROLOG_PIECES[i])
  {
    assert NoScriptTag(PROLOG_PIECES[9]) && NoScriptTag(PROLOG_PIECES[10]);
    assert NoScriptTag(PROLOG_PIECES[11]) && NoScriptTag(PROLOG_PIECES[12]);
  }

  lemma PiecesTo15()
    ensures forall i :: 13 <= i < 15 ==> NoScriptTag(PROLOG_PIECES[i])
  {
    assert NoScriptTag(PROLOG_PIECES[13]) && NoScriptTag(PROLOG_PIECES[14]);
  }

  lemma PiecesTo17()
    ensures forall i :: 15 <= i < |PROLOG_PIECES| ==> NoScriptTag(PROLOG_PIECES[i])
  {
    assert NoScriptTag(PROLOG_PIECES[15]) && NoScriptTag(PROLOG_PIECES[16]);
  }

  lemma FindOpenAfter(p: string, x: string)
    requires NoScriptTag(p)
    ensures Find(p + (OPEN + x), OPEN) == Some(|p|)
  {
    var s := p + (OPEN + x);
    forall k | 0 <= k < |p| ensures !Occurs(s, OPEN, k) {
      assert s[k] == p[k] && s[k + 1] == if k + 1 < |p| then p[k + 1] else '<';
      OccursAt(s, OPEN, k, 0);
      OccursAt(s, OPEN, k, 1);
    }
    SplitAt(p, OPEN, x);
    FindIs(s, OPEN, |p|);
  }

  lemma OccursAt(s: string, tag: string, k: int, d: nat)
    requires d < |tag|
    ensures Occurs(s, tag, k) ==> s[k + d] == tag[d]
  {
    assert Occurs(s, tag, k) ==> s[k..k + |tag|][d] == s[k + d];
  }

  /** The first occurrence of a tag does not depend on what follows the tag. */
  lemma FindStable(p: string, tag: string, x: string, y: string)
    requires Find(p + (tag + x), tag) == Some(|p|)
    ensures Find(p + (tag + y), tag) == Some(|p|)
  {
    var s, t := p + (tag + x), p + (tag + y);
    forall k | 0 <= k < |p| ensures !Occurs(t, tag, k) {
      assert !Occurs(s, tag, k);
      assert s[k..k + |tag|] == (p + tag)[k..k + |tag|] == t[k..k + |tag|];
    }
    SplitAt(p, tag, y);
    FindIs(t, tag, |p|);
  }

  lemma FindCloseAfter(p: string, x: string)
    requires '<' !in p
    ensures Find(p + (CLOSE + x), CLOSE) == Some(|p|)
  {
    var s := p + (CLOSE + x);
    forall k | 0 <= k < |p| ensures !Occurs(s, CLOSE, k) {
      assert s[k] == p[k];
      OccursAt(s, CLOSE, k, 0);
    }
    SplitAt(p, CLOSE, x);
    FindIs(s, CLOSE, |p|);
  }

  lemma {:induction false} EscapedHasNoTag(s: string)
    ensures '<' !in EscapeXml(s)
  {
    EscapeIsEntities(s);
    if s != "" {
      EscapeIsEntities(s[1..]);
      EscapedHasNoTag(s[1..]);
    }
  }

  lemma SplitAt(a: string, b: string, c: string)
    ensures (a + (b + c))[..|a|] == a && (a + (b + c))[|a| + |b|..] == c
    ensures Occurs(a + (b + c), b, |a|)
  {
    assert (a + (b + c))[|a|..|a| + |b|] == b;
  }

  lemma MatchFrom(xml: string, open: string, close: string, i: int, before: string, rest: string)
    requires Find(xml, open) == Some(i) && before == xml[..i] && rest == xml[i + |open|..]
    ensures MatchBetween(xml, open, close) ==
      match Find(rest, close) case None => None case Some(j) => Some(Match(before, rest[..j], rest[j + |close|..]))
  {
  }

  /** A document with an element: which `before`, content and `after` the pattern finds. */
  lemma MatchAt(before: string, open: string, content: string, close: string, after: string)
    requires Find(before + (open + (content + (close + after))), open) == Some(|before|)
    requires Find(content + (close + after), close) == Some(|content|)
    ensures MatchBetween(before + (open + (content + (close + after))), open, close) ==
      Some(Match(before, content, after))
  {
    SplitAt(before, open, content + (close + after));
    SplitAt(content, close, after);
    MatchFrom(before + (open + (content + (close + after))), open, close, |before|, before, content + (close + after));
  }

  /** The script element of a document built around an escaped script. */
  lemma MatchBuilt(before: string, script: string, after: string)
    requires Find(before + (OPEN + (EscapeXml(script) + (CLOSE + after))), OPEN) == Some(|before|)
    ensures var xml := before + (OPEN + (EscapeXml(script) + (CLOSE + after)));
      MatchScript(xml) == Some(Match(before, EscapeXml(script), after)) && ScriptFromConfig(xml) == Some(script)
  {
    EscapedHasNoTag(script);
    FindCloseAfter(EscapeXml(script), after);
    MatchAt(before, OPEN, EscapeXml(script), CLOSE, after);
    UnescapeInvertsEscape(script);
  }

  /** Reading back the script of a freshly written job gives the script, for every script. */
  lemma WorkflowRoundTrip(script: string)
    ensures ScriptFromConfig(WorkflowXml(script)) == Some(script)
  {
    PrologHasNoScriptTag();
    FindOpenAfter(PROLOG, EscapeXml(script) + (CLOSE + EPILOG));
    MatchBuilt(PROLOG, script, EPILOG);
  }

  // ----------------------------------------- replacing the script of a document

  /** The characters that, after a dollar sign, the escaped script hands to `replace` as a pattern. */
  predicate Dangerous(c: char) {
    c == '$' || c == '&' || c == '<' || c == '>' || c == '`' || c == '\''
  }

  predicate SpecialAt(s: string, i: int) {
    0 <= i < |s| - 1 && s[i] == '$' && Dangerous(s[i + 1])
  }

  predicate HasSpecial(s: string) {
    exists i :: 0 <= i < |s| - 1 && SpecialAt(s, i)
  }

  predicate Substitutes(c: char) {
    c == '$' || c == '&' || c == '`' || c == '\''
  }

  lemma {:induction false} ExpandPass(p: string, x: string, matched: string, before: string, after: string)
    requires '$' !in p
    ensures Expand(p + x, matched, before, after) == p + Expand(x, matched, before, after)
  {
    if p == "" {
      assert p + x == x;
    } else {
      assert (p + x)[0] == p[0] && (p + x)[1..] == p[1..] + x;
      ExpandPass(p[1..], x, matched, before, after);
      Assoc([p[0]], p[1..], Expand(x, matched, before, after));
    }
  }

  /** An escaped text without a special pair is copied as it is. */
  lemma {:induction false} ExpandFront(u: string, y: string, matched: string, before: string, after: string)
    requires !HasSpecial(u) && y != "" && (u != "" && u[|u| - 1] == '$' ==> !Substitutes(y[0]))
    ensures Expand(Entities(0, u) + y, matched, before, after) == Entities(0, u) + Expand(y, matched, before, after)
  {
    if u == "" {
      assert "" + y == y;
    } else {
      var e, t := Entity(0, u[0]), u[1..];
      var x := Entities(0, t) + y;
      assert Entities(0, u) == e + Entities(0, t);
      Assoc(e, Entities(0, t), y);
      assert !HasSpecial(t) by {
        forall i | 0 <= i < |t| - 1 ensures !SpecialAt(t, i) { assert !SpecialAt(u, i + 1); }
      }
      if u[0] == '$' {
        assert e == "$" && (e + x)[0] == '$' && (e + x)[1..] == x && (e + x)[1] == x[0];
        assert !SpecialAt(u, 0);
        assert x[0] == if t == "" then y[0] else Entity(0, t[0])[0];
      } else {
        ExpandPass(e, x, matched, before, after);
      }
      ExpandFront(t, y, matched, before, after);
      Assoc(e, Entities(0, t), Expand(y, matched, before, after));
    }
  }

  lemma ExpandClose(matched: string, before: string, after: string)
    ensures Expand(CLOSE, matched, before, after) == CLOSE
  {
    ExpandPass(CLOSE, "", matched, before, after);
    assert CLOSE + "" == CLOSE;
  }

  /** What a pattern found, and where. */
  lemma MatchShape(xml: string, open: string, close: string)
    requires MatchBetween(xml, open, close).Some?
    ensures var m := MatchBetween(xml, open, close).value;
      && xml == m.before + (open + (m.content + (close + m.after)))
      && Find(m.before + (open + (m.content + (close + m.after))), open) == Some(|m.before|)
  {
    var i := Find(xml, open).value;
    CutOut(xml, i, open);
    CutOut(xml[i + |open|..], Find(xml[i + |open|..], close).value, close);
  }

  lemma CutOut(s: string, i: nat, tag: string)
    requires i + |tag| <= |s| && s[i..i + |tag|] == tag
    ensures s == s[..i] + (tag + s[i + |tag|..])
  {
  }

  lemma JoinFive(a: string, b: string, c: string, d: string, e: string)
    ensures a + (b + (c + d)) + e == a + (b + (c + (d + e)))
  {
  }

  /** Without a special pair the new document differs from the old one in the script only. */
  lemma ReplacePlain(xml: string, script: string)
    requires MatchScript(xml).Some? && !HasSpecial(script) && ScriptFromConfig(xml) != Some(script)
    ensures var m := MatchScript(xml).value;
      PipelineXml(true, xml, script) == Ok(m.before + (OPEN + (EscapeXml(script) + (CLOSE + m.after))))
  {
    var m := MatchScript(xml).value;
    var matched := OPEN + m.content + CLOSE;
    EscapeIsEntities(script);
    ExpandPass(OPEN, EscapeXml(script) + CLOSE, matched, m.before, m.after);
    ExpandFront(script, CLOSE, matched, m.before, m.after);
    ExpandClose(matched, m.before, m.after);
    JoinFive(m.before, OPEN, EscapeXml(script), CLOSE, m.after);
  }

  /** For an inline job and a script without a special pair: the script reads back, the text around
      the element is unchanged, and writing the same script again changes nothing. */
  lemma PipelineRoundTrip(xml: string, script: string)
    requires MatchScript(xml).Some? && !HasSpecial(script)
    ensures PipelineXml(true, xml, script).Ok?
    ensures var r := PipelineXml(true, xml, script).value; var m := MatchScript(xml).value;
      && ScriptFromConfig(r) == Some(script)
      && MatchScript(r).Some? && MatchScript(r).value.before == m.before && MatchScript(r).value.after == m.after
      && PipelineXml(true, r, script) == Ok(r)
  {
    if ScriptFromConfig(xml) != Some(script) {
      var m := MatchScript(xml).value;
      MatchShape(xml, OPEN, CLOSE);
      ReplacePlain(xml, script);
      FindStable(m.before, OPEN, m.content + (CLOSE + m.after), EscapeXml(script) + (CLOSE + m.after));
      MatchBuilt(m.before, script, m.after);
    }
  }

  // ------------------------------------------------ exactly when it reads back

  function Dollars(k: nat): string {
    if k == 0 then "" else "$" + Dollars(k - 1)
  }

  function LeadingDollars(t: string): nat {
    if t == "" || t[0] != '$' then 0 else 1 + LeadingDollars(t[1..])
  }

  ghost predicate SomethingElse(s: string) {
    s != "" && s[0] != '$'
  }

  /** What the expansion does at a dollar sign followed by `y`. */
  lemma ExpandDollar(y: string, matched: string, before: string, after: string)
    requires y != ""
    ensures Expand("$" + y, matched, before, after) ==
      if y[0] == '$' then "$" + Expand(y[1..], matched, before, after)
      else if y[0] == '&' then matched + Expand(y[1..], matched, before, after)
      else if y[0] == '`' then before + Expand(y[1..], matched, before, after)
      else if y[0] == '\'' then after + Expand(y[1..], matched, before, after)
      else "$" + Expand(y, matched, before, after)
  {
    var all := "$" + y;
    assert all[0] == '$' && all[1] == y[0] && all[1..] == y && all[2..] == y[1..];
  }

  lemma ExpandOther(y: string, matched: string, before: string, after: string)
    requires SomethingElse(y)
    ensures SomethingElse(Expand(y, matched, before, after))
  {
  }

  /** The escaped text of a script that starts with `c`, up to the closing tag. */
  lemma EscapedHead(c: char, t: string)
    ensures Entities(0, [c] + t) + CLOSE == Entity(0, c) + (Entities(0, t) + CLOSE)
  {
    assert ([c] + t)[1..] == t;
    Assoc(Entity(0, c), Entities(0, t), CLOSE);
  }

  /** The expansion never shows more dollar signs in front than the script has, and fewer where a
      special pair starts. */
  lemma {:induction false} ExpandRest(z: string, matched: string, before: string, after: string)
    returns (k: nat, w: string)
    requires SomethingElse(matched) && SomethingElse(before) && SomethingElse(after)
    ensures Expand(Entities(0, z) + CLOSE, matched, before, after) == Dollars(k) + w
    ensures k <= LeadingDollars(z) && (SpecialAt(z, 0) ==> k < LeadingDollars(z)) && SomethingElse(w)
    decreases |z|, 1
  {
    var all := Entities(0, z) + CLOSE;
    if z == "" || z[0] != '$' {
      k, w := 0, Expand(all, matched, before, after);
      assert Dollars(0) + w == w;
      if z != "" { assert z == [z[0]] + z[1..]; EscapedHead(z[0], z[1..]); }
      ExpandOther(all, matched, before, after);
    } else {
      assert z == ['$'] + z[1..];
      EscapedHead('$', z[1..]);
      k, w := ExpandAfterDollar(z[1..], matched, before, after);
    }
  }

  /** The same where the script begins with a dollar sign. */
  lemma {:induction false} ExpandAfterDollar(x: string, matched: string, before: string, after: string)
    returns (k: nat, w: string)
    requires SomethingElse(matched) && SomethingElse(before) && SomethingElse(after)
    ensures Expand("$" + (Entities(0, x) + CLOSE), matched, before, after) == Dollars(k) + w
    ensures var z := ['$'] + x;
      k <= LeadingDollars(z) && (SpecialAt(z, 0) ==> k < LeadingDollars(z)) && SomethingElse(w)
    decreases |x| + 1, 0
  {
    var y := Entities(0, x) + CLOSE;
    ExpandDollar(y, matched, before, after);
    DollarHead(x);
    if x != "" && x[0] == '$' {
      assert x == ['$'] + x[1..];
      EscapedHead('$', x[1..]);
      k, w := ExpandRest(x[1..], matched, before, after);
      assert y[1..] == Entities(0, x[1..]) + CLOSE;
      Assoc("$", Dollars(k), w);
      DollarHead(x[1..]);
      k := k + 1;
    } else if x == "" || !Dangerous(x[0]) {
      EscapedStart(x);
      ExpandOther(y, matched, before, after);
      k, w := 1, Expand(y, matched, before, after);
      assert Dollars(1) == "$";
    } else {
      EscapedStart(x);
      k, w := 0, Expand("$" + y, matched, before, after);
      assert Dollars(0) + w == w;
    }
  }

  lemma DollarHead(x: string)
    ensures LeadingDollars(['$'] + x) == 1 + LeadingDollars(x)
    ensures SpecialAt(['$'] + x, 0) <==> x != "" && Dangerous(x[0])
  {
    assert (['$'] + x)[1..] == x;
  }

  /** How the escaped text of a script without a dollar sign in front begins. */
  lemma EscapedStart(x: string)
    requires x == "" || x[0] != '$'
    ensures var y := Entities(0, x) + CLOSE;
      && y != "" && y[0] != '$'
      && (x == "" || !Dangerous(x[0]) ==> y[0] != '&' && y[0] != '`' && y[0] != '\'')
      && (x != "" && Dangerous(x[0]) ==> y[0] == '&' || y[0] == '`' || y[0] == '\'')
  {
    if x != "" {
      assert x == [x[0]] + x[1..];
      EscapedHead(x[0], x[1..]);
    }
  }

  lemma ReplaceHead(z: string, pattern: string, sub: string)
    requires pattern != "" && sub != "" && sub[0] != '$' && (z == "" || z[0] != '$')
    ensures ReplaceAll(z, pattern, sub) == "" || ReplaceAll(z, pattern, sub)[0] != '$'
  {
  }

  /** Unescaping never puts a dollar sign in front. */
  lemma UnescapeHead(z: string)
    requires z == "" || z[0] != '$'
    ensures Unescape(z) == "" || Unescape(z)[0] != '$'
  {
    var z1 := ReplaceAll(z, "&lt;", "<");
    var z2 := ReplaceAll(z1, "&gt;", ">");
    var z3 := ReplaceAll(z2, "&quot;", "\"");
    var z4 := ReplaceAll(z3, "&apos;", "'");
    ReplaceHead(z, "&lt;", "<");
    ReplaceHead(z1, "&gt;", ">");
    ReplaceHead(z2, "&quot;", "\"");
    ReplaceHead(z3, "&apos;", "'");
    ReplaceHead(z4, "&amp;", "&");
  }

  lemma FindNotBefore(p: string, x: string)
    requires '<' !in p && Find(p + x, CLOSE).Some?
    ensures Find(p + x, CLOSE).value >= |p|
  {
    var j := Find(p + x, CLOSE).value;
    OccursAt(p + x, CLOSE, j, 0);
    assert forall k :: 0 <= k < |p| ==> (p + x)[k] == p[k];
  }

  lemma {:induction false} DollarsPlain(k: nat)
    ensures |Dollars(k)| == k && '<' !in Dollars(k) && (forall i :: 0 <= i < k ==> Dollars(k)[i] == '$')
    ensures EscapeXml(Dollars(k)) == Dollars(k)
  {
    EscapeIsEntities(Dollars(k));
    if k > 0 {
      DollarsPlain(k - 1);
      EscapeIsEntities(Dollars(k - 1));
    }
  }

  lemma {:induction false} LeadingAre(t: string, k: nat)
    requires k < LeadingDollars(t)
    ensures k < |t| && t[k] == '$'
  {
    if k > 0 { LeadingAre(t[1..], k - 1); }
  }

  /** A content that starts with an escaped text and then not with a dollar sign reads back as
      something else than a script with a dollar sign there. */
  lemma ReadsElse(u: string, z: string, script: string)
    requires (z == "" || z[0] != '$') && |u| < |script| && script[|u|] == '$'
    ensures Unescape(EscapeXml(u) + z) != script
  {
    UnescapeEscaped(u, z);
    UnescapeHead(z);
    var r := u + Unescape(z);
    assert |r| > |u| ==> r[|u|] == Unescape(z)[0];
  }

  lemma FirstSpecial(s: string) returns (i: nat)
    requires HasSpecial(s)
    ensures SpecialAt(s, i) && !HasSpecial(s[..i]) && (i > 0 ==> s[i - 1] != '$')
  {
    i := 0;
    while !SpecialAt(s, i)
      invariant i < |s| && forall k :: 0 <= k < i ==> !SpecialAt(s, k)
      invariant exists k :: i <= k < |s| - 1 && SpecialAt(s, k)
      decreases |s| - i
    {
      i := i + 1;
    }
    forall k | 0 <= k < i - 1 ensures !SpecialAt(s[..i], k) { assert !SpecialAt(s, k); }
    if i > 0 { assert !SpecialAt(s, i - 1); }
  }

  /** The document written for a script whose first special pair is at `i`. */
  lemma ReplaceSpecial(xml: string, script: string, i: nat, k: nat, w: string)
    requires MatchScript(xml).Some? && ScriptFromConfig(xml) != Some(script)
    requires SpecialAt(script, i) && !HasSpecial(script[..i]) && (i > 0 ==> script[i - 1] != '$')
    requires var m := MatchScript(xml).value;
      Expand(Entities(0, script[i..]) + CLOSE, OPEN + m.content + CLOSE, m.before, m.after) == Dollars(k) + w
    ensures var m := MatchScript(xml).value;
      PipelineXml(true, xml, script) == Ok(m.before + (OPEN + ((EscapeXml(script[..i]) + Dollars(k)) + (w + m.after))))
  {
    var m := MatchScript(xml).value;
    var matched := OPEN + m.content + CLOSE;
    var u, t := script[..i], script[i..];
    assert script == u + t;
    EscapeIsEntities(script);
    EscapeIsEntities(u);
    EntitiesAppend(0, u, t);
    Assoc(EscapeXml(u), Entities(0, t), CLOSE);
    ExpandPass(OPEN, EscapeXml(script) + CLOSE, matched, m.before, m.after);
    assert (Entities(0, t) + CLOSE)[0] == '$';
    assert u != "" ==> u[|u| - 1] == script[i - 1];
    ExpandFront(u, Entities(0, t) + CLOSE, matched, m.before, m.after);
    Assoc(EscapeXml(u), Dollars(k), w);
    JoinFive(m.before, OPEN, EscapeXml(u) + Dollars(k), w, m.after);
  }

  lemma TakeThrough(p: string, rest: string, j: nat)
    requires |p| <= j <= |p| + |rest|
    ensures (p + rest)[..j] == p + rest[..j - |p|]
  {
  }

  /** Reading a document whose script content starts with `p`. */
  lemma ContentStarts(before: string, p: string, rest: string)
    requires Find(before + (OPEN + (p + rest)), OPEN) == Some(|before|) && '<' !in p
    ensures var r := ScriptFromConfig(before + (OPEN + (p + rest)));
      r.None? || exists j :: 0 <= j <= |rest| && r == Some(Unescape(p + rest[..j]))
  {
    var content := p + rest;
    var found := Find(content, CLOSE);
    SplitAt(before, OPEN, content);
    MatchFrom(before + (OPEN + content), OPEN, CLOSE, |before|, before, content);
    if found.Some? {
      FindNotBefore(p, rest);
      TakeThrough(p, rest, found.value);
    }
  }

  lemma EscapeWithDollars(u: string, k: nat)
    ensures EscapeXml(u) + Dollars(k) == EscapeXml(u + Dollars(k))
    ensures '<' !in EscapeXml(u) + Dollars(k) && |u + Dollars(k)| == |u| + k
  {
    EscapedHasNoTag(u);
    DollarsPlain(k);
    EscapeIsEntities(u);
    EscapeIsEntities(Dollars(k));
    EscapeIsEntities(u + Dollars(k));
    EntitiesAppend(0, u, Dollars(k));
  }

  /** With a special pair the script does not read back. */
  lemma SpecialBreaks(xml: string, script: string)
    requires MatchScript(xml).Some? && ScriptFromConfig(xml) != Some(script) && HasSpecial(script)
    requires SomethingElse(MatchScript(xml).value.before) && SomethingElse(MatchScript(xml).value.after)
    ensures PipelineXml(true, xml, script).Ok?
    ensures ScriptFromConfig(PipelineXml(true, xml, script).value) != Some(script)
  {
    var m := MatchScript(xml).value;
    var i := FirstSpecial(script);
    var u, t := script[..i], script[i..];
    var k, w := ExpandRest(t, OPEN + m.content + CLOSE, m.before, m.after);
    ReplaceSpecial(xml, script, i, k, w);
    var p := EscapeXml(u) + Dollars(k);
    MatchShape(xml, OPEN, CLOSE);
    FindStable(m.before, OPEN, m.content + (CLOSE + m.after), p + (w + m.after));
    EscapeWithDollars(u, k);
    ContentStarts(m.before, p, w + m.after);
    LeadingAre(t, k);
    assert script[i + k] == t[k];
    NeverReads(u, k, w + m.after, script);
  }

  lemma NeverReads(u: string, k: nat, x: string, script: string)
    requires SomethingElse(x) && |u| + k < |script| && script[|u| + k] == '$'
    ensures forall j :: 0 <= j <= |x| ==> Unescape(EscapeXml(u) + Dollars(k) + x[..j]) != script
  {
    EscapeWithDollars(u, k);
    forall j | 0 <= j <= |x| ensures Unescape(EscapeXml(u) + Dollars(k) + x[..j]) != script {
      ReadsElse(u + Dollars(k), x[..j], script);
    }
  }

  /** In a document with text around the element that does not start with a dollar sign, a script
      reads back exactly when it is already there or contains no special pair. */
  lemma PipelineReadsBackIff(xml: string, script: string)
    requires MatchScript(xml).Some?
    requires SomethingElse(MatchScript(xml).value.before) && SomethingElse(MatchScript(xml).value.after)
    ensures PipelineXml(true, xml, script).Ok?
    ensures ScriptFromConfig(PipelineXml(true, xml, script).value) == Some(script)
      <==> ScriptFromConfig(xml) == Some(script) || !HasSpecial(script)
  {
    if !HasSpecial(script) {
      PipelineRoundTrip(xml, script);
    } else if ScriptFromConfig(xml) != Some(script) {
      SpecialBreaks(xml, script);
    }
  }

  /** A concrete script that does not read back: a shell prompt in single quotes. */
  lemma PromptDoesNotReadBack()
    ensures var xml := "<a>" + (OPEN + ("" + (CLOSE + "</a>"))); var script := "sh '$'";
      ScriptFromConfig(xml) == Some("") && ScriptFromConfig(PipelineXml(true, xml, script).value) != Some(script)
  {
    var xml := "<a>" + (OPEN + ("" + (CLOSE + "</a>")));
    var script := "sh '$'";
    assert NoScriptTag("<a>");
    FindOpenAfter("<a>", "" + (CLOSE + "</a>"));
    FindCloseAfter("", "</a>");
    MatchAt("<a>", OPEN, "", CLOSE, "</a>");
    UnescapeInvertsEscape("");
    EscapeIsEntities("");
    assert SpecialAt(script, 4);
    PipelineReadsBackIff(xml, script);
  }
}

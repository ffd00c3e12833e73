/** Validating lineage between Frappe documents: mapped fields of related records are compared. */
module Lineage {
  import opened Text
  import opened Json
  import opened Paths

  datatype Status = Current | Superseded | RequiresReview | RequiresRegeneration | Inconsistent | Blocked

  datatype Comparison = Exact | Normalized | AsSet | AsOrdered

  datatype FieldMap = FieldMap(from: string, to: string, caption: string, comparison: Comparison,
                               mismatch: Option<Status>)

  datatype Relationship = Relationship(
    id: string, from: string, to: string, one: bool, required: bool,
    identity: seq<FieldMap>, revision: seq<FieldMap>, content: seq<FieldMap>)

  datatype Lifecycle = Unstated | Active | Draft | Replaced | Cancelled

  datatype Document = Document(
    stage: string, name: string, values: seq<Member>, route: string, readable: bool, lifecycle: Lifecycle,
      modified: string)

  datatype Category = Identity | Revision | Content

  datatype Compared = Compared(caption: string, expected: Json, observed: Json, matches: bool, category: Category)

  datatype Ref = Ref(stage: string, name: string)

  datatype Finding = Finding(relationshipId: string, from: Ref, to: Option<Ref>, status: Status,
                             comparisons: seq<Compared>)

  // -------------------------------------------------------------------- paths

  /** No value is undefined, one stands for itself, several for a list. */
  function Gathered(cursors: seq<Json>): Json {
    if cursors == [] then Undefined else if |cursors| == 1 then cursors[0] else Arr(cursors)
  }

  function PathValue(values: seq<Member>, path: string): Json {
    Gathered(Walk([Obj(values)], SplitDots(path)))
  }

  /** `getPath`. */
  method GetPath(values: seq<Member>, path: string) returns (r: Json)
    ensures r == PathValue(values, path)
  {
    var cursors := [Obj(values)];
    var segments := SplitDots(path);
    for n := 0 to |segments|
      invariant cursors == Walk([Obj(values)], segments[..n])
    {
      WalkAppend([Obj(values)], segments[..n], segments[n]);
      assert segments[..n + 1] == segments[..n] + [segments[n]];
      cursors := NextCursors(cursors, segments[n]);
    }
    assert segments[..|segments|] == segments;
    if cursors == [] { return Undefined; }
    r := if |cursors| == 1 then cursors[0] else Arr(cursors);
  }

  /** The inner loop: where a segment leads to from each cursor. */
  method NextCursors(cursors: seq<Json>, segment: string) returns (next: seq<Json>)
    ensures next == ExpandAll(cursors, segment)
  {
    next := [];
    for i := 0 to |cursors|
      invariant next == ExpandAll(cursors[..i], segment)
    {
      ExpandAppend(cursors[..i], cursors[i], segment);
      assert cursors[..i + 1] == cursors[..i] + [cursors[i]];
      if cursors[i].Obj? {
        var child := Field(cursors[i].members, SegmentName(segment));
        if child.Undefined? { continue; }
        if IsMany(segment) && child.Arr? {
          next := next + child.items;
        } else if !IsMany(segment) {
          next := next + [child];
        }
      }
    }
    assert cursors[..|cursors|] == cursors;
  }

  // --------------------------------------------------------------- comparisons

  function Blanked(s: string): string
    decreases |s|
  {
    if s == "" then "" else [if IsSpace(s[0]) then ' ' else s[0]] + Blanked(s[1..])
  }

  /** `JSON.stringify`, members in their own order; "undefined" where it yields undefined. */
  function Stringify(value: Json): string
    decreases value, 0
  {
    match value
    case Null => "null"
    case Bool(b) => if b then "true" else "false"
    case Num(n) => IntText(n)
    case Str(s) => Quote(s)
    case Arr(items) => "[" + StringifyItems(items, true) + "]"
    case Obj(members) => "{" + StringifyMembers(members, true) + "}"
    case NonFinite => "null"
    case _ => "undefined"
  }

  function StringifyItems(items: seq<Json>, first: bool): string
    decreases items, 1
  {
    if items == [] then ""
    else
      (if first then "" else ",")
      + (if items[0].Undefined? || items[0].Unsupported? then "null" else Stringify(items[0]))
      + StringifyItems(items[1..], false)
  }

  function StringifyMembers(members: seq<Member>, first: bool): string
    decreases members, 1
  {
    if members == [] then ""
    else if members[0].value.Undefined? || members[0].value.Unsupported? then StringifyMembers(members[1..], first)
    else
      (if first then "" else ",") + Quote(members[0].key) + ":" + Stringify(members[0].value) +
        StringifyMembers(members[1..], false)
  }

  /** `normalize`. */
  function NormalText(value: Json): string {
    match value
    case Undefined => ""
    case Str(s) => Trim(Collapse(Blanked(Lower(s))))
    case _ => Stringify(value)
  }

  function AsList(value: Json): seq<Json> {
    if value.Arr? then value.items else if value.Undefined? || value.Null? then [] else [value]
  }

  function NormalTexts(values: seq<Json>): seq<string>
    decreases |values|
  {
    if values == [] then [] else [NormalText(values[0])] + NormalTexts(values[1..])
  }

  function Elements(texts: seq<string>): set<string> {
    set t | t in texts
  }

  /** `compare`. */
  predicate Agree(left: Json, right: Json, comparison: Comparison) {
    match comparison
    case Exact => Stringify(left) == Stringify(right)
    case AsSet => SortedKeys(Elements(NormalTexts(AsList(left)))) == SortedKeys(Elements(NormalTexts(AsList(right))))
    case AsOrdered => NormalTexts(AsList(left)) == NormalTexts(AsList(right))
    case Normalized => NormalText(left) == NormalText(right)
  }

  predicate HasIdentityValue(value: Json)
    decreases value
  {
    match value
    case Undefined => false
    case Null => false
    case Str(s) => Trim(s) != ""
    case Arr(items) => items != [] && forall i :: 0 <= i < |items| ==> HasIdentityValue(items[i])
    case _ => true
  }

  /** `identityMatches`. */
  predicate IdentityMatches(source: Document, target: Document, fields: seq<FieldMap>) {
    forall i :: 0 <= i < |fields| ==>
      var left, right := PathValue(source.values, fields[i].from), PathValue(target.values, fields[i].to);
      HasIdentityValue(left) && HasIdentityValue(right) && Agree(left, right, fields[i].comparison)
  }

  /** The mapped field's values in both documents agree. */
  predicate FieldMatches(source: Document, target: Document, field: FieldMap) {
    Agree(PathValue(source.values, field.from), PathValue(target.values, field.to), field.comparison)
  }

  function CompareField(source: Document, target: Document, field: FieldMap, category: Category): Compared {
    Compared(field.caption, PathValue(source.values, field.from), PathValue(target.values, field.to),
             FieldMatches(source, target, field), category)
  }

  function CompareFields(source: Document, target: Document, fields: seq<FieldMap>,
                         category: Category): (r: seq<Compared>)
    ensures |r| == |fields|
    ensures forall i :: 0 <= i < |fields| ==> r[i] == CompareField(source, target, fields[i], category)
    decreases |fields|
  {
    if fields == [] then []
    else [CompareField(source, target, fields[0], category)] + CompareFields(source, target, fields[1..], category)
  }

  function Fields(r: Relationship): seq<FieldMap> {
    r.identity + r.revision + r.content
  }

  function Comparisons(r: Relationship, source: Document, target: Document): (s: seq<Compared>)
    ensures |s| == |Fields(r)|
    ensures forall i :: 0 <= i < |s| ==>
      s[i].caption == Fields(r)[i].caption && s[i].matches == FieldMatches(source, target, Fields(r)[i])
  {
    CompareFields(source, target, r.identity, Identity) + CompareFields(source, target, r.revision, Revision)
    + CompareFields(source, target, r.content, Content)
  }

  // ------------------------------------------------------------------- status

  function Rank(status: Status): nat {
    match status
    case Current => 0
    case Superseded => 1
    case RequiresReview => 2
    case RequiresRegeneration => 3
    case Inconsistent => 4
    case Blocked => 5
  }

  function Strongest(left: Status, right: Status): Status {
    if Rank(left) >= Rank(right) then left else right
  }

  /** The first mapped field with a label. */
  function FieldLabelled(fields: seq<FieldMap>, caption: string): Option<FieldMap>
    decreases |fields|
  {
    if fields == [] then None else if fields[0].caption == caption then Some(fields[0])
      else FieldLabelled(fields[1..], caption)
  }

  function MismatchStatus(r: Relationship, mismatch: Compared): Status {
    var field := FieldLabelled(Fields(r), mismatch.caption);
    if field.Some? && field.value.mismatch.Some? then field.value.mismatch.value
    else if mismatch.category == Revision then RequiresRegeneration else Inconsistent
  }

  /** The strongest status among the mismatches. */
  function MismatchesStatus(r: Relationship, comparisons: seq<Compared>): Status
    decreases |comparisons|
  {
    if comparisons == [] then Current
    else
      var n := |comparisons| - 1;
      var status := MismatchesStatus(r, comparisons[..n]);
      if comparisons[n].matches then status else Strongest(status, MismatchStatus(r, comparisons[n]))
  }

  predicate Retired(d: Document) {
    d.lifecycle == Replaced || d.lifecycle == Cancelled
  }

  /** What comparing a source and a target finds. */
  function PairFinding(r: Relationship, source: Document, target: Document): Finding {
    var from, to := Ref(source.stage, source.name), Some(Ref(target.stage, target.name));
    if !source.readable || !target.readable then Finding(r.id, from, to, Blocked, [])
    else if Retired(target) then Finding(r.id, from, to, Superseded, [])
    else Finding(r.id, from, to, MismatchesStatus(r, Comparisons(r, source, target)), Comparisons(r, source, target))
  }

  /** `comparePair`. */
  method ComparePair(r: Relationship, source: Document, target: Document) returns (f: Finding)
    ensures f == PairFinding(r, source, target)
  {
    var from, to := Ref(source.stage, source.name), Some(Ref(target.stage, target.name));
    if !source.readable || !target.readable { return Finding(r.id, from, to, Blocked, []); }
    if Retired(target) { return Finding(r.id, from, to, Superseded, []); }
    var comparisons := Comparisons(r, source, target);
    var status := StrongestMismatch(r, comparisons);
    f := Finding(r.id, from, to, status, comparisons);
  }

  /** The loop over the mismatches. */
  method StrongestMismatch(r: Relationship, comparisons: seq<Compared>) returns (status: Status)
    ensures status == MismatchesStatus(r, comparisons)
  {
    status := Current;
    for n := 0 to |comparisons|
      invariant status == MismatchesStatus(r, comparisons[..n])
    {
      assert comparisons[..n + 1][..n] == comparisons[..n];
      if !comparisons[n].matches { status := Strongest(status, MismatchStatus(r, comparisons[n])); }
    }
    assert comparisons[..|comparisons|] == comparisons;
  }

  /** A mapping's own mismatch status is one of the three that the manifest's type allows. */
  predicate ProperFields(fields: seq<FieldMap>) {
    forall i :: 0 <= i < |fields| && fields[i].mismatch.Some? ==>
      fields[i].mismatch.value in {RequiresReview, RequiresRegeneration, Inconsistent}
  }

  lemma {:induction false} LabelledProper(fields: seq<FieldMap>, caption: string)
    requires ProperFields(fields)
    ensures var f := FieldLabelled(fields, caption);
      f.Some? && f.value.mismatch.Some? ==> Rank(f.value.mismatch.value) > 0
    decreases |fields|
  {
    if fields != [] { LabelledProper(fields[1..], caption); }
  }

  lemma {:induction false} StatusCurrentIff(r: Relationship, comparisons: seq<Compared>)
    requires ProperFields(Fields(r))
    ensures MismatchesStatus(r, comparisons) == Current <==> forall i :: 0 <= i < |comparisons| ==>
      comparisons[i].matches
    decreases |comparisons|
  {
    if comparisons != [] {
      var n := |comparisons| - 1;
      StatusCurrentIff(r, comparisons[..n]);
      LabelledProper(Fields(r), comparisons[n].caption);
      assert forall i :: 0 <= i < n ==> comparisons[..n][i] == comparisons[i];
    }
  }

  /** A pair is Current exactly when both records are readable, the target is in use and every mapped field agrees. */
  lemma PairCurrentIff(r: Relationship, source: Document, target: Document)
    requires ProperFields(Fields(r))
    ensures PairFinding(r, source, target).status == Current <==>
      source.readable && target.readable && !Retired(target)
      && forall i :: 0 <= i < |Fields(r)| ==> FieldMatches(source, target, Fields(r)[i])
  {
    StatusCurrentIff(r, Comparisons(r, source, target));
  }

  /** The status of a mismatching pair is the strongest of its mismatches' own. */
  lemma {:induction false} StatusIsStrongest(r: Relationship, comparisons: seq<Compared>)
    ensures forall i :: 0 <= i < |comparisons| && !comparisons[i].matches ==>
              Rank(MismatchStatus(r, comparisons[i])) <= Rank(MismatchesStatus(r, comparisons))
    ensures MismatchesStatus(r, comparisons) != Current ==>
              exists i :: 0 <= i < |comparisons| && !comparisons[i].matches
                && MismatchStatus(r, comparisons[i]) == MismatchesStatus(r, comparisons)
    decreases |comparisons|
  {
    if comparisons != [] {
      var n := |comparisons| - 1;
      StatusIsStrongest(r, comparisons[..n]);
      assert forall i :: 0 <= i < n ==> comparisons[..n][i] == comparisons[i];
      if MismatchesStatus(r, comparisons) != Current
        && MismatchesStatus(r, comparisons) == MismatchesStatus(r, comparisons[..n]) {
        var i :| 0 <= i < n && !comparisons[..n][i].matches
          && MismatchStatus(r, comparisons[..n][i]) == MismatchesStatus(r, comparisons[..n]);
        assert !comparisons[i].matches;
      }
    }
  }

  // ---------------------------------------------------------------- validation

  function OfStage(docs: seq<Document>, stage: string): seq<Document>
    decreases |docs|
  {
    if docs == [] then []
    else
      var n := |docs| - 1;
      if docs[n].stage == stage then OfStage(docs[..n], stage) + [docs[n]] else OfStage(docs[..n], stage)
  }

  function Candidates(source: Document, targets: seq<Document>, identity: seq<FieldMap>): seq<Document>
    decreases |targets|
  {
    if targets == [] then []
    else
      var n := |targets| - 1;
      var rest := Candidates(source, targets[..n], identity);
      if IdentityMatches(source, targets[n], identity) then rest + [targets[n]] else rest
  }

  function PairFindings(r: Relationship, source: Document, candidates: seq<Document>): (s: seq<Finding>)
    ensures |s| == |candidates| && forall i :: 0 <= i < |s| ==> s[i] == PairFinding(r, source, candidates[i])
    decreases |candidates|
  {
    if candidates == [] then []
    else
      var n := |candidates| - 1;
      PairFindings(r, source, candidates[..n]) + [PairFinding(r, source, candidates[n])]
  }

  /** What one source record of a relationship gives rise to. */
  function SourceFindings(r: Relationship, source: Document, targets: seq<Document>): seq<Finding> {
    var from := Ref(source.stage, source.name);
    var candidates := Candidates(source, targets, r.identity);
    if !source.readable then [Finding(r.id, from, None, Blocked, [])]
    else if candidates == [] then
      if exists i :: 0 <= i < |targets| && !targets[i].readable then [Finding(r.id, from, None, Blocked, [])]
      else [Finding(r.id, from, None, if r.required then RequiresRegeneration else RequiresReview, [])]
    else if r.one && |candidates| > 1 then [Finding(r.id, from, None, Inconsistent, [])]
    else PairFindings(r, source, candidates)
  }

  function SourcesFindings(r: Relationship, sources: seq<Document>, targets: seq<Document>): seq<Finding>
    decreases |sources|
  {
    if sources == [] then []
    else
      var n := |sources| - 1;
      SourcesFindings(r, sources[..n], targets) + SourceFindings(r, sources[n], targets)
  }

  /** All findings, relationship by relationship. */
  function Findings(relationships: seq<Relationship>, docs: seq<Document>): seq<Finding>
    decreases |relationships|
  {
    if relationships == [] then []
    else
      var n := |relationships| - 1;
      var r := relationships[n];
      Findings(relationships[..n], docs) + SourcesFindings(r, OfStage(docs, r.from), OfStage(docs, r.to))
  }

  method FindSource(r: Relationship, source: Document, targets: seq<Document>) returns (findings: seq<Finding>)
    ensures findings == SourceFindings(r, source, targets)
  {
    var from := Ref(source.stage, source.name);
    if !source.readable { return [Finding(r.id, from, None, Blocked, [])]; }
    var candidates := Candidates(source, targets, r.identity);
    if candidates == [] {
      if exists i :: 0 <= i < |targets| && !targets[i].readable { return [Finding(r.id, from, None, Blocked, [])]; }
      return [Finding(r.id, from, None, if r.required then RequiresRegeneration else RequiresReview, [])];
    }
    if r.one && |candidates| > 1 { return [Finding(r.id, from, None, Inconsistent, [])]; }
    findings := ComparePairs(r, source, candidates);
  }

  method ComparePairs(r: Relationship, source: Document, candidates: seq<Document>) returns (findings: seq<Finding>)
    ensures findings == PairFindings(r, source, candidates)
  {
    findings := [];
    for n := 0 to |candidates|
      invariant findings == PairFindings(r, source, candidates[..n])
    {
      assert candidates[..n + 1][..n] == candidates[..n];
      var f := ComparePair(r, source, candidates[n]);
      findings := findings + [f];
    }
    assert candidates[..|candidates|] == candidates;
  }

  method FindSources(r: Relationship, sources: seq<Document>, targets: seq<Document>) returns (findings: seq<Finding>)
    ensures findings == SourcesFindings(r, sources, targets)
  {
    findings := [];
    for n := 0 to |sources|
      invariant findings == SourcesFindings(r, sources[..n], targets)
    {
      assert sources[..n + 1][..n] == sources[..n];
      var found := FindSource(r, sources[n], targets);
      findings := findings + found;
    }
    assert sources[..|sources|] == sources;
  }

  /** A required relationship whose source stage was not queried at all. */
  predicate Incomplete(relationships: seq<Relationship>, docs: seq<Document>) {
    exists i :: 0 <= i < |relationships| && relationships[i].required && OfStage(docs, relationships[i].from) == []
  }

  const MAX_DOCUMENTS := 10000

  /** The findings of `validateFrappeLineage` before they are sorted, or its refusal. */
  method ValidateFrappeLineage(relationships: seq<Relationship>, docs: seq<Document>)
    returns (r: Result<seq<Finding>, string>)
    ensures r.Err? <==> docs == [] || |docs| > MAX_DOCUMENTS || Incomplete(relationships, docs)
    ensures r.Ok? ==> r.value == Findings(relationships, docs)
  {
    if docs == [] { return Err("Lineage validation requires authorized document evidence."); }
    if |docs| > MAX_DOCUMENTS { return Err("Lineage validation exceeds its bounded document count."); }
    for n := 0 to |relationships|
      invariant !Incomplete(relationships[..n], docs)
    {
      if relationships[n].required && OfStage(docs, relationships[n].from) == [] {
        return Err("Lineage evidence is incomplete: a required source stage was not queried.");
      }
    }
    assert relationships[..|relationships|] == relationships;
    var findings: seq<Finding> := [];
    for n := 0 to |relationships|
      invariant findings == Findings(relationships[..n], docs)
    {
      assert relationships[..n + 1][..n] == relationships[..n];
      var found := FindSources(relationships[n], OfStage(docs, relationships[n].from),
        OfStage(docs, relationships[n].to));
      findings := findings + found;
    }
    r := Ok(findings);
  }

  // ------------------------------------------------------------------- verdict

  datatype Verdict = Pass | Review | Fail | Stopped

  function Count(findings: seq<Finding>, status: Status): nat
    decreases |findings|
  {
    if findings == [] then 0 else Count(findings[1..], status) + if findings[0].status == status then 1 else 0
  }

  function VerdictOf(findings: seq<Finding>): Verdict {
    if Count(findings, Blocked) > 0 then Stopped
    else if Count(findings, Inconsistent) > 0 || Count(findings, RequiresRegeneration) > 0 then Fail
    else if Count(findings, RequiresReview) > 0 || Count(findings, Superseded) > 0 then Review
    else Pass
  }

  lemma {:induction false} CountPositive(findings: seq<Finding>, status: Status)
    ensures Count(findings, status) > 0 <==> exists i :: 0 <= i < |findings| && findings[i].status == status
    decreases |findings|
  {
    if findings != [] {
      CountPositive(findings[1..], status);
      if Count(findings[1..], status) > 0 {
        var i :| 0 <= i < |findings[1..]| && findings[1..][i].status == status;
        assert findings[i + 1].status == status;
      }
      if i :| 1 <= i < |findings| && findings[i].status == status {
        assert findings[1..][i - 1].status == status;
      }
    }
  }

  /** The source record is readable, has a match (only one, where one is expected), and every match is Current. */
  ghost predicate InOrder(r: Relationship, source: Document, targets: seq<Document>) {
    var candidates := Candidates(source, targets, r.identity);
    && source.readable && candidates != [] && (r.one ==> |candidates| == 1)
    && forall i :: 0 <= i < |candidates| ==> PairFinding(r, source, candidates[i]).status == Current
  }

  ghost predicate AllCurrent(findings: seq<Finding>) {
    forall i :: 0 <= i < |findings| ==> findings[i].status == Current
  }

  lemma AllCurrentJoin(a: seq<Finding>, b: seq<Finding>)
    ensures AllCurrent(a + b) <==> AllCurrent(a) && AllCurrent(b)
  {
    assert forall i :: 0 <= i < |a| ==> (a + b)[i] == a[i];
    assert forall i :: 0 <= i < |b| ==> (a + b)[|a| + i] == b[i];
  }

  lemma SourceInOrder(r: Relationship, source: Document, targets: seq<Document>)
    ensures AllCurrent(SourceFindings(r, source, targets)) <==> InOrder(r, source, targets)
  {
    var findings := SourceFindings(r, source, targets);
    var candidates := Candidates(source, targets, r.identity);
    if !source.readable || candidates == [] || (r.one && |candidates| > 1) {
      assert findings[0].status != Current;
    }
  }

  ghost predicate AllInOrder(r: Relationship, sources: seq<Document>, targets: seq<Document>) {
    forall source :: source in sources ==> InOrder(r, source, targets)
  }

  lemma LastSource(r: Relationship, sources: seq<Document>, targets: seq<Document>)
    requires sources != []
    ensures AllInOrder(r, sources, targets) <==>
      AllInOrder(r, sources[..|sources| - 1], targets) && InOrder(r, sources[|sources| - 1], targets)
  {
    assert sources == sources[..|sources| - 1] + [sources[|sources| - 1]];
  }

  lemma {:induction false} SourcesInOrder(r: Relationship, sources: seq<Document>, targets: seq<Document>)
    ensures AllCurrent(SourcesFindings(r, sources, targets)) <==> AllInOrder(r, sources, targets)
    decreases |sources|
  {
    if sources != [] {
      var n := |sources| - 1;
      SourcesInOrder(r, sources[..n], targets);
      SourceInOrder(r, sources[n], targets);
      AllCurrentJoin(SourcesFindings(r, sources[..n], targets), SourceFindings(r, sources[n], targets));
      LastSource(r, sources, targets);
    }
  }

  ghost predicate RelationInOrder(r: Relationship, docs: seq<Document>) {
    AllInOrder(r, OfStage(docs, r.from), OfStage(docs, r.to))
  }

  lemma {:induction false} FindingsInOrder(relationships: seq<Relationship>, docs: seq<Document>)
    ensures AllCurrent(Findings(relationships, docs)) <==> forall r :: r in relationships ==> RelationInOrder(r, docs)
    decreases |relationships|
  {
    if relationships != [] {
      var n := |relationships| - 1;
      var r := relationships[n];
      FindingsInOrder(relationships[..n], docs);
      SourcesInOrder(r, OfStage(docs, r.from), OfStage(docs, r.to));
      AllCurrentJoin(Findings(relationships[..n], docs),
        SourcesFindings(r, OfStage(docs, r.from), OfStage(docs, r.to)));
      LastRelation(relationships, docs);
    }
  }

  lemma LastRelation(relationships: seq<Relationship>, docs: seq<Document>)
    requires relationships != []
    ensures var n := |relationships| - 1;
      (forall r :: r in relationships ==> RelationInOrder(r, docs)) <==>
      (forall r :: r in relationships[..n] ==> RelationInOrder(r, docs)) && RelationInOrder(relationships[n], docs)
  {
    var n := |relationships| - 1;
    assert relationships == relationships[..n] + [relationships[n]];
  }

  lemma {:induction false} Counted(findings: seq<Finding>, i: nat)
    requires i < |findings|
    ensures Count(findings, findings[i].status) > 0
    decreases |findings|
  {
    if i > 0 { Counted(findings[1..], i - 1); }
  }

  lemma VerdictPassIff(findings: seq<Finding>)
    ensures VerdictOf(findings) == Pass <==> AllCurrent(findings)
  {
    if VerdictOf(findings) == Pass {
      forall i | 0 <= i < |findings| ensures findings[i].status == Current { Counted(findings, i); }
    }
    if VerdictOf(findings) != Pass {
      CountPositive(findings, Blocked);
      CountPositive(findings, Inconsistent);
      CountPositive(findings, RequiresRegeneration);
      CountPositive(findings, RequiresReview);
      CountPositive(findings, Superseded);
    }
  }

  /** The verdict is PASS exactly when every source record of every relationship is in order. */
  lemma PassIff(relationships: seq<Relationship>, docs: seq<Document>)
    ensures VerdictOf(Findings(relationships, docs)) == Pass <==> forall r :: r in relationships ==>
      RelationInOrder(r, docs)
  {
    VerdictPassIff(Findings(relationships, docs));
    FindingsInOrder(relationships, docs);
  }
}

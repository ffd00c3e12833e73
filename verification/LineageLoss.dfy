/** Accepted updates that do not repair their pair: a mapped column that Frappe manages itself is lost. */
module LineageLoss {
  import opened Text
  import opened Json
  import opened Paths
  import opened LineageRemediation
  import opened LineageRepair
  import L = Lineage

  // ------------------------------------------------------------ paths to columns

  lemma {:induction false} SplitNoDot(s: string)
    requires '.' !in s
    ensures SplitDots(s) == [s]
    decreases |s|
  {
    if s != "" {
      SplitNoDot(s[1..]);
      assert [s[0]] + s[1..] == s;
    }
  }

  lemma {:induction false} SplitAtDot(a: string, b: string)
    requires '.' !in a && '.' !in b
    ensures SplitDots(a + ("." + b)) == [a, b]
    decreases |a|
  {
    var path := a + ("." + b);
    if a == "" {
      SplitNoDot(b);
      assert path[0] == '.' && path[1..] == b;
    } else {
      SplitAtDot(a[1..], b);
      assert path[1..] == a[1..] + ("." + b) && [a[0]] + a[1..] == a;
    }
  }

  function ColumnPath(root: string, column: string): string {
    (root + "[]") + ("." + column)
  }

  lemma ColumnParsed(root: string, column: string)
    requires IsName(root) && IsName(column)
    ensures SplitDots(ColumnPath(root, column)) == [root + "[]", column]
    ensures IsMany(root + "[]") && SegmentName(root + "[]") == root && !IsMany(column) && SegmentName(column) == column
    ensures ParseTarget(ColumnPath(root, column)) == Some(Child(root, column))
      && RootOf(ColumnPath(root, column)) == root
  {
    assert '.' !in root && '.' !in column;
    SplitAtDot(root + "[]", column);
    var many := root + "[]";
    assert many[|many| - 2..] == "[]" && many[..|many| - 2] == root;
    NameIsSingle(column);
  }

  // ------------------------------------------------------------ documents with one row

  /** A table with a plain column `a`, which the two documents have as `x` and `y`, and a managed
      column `m`, which both have as `v`. */
  datatype Example = Example(root: string, a: string, m: string, x: string, y: string, v: string)

  ghost predicate Fits(managed: set<string>, e: Example) {
    && IsName(e.root) && IsName(e.a) && IsName(e.m) && e.a != e.m && e.x != e.y
    && Lower(e.root) !in managed && Lower(e.a) !in managed && Lower(e.m) in managed
  }

  function Row(e: Example, x: string): seq<Member> {
    [Member(e.a, Str(x)), Member(e.m, Str(e.v))]
  }

  function Values(e: Example, x: string): seq<Member> {
    [Member(e.root, Arr([Obj(Row(e, x))]))]
  }

  function OneRow(e: Example, stage: string, x: string): L.Document {
    L.Document(stage, "d", Values(e, x), "/d", true, L.Active, "now")
  }

  lemma RowFields(e: Example, x: string)
    requires e.a != e.m
    ensures Field(Values(e, x), e.root) == Arr([Obj(Row(e, x))])
    ensures Field(Row(e, x), e.a) == Str(x) && Field(Row(e, x), e.m) == Str(e.v)
  {
    assert Row(e, x)[1..] == [Member(e.m, Str(e.v))];
  }

  /** A path to a column of the one row leads to its one cell. */
  lemma CellRead(values: seq<Member>, root: string, row: seq<Member>, column: string)
    requires IsName(root) && IsName(column) && Field(values, root) == Arr([Obj(row)])
    requires !Field(row, column).Undefined?
    ensures L.PathValue(values, ColumnPath(root, column)) == Field(row, column)
    ensures ReadPath(values, ColumnPath(root, column)) == Reading(true, Arr([Field(row, column)]))
  {
    var segments := SplitDots(ColumnPath(root, column));
    var cell := [Field(row, column)];
    ColumnParsed(root, column);
    ExpandOne(Obj(values), segments[0]);
    ExpandOne(Obj(row), column);
    assert segments[1..] == [column] && [column][1..] == [];
    assert !NotAList(Obj(values), segments[0]) && !NotAList(Obj(row), column);
    assert ReadSegments([Obj(row)], [column]) == ReadSegments(cell, []);
    assert ReadSegments([Obj(values)], segments) == Some(cell);
    ReadIsWalk([Obj(values)], segments);
    assert IsMany(segments[0]);
  }

  function AField(e: Example): L.FieldMap {
    L.FieldMap(ColumnPath(e.root, e.a), ColumnPath(e.root, e.a), "a", L.Exact, None)
  }

  function MField(e: Example): L.FieldMap {
    L.FieldMap(ColumnPath(e.root, e.m), ColumnPath(e.root, e.m), "m", L.Exact, None)
  }

  function Relation(e: Example): L.Relationship {
    L.Relationship("r", "order", "invoice", true, true, [], [], [AField(e), MField(e)])
  }

  function Source(e: Example): L.Document {
    OneRow(e, "order", e.x)
  }

  function Target(e: Example): L.Document {
    OneRow(e, "invoice", e.y)
  }

  lemma RelationFields(e: Example)
    ensures L.Fields(Relation(e)) == [AField(e), MField(e)]
    ensures Relation(e).revision + Relation(e).content == [AField(e), MField(e)]
    ensures L.ProperFields(L.Fields(Relation(e)))
  {
  }

  lemma RelationSeparate(managed: set<string>, e: Example)
    requires Fits(managed, e)
    ensures Separate(Relation(e)) && !IsManaged(managed, AField(e).to) && IsManagedColumn(managed, MField(e).to)
  {
    ColumnParsed(e.root, e.a);
    ColumnParsed(e.root, e.m);
    RelationFields(e);
    TwoColumns(Relation(e), AField(e), MField(e));
  }

  lemma TwoColumns(r: L.Relationship, f: L.FieldMap, g: L.FieldMap)
    requires L.Fields(r) == [f, g] && |r.identity| == 0 && IsColumn(f.to) && IsColumn(g.to) && f.to != g.to
    ensures Separate(r)
  {
    forall i, j | 0 <= i < j < |L.Fields(r)|
      ensures IsColumn(L.Fields(r)[i].to) && IsColumn(L.Fields(r)[j].to) && L.Fields(r)[i].to != L.Fields(r)[j].to
    {
      assert i == 0 && j == 1;
    }
  }

  // ------------------------------------------------------------ what is found and proposed

  lemma QuoteDiffers(x: string, y: string)
    requires x != y
    ensures Quote(x) != Quote(y) && Quote(x) != "undefined"
  {
    if Quote(x) == Quote(y) { QuoteUnique(x, y, "", ""); }
    assert Quote(x)[0] == '\"';
  }

  /** The rows differ in `a` and agree in `m`. */
  lemma RowsCompared(managed: set<string>, e: Example)
    requires Fits(managed, e)
    ensures !L.FieldMatches(Source(e), Target(e), AField(e)) && L.FieldMatches(Source(e), Target(e), MField(e))
    ensures L.PathValue(Source(e).values, MField(e).from) == Str(e.v) && !L.Agree(Str(e.v), Undefined, L.Exact)
  {
    RowFields(e, e.x);
    RowFields(e, e.y);
    CellRead(Values(e, e.x), e.root, Row(e, e.x), e.a);
    CellRead(Values(e, e.x), e.root, Row(e, e.x), e.m);
    CellRead(Values(e, e.y), e.root, Row(e, e.y), e.a);
    CellRead(Values(e, e.y), e.root, Row(e, e.y), e.m);
    QuoteDiffers(e.x, e.y);
    QuoteDiffers(e.v, e.v + " ");
  }

  /** The finding's comparisons. */
  lemma ExampleComparisons(managed: set<string>, e: Example)
    requires Fits(managed, e)
    ensures var s := L.Comparisons(Relation(e), Source(e), Target(e));
      && |s| == 2 && s[0].caption == "a" && !s[0].matches && s[1].caption == "m" && s[1].matches
      && s[0].category != L.Identity && s[1].category != L.Identity
  {
    RelationFields(e);
    RowsCompared(managed, e);
    ComparisonAt(Relation(e), Source(e), Target(e), 0);
    ComparisonAt(Relation(e), Source(e), Target(e), 1);
  }

  ghost predicate FirstOnly(s: seq<L.Compared>) {
    && |s| == 2 && s[0].caption == "a" && !s[0].matches && s[1].caption == "m" && s[1].matches
    && s[0].category != L.Identity && s[1].category != L.Identity
  }

  lemma FirstMismatched(finding: L.Finding)
    requires FirstOnly(finding.comparisons)
    ensures Mismatched(finding, "a") && !Mismatched(finding, "m")
  {
  }

  lemma ExampleFinding(managed: set<string>, e: Example)
    requires Fits(managed, e)
    ensures var finding := L.PairFinding(Relation(e), Source(e), Target(e));
      && RefuseUnsafe(finding, Some(Source(e)), Some(Target(e)), Relation(e)).None?
      && Mismatched(finding, "a") && !Mismatched(finding, "m")
  {
    var finding := L.PairFinding(Relation(e), Source(e), Target(e));
    ExampleComparisons(managed, e);
    FirstMismatched(finding);
    RelationFields(e);
    StatusNotBlocked(Relation(e), finding.comparisons);
    NotUnsafe(finding, Source(e), Target(e), Relation(e));
  }

  lemma NotUnsafe(finding: L.Finding, source: L.Document, target: L.Document, r: L.Relationship)
    requires finding.status != L.Blocked && finding.status != L.Superseded && finding.to.Some?
    requires source.readable && target.readable && !L.Retired(target) && target.modified != "" && target.route != ""
    requires FirstOnly(finding.comparisons) && r.identity == []
    ensures RefuseUnsafe(finding, Some(source), Some(target), r).None?
  {
  }

  lemma {:induction false} LabelledMismatch(fields: seq<L.FieldMap>, caption: string)
    requires L.ProperFields(fields)
    ensures var f := L.FieldLabelled(fields, caption);
      f.Some? && f.value.mismatch.Some? ==>
        f.value.mismatch.value != L.Blocked && f.value.mismatch.value != L.Superseded
    decreases |fields|
  {
    if fields != [] { LabelledMismatch(fields[1..], caption); }
  }

  lemma {:induction false} StatusNotBlocked(r: L.Relationship, s: seq<L.Compared>)
    requires L.ProperFields(L.Fields(r))
    ensures L.MismatchesStatus(r, s) != L.Blocked && L.MismatchesStatus(r, s) != L.Superseded
    decreases |s|
  {
    if s != [] {
      StatusNotBlocked(r, s[..|s| - 1]);
      LabelledMismatch(L.Fields(r), s[|s| - 1].caption);
    }
  }

  // ------------------------------------------------------------ the proposal

  lemma ExampleEligible(finding: L.Finding, e: Example)
    requires Mismatched(finding, "a") && !Mismatched(finding, "m")
    ensures Eligible(finding, [AField(e), MField(e)]) == [AField(e)]
  {
    var fields := [AField(e), MField(e)];
    assert fields[..1] == [AField(e)] && [AField(e)][..0] == [];
    assert Eligible(finding, []) == [];
    assert Eligible(finding, [AField(e)]) == [AField(e)];
  }

  lemma ExampleColumns(managed: set<string>, e: Example)
    requires Fits(managed, e)
    ensures MappedColumns(managed, [AField(e), MField(e)], e.root) == [AField(e)]
  {
    var fields := [AField(e), MField(e)];
    ColumnParsed(e.root, e.a);
    ColumnParsed(e.root, e.m);
    assert fields[..1] == [AField(e)] && [AField(e)][..0] == [];
    assert MappedColumns(managed, [], e.root) == [];
    assert MappedColumns(managed, [AField(e)], e.root) == [AField(e)];
  }

  /** The table of the target is refilled from that of the source. */
  lemma ExampleChange(managed: set<string>, e: Example)
    requires Fits(managed, e)
    ensures TableChange(managed, [AField(e), MField(e)], Source(e), Target(e), e.root).Some?
  {
    ExampleColumns(managed, e);
    ColumnParsed(e.root, e.a);
    RowFields(e, e.x);
    RowFields(e, e.y);
    CellRead(Values(e, e.x), e.root, Row(e, e.x), e.a);
    OneCellRefills(managed, AField(e), Source(e), Field(Target(e).values, e.root), Str(e.x));
  }

  lemma OneCellRefills(managed: set<string>, f: L.FieldMap, source: L.Document, before: Json, cell: Json)
    requires IsColumn(f.to) && IsColumn(f.from) && f.comparison != L.AsSet && IsTable(before) && !cell.Undefined?
    requires ReadPath(source.values, f.from) == Reading(true, Arr([cell]))
    ensures Refilled(managed, [f], source, before).Some?
  {
    ParsedShape(f.from);
    var cells := AllCells(source, [f]);
    assert cells == [[cell]];
  }

  lemma OneRoot(e: Example)
    requires IsName(e.root) && IsName(e.a)
    ensures PlainChanges([AField(e)], Source(e)) == Some([]) && SortedKeys(ChildRoots([AField(e)])) == [e.root]
  {
    ColumnParsed(e.root, e.a);
    assert [AField(e)][..0] == [] && PlainChanges([], Source(e)) == Some([]);
    var roots := ChildRoots([AField(e)]);
    assert e.root in roots by { assert ParseTarget([AField(e)][0].to).value.root == e.root; }
    assert roots == {e.root};
    var sorted := SortedKeys(roots);
    assert |sorted| == 1 && sorted[0] in sorted;
  }

  lemma OneTable(managed: set<string>, fields: seq<L.FieldMap>, source: L.Document, target: L.Document, root: string)
    requires TableChange(managed, fields, source, target, root).Some?
    ensures TableChanges(managed, fields, source, target, [root])
         == Some([TableChange(managed, fields, source, target, root).value])
  {
    var changeOf := root => TableChange(managed, fields, source, target, root);
    assert changeOf(root) == TableChange(managed, fields, source, target, root);
    CollectOne(root, changeOf);
  }

  lemma CollectOne(root: string, changeOf: string -> Option<Change>)
    requires changeOf(root).Some?
    ensures Collected([root], changeOf) == Some([changeOf(root).value])
  {
    var none: seq<Change> := [];
    assert [root][..0] == [] && [root][0] == root;
    assert Collected([], changeOf) == Some(none);
    assert none + [changeOf(root).value] == [changeOf(root).value];
  }

  /** When every eligible field can be changed and the changes do not clash, they are proposed. */
  lemma ChangesProposed(managed: set<string>, r: L.Relationship, finding: L.Finding, source: L.Document,
                        target: L.Document, eligible: seq<L.FieldMap>, plain: seq<Change>, tables: seq<Change>)
    requires Eligible(finding, r.revision + r.content) == eligible
    requires !SomeUnparsed(eligible) && !SomeManaged(managed, eligible)
    requires PlainChanges(eligible, source) == Some(plain)
    requires TableChanges(managed, r.revision + r.content, source, target, SortedKeys(ChildRoots(eligible))) ==
      Some(tables)
    requires !Clash(plain + tables) && plain + tables != []
    ensures Propose(managed, r, finding, source, target).Ok?
  {
    assert Propose(managed, r, finding, source, target) == Ok(Unique(plain + tables));
  }

  lemma ExampleProposal(managed: set<string>, e: Example, finding: L.Finding)
    requires Fits(managed, e) && Mismatched(finding, "a") && !Mismatched(finding, "m")
    ensures Propose(managed, Relation(e), finding, Source(e), Target(e)).Ok?
  {
    RelationFields(e);
    RelationSeparate(managed, e);
    ColumnParsed(e.root, e.a);
    ExampleEligible(finding, e);
    OneRoot(e);
    ExampleChange(managed, e);
    OneTable(managed, [AField(e), MField(e)], Source(e), Target(e), e.root);
    var c := TableChange(managed, [AField(e), MField(e)], Source(e), Target(e), e.root).value;
    assert [] + [c] == [c] && !Clash([c]);
    ChangesProposed(managed, Relation(e), finding, Source(e), Target(e), [AField(e)], [], [c]);
  }

  /** The proposal is accepted, and once it is made the pair is not Current. */
  ghost predicate NotRepaired(managed: set<string>, r: L.Relationship, source: L.Document, target: L.Document) {
    var finding := L.PairFinding(r, source, target);
    var proposed := Propose(managed, r, finding, source, target);
    && RefuseUnsafe(finding, Some(source), Some(target), r).None? && proposed.Ok?
    && L.PairFinding(r, source, Apply(target, proposed.value)).status != L.Current
  }

  /** For every such table the accepted update does not repair the pair: the managed column, which agreed
      before, is lost. */
  lemma AcceptedButNotRepaired(managed: set<string>, e: Example)
    requires Fits(managed, e)
    ensures L.ProperFields(L.Fields(Relation(e))) && Separate(Relation(e))
    ensures NotRepaired(managed, Relation(e), Source(e), Target(e))
  {
    var finding := L.PairFinding(Relation(e), Source(e), Target(e));
    RelationFields(e);
    RelationSeparate(managed, e);
    ExampleFinding(managed, e);
    ExampleProposal(managed, e, finding);
    ColumnLost(managed, e, finding);
    RepairIff(managed, Relation(e), Source(e), Target(e));
  }

  lemma ColumnLost(managed: set<string>, e: Example, finding: L.Finding)
    requires Fits(managed, e) && Mismatched(finding, "a")
    ensures var fields := Relation(e).revision + Relation(e).content;
      MField(e) in fields && Loses(managed, Relation(e), Source(e), MismatchedRoots(finding, fields), MField(e))
  {
    RelationFields(e);
    RelationSeparate(managed, e);
    RowsCompared(managed, e);
    ColumnParsed(e.root, e.a);
    ColumnParsed(e.root, e.m);
    var fields := [AField(e), MField(e)];
    assert AField(e) in fields && MField(e) in fields;
    assert RootOf(AField(e).to) in MismatchedRoots(finding, fields);
  }

  /** An instance with the fields that Frappe manages: the rows {a: "1", idx: "1"} and {a: "2", idx: "1"}. */
  lemma RowNumberLost() returns (e: Example)
    ensures e == Example("items", "a", "idx", "1", "2", "1")
    ensures NotRepaired(SYSTEM_FIELDS, Relation(e), Source(e), Target(e))
  {
    e := Example("items", "a", "idx", "1", "2", "1");
    SystemColumns();
    AcceptedButNotRepaired(SYSTEM_FIELDS, e);
  }

  lemma SystemColumns()
    ensures Fits(SYSTEM_FIELDS, Example("items", "a", "idx", "1", "2", "1"))
  {
    assert Lower("items") == "items" && Lower("a") == "a" && Lower("idx") == "idx";
  }
}

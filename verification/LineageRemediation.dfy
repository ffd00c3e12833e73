/** Planning updates that repair lineage mismatches, and why such an update repairs them. */
module LineageRemediation {
  import opened Text
  import opened Json
  import opened Paths
  import L = Lineage

  // -------------------------------------------------------------------- paths

  predicate IsNameStart(c: char) {
    'a' <= c <= 'z' || 'A' <= c <= 'Z' || c == '_'
  }

  predicate IsName(s: string) {
    s != "" && IsNameStart(s[0]) && forall i :: 0 <= i < |s| ==> IsNameStart(s[i]) || IsDigit(s[i])
  }

  datatype TargetPath = Plain(root: string) | Child(root: string, column: string)

  /** `parseTargetPath`: `root`, or `root[].column`. */
  function ParseTarget(path: string): Option<TargetPath> {
    var segments := SplitDots(path);
    if |segments| == 1 && IsName(segments[0]) then Some(Plain(segments[0]))
    else if |segments| == 2 && IsMany(segments[0]) && IsName(SegmentName(segments[0])) && IsName(segments[1])
    then Some(Child(SegmentName(segments[0]), segments[1]))
    else None
  }

  /** The member of the document that a path begins with. */
  function RootOf(path: string): string {
    SegmentName(SplitDots(path)[0])
  }

  lemma NameIsSingle(s: string)
    requires IsName(s)
    ensures !IsMany(s) && SegmentName(s) == s
  {
    if |s| >= 2 { assert s[|s| - 2..][1] == s[|s| - 1] != ']'; }
  }

  lemma ParsedShape(path: string)
    ensures var t := ParseTarget(path);
      && (t.Some? && t.value.Plain? ==>
           SplitDots(path) == [t.value.root] && !IsMany(t.value.root) && RootOf(path) == t.value.root
             && path == t.value.root)
      && (t.Some? && t.value.Child? ==>
            SplitDots(path) == [t.value.root + "[]", t.value.column] && RootOf(path) == t.value.root
              && !IsMany(t.value.column))
  {
    var segments := SplitDots(path);
    JoinSplit(path);
    if |segments| == 1 && IsName(segments[0]) {
      NameIsSingle(segments[0]);
    } else if |segments| == 2 && IsMany(segments[0]) && IsName(segments[1]) {
      NameIsSingle(segments[1]);
      assert segments[0] == SegmentName(segments[0]) + segments[0][|segments[0]| - 2..];
    }
  }

  /** Two paths to the same column of the same table are one path. */
  lemma ParsedUnique(a: string, b: string)
    requires ParseTarget(a).Some? && ParseTarget(a) == ParseTarget(b)
    ensures a == b
  {
    ParsedShape(a);
    ParsedShape(b);
    JoinSplit(a);
    JoinSplit(b);
  }

  /** What `readPath` reads: whether the path ranges over rows, and the value or list of values. */
  datatype Reading = Reading(many: bool, value: Json)

  predicate NotAList(value: Json, segment: string) {
    value.Obj? && IsMany(segment) && !Field(value.members, SegmentName(segment)).Undefined?
      && !Field(value.members, SegmentName(segment)).Arr?
  }

  function ReadSegments(cursors: seq<Json>, segments: seq<string>): Option<seq<Json>>
    decreases |segments|
  {
    if segments == [] then Some(cursors)
    else if exists i :: 0 <= i < |cursors| && NotAList(cursors[i], segments[0]) then None
    else ReadSegments(ExpandAll(cursors, segments[0]), segments[1..])
  }

  function ReadPath(values: seq<Member>, path: string): Reading {
    var segments := SplitDots(path);
    var cursors := ReadSegments([Obj(values)], segments);
    if exists i :: 0 <= i < |segments| && IsMany(segments[i]) then
      Reading(true, if cursors.None? then Undefined else Arr(cursors.value))
    else Reading(false, if cursors.Some? && |cursors.value| == 1 then cursors.value[0] else Undefined)
  }

  lemma {:induction false} ReadIsWalk(cursors: seq<Json>, segments: seq<string>)
    ensures ReadSegments(cursors, segments).Some? ==> ReadSegments(cursors, segments).value == Walk(cursors, segments)
    decreases |segments|
  {
    if segments != [] { ReadIsWalk(ExpandAll(cursors, segments[0]), segments[1..]); }
  }

  /** What is read is what the validator compares. */
  lemma ReadIsPathValue(values: seq<Member>, path: string)
    ensures var r := ReadPath(values, path);
      && (!r.many && r.value != Undefined ==> L.PathValue(values, path) == r.value)
      && (r.many && r.value.Arr? ==> L.PathValue(values, path) == L.Gathered(r.value.items))
  {
    ReadIsWalk([Obj(values)], SplitDots(path));
  }

  // ------------------------------------------------------------ managed fields

  /** Fields that Frappe manages itself, in lower case. */
  const SYSTEM_FIELDS: set<string> := {
    "name", "owner", "creation", "modified", "modified_by", "docstatus", "idx", "parent", "parentfield", "parenttype",
    "doctype", "__islocal", "__unsaved", "_user_tags", "_comments", "_assign", "_liked_by"
  }

  /** `sanitizeValue`: managed members are dropped, at every depth. */
  function Sanitize(managed: set<string>, value: Json): Json
    decreases value, 0
  {
    match value
    case Arr(items) => Arr(SanitizeAll(managed, items))
    case Obj(members) => Obj(SanitizeRow(managed, members))
    case _ => value
  }

  function SanitizeAll(managed: set<string>, items: seq<Json>): (r: seq<Json>)
    ensures |r| == |items| && forall i :: 0 <= i < |items| ==> r[i] == Sanitize(managed, items[i])
    decreases items, 1
  {
    if items == [] then [] else [Sanitize(managed, items[0])] + SanitizeAll(managed, items[1..])
  }

  function SanitizeRow(managed: set<string>, members: seq<Member>): seq<Member>
    decreases members, 1
  {
    if members == [] then []
    else
      (if Lower(members[0].key) in managed then [] else [Member(members[0].key, Sanitize(managed, members[0].value))])
      + SanitizeRow(managed, members[1..])
  }

  lemma {:induction false} SanitizedField(managed: set<string>, members: seq<Member>, key: string)
    ensures Field(SanitizeRow(managed, members), key) ==
            if Lower(key) in managed then Undefined else Sanitize(managed, Field(members, key))
    decreases |members|
  {
    if members != [] {
      SanitizedField(managed, members[1..], key);
      var rest := SanitizeRow(managed, members[1..]);
      if Lower(members[0].key) in managed {
        assert [] + rest == rest;
      } else {
        assert ([Member(members[0].key, Sanitize(managed, members[0].value))] + rest)[1..] == rest;
      }
    }
  }

  predicate IsScalar(value: Json) {
    value.Null? || value.Str? || value.Num? || value.Bool?
  }

  predicate IsManaged(managed: set<string>, path: string) {
    match ParseTarget(path)
    case None => true
    case Some(Plain(root)) => Lower(root) in managed
    case Some(Child(root, column)) => Lower(root) in managed || Lower(column) in managed
  }

  // ---------------------------------------------------------------- refusals

  datatype Code =
    | IsBlocked | MissingRecord | UnreadableRecord | IdentityChange | SupersededRecord | MissingConcurrencyToken
    | MissingRoute
    | UnsupportedPath | UnsafeSystemField | AmbiguousChildRows | NoSafeChange | ConflictingActions | Thrown

  function Targets(fields: seq<L.FieldMap>): set<string> {
    set i | 0 <= i < |fields| :: fields[i].to
  }

  /** `refuseUnsafeFinding`. */
  function RefuseUnsafe(finding: L.Finding, source: Option<L.Document>, target: Option<L.Document>,
                        r: L.Relationship): Option<Code> {
    if finding.status == L.Blocked then Some(IsBlocked)
    else if finding.to.None? || source.None? || target.None? then Some(MissingRecord)
    else if !source.value.readable || !target.value.readable then Some(UnreadableRecord)
    else if finding.status == L.Superseded || L.Retired(target.value) then Some(SupersededRecord)
    else if exists i ::
      0 <= i < |finding.comparisons| && finding.comparisons[i].category == L.Identity
      && !finding.comparisons[i].matches
    then Some(IdentityChange)
    else if exists i :: 0 <= i < |r.revision + r.content| && (r.revision + r.content)[i].to in Targets(r.identity)
    then Some(IdentityChange)
    else if target.value.modified == "" then Some(MissingConcurrencyToken)
    else if target.value.route == "" then Some(MissingRoute)
    else None
  }

  // --------------------------------------------------------------- proposals

  /** A new value for a plain field or for a whole child table. */
  datatype Change = Change(path: string, value: Json)

  predicate Mismatched(finding: L.Finding, caption: string) {
    exists i :: 0 <= i < |finding.comparisons| && !finding.comparisons[i].matches
                && finding.comparisons[i].category != L.Identity && finding.comparisons[i].caption == caption
  }

  /** The mapped fields whose comparison failed. */
  function Eligible(finding: L.Finding, fields: seq<L.FieldMap>): seq<L.FieldMap>
    decreases |fields|
  {
    if fields == [] then []
    else
      var n := |fields| - 1;
      if Mismatched(finding, fields[n].caption) then Eligible(finding, fields[..n]) + [fields[n]]
        else Eligible(finding, fields[..n])
  }

  predicate IsPlain(path: string) {
    ParseTarget(path).Some? && ParseTarget(path).value.Plain?
  }

  predicate IsChildOf(path: string, root: string) {
    ParseTarget(path).Some? && ParseTarget(path).value.Child? && ParseTarget(path).value.root == root
  }

  /** One change for each plain field, from the one scalar its source path leads to. */
  function PlainChanges(fields: seq<L.FieldMap>, source: L.Document): Option<seq<Change>>
    decreases |fields|
  {
    if fields == [] then Some([])
    else
      var n := |fields| - 1;
      var before := PlainChanges(fields[..n], source);
      if before.None? || !IsPlain(fields[n].to) then before
      else
        var expected := ReadPath(source.values, fields[n].from);
        if expected.many || !IsScalar(expected.value) then None
        else Some(before.value + [Change(fields[n].to, expected.value)])
  }

  function ChildRoots(fields: seq<L.FieldMap>): set<string> {
    set i | 0 <= i < |fields| && ParseTarget(fields[i].to).Some? && ParseTarget(fields[i].to).value.Child? ::
      ParseTarget(fields[i].to).value.root
  }

  /** The mapped columns of a child table, managed ones left out. */
  function MappedColumns(managed: set<string>, fields: seq<L.FieldMap>, root: string): seq<L.FieldMap>
    decreases |fields|
  {
    if fields == [] then []
    else
      var n := |fields| - 1;
      var before := MappedColumns(managed, fields[..n], root);
      if IsChildOf(fields[n].to, root) && !IsManaged(managed, fields[n].to) then before + [fields[n]] else before
  }

  /** The source's cells for a mapped column. */
  function Cells(source: L.Document, field: L.FieldMap): Json {
    ReadPath(source.values, field.from).value
  }

  predicate IsTable(value: Json) {
    value.Undefined? || (value.Arr? && forall i :: 0 <= i < |value.items| ==> value.items[i].Obj?)
  }

  /** The mapped columns come from one table of the source, in a comparison that keeps row order. */
  predicate OneSourceTable(columns: seq<L.FieldMap>) {
    && columns != []
    && forall k :: 0 <= k < |columns| ==>
         && ParseTarget(columns[k].from).Some? && ParseTarget(columns[k].from).value.Child?
         && ParseTarget(columns[k].from).value.root == RootOf(columns[0].from)
         && columns[k].comparison != L.AsSet
  }

  predicate AreLists(columns: seq<L.FieldMap>, source: L.Document) {
    forall k :: 0 <= k < |columns| ==> ReadPath(source.values, columns[k].from).many && Cells(source, columns[k]).Arr?
  }

  /** Every column has `n` cells, none of them missing. */
  predicate HaveRows(cells: seq<seq<Json>>, n: nat) {
    forall k :: 0 <= k < |cells| ==> |cells[k]| == n && forall i :: 0 <= i < n ==> !cells[k][i].Undefined?
  }

  function ColumnOf(field: L.FieldMap): string
    requires ParseTarget(field.to).Some? && ParseTarget(field.to).value.Child?
  {
    ParseTarget(field.to).value.column
  }

  ghost predicate AreColumns(columns: seq<L.FieldMap>) {
    forall k :: 0 <= k < |columns| ==> ParseTarget(columns[k].to).Some? && ParseTarget(columns[k].to).value.Child?
  }

  lemma {:induction false} MappedAreColumns(managed: set<string>, fields: seq<L.FieldMap>, root: string)
    ensures AreColumns(MappedColumns(managed, fields, root))
    decreases |fields|
  {
    if fields != [] { MappedAreColumns(managed, fields[..|fields| - 1], root); }
  }

  /** A row with the first `n` columns filled in from row `index` of the source's cells. */
  function FilledRow(managed: set<string>, row: seq<Member>, columns: seq<L.FieldMap>, cells: seq<seq<Json>>,
                     index: nat, n: nat): seq<Member>
    requires n <= |columns| == |cells| && AreColumns(columns) && forall k :: 0 <= k < |cells| ==> index < |cells[k]|
    decreases n
  {
    if n == 0 then row
    else SetField(FilledRow(managed, row, columns, cells, index, n - 1), ColumnOf(columns[n - 1]),
      Sanitize(managed, cells[n - 1][index]))
  }

  /** The row of the target that is filled in: its own without managed members, or an empty one. */
  function RowBefore(managed: set<string>, before: Json, index: nat): seq<Member> {
    if before.Arr? && index < |before.items| && before.items[index].Obj? then
      SanitizeRow(managed, before.items[index].members) else []
  }

  /** Row `index` of the target with all columns filled in. */
  function FilledRowAt(managed: set<string>, before: Json, columns: seq<L.FieldMap>, cells: seq<seq<Json>>,
                       index: nat): Json
    requires |columns| == |cells| && AreColumns(columns) && forall k :: 0 <= k < |cells| ==> index < |cells[k]|
  {
    Obj(FilledRow(managed, RowBefore(managed, before, index), columns, cells, index, |columns|))
  }

  function FilledRows(managed: set<string>, before: Json, columns: seq<L.FieldMap>, cells: seq<seq<Json>>,
                      n: nat): (r: seq<Json>)
    requires |columns| == |cells| && AreColumns(columns) && forall k :: 0 <= k < |cells| ==> n <= |cells[k]|
    ensures |r| == n && forall i :: 0 <= i < n ==> r[i] == FilledRowAt(managed, before, columns, cells, i)
    decreases n
  {
    if n == 0 then []
    else
      FilledRows(managed, before, columns, cells, n - 1) + [FilledRowAt(managed, before, columns, cells, n - 1)]
  }

  function AllCells(source: L.Document, columns: seq<L.FieldMap>): (r: seq<seq<Json>>)
    requires forall k :: 0 <= k < |columns| ==> Cells(source, columns[k]).Arr?
    ensures |r| == |columns| && forall k :: 0 <= k < |columns| ==> r[k] == Cells(source, columns[k]).items
  {
    if columns == [] then [] else [Cells(source, columns[0]).items] + AllCells(source, columns[1..])
  }

  /** The new rows of a table: the target's rows with the mapped columns filled in, as many as the source has. */
  function TableValue(managed: set<string>, columns: seq<L.FieldMap>, before: Json, cells: seq<seq<Json>>, n: nat): Json
    requires |columns| == |cells| && AreColumns(columns) && forall k :: 0 <= k < |cells| ==> |cells[k]| == n
  {
    Sanitize(managed, Arr(FilledRows(managed, before, columns, cells, n)))
  }

  /** The new value of a table, or None where the mapped columns do not give one value for each row. */
  function Refilled(managed: set<string>, columns: seq<L.FieldMap>, source: L.Document, before: Json): Option<Json>
    requires AreColumns(columns)
  {
    if !OneSourceTable(columns) || !IsTable(before) || !AreLists(columns, source) then None
    else
      var cells := AllCells(source, columns);
      if !HaveRows(cells, |cells[0]|) then None else Some(TableValue(managed, columns, before, cells, |cells[0]|))
  }

  /** The change of one child table, or None where its rows are ambiguous. */
  function TableChange(managed: set<string>, fields: seq<L.FieldMap>, source: L.Document, target: L.Document,
                       root: string): Option<Change> {
    var columns := MappedColumns(managed, fields, root);
    MappedAreColumns(managed, fields, root);
    var value := Refilled(managed, columns, source, Field(target.values, root));
    if value.None? then None else Some(Change(root, value.value))
  }

  /** The changes of several tables, or None where one of them has none. */
  function Collected(roots: seq<string>, changeOf: string -> Option<Change>): Option<seq<Change>>
    decreases |roots|
  {
    if roots == [] then Some([])
    else
      var n := |roots| - 1;
      var before := Collected(roots[..n], changeOf);
      var change := changeOf(roots[n]);
      if before.None? || change.None? then None else Some(before.value + [change.value])
  }

  function TableChanges(managed: set<string>, fields: seq<L.FieldMap>, source: L.Document, target: L.Document,
                        roots: seq<string>): Option<seq<Change>> {
    Collected(roots, root => TableChange(managed, fields, source, target, root))
  }

  /** The last change for each path. */
  function ByPath(changes: seq<Change>): map<string, Change>
    decreases |changes|
  {
    if changes == [] then map[]
    else
      var n := |changes| - 1;
      ByPath(changes[..n])[changes[n].path := changes[n]]
  }

  /** `canonical`, for the JSON values that changes hold. */
  function CanonicalText(value: Json): string {
    if Canonicalizable(value) then ValueText(value) else "undefined"
  }

  predicate Clash(changes: seq<Change>) {
    exists i, j :: 0 <= i < j < |changes| && changes[i].path == changes[j].path
                   && CanonicalText(changes[i].value) != CanonicalText(changes[j].value)
  }

  function InOrderOf(paths: seq<string>, changes: map<string, Change>): (r: seq<Change>)
    requires forall p :: p in paths ==> p in changes
    ensures |r| == |paths| && forall i :: 0 <= i < |paths| ==> r[i] == changes[paths[i]]
    decreases |paths|
  {
    if paths == [] then [] else [changes[paths[0]]] + InOrderOf(paths[1..], changes)
  }

  /** `dedupeChanges`, sorted by path. */
  function Unique(changes: seq<Change>): seq<Change> {
    InOrderOf(SortedKeys(ByPath(changes).Keys), ByPath(changes))
  }

  predicate SomeUnparsed(fields: seq<L.FieldMap>) {
    exists i :: 0 <= i < |fields| && ParseTarget(fields[i].to).None?
  }

  predicate SomeManaged(managed: set<string>, fields: seq<L.FieldMap>) {
    exists i :: 0 <= i < |fields| && IsManaged(managed, fields[i].to)
  }

  /** `proposeAction`: the changes it proposes, or why it proposes none. */
  function Propose(managed: set<string>, r: L.Relationship, finding: L.Finding, source: L.Document,
                   target: L.Document): Result<seq<Change>, Code> {
    var fields := r.revision + r.content;
    var eligible := Eligible(finding, fields);
    if SomeUnparsed(eligible) then Err(UnsupportedPath)
    else if SomeManaged(managed, eligible) then Err(UnsafeSystemField)
    else
      var plain := PlainChanges(eligible, source);
      if plain.None? then Err(UnsupportedPath)
      else
        var tables := TableChanges(managed, fields, source, target, SortedKeys(ChildRoots(eligible)));
        if tables.None? then Err(AmbiguousChildRows)
        else if Clash(plain.value + tables.value) then Err(Thrown)
        else if plain.value + tables.value == [] then Err(NoSafeChange)
        else Ok(Unique(plain.value + tables.value))
  }
}

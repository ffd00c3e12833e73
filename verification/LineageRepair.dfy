/** Applying a proposed update makes the validator accept the pair. */
module LineageRepair {
  import opened Text
  import opened Json
  import opened Paths
  import opened LineageRemediation
  import L = Lineage

  // ------------------------------------------------------------ applying changes

  function SetAll(values: seq<Member>, changes: seq<Change>): seq<Member>
    decreases |changes|
  {
    if changes == [] then values
    else
      var n := |changes| - 1;
      SetField(SetAll(values, changes[..n]), changes[n].path, changes[n].value)
  }

  /** The target with all changes of an action made. */
  function Apply(target: L.Document, changes: seq<Change>): L.Document {
    target.(values := SetAll(target.values, changes))
  }

  lemma {:induction false} SetAllField(values: seq<Member>, changes: seq<Change>, key: string)
    ensures Field(SetAll(values, changes), key) == if key in ByPath(changes) then ByPath(changes)[key].value
      else Field(values, key)
    decreases |changes|
  {
    if changes != [] {
      var n := |changes| - 1;
      SetAllField(values, changes[..n], key);
      SetThenField(SetAll(values, changes[..n]), changes[n].path, changes[n].value, key);
    }
  }

  lemma {:induction false} ByPathIn(changes: seq<Change>)
    ensures forall p :: p in ByPath(changes) ==> ByPath(changes)[p].path == p && ByPath(changes)[p] in changes
    ensures forall c :: c in changes ==> c.path in ByPath(changes)
    decreases |changes|
  {
    if changes != [] {
      var n := |changes| - 1;
      ByPathIn(changes[..n]);
      assert changes == changes[..n] + [changes[n]];
    }
  }

  lemma {:induction false} ByPathOfOrdered(paths: seq<string>, m: map<string, Change>)
    requires forall p :: p in m ==> m[p].path == p
    requires forall p :: p in paths ==> p in m
    ensures forall p :: p in ByPath(InOrderOf(paths, m)) <==> p in paths
    ensures forall p :: p in paths ==> ByPath(InOrderOf(paths, m))[p] == m[p]
  {
    ByPathOfSome(InOrderOf(paths, m), m);
    var s := InOrderOf(paths, m);
    ByPathIn(s);
    forall p | p in paths ensures p in ByPath(s) {
      var i :| 0 <= i < |paths| && paths[i] == p;
      assert s[i] in s && s[i].path == p;
    }
    forall p | p in ByPath(s) ensures p in paths {
      var i :| 0 <= i < |s| && s[i] == ByPath(s)[p];
      assert paths[i] == p;
    }
  }

  lemma {:induction false} ByPathOfSome(changes: seq<Change>, m: map<string, Change>)
    requires forall i :: 0 <= i < |changes| ==> changes[i].path in m && m[changes[i].path] == changes[i]
    ensures forall p :: p in ByPath(changes) ==> p in m && ByPath(changes)[p] == m[p]
    decreases |changes|
  {
    if changes != [] { ByPathOfSome(changes[..|changes| - 1], m); }
  }

  /** Removing repetitions and sorting changes no value. */
  lemma UniqueField(values: seq<Member>, changes: seq<Change>, key: string)
    ensures Field(SetAll(values, Unique(changes)), key) ==
            if key in ByPath(changes) then ByPath(changes)[key].value else Field(values, key)
  {
    var m := ByPath(changes);
    ByPathIn(changes);
    ByPathOfOrdered(SortedKeys(m.Keys), m);
    SetAllField(values, Unique(changes), key);
  }

  // --------------------------------------------------------------- reading a path

  /** What a path reads depends on the member it begins with only. */
  lemma PathFrame(values: seq<Member>, values': seq<Member>, path: string)
    requires Field(values, RootOf(path)) == Field(values', RootOf(path))
    ensures L.PathValue(values, path) == L.PathValue(values', path)
  {
    OneCursor(values, SplitDots(path));
    OneCursor(values', SplitDots(path));
  }

  lemma OneCursor(values: seq<Member>, segments: seq<string>)
    requires |segments| >= 1
    ensures Walk([Obj(values)], segments) ==
      Walk(Children(Field(values, SegmentName(segments[0])), IsMany(segments[0])), segments[1..])
  {
    ExpandOne(Obj(values), segments[0]);
  }

  lemma ExpandOne(value: Json, segment: string)
    ensures ExpandAll([value], segment) == Expand(value, segment)
  {
    var one := [value];
    assert one[1..] == [] && ExpandAll(one[1..], segment) == [];
    assert Expand(value, segment) + [] == Expand(value, segment);
  }

  lemma PlainValue(values: seq<Member>, path: string)
    requires IsPlain(path)
    ensures L.PathValue(values, path) == Field(values, path)
  {
    ParsedShape(path);
    OneCursor(values, SplitDots(path));
    assert SplitDots(path)[1..] == [];
  }

  lemma ColumnValue(values: seq<Member>, path: string)
    requires ParseTarget(path).Some? && ParseTarget(path).value.Child?
    requires Field(values, RootOf(path)).Arr?
    ensures L.PathValue(values, path) ==
      L.Gathered(ExpandAll(Field(values, RootOf(path)).items, ParseTarget(path).value.column))
  {
    var column := ParseTarget(path).value.column;
    ParsedShape(path);
    var segments := SplitDots(path);
    assert segments[0] == RootOf(path) + "[]" && IsMany(segments[0]) by {
      assert segments[0][|segments[0]| - 2..] == "[]";
    }
    OneCursor(values, segments);
    assert segments[1..] == [column] && [column][1..] == [];
  }

  lemma {:induction false} ExpandEach(items: seq<Json>, column: string, cells: seq<Json>)
    requires |items| == |cells| && forall i :: 0 <= i < |items| ==> Expand(items[i], column) == [cells[i]]
    ensures ExpandAll(items, column) == cells
    decreases |items|
  {
    if items != [] {
      ExpandEach(items[1..], column, cells[1..]);
      assert cells == [cells[0]] + cells[1..];
    }
  }

  // --------------------------------------------------------------- filled-in tables

  ghost predicate DistinctColumns(columns: seq<L.FieldMap>)
    requires AreColumns(columns)
  {
    forall i, j :: 0 <= i < j < |columns| ==> ColumnOf(columns[i]) != ColumnOf(columns[j])
  }

  lemma {:induction false} FilledField(managed: set<string>, row: seq<Member>, columns: seq<L.FieldMap>,
                                       cells: seq<seq<Json>>, index: nat, n: nat, k: nat)
    requires k < n <= |columns| == |cells| && AreColumns(columns) && DistinctColumns(columns)
    requires forall k :: 0 <= k < |cells| ==> index < |cells[k]|
    ensures Field(FilledRow(managed, row, columns, cells, index, n), ColumnOf(columns[k])) ==
      Sanitize(managed, cells[k][index])
    decreases n
  {
    var before := FilledRow(managed, row, columns, cells, index, n - 1);
    SetThenField(before, ColumnOf(columns[n - 1]), Sanitize(managed, cells[n - 1][index]), ColumnOf(columns[k]));
    if k < n - 1 { FilledField(managed, row, columns, cells, index, n - 1, k); }
  }

  /** Nothing managed is left to drop a second time. */
  lemma {:induction false} SanitizeTwice(managed: set<string>, value: Json)
    ensures Sanitize(managed, Sanitize(managed, value)) == Sanitize(managed, value)
    decreases value, 0
  {
    match value
    case Arr(items) =>
      var once := SanitizeAll(managed, items);
      forall i | 0 <= i < |items| ensures SanitizeAll(managed, once)[i] == once[i] { SanitizeTwice(managed, items[i]); }
    case Obj(members) => SanitizeRowTwice(managed, members);
    case _ =>
  }

  lemma {:induction false} SanitizeRowTwice(managed: set<string>, members: seq<Member>)
    ensures SanitizeRow(managed, SanitizeRow(managed, members)) == SanitizeRow(managed, members)
    decreases members, 1
  {
    if members != [] {
      var rest := SanitizeRow(managed, members[1..]);
      SanitizeRowTwice(managed, members[1..]);
      if Lower(members[0].key) !in managed {
        SanitizeTwice(managed, members[0].value);
        assert SanitizeRow(managed, members)[1..] == rest;
      } else {
        assert SanitizeRow(managed, members) == rest;
      }
    }
  }

  lemma FilledCell(managed: set<string>, row: seq<Member>, columns: seq<L.FieldMap>, cells: seq<seq<Json>>, index: nat,
                   k: nat)
    requires k < |columns| == |cells| && AreColumns(columns) && DistinctColumns(columns)
    requires forall j :: 0 <= j < |cells| ==> index < |cells[j]|
    requires Lower(ColumnOf(columns[k])) !in managed && !IsMany(ColumnOf(columns[k])) && !cells[k][index].Undefined?
    ensures Expand(Obj(SanitizeRow(managed, FilledRow(managed, row, columns, cells, index, |columns|))),
      ColumnOf(columns[k])) == [Sanitize(managed, cells[k][index])]
  {
    SanitizeTwice(managed, cells[k][index]);
    FilledField(managed, row, columns, cells, index, |columns|, k);
    SanitizedField(managed, FilledRow(managed, row, columns, cells, index, |columns|), ColumnOf(columns[k]));
  }

  /** A filled-in table reads back, column by column, as the source's cells without managed members. */
  lemma TableReadsBack(managed: set<string>, before: Json, columns: seq<L.FieldMap>, cells: seq<seq<Json>>, n: nat,
                       k: nat)
    requires k < |columns| == |cells| && AreColumns(columns) && DistinctColumns(columns)
    requires forall j :: 0 <= j < |cells| ==> |cells[j]| == n
    requires Lower(ColumnOf(columns[k])) !in managed && !IsMany(ColumnOf(columns[k]))
    requires forall i :: 0 <= i < n ==> !cells[k][i].Undefined?
    ensures var table := TableValue(managed, columns, before, cells, n);
      table.Arr? && ExpandAll(table.items, ColumnOf(columns[k])) == SanitizeAll(managed, cells[k])
  {
    var items := SanitizeAll(managed, FilledRows(managed, before, columns, cells, n));
    forall i | 0 <= i < n ensures Expand(items[i], ColumnOf(columns[k])) == [Sanitize(managed, cells[k][i])] {
      FilledCell(managed, RowBefore(managed, before, i), columns, cells, i, k);
    }
    ExpandEach(items, ColumnOf(columns[k]), SanitizeAll(managed, cells[k]));
  }

  lemma {:induction false} MappedIn(managed: set<string>, fields: seq<L.FieldMap>, root: string)
    ensures forall f :: f in MappedColumns(managed, fields, root) <==>
      f in fields && IsChildOf(f.to, root) && !IsManaged(managed, f.to)
    decreases |fields|
  {
    if fields != [] {
      MappedIn(managed, fields[..|fields| - 1], root);
      assert fields == fields[..|fields| - 1] + [fields[|fields| - 1]];
    }
  }

  ghost predicate DistinctTargets(fields: seq<L.FieldMap>) {
    forall i, j :: 0 <= i < j < |fields| ==> fields[i].to != fields[j].to
  }

  lemma {:induction false} MappedDistinct(managed: set<string>, fields: seq<L.FieldMap>, root: string)
    requires DistinctTargets(fields)
    ensures DistinctTargets(MappedColumns(managed, fields, root))
    decreases |fields|
  {
    if fields != [] {
      var n := |fields| - 1;
      MappedDistinct(managed, fields[..n], root);
      MappedIn(managed, fields[..n], root);
      var before := MappedColumns(managed, fields[..n], root);
      forall i | 0 <= i < |before| ensures before[i].to != fields[n].to {
        assert before[i] in fields[..n];
      }
    }
  }

  lemma MappedColumnsDistinct(managed: set<string>, fields: seq<L.FieldMap>, root: string)
    requires DistinctTargets(fields)
    ensures AreColumns(MappedColumns(managed, fields, root)) && DistinctColumns(MappedColumns(managed, fields, root))
  {
    var columns := MappedColumns(managed, fields, root);
    MappedAreColumns(managed, fields, root);
    MappedDistinct(managed, fields, root);
    MappedIn(managed, fields, root);
    forall i, j | 0 <= i < j < |columns| ensures ColumnOf(columns[i]) != ColumnOf(columns[j]) {
      assert columns[i] in columns && columns[j] in columns;
      if ColumnOf(columns[i]) == ColumnOf(columns[j]) { ParsedUnique(columns[i].to, columns[j].to); }
    }
  }

  /** The values a path of the source leads to. */
  function SourceCells(source: L.Document, f: L.FieldMap): seq<Json> {
    Walk([Obj(source.values)], SplitDots(f.from))
  }

  /** A column of a changed table reads as the source's cells without managed members. */
  lemma ColumnRepaired(managed: set<string>, fields: seq<L.FieldMap>, source: L.Document, target: L.Document,
                       values: seq<Member>, f: L.FieldMap)
    requires DistinctTargets(fields) && f in fields && ParseTarget(f.to).Some? && ParseTarget(f.to).value.Child?
      && !IsManaged(managed, f.to)
    requires var change := TableChange(managed, fields, source, target, RootOf(f.to));
      change.Some? && Field(values, RootOf(f.to)) == change.value.value
    ensures L.PathValue(values, f.to) == L.Gathered(SanitizeAll(managed, SourceCells(source, f)))
  {
    var columns := MappedColumns(managed, fields, RootOf(f.to));
    assert f in columns by {
      ParsedShape(f.to);
      MappedIn(managed, fields, RootOf(f.to));
    }
    MappedColumnsDistinct(managed, fields, RootOf(f.to));
    RefilledColumn(managed, columns, source, Field(target.values, RootOf(f.to)), values, f);
  }

  lemma ColumnFacts(managed: set<string>, f: L.FieldMap)
    requires ParseTarget(f.to).Some? && ParseTarget(f.to).value.Child? && !IsManaged(managed, f.to)
    ensures Lower(ColumnOf(f)) !in managed && !IsMany(ColumnOf(f))
  {
    ParsedShape(f.to);
  }

  lemma RefilledColumn(managed: set<string>, columns: seq<L.FieldMap>, source: L.Document, before: Json,
                       values: seq<Member>, f: L.FieldMap)
    requires AreColumns(columns) && DistinctColumns(columns) && f in columns && !IsManaged(managed, f.to)
    requires Refilled(managed, columns, source, before) == Some(Field(values, RootOf(f.to)))
    ensures L.PathValue(values, f.to) == L.Gathered(SanitizeAll(managed, SourceCells(source, f)))
  {
    var k :| 0 <= k < |columns| && columns[k] == f;
    var cells := AllCells(source, columns);
    ColumnFacts(managed, f);
    assert cells[k] == Cells(source, f).items && ReadPath(source.values, f.from).many;
    TableReadsBack(managed, before, columns, cells, |cells[0]|, k);
    ColumnValue(values, f.to);
    ReadIsWalk([Obj(source.values)], SplitDots(f.from));
  }

  lemma {:induction false} ExpandNone(items: seq<Json>, column: string)
    requires forall i :: 0 <= i < |items| ==> Expand(items[i], column) == []
    ensures ExpandAll(items, column) == []
    decreases |items|
  {
    if items != [] { ExpandNone(items[1..], column); }
  }

  lemma NoManagedCells(managed: set<string>, columns: seq<L.FieldMap>, before: Json, cells: seq<seq<Json>>, n: nat,
                       column: string)
    requires |columns| == |cells| && AreColumns(columns) && forall k :: 0 <= k < |cells| ==> |cells[k]| == n
    requires Lower(column) in managed && !IsMany(column)
    ensures var table := TableValue(managed, columns, before, cells, n);
      table.Arr? && ExpandAll(table.items, column) == []
  {
    var rows := FilledRows(managed, before, columns, cells, n);
    var items := SanitizeAll(managed, rows);
    forall i | 0 <= i < n ensures Expand(items[i], column) == [] {
      SanitizedField(managed, rows[i].members, column);
    }
    ExpandNone(items, column);
  }

  /** A managed column of a changed table reads nothing afterwards. */
  lemma ManagedColumnLost(managed: set<string>, fields: seq<L.FieldMap>, source: L.Document, target: L.Document,
                          values: seq<Member>,
                          f: L.FieldMap, g: L.FieldMap)
    requires ParseTarget(f.to).Some? && ParseTarget(f.to).value.Child? && IsManaged(managed, f.to)
    requires ParseTarget(g.to).Some? && RootOf(g.to) == RootOf(f.to) && !IsManaged(managed, g.to)
    requires var change := TableChange(managed, fields, source, target, RootOf(f.to));
      change.Some? && Field(values, RootOf(f.to)) == change.value.value
    ensures L.PathValue(values, f.to) == Undefined
  {
    ParsedShape(f.to);
    ParsedShape(g.to);
    var column := ParseTarget(f.to).value.column;
    assert Lower(column) in managed && !IsMany(column);
    var columns := MappedColumns(managed, fields, RootOf(f.to));
    MappedAreColumns(managed, fields, RootOf(f.to));
    var cells := AllCells(source, columns);
    NoManagedCells(managed, columns, Field(target.values, RootOf(f.to)), cells, |cells[0]|, column);
    ColumnValue(values, f.to);
  }

  /** Every value that a mapped column takes from the source is a scalar. */
  predicate ScalarCells(source: L.Document, f: L.FieldMap) {
    forall i :: 0 <= i < |SourceCells(source, f)| ==> IsScalar(SourceCells(source, f)[i])
  }

  /** What a mapped field of a changed plain field or table reads afterwards: managed columns are dropped,
      and so are managed members inside a cell. */
  function Rewritten(managed: set<string>, source: L.Document, f: L.FieldMap): Json {
    if IsManagedColumn(managed, f.to) then Undefined
    else if IsColumn(f.to) then L.Gathered(SanitizeAll(managed, SourceCells(source, f)))
    else L.PathValue(source.values, f.from)
  }

  lemma ScalarRewritten(managed: set<string>, source: L.Document, f: L.FieldMap)
    requires ScalarCells(source, f) && !IsManagedColumn(managed, f.to)
    ensures Rewritten(managed, source, f) == L.PathValue(source.values, f.from)
  {
    assert SanitizeAll(managed, SourceCells(source, f)) == SourceCells(source, f);
  }

  // ----------------------------------------------------------------- what is proposed

  lemma {:induction false} EligibleIn(finding: L.Finding, fields: seq<L.FieldMap>)
    ensures forall f :: f in Eligible(finding, fields) <==> f in fields && Mismatched(finding, f.caption)
    decreases |fields|
  {
    if fields != [] {
      EligibleIn(finding, fields[..|fields| - 1]);
      assert fields == fields[..|fields| - 1] + [fields[|fields| - 1]];
    }
  }

  /** A change of a plain field, to the one scalar the source has for it. */
  ghost predicate PlainFrom(c: Change, f: L.FieldMap, source: L.Document) {
    && IsPlain(f.to) && c.path == f.to && c.value == ReadPath(source.values, f.from).value
    && !ReadPath(source.values, f.from).many && IsScalar(c.value)
  }

  lemma {:induction false} PlainChangesAre(fields: seq<L.FieldMap>, source: L.Document)
    requires PlainChanges(fields, source).Some?
    ensures forall c :: c in PlainChanges(fields, source).value ==> exists f :: f in fields && PlainFrom(c, f, source)
    ensures forall f :: f in fields && IsPlain(f.to) ==>
      exists c :: c in PlainChanges(fields, source).value && PlainFrom(c, f, source)
    decreases |fields|
  {
    if fields != [] {
      var n := |fields| - 1;
      PlainChangesAre(fields[..n], source);
      assert fields == fields[..n] + [fields[n]];
      var before := PlainChanges(fields[..n], source).value;
      var after := PlainChanges(fields, source).value;
      if IsPlain(fields[n].to) {
        var c := Change(fields[n].to, ReadPath(source.values, fields[n].from).value);
        assert after == before + [c] && PlainFrom(c, fields[n], source);
        forall f | f in fields && IsPlain(f.to) ensures exists c :: c in after && PlainFrom(c, f, source) {
          if f == fields[n] {
            assert c in after;
          } else {
            assert f in fields[..n];
            var c' :| c' in before && PlainFrom(c', f, source);
            assert c' in after;
          }
        }
      }
    }
  }

  lemma {:induction false} CollectedAre(roots: seq<string>, changeOf: string -> Option<Change>)
    requires Collected(roots, changeOf).Some?
    ensures forall c :: c in Collected(roots, changeOf).value ==>
      exists root :: root in roots && changeOf(root) == Some(c)
    ensures forall root :: root in roots ==>
      changeOf(root).Some? && changeOf(root).value in Collected(roots, changeOf).value
    decreases |roots|
  {
    if roots != [] {
      var n := |roots| - 1;
      CollectedAre(roots[..n], changeOf);
      assert roots == roots[..n] + [roots[n]];
    }
  }

  lemma TableChangesAre(managed: set<string>, fields: seq<L.FieldMap>, source: L.Document, target: L.Document,
                        roots: seq<string>)
    requires TableChanges(managed, fields, source, target, roots).Some?
    ensures forall c :: c in TableChanges(managed, fields, source, target, roots).value ==>
              c.path in roots && TableChange(managed, fields, source, target, c.path) == Some(c)
    ensures forall root :: root in roots ==>
      exists c :: c in TableChanges(managed, fields, source, target, roots).value && c.path == root
  {
    var changeOf := root => TableChange(managed, fields, source, target, root);
    var changes := TableChanges(managed, fields, source, target, roots).value;
    CollectedAre(roots, changeOf);
    forall c | c in changes ensures c.path in roots && TableChange(managed, fields, source, target, c.path) == Some(c) {
      var root :| root in roots && changeOf(root) == Some(c);
    }
    forall root | root in roots ensures exists c :: c in changes && c.path == root {
      assert changeOf(root).value in changes;
    }
  }

  // ------------------------------------------------------------- repair soundness

  predicate IsColumn(path: string) {
    ParseTarget(path).Some? && ParseTarget(path).value.Child?
  }

  /** Mapped fields begin with different members of the target, except columns of one table that
      are not used for identity. */
  ghost predicate Separate(r: L.Relationship) {
    forall i, j :: 0 <= i < j < |L.Fields(r)| && RootOf(L.Fields(r)[i].to) == RootOf(L.Fields(r)[j].to) ==>
      |r.identity| <= i && IsColumn(L.Fields(r)[i].to) && IsColumn(L.Fields(r)[j].to)
        && L.Fields(r)[i].to != L.Fields(r)[j].to
  }

  /** A mapped column that Frappe manages itself: it is dropped from the rows of a changed table. */
  predicate IsManagedColumn(managed: set<string>, path: string) {
    IsColumn(path) && IsManaged(managed, path)
  }

  lemma SeparateIdentity(r: L.Relationship, f: L.FieldMap, g: L.FieldMap)
    requires Separate(r) && f in r.identity && g in r.revision + r.content
    ensures RootOf(f.to) != RootOf(g.to)
  {
    var all := L.Fields(r);
    assert all == r.identity + (r.revision + r.content);
    var i :| 0 <= i < |r.identity| && r.identity[i] == f;
    var j :| 0 <= j < |r.revision + r.content| && (r.revision + r.content)[j] == g;
    assert all[i] == f && all[|r.identity| + j] == g;
  }

  lemma SeparateMapped(r: L.Relationship, f: L.FieldMap, g: L.FieldMap)
    requires Separate(r) && f in r.revision + r.content && g in r.revision + r.content && RootOf(f.to) == RootOf(g.to)
    ensures f == g || (IsColumn(f.to) && IsColumn(g.to))
  {
    var all := L.Fields(r);
    assert all == r.identity + (r.revision + r.content);
    var i :| 0 <= i < |r.revision + r.content| && (r.revision + r.content)[i] == f;
    var j :| 0 <= j < |r.revision + r.content| && (r.revision + r.content)[j] == g;
    assert all[|r.identity| + i] == f && all[|r.identity| + j] == g;
  }

  lemma SeparateTargets(r: L.Relationship)
    requires Separate(r)
    ensures DistinctTargets(r.revision + r.content)
  {
    var all := L.Fields(r);
    var mapped := r.revision + r.content;
    assert all == r.identity + mapped;
    forall i, j | 0 <= i < j < |mapped| ensures mapped[i].to != mapped[j].to {
      assert all[|r.identity| + i] == mapped[i] && all[|r.identity| + j] == mapped[j];
    }
  }

  /** The change `c` repairs the mapped field `f`, on its own or with the other columns of its table. */
  ghost predicate From(managed: set<string>, fields: seq<L.FieldMap>, source: L.Document, target: L.Document, c: Change,
                       f: L.FieldMap) {
    && c.path == RootOf(f.to) && !IsManaged(managed, f.to)
    && (PlainFrom(c, f, source) || (IsColumn(f.to) && TableChange(managed, fields, source, target, c.path) == Some(c)))
  }

  /** The changes are those of mapped fields, and cover every mismatch. */
  ghost predicate Covers(managed: set<string>, fields: seq<L.FieldMap>, finding: L.Finding, source: L.Document,
                         target: L.Document,
                         changes: seq<Change>)
  {
    && (forall c :: c in changes ==> exists f :: f in fields && From(managed, fields, source, target, c, f))
    && ReachesMismatches(finding, fields, changes)
  }

  lemma PlainRoot(path: string)
    requires IsPlain(path)
    ensures RootOf(path) == path
  {
    ParsedShape(path);
    assert ParseTarget(path).Some? && ParseTarget(path).value.Plain?;
  }

  lemma PlainOrigin(managed: set<string>, fields: seq<L.FieldMap>, finding: L.Finding, source: L.Document,
                    target: L.Document, c: Change)
    requires PlainChanges(Eligible(finding, fields), source).Some?
      && c in PlainChanges(Eligible(finding, fields), source).value
    requires forall f :: f in Eligible(finding, fields) ==> !IsManaged(managed, f.to)
    ensures exists f :: f in fields && From(managed, fields, source, target, c, f)
  {
    EligibleIn(finding, fields);
    PlainChangesAre(Eligible(finding, fields), source);
    var f :| f in Eligible(finding, fields) && PlainFrom(c, f, source);
    PlainRoot(f.to);
    assert From(managed, fields, source, target, c, f);
  }

  lemma ChildRootOrigin(eligible: seq<L.FieldMap>, root: string) returns (f: L.FieldMap)
    requires root in ChildRoots(eligible)
    ensures f in eligible && IsColumn(f.to) && RootOf(f.to) == root
  {
    var i :| 0 <= i < |eligible| && IsColumn(eligible[i].to) && ParseTarget(eligible[i].to).value.root == root;
    f := eligible[i];
    ParsedShape(f.to);
  }

  lemma TableOrigin(managed: set<string>, fields: seq<L.FieldMap>, finding: L.Finding, source: L.Document,
                    target: L.Document, c: Change)
    requires c.path in ChildRoots(Eligible(finding, fields))
      && TableChange(managed, fields, source, target, c.path) == Some(c)
    requires forall f :: f in Eligible(finding, fields) ==> !IsManaged(managed, f.to)
    ensures exists f :: f in fields && From(managed, fields, source, target, c, f)
  {
    var f := ChildRootOrigin(Eligible(finding, fields), c.path);
    EligibleIn(finding, fields);
    assert f in fields && From(managed, fields, source, target, c, f);
  }

  lemma EligibleRoot(eligible: seq<L.FieldMap>, f: L.FieldMap)
    requires f in eligible && ParseTarget(f.to).Some? && !IsPlain(f.to)
    ensures RootOf(f.to) in ChildRoots(eligible)
  {
    ParsedShape(f.to);
    var i :| 0 <= i < |eligible| && eligible[i] == f;
    assert ParseTarget(eligible[i].to).value.Child?;
  }

  lemma ProposalParts(managed: set<string>, r: L.Relationship, finding: L.Finding, source: L.Document,
                      target: L.Document)
    returns (changes: seq<Change>)
    requires Propose(managed, r, finding, source, target).Ok?
    ensures Propose(managed, r, finding, source, target).value == Unique(changes)
    ensures FromMismatches(finding, r.revision + r.content, changes)
    ensures Covers(managed, r.revision + r.content, finding, source, target, changes)
  {
    var fields := r.revision + r.content;
    var eligible := Eligible(finding, fields);
    var roots := SortedKeys(ChildRoots(eligible));
    var plain := PlainChanges(eligible, source).value;
    var tables := TableChanges(managed, fields, source, target, roots).value;
    changes := plain + tables;
    assert forall i :: 0 <= i < |eligible| ==> ParseTarget(eligible[i].to).Some?;
    assert forall i :: 0 <= i < |eligible| ==> !IsManaged(managed, eligible[i].to);
    CoversAll(managed, fields, finding, source, target, roots, plain, tables);
    PlainFromMismatches(finding, fields, source);
    TablesFromMismatches(managed, finding, fields, source, target, roots);
  }

  lemma CoversAll(managed: set<string>, fields: seq<L.FieldMap>, finding: L.Finding, source: L.Document,
                  target: L.Document,
                  roots: seq<string>, plain: seq<Change>, tables: seq<Change>)
    requires PlainChanges(Eligible(finding, fields), source) == Some(plain)
    requires TableChanges(managed, fields, source, target, roots) == Some(tables)
    requires forall root :: root in roots <==> root in ChildRoots(Eligible(finding, fields))
    requires forall i :: 0 <= i < |Eligible(finding, fields)| ==> ParseTarget(Eligible(finding, fields)[i].to).Some?
    requires forall f :: f in Eligible(finding, fields) ==> !IsManaged(managed, f.to)
    ensures Covers(managed, fields, finding, source, target, plain + tables)
  {
    var changes := plain + tables;
    TableChangesAre(managed, fields, source, target, roots);
    forall c | c in changes ensures exists f :: f in fields && From(managed, fields, source, target, c, f) {
      if c in plain { PlainOrigin(managed, fields, finding, source, target, c); }
        else { TableOrigin(managed, fields, finding, source, target, c); }
    }
    forall f | f in fields && Mismatched(finding, f.caption)
      ensures exists c :: c in changes && c.path == RootOf(f.to) {
      MismatchCovered(managed, fields, finding, source, target, roots, plain, tables, f);
    }
  }

  lemma MismatchCovered(managed: set<string>, fields: seq<L.FieldMap>, finding: L.Finding, source: L.Document,
                        target: L.Document,
                        roots: seq<string>, plain: seq<Change>, tables: seq<Change>, f: L.FieldMap)
    requires PlainChanges(Eligible(finding, fields), source) == Some(plain)
    requires TableChanges(managed, fields, source, target, roots) == Some(tables)
    requires forall root :: root in roots <==> root in ChildRoots(Eligible(finding, fields))
    requires forall i :: 0 <= i < |Eligible(finding, fields)| ==> ParseTarget(Eligible(finding, fields)[i].to).Some?
    requires f in fields && Mismatched(finding, f.caption)
    ensures exists c :: c in plain + tables && c.path == RootOf(f.to)
  {
    EligibleIn(finding, fields);
    ParsedShape(f.to);
    if IsPlain(f.to) {
      PlainChangesAre(Eligible(finding, fields), source);
      var c :| c in plain && PlainFrom(c, f, source);
      assert c in plain + tables;
    } else {
      EligibleRoot(Eligible(finding, fields), f);
      TableChangesAre(managed, fields, source, target, roots);
      var c :| c in tables && c.path == RootOf(f.to);
      assert c in plain + tables;
    }
  }

  /** How a mapped field that a change touches reads afterwards. */
  lemma TouchedFieldRepaired(managed: set<string>, r: L.Relationship, source: L.Document, target: L.Document,
                             c: Change, values: seq<Member>, f: L.FieldMap, g: L.FieldMap)
    requires Separate(r)
    requires f in r.revision + r.content && g in r.revision + r.content && c.path == RootOf(f.to)
    requires From(managed, r.revision + r.content, source, target, c, g)
    requires Field(values, RootOf(f.to)) == c.value
    ensures L.PathValue(values, f.to) == Rewritten(managed, source, f)
  {
    SeparateMapped(r, f, g);
    if PlainFrom(c, g, source) {
      PlainRepaired(source, c, values, g);
    } else if IsManagedColumn(managed, f.to) {
      ManagedColumnLost(managed, r.revision + r.content, source, target, values, f, g);
    } else {
      SeparateTargets(r);
      ColumnRepaired(managed, r.revision + r.content, source, target, values, f);
    }
  }

  lemma PlainRepaired(source: L.Document, c: Change, values: seq<Member>, f: L.FieldMap)
    requires PlainFrom(c, f, source) && Field(values, f.to) == c.value
    ensures !IsColumn(f.to) && RootOf(f.to) == f.to
    ensures L.PathValue(values, f.to) == L.PathValue(source.values, f.from)
  {
    ParsedShape(f.to);
    PlainValue(values, f.to);
    ReadIsPathValue(source.values, f.from);
  }

  lemma AgreeWithItself(value: Json, comparison: L.Comparison)
    ensures L.Agree(value, value, comparison)
  {
  }

  /** Which comparison is which mapped field's. */
  lemma ComparisonAt(r: L.Relationship, source: L.Document, target: L.Document, i: nat)
    requires i < |L.Fields(r)|
    ensures var c := L.Comparisons(r, source, target)[i];
      && c.caption == L.Fields(r)[i].caption && c.matches == L.FieldMatches(source, target, L.Fields(r)[i])
      && (c.category == L.Identity <==> i < |r.identity|)
  {
  }

  lemma NoRefusal(finding: L.Finding, source: L.Document, target: L.Document, r: L.Relationship)
    requires RefuseUnsafe(finding, Some(source), Some(target), r).None?
    ensures source.readable && target.readable && !L.Retired(target) && IdentityAgreed(finding.comparisons)
  {
  }

  /** What a finding that is not refused says about its pair. */
  lemma NotRefused(r: L.Relationship, source: L.Document, target: L.Document)
    requires RefuseUnsafe(L.PairFinding(r, source, target), Some(source), Some(target), r).None?
    ensures source.readable && target.readable && !L.Retired(target)
    ensures L.PairFinding(r, source, target).comparisons == L.Comparisons(r, source, target)
    ensures IdentityAgreed(L.PairFinding(r, source, target).comparisons)
  {
    NoRefusal(L.PairFinding(r, source, target), source, target, r);
  }

  ghost predicate IdentityAgreed(comparisons: seq<L.Compared>) {
    forall i :: 0 <= i < |comparisons| && comparisons[i].category == L.Identity ==> comparisons[i].matches
  }

  /** A mapped field that no change touches agreed before. */
  lemma UntouchedFieldAgrees(managed: set<string>, r: L.Relationship, source: L.Document, target: L.Document,
                             changes: seq<Change>, i: nat)
    requires RefuseUnsafe(L.PairFinding(r, source, target), Some(source), Some(target), r).None?
    requires Covers(managed, r.revision + r.content, L.PairFinding(r, source, target), source, target, changes)
    requires i < |L.Fields(r)| && RootOf(L.Fields(r)[i].to) !in ByPath(changes)
    ensures L.FieldMatches(source, target, L.Fields(r)[i])
  {
    ComparisonAt(r, source, target, i);
    NotRefused(r, source, target);
    if i >= |r.identity| {
      MappedAt(r, i);
      ByPathIn(changes);
      assert !Mismatched(L.PairFinding(r, source, target), L.Fields(r)[i].caption);
    }
  }

  lemma MappedAt(r: L.Relationship, i: nat)
    requires |r.identity| <= i < |L.Fields(r)|
    ensures L.Fields(r)[i] in r.revision + r.content
  {
    assert L.Fields(r)[i] == (r.revision + r.content)[i - |r.identity|];
  }

  /** A mapped field under one of the changed paths for which what is written does not agree with the source. */
  ghost predicate Loses(managed: set<string>, r: L.Relationship, source: L.Document, paths: set<string>, f: L.FieldMap)
  {
    f in r.revision + r.content && RootOf(f.to) in paths
    && !L.Agree(L.PathValue(source.values, f.from), Rewritten(managed, source, f), f.comparison)
  }

  /** One mapped field after the repair: it agrees unless it is lost. */
  lemma FieldRepaired(managed: set<string>, r: L.Relationship, source: L.Document, target: L.Document,
                      changes: seq<Change>,
                      values: seq<Member>, i: nat)
    requires Separate(r)
    requires RefuseUnsafe(L.PairFinding(r, source, target), Some(source), Some(target), r).None?
    requires Covers(managed, r.revision + r.content, L.PairFinding(r, source, target), source, target, changes)
    requires i < |L.Fields(r)|
    requires var root := RootOf(L.Fields(r)[i].to);
      Field(values, root) == if root in ByPath(changes) then ByPath(changes)[root].value else Field(target.values, root)
    ensures L.FieldMatches(source, target.(values := values), L.Fields(r)[i]) <==>
      !(i >= |r.identity| && Loses(managed, r, source, ByPath(changes).Keys, L.Fields(r)[i]))
  {
    var f := L.Fields(r)[i];
    if RootOf(f.to) in ByPath(changes) {
      ByPathIn(changes);
      var c := ByPath(changes)[RootOf(f.to)];
      var g :| g in r.revision + r.content && From(managed, r.revision + r.content, source, target, c, g);
      if i < |r.identity| {
        assert f in r.identity by { assert f == r.identity[i]; }
        SeparateIdentity(r, f, g);
        assert false;
      }
      MappedAt(r, i);
      TouchedFieldRepaired(managed, r, source, target, c, values, f, g);
    } else {
      UntouchedFieldAgrees(managed, r, source, target, changes, i);
      PathFrame(target.values, values, f.to);
    }
  }

  /** The members of the target with a mapped field that was found to disagree. */
  function MismatchedRoots(finding: L.Finding, fields: seq<L.FieldMap>): set<string> {
    set f | f in fields && Mismatched(finding, f.caption) :: RootOf(f.to)
  }

  /** Every change is that of a mismatched field. */
  ghost predicate FromMismatches(finding: L.Finding, fields: seq<L.FieldMap>, changes: seq<Change>) {
    forall c :: c in changes ==> exists f :: f in fields && Mismatched(finding, f.caption) && RootOf(f.to) == c.path
  }

  lemma PlainFromMismatches(finding: L.Finding, fields: seq<L.FieldMap>, source: L.Document)
    requires PlainChanges(Eligible(finding, fields), source).Some?
    ensures FromMismatches(finding, fields, PlainChanges(Eligible(finding, fields), source).value)
  {
    EligibleIn(finding, fields);
    PlainChangesAre(Eligible(finding, fields), source);
    forall c | c in PlainChanges(Eligible(finding, fields), source).value
      ensures exists f :: f in fields && Mismatched(finding, f.caption) && RootOf(f.to) == c.path
    {
      var f :| f in Eligible(finding, fields) && PlainFrom(c, f, source);
      PlainRoot(f.to);
    }
  }

  lemma TablesFromMismatches(managed: set<string>, finding: L.Finding, fields: seq<L.FieldMap>, source: L.Document,
                             target: L.Document, roots: seq<string>)
    requires TableChanges(managed, fields, source, target, roots).Some?
    requires forall root :: root in roots ==> root in ChildRoots(Eligible(finding, fields))
    ensures FromMismatches(finding, fields, TableChanges(managed, fields, source, target, roots).value)
  {
    EligibleIn(finding, fields);
    TableChangesAre(managed, fields, source, target, roots);
    forall c | c in TableChanges(managed, fields, source, target, roots).value
      ensures exists f :: f in fields && Mismatched(finding, f.caption) && RootOf(f.to) == c.path
    {
      var f := ChildRootOrigin(Eligible(finding, fields), c.path);
    }
  }

  /** Every mismatched field has a change. */
  ghost predicate ReachesMismatches(finding: L.Finding, fields: seq<L.FieldMap>, changes: seq<Change>) {
    forall f :: f in fields && Mismatched(finding, f.caption) ==> exists c :: c in changes && c.path == RootOf(f.to)
  }

  lemma PathIsRoot(finding: L.Finding, fields: seq<L.FieldMap>, changes: seq<Change>, p: string)
    requires FromMismatches(finding, fields, changes) && p in ByPath(changes)
    ensures p in MismatchedRoots(finding, fields)
  {
    ByPathIn(changes);
    var c := ByPath(changes)[p];
    var f :| f in fields && Mismatched(finding, f.caption) && RootOf(f.to) == c.path;
  }

  lemma RootIsPath(finding: L.Finding, fields: seq<L.FieldMap>, changes: seq<Change>, p: string)
    requires ReachesMismatches(finding, fields, changes) && p in MismatchedRoots(finding, fields)
    ensures p in ByPath(changes)
  {
    ByPathIn(changes);
    var f :| f in fields && Mismatched(finding, f.caption) && RootOf(f.to) == p;
    var c :| c in changes && c.path == RootOf(f.to);
  }

  lemma PathsAreRoots(finding: L.Finding, fields: seq<L.FieldMap>, changes: seq<Change>)
    requires FromMismatches(finding, fields, changes) && ReachesMismatches(finding, fields, changes)
    ensures ByPath(changes).Keys == MismatchedRoots(finding, fields)
  {
    forall p ensures p in ByPath(changes) <==> p in MismatchedRoots(finding, fields) {
      if p in ByPath(changes) { PathIsRoot(finding, fields, changes, p); }
      if p in MismatchedRoots(finding, fields) { RootIsPath(finding, fields, changes, p); }
    }
  }

  /** What a proposal changes is known from the finding: the members with a mismatched field. */
  lemma ProposedPaths(managed: set<string>, r: L.Relationship, finding: L.Finding, source: L.Document,
                      target: L.Document)
    returns (changes: seq<Change>)
    requires Propose(managed, r, finding, source, target).Ok?
    ensures Propose(managed, r, finding, source, target).value == Unique(changes)
    ensures Covers(managed, r.revision + r.content, finding, source, target, changes)
    ensures ByPath(changes).Keys == MismatchedRoots(finding, r.revision + r.content)
  {
    changes := ProposalParts(managed, r, finding, source, target);
    PathsAreRoots(finding, r.revision + r.content, changes);
  }

  /** Repair, exactly: once all changes of a proposed action are made, the validator finds the pair Current if
      and only if, of the members with a mismatched field, no mapped field loses what the comparison looks at. */
  lemma RepairIff(managed: set<string>, r: L.Relationship, source: L.Document, target: L.Document)
    requires L.ProperFields(L.Fields(r)) && Separate(r)
    requires RefuseUnsafe(L.PairFinding(r, source, target), Some(source), Some(target), r).None?
    requires Propose(managed, r, L.PairFinding(r, source, target), source, target).Ok?
    ensures var finding := L.PairFinding(r, source, target);
      var changes := Propose(managed, r, finding, source, target).value;
      L.PairFinding(r, source, Apply(target, changes)).status == L.Current <==>
      forall f :: f in r.revision + r.content ==>
        !Loses(managed, r, source, MismatchedRoots(finding, r.revision + r.content), f)
  {
    var changes := ProposedPaths(managed, r, L.PairFinding(r, source, target), source, target);
    ChangesRepair(managed, r, source, target, changes);
  }

  lemma ChangesRepair(managed: set<string>, r: L.Relationship, source: L.Document, target: L.Document,
                      changes: seq<Change>)
    requires L.ProperFields(L.Fields(r)) && Separate(r)
    requires RefuseUnsafe(L.PairFinding(r, source, target), Some(source), Some(target), r).None?
    requires Covers(managed, r.revision + r.content, L.PairFinding(r, source, target), source, target, changes)
    ensures L.PairFinding(r, source, Apply(target, Unique(changes))).status == L.Current <==>
      forall f :: f in r.revision + r.content ==> !Loses(managed, r, source, ByPath(changes).Keys, f)
  {
    var after := Apply(target, Unique(changes));
    forall i | 0 <= i < |L.Fields(r)|
      ensures L.FieldMatches(source, after, L.Fields(r)[i]) <==>
        !(i >= |r.identity| && Loses(managed, r, source, ByPath(changes).Keys, L.Fields(r)[i]))
    {
      UniqueField(target.values, changes, RootOf(L.Fields(r)[i].to));
      FieldRepaired(managed, r, source, target, changes, after.values, i);
    }
    NotRefused(r, source, target);
    L.PairCurrentIff(r, source, after);
    AllOrNone(managed, r, source, after, ByPath(changes).Keys);
  }

  lemma AllOrNone(managed: set<string>, r: L.Relationship, source: L.Document, after: L.Document, paths: set<string>)
    requires forall i :: 0 <= i < |L.Fields(r)| ==>
      (L.FieldMatches(source, after, L.Fields(r)[i]) <==>
        !(i >= |r.identity| && Loses(managed, r, source, paths, L.Fields(r)[i])))
    ensures (forall i :: 0 <= i < |L.Fields(r)| ==> L.FieldMatches(source, after, L.Fields(r)[i])) <==>
      forall f :: f in r.revision + r.content ==> !Loses(managed, r, source, paths, f)
  {
    if forall i :: 0 <= i < |L.Fields(r)| ==> L.FieldMatches(source, after, L.Fields(r)[i]) {
      forall f | f in r.revision + r.content ensures !Loses(managed, r, source, paths, f) {
        var i := MappedIndex(r, f);
        assert L.FieldMatches(source, after, L.Fields(r)[i]);
      }
    }
    if forall f :: f in r.revision + r.content ==> !Loses(managed, r, source, paths, f) {
      forall i | 0 <= i < |L.Fields(r)| ensures L.FieldMatches(source, after, L.Fields(r)[i]) {
        if i >= |r.identity| { MappedAt(r, i); }
      }
    }
  }

  lemma MappedIndex(r: L.Relationship, f: L.FieldMap) returns (i: nat)
    requires f in r.revision + r.content
    ensures |r.identity| <= i < |L.Fields(r)| && L.Fields(r)[i] == f
  {
    var j :| 0 <= j < |r.revision + r.content| && (r.revision + r.content)[j] == f;
    assert L.Fields(r) == r.identity + (r.revision + r.content);
    i := |r.identity| + j;
  }

  /** Repair soundness: without mapped managed columns and with scalar cells every proposed action repairs its pair. */
  lemma RepairSound(managed: set<string>, r: L.Relationship, source: L.Document, target: L.Document)
    requires L.ProperFields(L.Fields(r)) && Separate(r)
    requires forall f :: f in r.revision + r.content && IsColumn(f.to) ==>
      !IsManagedColumn(managed, f.to) && ScalarCells(source, f)
    requires RefuseUnsafe(L.PairFinding(r, source, target), Some(source), Some(target), r).None?
    requires Propose(managed, r, L.PairFinding(r, source, target), source, target).Ok?
    ensures var changes := Propose(managed, r, L.PairFinding(r, source, target), source, target).value;
      L.PairFinding(r, source, Apply(target, changes)).status == L.Current
  {
    RepairIff(managed, r, source, target);
    var roots := MismatchedRoots(L.PairFinding(r, source, target), r.revision + r.content);
    forall f | f in r.revision + r.content ensures !Loses(managed, r, source, roots, f) {
      if IsColumn(f.to) { ScalarRewritten(managed, source, f); }
      AgreeWithItself(L.PathValue(source.values, f.from), f.comparison);
    }
  }
}

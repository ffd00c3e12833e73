/** The reporting hierarchy of a principal: a breadth-first search over manager links. */
module Hierarchy {
  import opened Text
  import opened Reach
  import opened BreadthFirst

  /** The text of each cell of a record, as `stringValue` gives it. */
  type Row = map<string, string>

  function Cell(row: Row, field: string): string {
    if field in row then row[field] else ""
  }

  datatype Config = Config(
    sourceDoctype: string,
    recordIdField: string,
    principalField: string,
    managerRecordField: string,
    activeField: string,
    activeValues: seq<string>,
    maxDepth: Option<int>)

  datatype Scope = Scope(
    sourceDoctype: string,
    principal: string,
    selfRecordIds: seq<string>,
    directReportPrincipals: seq<string>,
    descendantPrincipals: seq<string>,
    descendantRecordIds: seq<string>,
    depthByRecordId: map<string, nat>)

  function NormalizePrincipal(value: string): string {
    Lower(Trim(value))
  }

  function Depth(config: Config): nat {
    var d := if config.maxDepth.Some? then config.maxDepth.value else 32;
    if d < 1 then 1 else if d > 128 then 128 else d
  }

  // ---------------------------------------------------- what the rows describe

  predicate IsActive(config: Config, row: Row) {
    var values := set i | 0 <= i < |config.activeValues| :: Lower(Trim(config.activeValues[i]));
    config.activeField == "" || values == {} || Lower(Cell(row, config.activeField)) in values
  }

  function ActiveAmong(config: Config, rows: seq<Row>, n: nat): seq<Row>
    requires n <= |rows|
  {
    if n == 0 then [] else
      ActiveAmong(config, rows, n - 1) + if IsActive(config, rows[n - 1]) then [rows[n - 1]] else []
  }

  /** The rows kept by the activity filter, in order. */
  function ActiveRows(config: Config, rows: seq<Row>): seq<Row> {
    ActiveAmong(config, rows, |rows|)
  }

  function IdOf(config: Config, row: Row): string {
    Cell(row, config.recordIdField)
  }

  function ManagerOf(config: Config, row: Row): string {
    Cell(row, config.managerRecordField)
  }

  /** Ids of the first `n` rows, and their links from manager to record. */
  ghost function RecordIds(config: Config, rows: seq<Row>, n: nat): set<string>
    requires n <= |rows|
  {
    set i | 0 <= i < n && IdOf(config, rows[i]) != "" :: IdOf(config, rows[i])
  }

  ghost function Links(config: Config, rows: seq<Row>, n: nat): Edges<string>
    requires n <= |rows|
  {
    set i | 0 <= i < n && IdOf(config, rows[i]) != "" && ManagerOf(config, rows[i]) != ""
      :: (ManagerOf(config, rows[i]), IdOf(config, rows[i]))
  }

  /** The last of the first `n` rows with an id. */
  ghost predicate IsLastRow(config: Config, rows: seq<Row>, n: nat, id: string, row: Row)
    requires n <= |rows|
  {
    exists i :: 0 <= i < n && IdOf(config, rows[i]) == id && rows[i] == row
      && forall j :: i < j < n ==> IdOf(config, rows[j]) != id
  }

  function PrincipalIn(config: Config, byId: map<string, Row>, id: string): string {
    if id in byId then NormalizePrincipal(Cell(byId[id], config.principalField)) else ""
  }

  /** `byId` holds, for each id, its last active row. */
  ghost predicate IndexesRows(config: Config, rows: seq<Row>, byId: map<string, Row>) {
    byId.Keys == RecordIds(config, rows, |rows|) && forall id :: id in byId ==>
      IsLastRow(config, rows, |rows|, id, byId[id])
  }

  ghost function SelfRecords(config: Config, byId: map<string, Row>, principal: string): set<string> {
    set id | id in byId && PrincipalIn(config, byId, id) == NormalizePrincipal(principal)
  }

  /** The principals of a set of records, blank ones left out. */
  ghost function PrincipalsOf(config: Config, byId: map<string, Row>, ids: set<string>): set<string> {
    set id | id in ids && PrincipalIn(config, byId, id) != "" :: PrincipalIn(config, byId, id)
  }

  // ------------------------------------------------------------- building maps

  method FilterRows(config: Config, rows: seq<Row>) returns (active: seq<Row>)
    ensures active == ActiveRows(config, rows)
  {
    active := [];
    for n := 0 to |rows|
      invariant active == ActiveAmong(config, rows, n)
    {
      if IsActive(config, rows[n]) { active := active + [rows[n]]; }
    }
  }

  method IndexRows(config: Config, rows: seq<Row>) returns (byId: map<string, Row>, children: map<string, seq<string>>)
    ensures IndexesRows(config, rows, byId)
    ensures forall m, c :: m in children && c in children[m] <==> (m, c) in Links(config, rows, |rows|)
  {
    byId, children := map[], map[];
    for n := 0 to |rows|
      invariant IndexesFirst(config, rows, n, byId)
      invariant LinksFirst(config, rows, n, children)
    {
      var recordId := IdOf(config, rows[n]);
      IndexNext(config, rows, n, byId);
      LinkNext(config, rows, n, children);
      if recordId != "" {
        byId := byId[recordId := rows[n]];
        var managerId := ManagerOf(config, rows[n]);
        if managerId != "" {
          children := children[managerId := (if managerId in children then children[managerId] else []) + [recordId]];
        }
      }
    }
  }

  ghost predicate IndexesFirst(config: Config, rows: seq<Row>, n: nat, byId: map<string, Row>)
    requires n <= |rows|
  {
    byId.Keys == RecordIds(config, rows, n) && forall id :: id in byId ==> IsLastRow(config, rows, n, id, byId[id])
  }

  ghost predicate LinksFirst(config: Config, rows: seq<Row>, n: nat, children: map<string, seq<string>>)
    requires n <= |rows|
  {
    forall m, c :: m in children && c in children[m] <==> (m, c) in Links(config, rows, n)
  }

  lemma IndexNext(config: Config, rows: seq<Row>, n: nat, byId: map<string, Row>)
    requires n < |rows| && IndexesFirst(config, rows, n, byId)
    ensures IndexesFirst(config, rows, n + 1, if IdOf(config, rows[n]) != "" then byId[IdOf(config, rows[n]) := rows[n]]
      else byId)
  {
    var recordId := IdOf(config, rows[n]);
    var next := if recordId != "" then byId[recordId := rows[n]] else byId;
    forall id | id in next ensures IsLastRow(config, rows, n + 1, id, next[id]) {
      if id != recordId {
        assert id in byId && next[id] == byId[id];
        LastRowStays(config, rows, n, id, byId[id]);
      }
    }
    assert next.Keys == RecordIds(config, rows, n + 1) by {
      assert RecordIds(config, rows, n + 1) == RecordIds(config, rows, n) + (if recordId != "" then {recordId} else {});
    }
  }

  lemma LastRowStays(config: Config, rows: seq<Row>, n: nat, id: string, row: Row)
    requires n < |rows| && IsLastRow(config, rows, n, id, row) && IdOf(config, rows[n]) != id
    ensures IsLastRow(config, rows, n + 1, id, row)
  {
    var i :| 0 <= i < n && IdOf(config, rows[i]) == id && rows[i] == row
      && forall j :: i < j < n ==> IdOf(config, rows[j]) != id;
  }

  lemma LinkNext(config: Config, rows: seq<Row>, n: nat, children: map<string, seq<string>>)
    requires n < |rows| && LinksFirst(config, rows, n, children)
    ensures var c, m := IdOf(config, rows[n]), ManagerOf(config, rows[n]);
      LinksFirst(config, rows, n + 1,
                 if c != "" && m != "" then children[m := (if m in children then children[m] else []) + [c]]
                   else children)
  {
    var c, m := IdOf(config, rows[n]), ManagerOf(config, rows[n]);
    assert Links(config, rows, n + 1) == Links(config, rows, n) + (if c != "" && m != "" then {(m, c)} else {});
  }

  // ------------------------------------------------------------------ the search

  /** The own records' children, one level down. */
  method FirstQueue(children: map<string, seq<string>>, selfIds: seq<string>) returns (queue: seq<Item<string>>)
    ensures forall q :: q in queue <==>
      q.depth == 1 && exists v :: v in selfIds && v in children && q.recordId in children[v]
  {
    queue := [];
    for n := 0 to |selfIds|
      invariant forall q :: q in queue <==>
        q.depth == 1 && exists i :: 0 <= i < n && selfIds[i] in children && q.recordId in children[selfIds[i]]
    {
      if selfIds[n] in children { queue := queue + Items(children[selfIds[n]], 1); }
    }
  }

  function Principals(config: Config, byId: map<string, Row>): map<string, string> {
    map id | id in byId :: PrincipalIn(config, byId, id)
  }

  lemma NamesArePrincipals(config: Config, byId: map<string, Row>, ids: set<string>)
    ensures NamesOf(Principals(config, byId), "", ids) == PrincipalsOf(config, byId, ids)
  {
  }

  /** From the own records down the links. */
  method Descend(config: Config, byId: map<string, Row>, children: map<string, seq<string>>, ghost links: Edges<string>,
                 self: set<string>)
    returns (depth: map<string, nat>, direct: set<string>, descendants: set<string>)
    requires forall m, c :: m in children && c in children[m] <==> (m, c) in links
    requires (forall v, c :: (v, c) in links ==> c in byId) && self <= byId.Keys
    ensures IsDepthMap(links, self, Depth(config), depth)
    ensures descendants == PrincipalsOf(config, byId, depth.Keys)
    ensures direct == PrincipalsOf(config, byId, set id | id in depth && depth[id] == 1)
  {
    var queue := FirstQueue(children, SortedKeys(self));
    assert Searching(links, self, Depth(config), byId.Keys, self, map[], queue) by {
      forall q ensures q in queue <==> q.depth == 1 && exists v :: v in self && (v, q.recordId) in links {
        if v :| v in self && (v, q.recordId) in links { assert v in SortedKeys(self); }
      }
      SearchStarts(links, self, Depth(config), byId.Keys, queue);
    }
    depth, direct, descendants :=
      Search(Principals(config, byId), "", children, links, self, Depth(config), byId.Keys, queue);
    NamesArePrincipals(config, byId, depth.Keys);
    NamesArePrincipals(config, byId, set id | id in depth && depth[id] == 1);
  }

  /** `deriveFrappeHierarchyScope`. */
  method DeriveFrappeHierarchyScope(principal: string, config: Config, rows: seq<Row>)
    returns (scope: Scope, ghost byId: map<string, Row>)
    ensures IndexesRows(config, ActiveRows(config, rows), byId)
    ensures var active := ActiveRows(config, rows); var self := SelfRecords(config, byId, principal);
      var depths := scope.depthByRecordId;
      && scope.sourceDoctype == config.sourceDoctype && scope.principal == NormalizePrincipal(principal)
      && scope.selfRecordIds == SortedKeys(self)
      && IsDepthMap(Links(config, active, |active|), self, Depth(config), depths)
      && scope.descendantRecordIds == SortedKeys(depths.Keys)
      && scope.descendantPrincipals == SortedKeys(PrincipalsOf(config, byId, depths.Keys))
      && scope.directReportPrincipals ==
           SortedKeys(PrincipalsOf(config, byId, set id | id in depths && depths[id] == 1))
  {
    var active := FilterRows(config, rows);
    var index, children := IndexRows(config, active);
    byId := index;
    var self := set id | id in index && PrincipalIn(config, index, id) == NormalizePrincipal(principal);
    var depths, direct, descendants := Descend(config, index, children, Links(config, active, |active|), self);
    scope := Scope(config.sourceDoctype, NormalizePrincipal(principal), SortedKeys(self), SortedKeys(direct),
                   SortedKeys(descendants), SortedKeys(depths.Keys), depths);
  }
}

/** Loading lineage evidence from a live site: a worklist over relationship queries, with paging. */
module LineageLive {
  import opened Text
  import opened Json
  import opened Paths

  datatype Stage = Stage(id: string, doctype: string)

  datatype Mapping = Mapping(from: string, to: string)

  datatype Relationship = Relationship(id: string, from: string, to: string, identity: seq<Mapping>)

  datatype Manifest = Manifest(stages: map<string, Stage>, relationships: seq<Relationship>)

  /** The fields of a record as the site returns them. */
  type Raw = map<string, Json>

  datatype Record = Record(stage: Stage, name: string, readable: bool, raw: Raw)

  datatype Key = Key(stage: string, name: string)

  datatype Filter = Filter(field: string, value: Json)

  datatype Query = Query(filters: seq<Filter>, seed: Raw)

  // ----------------------------------------------------------------- the site

  /** What reading one record answers. */
  datatype Fetched = Found(name: string, raw: Raw) | Denied | Failed

  /** All rows matching a query, in its order; an empty string is a row without a name. */
  datatype Listed = Rows(names: seq<string>) | ListDenied | ListFailed

  /** A site that does not change while evidence is loaded. */
  datatype Site = Site(fetch: (string, string) -> Fetched, list: (string, seq<Filter>) -> Listed)

  /** One page of a list: the rows from `start`, at most `length` of them. */
  function Page(names: seq<string>, start: nat, length: nat): seq<string> {
    if start >= |names| then [] else if start + length <= |names| then names[start..start + length] else names[start..]
  }

  // ------------------------------------------------------------------- queries

  predicate TopLevelField(path: string) {
    path != "" && !IsDigit(path[0]) && forall i :: 0 <= i < |path| ==>
      'a' <= path[i] <= 'z' || 'A' <= path[i] <= 'Z' || IsDigit(path[i]) || path[i] == '_'
  }

  function Member(value: Json, key: string): Json {
    if value.Obj? && key in KeySet(value.members) then value.members[IndexOf(value.members, key)].value else Undefined
  }

  /** `pathValue`: members followed one by one; nothing below a list. */
  function PathValue(value: Json, segments: seq<string>): Json
    decreases segments
  {
    if segments == [] then value
    else if IsMany(segments[0]) || !value.Obj? then Undefined
    else PathValue(Member(value, segments[0]), segments[1..])
  }

  function RawValue(raw: Raw, path: string): Json {
    var segments := SplitDots(path);
    if IsMany(segments[0]) || segments[0] !in raw then Undefined else PathValue(raw[segments[0]], segments[1..])
  }

  predicate Filterable(value: Json) {
    value.Num? || value.Bool? || (value.Str? && Trim(value.s) != "")
  }

  /** `identityQuery`: the scalar top-level identity fields of a record as filters. */
  function IdentityQuery(raw: Raw, mappings: seq<Mapping>): Query {
    if mappings == [] then Query([], map[])
    else
      var n := |mappings| - 1;
      var q := IdentityQuery(raw, mappings[..n]);
      var value := RawValue(raw, mappings[n].from);
      if TopLevelField(mappings[n].to) && Filterable(value)
      then Query(q.filters + [Filter(mappings[n].to, value)], q.seed[mappings[n].to := value])
      else q
  }

  /** The canonical text of the filters, standing for their hash. */
  function FiltersText(filters: seq<Filter>): string {
    if filters == [] then ""
      else Quote(filters[0].field) + ":" + ScalarText(filters[0].value) + "," + FiltersText(filters[1..])
  }

  function ScalarText(value: Json): string {
    match value
    case Str(s) => Quote(s)
    case Num(n) => IntText(n)
    case Bool(b) => if b then "true" else "false"
    case _ => "null"
  }

  function DeniedName(stage: Stage, filters: seq<Filter>): string {
    "unreadable-" + stage.id + "-" + FiltersText(filters)
  }

  // ------------------------------------------------- what a relationship yields

  /** Names of the records one query leads to: the matching rows, or the placeholder for a refusal. */
  function TargetNames(site: Site, stage: Stage, filters: seq<Filter>): Option<seq<string>> {
    match site.list(stage.doctype, filters)
    case ListFailed => None
    case ListDenied => Some([DeniedName(stage, filters)])
    case Rows(names) => Some(names)
  }

  /** `b` is the key of a record that a relationship query from the readable record `a` returns. */
  ghost predicate Leads(site: Site, manifest: Manifest, a: Key, b: Key) {
    a.stage in manifest.stages
    && match site.fetch(manifest.stages[a.stage].doctype, a.name)
       case Found(_, raw) => exists i ::
         0 <= i < |manifest.relationships| && LeadsBy(site, manifest, manifest.relationships[i], a, raw, b)
       case _ => false
  }

  ghost predicate LeadsBy(site: Site, manifest: Manifest, r: Relationship, a: Key, raw: Raw, b: Key) {
    && r.from == a.stage && r.to == b.stage && r.to in manifest.stages
    && var names := TargetNames(site, manifest.stages[r.to], IdentityQuery(raw, r.identity).filters);
       names.Some? && b.name in names.value
  }

  /** `p` follows relationship queries. */
  ghost predicate Trail(site: Site, manifest: Manifest, p: seq<Key>) {
    |p| > 0 && forall i, j :: 0 <= i < |p| && 0 <= j < |p| && j == i + 1 ==> Leads(site, manifest, p[i], p[j])
  }

  ghost predicate Reachable(site: Site, manifest: Manifest, root: Key, k: Key) {
    exists p :: Trail(site, manifest, p) && p[0] == root && p[|p| - 1] == k
  }

  lemma ReachRoot(site: Site, manifest: Manifest, root: Key)
    ensures Reachable(site, manifest, root, root)
  {
    assert Trail(site, manifest, [root]);
  }

  lemma ReachStep(site: Site, manifest: Manifest, root: Key, a: Key, b: Key)
    requires Reachable(site, manifest, root, a) && Leads(site, manifest, a, b)
    ensures Reachable(site, manifest, root, b)
  {
    var p :| Trail(site, manifest, p) && p[0] == root && p[|p| - 1] == a;
    var q := p + [b];
    forall i, j | 0 <= i < |q| && 0 <= j < |q| && j == i + 1 ensures Leads(site, manifest, q[i], q[j]) {
      if j < |p| { assert Leads(site, manifest, p[i], p[j]); }
    }
    assert q[|q| - 1] == b;
  }

  ghost predicate ClosedUnder(site: Site, manifest: Manifest, keys: iset<Key>) {
    forall a, b :: a in keys && Leads(site, manifest, a, b) ==> b in keys
  }

  /** What is reachable lies in every set that contains the root and is closed. */
  lemma {:induction false} ReachableIsLeast(site: Site, manifest: Manifest, root: Key, k: Key, keys: iset<Key>)
    requires Reachable(site, manifest, root, k) && root in keys && ClosedUnder(site, manifest, keys)
    ensures k in keys
  {
    var p :| Trail(site, manifest, p) && p[0] == root && p[|p| - 1] == k;
    TrailInside(site, manifest, p, |p| - 1, keys);
  }

  lemma {:induction false} TrailInside(site: Site, manifest: Manifest, p: seq<Key>, n: nat, keys: iset<Key>)
    requires Trail(site, manifest, p) && n < |p| && p[0] in keys && ClosedUnder(site, manifest, keys)
    ensures p[n] in keys
    decreases n
  {
    if n > 0 {
      TrailInside(site, manifest, p, n - 1, keys);
      assert Leads(site, manifest, p[n - 1], p[n]);
    }
  }

  // ------------------------------------------------------------------- paging

  const LIST_PAGE_SIZE := 100

  /** Listed and resolved names are the names records go by, and none is a placeholder. */
  ghost predicate Canonical(site: Site) {
    && (forall d, n :: site.fetch(d, n).Found? ==> site.fetch(d, site.fetch(d, n).name) == site.fetch(d, n))
    && (forall d, f, n :: site.list(d, f).Rows? && n in site.list(d, f).names && site.fetch(d, n).Found? ==>
         site.fetch(d, n).name == n)
    && (forall s: Stage, f :: !site.fetch(s.doctype, DeniedName(s, f)).Found?)
  }

  /** A record says about its key what the site says. */
  ghost predicate Right(site: Site, rec: Record) {
    match site.fetch(rec.stage.doctype, rec.name)
    case Found(name, raw) => rec.readable && rec.raw == raw && rec.name == name
    case _ => !rec.readable
  }

  /** `fetchRecord` where an unreadable record is allowed. */
  function FetchRecord(site: Site, stage: Stage, name: string, seed: Raw): Result<Record, string> {
    match site.fetch(stage.doctype, name)
    case Found(resolved, raw) =>
      if resolved == "" then Err("Frappe returned a record without a name.") else Ok(Record(stage, resolved, true, raw))
    case Denied => Ok(Record(stage, name, false, seed["name" := Str(name)]))
    case Failed => Err("Frappe could not read the record.")
  }

  /** Every row has a name and can be read or is refused. */
  ghost predicate AllFetchable(site: Site, stage: Stage, names: seq<string>) {
    forall i :: 0 <= i < |names| ==> names[i] != "" && FetchRecord(site, stage, names[i], map[]).Ok?
  }

  ghost predicate AreTargets(site: Site, stage: Stage, names: seq<string>, targets: seq<Record>) {
    |targets| == |names| && forall i :: 0 <= i < |names| ==>
      targets[i].stage == stage && targets[i].name == names[i] && Right(site, targets[i])
  }

  /** The records of one page, or the first error. */
  method FetchPage(site: Site, stage: Stage, data: seq<string>, seed: Raw) returns (r: Result<seq<Record>, string>)
    requires forall n :: n in data && site.fetch(stage.doctype, n).Found? ==> site.fetch(stage.doctype, n).name == n
    ensures r.Ok? <==> AllFetchable(site, stage, data)
    ensures r.Ok? ==> AreTargets(site, stage, data, r.value)
  {
    var targets: seq<Record> := [];
    for k := 0 to |data|
      invariant |targets| == k
      invariant AreTargets(site, stage, data[..k], targets) && AllFetchable(site, stage, data[..k])
    {
      if data[k] == "" { return Err("Frappe returned a query row without a name."); }
      var fetched := FetchRecord(site, stage, data[k], seed);
      if fetched.Err? { return Err(fetched.error); }
      assert data[k] in data;
      targets := targets + [fetched.value];
    }
    assert data[..|data|] == data;
    r := Ok(targets);
  }

  lemma JoinTargets(site: Site, stage: Stage, a: seq<string>, b: seq<string>, s: seq<Record>, t: seq<Record>)
    requires AreTargets(site, stage, a, s) && AreTargets(site, stage, b, t)
    ensures AreTargets(site, stage, a + b, s + t)
  {
  }

  lemma JoinFetchable(site: Site, stage: Stage, a: seq<string>, b: seq<string>)
    ensures AllFetchable(site, stage, a + b) <==> AllFetchable(site, stage, a) && AllFetchable(site, stage, b)
  {
    assert forall i :: 0 <= i < |a| ==> (a + b)[i] == a[i];
    assert forall i :: 0 <= i < |b| ==> (a + b)[|a| + i] == b[i];
  }

  lemma PageExtends(names: seq<string>, offset: nat, length: nat)
    requires offset <= |names|
    ensures var data := Page(names, offset, length);
      offset + |data| <= |names| && names[..offset + |data|] == names[..offset] + data && |data| <= length
      && (|data| < length ==> offset + |data| == |names|) && forall n :: n in data ==> n in names
  {
  }

  /** All pages of a list with at most `limit` rows. */
  method QueryPages(site: Site, stage: Stage, names: seq<string>, seed: Raw, limit: nat)
    returns (r: Result<seq<Record>, string>)
    requires forall n :: n in names && site.fetch(stage.doctype, n).Found? ==> site.fetch(stage.doctype, n).name == n
    ensures r.Ok? <==> |names| <= limit && AllFetchable(site, stage, names)
    ensures r.Ok? ==> AreTargets(site, stage, names, r.value)
  {
    var targets: seq<Record> := [];
    var offset := 0;
    while true
      invariant offset == |targets| <= |names| && offset <= limit
      invariant AreTargets(site, stage, names[..offset], targets) && AllFetchable(site, stage, names[..offset])
      decreases |names| - offset
    {
      var remaining := limit - |targets|;
      var pageLength := if remaining == 0 then 1 else if remaining < LIST_PAGE_SIZE then remaining + 1
        else LIST_PAGE_SIZE;
      var data := Page(names, offset, pageLength);
      PageExtends(names, offset, pageLength);
      assert names[..offset + |data|] + names[offset + |data|..] == names;
      JoinFetchable(site, stage, names[..offset], data);
      JoinFetchable(site, stage, names[..offset + |data|], names[offset + |data|..]);
      if |data| > remaining { return Err("Live lineage evidence exceeded its bounded record cap."); }
      var page := FetchPage(site, stage, data, seed);
      if page.Err? { return page; }
      JoinTargets(site, stage, names[..offset], data, targets, page.value);
      targets := targets + page.value;
      if |data| < pageLength {
        assert names[..offset + |data|] == names;
        return Ok(targets);
      }
      offset := offset + |data|;
    }
  }

  /** `queryTargets`: every match, or an error; never a truncated list. */
  method QueryTargets(site: Site, stage: Stage, query: Query, limit: nat) returns (r: Result<seq<Record>, string>)
    requires Canonical(site)
    ensures var names := TargetNames(site, stage, query.filters);
      && (r.Ok? ==> names.Some? && AreTargets(site, stage, names.value, r.value))
      && (site.list(stage.doctype, query.filters).Rows? ==>
            (r.Ok? <==> |names.value| <= limit && AllFetchable(site, stage, names.value)))
      && (site.list(stage.doctype, query.filters).ListDenied? ==> r.Ok?)
  {
    var listed := site.list(stage.doctype, query.filters);
    match listed {
      case ListDenied =>
        var denied := DeniedName(stage, query.filters);
        r := Ok([Record(stage, denied, false, map["name" := Str(denied)] + query.seed)]);
      case ListFailed =>
        r := Err("Frappe could not query the records.");
      case Rows(names) =>
        r := QueryPages(site, stage, names, query.seed, limit);
    }
  }

  // ------------------------------------------------------------------ the loader

  function KeyOf(rec: Record): Key {
    Key(rec.stage.id, rec.name)
  }

  /** Stages are filed under their own id, and relationships join known stages. */
  ghost predicate WellFormed(manifest: Manifest) {
    && (forall id :: id in manifest.stages ==> manifest.stages[id].id == id)
    && forall i :: 0 <= i < |manifest.relationships| ==>
      manifest.relationships[i].from in manifest.stages && manifest.relationships[i].to in manifest.stages
  }

  ghost predicate RightRecord(site: Site, manifest: Manifest, root: Key, rec: Record) {
    && rec.stage.id in manifest.stages && manifest.stages[rec.stage.id] == rec.stage
    && Right(site, rec) && Reachable(site, manifest, root, KeyOf(rec))
  }

  /** One queue entry per filed record, each of them good. */
  ghost predicate Filed<K(!new), R(!new)>(keyOf: R -> K, good: R -> bool, records: map<K, R>, queue: seq<R>) {
    && |records| == |queue|
    && (forall i :: 0 <= i < |queue| ==>
         good(queue[i]) && keyOf(queue[i]) in records && records[keyOf(queue[i])] == queue[i])
    && (forall k :: k in records ==> keyOf(records[k]) == k && records[k] in queue)
  }

  lemma FileNew<K(!new), R(!new)>(keyOf: R -> K, good: R -> bool, records: map<K, R>, queue: seq<R>, rec: R)
    requires Filed(keyOf, good, records, queue) && good(rec) && keyOf(rec) !in records
    ensures Filed(keyOf, good, records[keyOf(rec) := rec], queue + [rec])
  {
    var after, longer := records[keyOf(rec) := rec], queue + [rec];
    assert after.Keys == records.Keys + {keyOf(rec)};
  }

  /** A filed record is filed under its own key and is good. */
  lemma FiledGood<K(!new), R(!new)>(keyOf: R -> K, good: R -> bool, records: map<K, R>, queue: seq<R>, k: K)
    requires Filed(keyOf, good, records, queue) && k in records
    ensures good(records[k]) && keyOf(records[k]) == k
  {
  }

  /** `addRecord`: the first record of a key is filed and queued; a readable one replaces an unreadable one. */
  method AddRecord<K(==,!new), R(!new)>(keyOf: R -> K, readable: R -> bool, ghost good: R -> bool,
                                       records: map<K, R>, queue: seq<R>, rec: R, maxRecords: nat)
    returns (ok: bool, records': map<K, R>, queue': seq<R>)
    requires Filed(keyOf, good, records, queue) && good(rec) && |records| <= maxRecords
    requires Settled(keyOf, readable, good)
    ensures ok <==> keyOf(rec) in records || |records| < maxRecords
    ensures ok ==> Filed(keyOf, good, records', queue') && |records'| <= maxRecords && |records'| <= |records| + 1
    ensures ok ==> records'.Keys == records.Keys + {keyOf(rec)} && queue <= queue'
  {
    ok, records', queue' := true, records, queue;
    var key := keyOf(rec);
    if key in records {
      assert readable(records[key]) == readable(rec) by { FiledGood(keyOf, good, records, queue, key); }
      if !readable(records[key]) && readable(rec) { records' := records[key := rec]; }
      return;
    }
    if |records| >= maxRecords {
      ok := false;
      return;
    }
    records' := records[key := rec];
    queue' := queue + [rec];
    FileNew(keyOf, good, records, queue, rec);
  }

  /** Good records of one key agree on whether they can be read. */
  ghost predicate Settled<K(!new), R(!new)>(keyOf: R -> K, readable: R -> bool, good: R -> bool) {
    forall r, s :: good(r) && good(s) && keyOf(r) == keyOf(s) ==> readable(r) == readable(s)
  }

  /** The records of one query are filed. */
  method AddRecords<K(==,!new), R(!new)>(keyOf: R -> K, readable: R -> bool, ghost good: R -> bool,
                                        records: map<K, R>, queue: seq<R>, targets: seq<R>, maxRecords: nat)
    returns (ok: bool, records': map<K, R>, queue': seq<R>)
    requires Filed(keyOf, good, records, queue) && |records| + |targets| <= maxRecords
    requires Settled(keyOf, readable, good)
    requires forall i :: 0 <= i < |targets| ==> good(targets[i])
    ensures ok && Filed(keyOf, good, records', queue') && |records'| <= maxRecords
    ensures records.Keys <= records'.Keys && queue <= queue'
    ensures forall i :: 0 <= i < |targets| ==> keyOf(targets[i]) in records'
  {
    ok, records', queue' := true, records, queue;
    for n := 0 to |targets|
      invariant ok && Filed(keyOf, good, records', queue') && |records'| <= |records| + n && queue <= queue'
      invariant records.Keys <= records'.Keys && forall i :: 0 <= i < n ==> keyOf(targets[i]) in records'
    {
      ok, records', queue' := AddRecord(keyOf, readable, good, records', queue', targets[n], maxRecords);
    }
  }

  /** What the relationship query `r` leads to from a readable record is filed. */
  ghost predicate FollowedBy(site: Site, manifest: Manifest, r: Relationship, rec: Record, keys: set<Key>) {
    forall b :: LeadsBy(site, manifest, r, KeyOf(rec), rec.raw, b) ==> b in keys
  }

  /** Everything the record leads to is filed. */
  ghost predicate FollowedAll(site: Site, manifest: Manifest, rec: Record, keys: set<Key>) {
    forall b :: Leads(site, manifest, KeyOf(rec), b) ==> b in keys
  }

  lemma TargetsRight(site: Site, manifest: Manifest, root: Key, i: nat, source: Record, targets: seq<Record>)
    requires WellFormed(manifest) && i < |manifest.relationships| && RightRecord(site, manifest, root, source)
      && source.readable
    requires var r := manifest.relationships[i];
      && r.from == source.stage.id
      && var names := TargetNames(site, manifest.stages[r.to], IdentityQuery(source.raw, r.identity).filters);
         names.Some? && AreTargets(site, manifest.stages[r.to], names.value, targets)
    ensures forall k :: 0 <= k < |targets| ==> RightRecord(site, manifest, root, targets[k])
  {
    var r := manifest.relationships[i];
    var stage := manifest.stages[r.to];
    var names := TargetNames(site, stage, IdentityQuery(source.raw, r.identity).filters).value;
    forall k | 0 <= k < |targets| ensures RightRecord(site, manifest, root, targets[k]) {
      assert names[k] in names;
      assert LeadsBy(site, manifest, r, KeyOf(source), source.raw, KeyOf(targets[k]));
      ReachStep(site, manifest, root, KeyOf(source), KeyOf(targets[k]));
    }
  }

  lemma TargetsFollowed(site: Site, manifest: Manifest, i: nat, source: Record, targets: seq<Record>, keys: set<Key>)
    requires WellFormed(manifest) && i < |manifest.relationships| && manifest.relationships[i].from == source.stage.id
    requires var r := manifest.relationships[i];
      var names := TargetNames(site, manifest.stages[r.to], IdentityQuery(source.raw, r.identity).filters);
      names.Some? && AreTargets(site, manifest.stages[r.to], names.value, targets)
    requires forall k :: 0 <= k < |targets| ==> KeyOf(targets[k]) in keys
    ensures FollowedBy(site, manifest, manifest.relationships[i], source, keys)
  {
    var r := manifest.relationships[i];
    var names := TargetNames(site, manifest.stages[r.to], IdentityQuery(source.raw, r.identity).filters).value;
    forall b | LeadsBy(site, manifest, r, KeyOf(source), source.raw, b) ensures b in keys {
      var k :| 0 <= k < |names| && names[k] == b.name;
      assert KeyOf(targets[k]) == b;
    }
  }

  ghost function GoodRecord(site: Site, manifest: Manifest, root: Key): Record -> bool {
    rec => RightRecord(site, manifest, root, rec)
  }

  lemma GoodSettled(site: Site, manifest: Manifest, root: Key)
    ensures Settled(KeyOf, (rec: Record) => rec.readable, GoodRecord(site, manifest, root))
  {
  }

  /** More records are wanted than the cap allows: `extra` beyond a set of reachable ones. */
  ghost predicate OverCap(site: Site, manifest: Manifest, root: Key, extra: nat, maxRecords: nat) {
    exists known: set<Key> ::
      (forall k :: k in known ==> Reachable(site, manifest, root, k)) && |known| + extra > maxRecords
  }

  /** The query of a relationship that cannot be answered in full. */
  ghost predicate Unanswered(site: Site, manifest: Manifest, root: Key, r: Relationship, raw: Raw, maxRecords: nat)
    requires r.to in manifest.stages
  {
    var stage := manifest.stages[r.to];
    var filters := IdentityQuery(raw, r.identity).filters;
    || filters == []
    || OverCap(site, manifest, root, 1, maxRecords)
    || site.list(stage.doctype, filters).ListFailed?
    || (site.list(stage.doctype, filters).Rows?
        && var names := site.list(stage.doctype, filters).names;
           !AllFetchable(site, stage, names) || |names| > LIST_PAGE_SIZE
             || OverCap(site, manifest, root, |names|, maxRecords))
  }

  /** Some reachable readable record has a relationship whose query cannot be answered in full. */
  ghost predicate Stopped(site: Site, manifest: Manifest, root: Key, maxRecords: nat)
    requires WellFormed(manifest)
  {
    exists source, i {:trigger Right(site, source), manifest.relationships[i]} ::
      && Right(site, source) && source.readable && Reachable(site, manifest, root, KeyOf(source))
      && 0 <= i < |manifest.relationships| && manifest.relationships[i].from == source.stage.id
      && Unanswered(site, manifest, root, manifest.relationships[i], source.raw, maxRecords)
  }

  lemma NowOverCap(site: Site, manifest: Manifest, root: Key, records: map<Key, Record>, queue: seq<Record>, extra: nat,
                   maxRecords: nat)
    requires Filed(KeyOf, GoodRecord(site, manifest, root), records, queue) && |records| + extra > maxRecords
    ensures OverCap(site, manifest, root, extra, maxRecords)
  {
    forall k | k in records.Keys ensures Reachable(site, manifest, root, k) {
      FiledGood(KeyOf, GoodRecord(site, manifest, root), records, queue, k);
    }
    assert |records.Keys| == |records|;
  }

  /** The query of one relationship from a readable record, its matches filed. */
  method FollowRelationship(site: Site, manifest: Manifest, ghost root: Key, records: map<Key, Record>,
                            queue: seq<Record>,
                            source: Record, i: nat, maxRecords: nat)
    returns (ok: bool, records': map<Key, Record>, queue': seq<Record>)
    requires Canonical(site) && WellFormed(manifest)
    requires Filed(KeyOf, GoodRecord(site, manifest, root), records, queue) && |records| <= maxRecords
    requires RightRecord(site, manifest, root, source) && source.readable
    requires i < |manifest.relationships| && manifest.relationships[i].from == source.stage.id
    ensures ok ==> Filed(KeyOf, GoodRecord(site, manifest, root), records', queue') && |records'| <= maxRecords
    ensures ok ==> records.Keys <= records'.Keys && queue <= queue'
    ensures ok ==> FollowedBy(site, manifest, manifest.relationships[i], source, records'.Keys)
    ensures !ok ==> Unanswered(site, manifest, root, manifest.relationships[i], source.raw, maxRecords)
  {
    ok, records', queue' := false, records, queue;
    var r := manifest.relationships[i];
    var query := IdentityQuery(source.raw, r.identity);
    if query.filters == [] { return; }
    if |records| >= maxRecords {
      NowOverCap(site, manifest, root, records, queue, 1, maxRecords);
      return;
    }
    var remaining := maxRecords - |records|;
    var targets := QueryTargets(site, manifest.stages[r.to], query, if remaining < LIST_PAGE_SIZE then remaining
      else LIST_PAGE_SIZE);
    if targets.Err? {
      ghost var listed := site.list(manifest.stages[r.to].doctype, query.filters);
      if listed.Rows? && |listed.names| > remaining {
        NowOverCap(site, manifest, root, records, queue, |listed.names|, maxRecords);
      }
      return;
    }
    TargetsRight(site, manifest, root, i, source, targets.value);
    GoodSettled(site, manifest, root);
    ok, records', queue' := AddRecords(KeyOf, (rec: Record) => rec.readable, GoodRecord(site, manifest, root),
      records, queue, targets.value, maxRecords);
    TargetsFollowed(site, manifest, i, source, targets.value, records'.Keys);
  }

  /** The queries of one readable record. */
  method FollowRecord(site: Site, manifest: Manifest, ghost root: Key, records: map<Key, Record>, queue: seq<Record>,
                      source: Record, maxRecords: nat)
    returns (ok: bool, records': map<Key, Record>, queue': seq<Record>)
    requires Canonical(site) && WellFormed(manifest)
    requires Filed(KeyOf, GoodRecord(site, manifest, root), records, queue) && |records| <= maxRecords
    requires RightRecord(site, manifest, root, source) && source.readable
    ensures ok ==> Filed(KeyOf, GoodRecord(site, manifest, root), records', queue') && |records'| <= maxRecords
    ensures ok ==>
      && records.Keys <= records'.Keys && queue <= queue'
      && FollowedAll(site, manifest, source, records'.Keys)
    ensures !ok ==> Stopped(site, manifest, root, maxRecords)
  {
    ok, records', queue' := true, records, queue;
    for n := 0 to |manifest.relationships|
      invariant ok && Filed(KeyOf, GoodRecord(site, manifest, root), records', queue') && |records'| <= maxRecords
      invariant records.Keys <= records'.Keys && queue <= queue'
      invariant FollowedFirst(site, manifest, source, n, records'.Keys)
    {
      if manifest.relationships[n].from != source.stage.id {
        FollowedGrows(site, manifest, source, n, records'.Keys, records'.Keys);
        continue;
      }
      ghost var before := records'.Keys;
      ok, records', queue' := FollowRelationship(site, manifest, root, records', queue', source, n, maxRecords);
      if !ok {
        StoppedHere(site, manifest, root, source, n, maxRecords);
        return;
      }
      FollowedGrows(site, manifest, source, n, before, records'.Keys);
    }
    AllFollowed(site, manifest, source, records'.Keys);
  }

  lemma StoppedHere(site: Site, manifest: Manifest, root: Key, source: Record, i: nat, maxRecords: nat)
    requires WellFormed(manifest) && RightRecord(site, manifest, root, source) && source.readable
    requires i < |manifest.relationships| && manifest.relationships[i].from == source.stage.id
    requires Unanswered(site, manifest, root, manifest.relationships[i], source.raw, maxRecords)
    ensures Stopped(site, manifest, root, maxRecords)
  {
    assert Right(site, source);
  }

  /** What the first `n` relationships lead to is filed. */
  ghost predicate FollowedFirst(site: Site, manifest: Manifest, rec: Record, n: nat, keys: set<Key>)
    requires n <= |manifest.relationships|
  {
    forall i :: 0 <= i < n && manifest.relationships[i].from == rec.stage.id ==>
      FollowedBy(site, manifest, manifest.relationships[i], rec, keys)
  }

  lemma FollowedGrows(site: Site, manifest: Manifest, rec: Record, n: nat, keys: set<Key>, more: set<Key>)
    requires n < |manifest.relationships| && keys <= more
    requires FollowedFirst(site, manifest, rec, n, keys)
    requires manifest.relationships[n].from == rec.stage.id ==>
      FollowedBy(site, manifest, manifest.relationships[n], rec, more)
    ensures FollowedFirst(site, manifest, rec, n + 1, more)
  {
    forall i | 0 <= i < n && manifest.relationships[i].from == rec.stage.id
      ensures FollowedBy(site, manifest, manifest.relationships[i], rec, more)
    {
      assert FollowedBy(site, manifest, manifest.relationships[i], rec, keys);
    }
  }

  lemma AllFollowed(site: Site, manifest: Manifest, rec: Record, keys: set<Key>)
    requires Right(site, rec) && rec.readable && rec.stage.id in manifest.stages
      && manifest.stages[rec.stage.id] == rec.stage
    requires FollowedFirst(site, manifest, rec, |manifest.relationships|, keys)
    ensures FollowedAll(site, manifest, rec, keys)
  {
    forall b | Leads(site, manifest, KeyOf(rec), b) ensures b in keys {
      var i :| 0 <= i < |manifest.relationships|
        && LeadsBy(site, manifest, manifest.relationships[i], KeyOf(rec), rec.raw, b);
      assert FollowedBy(site, manifest, manifest.relationships[i], rec, keys);
    }
  }

  lemma RootRight(site: Site, manifest: Manifest, rootStage: string, rec: Record)
    requires WellFormed(manifest) && rootStage in manifest.stages
    requires rec.readable && rec.stage == manifest.stages[rootStage]
    requires site.fetch(rec.stage.doctype, rec.name) == Found(rec.name, rec.raw)
    ensures RightRecord(site, manifest, KeyOf(rec), rec)
    ensures Filed(KeyOf, GoodRecord(site, manifest, KeyOf(rec)), map[KeyOf(rec) := rec], [rec])
  {
    ReachRoot(site, manifest, KeyOf(rec));
    var records, queue := map[KeyOf(rec) := rec], [rec];
  }

  /** The records filed once the worklist is exhausted. */
  ghost predicate Evidence(site: Site, manifest: Manifest, root: Key, records: map<Key, Record>) {
    && (forall k :: k in records <==> Reachable(site, manifest, root, k))
    && forall k :: k in records ==> KeyOf(records[k]) == k && Right(site, records[k])
  }

  /** `loadLiveFrappeLineageEvidence`: if it returns, the records are exactly those reachable from
      the root by relationship queries from readable records, one per key and within the cap; if it
      fails, the root cannot be read or some query cannot be answered in full. */
  method LoadLiveFrappeLineageEvidence(site: Site, manifest: Manifest, rootStage: string, rootName: string,
                                       maxRecords: nat)
    returns (r: Option<map<Key, Record>>)
    requires Canonical(site) && WellFormed(manifest) && maxRecords > 0
    ensures var readable := rootStage in manifest.stages && rootName != ""
      && site.fetch(manifest.stages[rootStage].doctype, rootName).Found?
                            && site.fetch(manifest.stages[rootStage].doctype, rootName).name != "";
      var root := if readable then Key(rootStage, site.fetch(manifest.stages[rootStage].doctype, rootName).name)
        else Key("", "");
      && (r.Some? ==> readable && |r.value| <= maxRecords && Evidence(site, manifest, root, r.value))
      && (r.None? ==> !readable || Stopped(site, manifest, root, maxRecords))
  {
    if rootName == "" || rootStage !in manifest.stages { return None; }
    var stage := manifest.stages[rootStage];
    var fetched := site.fetch(stage.doctype, rootName);
    if !fetched.Found? || fetched.name == "" { return None; }
    var first := Record(stage, fetched.name, true, fetched.raw);
    ghost var root := KeyOf(first);
    RootRight(site, manifest, rootStage, first);
    var records, queue := map[KeyOf(first) := first], [first];
    var cursor := 0;
    while cursor < |queue|
      invariant 0 < |queue| && cursor <= |queue| && queue[0] == first && |queue| == |records| <= maxRecords
      invariant Filed(KeyOf, GoodRecord(site, manifest, root), records, queue)
      invariant FollowedUpTo(site, manifest, queue, cursor, records.Keys)
      decreases maxRecords - cursor
    {
      var source := queue[cursor];
      assert GoodRecord(site, manifest, root)(source);
      if source.readable {
        var ok;
        ghost var before := queue;
        ghost var keys := records.Keys;
        ok, records, queue := FollowRecord(site, manifest, root, records, queue, source, maxRecords);
        if !ok { return None; }
        FollowedNext(site, manifest, before, queue, cursor, keys, records.Keys);
      } else {
        UnreadableLeadsNowhere(site, manifest, source, records.Keys);
        FollowedNext(site, manifest, queue, queue, cursor, records.Keys, records.Keys);
      }
      cursor := cursor + 1;
    }
    WorklistDone(site, manifest, root, records, queue);
    r := Some(records);
  }

  /** Everything the first `n` records of the queue lead to is filed. */
  ghost predicate FollowedUpTo(site: Site, manifest: Manifest, queue: seq<Record>, n: nat, keys: set<Key>)
    requires n <= |queue|
  {
    forall i :: 0 <= i < n ==> FollowedAll(site, manifest, queue[i], keys)
  }

  lemma FollowedNext(site: Site, manifest: Manifest, before: seq<Record>, queue: seq<Record>, n: nat, keys: set<Key>,
                     more: set<Key>)
    requires n < |before| && before <= queue && keys <= more
    requires FollowedUpTo(site, manifest, before, n, keys) && FollowedAll(site, manifest, before[n], more)
    ensures FollowedUpTo(site, manifest, queue, n + 1, more)
  {
    forall i | 0 <= i < n ensures FollowedAll(site, manifest, queue[i], more) {
      assert FollowedAll(site, manifest, before[i], keys);
    }
  }

  lemma UnreadableLeadsNowhere(site: Site, manifest: Manifest, rec: Record, keys: set<Key>)
    requires Right(site, rec) && !rec.readable && rec.stage.id in manifest.stages
      && manifest.stages[rec.stage.id] == rec.stage
    ensures FollowedAll(site, manifest, rec, keys)
  {
  }

  lemma WorklistDone(site: Site, manifest: Manifest, root: Key, records: map<Key, Record>, queue: seq<Record>)
    requires Filed(KeyOf, GoodRecord(site, manifest, root), records, queue)
    requires queue != [] && KeyOf(queue[0]) == root
    requires FollowedUpTo(site, manifest, queue, |queue|, records.Keys)
    ensures Evidence(site, manifest, root, records)
  {
    var keys := iset k | k in records;
    forall k | k in records ensures KeyOf(records[k]) == k && Right(site, records[k])
      && Reachable(site, manifest, root, k) {
      FiledGood(KeyOf, GoodRecord(site, manifest, root), records, queue, k);
    }
    assert ClosedUnder(site, manifest, keys) by {
      forall a, b | a in keys && Leads(site, manifest, a, b) ensures b in keys {
        var i :| 0 <= i < |queue| && queue[i] == records[a];
        assert FollowedAll(site, manifest, queue[i], records.Keys);
      }
    }
    forall k | Reachable(site, manifest, root, k) ensures k in records {
      ReachableIsLeast(site, manifest, root, k, keys);
    }
  }
}

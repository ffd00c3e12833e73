/** The deterministic layered topological sort of change operations. */
module ChangeOrder {
  import opened Text

  /** An operation seen by the sort: its id, its dependencies, and the rest of it. */
  datatype Node<+T> = Node(id: string, dependsOn: seq<string>, value: T)

  datatype Issue = Issue(code: string, path: string, names: seq<string>)

  /** Each remaining id with the dependencies it still waits for. */
  type Graph = map<string, set<string>>

  // ------------------------------------------------------------ specification

  function Ids<T>(ops: seq<Node<T>>): set<string> {
    set i | 0 <= i < |ops| :: ops[i].id
  }

  ghost predicate DistinctIds<T>(ops: seq<Node<T>>) {
    forall i, j :: 0 <= i < j < |ops| ==> ops[i].id != ops[j].id
  }

  /** The map from id to operation of the first `n`, later operations overriding earlier ones. */
  function FirstById<T>(ops: seq<Node<T>>, n: nat): map<string, Node<T>>
    requires n <= |ops|
  {
    if n == 0 then map[] else FirstById(ops, n - 1)[ops[n - 1].id := ops[n - 1]]
  }

  lemma {:induction false} FirstByIdExact<T>(ops: seq<Node<T>>, n: nat)
    requires n <= |ops|
    ensures FirstById(ops, n).Keys == set i | 0 <= i < n :: ops[i].id
  {
    if n > 0 { FirstByIdExact(ops, n - 1); }
  }

  function ById<T>(ops: seq<Node<T>>): (m: map<string, Node<T>>)
    ensures m.Keys == Ids(ops)
  {
    FirstByIdExact(ops, |ops|);
    FirstById(ops, |ops|)
  }

  function GraphOf<T>(ops: seq<Node<T>>): Graph {
    var byId := ById(ops);
    map id | id in byId :: set d | d in byId[id].dependsOn
  }

  function DuplicateIssues<T>(ops: seq<Node<T>>, n: nat): seq<Issue>
    requires n <= |ops|
  {
    if n == 0 then [] else
      var id := ops[n - 1].id;
      DuplicateIssues(ops, n - 1)
      + if id in FirstById(ops, n - 1) then [Issue("duplicate_operation", "operations." + id, [id])] else []
  }

  function DependencyIssues(known: set<string>, id: string, dependsOn: seq<string>, n: nat): seq<Issue>
    requires n <= |dependsOn|
  {
    if n == 0 then [] else
      var d := dependsOn[n - 1];
      DependencyIssues(known, id, dependsOn, n - 1)
      + (if d !in known then [Issue("missing_dependency", "operations." + id + ".dependsOn", [d])] else [])
      + (if d == id then [Issue("self_dependency", "operations." + id + ".dependsOn", [d])] else [])
  }

  function AllDependencyIssues<T>(known: set<string>, ops: seq<Node<T>>, n: nat): seq<Issue>
    requires n <= |ops|
  {
    if n == 0 then [] else
      AllDependencyIssues(known, ops, n - 1)
      + DependencyIssues(known, ops[n - 1].id, ops[n - 1].dependsOn, |ops[n - 1].dependsOn|)
  }

  function LinkIssues<T>(ops: seq<Node<T>>): seq<Issue> {
    DuplicateIssues(ops, |ops|) + AllDependencyIssues(Ids(ops), ops, |ops|)
  }

  function Ready(g: Graph): set<string> {
    set id | id in g && g[id] == {}
  }

  function Without(g: Graph, done: set<string>): Graph {
    map id | id in g && id !in done :: g[id] - done
  }

  lemma WithoutSmaller(g: Graph, done: set<string>)
    requires done != {} && done <= g.Keys
    ensures |Without(g, done)| < |g|
  {
    assert Without(g, done).Keys == g.Keys - done;
    assert |g.Keys - done| == |g.Keys| - |done|;
  }

  /** Layer by layer; `Err` carries the ids left when no layer is ready. */
  function Layers(g: Graph): Result<seq<string>, set<string>>
    decreases |g|
  {
    if g == map[] then Ok([]) else
      var ready := Ready(g);
      if ready == {} then Err(g.Keys) else
        WithoutSmaller(g, ready);
        var rest := Layers(Without(g, ready));
        if rest.Ok? then Ok(SortedKeys(ready) + rest.value) else rest
  }

  function Pick<T>(byId: map<string, Node<T>>, ids: seq<string>): (r: seq<Node<T>>)
    requires forall id :: id in ids ==> id in byId
    ensures |r| == |ids| && forall i :: 0 <= i < |ids| ==> r[i] == byId[ids[i]]
  {
    if ids == [] then [] else [byId[ids[0]]] + Pick(byId, ids[1..])
  }

  function Order<T>(ops: seq<Node<T>>): Result<seq<Node<T>>, seq<Issue>> {
    if LinkIssues(ops) != [] then Err(LinkIssues(ops)) else
      var ids := Layers(GraphOf(ops));
      if ids.Err? then Err([Issue("dependency_cycle", "operations", SortedKeys(ids.error))]) else
        LayersKeys(GraphOf(ops));
        Ok(Pick(ById(ops), ids.value))
  }

  // ------------------------------------------------------- the loop refines it

  /** The first loop of `orderFrappeChangeOperations`. */
  method CollectById<T>(ops: seq<Node<T>>) returns (byId: map<string, Node<T>>, issues: seq<Issue>)
    ensures byId == ById(ops)
    ensures issues == DuplicateIssues(ops, |ops|)
  {
    byId, issues := map[], [];
    for n := 0 to |ops|
      invariant byId == FirstById(ops, n)
      invariant issues == DuplicateIssues(ops, n)
    {
      if ops[n].id in byId {
        issues := issues + [Issue("duplicate_operation", "operations." + ops[n].id, [ops[n].id])];
      }
      byId := byId[ops[n].id := ops[n]];
    }
  }

  /** The second loop. */
  method CollectAllDependencyIssues<T>(byId: map<string, Node<T>>, ops: seq<Node<T>>) returns (issues: seq<Issue>)
    ensures issues == AllDependencyIssues(byId.Keys, ops, |ops|)
  {
    issues := [];
    for n := 0 to |ops|
      invariant issues == AllDependencyIssues(byId.Keys, ops, n)
    {
      var found := CollectDependencyIssues(byId, ops[n].id, ops[n].dependsOn);
      issues := issues + found;
    }
  }

  method CollectDependencyIssues<T>(byId: map<string, Node<T>>, id: string, dependsOn: seq<string>)
    returns (issues: seq<Issue>)
    ensures issues == DependencyIssues(byId.Keys, id, dependsOn, |dependsOn|)
  {
    issues := [];
    for k := 0 to |dependsOn|
      invariant issues == DependencyIssues(byId.Keys, id, dependsOn, k)
    {
      var d := dependsOn[k];
      if d !in byId {
        issues := issues + [Issue("missing_dependency", "operations." + id + ".dependsOn", [d])];
      }
      if d == id {
        issues := issues + [Issue("self_dependency", "operations." + id + ".dependsOn", [d])];
      }
    }
  }

  /** The inner loop: takes the ready ids out of `remaining` one at a time. */
  method TakeReady<T>(byId: map<string, Node<T>>, g: Graph, ready: seq<string>)
    returns (ordered: seq<Node<T>>, remaining: Graph)
    requires forall id :: id in ready ==> id in byId
    ensures ordered == Pick(byId, ready)
    ensures remaining == Without(g, set id | id in ready)
  {
    ordered, remaining := [], g;
    ghost var taken: set<string> := {};
    assert Without(g, taken) == g by { assert forall id :: id in g ==> g[id] - {} == g[id]; }
    for k := 0 to |ready|
      invariant taken == set id | id in ready[..k]
      invariant remaining == Without(g, taken)
      invariant ordered == Pick(byId, ready[..k])
    {
      var id := ready[k];
      assert id in ready;
      assert ready[..k + 1] == ready[..k] + [id];
      PickAppend(byId, ready[..k], [id]);
      ordered := ordered + [byId[id]];
      WithoutTwice(g, taken, id);
      var rest := map x | x in remaining && x != id :: remaining[x];
      remaining := map x | x in rest :: rest[x] - {id};
      taken := taken + {id};
    }
    assert ready[..|ready|] == ready;
  }

  lemma WithoutTwice(g: Graph, done: set<string>, id: string)
    ensures Without(Without(g, done), {id}) == Without(g, done + {id})
  {
    forall x | x in g && x !in done && x != id ensures g[x] - done - {id} == g[x] - (done + {id}) {}
  }

  /** The while loop: empties the map of sets layer by layer. */
  method DrainLayers<T>(byId: map<string, Node<T>>, g: Graph) returns (r: Result<seq<Node<T>>, set<string>>)
    requires g.Keys <= byId.Keys
    ensures Layers(g).Err? ==> r == Err(Layers(g).error)
    ensures Layers(g).Ok? ==>
      (forall id :: id in Layers(g).value ==> id in byId) && r == Ok(Pick(byId, Layers(g).value))
  {
    var remaining := g;
    var ordered: seq<Node<T>> := [];
    ghost var done: seq<string> := [];
    PrependNone(Layers(g));
    while remaining != map[]
      invariant remaining.Keys <= byId.Keys
      invariant (forall id :: id in done ==> id in byId) && ordered == Pick(byId, done)
      invariant Layers(g) == Prepend(done, Layers(remaining))
      decreases |remaining|
    {
      var ready := SortedKeys(Ready(remaining));
      if ready == [] {
        return Err(remaining.Keys);
      }
      WithoutSmaller(remaining, Ready(remaining));
      var taken, rest := TakeReady(byId, remaining, ready);
      assert Ready(remaining) == set id | id in ready;
      PickAppend(byId, done, ready);
      PrependTwice(done, ready, Layers(rest));
      ordered, remaining, done := ordered + taken, rest, done + ready;
    }
    assert done + [] == done;
    r := Ok(ordered);
  }

  /** `orderFrappeChangeOperations`. */
  method OrderFrappeChangeOperations<T>(ops: seq<Node<T>>) returns (r: Result<seq<Node<T>>, seq<Issue>>)
    ensures r == Order(ops)
  {
    var byId, issues := CollectById(ops);
    var linkIssues := CollectAllDependencyIssues(byId, ops);
    issues := issues + linkIssues;
    if issues != [] {
      return Err(issues);
    }
    var drained := DrainLayers(byId, GraphOf(ops));
    r := match drained
      case Ok(ordered) => Ok(ordered)
      case Err(stuck) => Err([Issue("dependency_cycle", "operations", SortedKeys(stuck))]);
  }

  lemma PrependNone(rest: Result<seq<string>, set<string>>)
    ensures Prepend([], rest) == rest
  {
    if rest.Ok? { assert [] + rest.value == rest.value; }
  }

  ghost function Prepend(done: seq<string>, rest: Result<seq<string>, set<string>>): Result<seq<string>, set<string>> {
    if rest.Ok? then Ok(done + rest.value) else rest
  }

  lemma PrependTwice(a: seq<string>, b: seq<string>, rest: Result<seq<string>, set<string>>)
    ensures Prepend(a, Prepend(b, rest)) == Prepend(a + b, rest)
  {
    if rest.Ok? { assert a + (b + rest.value) == a + b + rest.value; }
  }

  lemma {:induction false} PickAppend<T>(byId: map<string, Node<T>>, a: seq<string>, b: seq<string>)
    requires forall id :: id in a + b ==> id in byId
    ensures (forall id :: id in a ==> id in byId) && forall id :: id in b ==> id in byId
    ensures Pick(byId, a + b) == Pick(byId, a) + Pick(byId, b)
    decreases |a|
  {
    forall id | id in a || id in b ensures id in byId { assert id in a + b; }
    if a == [] {
      assert a + b == b;
    } else {
      assert (a + b)[1..] == a[1..] + b;
      PickAppend(byId, a[1..], b);
    }
  }

  // ------------------------------------------------------------ what it orders

  ghost predicate Closed(g: Graph) {
    forall id :: id in g ==> g[id] <= g.Keys
  }

  /** `p[i]` directly depends on `p[i + 1]`. */
  ghost predicate Chain(g: Graph, p: seq<string>) {
    |p| > 0 && (forall i :: 0 <= i < |p| ==> p[i] in g)
    && forall i, j :: 0 <= i < |p| && 0 <= j < |p| && j == i + 1 ==> p[j] in g[p[i]]
  }

  ghost predicate Cycle(g: Graph, p: seq<string>) {
    Chain(g, p) && p[0] in g[p[|p| - 1]]
  }

  /** `n` dependency steps can follow `id` and no more. */
  ghost predicate LongestChain(g: Graph, id: string, n: nat) {
    (exists p :: Chain(g, p) && p[0] == id && |p| == n + 1)
    && forall p :: Chain(g, p) && p[0] == id ==> |p| <= n + 1
  }

  /** The round in which `id` becomes ready. */
  ghost function Layer(g: Graph, id: string): nat
    requires id in g && Layers(g).Ok?
    decreases |g|
  {
    if id in Ready(g) then 0 else
      WithoutSmaller(g, Ready(g));
      1 + Layer(Without(g, Ready(g)), id)
  }

  lemma {:induction false} LayersKeys(g: Graph)
    ensures Layers(g).Ok? ==> forall id :: id in Layers(g).value <==> id in g
    ensures Layers(g).Err? ==> Layers(g).error <= g.Keys
    decreases |g|
  {
    if g != map[] && Ready(g) != {} {
      WithoutSmaller(g, Ready(g));
      LayersKeys(Without(g, Ready(g)));
    }
  }

  lemma {:induction false} ChainAtMostLayer(g: Graph, p: seq<string>)
    requires Layers(g).Ok? && Chain(g, p)
    ensures |p| <= Layer(g, p[0]) + 1
    decreases |g|
  {
    assert |p| > 1 ==> p[1] in g[p[0]];
    if p[0] !in Ready(g) {
      WithoutSmaller(g, Ready(g));
      var h := Without(g, Ready(g));
      var q := if p[|p| - 1] in Ready(g) then p[..|p| - 1] else p;
      forall i | 0 <= i < |q| ensures q[i] in h {
        if i < |p| - 1 { assert p[i + 1] in g[p[i]]; }
      }
      forall i, j | 0 <= i < |q| && 0 <= j < |q| && j == i + 1 ensures q[j] in h[q[i]] {
        assert p[j] in g[p[i]] && q[j] in h;
      }
      assert |q| > 0;
      assert Chain(h, q);
      ChainAtMostLayer(h, q);
    }
  }

  lemma {:induction false} ChainOfLayer(g: Graph, id: string) returns (p: seq<string>)
    requires Layers(g).Ok? && Closed(g) && id in g
    ensures Chain(g, p) && p[0] == id && |p| == Layer(g, id) + 1
    decreases |g|
  {
    if id in Ready(g) {
      p := [id];
    } else {
      WithoutSmaller(g, Ready(g));
      var h := Without(g, Ready(g));
      ClosedWithout(g, Ready(g));
      var q := ChainOfLayer(h, id);
      var last := q[|q| - 1];
      assert last in h;
      var d :| d in g[last];
      ChainMono(g, Ready(g), q);
      ChainSnoc(g, q, d);
      p := q + [d];
    }
  }

  lemma ChainMono(g: Graph, done: set<string>, p: seq<string>)
    requires Chain(Without(g, done), p)
    ensures Chain(g, p)
  {
  }

  /** The layer of an operation is the length of its longest dependency chain. */
  lemma LayerIsLongestChain(g: Graph, id: string)
    requires Layers(g).Ok? && Closed(g) && id in g
    ensures LongestChain(g, id, Layer(g, id))
  {
    var p := ChainOfLayer(g, id);
    forall q | Chain(g, q) && q[0] == id ensures |q| <= Layer(g, id) + 1 { ChainAtMostLayer(g, q); }
  }

  ghost predicate Before(g: Graph, a: string, b: string)
    requires a in g && b in g && Layers(g).Ok?
  {
    Layer(g, a) < Layer(g, b) || (Layer(g, a) == Layer(g, b) && Less(a, b))
  }

  lemma {:induction false} LayersSorted(g: Graph)
    requires Layers(g).Ok?
    ensures forall i, j :: 0 <= i < j < |Layers(g).value| ==>
      Layers(g).value[i] in g && Layers(g).value[j] in g && Before(g, Layers(g).value[i], Layers(g).value[j])
    decreases |g|
  {
    if g != map[] {
      WithoutSmaller(g, Ready(g));
      var h := Without(g, Ready(g));
      LayersSorted(h);
      var front, rest := SortedKeys(Ready(g)), Layers(h).value;
      var r := Layers(g).value;
      LayersKeys(g);
      LayersKeys(h);
      forall i, j | 0 <= i < j < |r| ensures r[i] in g && r[j] in g && Before(g, r[i], r[j]) {
        assert r[i] in r && r[j] in r;
        if j < |front| {
          assert r[i] in front && r[j] in front;
        } else {
          assert r[j] == rest[j - |front|] && r[j] in rest;
          if i < |front| {
            assert r[i] in front;
          } else {
            assert r[i] == rest[i - |front|] && r[i] in rest;
          }
        }
      }
    }
  }

  lemma DependencyLayer(g: Graph, id: string, d: string)
    requires Layers(g).Ok? && Closed(g) && id in g && d in g[id]
    ensures Layer(g, d) < Layer(g, id)
  {
    var p := ChainOfLayer(g, d);
    ChainCons(g, id, p);
    ChainAtMostLayer(g, [id] + p);
  }

  // ------------------------------------------------------------------ cycles

  lemma {:induction false} LayersDecrease(g: Graph, p: seq<string>, i: nat)
    requires Layers(g).Ok? && Closed(g) && Chain(g, p) && i < |p|
    ensures Layer(g, p[i]) + i <= Layer(g, p[0])
  {
    if i > 0 {
      LayersDecrease(g, p, i - 1);
      DependencyLayer(g, p[i - 1], p[i]);
    }
  }

  ghost predicate WaitsFor(g: Graph, id: string, stuck: set<string>) {
    id in g && exists d :: d in g[id] && d in stuck
  }

  /** Every one of these ids depends on one of them. */
  ghost predicate AllWait(g: Graph, stuck: set<string>) {
    forall id {:trigger WaitsFor(g, id, stuck)} :: id in stuck ==> WaitsFor(g, id, stuck)
  }

  /** When the loop is stuck, every remaining operation waits for a remaining one. */
  lemma {:induction false} StuckWaits(g: Graph)
    requires Layers(g).Err? && Closed(g)
    ensures Layers(g).error != {} && AllWait(g, Layers(g).error)
    decreases |g|
  {
    if Ready(g) == {} {
      forall id | id in g ensures WaitsFor(g, id, g.Keys) {
        assert id !in Ready(g);
        var d :| d in g[id];
      }
    } else {
      WithoutSmaller(g, Ready(g));
      var h := Without(g, Ready(g));
      ClosedWithout(g, Ready(g));
      StuckWaits(h);
      var stuck := Layers(h).error;
      forall id | id in stuck ensures WaitsFor(g, id, stuck) {
        assert WaitsFor(h, id, stuck);
        var d :| d in h[id] && d in stuck;
        assert d in g[id];
      }
    }
  }

  lemma ClosedWithout(g: Graph, done: set<string>)
    requires Closed(g)
    ensures Closed(Without(g, done))
  {
  }

  /** Following remaining dependencies for `n` steps. */
  lemma {:induction false} Walk(g: Graph, stuck: set<string>, id: string, n: nat) returns (p: seq<string>)
    requires AllWait(g, stuck) && id in stuck
    ensures |p| == n + 1 && p[0] == id && Chain(g, p) && forall i :: 0 <= i <= n ==> p[i] in stuck
    decreases n
  {
    assert WaitsFor(g, id, stuck);
    if n == 0 {
      p := [id];
    } else {
      var d :| d in g[id] && d in stuck;
      var q := Walk(g, stuck, d, n - 1);
      p := [id] + q;
      ChainCons(g, id, q);
    }
  }

  lemma ChainCons(g: Graph, id: string, q: seq<string>)
    requires Chain(g, q) && id in g && q[0] in g[id]
    ensures Chain(g, [id] + q)
  {
  }

  lemma ChainSnoc(g: Graph, q: seq<string>, d: string)
    requires Chain(g, q) && d in g && d in g[q[|q| - 1]]
    ensures Chain(g, q + [d])
  {
  }

  lemma {:induction false} Pigeonhole(p: seq<string>, s: set<string>) returns (i: nat, j: nat)
    requires (forall k :: 0 <= k < |p| ==> p[k] in s) && |p| > |s|
    ensures i < j < |p| && p[i] == p[j]
    decreases |p|
  {
    if k :| 1 <= k < |p| && p[k] == p[0] {
      i, j := 0, k;
    } else {
      assert p[0] in s && |s - {p[0]}| == |s| - 1;
      i, j := Pigeonhole(p[1..], s - {p[0]});
      i, j := i + 1, j + 1;
    }
  }

  /** The ordering loop gets stuck exactly when the dependency graph has a cycle. */
  lemma StuckIffCycle(g: Graph)
    requires Closed(g)
    ensures Layers(g).Err? <==> exists p :: Cycle(g, p)
  {
    if Layers(g).Err? {
      StuckWaits(g);
      var stuck := Layers(g).error;
      var id :| id in stuck;
      var p := Walk(g, stuck, id, |stuck|);
      var i, j := Pigeonhole(p, stuck);
      assert Cycle(g, p[i..j]);
    } else if p :| Cycle(g, p) {
      LayersDecrease(g, p, |p| - 1);
      DependencyLayer(g, p[|p| - 1], p[0]);
    }
  }

  // ------------------------------------------------- theorems about operations

  /** Ids are distinct and every dependency names another operation. */
  ghost predicate WellLinked<T>(ops: seq<Node<T>>) {
    DistinctIds(ops) && forall i :: 0 <= i < |ops| ==> Linked(Ids(ops), ops[i])
  }

  lemma {:induction false} DuplicateIssuesEmpty<T>(ops: seq<Node<T>>, n: nat)
    requires n <= |ops|
    ensures DuplicateIssues(ops, n) == [] <==> forall i, j :: 0 <= i < j < n ==> ops[i].id != ops[j].id
  {
    if n > 0 {
      DuplicateIssuesEmpty(ops, n - 1);
      FirstByIdExact(ops, n - 1);
    }
  }

  lemma {:induction false} DependencyIssuesEmpty(known: set<string>, id: string, deps: seq<string>, n: nat)
    requires n <= |deps|
    ensures DependencyIssues(known, id, deps, n) == [] <==> forall k :: 0 <= k < n ==> deps[k] in known && deps[k] != id
  {
    if n > 0 { DependencyIssuesEmpty(known, id, deps, n - 1); }
  }

  ghost predicate Linked<T>(known: set<string>, op: Node<T>) {
    forall d :: d in op.dependsOn ==> d in known && d != op.id
  }

  lemma {:induction false} AllDependencyIssuesEmpty<T>(known: set<string>, ops: seq<Node<T>>, n: nat)
    requires n <= |ops|
    ensures AllDependencyIssues(known, ops, n) == [] <==> forall i :: 0 <= i < n ==> Linked(known, ops[i])
  {
    if n > 0 {
      AllDependencyIssuesEmpty(known, ops, n - 1);
      var op := ops[n - 1];
      DependencyIssuesEmpty(known, op.id, op.dependsOn, |op.dependsOn|);
      if Linked(known, op) {
        assert forall k :: 0 <= k < |op.dependsOn| ==> op.dependsOn[k] in op.dependsOn;
      }
    }
  }

  lemma LinkIssuesEmpty<T>(ops: seq<Node<T>>)
    ensures LinkIssues(ops) == [] <==> WellLinked(ops)
  {
    DuplicateIssuesEmpty(ops, |ops|);
    AllDependencyIssuesEmpty(Ids(ops), ops, |ops|);
  }

  lemma {:induction false} FirstByIdOf<T>(ops: seq<Node<T>>, n: nat)
    requires DistinctIds(ops) && n <= |ops|
    ensures forall i :: 0 <= i < n ==> ops[i].id in FirstById(ops, n) && FirstById(ops, n)[ops[i].id] == ops[i]
  {
    if n > 0 { FirstByIdOf(ops, n - 1); }
  }

  lemma ByIdOf<T>(ops: seq<Node<T>>)
    requires DistinctIds(ops)
    ensures forall i :: 0 <= i < |ops| ==> ops[i].id in ById(ops) && ById(ops)[ops[i].id] == ops[i]
  {
    FirstByIdOf(ops, |ops|);
  }

  lemma GraphClosed<T>(ops: seq<Node<T>>)
    requires WellLinked(ops)
    ensures Closed(GraphOf(ops)) && GraphOf(ops).Keys == Ids(ops)
  {
    ByIdOf(ops);
    forall id | id in GraphOf(ops) ensures GraphOf(ops)[id] <= Ids(ops) {
      var i :| 0 <= i < |ops| && ops[i].id == id;
    }
  }

  /** The sort fails for exactly three reasons: duplicate ids, a dependency that is missing or
      the operation itself, or a cycle; only the last is reported as `dependency_cycle`. */
  lemma OrderFails<T>(ops: seq<Node<T>>)
    ensures !WellLinked(ops) ==> Order(ops).Err?
    ensures WellLinked(ops) ==> (Order(ops).Err? <==> exists p :: Cycle(GraphOf(ops), p))
    ensures WellLinked(ops) && Order(ops).Err? ==>
      exists stuck: set<string> :: stuck != {} && AllWait(GraphOf(ops), stuck)
        && Order(ops).error == [Issue("dependency_cycle", "operations", SortedKeys(stuck))]
  {
    LinkIssuesEmpty(ops);
    if WellLinked(ops) {
      var g := GraphOf(ops);
      GraphClosed(ops);
      StuckIffCycle(g);
      if Layers(g).Err? {
        StuckWaits(g);
      }
    }
  }

  lemma OrderIds<T>(ops: seq<Node<T>>)
    requires Order(ops).Ok?
    ensures WellLinked(ops) && Layers(GraphOf(ops)).Ok? && Closed(GraphOf(ops))
    ensures var r, ids := Order(ops).value, Layers(GraphOf(ops)).value;
      |r| == |ids| && forall i :: 0 <= i < |r| ==>
        ids[i] in GraphOf(ops) && r[i] == ById(ops)[ids[i]] && r[i].id == ids[i]
  {
    LinkIssuesEmpty(ops);
    GraphClosed(ops);
    LayersKeys(GraphOf(ops));
    var ids := Layers(GraphOf(ops)).value;
    assert Order(ops).value == Pick(ById(ops), ids);
    forall i | 0 <= i < |ids| ensures ids[i] in GraphOf(ops) && ById(ops)[ids[i]].id == ids[i] {
      assert ids[i] in ids;
      ByIdIn(ops, |ops|, ids[i]);
    }
  }

  lemma {:induction false} ByIdIn<T>(ops: seq<Node<T>>, n: nat, id: string)
    requires n <= |ops| && id in FirstById(ops, n)
    ensures FirstById(ops, n)[id].id == id && FirstById(ops, n)[id] in ops
  {
    if n > 0 && ops[n - 1].id != id { ByIdIn(ops, n - 1, id); }
  }

  /** A successful sort lists every operation exactly once. */
  lemma OrderIsPermutation<T>(ops: seq<Node<T>>)
    requires Order(ops).Ok?
    ensures WellLinked(ops) && DistinctIds(Order(ops).value) && forall x :: x in Order(ops).value <==> x in ops
  {
    OrderIds(ops);
    ByIdOf(ops);
    var g, r, ids := GraphOf(ops), Order(ops).value, Layers(GraphOf(ops)).value;
    LayersKeys(g);
    LayersSorted(g);
    forall i, j | 0 <= i < j < |r| ensures r[i].id != r[j].id {
      assert Before(g, ids[i], ids[j]);
      LessTotal(ids[i], ids[j]);
    }
    forall x ensures x in r <==> x in ops {
      if x in r {
        var k :| 0 <= k < |r| && r[k] == x;
        ByIdIn(ops, |ops|, ids[k]);
      }
      if x in ops {
      var i :| 0 <= i < |ops| && ops[i] == x;
      assert x.id in ids;
      var k :| 0 <= k < |ids| && ids[k] == x.id;
      assert r[k] == x;
      }
    }
  }

  ghost predicate ChainThenId(g: Graph, a: string, b: string) {
    exists m, n :: LongestChain(g, a, m) && LongestChain(g, b, n) && (m < n || (m == n && Less(a, b)))
  }

  /** It lists them by (length of the longest dependency chain, id), so dependencies come first. */
  lemma OrderSorts<T>(ops: seq<Node<T>>)
    requires Order(ops).Ok?
    ensures var r := Order(ops).value;
      && (forall i, j :: 0 <= i < j < |r| ==> ChainThenId(GraphOf(ops), r[i].id, r[j].id))
      && forall i, j :: 0 <= i < |r| && 0 <= j < |r| && r[j].id in r[i].dependsOn ==> j < i
  {
    OrderIds(ops);
    var g, r, ids := GraphOf(ops), Order(ops).value, Layers(GraphOf(ops)).value;
    LayersSorted(g);
    forall i, j | 0 <= i < j < |r| ensures ChainThenId(g, r[i].id, r[j].id) {
      LayerIsLongestChain(g, ids[i]);
      LayerIsLongestChain(g, ids[j]);
      assert Before(g, ids[i], ids[j]);
    }
    forall i, j | 0 <= i < |r| && 0 <= j < |r| && r[j].id in r[i].dependsOn ensures j < i {
      DependencyLayer(g, ids[i], ids[j]);
    }
  }

  lemma ByIdIgnoresInputOrder<T>(a: seq<Node<T>>, b: seq<Node<T>>)
    requires DistinctIds(a) && DistinctIds(b) && forall x :: x in a <==> x in b
    ensures ById(a) == ById(b)
  {
    ByIdOf(a);
    ByIdOf(b);
    forall id ensures id in Ids(a) <==> id in Ids(b) {
      if id in Ids(a) { var i :| 0 <= i < |a| && a[i].id == id; assert a[i] in b; }
      if id in Ids(b) { var i :| 0 <= i < |b| && b[i].id == id; assert b[i] in a; }
    }
    forall id | id in Ids(a) ensures ById(a)[id] == ById(b)[id] {
      var i :| 0 <= i < |a| && a[i].id == id;
      assert a[i] in b;
    }
  }

  lemma WellLinkedIgnoresInputOrder<T>(a: seq<Node<T>>, b: seq<Node<T>>)
    requires DistinctIds(a) && DistinctIds(b) && Ids(a) == Ids(b) && forall x :: x in a ==> x in b
    ensures WellLinked(b) ==> WellLinked(a)
  {
    forall i | 0 <= i < |a| ensures exists k :: 0 <= k < |b| && b[k] == a[i] { assert a[i] in b; }
  }

  /** The result does not depend on the order the operations are given in. */
  lemma OrderIgnoresInputOrder<T>(a: seq<Node<T>>, b: seq<Node<T>>)
    requires DistinctIds(a) && DistinctIds(b) && forall x :: x in a <==> x in b
    ensures Order(a).Ok? <==> Order(b).Ok?
    ensures Order(a).Ok? ==> Order(a) == Order(b)
  {
    ByIdIgnoresInputOrder(a, b);
    LinkIssuesEmpty(a);
    LinkIssuesEmpty(b);
    WellLinkedIgnoresInputOrder(a, b);
    WellLinkedIgnoresInputOrder(b, a);
  }

  /** Sorting a sorted list changes nothing: what the stored-order check of a plan relies on. */
  lemma OrderIdempotent<T>(ops: seq<Node<T>>)
    requires Order(ops).Ok?
    ensures Order(Order(ops).value) == Order(ops)
  {
    OrderIsPermutation(ops);
    OrderIgnoresInputOrder(ops, Order(ops).value);
  }

  // ------------------------------------------------- what the order does not look at

  /** The same ids and dependencies in the same places. */
  ghost predicate SameLinks<T, U>(a: seq<Node<T>>, b: seq<Node<U>>) {
    |a| == |b| && forall i :: 0 <= i < |a| ==> a[i].id == b[i].id && a[i].dependsOn == b[i].dependsOn
  }

  lemma {:induction false} SameFirstById<T, U>(a: seq<Node<T>>, b: seq<Node<U>>, n: nat)
    requires SameLinks(a, b) && n <= |a|
    ensures FirstById(a, n).Keys == FirstById(b, n).Keys
    ensures forall id :: id in FirstById(a, n) ==> FirstById(a, n)[id].dependsOn == FirstById(b, n)[id].dependsOn
    decreases n
  {
    if n > 0 { SameFirstById(a, b, n - 1); }
  }

  lemma {:induction false} SameDuplicates<T, U>(a: seq<Node<T>>, b: seq<Node<U>>, n: nat)
    requires SameLinks(a, b) && n <= |a|
    ensures DuplicateIssues(a, n) == DuplicateIssues(b, n)
    decreases n
  {
    if n > 0 {
      SameDuplicates(a, b, n - 1);
      SameFirstById(a, b, n - 1);
      assert a[n - 1].id in FirstById(a, n - 1) <==> a[n - 1].id in FirstById(b, n - 1);
    }
  }

  lemma {:induction false} SameDependencies<T, U>(known: set<string>, a: seq<Node<T>>, b: seq<Node<U>>, n: nat)
    requires SameLinks(a, b) && n <= |a|
    ensures AllDependencyIssues(known, a, n) == AllDependencyIssues(known, b, n)
    decreases n
  {
    if n > 0 { SameDependencies(known, a, b, n - 1); }
  }

  lemma SameGraph<T, U>(a: seq<Node<T>>, b: seq<Node<U>>)
    requires SameLinks(a, b)
    ensures Ids(a) == Ids(b) && GraphOf(a) == GraphOf(b) && LinkIssues(a) == LinkIssues(b)
  {
    SameFirstById(a, b, |a|);
    SameDuplicates(a, b, |a|);
    assert Ids(a) == Ids(b) by {
      assert ById(a).Keys == ById(b).Keys;
    }
    SameDependencies(Ids(a), a, b, |a|);
  }

  /** The order depends on ids and dependencies only. */
  lemma OrderIgnoresValues<T, U>(a: seq<Node<T>>, b: seq<Node<U>>)
    requires SameLinks(a, b) && Order(a).Ok?
    ensures Order(b).Ok? && |Order(a).value| == |Order(b).value|
    ensures forall i :: 0 <= i < |Order(a).value| ==> Order(a).value[i].id == Order(b).value[i].id
  {
    SameGraph(a, b);
    OrderIds(a);
    LayersKeys(GraphOf(b));
    OrderIds(b);
  }
}

/** The queue of a breadth-first search that stops at a depth limit. */
module BreadthFirst {
  import opened Reach

  /** Exactly the records at distance 1 to `depth` from the own records, with their distance. */
  ghost predicate IsDepthMap<V(!new)>(links: Edges<V>, self: set<V>, depth: nat, m: map<V, nat>) {
    && (forall id :: id in m ==> 1 <= m[id] <= depth && Distance(links, self, id, m[id]))
    && (forall id, n: nat :: 1 <= n <= depth && Distance(links, self, id, n) ==> id in m)
  }

  datatype Item<+V> = Item(recordId: V, depth: nat)

  /** Visited records other than the own ones have their first ball as depth. */
  ghost predicate DepthsRight<V(!new)>(links: Edges<V>, self: set<V>, limit: nat, ids: set<V>, depth: map<V, nat>) {
    depth.Keys !! self && depth.Keys <= ids
    && forall v :: v in depth ==> DepthRight(links, self, limit, v, depth[v])
  }

  ghost predicate DepthRight<V(!new)>(links: Edges<V>, self: set<V>, limit: nat, v: V, d: nat) {
    1 <= d <= limit && v in Ball(links, self, d) && v !in Ball(links, self, d - 1)
  }

  ghost predicate QueueSound<V(!new)>(links: Edges<V>, self: set<V>, ids: set<V>, queue: seq<Item<V>>) {
    forall i :: 0 <= i < |queue| ==>
      queue[i].depth >= 1 && queue[i].recordId in ids && queue[i].recordId in Ball(links, self, queue[i].depth)
  }

  /** The queue holds one depth, then perhaps the next; nothing visited is deeper than its front. */
  ghost predicate QueueSorted<V(!new)>(depth: map<V, nat>, queue: seq<Item<V>>) {
    && (forall i, j :: 0 <= i < j < |queue| ==> queue[i].depth <= queue[j].depth <= queue[i].depth + 1)
    && (queue != [] ==> forall v :: v in depth ==> depth[v] <= queue[0].depth)
  }

  ghost function At<V(!new)>(self: set<V>, depth: map<V, nat>, v: V): nat {
    if v in self then 0 else if v in depth then depth[v] else 0
  }

  /** Every link from a visited record leads to a visited record or to one in the queue. */
  ghost predicate Followed<V(!new)>(links: Edges<V>, self: set<V>, limit: nat, visited: set<V>, depth: map<V, nat>,
                                    queue: seq<Item<V>>) {
    forall v, c {:trigger (v, c) in links} :: v in visited && (v, c) in links && At(self, depth, v) + 1 <= limit ==>
      (c in visited && At(self, depth, c) <= At(self, depth, v) + 1) || Item(c, At(self, depth, v) + 1) in queue
  }

  /** The state of the search: what is visited, at which depth, and what waits in the queue. */
  ghost predicate Searching<V(!new)>(links: Edges<V>, self: set<V>, limit: nat, ids: set<V>,
                            visited: set<V>, depth: map<V, nat>, queue: seq<Item<V>>) {
    && visited == self + depth.Keys
    && DepthsRight(links, self, limit, ids, depth)
    && QueueSound(links, self, ids, queue)
    && QueueSorted(depth, queue)
    && Followed(links, self, limit, visited, depth, queue)
  }

  lemma FrontIsNearest<V(!new)>(depth: map<V, nat>, queue: seq<Item<V>>)
    requires QueueSorted(depth, queue)
    ensures forall q :: q in queue ==> queue[0].depth <= q.depth
  {
  }

  /** Everything nearer than the front of the queue is visited. */
  lemma {:induction false} NearerVisited<V(!new)>(links: Edges<V>, self: set<V>, limit: nat, ids: set<V>,
                                         visited: set<V>, depth: map<V, nat>, queue: seq<Item<V>>, n: nat)
    requires Searching(links, self, limit, ids, visited, depth, queue)
    requires n <= limit && (queue != [] ==> n < queue[0].depth)
    ensures forall x :: x in Ball(links, self, n) ==> x in visited && At(self, depth, x) <= n
    decreases n
  {
    if n > 0 {
      NearerVisited(links, self, limit, ids, visited, depth, queue, n - 1);
      FrontIsNearest(depth, queue);
      forall x | x in Ball(links, self, n) && x !in Ball(links, self, n - 1)
        ensures x in visited && At(self, depth, x) <= n {
        var e :| e in links && e.0 in Ball(links, self, n - 1) && e.1 == x;
        assert (e.0, x) in links;
      }
    }
  }

  /** When the queue is empty the depths are the distances. */
  lemma SearchDone<V(!new)>(links: Edges<V>, self: set<V>, limit: nat, ids: set<V>,
                   visited: set<V>, depth: map<V, nat>)
    requires Searching(links, self, limit, ids, visited, depth, [])
    ensures IsDepthMap(links, self, limit, depth)
  {
    forall id | id in depth ensures 1 <= depth[id] <= limit && Distance(links, self, id, depth[id]) {
      assert DepthRight(links, self, limit, id, depth[id]);
      DistanceIsFirstBall(links, self, id, depth[id]);
    }
    forall id, n: nat | 1 <= n <= limit && Distance(links, self, id, n) ensures id in depth {
      DistantVisited(links, self, limit, ids, visited, depth, id, n);
    }
  }

  lemma DistantVisited<V(!new)>(links: Edges<V>, self: set<V>, limit: nat, ids: set<V>,
                                visited: set<V>, depth: map<V, nat>, id: V, n: nat)
    requires Searching(links, self, limit, ids, visited, depth, [])
    requires 1 <= n <= limit && Distance(links, self, id, n)
    ensures id in depth
  {
    assert id in Ball(links, self, n) && id !in Ball(links, self, n - 1) by { DistanceIsFirstBall(links, self, id, n); }
    assert id in visited by { NearerVisited(links, self, limit, ids, visited, depth, [], n); }
    assert id !in self by { BallGrows(links, self, 0, n - 1); }
  }

  function Items<V(==,!new)>(ids: seq<V>, depth: nat): (r: seq<Item<V>>)
    ensures |r| == |ids| && (forall i :: 0 <= i < |ids| ==> r[i] == Item(ids[i], depth))
    ensures forall q :: q in r <==> q.depth == depth && q.recordId in ids
  {
    if ids == [] then [] else [Item(ids[0], depth)] + Items(ids[1..], depth)
  }

  /** The front of the queue was seen before, or lies beyond the limit. */
  lemma SkipFront<V(!new)>(links: Edges<V>, self: set<V>, limit: nat, ids: set<V>,
                           visited: set<V>, depth: map<V, nat>, queue: seq<Item<V>>)
    requires Searching(links, self, limit, ids, visited, depth, queue) && queue != []
    requires queue[0].recordId in visited || queue[0].depth > limit
    ensures Searching(links, self, limit, ids, visited, depth, queue[1..])
  {
    var rest := queue[1..];
    assert queue == [queue[0]] + rest;
    assert forall q :: q in queue ==> q == queue[0] || q in rest;
  }

  /** The queue after its front is taken and the front's children are appended. */
  ghost predicate Advanced<V(!new)>(queue: seq<Item<V>>, kids: seq<V>, rest: seq<Item<V>>) {
    && queue != [] && |rest| == |queue| - 1 + |kids|
    && (forall i :: 0 <= i < |queue| - 1 ==> rest[i] == queue[i + 1])
    && (forall i :: |queue| - 1 <= i < |rest| ==> rest[i] == Item(kids[i - |queue| + 1], queue[0].depth + 1))
    && (forall q :: q in queue ==> q == queue[0] || q in rest)
    && (forall c :: c in kids ==> Item(c, queue[0].depth + 1) in rest)
  }

  lemma Advance<V(!new)>(queue: seq<Item<V>>, kids: seq<V>)
    requires queue != []
    ensures Advanced(queue, kids, queue[1..] + Items(kids, queue[0].depth + 1))
  {
    var more := Items(kids, queue[0].depth + 1);
    var rest := queue[1..] + more;
    AppendIndex(queue[1..], more);
    forall c | c in kids ensures Item(c, queue[0].depth + 1) in rest { assert Item(c, queue[0].depth + 1) in more; }
    TailMembers(queue);
  }

  lemma TailMembers<T(!new)>(s: seq<T>)
    requires s != []
    ensures forall x :: x in s ==> x == s[0] || x in s[1..]
  {
    assert s == [s[0]] + s[1..];
  }

  lemma AppendIndex<T(!new)>(a: seq<T>, b: seq<T>)
    ensures forall i :: 0 <= i < |a| ==> (a + b)[i] == a[i]
    ensures forall i :: |a| <= i < |a + b| ==> (a + b)[i] == b[i - |a|]
    ensures forall x :: x in a + b <==> x in a || x in b
  {
  }

  lemma NewFront<V(!new)>(links: Edges<V>, self: set<V>, limit: nat, ids: set<V>,
                          visited: set<V>, depth: map<V, nat>, queue: seq<Item<V>>)
    requires Searching(links, self, limit, ids, visited, depth, queue) && queue != []
    requires queue[0].recordId !in visited
    ensures queue[0].recordId in ids && queue[0].recordId !in depth
  {
  }

  /** The front of the queue is new: it gets its depth and its children are queued. */
  lemma VisitFront<V(!new)>(links: Edges<V>, self: set<V>, limit: nat, ids: set<V>,
                            visited: set<V>, depth: map<V, nat>, queue: seq<Item<V>>, kids: seq<V>, rest: seq<Item<V>>)
    requires Searching(links, self, limit, ids, visited, depth, queue) && Advanced(queue, kids, rest)
    requires queue[0].recordId !in visited && queue[0].depth <= limit
    requires forall c :: c in kids <==> (queue[0].recordId, c) in links
    requires forall v, c :: (v, c) in links ==> c in ids
    ensures Searching(links, self, limit, ids, visited + {queue[0].recordId},
      depth[queue[0].recordId := queue[0].depth], rest)
  {
    var x, d := queue[0].recordId, queue[0].depth;
    assert x !in Ball(links, self, d - 1) by { NearerVisited(links, self, limit, ids, visited, depth, queue, d - 1); }
    assert DepthsRight(links, self, limit, ids, depth[x := d]) by { VisitDepths(links, self, limit, ids, depth, x, d); }
    assert QueueSound(links, self, ids, rest) by { VisitSound(links, self, ids, queue, kids, rest); }
    assert QueueSorted(depth[x := d], rest) by { VisitSorted(depth, queue, kids, rest); }
    assert Followed(links, self, limit, visited + {x}, depth[x := d], rest) by {
      VisitFollowed(links, self, limit, visited, depth, queue, kids, rest);
    }
    assert visited + {x} == self + depth[x := d].Keys;
  }

  /** The same with the new queue written out. */
  lemma VisitNext<V(!new)>(links: Edges<V>, self: set<V>, limit: nat, ids: set<V>,
                           visited: set<V>, depth: map<V, nat>, queue: seq<Item<V>>, kids: seq<V>)
    requires Searching(links, self, limit, ids, visited, depth, queue) && queue != []
    requires queue[0].recordId !in visited && queue[0].depth <= limit
    requires forall c :: c in kids <==> (queue[0].recordId, c) in links
    requires forall v, c :: (v, c) in links ==> c in ids
    ensures Searching(links, self, limit, ids, visited + {queue[0].recordId},
      depth[queue[0].recordId := queue[0].depth],
                      queue[1..] + Items(kids, queue[0].depth + 1))
    ensures queue[0].recordId in ids && queue[0].recordId !in depth
  {
    Advance(queue, kids);
    NewFront(links, self, limit, ids, visited, depth, queue);
    VisitFront(links, self, limit, ids, visited, depth, queue, kids, queue[1..] + Items(kids, queue[0].depth + 1));
  }

  lemma VisitDepths<V(!new)>(links: Edges<V>, self: set<V>, limit: nat, ids: set<V>, depth: map<V, nat>, x: V, d: nat)
    requires DepthsRight(links, self, limit, ids, depth) && x !in self && x in ids
    requires 1 <= d <= limit && x in Ball(links, self, d) && x !in Ball(links, self, d - 1)
    ensures DepthsRight(links, self, limit, ids, depth[x := d])
  {
    var after := depth[x := d];
    assert after.Keys == depth.Keys + {x};
    forall v | v in after ensures DepthRight(links, self, limit, v, after[v]) {
      assert v != x ==> DepthRight(links, self, limit, v, depth[v]);
    }
  }

  lemma VisitSound<V(!new)>(links: Edges<V>, self: set<V>, ids: set<V>, queue: seq<Item<V>>, kids: seq<V>,
                            rest: seq<Item<V>>)
    requires QueueSound(links, self, ids, queue) && Advanced(queue, kids, rest)
    requires forall c :: c in kids ==> (queue[0].recordId, c) in links && c in ids
    ensures QueueSound(links, self, ids, rest)
  {
    var d, n := queue[0].depth, |queue| - 1;
    forall i | n <= i < |rest| ensures rest[i].recordId in ids && rest[i].recordId in Ball(links, self, d + 1) {
      assert kids[i - n] in kids;
      BallStep(links, self, d, queue[0].recordId, kids[i - n]);
    }
  }

  lemma VisitSorted<V(!new)>(depth: map<V, nat>, queue: seq<Item<V>>, kids: seq<V>, rest: seq<Item<V>>)
    requires QueueSorted(depth, queue) && Advanced(queue, kids, rest)
    ensures QueueSorted(depth[queue[0].recordId := queue[0].depth], rest)
  {
    var d := queue[0].depth;
    forall i | 0 <= i < |rest| ensures d <= rest[i].depth <= d + 1 {
      if i < |queue| - 1 { assert queue[0].depth <= queue[i + 1].depth <= queue[0].depth + 1; }
    }
    forall i, j | 0 <= i < j < |rest| ensures rest[i].depth <= rest[j].depth {
      if j < |queue| - 1 { assert queue[i + 1].depth <= queue[j + 1].depth; }
    }
  }

  lemma VisitFollowed<V(!new)>(links: Edges<V>, self: set<V>, limit: nat, visited: set<V>, depth: map<V, nat>,
                               queue: seq<Item<V>>, kids: seq<V>, rest: seq<Item<V>>)
    requires visited == self + depth.Keys && Advanced(queue, kids, rest) && queue[0].recordId !in visited
    requires Followed(links, self, limit, visited, depth, queue)
    requires forall c :: c in kids <==> (queue[0].recordId, c) in links
    ensures Followed(links, self, limit, visited + {queue[0].recordId}, depth[queue[0].recordId := queue[0].depth],
      rest)
  {
    var x := queue[0].recordId;
    var depth' := depth[x := queue[0].depth];
    forall v, c | v in visited + {x} && (v, c) in links && At(self, depth', v) + 1 <= limit
      ensures (c in visited + {x} && At(self, depth', c) <= At(self, depth', v) + 1)
        || Item(c, At(self, depth', v) + 1) in rest
    {
      if v != x {
        var q := Item(c, At(self, depth, v) + 1);
        assert q in queue ==> q == queue[0] || q in rest;
      }
    }
  }

  lemma SearchStarts<V(!new)>(links: Edges<V>, self: set<V>, limit: nat, ids: set<V>, queue: seq<Item<V>>)
    requires self <= ids && limit >= 1
    requires forall v, c :: (v, c) in links ==> c in ids
    requires forall q :: q in queue <==> q.depth == 1 && exists v :: v in self && (v, q.recordId) in links
    ensures Searching(links, self, limit, ids, self, map[], queue)
  {
    forall q | q in queue ensures q.recordId in Ball(links, self, 1) {
      var v :| v in self && (v, q.recordId) in links;
      BallStep(links, self, 0, v, q.recordId);
    }
    forall i | 0 <= i < |queue| ensures queue[i].depth == 1 { assert queue[i] in queue; }
    forall v, c | v in self && (v, c) in links ensures Item(c, 1) in queue {
      assert Item(c, 1).depth == 1 && Item(c, 1).recordId == c;
    }
  }

  /** The names of a set of records, `none` left out. */
  ghost function NamesOf<V(!new), P(!new)>(names: map<V, P>, none: P, ids: set<V>): set<P> {
    set id | id in ids && id in names && names[id] != none :: names[id]
  }

  ghost predicate NameSets<V(!new), P(!new)>(names: map<V, P>, none: P, depth: map<V, nat>, direct: set<P>,
                                             descendants: set<P>) {
    && descendants == NamesOf(names, none, depth.Keys)
    && direct == NamesOf(names, none, set id | id in depth && depth[id] == 1)
  }

  method AddName<V(!new, ==), P(!new, ==)>(names: map<V, P>, none: P, ghost depth: map<V, nat>,
                                           direct: set<P>, descendants: set<P>, item: Item<V>)
    returns (direct': set<P>, descendants': set<P>)
    requires NameSets(names, none, depth, direct, descendants) && item.recordId !in depth
    ensures NameSets(names, none, depth[item.recordId := item.depth], direct', descendants')
  {
    ghost var id, d := item.recordId, item.depth;
    ghost var after := depth[id := d];
    assert after.Keys == depth.Keys + {id};
    assert (set x | x in after && after[x] == 1) == (set x | x in depth && depth[x] == 1) + if d == 1 then {id} else {};
    direct', descendants' := direct, descendants;
    if item.recordId in names && names[item.recordId] != none {
      descendants' := descendants + {names[item.recordId]};
      if item.depth == 1 { direct' := direct + {names[item.recordId]}; }
    }
  }

  /** The queue loop: depths and names of everything within the limit. */
  method Search<V(!new, ==), P(!new, ==)>(names: map<V, P>, none: P, children: map<V, seq<V>>, ghost links: Edges<V>,
                                          self: set<V>, limit: nat, ghost ids: set<V>, first: seq<Item<V>>)
    returns (depth: map<V, nat>, direct: set<P>, descendants: set<P>)
    requires forall m, c :: m in children && c in children[m] <==> (m, c) in links
    requires forall v, c :: (v, c) in links ==> c in ids
    requires Searching(links, self, limit, ids, self, map[], first)
    ensures IsDepthMap(links, self, limit, depth)
    ensures NameSets(names, none, depth, direct, descendants)
  {
    var queue, visited := first, self;
    depth, direct, descendants := map[], {}, {};
    while queue != []
      invariant Searching(links, self, limit, ids, visited, depth, queue)
      invariant NameSets(names, none, depth, direct, descendants)
      decreases ids - depth.Keys, |queue|
    {
      var item := queue[0];
      if item.recordId in visited || item.depth > limit {
        SkipFront(links, self, limit, ids, visited, depth, queue);
        queue := queue[1..];
      } else {
        var kids := if item.recordId in children then children[item.recordId] else [];
        VisitNext(links, self, limit, ids, visited, depth, queue, kids);
        direct, descendants := AddName(names, none, depth, direct, descendants, item);
        assert item.recordId in ids - depth.Keys;
        visited := visited + {item.recordId};
        depth := depth[item.recordId := item.depth];
        queue := queue[1..] + Items(kids, item.depth + 1);
      }
    }
    SearchDone(links, self, limit, ids, visited, depth);
  }
}

/** Bounded reachability in a directed graph given by its edges. */
module Reach {

  type Edges<V(==)> = set<(V, V)>

  ghost function Targets<V(!new)>(edges: Edges<V>, from: set<V>): set<V> {
    set e | e in edges && e.0 in from :: e.1
  }

  /** What can be reached from `seeds` in at most `n` steps. */
  ghost function Ball<V(!new)>(edges: Edges<V>, seeds: set<V>, n: nat): set<V> {
    if n == 0 then seeds else Ball(edges, seeds, n - 1) + Targets(edges, Ball(edges, seeds, n - 1))
  }

  lemma {:induction false} BallGrows<V(!new)>(edges: Edges<V>, seeds: set<V>, m: nat, n: nat)
    requires m <= n
    ensures Ball(edges, seeds, m) <= Ball(edges, seeds, n)
    decreases n
  {
    if m < n { BallGrows(edges, seeds, m, n - 1); }
  }

  /** One step from inside a ball stays inside the next one. */
  lemma BallStep<V(!new)>(edges: Edges<V>, seeds: set<V>, n: nat, x: V, y: V)
    requires x in Ball(edges, seeds, n) && (x, y) in edges
    ensures y in Ball(edges, seeds, n + 1)
  {
    assert (x, y).1 in Targets(edges, Ball(edges, seeds, n));
  }

  lemma Absorb<V>(a: set<V>, b: set<V>)
    requires b <= a
    ensures a + b == a
  {
  }

  /** Once a step adds nothing, no step does. */
  lemma {:induction false} BallStops<V(!new)>(edges: Edges<V>, seeds: set<V>, m: nat, n: nat)
    requires m <= n && Targets(edges, Ball(edges, seeds, m)) <= Ball(edges, seeds, m)
    ensures Ball(edges, seeds, n) == Ball(edges, seeds, m)
    decreases n
  {
    if m < n {
      BallStops(edges, seeds, m, n - 1);
      Absorb(Ball(edges, seeds, m), Targets(edges, Ball(edges, seeds, m)));
    }
  }

  ghost predicate IsPath<V(!new)>(edges: Edges<V>, p: seq<V>) {
    |p| > 0 && forall i, j :: 0 <= i < |p| && 0 <= j < |p| && j == i + 1 ==> (p[i], p[j]) in edges
  }

  /** There is a path of `n` steps from `seeds` to `x`. */
  ghost predicate PathOf<V(!new)>(edges: Edges<V>, seeds: set<V>, x: V, n: nat) {
    exists p :: IsPath(edges, p) && |p| == n + 1 && p[0] in seeds && p[n] == x
  }

  /** `n` is the number of steps of a shortest path from `seeds` to `x`. */
  ghost predicate Distance<V(!new)>(edges: Edges<V>, seeds: set<V>, x: V, n: nat) {
    PathOf(edges, seeds, x, n) && forall k: nat :: k < n ==> !PathOf(edges, seeds, x, k)
  }

  lemma {:induction false} PathInBall<V(!new)>(edges: Edges<V>, seeds: set<V>, p: seq<V>, n: nat)
    requires IsPath(edges, p) && p[0] in seeds && n < |p|
    ensures p[n] in Ball(edges, seeds, n)
  {
    if n > 0 {
      PathInBall(edges, seeds, p, n - 1);
      assert (p[n - 1], p[n]) in edges;
      BallStep(edges, seeds, n - 1, p[n - 1], p[n]);
    }
  }

  /** The ball of radius `n` is what paths of at most `n` steps reach. */
  lemma {:induction false} BallHasPath<V(!new)>(edges: Edges<V>, seeds: set<V>, x: V, n: nat) returns (k: nat)
    requires x in Ball(edges, seeds, n)
    ensures k <= n && PathOf(edges, seeds, x, k)
    decreases n
  {
    if n == 0 {
      k := 0;
      assert IsPath(edges, [x]);
    } else if x in Ball(edges, seeds, n - 1) {
      k := BallHasPath(edges, seeds, x, n - 1);
    } else {
      var e :| e in edges && e.0 in Ball(edges, seeds, n - 1) && e.1 == x;
      k := BallHasPath(edges, seeds, e.0, n - 1);
      var p :| IsPath(edges, p) && |p| == k + 1 && p[0] in seeds && p[k] == e.0;
      var q := p + [x];
      forall i, j | 0 <= i < |q| && 0 <= j < |q| && j == i + 1 ensures (q[i], q[j]) in edges {
        if j < |p| { assert (p[i], p[j]) in edges; } else { assert e == (q[i], q[j]); }
      }
      assert IsPath(edges, q) && q[k + 1] == x;
      k := k + 1;
    }
  }

  lemma PathOfInBall<V(!new)>(edges: Edges<V>, seeds: set<V>, x: V, n: nat)
    requires PathOf(edges, seeds, x, n)
    ensures x in Ball(edges, seeds, n)
  {
    var p :| IsPath(edges, p) && |p| == n + 1 && p[0] in seeds && p[n] == x;
    PathInBall(edges, seeds, p, n);
  }

  /** First entering the balls at radius `n` is being at distance `n`. */
  lemma DistanceIsFirstBall<V(!new)>(edges: Edges<V>, seeds: set<V>, x: V, n: nat)
    ensures Distance(edges, seeds, x, n) <==> x in Ball(edges, seeds, n) && (n > 0 ==> x !in Ball(edges, seeds, n - 1))
  {
    if x in Ball(edges, seeds, n) && (n > 0 ==> x !in Ball(edges, seeds, n - 1)) {
      forall k: nat | k < n ensures !PathOf(edges, seeds, x, k) {
        if PathOf(edges, seeds, x, k) {
          PathOfInBall(edges, seeds, x, k);
          BallGrows(edges, seeds, k, n - 1);
        }
      }
      var k := BallHasPath(edges, seeds, x, n);
      assert k == n;
    }
    if Distance(edges, seeds, x, n) {
      PathOfInBall(edges, seeds, x, n);
      if n > 0 && x in Ball(edges, seeds, n - 1) {
        var k := BallHasPath(edges, seeds, x, n - 1);
      }
    }
  }
}

/** Dependency graphs: chains, cycles, topological orders, and the first-in-first-out order of
    Kahn's algorithm. A graph maps every task name to the names it depends on. */
module Graphs {
  type Name = string
  type Graph = map<Name, seq<Name>>

  predicate Distinct<T(==)>(s: seq<T>) {
    forall i, j | 0 <= i < j < |s| :: s[i] != s[j]
  }

  /** x stands somewhere before y. */
  ghost predicate Precedes<T>(s: seq<T>, x: T, y: T) {
    exists i, j :: 0 <= i < j < |s| && s[i] == x && s[j] == y
  }

  lemma PrecedesCons<T>(head: T, tail: seq<T>, x: T, y: T)
    ensures Precedes([head] + tail, x, y) <==> (head == x && y in tail) || Precedes(tail, x, y)
  {
    var s := [head] + tail;
    if head == x && y in tail {
      var j :| 0 <= j < |tail| && tail[j] == y;
      assert s[0] == x && s[j + 1] == y;
    }
    if i, j :| 0 <= i < j < |tail| && tail[i] == x && tail[j] == y {
      assert s[i + 1] == x && s[j + 1] == y;
    }
  }

  /** Every dependency is itself a task. */
  predicate Closed(g: Graph) {
    forall n, d | n in g && d in g[n] :: d in g
  }

  /** A dependency chain: p[0] depends on p[1], which depends on p[2], and so on. */
  predicate Chain(g: Graph, p: seq<Name>) {
    && |p| > 0
    && (forall i | 0 <= i < |p| :: p[i] in g)
    && (forall i | 0 <= i < |p| - 1 :: p[i + 1] in g[p[i]])
  }

  /** Following dependencies from n, some task is met twice. */
  ghost predicate LeadsIntoCycle(g: Graph, n: Name) {
    exists p :: Chain(g, p) && p[0] == n && !Distinct(p)
  }

  ghost predicate Acyclic(g: Graph) {
    forall p | Chain(g, p) :: Distinct(p)
  }

  /** n is one of the first k tasks of the order. */
  predicate Within(order: seq<Name>, k: nat, n: Name) {
    k <= |order| && exists x | 0 <= x < k :: order[x] == n
  }

  /** The tasks of `order` are listed once each, after everything they depend on. */
  predicate Released(g: Graph, order: seq<Name>) {
    && Distinct(order)
    && (forall i | 0 <= i < |order| :: order[i] in g)
    && (forall i, d | 0 <= i < |order| && d in g[order[i]] :: Within(order, i, d))
  }

  predicate Topological(g: Graph, order: seq<Name>) {
    Released(g, order) && forall n | n in g :: n in order
  }

  /** The length of the shortest prefix of `order` that holds all of `deps`: zero without
      dependencies, otherwise one more than the position of the latest of them. */
  function ReadyPrefix(order: seq<Name>, deps: seq<Name>): nat {
    ReadyBelow(order, deps, |order|)
  }

  function ReadyBelow(order: seq<Name>, deps: seq<Name>, k: nat): (r: nat)
    requires k <= |order|
    ensures r <= k
    ensures r > 0 ==> order[r - 1] in deps
    ensures forall x | r <= x < k :: order[x] !in deps
  {
    if k == 0 || order[k - 1] in deps then k else ReadyBelow(order, deps, k - 1)
  }

  /** m comes before n by (position of the latest dependency, index in the definition). */
  predicate Before(g: Graph, index: map<Name, nat>, order: seq<Name>, m: Name, n: Name) {
    && m in g && n in g && m in index && n in index
    && var k, l := ReadyPrefix(order, g[m]), ReadyPrefix(order, g[n]);
    && (k < l || (k == l && index[m] < index[n]))
  }

  predicate FifoSorted(g: Graph, index: map<Name, nat>, order: seq<Name>) {
    forall i, j {:trigger Before(g, index, order, order[i], order[j])} | 0 <= i < j < |order| :: Before(g, index, order, order[i], order[j])
  }

  /** k is the number of dependency steps on the longest chain that starts at n. */
  ghost predicate LongestChain(g: Graph, n: Name, k: nat) {
    && (exists p :: Chain(g, p) && p[0] == n && |p| == k + 1)
    && (forall p | Chain(g, p) && p[0] == n :: |p| <= k + 1)
  }

  // ----- counting ----------------------------------------------------------------------------

  lemma {:induction false} DistinctCount<T>(s: seq<T>)
    requires Distinct(s)
    ensures |set x | x in s| == |s|
  {
    if |s| > 0 {
      var last := |s| - 1;
      DistinctCount(s[..last]);
      assert (set x | x in s) == (set x | x in s[..last]) + {s[last]} by {
        assert s == s[..last] + [s[last]];
      }
    }
  }

  lemma SubsetCount<T>(a: set<T>, b: set<T>)
    requires a <= b
    ensures |a| <= |b|
    ensures |a| == |b| ==> a == b
  {
    assert b == a + (b - a);
    if |a| == |b| {
      assert |b - a| == 0;
    }
  }

  lemma Pigeonhole<T>(s: seq<T>, box: set<T>)
    requires forall x | x in s :: x in box
    ensures |s| > |box| ==> !Distinct(s)
    ensures Distinct(s) && |s| == |box| ==> forall x | x in box :: x in s
  {
    if Distinct(s) {
      DistinctCount(s);
      SubsetCount((set x | x in s), box);
    }
  }

  // ----- cycles ------------------------------------------------------------------------------

  /** Every task of S depends on some task of S. */
  ghost predicate Blocked(g: Graph, S: set<Name>) {
    forall m | m in S :: m in g && DependsInto(g[m], S)
  }

  ghost predicate DependsInto(deps: seq<Name>, S: set<Name>) {
    exists d :: d in deps && d in S
  }

  /** Inside a blocked set, chains of every length exist. */
  lemma {:induction false} EndlessChain(g: Graph, S: set<Name>, n: Name, length: nat) returns (p: seq<Name>)
    requires n in S && Blocked(g, S)
    ensures Chain(g, p) && p[0] == n && |p| == length + 1
    ensures forall m | m in p :: m in S
    decreases length
  {
    if length == 0 {
      p := [n];
    } else {
      assert DependsInto(g[n], S);
      var d :| d in g[n] && d in S;
      var q := EndlessChain(g, S, d, length - 1);
      p := [n] + q;
    }
  }

  lemma StuckLeadsIntoCycle(g: Graph, S: set<Name>, n: Name)
    requires n in S && Blocked(g, S)
    ensures LeadsIntoCycle(g, n)
  {
    var p := EndlessChain(g, S, n, |S|);
    Pigeonhole(p, S);
  }

  /** A chain that starts inside a released order walks backwards through it. */
  lemma {:induction false} ChainDescends(g: Graph, order: seq<Name>, p: seq<Name>, i: nat)
    requires Released(g, order) && Chain(g, p)
    requires i < |order| && order[i] == p[0]
    ensures Distinct(p) && forall x | 0 <= x < |p| :: Within(order, i + 1, p[x])
  {
    if |p| > 1 {
      var q := p[1..];
      ChainStep(g, p);
      assert Within(order, i, p[1]);
      var j :| 0 <= j < i && order[j] == p[1];
      ChainDescends(g, order, q, j);
      forall x | 1 <= x < |p| ensures Within(order, i, p[x]) && p[x] != p[0] {
        assert Within(order, j + 1, q[x - 1]);
      }
    }
  }

  lemma ReleasedAvoidsCycles(g: Graph, order: seq<Name>, n: Name)
    requires Released(g, order) && n in order
    ensures !LeadsIntoCycle(g, n)
  {
    var i :| 0 <= i < |order| && order[i] == n;
    forall p | Chain(g, p) && p[0] == n ensures Distinct(p) {
      ChainDescends(g, order, p, i);
    }
  }

  lemma TopologicalIsAcyclic(g: Graph, order: seq<Name>)
    requires Topological(g, order)
    ensures Acyclic(g)
  {
    forall p | Chain(g, p) ensures Distinct(p) {
      ReleasedAvoidsCycles(g, order, p[0]);
    }
  }

  // ----- the order is unique -----------------------------------------------------------------

  /** A task's key depends only on the stretch of the order that holds its dependencies. */
  lemma ReadyPrefixStable(a: seq<Name>, b: seq<Name>, k: nat, deps: seq<Name>)
    requires Distinct(a) && k <= |a| && k <= |b|
    requires forall x | 0 <= x < k :: a[x] == b[x]
    requires Distinct(b)
    requires forall d | d in deps :: Within(a, k, d)
    ensures ReadyPrefix(a, deps) == ReadyPrefix(b, deps)
  {
    var r, t := ReadyPrefix(a, deps), ReadyPrefix(b, deps);
    if r > 0 {
      assert Within(a, k, a[r - 1]);
    }
    if t > 0 {
      assert Within(a, k, b[t - 1]);
    }
  }

  /** Orders that share the dependencies of m and n compare the two alike. */
  lemma BeforeAgrees(g: Graph, index: map<Name, nat>, a: seq<Name>, b: seq<Name>, k: nat, m: Name, n: Name)
    requires Distinct(a) && Distinct(b) && k <= |a| && k <= |b|
    requires forall x | 0 <= x < k :: a[x] == b[x]
    requires m in g && n in g
    requires forall d | d in g[m] || d in g[n] :: Within(a, k, d)
    ensures Before(g, index, a, m, n) == Before(g, index, b, m, n)
    ensures !(Before(g, index, a, m, n) && Before(g, index, b, n, m))
  {
    ReadyPrefixStable(a, b, k, g[m]);
    ReadyPrefixStable(a, b, k, g[n]);
  }

  /** Two orders with the same first k tasks agree on the next one. */
  lemma FifoNext(g: Graph, index: map<Name, nat>, a: seq<Name>, b: seq<Name>, k: nat)
    requires Topological(g, a) && Topological(g, b)
    requires FifoSorted(g, index, a) && FifoSorted(g, index, b)
    requires k < |a| && k < |b| && forall x | 0 <= x < k :: a[x] == b[x]
    ensures a[k] == b[k]
  {
    var j := NotEarlier(g, a, b, k);
    var i := NotEarlier(g, b, a, k);
    NextOrBefore(g, index, a, k, i);
    NextOrBefore(g, index, b, k, j);
    BeforeAgrees(g, index, a, b, k, a[k], b[k]);
  }

  lemma NotEarlier(g: Graph, a: seq<Name>, b: seq<Name>, k: nat) returns (j: nat)
    requires Topological(g, a) && Topological(g, b)
    requires k < |a| && k < |b| && forall x | 0 <= x < k :: a[x] == b[x]
    ensures k <= j < |b| && b[j] == a[k]
    ensures forall d | d in g[a[k]] :: Within(a, k, d) && Within(b, k, d)
  {
    assert a[k] in b;
    j :| 0 <= j < |b| && b[j] == a[k];
    forall d | d in g[a[k]] ensures Within(a, k, d) && Within(b, k, d) {
      assert Within(a, k, d);
      var x :| 0 <= x < k && a[x] == d;
      assert b[x] == d;
    }
  }

  lemma NextOrBefore(g: Graph, index: map<Name, nat>, order: seq<Name>, k: nat, i: nat)
    requires FifoSorted(g, index, order) && k <= i < |order|
    ensures order[i] == order[k] || Before(g, index, order, order[k], order[i])
  {
  }

  /** Whatever the run of the algorithm, there is only one order it can return. */
  lemma FifoOrderUnique(g: Graph, index: map<Name, nat>, a: seq<Name>, b: seq<Name>)
    requires Topological(g, a) && Topological(g, b)
    requires FifoSorted(g, index, a) && FifoSorted(g, index, b)
    ensures a == b
  {
    Pigeonhole(a, g.Keys);
    Pigeonhole(b, g.Keys);
    DistinctCount(a);
    DistinctCount(b);
    assert (set n | n in a) == g.Keys == (set n | n in b);
    SamePrefix(g, index, a, b, |a|);
  }

  lemma {:induction false} SamePrefix(g: Graph, index: map<Name, nat>, a: seq<Name>, b: seq<Name>, k: nat)
    requires Topological(g, a) && Topological(g, b)
    requires FifoSorted(g, index, a) && FifoSorted(g, index, b)
    requires |a| == |b| && k <= |a|
    ensures forall x | 0 <= x < k :: a[x] == b[x]
  {
    if k > 0 {
      SamePrefix(g, index, a, b, k - 1);
      FifoNext(g, index, a, b, k - 1);
    }
  }

  // ----- depth -------------------------------------------------------------------------------

  lemma ChainStep(g: Graph, p: seq<Name>)
    requires Chain(g, p)
    ensures |p| > 1 ==> p[1] in g[p[0]] && Chain(g, p[1..])
  {
    if |p| > 1 {
      assert p[0 + 1] in g[p[0]];
    }
  }

  lemma LongestChainUnique(g: Graph, n: Name, k: nat, l: nat)
    requires LongestChain(g, n, k) && LongestChain(g, n, l)
    ensures k == l
  {
    var p :| Chain(g, p) && p[0] == n && |p| == k + 1;
    var q :| Chain(g, q) && q[0] == n && |q| == l + 1;
  }

  lemma RootDepth(g: Graph, n: Name)
    requires n in g && g[n] == []
    ensures LongestChain(g, n, 0)
  {
    assert Chain(g, [n]);
    forall p | Chain(g, p) && p[0] == n ensures |p| <= 1 {
      ChainStep(g, p);
    }
  }

  /** A task is one step deeper than the deepest of its dependencies. */
  lemma DepthAbove(g: Graph, n: Name, depth: map<Name, nat>, deepest: Name)
    requires n in g && deepest in g[n]
    requires forall d | d in g[n] :: d in depth && LongestChain(g, d, depth[d])
    requires forall d | d in g[n] :: depth[d] <= depth[deepest]
    ensures LongestChain(g, n, depth[deepest] + 1)
  {
    var q :| Chain(g, q) && q[0] == deepest && |q| == depth[deepest] + 1;
    assert Chain(g, [n] + q);
    forall p | Chain(g, p) && p[0] == n ensures |p| <= depth[deepest] + 2 {
      ChainStep(g, p);
      if |p| > 1 {
        assert p[1..][0] == p[1];
      }
    }
  }

  /** Below a task at depth k there is a task at every smaller depth. */
  lemma {:induction false} NoDepthSkipped(g: Graph, n: Name, k: nat, l: nat) returns (m: Name)
    requires LongestChain(g, n, k) && l <= k
    ensures m in g && LongestChain(g, m, l)
    decreases k
  {
    var p :| Chain(g, p) && p[0] == n && |p| == k + 1;
    if l == k {
      m := n;
    } else {
      ChainStep(g, p);
      assert p[1..][0] == p[1];
      forall q | Chain(g, q) && q[0] == p[1] ensures |q| <= k {
        assert Chain(g, [n] + q);
        assert ([n] + q)[0] == n;
      }
      assert LongestChain(g, p[1], k - 1);
      m := NoDepthSkipped(g, p[1], k - 1, l);
    }
  }

  /** A wave assignment runs every task in a later wave than all its dependencies. */
  predicate WaveAssignment(g: Graph, wave: map<Name, nat>) {
    && (forall n | n in g :: n in wave)
    && (forall n, d | n in g && d in g[n] :: d in wave && wave[d] < wave[n])
  }

  lemma {:induction false} ChainNeedsWaves(g: Graph, wave: map<Name, nat>, p: seq<Name>)
    requires WaveAssignment(g, wave) && Chain(g, p)
    ensures wave[p[0]] >= |p| - 1
  {
    if |p| > 1 {
      ChainStep(g, p);
      ChainNeedsWaves(g, wave, p[1..]);
    }
  }

  /** No schedule that respects dependencies places any task earlier than its depth. */
  lemma DepthIsOptimal(g: Graph, wave: map<Name, nat>, n: Name, k: nat)
    requires WaveAssignment(g, wave) && LongestChain(g, n, k)
    ensures k <= wave[n]
  {
    var p :| Chain(g, p) && p[0] == n && |p| == k + 1;
    ChainNeedsWaves(g, wave, p);
  }

  lemma DeeperThan(g: Graph, n: Name, d: Name, depth: map<Name, nat>)
    requires n in g && d in g[n] && n in depth && d in depth
    requires LongestChain(g, n, depth[n]) && LongestChain(g, d, depth[d])
    ensures depth[d] < depth[n]
  {
    var p :| Chain(g, p) && p[0] == d && |p| == depth[d] + 1;
    assert Chain(g, [n] + p);
    assert ([n] + p)[0] == n;
  }

  lemma DeepestDependency(g: Graph, n: Name, depth: map<Name, nat>) returns (d: Name)
    requires n in depth && depth[n] > 0 && LongestChain(g, n, depth[n])
    requires forall m | m in g :: m in depth && LongestChain(g, m, depth[m])
    ensures n in g && d in g[n] && d in g && depth[d] >= depth[n] - 1
  {
    var p :| Chain(g, p) && p[0] == n && |p| == depth[n] + 1;
    ChainStep(g, p);
    d := p[1];
    assert p[1..][0] == d;
  }

  /** If order[i] waits for position x, every later task waits for position x or later. */
  lemma LaterWaitsLonger(g: Graph, index: map<Name, nat>, order: seq<Name>, i: nat, j: nat, x: nat) returns (y: nat)
    requires Released(g, order) && FifoSorted(g, index, order)
    requires i < j < |order| && x < |order| && order[x] in g[order[i]]
    ensures x <= y < j && order[y] in g[order[j]]
  {
    assert Before(g, index, order, order[i], order[j]);
    var k := ReadyPrefix(order, g[order[j]]);
    assert Within(order, j, order[k - 1]);
    y := k - 1;
  }

  /** Along the order, depth never decreases, so each level is one contiguous stretch of it. */
  lemma {:induction false} DepthMonotone(g: Graph, index: map<Name, nat>, order: seq<Name>, depth: map<Name, nat>, i: nat, j: nat)
    requires Topological(g, order) && FifoSorted(g, index, order)
    requires forall n | n in g :: n in depth && LongestChain(g, n, depth[n])
    requires i <= j < |order|
    ensures depth[order[i]] <= depth[order[j]]
    decreases j
  {
    if i < j && depth[order[i]] > 0 {
      var d := DeepestDependency(g, order[i], depth);
      assert Within(order, i, d);
      var x :| 0 <= x < i && order[x] == d;
      var y := LaterWaitsLonger(g, index, order, i, j, x);
      DepthMonotone(g, index, order, depth, x, y);
      DeeperThan(g, order[j], order[y], depth);
    }
  }
}

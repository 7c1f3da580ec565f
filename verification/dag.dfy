/** Validation and ordering of workflow definitions (app/dag.py). */
module Dag {
  import opened Graphs

  datatype TaskSpec = TaskSpec(id: Name, dependsOn: seq<Name>, maxRetries: RetryLimit)
  datatype RetryLimit = DefaultRetries | Limit(retries: nat)

  datatype SortResult = Ordered(order: seq<Name>) | CycleError(stuck: set<Name>)

  datatype Verdict =
    | Valid
    | DuplicateId(id: Name)
    | SelfDependency(id: Name)
    | UnknownDependency(id: Name, dep: Name)
    | Cyclic(stuck: set<Name>)

  // ----- definitions as graphs ---------------------------------------------------------------

  predicate UniqueIds(specs: seq<TaskSpec>) {
    forall i, j | 0 <= i < j < |specs| :: specs[i].id != specs[j].id
  }

  /** Parsing removes repeated entries from `depends_on`. */
  predicate Parsed(specs: seq<TaskSpec>) {
    forall i | 0 <= i < |specs| :: Distinct(specs[i].dependsOn)
  }

  predicate HasId(specs: seq<TaskSpec>, n: Name) {
    exists i | 0 <= i < |specs| :: specs[i].id == n
  }

  predicate KnownDependencies(specs: seq<TaskSpec>) {
    forall i, d | 0 <= i < |specs| && d in specs[i].dependsOn :: HasId(specs, d)
  }

  predicate NoSelfDependency(specs: seq<TaskSpec>) {
    forall i | 0 <= i < |specs| :: specs[i].id !in specs[i].dependsOn
  }

  predicate Sortable(specs: seq<TaskSpec>) {
    UniqueIds(specs) && Parsed(specs) && KnownDependencies(specs)
  }

  /** `order_index`: where each task stands in the definition. */
  function OrderIndex(specs: seq<TaskSpec>): (index: map<Name, nat>)
    requires UniqueIds(specs)
    ensures forall n | n in index :: index[n] < |specs| && specs[index[n]].id == n
    ensures forall i | 0 <= i < |specs| :: specs[i].id in index && index[specs[i].id] == i
    ensures |index| == |specs|
  {
    if |specs| == 0 then map[]
    else
      var last := |specs| - 1;
      var index := OrderIndex(specs[..last]);
      IndexOneMore(specs, index);
      index[specs[last].id := last]
  }

  ghost predicate Indexes(specs: seq<TaskSpec>, index: map<Name, nat>) {
    && (forall n | n in index :: index[n] < |specs| && specs[index[n]].id == n)
    && (forall i | 0 <= i < |specs| :: specs[i].id in index && index[specs[i].id] == i)
    && |index| == |specs|
  }

  lemma IndexOneMore(specs: seq<TaskSpec>, index: map<Name, nat>)
    requires specs != [] && UniqueIds(specs) && Indexes(specs[..|specs| - 1], index)
    ensures Indexes(specs, index[specs[|specs| - 1].id := |specs| - 1])
  {
    var last := |specs| - 1;
    assert specs[last].id !in index;
    forall i | 0 <= i < last ensures specs[i].id in index && index[specs[i].id] == i && specs[i].id != specs[last].id {
      assert specs[..last][i].id in index;
    }
  }

  function GraphOf(specs: seq<TaskSpec>): (g: Graph)
    requires UniqueIds(specs)
    ensures g.Keys == OrderIndex(specs).Keys
    ensures forall i | 0 <= i < |specs| :: specs[i].id in g && g[specs[i].id] == specs[i].dependsOn
  {
    var index := OrderIndex(specs);
    map n | n in index :: specs[index[n]].dependsOn
  }

  ghost predicate Injective(index: map<Name, nat>) {
    forall m, n | m in index && n in index && index[m] == index[n] :: m == n
  }

  lemma GraphSize(specs: seq<TaskSpec>)
    requires UniqueIds(specs)
    ensures |GraphOf(specs)| == |specs| && Injective(OrderIndex(specs))
  {
    assert |GraphOf(specs).Keys| == |OrderIndex(specs).Keys|;
  }

  lemma SortableGraph(specs: seq<TaskSpec>)
    requires Sortable(specs)
    ensures Closed(GraphOf(specs))
    ensures forall n | n in GraphOf(specs) :: Distinct(GraphOf(specs)[n])
  {
    var g, index := GraphOf(specs), OrderIndex(specs);
    forall n, d | n in g && d in g[n] ensures d in g {
      assert HasId(specs, d);
    }
  }

  // ----- sorting by definition index ---------------------------------------------------------

  predicate IndexSorted(s: seq<Name>, index: map<Name, nat>) {
    && (forall i | 0 <= i < |s| :: s[i] in index)
    && (forall i, j | 0 <= i < j < |s| :: index[s[i]] <= index[s[j]])
  }

  function InsertByIndex(n: Name, s: seq<Name>, index: map<Name, nat>): (r: seq<Name>)
    requires n in index && IndexSorted(s, index)
    ensures IndexSorted(r, index)
    ensures forall m :: m in r <==> m == n || m in s
    ensures r != [] && (r[0] == n || (s != [] && r[0] == s[0]))
  {
    if s == [] then [n]
    else if index[n] < index[s[0]] then [n] + s
    else
      assert s == [s[0]] + s[1..];
      [s[0]] + InsertByIndex(n, s[1..], index)
  }

  /** `sorted(names, key=order_index.get)` */
  function SortByIndex(s: seq<Name>, index: map<Name, nat>): (r: seq<Name>)
    requires forall n | n in s :: n in index
    ensures IndexSorted(r, index)
    ensures forall m :: m in r <==> m in s
  {
    if s == [] then []
    else
      assert s == [s[0]] + s[1..];
      InsertByIndex(s[0], SortByIndex(s[1..], index), index)
  }

  lemma {:induction false} InsertIsPermutation(n: Name, s: seq<Name>, index: map<Name, nat>)
    requires n in index && IndexSorted(s, index)
    ensures multiset(InsertByIndex(n, s, index)) == multiset(s) + multiset{n}
  {
    if s != [] && index[n] >= index[s[0]] {
      InsertIsPermutation(n, s[1..], index);
      assert s == [s[0]] + s[1..];
      hide IndexSorted;
      assert InsertByIndex(n, s, index) == [s[0]] + InsertByIndex(n, s[1..], index);
    }
  }

  lemma {:induction false} InsertKeepsDistinct(n: Name, s: seq<Name>, index: map<Name, nat>)
    requires n in index && IndexSorted(s, index) && Distinct(s) && n !in s
    ensures Distinct(InsertByIndex(n, s, index))
  {
    if s != [] && index[n] >= index[s[0]] {
      DistinctTail(s);
      assert s == [s[0]] + s[1..];
      InsertKeepsDistinct(n, s[1..], index);
      hide Distinct, IndexSorted;
      DistinctAhead(s[0], InsertByIndex(n, s[1..], index));
    } else {
      DistinctAhead(n, s);
    }
  }

  lemma DistinctTail(s: seq<Name>)
    requires s != []
    ensures Distinct(s) ==> Distinct(s[1..]) && s[0] !in s[1..]
  {
  }

  lemma DistinctAhead(n: Name, s: seq<Name>)
    requires n !in s && Distinct(s)
    ensures Distinct([n] + s)
  {
  }

  /** Sorting by definition index permutes the names, and repeats none. */
  lemma {:induction false} SortIsPermutation(s: seq<Name>, index: map<Name, nat>)
    requires forall n | n in s :: n in index
    ensures multiset(SortByIndex(s, index)) == multiset(s)
    ensures Distinct(s) ==> Distinct(SortByIndex(s, index))
  {
    hide Distinct, IndexSorted;
    if s == [] {
      NoneDistinct();
    } else {
      var rest := SortByIndex(s[1..], index);
      assert s == [s[0]] + s[1..];
      SortIsPermutation(s[1..], index);
      InsertIsPermutation(s[0], rest, index);
      DistinctTail(s);
      if Distinct(s) {
        InsertKeepsDistinct(s[0], rest, index);
      }
    }
  }

  lemma NoneDistinct()
    ensures Distinct<Name>([])
  {
  }

  // ----- Kahn's algorithm --------------------------------------------------------------------

  /** The dependencies not yet in `done`. */
  function Missing(deps: seq<Name>, done: seq<Name>): set<Name> {
    set d | d in deps && d !in done
  }

  lemma MissingNothingDone(deps: seq<Name>)
    requires Distinct(deps)
    ensures |Missing(deps, [])| == |deps|
  {
    DistinctCount(deps);
    assert Missing(deps, []) == set d | d in deps;
  }

  lemma MissingAfter(deps: seq<Name>, done: seq<Name>, n: Name)
    requires n !in done
    ensures |Missing(deps, done + [n])| == |Missing(deps, done)| - (if n in deps then 1 else 0)
  {
    assert Missing(deps, done + [n]) == Missing(deps, done) - {n};
  }

  /** The loop invariant: `ordered` has been emitted, `ready` waits in the queue, and
      `indegree` counts the dependencies of each task that have not been emitted. */
  ghost predicate KahnState(g: Graph, index: map<Name, nat>, ordered: seq<Name>, ready: seq<Name>,
                            indegree: map<Name, int>) {
    && Released(g, ordered)
    && Counted(g, ordered, indegree)
    && Listed(g, ordered + ready, indegree)
    && QueueSorted(g, index, ordered, ordered + ready)
  }

  ghost predicate Counted(g: Graph, ordered: seq<Name>, indegree: map<Name, int>) {
    indegree.Keys == g.Keys && forall n | n in g :: indegree[n] == |Missing(g[n], ordered)|
  }

  ghost predicate Listed(g: Graph, line: seq<Name>, indegree: map<Name, int>)
    requires indegree.Keys == g.Keys
  {
    Distinct(line) && forall n :: n in line <==> n in g && indegree[n] == 0
  }

  ghost predicate QueueSorted(g: Graph, index: map<Name, nat>, ordered: seq<Name>, line: seq<Name>) {
    forall i, j {:trigger Before(g, index, ordered, line[i], line[j])} | 0 <= i < j < |line| ::
      Before(g, index, ordered, line[i], line[j])
  }

  /** Emitting one more task keeps the released order and the keys of everything queued. */
  lemma EmitKeepsReleased(g: Graph, ordered: seq<Name>, n: Name)
    requires Released(g, ordered) && n in g && n !in ordered
    requires forall d | d in g[n] :: d in ordered
    ensures Released(g, ordered + [n])
  {
    var next := ordered + [n];
    forall i, d | 0 <= i < |next| && d in g[next[i]] ensures Within(next, i, d) {
      if i < |ordered| {
        assert Within(ordered, i, d);
        var x :| 0 <= x < i && ordered[x] == d;
        assert next[x] == d;
      } else {
        var x :| 0 <= x < |ordered| && ordered[x] == d;
        assert next[x] == d;
      }
    }
  }

  lemma KeyAfterEmit(ordered: seq<Name>, n: Name, deps: seq<Name>)
    ensures n in deps ==> ReadyPrefix(ordered + [n], deps) == |ordered| + 1
    ensures n !in deps ==> ReadyPrefix(ordered + [n], deps) == ReadyPrefix(ordered, deps)
  {
    ReadyBelowExtend(ordered, n, deps, |ordered|);
  }

  lemma {:induction false} ReadyBelowExtend(ordered: seq<Name>, n: Name, deps: seq<Name>, k: nat)
    requires k <= |ordered|
    ensures ReadyBelow(ordered + [n], deps, k) == ReadyBelow(ordered, deps, k)
  {
    if k > 0 && ordered[k - 1] !in deps {
      ReadyBelowExtend(ordered, n, deps, k - 1);
    }
  }

  /** Tasks released by n go to the back of the queue, in definition order. */
  lemma AppendKeepsSorted(g: Graph, index: map<Name, nat>, ordered: seq<Name>, line: seq<Name>, n: Name, freed: seq<Name>)
    requires QueueSorted(g, index, ordered, line)
    requires g.Keys == index.Keys && Injective(index)
    requires forall m | m in line :: m in g && n !in g[m]
    requires forall m | m in freed :: m in g && n in g[m]
    requires Distinct(freed) && IndexSorted(freed, index)
    ensures QueueSorted(g, index, ordered + [n], line + freed)
  {
    var next, all := ordered + [n], line + freed;
    forall i, j | 0 <= i < j < |all| ensures Before(g, index, next, all[i], all[j]) {
      KeyAfterEmit(ordered, n, g[all[i]]);
      KeyAfterEmit(ordered, n, g[all[j]]);
      if j < |line| {
        assert all[i] == line[i] && all[j] == line[j];
        assert Before(g, index, ordered, line[i], line[j]);
      } else if |line| <= i {
        assert all[i] == freed[i - |line|] && all[j] == freed[j - |line|];
      }
    }
  }

  lemma DistinctConcat(a: seq<Name>, b: seq<Name>)
    requires Distinct(a) && Distinct(b) && forall n | n in b :: n !in a
    ensures Distinct(a + b)
  {
    var s := a + b;
    forall i, j | 0 <= i < j < |s| ensures s[i] != s[j] {
      if j < |a| {
        assert s[i] == a[i] && s[j] == a[j];
      } else if i < |a| {
        assert s[i] == a[i] && s[j] == b[j - |a|];
        assert a[i] in a && b[j - |a|] in b;
      } else {
        assert s[i] == b[i - |a|] && s[j] == b[j - |a|];
      }
    }
  }

  /** Emitting n takes one off the count of every task that depends on it ... */
  ghost predicate Decremented(g: Graph, n: Name, indegree: map<Name, int>, indegree': map<Name, int>) {
    && indegree.Keys == indegree'.Keys == g.Keys
    && forall m | m in g :: indegree'[m] == indegree[m] - (if n in g[m] then 1 else 0)
  }

  /** ... and frees those whose count reaches zero. */
  ghost predicate Frees(g: Graph, n: Name, freed: seq<Name>, indegree': map<Name, int>)
    requires indegree'.Keys == g.Keys
  {
    Distinct(freed) && forall m :: m in freed <==> m in g && n in g[m] && indegree'[m] == 0
  }

  lemma TurnCounts(g: Graph, ordered: seq<Name>, indegree: map<Name, int>, n: Name, indegree': map<Name, int>)
    requires Counted(g, ordered, indegree) && n !in ordered
    requires forall m | m in g :: Distinct(g[m])
    requires Decremented(g, n, indegree, indegree')
    ensures Counted(g, ordered + [n], indegree')
  {
    forall m | m in g ensures indegree'[m] == |Missing(g[m], ordered + [n])| {
      MissingAfter(g[m], ordered, n);
    }
  }

  /** Everything in line has all its dependencies emitted. */
  lemma InLineIsFree(g: Graph, ordered: seq<Name>, line: seq<Name>, indegree: map<Name, int>, m: Name)
    requires Counted(g, ordered, indegree) && Listed(g, line, indegree) && m in line
    ensures m in g && forall d | d in g[m] :: d in ordered
  {
    assert Missing(g[m], ordered) == {};
    assert forall d | d in g[m] :: d in ordered || d in Missing(g[m], ordered);
  }

  lemma TurnLists(g: Graph, line: seq<Name>, indegree: map<Name, int>, n: Name, freed: seq<Name>, indegree': map<Name, int>)
    requires indegree.Keys == g.Keys && Listed(g, line, indegree)
    requires forall m | m in line :: n !in g[m]
    requires Decremented(g, n, indegree, indegree') && Frees(g, n, freed, indegree')
    ensures Listed(g, line + freed, indegree')
  {
    DistinctConcat(line, freed);
  }

  /** Nothing in line waits for the head of the queue, which waits for nothing. */
  lemma LineIsFree(g: Graph, ordered: seq<Name>, ready: seq<Name>, indegree: map<Name, int>)
    requires Counted(g, ordered, indegree) && Listed(g, ordered + ready, indegree) && ready != [] && ready[0] !in ordered
    ensures forall m | m in ordered + ready :: m in g && ready[0] !in g[m]
    ensures forall d | d in g[ready[0]] :: d in ordered
  {
    hide Counted, Listed;
    var line := ordered + ready;
    forall m | m in line ensures m in g && ready[0] !in g[m] {
      InLineIsFree(g, ordered, line, indegree, m);
    }
    assert line[|ordered|] == ready[0];
    InLineIsFree(g, ordered, line, indegree, ready[0]);
  }

  lemma FreedAreNew(g: Graph, n: Name, freed: seq<Name>, indegree': map<Name, int>)
    requires indegree'.Keys == g.Keys && Frees(g, n, freed, indegree')
    ensures Distinct(freed) && forall m | m in freed :: m in g && n in g[m]
  {
  }

  lemma LineAfterTurn(ordered: seq<Name>, ready: seq<Name>, freed: seq<Name>)
    requires ready != []
    ensures ordered + [ready[0]] + (ready[1..] + freed) == ordered + ready + freed
  {
    assert ready == [ready[0]] + ready[1..];
  }

  /** One turn of the loop: emit the head of the queue, then queue what it released. */
  lemma KahnTurn(g: Graph, index: map<Name, nat>, ordered: seq<Name>, ready: seq<Name>, indegree: map<Name, int>,
                 freed: seq<Name>, indegree': map<Name, int>)
    requires KahnState(g, index, ordered, ready, indegree) && ready != []
    requires g.Keys == index.Keys && Injective(index)
    requires forall m | m in g :: Distinct(g[m])
    requires Decremented(g, ready[0], indegree, indegree') && Frees(g, ready[0], freed, indegree')
    requires IndexSorted(freed, index)
    ensures KahnState(g, index, ordered + [ready[0]], ready[1..] + freed, indegree')
  {
    var n, line := ready[0], ordered + ready;
    QueueHead(g, index, ordered, ready, indegree);
    LineIsFree(g, ordered, ready, indegree);
    hide Distinct, Frees, Before, Counted, Listed, QueueSorted, Released, Decremented, Injective, IndexSorted;
    FreedAreNew(g, n, freed, indegree');
    TurnCounts(g, ordered, indegree, n, indegree');
    EmitKeepsReleased(g, ordered, n);
    TurnLists(g, line, indegree, n, freed, indegree');
    AppendKeepsSorted(g, index, ordered, line, n, freed);
    LineAfterTurn(ordered, ready, freed);
  }

  method AppendToEach(dependents: map<Name, seq<Name>>, deps: seq<Name>, id: Name) returns (r: map<Name, seq<Name>>)
    requires Distinct(deps) && forall d | d in deps :: d in dependents
    ensures r.Keys == dependents.Keys
    ensures forall n | n in r :: r[n] == if n in deps then dependents[n] + [id] else dependents[n]
  {
    r := dependents;
    for k := 0 to |deps|
      invariant r.Keys == dependents.Keys
      invariant forall n | n in r :: r[n] == if n in deps[..k] then dependents[n] + [id] else dependents[n]
    {
      assert deps[..k + 1] == deps[..k] + [deps[k]];
      assert deps[k] !in deps[..k];
      r := r[deps[k] := r[deps[k]] + [id]];
    }
    assert deps[..|deps|] == deps;
  }

  /** The tasks among the first k specs that depend on n. */
  predicate WaitsFor(specs: seq<TaskSpec>, k: nat, m: Name, n: Name) {
    exists i | 0 <= i < k && i < |specs| :: specs[i].id == m && n in specs[i].dependsOn
  }

  ghost predicate DependentsUpTo(specs: seq<TaskSpec>, k: nat, n: Name, waiting: seq<Name>) {
    Distinct(waiting) && forall m :: m in waiting <==> WaitsFor(specs, k, m, n)
  }

  lemma DependentsGrow(specs: seq<TaskSpec>, k: nat, n: Name, waiting: seq<Name>)
    requires UniqueIds(specs) && k < |specs| && DependentsUpTo(specs, k, n, waiting)
    ensures DependentsUpTo(specs, k + 1, n, if n in specs[k].dependsOn then waiting + [specs[k].id] else waiting)
  {
    var id := specs[k].id;
    assert !WaitsFor(specs, k, id, n);
    forall m ensures WaitsFor(specs, k + 1, m, n) <==> WaitsFor(specs, k, m, n) || (m == id && n in specs[k].dependsOn) {
      if WaitsFor(specs, k, m, n) {
        var i :| 0 <= i < k && i < |specs| && specs[i].id == m && n in specs[i].dependsOn;
        assert WaitsFor(specs, k + 1, m, n);
      }
    }
  }

  lemma WaitsForAll(specs: seq<TaskSpec>, m: Name, n: Name)
    requires UniqueIds(specs)
    ensures WaitsFor(specs, |specs|, m, n) <==> m in GraphOf(specs) && n in GraphOf(specs)[m]
  {
    if m in GraphOf(specs) {
      var i := OrderIndex(specs)[m];
      assert specs[i].id == m;
    }
  }

  ghost predicate WaitingLists(g: Graph, dependents: map<Name, seq<Name>>) {
    && dependents.Keys == g.Keys
    && (forall n | n in g :: Distinct(g[n]) && Distinct(dependents[n]))
    && (forall n, m | n in dependents :: m in dependents[n] <==> m in g && n in g[m])
  }

  lemma WaitingFor(specs: seq<TaskSpec>, n: Name, waiting: seq<Name>)
    requires UniqueIds(specs) && DependentsUpTo(specs, |specs|, n, waiting)
    ensures Distinct(waiting) && forall m :: m in waiting <==> m in GraphOf(specs) && n in GraphOf(specs)[m]
  {
    hide UniqueIds, WaitsFor, GraphOf;
    forall m ensures m in waiting <==> m in GraphOf(specs) && n in GraphOf(specs)[m] {
      WaitsForAll(specs, m, n);
    }
  }

  lemma AllWaiting(specs: seq<TaskSpec>, dependents: map<Name, seq<Name>>)
    requires Sortable(specs) && dependents.Keys == GraphOf(specs).Keys
    requires forall n | n in dependents :: DependentsUpTo(specs, |specs|, n, dependents[n])
    ensures WaitingLists(GraphOf(specs), dependents)
  {
    hide UniqueIds, KnownDependencies, Parsed, GraphOf, DependentsUpTo, Distinct;
    SortableGraph(specs);
    forall n | n in dependents
      ensures Distinct(dependents[n]) && forall m :: m in dependents[n] <==> m in GraphOf(specs) && n in GraphOf(specs)[m]
    {
      assert DependentsUpTo(specs, |specs|, n, dependents[n]);
      WaitingFor(specs, n, dependents[n]);
    }
  }

  lemma DependenciesKnown(specs: seq<TaskSpec>, i: nat)
    requires Sortable(specs) && i < |specs|
    ensures Distinct(specs[i].dependsOn) && forall d | d in specs[i].dependsOn :: d in OrderIndex(specs)
  {
    forall d | d in specs[i].dependsOn ensures d in OrderIndex(specs) {
      assert HasId(specs, d);
    }
  }

  /** `dependents`: who waits for each task. */
  method Dependents(specs: seq<TaskSpec>) returns (dependents: map<Name, seq<Name>>)
    requires Sortable(specs)
    ensures WaitingLists(GraphOf(specs), dependents)
  {
    var known := OrderIndex(specs);
    dependents := map n | n in known :: [];
    for i := 0 to |specs|
      invariant dependents.Keys == known.Keys
      invariant forall n | n in dependents :: DependentsUpTo(specs, i, n, dependents[n])
    {
      DependenciesKnown(specs, i);
      hide DependentsUpTo, UniqueIds, KnownDependencies, Parsed;
      ghost var before := dependents;
      dependents := AppendToEach(dependents, specs[i].dependsOn, specs[i].id);
      forall n | n in dependents ensures DependentsUpTo(specs, i + 1, n, dependents[n]) {
        DependentsGrow(specs, i, n, before[n]);
      }
    }
    AllWaiting(specs, dependents);
  }

  /** Takes `node` off every dependent's count; returns those that reach zero. */
  method ReleaseDependents(waiting: seq<Name>, indegree: map<Name, int>)
    returns (indegree': map<Name, int>, freed: seq<Name>)
    requires Distinct(waiting) && forall m | m in waiting :: m in indegree
    ensures indegree'.Keys == indegree.Keys
    ensures forall m | m in indegree :: indegree'[m] == indegree[m] - (if m in waiting then 1 else 0)
    ensures Distinct(freed) && forall m :: m in freed <==> m in waiting && indegree'[m] == 0
  {
    indegree', freed := indegree, [];
    for k := 0 to |waiting|
      invariant indegree'.Keys == indegree.Keys
      invariant forall m | m in indegree :: indegree'[m] == indegree[m] - (if m in waiting[..k] then 1 else 0)
      invariant Distinct(freed) && forall m :: m in freed <==> m in waiting[..k] && indegree'[m] == 0
    {
      var m := waiting[k];
      assert waiting[..k + 1] == waiting[..k] + [m];
      assert m !in waiting[..k];
      indegree' := indegree'[m := indegree'[m] - 1];
      if indegree'[m] == 0 {
        freed := freed + [m];
      }
    }
    assert waiting[..|waiting|] == waiting;
  }

  function Roots(specs: seq<TaskSpec>): (r: seq<Name>)
    requires UniqueIds(specs)
    ensures Distinct(r)
    ensures forall n :: n in r <==> n in GraphOf(specs) && GraphOf(specs)[n] == []
  {
    if |specs| == 0 then []
    else
      var last := |specs| - 1;
      var r := Roots(specs[..last]);
      RootsOneMore(specs, r);
      if specs[last].dependsOn == [] then r + [specs[last].id] else r
  }

  ghost predicate AreRoots(g: Graph, r: seq<Name>) {
    Distinct(r) && forall n :: n in r <==> n in g && g[n] == []
  }

  lemma GraphOneMore(specs: seq<TaskSpec>, n: Name)
    requires specs != [] && UniqueIds(specs)
    ensures var g, before, spec := GraphOf(specs), GraphOf(specs[..|specs| - 1]), specs[|specs| - 1];
            && (n in g <==> n == spec.id || n in before) && spec.id !in before
            && (n in before ==> g[n] == before[n]) && g[spec.id] == spec.dependsOn
  {
    var last := |specs| - 1;
    if n in GraphOf(specs[..last]) {
      assert specs[..last][OrderIndex(specs[..last])[n]].id == n;
    }
    if n in GraphOf(specs) {
      assert specs[OrderIndex(specs)[n]].id == n;
    }
  }

  lemma DistinctAppend(s: seq<Name>, n: Name)
    requires Distinct(s) && n !in s
    ensures Distinct(s + [n])
  {
  }

  lemma RootsOneMore(specs: seq<TaskSpec>, r: seq<Name>)
    requires specs != [] && UniqueIds(specs) && AreRoots(GraphOf(specs[..|specs| - 1]), r)
    ensures var spec := specs[|specs| - 1]; AreRoots(GraphOf(specs), if spec.dependsOn == [] then r + [spec.id] else r)
  {
    hide UniqueIds, GraphOf, Distinct;
    var spec := specs[|specs| - 1];
    var r' := if spec.dependsOn == [] then r + [spec.id] else r;
    GraphOneMore(specs, spec.id);
    if spec.dependsOn == [] {
      DistinctAppend(r, spec.id);
    }
    forall n ensures n in r' <==> n in GraphOf(specs) && GraphOf(specs)[n] == [] {
      GraphOneMore(specs, n);
    }
  }

  lemma RootsSorted(g: Graph, index: map<Name, nat>, ready: seq<Name>)
    requires g.Keys == index.Keys && Injective(index)
    requires Distinct(ready) && IndexSorted(ready, index) && forall n | n in ready :: g[n] == []
    ensures QueueSorted(g, index, [], ready)
  {
    forall i, j | 0 <= i < j < |ready| ensures Before(g, index, [], ready[i], ready[j]) {
      assert index[ready[i]] <= index[ready[j]];
    }
  }

  lemma KahnStart(g: Graph, index: map<Name, nat>, roots: seq<Name>, indegree: map<Name, int>)
    requires g.Keys == index.Keys && Injective(index)
    requires forall n | n in g :: Distinct(g[n])
    requires Distinct(roots) && forall n :: n in roots <==> n in g && g[n] == []
    requires indegree.Keys == g.Keys && forall n | n in g :: indegree[n] == |g[n]|
    ensures KahnState(g, index, [], SortByIndex(roots, index), indegree)
  {
    var ready := SortByIndex(roots, index);
    SortIsPermutation(roots, index);
    forall n | n in g ensures indegree[n] == |Missing(g[n], [])| {
      MissingNothingDone(g[n]);
    }
    assert [] + ready == ready;
    RootsSorted(g, index, ready);
  }

  /** The emitted tasks are the ones that do not lead into a cycle. */
  ghost predicate OnlyThese(g: Graph, ordered: seq<Name>) {
    forall n {:trigger LeadsIntoCycle(g, n)} | n in g :: n in ordered <==> !LeadsIntoCycle(g, n)
  }

  /** The tasks whose dependency chains lead into a cycle, and no others. */
  ghost predicate ExactlyStuck(g: Graph, stuck: set<Name>) {
    forall n {:trigger LeadsIntoCycle(g, n)} :: n in stuck <==> n in g && LeadsIntoCycle(g, n)
  }

  /** What is left when the queue runs dry waits on itself. */
  lemma KahnStuck(g: Graph, index: map<Name, nat>, ordered: seq<Name>, indegree: map<Name, int>)
    requires Closed(g) && KahnState(g, index, ordered, [], indegree)
    ensures OnlyThese(g, ordered)
  {
    assert ordered + [] == ordered;
    var stuck := g.Keys - (set n | n in ordered);
    forall n | n in stuck ensures DependsInto(g[n], stuck) {
      assert Missing(g[n], ordered) != {};
      var d :| d in Missing(g[n], ordered);
      assert d in stuck;
    }
    forall n | n in g ensures n in ordered <==> !LeadsIntoCycle(g, n) {
      if n in ordered {
        ReleasedAvoidsCycles(g, ordered, n);
      } else {
        StuckLeadsIntoCycle(g, stuck, n);
      }
    }
  }

  /** The loop takes the head of the queue, which has not been emitted before. */
  lemma QueueHead(g: Graph, index: map<Name, nat>, ordered: seq<Name>, ready: seq<Name>, indegree: map<Name, int>)
    requires KahnState(g, index, ordered, ready, indegree) && ready != []
    ensures ready[0] in g && ready[0] !in ordered && |ordered| < |g|
  {
    Pigeonhole(ordered, g.Keys);
    assert |g.Keys| == |g|;
    var line := ordered + ready;
    assert line[|ordered|] == ready[0];
    assert forall x | 0 <= x < |ordered| :: line[x] == ordered[x];
    assert ready[0] in line;
  }

  lemma KahnDone(g: Graph, index: map<Name, nat>, ordered: seq<Name>, indegree: map<Name, int>)
    requires Closed(g) && KahnState(g, index, ordered, [], indegree)
    ensures Sorted(g, index, ordered)
  {
    KahnStuck(g, index, ordered, indegree);
    assert ordered + [] == ordered;
    Pigeonhole(ordered, g.Keys);
    if |ordered| == |g| {
      TopologicalIsAcyclic(g, ordered);
    } else {
      SomeStuck(g, ordered);
    }
  }

  lemma SomeStuck(g: Graph, ordered: seq<Name>)
    requires Distinct(ordered) && |ordered| != |g| && (forall n | n in ordered :: n in g)
    requires OnlyThese(g, ordered)
    ensures !Acyclic(g) && g.Keys - (set n | n in ordered) != {}
  {
    DistinctCount(ordered);
    var done := set n | n in ordered;
    SubsetCount(done, g.Keys);
    assert |g.Keys| == |g|;
    assert done != g.Keys;
    assert exists n :: n in g.Keys && n !in done;
    var n :| n in g.Keys && n !in done;
    assert LeadsIntoCycle(g, n);
    assert n in g.Keys - done;
  }

  method Emit(g: Graph, index: map<Name, nat>, dependents: map<Name, seq<Name>>, node: Name, indegree: map<Name, int>)
    returns (indegree': map<Name, int>, freed: seq<Name>)
    requires g.Keys == index.Keys && WaitingLists(g, dependents) && indegree.Keys == g.Keys && node in g
    ensures Decremented(g, node, indegree, indegree') && Frees(g, node, freed, indegree') && IndexSorted(freed, index)
  {
    indegree', freed := ReleaseDependents(dependents[node], indegree);
    SortIsPermutation(freed, index);
    freed := SortByIndex(freed, index);
  }

  /** Everything the algorithm promises about what it has emitted when the queue is empty. */
  ghost predicate Sorted(g: Graph, index: map<Name, nat>, ordered: seq<Name>) {
    && OnlyThese(g, ordered)
    && (|ordered| == |g| ==> Topological(g, ordered) && FifoSorted(g, index, ordered) && Acyclic(g))
    && (|ordered| != |g| ==> !Acyclic(g) && g.Keys - (set n | n in ordered) != {})
  }

  /** Empties the queue, first in, first out. */
  method EmptyQueue(g: Graph, index: map<Name, nat>, dependents: map<Name, seq<Name>>,
                    queue: seq<Name>, counts: map<Name, int>)
    returns (ordered: seq<Name>)
    requires g.Keys == index.Keys && Injective(index) && Closed(g) && WaitingLists(g, dependents)
    requires KahnState(g, index, [], queue, counts)
    ensures Sorted(g, index, ordered)
  {
    var ready, indegree := queue, counts;
    ordered := [];
    while ready != []
      invariant KahnState(g, index, ordered, ready, indegree)
      decreases |g| - |ordered|
    {
      QueueHead(g, index, ordered, ready, indegree);
      var indegree', freed := Emit(g, index, dependents, ready[0], indegree);
      KahnTurn(g, index, ordered, ready, indegree, freed, indegree');
      ordered, ready, indegree := ordered + [ready[0]], ready[1..] + freed, indegree';
    }
    KahnDone(g, index, ordered, indegree);
  }

  /** Either every task, in the one first-in-first-out order, exactly when the graph has no
      cycle; or exactly the tasks whose dependency chains lead into a cycle. */
  method TopologicalOrder(specs: seq<TaskSpec>) returns (r: SortResult)
    requires Sortable(specs)
    ensures r.Ordered? <==> Acyclic(GraphOf(specs))
    ensures r.Ordered? ==> Topological(GraphOf(specs), r.order)
    ensures r.Ordered? ==> FifoSorted(GraphOf(specs), OrderIndex(specs), r.order)
    ensures r.CycleError? ==> r.stuck != {} && ExactlyStuck(GraphOf(specs), r.stuck)
  {
    hide UniqueIds, Parsed, KnownDependencies, KahnState, WaitingLists, Injective, Acyclic, Topological, FifoSorted;
    var g, index, roots := GraphOf(specs), OrderIndex(specs), Roots(specs);
    SortableGraph(specs);
    GraphSize(specs);
    var indegree: map<Name, int> := map n | n in g :: |g[n]|;
    var dependents := Dependents(specs);
    KahnStart(g, index, roots, indegree);
    var ordered := EmptyQueue(g, index, dependents, SortByIndex(roots, index), indegree);
    if |ordered| != |specs| {
      r := CycleError(g.Keys - (set n | n in ordered));
    } else {
      r := Ordered(ordered);
    }
  }

  // ----- execution levels --------------------------------------------------------------------

  datatype LevelsResult = Levels(levels: seq<seq<Name>>) | NoLevels(stuck: set<Name>)

  /** The first i tasks of the definition that stand at depth k, in definition order. */
  function AtDepth(specs: seq<TaskSpec>, i: nat, depth: map<Name, nat>, k: nat): (r: seq<Name>)
    requires i <= |specs|
    requires forall x | 0 <= x < i :: specs[x].id in depth
    ensures forall n | n in r :: n in depth && depth[n] == k
    ensures forall x | 0 <= x < i && depth[specs[x].id] == k :: specs[x].id in r
  {
    if i == 0 then []
    else
      var r := AtDepth(specs, i - 1, depth, k);
      if depth[specs[i - 1].id] == k then r + [specs[i - 1].id] else r
  }

  ghost predicate Depths(g: Graph, depth: map<Name, nat>) {
    forall n {:trigger depth[n]} | n in depth :: n in g && LongestChain(g, n, depth[n])
  }

  /** The tasks stand in the order of the definition, none of them twice. */
  predicate Rising(names: seq<Name>, index: map<Name, nat>) {
    && (forall i | 0 <= i < |names| :: names[i] in index)
    && (forall i, j | 0 <= i < j < |names| :: index[names[i]] < index[names[j]])
  }

  /** Level k: exactly the tasks at depth k, once each and in definition order. */
  ghost predicate Level(specs: seq<TaskSpec>, depth: map<Name, nat>, level: seq<Name>, k: nat)
    requires UniqueIds(specs)
  {
    && (forall n :: n in level <==> n in GraphOf(specs) && n in depth && depth[n] == k)
    && Rising(level, OrderIndex(specs))
  }

  /** Every task stands in exactly one level, that of its longest dependency chain; within a level
      tasks stand in definition order; no level is empty. */
  ghost predicate Levelling(specs: seq<TaskSpec>, levels: seq<seq<Name>>, depth: map<Name, nat>)
    requires UniqueIds(specs)
  {
    && depth.Keys == GraphOf(specs).Keys
    && Depths(GraphOf(specs), depth)
    && (forall n | n in depth :: depth[n] < |levels|)
    && (forall k | 0 <= k < |levels| :: Level(specs, depth, levels[k], k) && levels[k] != [])
  }

  lemma RisingAppend(names: seq<Name>, n: Name, index: map<Name, nat>)
    requires Rising(names, index) && n in index && forall m | m in names :: m in index && index[m] < index[n]
    ensures Rising(names + [n], index)
  {
  }

  lemma {:induction false} AtDepthRises(specs: seq<TaskSpec>, i: nat, depth: map<Name, nat>, k: nat)
    requires UniqueIds(specs) && i <= |specs| && forall x | 0 <= x < i :: specs[x].id in depth
    ensures Rising(AtDepth(specs, i, depth, k), OrderIndex(specs))
    ensures forall n | n in AtDepth(specs, i, depth, k) :: n in OrderIndex(specs) && OrderIndex(specs)[n] < i
  {
    hide UniqueIds, OrderIndex, Rising;
    if i == 0 {
      NothingRises(OrderIndex(specs));
    } else {
      AtDepthRises(specs, i - 1, depth, k);
      RisingAppend(AtDepth(specs, i - 1, depth, k), specs[i - 1].id, OrderIndex(specs));
    }
  }

  lemma NothingRises(index: map<Name, nat>)
    ensures Rising([], index)
  {
  }

  lemma AtDepthIsLevel(specs: seq<TaskSpec>, depth: map<Name, nat>, k: nat)
    requires UniqueIds(specs) && forall x | 0 <= x < |specs| :: specs[x].id in depth
    ensures Level(specs, depth, AtDepth(specs, |specs|, depth, k), k)
  {
    AtDepthRises(specs, |specs|, depth, k);
    var level := AtDepth(specs, |specs|, depth, k);
    forall n ensures n in level <==> n in GraphOf(specs) && n in depth && depth[n] == k {
      if n in GraphOf(specs) {
        assert specs[OrderIndex(specs)[n]].id == n;
      }
    }
  }

  /** `max(depth[d] for d in deps)` */
  method Deepest(deps: seq<Name>, depth: map<Name, nat>) returns (deepest: Name)
    requires deps != [] && forall d | d in deps :: d in depth
    ensures deepest in deps && forall d | d in deps :: depth[d] <= depth[deepest]
  {
    deepest := deps[0];
    for i := 1 to |deps|
      invariant deepest in deps
      invariant forall j | 0 <= j < i :: depth[deps[j]] <= depth[deepest]
    {
      if depth[deps[i]] > depth[deepest] {
        deepest := deps[i];
      }
    }
  }

  /** The depths known so far belong to the first i tasks of the order. */
  ghost predicate Covers(order: seq<Name>, i: nat, depth: map<Name, nat>) {
    && i <= |order|
    && (forall x | 0 <= x < i :: order[x] in depth)
    && (forall n | n in depth :: Within(order, i, n))
  }

  method DepthOf(g: Graph, n: Name, depth: map<Name, nat>) returns (k: nat)
    requires n in g && Depths(g, depth) && forall d | d in g[n] :: d in depth
    ensures LongestChain(g, n, k)
  {
    if g[n] == [] {
      k := 0;
      RootDepth(g, n);
    } else {
      var deepest := Deepest(g[n], depth);
      k := depth[deepest] + 1;
      assert forall d | d in g[n] :: LongestChain(g, d, depth[d]);
      DepthAbove(g, n, depth, deepest);
    }
  }

  lemma CoversDependencies(g: Graph, order: seq<Name>, i: nat, depth: map<Name, nat>)
    requires Topological(g, order) && i < |order| && Covers(order, i, depth)
    ensures order[i] in g && forall d | d in g[order[i]] :: d in depth
    ensures order[i] !in depth
  {
    forall d | d in g[order[i]] ensures d in depth {
      assert Within(order, i, d);
    }
  }

  lemma CoversNext(order: seq<Name>, i: nat, depth: map<Name, nat>, k: nat)
    requires i < |order| && Covers(order, i, depth)
    ensures Covers(order, i + 1, depth[order[i] := k])
  {
    forall n | n in depth ensures Within(order, i + 1, n) {
      assert Within(order, i, n);
    }
    assert Within(order, i + 1, order[i]);
  }

  lemma DepthsNext(g: Graph, depth: map<Name, nat>, n: Name, k: nat)
    requires Depths(g, depth) && n in g && LongestChain(g, n, k)
    ensures Depths(g, depth[n := k])
  {
  }

  lemma CoversAll(g: Graph, order: seq<Name>, depth: map<Name, nat>)
    requires Topological(g, order) && Covers(order, |order|, depth)
    ensures depth.Keys == g.Keys
  {
    forall n ensures n in depth <==> n in g {
      assert n in g ==> n in order;
    }
  }

  /** The depth of every task, following the topological order. */
  method ComputeDepths(g: Graph, order: seq<Name>) returns (depth: map<Name, nat>, height: nat, ghost top: Name)
    requires Topological(g, order)
    ensures depth.Keys == g.Keys && Depths(g, depth)
    ensures forall n | n in depth :: depth[n] < height
    ensures height > 0 ==> top in depth && depth[top] == height - 1
  {
    depth, height, top := map[], 0, "";
    for i := 0 to |order|
      invariant Depths(g, depth) && Covers(order, i, depth)
      invariant forall n | n in depth :: depth[n] < height
      invariant height > 0 ==> top in depth && depth[top] == height - 1
    {
      hide Depths, Covers, Topological;
      CoversDependencies(g, order, i, depth);
      var k := DepthOf(g, order[i], depth);
      CoversNext(order, i, depth, k);
      DepthsNext(g, depth, order[i], k);
      depth := depth[order[i] := k];
      if k >= height {
        height, top := k + 1, order[i];
      }
    }
    CoversAll(g, order, depth);
  }

  lemma DepthKnown(g: Graph, depth: map<Name, nat>, n: Name)
    requires Depths(g, depth) && n in depth
    ensures n in g && LongestChain(g, n, depth[n])
  {
  }

  lemma SomeTaskAtDepth(specs: seq<TaskSpec>, depth: map<Name, nat>, height: nat, top: Name, k: nat) returns (m: Name)
    requires UniqueIds(specs) && depth.Keys == GraphOf(specs).Keys && Depths(GraphOf(specs), depth)
    requires top in depth && depth[top] == height - 1 && k < height
    ensures m in GraphOf(specs) && m in depth && depth[m] == k
  {
    hide LongestChain, UniqueIds, Depths, GraphOf;
    var g := GraphOf(specs);
    DepthKnown(g, depth, top);
    m := NoDepthSkipped(g, top, height - 1, k);
    DepthKnown(g, depth, m);
    LongestChainUnique(g, m, k, depth[m]);
  }

  method FillLevels(specs: seq<TaskSpec>, depth: map<Name, nat>, height: nat) returns (levels: seq<seq<Name>>)
    requires UniqueIds(specs)
    requires forall x | 0 <= x < |specs| :: specs[x].id in depth && depth[specs[x].id] < height
    ensures |levels| == height
    ensures forall k | 0 <= k < height :: Level(specs, depth, levels[k], k)
  {
    levels := seq(height, _ => []);
    for i := 0 to |specs|
      invariant |levels| == height
      invariant forall k | 0 <= k < height :: levels[k] == AtDepth(specs, i, depth, k)
    {
      var id := specs[i].id;
      levels := levels[depth[id] := levels[depth[id]] + [id]];
    }
    forall k | 0 <= k < height ensures Level(specs, depth, levels[k], k) {
      AtDepthIsLevel(specs, depth, k);
    }
  }

  method ExecutionLevels(specs: seq<TaskSpec>) returns (r: LevelsResult, ghost depth: map<Name, nat>)
    requires Sortable(specs)
    ensures r.Levels? <==> Acyclic(GraphOf(specs))
    ensures r.Levels? ==> Levelling(specs, r.levels, depth)
    ensures r.NoLevels? ==> r.stuck != {} && ExactlyStuck(GraphOf(specs), r.stuck)
  {
    var sorted := TopologicalOrder(specs);
    if sorted.CycleError? {
      return NoLevels(sorted.stuck), map[];
    }
    var depths, height, top := ComputeDepths(GraphOf(specs), sorted.order);
    var levels := FillLevels(specs, depths, height);
    forall k | 0 <= k < height ensures levels[k] != [] {
      var m := SomeTaskAtDepth(specs, depths, height, top, k);
      assert m in levels[k];
    }
    r, depth := Levels(levels), depths;
  }

  /** No dependency-respecting schedule places a task earlier, and none uses fewer waves. */
  lemma LevelsAreOptimal(specs: seq<TaskSpec>, levels: seq<seq<Name>>, depth: map<Name, nat>, wave: map<Name, nat>)
    requires UniqueIds(specs) && Levelling(specs, levels, depth) && WaveAssignment(GraphOf(specs), wave)
    ensures forall n | n in GraphOf(specs) :: depth[n] <= wave[n]
    ensures levels != [] ==> exists n :: n in GraphOf(specs) && wave[n] >= |levels| - 1
  {
    var g := GraphOf(specs);
    forall n | n in g ensures depth[n] <= wave[n] {
      DepthIsOptimal(g, wave, n, depth[n]);
    }
    if levels != [] {
      var top := |levels| - 1;
      var n := levels[top][0];
      assert n in levels[top];
      assert n in g && wave[n] >= top;
    }
  }

  lemma InOwnLevel(specs: seq<TaskSpec>, levels: seq<seq<Name>>, depth: map<Name, nat>, n: Name)
    requires UniqueIds(specs) && Levelling(specs, levels, depth) && n in GraphOf(specs)
    ensures n in depth && forall l | 0 <= l < |levels| :: n in levels[l] <==> depth[n] == l
  {
  }

  /** Each level is a contiguous stretch of the topological order: between two tasks of a level
      there are only tasks of that level. */
  lemma {:induction false} LevelsAreContiguous(specs: seq<TaskSpec>, order: seq<Name>, levels: seq<seq<Name>>, depth: map<Name, nat>, i: nat, j: nat, k: nat)
    requires UniqueIds(specs) && Levelling(specs, levels, depth)
    requires Topological(GraphOf(specs), order) && FifoSorted(GraphOf(specs), OrderIndex(specs), order)
    requires i <= j <= k < |order|
    ensures order[i] in depth && order[j] in depth && order[k] in depth
    ensures depth[order[i]] <= depth[order[j]] <= depth[order[k]]
    ensures forall l | 0 <= l < |levels| && order[i] in levels[l] && order[k] in levels[l] :: order[j] in levels[l]
  {
    hide Depths, LongestChain, Topological, FifoSorted, Level, UniqueIds, GraphOf;
    var g, index := GraphOf(specs), OrderIndex(specs);
    forall n | n in g ensures n in depth && LongestChain(g, n, depth[n]) {
      DepthKnown(g, depth, n);
    }
    OrderedTasks(g, order);
    DepthMonotone(g, index, order, depth, i, j);
    DepthMonotone(g, index, order, depth, j, k);
    InOwnLevel(specs, levels, depth, order[i]);
    InOwnLevel(specs, levels, depth, order[j]);
    InOwnLevel(specs, levels, depth, order[k]);
  }

  lemma OrderedTasks(g: Graph, order: seq<Name>)
    requires Topological(g, order)
    ensures forall i | 0 <= i < |order| :: order[i] in g
  {
  }

  // ----- validation --------------------------------------------------------------------------

  ghost predicate ValidDag(specs: seq<TaskSpec>) {
    UniqueIds(specs) && NoSelfDependency(specs) && KnownDependencies(specs) && Acyclic(GraphOf(specs))
  }

  /** What each rejection says about the definition. */
  ghost predicate Justified(specs: seq<TaskSpec>, v: Verdict) {
    match v
    case Valid => ValidDag(specs)
    case DuplicateId(id) => exists i, j | 0 <= i < j < |specs| :: specs[i].id == specs[j].id == id
    case SelfDependency(id) => UniqueIds(specs) && exists i | 0 <= i < |specs| :: specs[i].id == id && id in specs[i].dependsOn
    case UnknownDependency(id, dep) =>
      && UniqueIds(specs) && !HasId(specs, dep)
      && exists i | 0 <= i < |specs| :: specs[i].id == id && dep in specs[i].dependsOn
    case Cyclic(stuck) =>
      UniqueIds(specs) && NoSelfDependency(specs) && KnownDependencies(specs) && stuck != {} && ExactlyStuck(GraphOf(specs), stuck)
  }

  /** Any answer that is justified separates the valid graphs from the others. */
  lemma JustifiedVerdict(specs: seq<TaskSpec>, v: Verdict)
    requires Justified(specs, v)
    ensures v.Valid? <==> ValidDag(specs)
  {
    match v
    case Valid =>
    case DuplicateId(_) =>
    case SelfDependency(_) =>
    case UnknownDependency(_, _) =>
    case Cyclic(stuck) =>
      var n :| n in stuck;
      assert LeadsIntoCycle(GraphOf(specs), n);
  }

  method CheckDependencies(specs: seq<TaskSpec>, i: nat, seen: set<Name>) returns (v: Verdict)
    requires i < |specs| && UniqueIds(specs) && forall n :: n in seen <==> HasId(specs, n)
    ensures v.Valid? || v.SelfDependency? || v.UnknownDependency?
    ensures v.Valid? ==> specs[i].id !in specs[i].dependsOn && forall d | d in specs[i].dependsOn :: HasId(specs, d)
    ensures !v.Valid? ==> Justified(specs, v)
  {
    var spec := specs[i];
    if spec.id in spec.dependsOn {
      return SelfDependency(spec.id);
    }
    for k := 0 to |spec.dependsOn|
      invariant forall j | 0 <= j < k :: HasId(specs, spec.dependsOn[j])
    {
      if spec.dependsOn[k] !in seen {
        return UnknownDependency(spec.id, spec.dependsOn[k]);
      }
    }
    v := Valid;
  }

  method CheckIds(specs: seq<TaskSpec>) returns (v: Verdict, seen: set<Name>)
    ensures v.Valid? || v.DuplicateId?
    ensures v.Valid? ==> UniqueIds(specs) && forall n :: n in seen <==> HasId(specs, n)
    ensures !v.Valid? ==> Justified(specs, v)
  {
    seen := {};
    for i := 0 to |specs|
      invariant forall x, y | 0 <= x < y < i :: specs[x].id != specs[y].id
      invariant forall n :: n in seen <==> exists x | 0 <= x < i :: specs[x].id == n
    {
      if specs[i].id in seen {
        v := DuplicateId(specs[i].id);
        return;
      }
      seen := seen + {specs[i].id};
    }
    v := Valid;
  }

  method ValidateDefinition(specs: seq<TaskSpec>) returns (v: Verdict, ghost order: seq<Name>)
    requires Parsed(specs)
    ensures Justified(specs, v)
    ensures v.Valid? <==> ValidDag(specs)
    ensures v.Valid? ==> Topological(GraphOf(specs), order)
  {
    hide Acyclic, ExactlyStuck, Topological, FifoSorted;
    order := [];
    var seen;
    v, seen := CheckIds(specs);
    if !v.Valid? {
      JustifiedVerdict(specs, v);
      return;
    }
    for i := 0 to |specs|
      invariant forall x | 0 <= x < i :: specs[x].id !in specs[x].dependsOn
      invariant forall x, d | 0 <= x < i && d in specs[x].dependsOn :: HasId(specs, d)
    {
      v := CheckDependencies(specs, i, seen);
      if !v.Valid? {
        JustifiedVerdict(specs, v);
        return;
      }
    }
    var sorted := TopologicalOrder(specs);
    if sorted.Ordered? {
      v, order := Valid, sorted.order;
    } else {
      v := Cyclic(sorted.stuck);
    }
    JustifiedVerdict(specs, v);
  }
}

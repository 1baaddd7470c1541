/**
 Rollout order (internal/reconcile/topsort.go): Kahn's algorithm that always releases the
 smallest ready service, and the three-colour depth-first search that guards it.
 */
module DependencyOrder {
  import opened StringOrder

  /** Service name -> its `depends_on` list, which may repeat a name or mention unknown ones. */
  type Graph = map<string, seq<string>>

  // ---------------------------------------------------------------- graph vocabulary

  /** `n` waits for `dep`. Unknown dependencies are skipped, so they give no edge. */
  predicate Edge(g: Graph, n: string, dep: string)
  {
    n in g && dep in g && dep in g[n]
  }

  ghost predicate Walk(g: Graph, p: seq<string>)
  {
    p != [] && p[0] in g && forall i, j :: 0 <= i && j == i + 1 < |p| ==> Edge(g, p[i], p[j])
  }

  ghost predicate ClosedWalk(g: Graph, c: seq<string>)
  {
    |c| >= 2 && Walk(g, c) && c[0] == c[|c| - 1]
  }

  ghost predicate Acyclic(g: Graph)
  {
    forall c :: !ClosedWalk(g, c)
  }

  /** A walk from `n` that ends by coming back to its own position `i`. */
  ghost predicate Lasso(g: Graph, n: string, p: seq<string>, i: int)
  {
    Walk(g, p) && p[0] == n && 0 <= i < |p| - 1 && p[i] == p[|p| - 1]
  }

  ghost predicate ReachesCycle(g: Graph, n: string)
  {
    exists p, i :: Lasso(g, n, p, i)
  }

  lemma SuffixIsWalk(g: Graph, p: seq<string>, i: nat)
    requires Walk(g, p) && i < |p|
    ensures Walk(g, p[i..])
  {
    assert i > 0 ==> Edge(g, p[i - 1], p[i]);
    assert forall k :: 0 <= k < |p| - i ==> p[i..][k] == p[i + k];
  }

  lemma AcyclicIffNoneReachesCycle(g: Graph)
    ensures Acyclic(g) <==> forall n :: n in g ==> !ReachesCycle(g, n)
  {
    if c :| ClosedWalk(g, c) {
      assert Lasso(g, c[0], c, 0);
    }
    if n :| n in g && ReachesCycle(g, n) {
      var p, i :| Lasso(g, n, p, i);
      SuffixIsWalk(g, p, i);
      assert ClosedWalk(g, p[i..]);
    }
  }

  /** Every listed service is known, listed once, and comes after all its known dependencies. */
  ghost predicate DepsFirst(g: Graph, out: seq<string>)
  {
    && NoDup(out)
    && (forall i :: 0 <= i < |out| ==> out[i] in g)
    && (forall i, d :: 0 <= i < |out| && Edge(g, out[i], d) ==> d in out[..i])
  }

  ghost predicate TopologicalOrder(g: Graph, out: seq<string>)
  {
    DepsFirst(g, out) && forall n :: n in g ==> n in out
  }

  // ---------------------------------------------------------------- order against cycles

  /** Following dependencies from a listed service moves strictly towards the front. */
  lemma {:induction false} WalkDescends(g: Graph, out: seq<string>, p: seq<string>, i: nat, from: nat)
      returns (at: nat)
    requires DepsFirst(g, out) && Walk(g, p)
    requires i < |p| && from < |out| && out[from] == p[0]
    ensures at + i <= from && out[at] == p[i]
    decreases i
  {
    if i == 0 {
      at := from;
    } else {
      var before := WalkDescends(g, out, p, i - 1, from);
      assert Edge(g, p[i - 1], p[i]);
      at :| 0 <= at < before && out[at] == p[i];
    }
  }

  lemma ListedReachesNoCycle(g: Graph, out: seq<string>, n: string)
    requires DepsFirst(g, out) && n in out
    ensures !ReachesCycle(g, n)
  {
    var from :| 0 <= from < |out| && out[from] == n;
    forall p, i | Walk(g, p) && p[0] == n && 0 <= i < |p| - 1 ensures p[i] != p[|p| - 1] {
      var a := WalkDescends(g, out, p, i, from);
      SuffixIsWalk(g, p, i);
      var b := WalkDescends(g, out, p[i..], |p| - 1 - i, a);
    }
  }

  /** Nothing in `s` can ever be released: each member waits for another member. */
  ghost predicate Stuck(g: Graph, s: set<string>)
  {
    forall n :: n in s ==> n in g && WaitsInside(g, s, n)
  }

  ghost predicate WaitsInside(g: Graph, s: set<string>, n: string)
  {
    exists d :: Edge(g, n, d) && d in s
  }

  lemma {:induction false} WalkInside(g: Graph, s: set<string>, n: string, len: nat) returns (p: seq<string>)
    requires Stuck(g, s) && n in s
    ensures Walk(g, p) && p[0] == n && |p| == len + 1
    ensures forall x :: x in p ==> x in s
    decreases len
  {
    if len == 0 {
      p := [n];
    } else {
      var d :| Edge(g, n, d) && d in s;
      var q := WalkInside(g, s, d, len - 1);
      p := [n] + q;
      assert forall k :: 0 < k < |p| ==> p[k] == q[k - 1];
    }
  }

  lemma StuckReachesCycle(g: Graph, s: set<string>, n: string)
    requires Stuck(g, s) && n in s
    ensures ReachesCycle(g, n)
  {
    var p := WalkInside(g, s, n, |s|);
    var i, j := Repetition(p, s);
    assert Lasso(g, n, p[..j + 1], i);
  }

  // ---------------------------------------------------------------- Kahn's algorithm

  /** `n` may be released next: all its known dependencies are out already. */
  ghost predicate Available(g: Graph, out: seq<string>, n: string)
  {
    n in g && n !in out && forall d :: Edge(g, n, d) ==> d in out
  }

  /** Every release took the smallest service available at that moment. */
  ghost predicate Greedy(g: Graph, out: seq<string>)
  {
    forall i :: 0 <= i < |out| ==>
      Available(g, out[..i], out[i]) && forall n :: Available(g, out[..i], n) ==> Leq(out[i], n)
  }

  lemma GreedyPutsDepsFirst(g: Graph, out: seq<string>)
    requires Greedy(g, out)
    ensures DepsFirst(g, out)
  {
    forall i, j | 0 <= i < j < |out| ensures out[i] != out[j] {
      assert Available(g, out[..j], out[j]);
      assert out[i] in out[..j];
    }
  }

  /** What the loop computes: greedy releases until nothing is available. */
  ghost predicate KahnResult(g: Graph, out: seq<string>)
  {
    Greedy(g, out) && forall n :: !Available(g, out, n)
  }

  lemma KahnEmitsExactlyTheCycleFree(g: Graph, out: seq<string>)
    requires KahnResult(g, out)
    ensures forall n :: n in out <==> n in g && !ReachesCycle(g, n)
  {
    GreedyPutsDepsFirst(g, out);
    var stuck := set n | n in g && n !in out;
    assert Stuck(g, stuck) by {
      forall n | n in stuck ensures WaitsInside(g, stuck, n) {
        assert !Available(g, out, n);
        var d :| Edge(g, n, d) && d !in out;
        assert d in stuck;
      }
    }
    forall n | n in g ensures n in out <==> !ReachesCycle(g, n) {
      if n in out {
        ListedReachesNoCycle(g, out, n);
      } else {
        StuckReachesCycle(g, stuck, n);
      }
    }
  }

  lemma KahnCompleteIffAcyclic(g: Graph, out: seq<string>)
    requires KahnResult(g, out)
    ensures TopologicalOrder(g, out) <==> Acyclic(g)
  {
    GreedyPutsDepsFirst(g, out);
    KahnEmitsExactlyTheCycleFree(g, out);
    AcyclicIffNoneReachesCycle(g);
  }

  /** Name lists compared as rollout plans: first difference decides. */
  ghost predicate LexLeq(a: seq<string>, b: seq<string>)
  {
    a == [] || (b != [] && (Less(a[0], b[0]) || (a[0] == b[0] && LexLeq(a[1..], b[1..]))))
  }

  lemma {:induction false} GreedyIsLexLeastFrom(g: Graph, out: seq<string>, other: seq<string>, k: nat)
    requires Greedy(g, out) && TopologicalOrder(g, other)
    requires k <= |out| && k <= |other| && out[..k] == other[..k]
    ensures LexLeq(out[k..], other[k..])
    decreases |out| - k
  {
    if k < |out| {
      assert Available(g, out[..k], out[k]);
      assert out[k] in other && out[k] !in other[..k];
      assert k < |other|;
      assert Available(g, out[..k], other[k]) by {
        forall d | Edge(g, other[k], d) ensures d in out[..k] {
          assert d in other[..k];
        }
        assert other[k] !in other[..k];
      }
      if out[k] == other[k] {
        assert out[..k + 1] == out[..k] + [out[k]] && other[..k + 1] == other[..k] + [other[k]];
        GreedyIsLexLeastFrom(g, out, other, k + 1);
        assert out[k..][1..] == out[k + 1..] && other[k..][1..] == other[k + 1..];
      } else if !Less(out[k], other[k]) {
        LeqAntisymmetric(out[k], other[k]);
      }
    }
  }

  lemma KahnIsLexLeast(g: Graph, out: seq<string>, other: seq<string>)
    requires KahnResult(g, out) && TopologicalOrder(g, other)
    ensures LexLeq(out, other)
  {
    GreedyIsLexLeastFrom(g, out, other, 0);
    assert out[0..] == out && other[0..] == other;
  }

  /** The result is a function of the graph, although Go visits the maps in random order. */
  lemma {:induction false} KahnIsDeterministic(g: Graph, a: seq<string>, b: seq<string>, k: nat)
    requires KahnResult(g, a) && KahnResult(g, b)
    requires k <= |a| && k <= |b| && a[..k] == b[..k]
    ensures a == b
    decreases |a| - k
  {
    if k < |a| && k < |b| {
      assert Available(g, a[..k], a[k]) && Available(g, b[..k], b[k]);
      LeqAntisymmetric(a[k], b[k]);
      assert a[..k + 1] == a[..k] + [a[k]] && b[..k + 1] == b[..k] + [b[k]];
      KahnIsDeterministic(g, a, b, k + 1);
    } else {
      assert a[..|a|] == a && b[..|b|] == b;
    }
  }

  // ---------------------------------------------------------------- in-degrees

  /** Entries of `deps`, with repetition, that name a known service not yet in `done`. */
  ghost function Pending(g: Graph, deps: seq<string>, done: set<string>): nat
  {
    if deps == [] then 0
    else
      var last := deps[|deps| - 1];
      Pending(g, deps[..|deps| - 1], done) + if last in g && last !in done then 1 else 0
  }

  lemma {:induction false} ReleaseLowersPending(g: Graph, deps: seq<string>, done: set<string>, m: string)
    requires m in g && m !in done
    ensures Pending(g, deps, done + {m}) + multiset(deps)[m] == Pending(g, deps, done)
  {
    if deps != [] {
      var k := |deps| - 1;
      ReleaseLowersPending(g, deps[..k], done, m);
      assert deps == deps[..k] + [deps[k]];
      assert multiset(deps) == multiset(deps[..k]) + multiset{deps[k]};
    }
  }

  lemma {:induction false} PendingZero(g: Graph, deps: seq<string>, done: set<string>)
    ensures Pending(g, deps, done) == 0 <==> forall d :: d in deps && d in g ==> d in done
  {
    if deps != [] {
      var k := |deps| - 1;
      PendingZero(g, deps[..k], done);
      assert deps == deps[..k] + [deps[k]];
    }
  }

  function At(m: map<string, seq<string>>, k: string): seq<string>
  {
    if k in m then m[k] else []
  }

  /** How often `n` is filed under `d` in the reverse adjacency. */
  ghost function Filed(dependents: map<string, seq<string>>, d: string, n: string): nat
  {
    multiset(At(dependents, d))[n]
  }

  method FileEntry(dependents0: map<string, seq<string>>, dep: string, name: string)
      returns (dependents: map<string, seq<string>>)
    ensures forall d, n :: Filed(dependents, d, n) == Filed(dependents0, d, n) + if d == dep && n == name then 1 else 0
  {
    dependents := dependents0[dep := At(dependents0, dep) + [name]];
  }

  /** One service's turn in the first loop: every known entry of its list, repetitions included. */
  method CountEntries(g: Graph, name: string, inDegree0: map<string, int>, dependents0: map<string, seq<string>>)
      returns (inDegree: map<string, int>, dependents: map<string, seq<string>>)
    requires name in g && inDegree0.Keys == g.Keys
    ensures inDegree.Keys == g.Keys
    ensures forall n :: n in g ==>
      inDegree[n] == inDegree0[n] + if n == name then Pending(g, g[name], {}) else 0
    ensures forall d, n :: d in g ==>
      Filed(dependents, d, n) == Filed(dependents0, d, n) + if n == name then multiset(g[name])[d] else 0
  {
    inDegree, dependents := inDegree0, dependents0;
    var deps := g[name];
    for j := 0 to |deps|
      invariant inDegree.Keys == g.Keys
      invariant forall n :: n in g ==>
        inDegree[n] == inDegree0[n] + if n == name then Pending(g, deps[..j], {}) else 0
      invariant forall d, n :: d in g ==>
        Filed(dependents, d, n) == Filed(dependents0, d, n) + if n == name then multiset(deps[..j])[d] else 0
    {
      var dep := deps[j];
      assert deps[..j + 1][..j] == deps[..j] && deps[..j + 1] == deps[..j] + [dep];
      assert multiset(deps[..j + 1]) == multiset(deps[..j]) + multiset{dep};
      if dep in g {
        inDegree := inDegree[name := inDegree[name] + 1];
        dependents := FileEntry(dependents, dep, name);
      }
    }
    assert deps[..|deps|] == deps;
  }

  /** The first loop of `topoSortServices`: in-degrees and reverse adjacency. */
  method CountEdges(g: Graph) returns (inDegree: map<string, int>, dependents: map<string, seq<string>>)
    ensures EdgesCounted(g, inDegree, dependents)
  {
    inDegree := map n | n in g :: 0;
    dependents := map[];
    assert Elems<string>([]) == {};
    var todo := g.Keys;
    while todo != {}
      invariant todo <= g.Keys && inDegree.Keys == g.Keys
      invariant forall n :: n in g ==> inDegree[n] == if n in todo then 0 else Pending(g, g[n], {})
      invariant forall d, n :: d in g ==>
        Filed(dependents, d, n) == if n in g && n !in todo then multiset(g[n])[d] else 0
      decreases todo
    {
      var name :| name in todo;
      todo := todo - {name};
      inDegree, dependents := CountEntries(g, name, inDegree, dependents);
    }
  }

  ghost predicate EdgesCounted(g: Graph, inDegree: map<string, int>, dependents: map<string, seq<string>>)
  {
    inDegree.Keys == g.Keys && DegreesMatch(g, inDegree, []) && FiledMatch(g, dependents)
  }

  ghost predicate DegreesMatch(g: Graph, inDegree: map<string, int>, out: seq<string>)
    requires inDegree.Keys == g.Keys
  {
    forall n :: n in g && n !in out ==> inDegree[n] == Pending(g, g[n], Elems(out))
  }

  ghost predicate FiledMatch(g: Graph, dependents: map<string, seq<string>>)
  {
    forall d, n :: d in g ==> Filed(dependents, d, n) == if n in g then multiset(g[n])[d] else 0
  }

  /** The inner loop: lower the in-degree of each dependent and collect those that reach zero. */
  method Unlock(list: seq<string>, inDegree0: map<string, int>)
      returns (inDegree: map<string, int>, unlocked: seq<string>)
    requires forall d :: d in list ==> d in inDegree0 && multiset(list)[d] <= inDegree0[d]
    ensures inDegree.Keys == inDegree0.Keys
    ensures forall d :: d in inDegree ==> inDegree[d] == inDegree0[d] - multiset(list)[d]
    ensures NoDup(unlocked) && forall d :: d in unlocked <==> d in list && inDegree[d] == 0
  {
    inDegree, unlocked := inDegree0, [];
    for k := 0 to |list|
      invariant inDegree.Keys == inDegree0.Keys
      invariant forall d :: d in inDegree ==> inDegree[d] == inDegree0[d] - multiset(list[..k])[d]
      invariant NoDup(unlocked) && forall d :: d in unlocked <==> d in list[..k] && inDegree[d] == 0
    {
      var d := list[k];
      assert list[..k + 1] == list[..k] + [d];
      assert list == list[..k + 1] + list[k + 1..];
      assert multiset(list) == multiset(list[..k]) + multiset{d} + multiset(list[k + 1..]);
      inDegree := inDegree[d := inDegree[d] - 1];
      if inDegree[d] == 0 {
        unlocked := unlocked + [d];
      }
    }
    assert list[..|list|] == list;
  }

  /** Ready list of the loop: sorted, without repetition, exactly the available services. */
  ghost predicate Frontier(g: Graph, out: seq<string>, ready: seq<string>)
  {
    Sorted(ready) && NoDup(ready) && forall n :: n in ready <==> Available(g, out, n)
  }

  lemma AvailableIffNothingPending(g: Graph, out: seq<string>, n: string)
    requires n in g && n !in out
    ensures Available(g, out, n) <==> Pending(g, g[n], Elems(out)) == 0
  {
    PendingZero(g, g[n], Elems(out));
  }

  /** After releasing `n`, the available services are the rest of the frontier and those it unlocked. */
  lemma ReleaseUpdatesFrontier(g: Graph, out: seq<string>, n: string, m: string)
    requires Available(g, out, n)
    ensures Available(g, out + [n], m) <==>
      m != n && (Available(g, out, m)
        || (m in g && m !in out && n in g[m] && Pending(g, g[m], Elems(out + [n])) == 0))
  {
    if m in g && m !in out && m != n {
      AvailableIffNothingPending(g, out, m);
      AvailableIffNothingPending(g, out + [n], m);
      assert Elems(out + [n]) == Elems(out) + {n};
      ReleaseLowersPending(g, g[m], Elems(out), n);
    }
  }

  lemma DependentsAreWaiting(g: Graph, out: seq<string>, n: string, dependents: map<string, seq<string>>)
    requires FiledMatch(g, dependents) && n in g && n !in out && DepsFirst(g, out + [n])
    ensures forall d :: d in At(dependents, n) <==> d in g && n in g[d]
    ensures forall d :: d in At(dependents, n) ==> d !in out + [n]
    ensures forall d :: multiset(At(dependents, n))[d] == if d in g then multiset(g[d])[n] else 0
    ensures forall d :: d in At(dependents, n) ==>
      multiset(At(dependents, n))[d] <= Pending(g, g[d], Elems(out))
  {
    var list, next := At(dependents, n), out + [n];
    forall d ensures d in list <==> d in g && n in g[d]
             ensures multiset(list)[d] == if d in g then multiset(g[d])[n] else 0
    {
      assert d in list <==> Filed(dependents, n, d) > 0;
    }
    forall d | d in list ensures d !in next && multiset(list)[d] <= Pending(g, g[d], Elems(out)) {
      assert Edge(g, d, n);
      forall i | 0 <= i < |next| ensures next[i] != d {
        assert n !in next[..i];
      }
      ReleaseLowersPending(g, g[d], Elems(out), n);
    }
  }

  lemma DegreesAfterRelease(g: Graph, out: seq<string>, n: string, before: map<string, int>,
                            after: map<string, int>, list: seq<string>)
    requires before.Keys == after.Keys == g.Keys && DegreesMatch(g, before, out)
    requires n in g && n !in out
    requires forall d :: d in g ==> multiset(list)[d] == multiset(g[d])[n]
    requires forall d :: d in g ==> after[d] == before[d] - multiset(list)[d]
    ensures DegreesMatch(g, after, out + [n])
  {
    assert Elems(out + [n]) == Elems(out) + {n};
    forall m | m in g && m !in out + [n] ensures after[m] == Pending(g, g[m], Elems(out + [n])) {
      ReleaseLowersPending(g, g[m], Elems(out), n);
    }
  }

  /** One turn of the main loop: release the first ready service and merge in what it unlocks. */
  method Release(g: Graph, ghost out: seq<string>, ready0: seq<string>, inDegree0: map<string, int>,
                 dependents: map<string, seq<string>>)
      returns (ready: seq<string>, inDegree: map<string, int>)
    requires ready0 != [] && Frontier(g, out, ready0) && DepsFirst(g, out + [ready0[0]])
    requires inDegree0.Keys == g.Keys && DegreesMatch(g, inDegree0, out) && FiledMatch(g, dependents)
    ensures Frontier(g, out + [ready0[0]], ready)
    ensures inDegree.Keys == g.Keys && DegreesMatch(g, inDegree, out + [ready0[0]])
  {
    var n := ready0[0];
    assert Available(g, out, n);
    ready := ready0[1..];
    var list := At(dependents, n);
    DependentsAreWaiting(g, out, n, dependents);
    var unlocked;
    inDegree, unlocked := Unlock(list, inDegree0);
    DegreesAfterRelease(g, out, n, inDegree0, inDegree, list);
    assert ready0 == [n] + ready;
    FrontierAfterRelease(g, out, n, ready, unlocked, list);
    if |unlocked| > 0 {
      SamePermutation(ready + unlocked, SortStrings(ready + unlocked));
      ready := SortStrings(ready + unlocked);
    } else {
      assert ready + unlocked == ready;
    }
  }

  method TopoSortServices(g: Graph) returns (out: seq<string>)
    ensures KahnResult(g, out)
    ensures DepsFirst(g, out)
    ensures forall n :: n in out <==> n in g && !ReachesCycle(g, n)
    ensures TopologicalOrder(g, out) <==> Acyclic(g)
    ensures forall other :: TopologicalOrder(g, other) ==> LexLeq(out, other)
  {
    var inDegree, dependents := CountEdges(g);
    var ready := SortedKeys(set n | n in inDegree && inDegree[n] == 0);
    out := [];
    assert Elems(out) == {};
    forall n ensures n in ready <==> Available(g, out, n) {
      if n in g { AvailableIffNothingPending(g, out, n); }
    }
    while ready != []
      invariant Frontier(g, out, ready) && Greedy(g, out)
      invariant inDegree.Keys == g.Keys && DegreesMatch(g, inDegree, out)
      decreases g.Keys - Elems(out)
    {
      assert Available(g, out, ready[0]);
      SmallestReadyIsGreedy(g, out, ready);
      GreedyPutsDepsFirst(g, out + [ready[0]]);
      var n := ready[0];
      assert n in g.Keys - Elems(out) && n in Elems(out + [n]);
      ready, inDegree := Release(g, out, ready, inDegree, dependents);
      out := out + [n];
    }
    KahnEmitsExactlyTheCycleFree(g, out);
    KahnCompleteIffAcyclic(g, out);
    GreedyPutsDepsFirst(g, out);
    forall other | TopologicalOrder(g, other) ensures LexLeq(out, other) {
      KahnIsLexLeast(g, out, other);
    }
  }

  lemma SmallestReadyIsGreedy(g: Graph, out: seq<string>, ready: seq<string>)
    requires Greedy(g, out) && Frontier(g, out, ready) && ready != []
    ensures Greedy(g, out + [ready[0]])
  {
    var next := out + [ready[0]];
    assert forall i :: 0 <= i <= |out| ==> next[..i] == out[..i];
    LessAsymmetric(ready[0], ready[0]);
    assert out[..|out|] == out;
  }

  lemma FrontierAfterRelease(g: Graph, out: seq<string>, n: string, rest: seq<string>,
                             unlocked: seq<string>, list: seq<string>)
    requires Frontier(g, out, [n] + rest) && NoDup(unlocked)
    requires forall m :: m in list <==> m in g && n in g[m]
    requires forall m :: m in list ==> m !in out + [n]
    requires forall m :: m in unlocked <==> m in list && Pending(g, g[m], Elems(out + [n])) == 0
    ensures Sorted(rest) && NoDup(rest + unlocked)
    ensures forall m :: m in rest + unlocked <==> Available(g, out + [n], m)
  {
    var ready := [n] + rest;
    assert ready[0] == n && ready[1..] == rest;
    assert Available(g, out, n);
    forall m ensures m in rest <==> m != n && Available(g, out, m) {
      assert m in ready <==> m == n || m in rest;
      if m in rest {
        var i :| 0 <= i < |rest| && rest[i] == m;
        assert ready[i + 1] == m;
      }
    }
    forall m ensures m in rest + unlocked <==> Available(g, out + [n], m) {
      ReleaseUpdatesFrontier(g, out, n, m);
    }
    forall m | m in rest ensures m !in unlocked {
      assert Edge(g, m, n) ==> n in out;
    }
    var all := rest + unlocked;
    forall i, j | 0 <= i < j < |all| ensures all[i] != all[j] {
      if j < |rest| {
        assert all[i] == ready[i + 1] && all[j] == ready[j + 1];
      } else if i < |rest| {
        assert all[i] in rest && all[j] in unlocked;
      }
    }
  }
}

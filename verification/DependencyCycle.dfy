/**
 The validation-time guard of the rollout order: `findDependencyCycle`
 (internal/reconcile/topsort.go), a three-colour depth-first search with an explicit path.
 */
module DependencyCycle {
  import opened StringOrder
  import opened DependencyOrder

  datatype Color = White | Gray | Black

  class CycleSearch {
    const g: Graph
    var color: map<string, Color>
    var path: seq<string>
    ghost var finished: seq<string>  // black services, in the order they turned black

    function ColorOf(n: string): Color
      reads this
    {
      if n in color then color[n] else White
    }

    /** The path is exactly the gray services in edge order; black services form a finished order. */
    ghost predicate Valid()
      reads this
    {
      && color.Keys <= g.Keys
      && (forall n :: n in color ==> color[n] != White)
      && (path == [] || Walk(g, path)) && NoDup(path)
      && (forall n :: n in path <==> ColorOf(n) == Gray)
      && DepsFirst(g, finished)
      && (forall n :: n in finished <==> ColorOf(n) == Black)
    }

    constructor (g: Graph)
      ensures Valid() && this.g == g && path == [] && color == map[]
    {
      this.g, color, path, finished := g, map[], [], [];
    }

    /** White to gray: `n` joins the path. */
    method Enter(n: string)
      requires Valid() && n in g && ColorOf(n) == White
      requires path != [] ==> Edge(g, path[|path| - 1], n)
      modifies this
      ensures Valid() && path == old(path) + [n] && color == old(color)[n := Gray]
    {
      ExtendWalk(g, path, n);
      assert n !in path;
      color := color[n := Gray];
      path := path + [n];
    }

    /** Gray to black: the last service of the path is finished. */
    method Leave(n: string)
      requires Valid() && path != [] && path[|path| - 1] == n
      requires forall d :: Edge(g, n, d) ==> ColorOf(d) == Black
      modifies this
      ensures Valid() && path == old(path[..|path| - 1]) && color == old(color)[n := Black]
    {
      LastOfPath(path);
      assert n in color;
      FinishLast(g, finished, n);
      PrefixIsWalk(g, path, |path| - 1);
      color := color[n := Black];
      path := path[..|path| - 1];
      finished := finished + [n];
    }

    /** The path from the first occurrence of `dep`, closed by `dep` itself. */
    method CutCycle(dep: string) returns (cycle: seq<string>)
      requires Valid() && ColorOf(dep) == Gray && path != [] && Edge(g, path[|path| - 1], dep)
      ensures ClosedWalk(g, cycle) && NoDup(cycle[1..])
    {
      var i := 0;
      while i < |path| && path[i] != dep
        invariant 0 <= i <= |path| && dep !in path[..i]
      {
        i := i + 1;
      }
      assert path[..|path|] == path;
      if i == |path| {
        assert false;  // the source's fallback: a gray service is always on the path
      }
      CloseLoop(g, path, i);
      cycle := path[i..] + [dep];
    }

    method Visit(n: string) returns (cycle: seq<string>)
      requires Valid() && n in g && ColorOf(n) == White
      requires path != [] ==> Edge(g, path[|path| - 1], n)
      modifies this
      ensures cycle == [] ==> Valid() && path == old(path) && ColorOf(n) == Black
      ensures cycle == [] ==> old(color.Keys) <= color.Keys
      ensures cycle == [] ==> forall m :: old(ColorOf(m)) == Black ==> ColorOf(m) == Black
      ensures cycle != [] ==> ClosedWalk(g, cycle) && NoDup(cycle[1..])
      decreases g.Keys - color.Keys
    {
      assert n in g.Keys - color.Keys;
      Enter(n);
      var deps := g[n];
      for j := 0 to |deps|
        invariant Valid() && path == old(path) + [n]
        invariant old(color.Keys) <= color.Keys && n in color
        invariant forall m :: old(ColorOf(m)) == Black ==> ColorOf(m) == Black
        invariant forall k :: 0 <= k < j && deps[k] in g ==> ColorOf(deps[k]) == Black
      {
        var dep := deps[j];
        if dep !in g { continue; }
        assert Edge(g, n, dep);
        match ColorOf(dep)
        case Gray =>
          cycle := CutCycle(dep);
          return;
        case White =>
          cycle := Visit(dep);
          if cycle != [] { return; }
        case Black =>
      }
      Leave(n);
      assert path == old(path);
      cycle := [];
    }
  }

  lemma LastOfPath(path: seq<string>)
    requires path != [] && NoDup(path)
    ensures var n, init := path[|path| - 1], path[..|path| - 1];
      n !in init && NoDup(init) && forall m :: m in path <==> m in init || m == n
  {
    assert path == path[..|path| - 1] + [path[|path| - 1]];
  }

  lemma PrefixIsWalk(g: Graph, p: seq<string>, k: nat)
    requires Walk(g, p) && k <= |p|
    ensures p[..k] == [] || Walk(g, p[..k])
  {
  }

  lemma ExtendWalk(g: Graph, path: seq<string>, n: string)
    requires path == [] || (Walk(g, path) && Edge(g, path[|path| - 1], n))
    requires n in g
    ensures Walk(g, path + [n])
  {
  }

  lemma CloseLoop(g: Graph, path: seq<string>, i: nat)
    requires Walk(g, path) && NoDup(path) && i < |path| && Edge(g, path[|path| - 1], path[i])
    ensures ClosedWalk(g, path[i..] + [path[i]]) && NoDup((path[i..] + [path[i]])[1..])
  {
    SuffixIsWalk(g, path, i);
    ExtendWalk(g, path[i..], path[i]);
    var c := path[i..] + [path[i]];
    forall a, b | 0 <= a < b < |c| - 1 ensures c[1..][a] != c[1..][b] {
      assert c[1..][a] == path[i + a + 1];
      assert c[1..][b] == if b == |c| - 2 then path[i] else path[i + b + 1];
    }
  }

  lemma FinishLast(g: Graph, finished: seq<string>, n: string)
    requires DepsFirst(g, finished) && n in g && n !in finished
    requires forall d :: Edge(g, n, d) ==> d in finished
    ensures DepsFirst(g, finished + [n])
  {
    var next := finished + [n];
    assert forall i :: 0 <= i <= |finished| ==> next[..i] == finished[..i];
    assert finished[..|finished|] == finished;
  }

  /** `strings.Join`. */
  function Join(parts: seq<string>, sep: string): string
  {
    if parts == [] then ""
    else if |parts| == 1 then parts[0]
    else parts[0] + sep + Join(parts[1..], sep)
  }

  /** Parts come out in order with the separator between them. */
  lemma {:induction false} JoinSnoc(parts: seq<string>, x: string, sep: string)
    ensures Join(parts + [x], sep) == if parts == [] then x else Join(parts, sep) + sep + x
    ensures Join([], sep) == ""
  {
    if parts == [] {
      assert parts + [x] == [x];
    } else {
      JoinSnoc(parts[1..], x, sep);
      assert (parts + [x])[1..] == parts[1..] + [x];
      assert parts[0] + sep + (Join(parts[1..], sep) + sep + x) == parts[0] + sep + Join(parts[1..], sep) + sep + x;
    }
  }

  /** Empty on acyclic graphs, otherwise a real cycle that repeats no service before it closes. */
  ghost predicate CycleReport(g: Graph, desc: string)
  {
    && (desc == "" <==> Acyclic(g))
    && (desc != "" ==> exists c :: ClosedWalk(g, c) && NoDup(c[1..]) && desc == Join(c, " -> "))
  }

  method FindDependencyCycle(g: Graph) returns (desc: string)
    ensures CycleReport(g, desc)
  {
    var search := new CycleSearch(g);
    var names := SortedKeys(g.Keys);
    for i := 0 to |names|
      invariant search.Valid() && search.g == g && search.path == []
      invariant forall k :: 0 <= k < i ==> search.ColorOf(names[k]) == Black
    {
      if search.ColorOf(names[i]) == White {
        var cycle := search.Visit(names[i]);
        if cycle != [] {
          return Join(cycle, " -> ");
        }
      }
      assert search.ColorOf(names[i]) != Gray;
    }
    forall n | n in g ensures !ReachesCycle(g, n) {
      assert n in names;
      ListedReachesNoCycle(g, search.finished, n);
    }
    AcyclicIffNoneReachesCycle(g);
    desc := "";
  }

  /** The guard and the sort agree: no cycle is reported exactly when no service is dropped. */
  lemma GuardAgreesWithOrder(g: Graph, out: seq<string>, desc: string)
    requires KahnResult(g, out) && CycleReport(g, desc)
    ensures desc == "" <==> forall n :: n in g ==> n in out
  {
    KahnCompleteIffAcyclic(g, out);
    GreedyPutsDepsFirst(g, out);
  }
}

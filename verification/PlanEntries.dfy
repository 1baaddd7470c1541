/** Plan lines (pkg/provider/plan.go) and what applying them does to the live state. */
module PlanEntries {
  import opened StringOrder

  datatype PlanKind = Add | Delete | Update | NoChange

  datatype Resource = Server | Volume | Firewall | FirewallRule | Workload | SecretKey | CronJob

  /**
   One line. `sub` is the part of the printed name after the colon (a firewall's port, a workload's
   secret key), `detail` the CIDRs a rule line carries, `reason` non-empty on auto-applied lines.
   */
  datatype PlanEntry = PlanEntry(
    kind: PlanKind, resource: Resource, name: string, sub: string, detail: seq<string>, reason: string)

  function Line(kind: PlanKind, resource: Resource, name: string): PlanEntry
  {
    PlanEntry(kind, resource, name, "", [], "")
  }

  ghost predicate AllUnchanged(es: seq<PlanEntry>)
  {
    forall e :: e in es ==> e.kind == NoChange
  }

  /** No resource is mentioned by two lines. */
  ghost predicate Distinct(es: seq<PlanEntry>)
  {
    forall i, j :: 0 <= i < j < |es| ==>
      es[i].resource != es[j].resource || es[i].name != es[j].name || es[i].sub != es[j].sub
  }

  /** Names of one resource kind after applying the lines in order. */
  ghost function ReplayNames(es: seq<PlanEntry>, r: Resource, names: set<string>): set<string>
  {
    if es == [] then names
    else
      var e, before := es[|es| - 1], ReplayNames(es[..|es| - 1], r, names);
      if e.resource != r then before
      else if e.kind.Add? then before + {e.name}
      else if e.kind.Delete? then before - {e.name}
      else before
  }

  lemma {:induction false} ReplayNamesSplits(a: seq<PlanEntry>, b: seq<PlanEntry>, r: Resource, names: set<string>)
    ensures ReplayNames(a + b, r, names) == ReplayNames(b, r, ReplayNames(a, r, names))
  {
    if b == [] {
      assert a + b == a;
    } else {
      var k := |b| - 1;
      ReplayNamesSplits(a, b[..k], r, names);
      assert (a + b)[..|a + b| - 1] == a + b[..k];
    }
  }

  lemma {:induction false} ReplayIgnoresOthers(es: seq<PlanEntry>, r: Resource, names: set<string>)
    requires forall e :: e in es ==> e.resource != r
    ensures ReplayNames(es, r, names) == names
  {
    if es != [] {
      var k := |es| - 1;
      assert es[k] in es && forall e :: e in es[..k] ==> e in es;
      ReplayIgnoresOthers(es[..k], r, names);
    }
  }

  ghost predicate Says(es: seq<PlanEntry>, kind: PlanKind, r: Resource, n: string)
  {
    exists e :: e in es && e.kind == kind && e.resource == r && e.name == n
  }

  /** When no name is both added and deleted, the order of the lines does not matter. */
  lemma {:induction false} ReplayByLines(es: seq<PlanEntry>, r: Resource, names: set<string>, n: string)
    requires !(Says(es, Add, r, n) && Says(es, Delete, r, n))
    ensures n in ReplayNames(es, r, names) <==> (n in names || Says(es, Add, r, n)) && !Says(es, Delete, r, n)
  {
    if es != [] {
      var init, last := es[..|es| - 1], es[|es| - 1];
      assert es == init + [last];
      forall kind ensures Says(es, kind, r, n) <==>
        Says(init, kind, r, n) || (last.kind == kind && last.resource == r && last.name == n)
      {
        assert last in es && forall e :: e in es <==> e in init || e == last;
      }
      ReplayByLines(init, r, names, n);
    }
  }

  // ---------------------------------------------------------------- declared and orphaned names

  /** One line per declared name: an addition unless it is live already. */
  ghost predicate DeclaredLines(es: seq<PlanEntry>, r: Resource, declared: seq<string>, live: set<string>)
  {
    |es| == |declared| && forall i :: 0 <= i < |es| ==>
      es[i] == Line(if declared[i] in live then NoChange else Add, r, declared[i])
  }

  method PlanDeclared(r: Resource, declared: seq<string>, live: set<string>) returns (es: seq<PlanEntry>)
    ensures DeclaredLines(es, r, declared, live)
  {
    es := [];
    for i := 0 to |declared|
      invariant DeclaredLines(es, r, declared[..i], live)
    {
      es := es + [Line(if declared[i] in live then NoChange else Add, r, declared[i])];
    }
  }

  lemma {:induction false} ReplayDeclared(es: seq<PlanEntry>, r: Resource, declared: seq<string>, live: set<string>,
                                          s: set<string>)
    requires DeclaredLines(es, r, declared, live) && live <= s
    ensures ReplayNames(es, r, s) == s + Elems(declared)
  {
    if es != [] {
      var k := |es| - 1;
      ReplayDeclared(es[..k], r, declared[..k], live, s);
      assert declared == declared[..k] + [declared[k]];
    }
  }

  /** One deletion per live name that is not wanted, as often as it is listed. */
  ghost predicate OrphanLines(es: seq<PlanEntry>, r: Resource, live: seq<string>, desired: set<string>)
  {
    && (forall e :: e in es ==> e == Line(Delete, r, e.name) && e.name in live && e.name !in desired)
    && (forall n :: n in live && n !in desired ==> Line(Delete, r, n) in es)
    && (forall n :: n !in desired ==> multiset(es)[Line(Delete, r, n)] == multiset(live)[n])
  }

  /** No name that is not wanted is listed twice. */
  ghost predicate OrphansOnce(live: seq<string>, desired: set<string>)
  {
    forall n :: n !in desired ==> multiset(live)[n] <= 1
  }

  lemma OneMoreOrphan(es: seq<PlanEntry>, r: Resource, live: seq<string>, desired: set<string>, n: string)
    requires OrphanLines(es, r, live, desired)
    ensures OrphanLines(if n in desired then es else es + [Line(Delete, r, n)], r, live + [n], desired)
  {
    var line := Line(Delete, r, n);
    forall x ensures x in live + [n] <==> x in live || x == n {
    }
    forall m | m !in desired ensures Line(Delete, r, m) == line <==> m == n {
    }
  }

  method PlanOrphans(r: Resource, live: seq<string>, desired: set<string>) returns (es: seq<PlanEntry>)
    ensures OrphanLines(es, r, live, desired)
  {
    es := [];
    for i := 0 to |live|
      invariant OrphanLines(es, r, live[..i], desired)
    {
      Snoc(live, i);
      OneMoreOrphan(es, r, live[..i], desired, live[i]);
      if live[i] !in desired {
        es := es + [Line(Delete, r, live[i])];
      }
    }
    Whole(live);
  }

  lemma {:induction false} ReplayDeletions(es: seq<PlanEntry>, r: Resource, s: set<string>)
    requires forall e :: e in es ==> e == Line(Delete, r, e.name)
    ensures forall n :: n in ReplayNames(es, r, s) <==> n in s && Line(Delete, r, n) !in es
  {
    if es != [] {
      var k := |es| - 1;
      assert es == es[..k] + [es[k]];
      ReplayDeletions(es[..k], r, s);
      assert es[k] in es;
    }
  }

  /** Each line is about a name alone and asks for confirmation. */
  ghost predicate NameLines(es: seq<PlanEntry>)
  {
    forall e :: e in es ==> e.sub == "" && e.detail == [] && e.reason == ""
  }

  lemma SectionIsBare(adds: seq<PlanEntry>, dels: seq<PlanEntry>, r: Resource, declared: seq<string>,
                      live: seq<string>)
    requires DeclaredLines(adds, r, declared, Elems(live))
    requires OrphanLines(dels, r, live, Elems(declared))
    ensures NameLines(adds + dels)
  {
    forall e | e in adds + dels ensures e.sub == "" && e.detail == [] && e.reason == "" {
      if e !in dels {
        var i :| 0 <= i < |adds| && adds[i] == e;
      } else {
        assert e == Line(Delete, r, e.name);
      }
    }
  }

  /** Additions, then deletions, turn the live names into exactly the desired ones. */
  lemma AddThenDelete(adds: seq<PlanEntry>, dels: seq<PlanEntry>, r: Resource, declared: seq<string>, live: seq<string>)
    requires DeclaredLines(adds, r, declared, Elems(live))
    requires OrphanLines(dels, r, live, Elems(declared))
    ensures ReplayNames(adds + dels, r, Elems(live)) == Elems(declared)
  {
    ReplayNamesSplits(adds, dels, r, Elems(live));
    ReplayDeclared(adds, r, declared, Elems(live), Elems(live));
    ReplayDeletions(dels, r, Elems(live) + Elems(declared));
  }

  lemma CountedOnce<T>(s: seq<T>)
    ensures NoDup(s) <==> forall x :: multiset(s)[x] <= 1
  {
    if NoDup(s) {
      NoDupCounts(s);
      assert forall x :: x !in s ==> multiset(s)[x] == 0;
    } else {
      var i, j :| 0 <= i < j < |s| && s[i] == s[j];
      CountAtTwoPlaces(s, i, j);
    }
  }

  /** The deletions name each resource once exactly when no unwanted name is listed twice. */
  lemma OrphansDistinct(dels: seq<PlanEntry>, r: Resource, live: seq<string>, desired: set<string>)
    requires OrphanLines(dels, r, live, desired)
    ensures NoDup(dels) <==> OrphansOnce(live, desired)
  {
    CountedOnce(dels);
    forall e | OrphansOnce(live, desired) ensures multiset(dels)[e] <= 1 {
      if e in dels {
        assert e == Line(Delete, r, e.name) && e.name !in desired;
      }
    }
    if NoDup(dels) {
      forall n | n !in desired ensures multiset(live)[n] <= 1 {
        assert multiset(dels)[Line(Delete, r, n)] == multiset(live)[n];
      }
    }
  }

  lemma DeclaredDistinct(adds: seq<PlanEntry>, r: Resource, declared: seq<string>, live: set<string>)
    requires DeclaredLines(adds, r, declared, live)
    ensures Distinct(adds) <==> NoDup(declared)
  {
    if Distinct(adds) {
      forall i, j | 0 <= i < j < |declared| ensures declared[i] != declared[j] {
        assert adds[i].resource == adds[j].resource && adds[i].sub == adds[j].sub;
      }
    }
  }

  /** Lines that differ in nothing but the name. */
  lemma SameKindDistinct(dels: seq<PlanEntry>, r: Resource)
    requires forall e :: e in dels ==> e == Line(Delete, r, e.name)
    ensures Distinct(dels) <==> NoDup(dels)
  {
    if NoDup(dels) {
      forall i, j | 0 <= i < j < |dels| ensures dels[i].name != dels[j].name {
        assert dels[i] in dels && dels[j] in dels && dels[i] != dels[j];
      }
    }
  }

  /** A section names each resource once exactly when nothing is declared twice and no orphan is listed twice. */
  lemma AddThenDeleteDistinct(adds: seq<PlanEntry>, dels: seq<PlanEntry>, r: Resource, declared: seq<string>,
                              live: seq<string>)
    requires DeclaredLines(adds, r, declared, Elems(live)) && OrphanLines(dels, r, live, Elems(declared))
    ensures Distinct(adds + dels) <==> NoDup(declared) && OrphansOnce(live, Elems(declared))
  {
    DeclaredDistinct(adds, r, declared, Elems(live));
    OrphansDistinct(dels, r, live, Elems(declared));
    SameKindDistinct(dels, r);
    forall x, y | x in adds && y in dels ensures x.name != y.name {
      var i :| 0 <= i < |adds| && adds[i] == x;
      assert declared[i] in Elems(declared);
    }
    if Distinct(adds) && Distinct(dels) {
      DistinctJoins(adds, dels);
    }
    if Distinct(adds + dels) {
      DistinctParts(adds, dels);
    }
  }

  lemma DistinctParts(a: seq<PlanEntry>, b: seq<PlanEntry>)
    requires Distinct(a + b)
    ensures Distinct(a) && Distinct(b)
  {
    var es := a + b;
    forall i, j | 0 <= i < j < |b|
      ensures b[i].resource != b[j].resource || b[i].name != b[j].name || b[i].sub != b[j].sub
    {
      assert es[|a| + i] == b[i] && es[|a| + j] == b[j];
    }
    forall i, j | 0 <= i < j < |a|
      ensures a[i].resource != a[j].resource || a[i].name != a[j].name || a[i].sub != a[j].sub
    {
      assert es[i] == a[i] && es[j] == a[j];
    }
  }

  lemma DistinctJoins(a: seq<PlanEntry>, b: seq<PlanEntry>)
    requires Distinct(a) && Distinct(b)
    requires forall x, y :: x in a && y in b ==> x.resource != y.resource || x.name != y.name
    ensures Distinct(a + b)
  {
    var es := a + b;
    forall i, j | 0 <= i < j < |es|
      ensures es[i].resource != es[j].resource || es[i].name != es[j].name || es[i].sub != es[j].sub
    {
      if i < |a| && j >= |a| {
        assert es[i] in a && es[j] in b;
      }
    }
  }
}

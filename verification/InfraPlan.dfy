/** The infrastructure diff (pkg/provider/plan.go) is an exact patch of the live snapshot. */
module InfraPlan {
  import opened AllowList
  import opened PlanEntries
  import opened StringOrder
  import opened Wrappers

  datatype ServerSpec = ServerSpec(name: string, role: string)

  datatype InfraConfig = InfraConfig(
    servers: seq<ServerSpec>, volumes: seq<string>, hasDomains: bool, hasTunnel: bool, firewall: seq<string>)

  datatype Snapshot = Snapshot(
    servers: seq<string>, volumes: seq<string>, firewalls: seq<string>, rules: map<string, PortAllowList>)

  const EMPTY: Snapshot := Snapshot([], [], [], map[])

  // ---------------------------------------------------------------- names

  function MasterFirewall(base: string): string { base + "-master-fw" }
  function WorkerFirewall(base: string): string { base + "-worker-fw" }
  function BuilderFirewall(base: string): string { base + "-builder-fw" }
  function CacheVolume(server: string): string { server + "-builder-cache" }

  lemma FirewallNamesDiffer(base: string)
    ensures MasterFirewall(base) != WorkerFirewall(base)
    ensures MasterFirewall(base) != BuilderFirewall(base) && WorkerFirewall(base) != BuilderFirewall(base)
  {
    assert MasterFirewall(base)[|base| + 1] == 'm';
    assert WorkerFirewall(base)[|base| + 1] == 'w';
    assert BuilderFirewall(base)[|base| + 1] == 'b';
  }

  // ---------------------------------------------------------------- roles

  datatype Role = Master | Worker | Builder

  /** Anything that is neither worker nor builder counts as a master. */
  function RoleOf(s: ServerSpec): Role
  {
    if s.role == "worker" then Worker else if s.role == "builder" then Builder else Master
  }

  ghost predicate HasRole(servers: seq<ServerSpec>, r: Role)
  {
    exists s :: s in servers && RoleOf(s) == r
  }

  lemma HasRoleSnoc(servers: seq<ServerSpec>, s: ServerSpec)
    ensures forall r :: HasRole(servers + [s], r) <==> HasRole(servers, r) || RoleOf(s) == r
  {
    forall r | HasRole(servers, r) || RoleOf(s) == r ensures HasRole(servers + [s], r) {
      var x :| x in servers + [s] && RoleOf(x) == r;
    }
  }

  /** The names of one role's servers, in declared order. */
  function NamesIn(servers: seq<ServerSpec>, r: Role): seq<string>
  {
    if servers == [] then []
    else
      var last := servers[|servers| - 1];
      NamesIn(servers[..|servers| - 1], r) + if RoleOf(last) == r then [last.name] else []
  }

  lemma {:induction false} SomeNameIffSomeServer(servers: seq<ServerSpec>, r: Role)
    ensures NamesIn(servers, r) != [] <==> HasRole(servers, r)
  {
    if servers != [] {
      var init, last := servers[..|servers| - 1], servers[|servers| - 1];
      SomeNameIffSomeServer(init, r);
      assert servers == init + [last];
      HasRoleSnoc(init, last);
    }
  }

  /** `splitByRole`, reduced to the names of each group: all of that role, sorted. */
  method SplitByRole(servers: seq<ServerSpec>)
      returns (masters: seq<string>, workers: seq<string>, builders: seq<string>)
    ensures masters == SortStrings(NamesIn(servers, Master)) && (masters != [] <==> HasRole(servers, Master))
    ensures workers == SortStrings(NamesIn(servers, Worker)) && (workers != [] <==> HasRole(servers, Worker))
    ensures builders == SortStrings(NamesIn(servers, Builder)) && (builders != [] <==> HasRole(servers, Builder))
  {
    masters, workers, builders := [], [], [];
    for i := 0 to |servers|
      invariant masters == NamesIn(servers[..i], Master)
      invariant workers == NamesIn(servers[..i], Worker)
      invariant builders == NamesIn(servers[..i], Builder)
    {
      Snoc(servers, i);
      var s := servers[i];
      match RoleOf(s)
      case Worker => workers := workers + [s.name];
      case Builder => builders := builders + [s.name];
      case Master => masters := masters + [s.name];
    }
    Whole(servers);
    SomeNameIffSomeServer(servers, Master);
    SomeNameIffSomeServer(servers, Worker);
    SomeNameIffSomeServer(servers, Builder);
    masters, workers, builders := SortStrings(masters), SortStrings(workers), SortStrings(builders);
  }

  function ServerNames(servers: seq<ServerSpec>): (names: seq<string>)
    ensures |names| == |servers| && forall i :: 0 <= i < |names| ==> names[i] == servers[i].name
  {
    if servers == [] then [] else [servers[0].name] + ServerNames(servers[1..])
  }

  function CacheNames(servers: seq<ServerSpec>): (names: seq<string>)
    ensures forall n :: n in names <==> exists s :: s in servers && RoleOf(s) == Builder && CacheVolume(s.name) == n
  {
    if servers == [] then []
    else
      assert servers == [servers[0]] + servers[1..];
      (if RoleOf(servers[0]) == Builder then [CacheVolume(servers[0].name)] else []) + CacheNames(servers[1..])
  }

  // ---------------------------------------------------------------- CIDR lists

  lemma TailCounts<T>(s: seq<T>)
    requires s != []
    ensures multiset(s[1..]) == multiset(s) - multiset{s[0]}
  {
    assert s == [s[0]] + s[1..];
  }

  lemma SameHead(a: seq<string>, b: seq<string>)
    requires Sorted(a) && Sorted(b) && multiset(a) == multiset(b) && a != [] && b != []
    ensures a[0] == b[0]
  {
    SamePermutation(a, b);
    assert a[0] in b && b[0] in a;
    LessAsymmetric(a[0], a[0]);
    LessAsymmetric(b[0], b[0]);
    LeqAntisymmetric(a[0], b[0]);
  }

  lemma {:induction false} SortedPermutationIsUnique(a: seq<string>, b: seq<string>)
    requires Sorted(a) && Sorted(b) && multiset(a) == multiset(b)
    ensures a == b
  {
    assert |multiset(a)| == |a| && |multiset(b)| == |b|;
    if a != [] {
      SameHead(a, b);
      assert a == [a[0]] + a[1..] && b == [b[0]] + b[1..];
      TailCounts(a);
      TailCounts(b);
      SortedPermutationIsUnique(a[1..], b[1..]);
    }
  }

  lemma SortedEqualIff(a: seq<string>, b: seq<string>)
    ensures SortStrings(a) == SortStrings(b) <==> multiset(a) == multiset(b)
  {
    if multiset(a) == multiset(b) {
      SortedPermutationIsUnique(SortStrings(a), SortStrings(b));
    }
  }

  /** `cidrEqual`: the same CIDRs the same number of times, in any order. */
  method CidrEqual(a: seq<string>, b: seq<string>) returns (same: bool)
    ensures same <==> multiset(a) == multiset(b)
  {
    if |a| != |b| {
      assert |multiset(a)| == |a| && |multiset(b)| == |b|;
      return false;
    }
    var aSorted, bSorted := SortStrings(a), SortStrings(b);
    for i := 0 to |aSorted|
      invariant forall k :: 0 <= k < i ==> aSorted[k] == bSorted[k]
    {
      if aSorted[i] != bSorted[i] {
        SortedEqualIff(a, b);
        return false;
      }
    }
    assert aSorted == bSorted;
    SortedEqualIff(a, b);
    return true;
  }

  // ---------------------------------------------------------------- one firewall's rules

  /** What the diff says about one port, if anything. An undeclared live SSH port is left alone. */
  ghost function PortVerdict(desired: PortAllowList, live: PortAllowList, port: string): Option<(PlanKind, seq<string>)>
  {
    if port in desired then
      if port !in live then Some((Add, desired[port]))
      else if multiset(live[port]) != multiset(desired[port]) then Some((Update, desired[port]))
      else Some((NoChange, desired[port]))
    else if port in live && port != "22" then Some((Delete, []))
    else None
  }

  /** A rule line that says what the diff says about its port. */
  ghost predicate RuleLine(e: PlanEntry, fw: string, desired: PortAllowList, live: PortAllowList)
  {
    e.resource == FirewallRule && e.name == fw && e.reason == ""
    && PortVerdict(desired, live, e.sub) == Some((e.kind, e.detail))
  }

  /** Exactly one line for every port with a verdict. */
  ghost predicate RuleDiff(fw: string, desired: PortAllowList, live: PortAllowList, es: seq<PlanEntry>)
  {
    && (forall e :: e in es ==> RuleLine(e, fw, desired, live))
    && (forall p :: PortVerdict(desired, live, p).Some? ==> exists e :: e in es && e.sub == p)
    && Distinct(es)
  }

  ghost predicate LinesFor(es: seq<PlanEntry>, ports: seq<string>, fw: string, desired: PortAllowList,
                           live: PortAllowList)
  {
    |es| == |ports| && forall k :: 0 <= k < |es| ==> RuleLine(es[k], fw, desired, live) && es[k].sub == ports[k]
  }

  lemma LinesForSnoc(es: seq<PlanEntry>, ports: seq<string>, fw: string, desired: PortAllowList, live: PortAllowList,
                     e: PlanEntry)
    requires LinesFor(es, ports, fw, desired, live) && RuleLine(e, fw, desired, live)
    ensures LinesFor(es + [e], ports + [e.sub], fw, desired, live)
  {
  }

  lemma LinesForAllPorts(es: seq<PlanEntry>, ports: seq<string>, fw: string, desired: PortAllowList,
                         live: PortAllowList)
    requires LinesFor(es, ports, fw, desired, live) && NoDup(ports)
    requires forall p :: PortVerdict(desired, live, p).Some? ==> p in ports
    ensures RuleDiff(fw, desired, live, es)
  {
    forall p | PortVerdict(desired, live, p).Some? ensures exists e :: e in es && e.sub == p {
      var k :| 0 <= k < |ports| && ports[k] == p;
      assert es[k] in es;
    }
  }

  method DeclaredPorts(fw: string, desired: PortAllowList, live: PortAllowList)
      returns (es: seq<PlanEntry>, ports: seq<string>)
    ensures LinesFor(es, ports, fw, desired, live) && NoDup(ports) && forall p :: p in ports <==> p in desired
  {
    es := [];
    ports := SortedPorts(desired);
    for i := 0 to |ports|
      invariant LinesFor(es, ports[..i], fw, desired, live)
    {
      var port := ports[i];
      var kind := Add;
      if port in live {
        var same := CidrEqual(live[port], desired[port]);
        kind := if same then NoChange else Update;
      }
      var e := PlanEntry(kind, FirewallRule, fw, port, desired[port], "");
      Snoc(ports, i);
      LinesForSnoc(es, ports[..i], fw, desired, live, e);
      es := es + [e];
    }
    Whole(ports);
  }

  method StalePorts(fw: string, desired: PortAllowList, live: PortAllowList)
      returns (es: seq<PlanEntry>, ghost ports: seq<string>)
    ensures LinesFor(es, ports, fw, desired, live) && NoDup(ports)
    ensures forall p :: p in ports <==> p in live && p !in desired && p != "22"
  {
    es, ports := [], [];
    var livePorts := SortedPorts(live);
    for i := 0 to |livePorts|
      invariant LinesFor(es, ports, fw, desired, live) && NoDup(ports)
      invariant forall p :: p in ports <==> p in livePorts[..i] && p !in desired && p != "22"
    {
      Snoc(livePorts, i);
      var port := livePorts[i];
      if port in desired || port == "22" { continue; }
      NoDupPrefix(livePorts, i + 1);
      NoDupSnoc(livePorts[..i], port);
      NoDupSnoc(ports, port);
      LinesForSnoc(es, ports, fw, desired, live, PlanEntry(Delete, FirewallRule, fw, port, [], ""));
      es := es + [PlanEntry(Delete, FirewallRule, fw, port, [], "")];
      ports := ports + [port];
    }
    Whole(livePorts);
  }

  /** `diffRules`: the declared ports in order, then the stale live ones. */
  method DiffRules(fw: string, desired: PortAllowList, live: PortAllowList) returns (es: seq<PlanEntry>)
    ensures RuleDiff(fw, desired, live, es)
  {
    var declared, ports := DeclaredPorts(fw, desired, live);
    var stale;
    ghost var gone;
    stale, gone := StalePorts(fw, desired, live);
    es := declared + stale;
    NoDupJoin(ports, gone);
    LinesForAllPorts(es, ports + gone, fw, desired, live);
  }

  /** A firewall's rules after applying the lines about it, in order. */
  ghost function ReplayRules(es: seq<PlanEntry>, fw: string, rules: PortAllowList): PortAllowList
  {
    if es == [] then rules
    else
      var e, before := es[|es| - 1], ReplayRules(es[..|es| - 1], fw, rules);
      if e.resource != FirewallRule || e.name != fw then before
      else if e.kind.Add? || e.kind.Update? then before[e.sub := e.detail]
      else if e.kind.Delete? then before - {e.sub}
      else before
  }

  /** The desired rules, up to CIDR order, plus an undeclared live SSH port as it was. */
  ghost predicate RulesPatched(desired: PortAllowList, live: PortAllowList, result: PortAllowList)
  {
    && (forall p :: p in desired ==> p in result && multiset(result[p]) == multiset(desired[p]))
    && (forall p :: p in result ==> p in desired || (p == "22" && p in live && result[p] == live[p]))
    && ("22" in live ==> "22" in result)
  }

  lemma {:induction false} ReplayRulesSplits(a: seq<PlanEntry>, b: seq<PlanEntry>, fw: string, rules: PortAllowList)
    ensures ReplayRules(a + b, fw, rules) == ReplayRules(b, fw, ReplayRules(a, fw, rules))
  {
    if b == [] {
      assert a + b == a;
    } else {
      var k := |b| - 1;
      ReplayRulesSplits(a, b[..k], fw, rules);
      assert (a + b)[..|a + b| - 1] == a + b[..k];
    }
  }

  ghost predicate SameAt(a: PortAllowList, b: PortAllowList, p: string)
  {
    (p in a <==> p in b) && (p in a ==> a[p] == b[p])
  }

  lemma {:induction false} ReplayUntouched(es: seq<PlanEntry>, fw: string, rules: PortAllowList, p: string)
    requires forall e :: e in es ==> e.sub != p
    ensures SameAt(ReplayRules(es, fw, rules), rules, p)
  {
    if es != [] {
      var k := |es| - 1;
      assert es[k] in es && forall e :: e in es[..k] ==> e in es;
      ReplayUntouched(es[..k], fw, rules, p);
    }
  }

  /** In a plan that mentions each port once, that line alone decides the port. */
  lemma ReplayDecides(es: seq<PlanEntry>, fw: string, live: PortAllowList, i: nat)
    requires i < |es| && es[i].resource == FirewallRule && es[i].name == fw
    requires forall j :: 0 <= j < |es| && j != i ==> es[j].sub != es[i].sub
    ensures var r, p := ReplayRules(es, fw, live), es[i].sub;
      match es[i].kind
      case Delete => p !in r
      case NoChange => SameAt(r, live, p)
      case _ => p in r && r[p] == es[i].detail
  {
    var e, before, after := es[i], es[..i], es[i + 1..];
    assert es == before + [e] + after;
    ReplayRulesSplits(before + [e], after, fw, live);
    assert (before + [e])[..i] == before;
    ReplayUntouched(before, fw, live, e.sub);
    ReplayUntouched(after, fw, ReplayRules(before + [e], fw, live), e.sub);
  }

  lemma RuleDiffIsAPatch(fw: string, desired: PortAllowList, live: PortAllowList, es: seq<PlanEntry>)
    requires RuleDiff(fw, desired, live, es)
    ensures RulesPatched(desired, live, ReplayRules(es, fw, live))
  {
    var r := ReplayRules(es, fw, live);
    forall p ensures p in desired ==> p in r && multiset(r[p]) == multiset(desired[p])
             ensures p in r ==> p in desired || (p == "22" && p in live && r[p] == live[p])
             ensures p == "22" && p in live ==> p in r
    {
      if PortVerdict(desired, live, p).Some? {
        var e :| e in es && e.sub == p;
        var i :| 0 <= i < |es| && es[i] == e;
        assert RuleLine(e, fw, desired, live);
        assert forall j :: 0 <= j < |es| ==> RuleLine(es[j], fw, desired, live);
        ReplayDecides(es, fw, live, i);
      } else {
        ReplayUntouched(es, fw, live, p);
      }
    }
  }

  // ---------------------------------------------------------------- the whole snapshot

  function DesiredFirewalls(base: string, masters: bool, workers: bool, builders: bool): set<string>
  {
    (if masters then {MasterFirewall(base)} else {}) + (if workers then {WorkerFirewall(base)} else {})
      + (if builders then {BuilderFirewall(base)} else {})
  }

  ghost function WantedFirewalls(cfg: InfraConfig, base: string): set<string>
  {
    DesiredFirewalls(base, HasRole(cfg.servers, Master), HasRole(cfg.servers, Worker), HasRole(cfg.servers, Builder))
  }

  function RulesOf(m: map<string, PortAllowList>, fw: string): PortAllowList
  {
    if fw in m then m[fw] else map[]
  }

  ghost function VolumeNames(cfg: InfraConfig): seq<string>
  {
    cfg.volumes + CacheNames(cfg.servers)
  }

  /** The allow-list a firewall should carry: user and web rules on the master, base rules elsewhere. */
  ghost predicate WantedRules(cfg: InfraConfig, base: string, fw: string, rules: PortAllowList)
  {
    if fw == MasterFirewall(base)
    then
      && (forall p :: Get(rules, p) == Allowed(cfg.hasDomains && !cfg.hasTunnel, Groups(cfg.firewall), p))
      && (forall p :: p in rules ==> rules[p] != [])
    else rules == map[]
  }

  lemma {:induction false} ReplayRulesIgnoresOthers(es: seq<PlanEntry>, fw: string, rules: PortAllowList)
    requires forall e :: e in es ==> e.resource != FirewallRule || e.name != fw
    ensures ReplayRules(es, fw, rules) == rules
  {
    if es != [] {
      var k := |es| - 1;
      assert es[k] in es && forall e :: e in es[..k] ==> e in es;
      ReplayRulesIgnoresOthers(es[..k], fw, rules);
    }
  }

  /** After the lines, firewall `fw` carries what it should. */
  ghost predicate Patched(es: seq<PlanEntry>, fw: string, wanted: PortAllowList, live: PortAllowList)
  {
    RulesPatched(wanted, live, ReplayRules(es, fw, live))
  }

  /** Rule lines only for firewalls that exist already; new and deleted ones need none. */
  method PlanAllRules(fws: seq<string>, wanted: map<string, PortAllowList>, liveFW: set<string>,
                      liveRules: map<string, PortAllowList>) returns (es: seq<PlanEntry>)
    requires NoDup(fws) && forall fw :: fw in fws ==> fw in wanted
    ensures Distinct(es) && forall e :: e in es ==> e.resource == FirewallRule
    ensures forall fw :: fw in fws && fw in liveFW ==> Patched(es, fw, wanted[fw], RulesOf(liveRules, fw))
  {
    es := [];
    for i := 0 to |fws|
      invariant Distinct(es) && forall e :: e in es ==> e.resource == FirewallRule && e.name in fws[..i]
      invariant forall fw :: fw in fws[..i] && fw in liveFW ==> Patched(es, fw, wanted[fw], RulesOf(liveRules, fw))
    {
      Snoc(fws, i);
      var fw := fws[i];
      if fw !in liveFW { continue; }
      NoDupSnoc(fws[..i], fw);
      NoDupPrefix(fws, i + 1);
      var lines := DiffRules(fw, wanted[fw], RulesOf(liveRules, fw));
      DistinctJoins(es, lines);
      forall f | f in fws[..i + 1] && f in liveFW ensures Patched(es + lines, f, wanted[f], RulesOf(liveRules, f)) {
        var live := RulesOf(liveRules, f);
        ReplayRulesSplits(es, lines, f, live);
        if f == fw {
          ReplayRulesIgnoresOthers(es, f, live);
          RuleDiffIsAPatch(f, wanted[f], live, lines);
        } else {
          ReplayRulesIgnoresOthers(lines, f, ReplayRules(es, f, live));
        }
      }
      es := es + lines;
    }
    Whole(fws);
  }

  /** The lines about one kind of name, wherever they stand in the plan, do their work alone. */
  lemma ReplaySegment(before: seq<PlanEntry>, mid: seq<PlanEntry>, after: seq<PlanEntry>, r: Resource,
                      names: set<string>)
    requires forall e :: e in before || e in after ==> e.resource != r
    ensures ReplayNames(before + mid + after, r, names) == ReplayNames(mid, r, names)
  {
    ReplayNamesSplits(before + mid, after, r, names);
    ReplayNamesSplits(before, mid, r, names);
    ReplayIgnoresOthers(before, r, names);
    ReplayIgnoresOthers(after, r, ReplayNames(mid, r, names));
  }

  ghost predicate About(es: seq<PlanEntry>, r: Resource)
  {
    forall e :: e in es ==> e.resource == r
  }

  /** A full section of the plan: additions and unchanged lines, then deletions. */
  ghost predicate Section(es: seq<PlanEntry>, r: Resource, declared: seq<string>, live: seq<string>)
  {
    && About(es, r) && NameLines(es) && ReplayNames(es, r, Elems(live)) == Elems(declared)
    && (Distinct(es) <==> NoDup(declared) && OrphansOnce(live, Elems(declared)))
  }

  method PlanSection(r: Resource, declared: seq<string>, live: seq<string>, sortedLive: seq<string>)
      returns (es: seq<PlanEntry>)
    requires multiset(sortedLive) == multiset(live)
    ensures Section(es, r, declared, live)
  {
    SamePermutation(live, sortedLive);
    assert Elems(sortedLive) == Elems(live);
    var adds := PlanDeclared(r, declared, set n | n in live);
    var dels := PlanOrphans(r, sortedLive, set n | n in declared);
    es := adds + dels;
    AddThenDelete(adds, dels, r, declared, sortedLive);
    AddThenDeleteDistinct(adds, dels, r, declared, sortedLive);
    SectionIsBare(adds, dels, r, declared, sortedLive);
  }

  /** Replaying the plan on the snapshot gives precisely the desired servers, volumes and firewalls. */
  ghost predicate PatchesNames(cfg: InfraConfig, base: string, snap: Snapshot, es: seq<PlanEntry>)
  {
    && ReplayNames(es, Server, Elems(snap.servers)) == Elems(ServerNames(cfg.servers))
    && ReplayNames(es, Volume, Elems(snap.volumes)) == Elems(VolumeNames(cfg))
    && ReplayNames(es, Firewall, Elems(snap.firewalls)) == WantedFirewalls(cfg, base)
  }

  /** Every firewall that survives ends with the rules it should carry. */
  ghost predicate PatchesRules(cfg: InfraConfig, base: string, snap: Snapshot, es: seq<PlanEntry>)
  {
    forall fw :: fw in WantedFirewalls(cfg, base) && fw in snap.firewalls ==>
      exists rules :: WantedRules(cfg, base, fw, rules) && Patched(es, fw, rules, RulesOf(snap.rules, fw))
  }

  /**
   What it takes for the plan to name each resource once: nothing is declared twice, a builder's cache volume
   included, and no undeclared live name is listed twice.
   */
  ghost predicate NamedOnce(cfg: InfraConfig, live: Snapshot)
  {
    && NoDup(ServerNames(cfg.servers)) && OrphansOnce(live.servers, Elems(ServerNames(cfg.servers)))
    && NoDup(VolumeNames(cfg)) && OrphansOnce(live.volumes, Elems(VolumeNames(cfg)))
  }

  lemma JoinSections(s: seq<PlanEntry>, v: seq<PlanEntry>, f: seq<PlanEntry>, r: seq<PlanEntry>)
    requires About(s, Server) && About(v, Volume) && About(f, Firewall) && About(r, FirewallRule)
    ensures var es := s + v + f + r;
      && (forall names :: ReplayNames(es, Server, names) == ReplayNames(s, Server, names))
      && (forall names :: ReplayNames(es, Volume, names) == ReplayNames(v, Volume, names))
      && (forall names :: ReplayNames(es, Firewall, names) == ReplayNames(f, Firewall, names))
      && (forall fw, rules :: ReplayRules(es, fw, rules) == ReplayRules(r, fw, rules))
      && (Distinct(es) <==> Distinct(s) && Distinct(v) && Distinct(f) && Distinct(r))
  {
    var es := s + v + f + r;
    assert es == [] + s + (v + f + r) && es == s + v + (f + r) && es == (s + v) + f + r && es == (s + v + f) + r;
    forall names ensures ReplayNames(es, Server, names) == ReplayNames(s, Server, names)
                 ensures ReplayNames(es, Volume, names) == ReplayNames(v, Volume, names)
                 ensures ReplayNames(es, Firewall, names) == ReplayNames(f, Firewall, names)
    {
      ReplaySegment([], s, v + f + r, Server, names);
      ReplaySegment(s, v, f + r, Volume, names);
      ReplaySegment(s + v, f, r, Firewall, names);
    }
    forall fw, rules ensures ReplayRules(es, fw, rules) == ReplayRules(r, fw, rules) {
      ReplayRulesSplits(s + v + f, r, fw, rules);
      ReplayRulesIgnoresOthers(s + v + f, fw, rules);
    }
    if Distinct(s) && Distinct(v) && Distinct(f) && Distinct(r) {
      DistinctJoins(s, v);
      DistinctJoins(s + v, f);
      DistinctJoins(s + v + f, r);
    }
    if Distinct(es) {
      DistinctParts(s + v + f, r);
      DistinctParts(s + v, f);
      DistinctParts(s, v);
    }
  }

  /** Section by section, the whole plan inherits what its sections promise. */
  lemma SectionsMakeThePatch(cfg: InfraConfig, base: string, live: Snapshot, servers: seq<PlanEntry>,
                             volumes: seq<PlanEntry>, firewalls: seq<PlanEntry>, rules: seq<PlanEntry>)
    requires Section(servers, Server, ServerNames(cfg.servers), live.servers)
    requires Section(volumes, Volume, VolumeNames(cfg), live.volumes)
    requires About(firewalls, Firewall) && NameLines(firewalls) && Distinct(firewalls)
    requires ReplayNames(firewalls, Firewall, Elems(live.firewalls)) == WantedFirewalls(cfg, base)
    requires About(rules, FirewallRule) && Distinct(rules)
    ensures var es := servers + volumes + firewalls + rules;
      && PatchesNames(cfg, base, live, es)
      && (PatchesRules(cfg, base, live, rules) ==> PatchesRules(cfg, base, live, es))
      && (Distinct(es) <==> NamedOnce(cfg, live))
      && (forall e :: e in es && e.resource != FirewallRule ==> e.sub == "" && e.detail == [] && e.reason == "")
  {
    JoinSections(servers, volumes, firewalls, rules);
    var es := servers + volumes + firewalls + rules;
    if PatchesRules(cfg, base, live, rules) {
      forall fw | fw in WantedFirewalls(cfg, base) && fw in live.firewalls
        ensures exists rs :: WantedRules(cfg, base, fw, rs) && Patched(es, fw, rs, RulesOf(live.rules, fw))
      {
        var rs :| WantedRules(cfg, base, fw, rs) && Patched(rules, fw, rs, RulesOf(live.rules, fw));
        assert Patched(es, fw, rs, RulesOf(live.rules, fw));
      }
    }
  }

  /** Existence of the per-role firewalls. */
  method PlanFirewalls(base: string, desired: set<string>, live: seq<string>)
      returns (es: seq<PlanEntry>, desiredSorted: seq<string>)
    ensures NoDup(desiredSorted) && forall fw :: fw in desiredSorted <==> fw in desired
    ensures About(es, Firewall) && NameLines(es) && Distinct(es) && ReplayNames(es, Firewall, Elems(live)) == desired
  {
    desiredSorted := SortedKeys(desired);
    var liveSorted := SortedKeys(set f | f in live);
    es := PlanSection(Firewall, desiredSorted, liveSorted, liveSorted);
    assert Elems(liveSorted) == Elems(live) && Elems(desiredSorted) == desired;
    CountedOnce(liveSorted);
  }

  /** The per-port lines of every firewall that is both desired and live. */
  method PlanRules(cfg: InfraConfig, base: string, hasMasters: bool, desiredSorted: seq<string>, live: Snapshot)
      returns (r: Result<seq<PlanEntry>, AllowList.Error>)
    requires hasMasters <==> HasRole(cfg.servers, Master)
    requires NoDup(desiredSorted) && forall fw :: fw in desiredSorted <==> fw in WantedFirewalls(cfg, base)
    ensures r.Err? <==> hasMasters && exists a :: a in cfg.firewall && IsPreset(a)
    ensures r.Ok? ==> About(r.value, FirewallRule) && Distinct(r.value) && PatchesRules(cfg, base, live, r.value)
  {
    var wanted: map<string, PortAllowList> := map fw | fw in desiredSorted :: map[];
    FirewallNamesDiffer(base);
    if hasMasters {
      var allow := FirewallAllowList(cfg.hasDomains, cfg.hasTunnel, cfg.firewall);
      if allow.Err? {
        return Err(allow.error);
      }
      wanted := wanted[MasterFirewall(base) := allow.value];
    }
    var liveFW := set f | f in live.firewalls;
    var rules := PlanAllRules(desiredSorted, wanted, liveFW, live.rules);
    forall fw | fw in WantedFirewalls(cfg, base) && fw in live.firewalls
      ensures exists rs :: WantedRules(cfg, base, fw, rs) && Patched(rules, fw, rs, RulesOf(live.rules, fw))
    {
      assert fw in desiredSorted && WantedRules(cfg, base, fw, wanted[fw]);
      assert Patched(rules, fw, wanted[fw], RulesOf(live.rules, fw));
    }
    return Ok(rules);
  }

  // ---------------------------------------------------------------- what each role gets

  ghost predicate SomeServer(servers: seq<ServerSpec>, role: string)
  {
    exists s :: s in servers && s.role == role
  }

  /** Some server is neither a worker nor a builder. */
  ghost predicate SomeMaster(servers: seq<ServerSpec>)
  {
    exists s :: s in servers && s.role != "worker" && s.role != "builder"
  }

  /** One firewall for each role that occurs, and nothing else. */
  ghost predicate FirewallsByRole(cfg: InfraConfig, base: string, firewalls: set<string>)
  {
    forall f :: f in firewalls <==>
      || (f == base + "-master-fw" && SomeMaster(cfg.servers))
      || (f == base + "-worker-fw" && SomeServer(cfg.servers, "worker"))
      || (f == base + "-builder-fw" && SomeServer(cfg.servers, "builder"))
  }

  /** The declared volumes, and a cache volume for each builder. */
  ghost predicate VolumesByRole(cfg: InfraConfig, volumes: set<string>)
  {
    forall v :: v in volumes <==>
      v in cfg.volumes || exists s :: s in cfg.servers && s.role == "builder" && v == s.name + "-builder-cache"
  }

  /**
   The rules a firewall ends with: on the master's each port has the user's sources, or the public ones of the web
   ports with domains and no tunnel; elsewhere there is none. An undeclared SSH port stays as it was.
   */
  ghost predicate EndsWith(cfg: InfraConfig, base: string, fw: string, live: PortAllowList, result: PortAllowList)
  {
    forall p ::
      var user := CidrsFor(Groups(cfg.firewall), p);
      var wanted :=
        if fw != base + "-master-fw" then []
        else if user != [] then user
        else if cfg.hasDomains && !cfg.hasTunnel && (p == "80" || p == "443") then ["0.0.0.0/0", "::/0"]
        else [];
      if wanted != [] then p in result && multiset(result[p]) == multiset(wanted)
      else if p == "22" then SameAt(result, live, p)
      else p !in result
  }

  lemma RolesDecide(cfg: InfraConfig, base: string)
    ensures FirewallsByRole(cfg, base, WantedFirewalls(cfg, base)) && VolumesByRole(cfg, Elems(VolumeNames(cfg)))
  {
    forall s | s in cfg.servers
      ensures RoleOf(s) == Master <==> s.role != "worker" && s.role != "builder"
      ensures RoleOf(s) == Worker <==> s.role == "worker"
      ensures RoleOf(s) == Builder <==> s.role == "builder"
    {
      assert |"worker"| != |"builder"|;
    }
    assert HasRole(cfg.servers, Master) <==> SomeMaster(cfg.servers);
    assert HasRole(cfg.servers, Worker) <==> SomeServer(cfg.servers, "worker");
    assert HasRole(cfg.servers, Builder) <==> SomeServer(cfg.servers, "builder");
  }

  lemma RulesEnd(cfg: InfraConfig, base: string, fw: string, live: PortAllowList, rules: PortAllowList,
                 result: PortAllowList)
    requires WantedRules(cfg, base, fw, rules) && RulesPatched(rules, live, result)
    ensures EndsWith(cfg, base, fw, live, result)
  {
    forall p
      ensures fw == base + "-master-fw" ==>
        Get(rules, p) == Allowed(cfg.hasDomains && !cfg.hasTunnel, Groups(cfg.firewall), p)
      ensures Allowed(cfg.hasDomains && !cfg.hasTunnel, Groups(cfg.firewall), p) ==
        if CidrsFor(Groups(cfg.firewall), p) != [] then CidrsFor(Groups(cfg.firewall), p)
        else if cfg.hasDomains && !cfg.hasTunnel && (p == "80" || p == "443") then ["0.0.0.0/0", "::/0"]
        else []
    {
      WebPortsAreOpen(cfg.hasDomains, cfg.hasTunnel, Groups(cfg.firewall), p);
    }
  }

  /** What the plan makes of the snapshot, role by role. */
  ghost predicate PlansByRole(cfg: InfraConfig, base: string, snap: Snapshot, es: seq<PlanEntry>)
  {
    && (forall n :: n in ReplayNames(es, Server, Elems(snap.servers)) <==> exists s :: s in cfg.servers && s.name == n)
    && FirewallsByRole(cfg, base, ReplayNames(es, Firewall, Elems(snap.firewalls)))
    && VolumesByRole(cfg, ReplayNames(es, Volume, Elems(snap.volumes)))
  }

  ghost predicate EndsByRole(cfg: InfraConfig, base: string, snap: Snapshot, es: seq<PlanEntry>)
  {
    forall fw :: fw in ReplayNames(es, Firewall, Elems(snap.firewalls)) && fw in snap.firewalls ==>
      EndsWith(cfg, base, fw, RulesOf(snap.rules, fw), ReplayRules(es, fw, RulesOf(snap.rules, fw)))
  }

  lemma PatchesByRole(cfg: InfraConfig, base: string, snap: Snapshot, es: seq<PlanEntry>)
    requires PatchesNames(cfg, base, snap, es)
    ensures PlansByRole(cfg, base, snap, es)
    ensures PatchesRules(cfg, base, snap, es) ==> EndsByRole(cfg, base, snap, es)
  {
    RolesDecide(cfg, base);
    forall n ensures n in ServerNames(cfg.servers) <==> exists s :: s in cfg.servers && s.name == n {
      if n in ServerNames(cfg.servers) {
        var i :| 0 <= i < |cfg.servers| && ServerNames(cfg.servers)[i] == n;
        assert cfg.servers[i].name == n;
      }
      if s :| s in cfg.servers && s.name == n {
        var i :| 0 <= i < |cfg.servers| && cfg.servers[i] == s;
        assert ServerNames(cfg.servers)[i] == n;
      }
    }
    if PatchesRules(cfg, base, snap, es) {
      forall fw | fw in WantedFirewalls(cfg, base) && fw in snap.firewalls
        ensures EndsWith(cfg, base, fw, RulesOf(snap.rules, fw), ReplayRules(es, fw, RulesOf(snap.rules, fw)))
      {
        var rules :| WantedRules(cfg, base, fw, rules) && Patched(es, fw, rules, RulesOf(snap.rules, fw));
        RulesEnd(cfg, base, fw, RulesOf(snap.rules, fw), rules, ReplayRules(es, fw, RulesOf(snap.rules, fw)));
      }
    }
  }

  /** The planner; without a snapshot (first deploy) everything desired is an addition and no rule is diffed. */
  method ComputeInfraPlan(cfg: InfraConfig, base: string, snap: Option<Snapshot>)
      returns (r: Result<seq<PlanEntry>, AllowList.Error>)
    ensures r.Err? <==> snap.Some? && HasRole(cfg.servers, Master) && exists a :: a in cfg.firewall && IsPreset(a)
    ensures r.Ok? ==> PatchesNames(cfg, base, if snap.Some? then snap.value else EMPTY, r.value)
    ensures r.Ok? && snap.Some? ==> PatchesRules(cfg, base, snap.value, r.value)
    ensures r.Ok? ==>
      forall e :: e in r.value && e.resource != FirewallRule ==> e.sub == "" && e.detail == [] && e.reason == ""
    ensures r.Ok? ==> PlansByRole(cfg, base, if snap.Some? then snap.value else EMPTY, r.value)
    ensures r.Ok? && snap.Some? ==> EndsByRole(cfg, base, snap.value, r.value)
    ensures r.Ok? ==> (Distinct(r.value) <==> NamedOnce(cfg, if snap.Some? then snap.value else EMPTY))
  {
    var live := if snap.Some? then snap.value else EMPTY;
    var servers := PlanSection(Server, ServerNames(cfg.servers), live.servers, SortStrings(live.servers));
    var volumes := PlanSection(Volume, cfg.volumes + CacheNames(cfg.servers), live.volumes, SortStrings(live.volumes));
    var masters, workers, builders := SplitByRole(cfg.servers);
    var desiredFW := DesiredFirewalls(base, masters != [], workers != [], builders != []);
    var firewalls, desiredSorted := PlanFirewalls(base, desiredFW, live.firewalls);
    var rules: seq<PlanEntry> := [];
    if snap.Some? {
      var diffed := PlanRules(cfg, base, masters != [], desiredSorted, live);
      if diffed.Err? {
        return diffed;
      }
      rules := diffed.value;
    }
    SectionsMakeThePatch(cfg, base, live, servers, volumes, firewalls, rules);
    var all := servers + volumes + firewalls + rules;
    PatchesByRole(cfg, base, live, all);
    return Ok(all);
  }

  // ---------------------------------------------------------------- one name, two volumes

  lemma CacheVolumeTells(a: string, b: string)
    ensures CacheVolume(a) == CacheVolume(b) ==> a == b
  {
    if CacheVolume(a) == CacheVolume(b) {
      assert |a| == |b| && CacheVolume(a)[..|a|] == a && CacheVolume(b)[..|b|] == b;
    }
  }

  lemma OtherServersDiffer(servers: seq<ServerSpec>)
    requires servers != [] && NoDup(ServerNames(servers))
    ensures NoDup(ServerNames(servers[1..])) && forall s :: s in servers[1..] ==> s.name != servers[0].name
  {
    var names, rest := ServerNames(servers), servers[1..];
    forall i, j | 0 <= i < j < |rest| ensures ServerNames(rest)[i] != ServerNames(rest)[j] {
      assert names[i + 1] != names[j + 1];
    }
    forall s | s in rest ensures s.name != servers[0].name {
      var i :| 0 <= i < |rest| && rest[i] == s;
      assert names[0] != names[i + 1];
    }
  }

  lemma {:induction false} CachesAreDistinct(servers: seq<ServerSpec>)
    requires NoDup(ServerNames(servers))
    ensures NoDup(CacheNames(servers))
  {
    if servers != [] {
      var rest, cache := servers[1..], CacheVolume(servers[0].name);
      OtherServersDiffer(servers);
      CachesAreDistinct(rest);
      forall s | s in rest ensures CacheVolume(s.name) != cache {
        CacheVolumeTells(s.name, servers[0].name);
      }
      assert cache !in CacheNames(rest);
      NoDupJoin([cache], CacheNames(rest));
      assert [] + CacheNames(rest) == CacheNames(rest);
    }
  }

  lemma SharedNameRepeats(a: seq<string>, b: seq<string>, x: string)
    requires x in a && x in b
    ensures !NoDup(a + b)
  {
    var i :| 0 <= i < |a| && a[i] == x;
    var j :| 0 <= j < |b| && b[j] == x;
    assert (a + b)[i] == (a + b)[|a| + j];
  }

  /**
   With distinct servers and distinct declared volumes, volumes collide exactly when one has a builder's cache name.
   */
  lemma VolumesCollideExactly(cfg: InfraConfig)
    requires NoDup(ServerNames(cfg.servers)) && NoDup(cfg.volumes)
    ensures NoDup(VolumeNames(cfg)) <==>
      forall s :: s in cfg.servers && RoleOf(s) == Builder ==> CacheVolume(s.name) !in cfg.volumes
  {
    CachesAreDistinct(cfg.servers);
    if forall s :: s in cfg.servers && RoleOf(s) == Builder ==> CacheVolume(s.name) !in cfg.volumes {
      NoDupJoin(cfg.volumes, CacheNames(cfg.servers));
    } else {
      var s :| s in cfg.servers && RoleOf(s) == Builder && CacheVolume(s.name) in cfg.volumes;
      SharedNameRepeats(cfg.volumes, CacheNames(cfg.servers), CacheVolume(s.name));
    }
  }

  /** A builder `b` beside a declared volume `b-builder-cache`: two lines for one volume, whatever is live. */
  lemma CacheNameDeclaredTwice(cfg: InfraConfig, live: Snapshot)
    requires cfg.servers == [ServerSpec("m", "master"), ServerSpec("b", "builder")] && cfg.volumes == [CacheVolume("b")]
    ensures !NamedOnce(cfg, live)
  {
    assert ServerNames(cfg.servers) == ["m", "b"] && "m"[0] != "b"[0];
    VolumesCollideExactly(cfg);
    assert cfg.servers[1] in cfg.servers && RoleOf(cfg.servers[1]) == Builder;
    assert cfg.volumes[0] in cfg.volumes;
  }
}

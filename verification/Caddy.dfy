/**
 Caddy's routes (pkg/kube/caddy_config.go, pkg/kube/caddy.go): building a configuration from the services'
 domains, and reading the same routes back from the dial addresses of a running Caddy.
 */
module Caddy {
  import opened Decimal
  import opened StringOrder
  import opened Strings
  import opened Wrappers

  datatype CaddyRoute = CaddyRoute(service: string, port: int, domains: seq<string>)

  /** A route as Caddy stores it: host lists, and for each handler its dial addresses. */
  datatype StoredRoute = StoredRoute(match_: seq<seq<string>>, handle: seq<seq<string>>)

  datatype Policy = Policy(subjects: seq<string>, email: string)

  datatype CaddyConfig = CaddyConfig(routes: seq<StoredRoute>, policies: seq<Policy>)

  datatype Error = NoNamespace | EmptyService | NoPort(service: string)

  const CLUSTER_SUFFIX := ".svc.cluster.local"

  // ---------------------------------------------------------------- stable order by service

  ghost predicate SortedByService(rs: seq<CaddyRoute>)
  {
    forall i, j :: 0 <= i < j < |rs| ==> Leq(rs[i].service, rs[j].service)
  }

  /** The routes of one service, in order. */
  ghost function ForService(rs: seq<CaddyRoute>, svc: string): seq<CaddyRoute>
  {
    if rs == [] then []
    else (if rs[0].service == svc then [rs[0]] else []) + ForService(rs[1..], svc)
  }

  lemma {:induction false} ForServiceHas(rs: seq<CaddyRoute>, svc: string, x: CaddyRoute)
    ensures x in ForService(rs, svc) <==> x in rs && x.service == svc
  {
    if rs != [] {
      ForServiceHas(rs[1..], svc, x);
      assert rs == [rs[0]] + rs[1..];
    }
  }

  /** The outcome of any stable sort by service. */
  ghost predicate StablySorted(rs: seq<CaddyRoute>, sorted: seq<CaddyRoute>)
  {
    SortedByService(sorted) && forall svc :: ForService(sorted, svc) == ForService(rs, svc)
  }

  lemma {:induction false} StableSortIsUnique(a: seq<CaddyRoute>, b: seq<CaddyRoute>)
    requires SortedByService(a) && SortedByService(b)
    requires forall svc :: ForService(a, svc) == ForService(b, svc)
    ensures a == b
  {
    if a == [] {
      if b != [] {
        ForServiceHas(b, b[0].service, b[0]);
      }
    } else {
      var svc := a[0].service;
      ForServiceHas(a, svc, a[0]);
      ForServiceHas(b, svc, a[0]);
      ForServiceHas(b, b[0].service, b[0]);
      ForServiceHas(a, b[0].service, b[0]);
      SmallestFirst(a, b[0]);
      SmallestFirst(b, a[0]);
      LeqAntisymmetric(svc, b[0].service);
      assert ForService(a, svc)[0] == a[0] && ForService(b, svc)[0] == b[0];
      forall s ensures ForService(a[1..], s) == ForService(b[1..], s) {
        TailForService(a, s);
        TailForService(b, s);
      }
      StableSortIsUnique(a[1..], b[1..]);
      assert a == [a[0]] + a[1..] && b == [b[0]] + b[1..];
    }
  }

  lemma SmallestFirst(rs: seq<CaddyRoute>, r: CaddyRoute)
    requires SortedByService(rs) && r in rs
    ensures Leq(rs[0].service, r.service)
  {
    LessAsymmetric(r.service, r.service);
  }

  lemma TailForService(rs: seq<CaddyRoute>, svc: string)
    requires rs != []
    ensures ForService(rs[1..], svc) == if rs[0].service == svc then ForService(rs, svc)[1..] else ForService(rs, svc)
  {
  }

  /** Put `x` in front of the first route whose service is not smaller. */
  function InsertRoute(x: CaddyRoute, rs: seq<CaddyRoute>): (r: seq<CaddyRoute>)
    ensures r != [] && (r[0] == x || (rs != [] && Less(rs[0].service, x.service) && r[0] == rs[0]))
  {
    if rs != [] && Less(rs[0].service, x.service) then [rs[0]] + InsertRoute(x, rs[1..]) else [x] + rs
  }

  /** `sort.SliceStable` by service. */
  function StableSort(rs: seq<CaddyRoute>): seq<CaddyRoute>
  {
    if rs == [] then [] else InsertRoute(rs[0], StableSort(rs[1..]))
  }

  lemma PrependRoute(x: CaddyRoute, rs: seq<CaddyRoute>)
    requires SortedByService(rs) && (rs == [] || Leq(x.service, rs[0].service))
    ensures SortedByService([x] + rs)
  {
    forall j | 0 <= j < |rs| ensures Leq(x.service, rs[j].service) {
      if j > 0 { LeqTransitive(x.service, rs[0].service, rs[j].service); }
    }
  }

  lemma {:induction false} InsertKeepsOrder(x: CaddyRoute, rs: seq<CaddyRoute>)
    requires SortedByService(rs)
    ensures SortedByService(InsertRoute(x, rs))
  {
    if rs != [] && Less(rs[0].service, x.service) {
      InsertKeepsOrder(x, rs[1..]);
      LessAsymmetric(rs[0].service, x.service);
      PrependRoute(rs[0], InsertRoute(x, rs[1..]));
    } else {
      PrependRoute(x, rs);
    }
  }

  lemma {:induction false} InsertIsStable(x: CaddyRoute, rs: seq<CaddyRoute>, svc: string)
    ensures ForService(InsertRoute(x, rs), svc) == ForService([x] + rs, svc)
  {
    if rs != [] && Less(rs[0].service, x.service) {
      LessAsymmetric(rs[0].service, x.service);
      InsertIsStable(x, rs[1..], svc);
      ForServiceCons(rs[0], InsertRoute(x, rs[1..]), svc);
      ForServiceCons(x, rs[1..], svc);
      ForServiceCons(x, rs, svc);
      var p: seq<CaddyRoute> := if x.service == svc then [x] else [];
      var q: seq<CaddyRoute> := if rs[0].service == svc then [rs[0]] else [];
      SwapEmpty(p, q, ForService(rs[1..], svc));
    }
  }

  lemma SwapEmpty(p: seq<CaddyRoute>, q: seq<CaddyRoute>, rest: seq<CaddyRoute>)
    requires p == [] || q == []
    ensures p + (q + rest) == q + (p + rest)
  {
  }

  lemma ForServiceCons(x: CaddyRoute, rs: seq<CaddyRoute>, svc: string)
    ensures ForService([x] + rs, svc) == (if x.service == svc then [x] else []) + ForService(rs, svc)
  {
    assert ([x] + rs)[1..] == rs;
  }

  lemma {:induction false} StableSortSorts(rs: seq<CaddyRoute>)
    ensures StablySorted(rs, StableSort(rs))
  {
    if rs != [] {
      var rest := StableSort(rs[1..]);
      StableSortSorts(rs[1..]);
      InsertKeepsOrder(rs[0], rest);
      forall svc ensures ForService(StableSort(rs), svc) == ForService(rs, svc) {
        InsertIsStable(rs[0], rest, svc);
        ForServiceCons(rs[0], rest, svc);
      }
    }
  }

  lemma StableSortKeepsMembers(rs: seq<CaddyRoute>, r: CaddyRoute)
    ensures r in StableSort(rs) <==> r in rs
  {
    StableSortSorts(rs);
    ForServiceHas(StableSort(rs), r.service, r);
    ForServiceHas(rs, r.service, r);
  }

  // ---------------------------------------------------------------- building

  function Dial(service: string, namespace: string, port: int): string
  {
    service + "." + namespace + CLUSTER_SUFFIX + ":" + Dec(port)
  }

  function Stored(r: CaddyRoute, namespace: string): StoredRoute
  {
    StoredRoute([r.domains], [[Dial(r.service, namespace, r.port)]])
  }

  /** The routes with a domain, in order. */
  function Served(rs: seq<CaddyRoute>): seq<CaddyRoute>
  {
    if rs == [] then []
    else
      var last := rs[|rs| - 1];
      Served(rs[..|rs| - 1]) + if last.domains == [] then [] else [last]
  }

  lemma {:induction false} ServedHas(rs: seq<CaddyRoute>, x: CaddyRoute)
    ensures x in Served(rs) <==> x in rs && x.domains != []
  {
    if rs != [] {
      var k := |rs| - 1;
      ServedHas(rs[..k], x);
      assert rs == rs[..k] + [rs[k]];
    }
  }

  function StoredAll(rs: seq<CaddyRoute>, namespace: string): seq<StoredRoute>
  {
    if rs == [] then [] else StoredAll(rs[..|rs| - 1], namespace) + [Stored(rs[|rs| - 1], namespace)]
  }

  function Subjects(rs: seq<CaddyRoute>): seq<string>
  {
    if rs == [] then [] else Subjects(rs[..|rs| - 1]) + rs[|rs| - 1].domains
  }

  /** One certificate policy for all subjects, with the user's email or one made from the first subject. */
  function Policies(subjects: seq<string>, email: string): seq<Policy>
  {
    if subjects == [] then []
    else [Policy(subjects, if email == "" then "acme@" + subjects[0] else email)]
  }

  function ConfigOf(sorted: seq<CaddyRoute>, namespace: string, email: string): CaddyConfig
  {
    CaddyConfig(StoredAll(Served(sorted), namespace), Policies(Subjects(sorted), email))
  }

  /** What stops a route from being rendered. */
  function Fault(r: CaddyRoute): Option<Error>
  {
    if r.service == "" then Some(EmptyService)
    else if r.domains != [] && r.port == 0 then Some(NoPort(r.service))
    else None
  }

  ghost predicate NoFault(rs: seq<CaddyRoute>)
  {
    forall x :: x in rs ==> Fault(x).None?
  }

  ghost predicate FirstFault(rs: seq<CaddyRoute>, e: Error)
  {
    exists i :: 0 <= i < |rs| && Fault(rs[i]) == Some(e) && NoFault(rs[..i])
  }

  /** The outcome: the first faulty route in service order stops everything. */
  ghost predicate Builds(namespace: string, routes: seq<CaddyRoute>, email: string, r: Result<CaddyConfig, Error>)
  {
    var sorted := StableSort(routes);
    match r
    case Ok(config) =>
      namespace != "" && NoFault(routes) && config == ConfigOf(sorted, namespace, email)
    case Err(e) =>
      if namespace == "" then e == NoNamespace
      else FirstFault(sorted, e)
  }

  lemma OneMore(rs: seq<CaddyRoute>, x: CaddyRoute, namespace: string)
    ensures Served(rs + [x]) == if x.domains == [] then Served(rs) else Served(rs) + [x]
    ensures StoredAll(rs + [x], namespace) == StoredAll(rs, namespace) + [Stored(x, namespace)]
    ensures Subjects(rs + [x]) == Subjects(rs) + x.domains
  {
    assert (rs + [x])[..|rs|] == rs;
  }

  ghost predicate Rendered(rs: seq<CaddyRoute>, namespace: string, stored: seq<StoredRoute>, subjects: seq<string>)
  {
    stored == StoredAll(Served(rs), namespace) && subjects == Subjects(rs)
  }

  lemma NextRoute(rs: seq<CaddyRoute>, i: nat, namespace: string)
    requires i < |rs|
    ensures var x, before := rs[i], StoredAll(Served(rs[..i]), namespace);
      StoredAll(Served(rs[..i + 1]), namespace) == if x.domains == [] then before else before + [Stored(x, namespace)]
    ensures Subjects(rs[..i + 1]) ==
      if rs[i].domains == [] then Subjects(rs[..i]) else Subjects(rs[..i]) + rs[i].domains
  {
    Snoc(rs, i);
    OneMore(rs[..i], rs[i], namespace);
    OneMore(Served(rs[..i]), rs[i], namespace);
    assert Subjects(rs[..i]) + [] == Subjects(rs[..i]);
  }

  /** The body of the loop: a route without domains leaves no trace. */
  method RenderOne(ghost before: seq<CaddyRoute>, x: CaddyRoute, namespace: string,
                   stored0: seq<StoredRoute>, subjects0: seq<string>)
      returns (stored: seq<StoredRoute>, subjects: seq<string>)
    requires Rendered(before, namespace, stored0, subjects0)
    ensures Rendered(before + [x], namespace, stored, subjects)
  {
    stored, subjects := stored0, subjects0;
    ghost var rs := before + [x];
    assert rs[..|before|] == before && rs[..|rs|] == rs;
    NextRoute(rs, |before|, namespace);
    if |x.domains| > 0 {
      stored := stored + [Stored(x, namespace)];
      subjects := subjects + x.domains;
    }
  }

  /** The loop over the sorted routes, up to the first faulty one. */
  method Render(sorted: seq<CaddyRoute>, namespace: string)
      returns (stored: seq<StoredRoute>, subjects: seq<string>, fault: Option<Error>)
    ensures fault.None? ==> Rendered(sorted, namespace, stored, subjects) && NoFault(sorted)
    ensures fault.Some? ==> FirstFault(sorted, fault.value)
  {
    stored, subjects := [], [];
    for i := 0 to |sorted|
      invariant Rendered(sorted[..i], namespace, stored, subjects)
      invariant NoFault(sorted[..i])
    {
      fault := Fault(sorted[i]);
      if fault.Some? { return; }
      Snoc(sorted, i);
      stored, subjects := RenderOne(sorted[..i], sorted[i], namespace, stored, subjects);
    }
    Whole(sorted);
    fault := None;
  }

  /** A stored route sends the hosts of its service to the service's address inside the cluster. */
  ghost predicate Forwards(s: StoredRoute, r: CaddyRoute, namespace: string)
  {
    s.match_ == [r.domains] && s.handle == [[r.service + "." + namespace + ".svc.cluster.local" + ":" + Dec(r.port)]]
  }

  /** One stored route for each of these, in order. */
  ghost predicate ForwardsAll(stored: seq<StoredRoute>, rs: seq<CaddyRoute>, namespace: string)
  {
    |stored| == |rs| && forall i :: 0 <= i < |rs| ==> Forwards(stored[i], rs[i], namespace)
  }

  /** The routes with a domain, each service's in their order, sorted by service. */
  ghost predicate WithDomains(routes: seq<CaddyRoute>, rs: seq<CaddyRoute>)
  {
    SortedByService(rs) && forall svc :: ForService(rs, svc) == DomainsOf(ForService(routes, svc))
  }

  ghost function DomainsOf(rs: seq<CaddyRoute>): seq<CaddyRoute>
  {
    if rs == [] then [] else (if rs[0].domains == [] then [] else [rs[0]]) + DomainsOf(rs[1..])
  }

  ghost function AllDomains(rs: seq<CaddyRoute>): seq<string>
  {
    if rs == [] then [] else rs[0].domains + AllDomains(rs[1..])
  }

  /** What the configuration says and when there is none. */
  ghost predicate Serves(namespace: string, routes: seq<CaddyRoute>, email: string, r: Result<CaddyConfig, Error>)
  {
    && (r.Ok? <==> namespace != "" && forall x :: x in routes ==> x.service != "" && (x.domains == [] || x.port != 0))
    && (r.Ok? ==> exists rs :: WithDomains(routes, rs) && Configures(r.value, rs, namespace, email))
  }

  /** One stored route for each of these, and one certificate policy for all their domains if there are any. */
  ghost predicate Configures(config: CaddyConfig, rs: seq<CaddyRoute>, namespace: string, email: string)
  {
    && ForwardsAll(config.routes, rs, namespace)
    && config.policies ==
         if AllDomains(rs) == [] then []
         else [Policy(AllDomains(rs), if email == "" then "acme@" + AllDomains(rs)[0] else email)]
  }

  lemma OneForwards(r: CaddyRoute, namespace: string)
    ensures Forwards(Stored(r, namespace), r, namespace)
  {
  }

  lemma {:induction false} StoredForwards(rs: seq<CaddyRoute>, namespace: string)
    ensures ForwardsAll(StoredAll(rs, namespace), rs, namespace)
  {
    if rs != [] {
      var init, last := rs[..|rs| - 1], rs[|rs| - 1];
      StoredForwards(init, namespace);
      OneForwards(last, namespace);
      ForwardsOneMore(StoredAll(init, namespace), init, Stored(last, namespace), last, namespace);
      assert rs == init + [last];
    }
  }

  lemma ForwardsOneMore(stored: seq<StoredRoute>, rs: seq<CaddyRoute>, s: StoredRoute, r: CaddyRoute,
                        namespace: string)
    requires ForwardsAll(stored, rs, namespace) && Forwards(s, r, namespace)
    ensures ForwardsAll(stored + [s], rs + [r], namespace)
  {
  }

  lemma {:induction false} DomainsOfSnoc(rs: seq<CaddyRoute>, x: CaddyRoute)
    ensures DomainsOf(rs + [x]) == DomainsOf(rs) + if x.domains == [] then [] else [x]
  {
    var lead, all := if rs == [] || rs[0].domains == [] then [] else [rs[0]], rs + [x];
    if rs == [] {
      assert all == [x];
    } else {
      DomainsOfSnoc(rs[1..], x);
      assert all[0] == rs[0] && all[1..] == rs[1..] + [x];
      assert DomainsOf(all) == lead + DomainsOf(rs[1..] + [x]) && DomainsOf(rs) == lead + DomainsOf(rs[1..]);
    }
  }

  lemma {:induction false} ServedIsDomainsOf(rs: seq<CaddyRoute>)
    ensures Served(rs) == DomainsOf(rs)
  {
    if rs != [] {
      var init, last := rs[..|rs| - 1], rs[|rs| - 1];
      assert rs == init + [last];
      ServedIsDomainsOf(init);
      DomainsOfSnoc(init, last);
    }
  }

  lemma {:induction false} DomainsOfService(rs: seq<CaddyRoute>, svc: string)
    ensures ForService(DomainsOf(rs), svc) == DomainsOf(ForService(rs, svc))
  {
    if rs != [] {
      var rest := DomainsOf(rs[1..]);
      DomainsOfService(rs[1..], svc);
      if rs[0].domains != [] {
        assert ([rs[0]] + rest)[1..] == rest;
      } else {
        assert [] + rest == rest;
      }
      if rs[0].service == svc {
        assert ([rs[0]] + ForService(rs[1..], svc))[1..] == ForService(rs[1..], svc);
      } else {
        assert [] + ForService(rs[1..], svc) == ForService(rs[1..], svc);
      }
    }
  }

  lemma {:induction false} DomainsOfStaySorted(rs: seq<CaddyRoute>)
    requires SortedByService(rs)
    ensures SortedByService(DomainsOf(rs)) && forall x :: x in DomainsOf(rs) ==> x in rs
  {
    if rs != [] {
      var rest := DomainsOf(rs[1..]);
      DomainsOfStaySorted(rs[1..]);
      assert rs == [rs[0]] + rs[1..];
      forall j | 0 <= j < |rest| ensures Leq(rs[0].service, rest[j].service) {
        assert rest[j] in rest && rest[j] in rs[1..];
        var k :| 0 <= k < |rs[1..]| && rs[1..][k] == rest[j];
        assert rs[k + 1] == rest[j];
      }
    }
  }

  lemma {:induction false} AllDomainsSnoc(rs: seq<CaddyRoute>, x: CaddyRoute)
    ensures AllDomains(rs + [x]) == AllDomains(rs) + x.domains
  {
    if rs == [] {
      assert rs + [x] == [x];
    } else {
      AllDomainsSnoc(rs[1..], x);
      assert (rs + [x])[1..] == rs[1..] + [x];
    }
  }

  lemma {:induction false} SubjectsAreAllDomains(rs: seq<CaddyRoute>)
    ensures Subjects(rs) == AllDomains(DomainsOf(rs))
  {
    if rs != [] {
      var init, last := rs[..|rs| - 1], rs[|rs| - 1];
      assert rs == init + [last];
      SubjectsAreAllDomains(init);
      DomainsOfSnoc(init, last);
      if last.domains == [] {
        assert DomainsOf(init) + [] == DomainsOf(init);
      } else {
        AllDomainsSnoc(DomainsOf(init), last);
      }
    }
  }

  lemma SortedDomains(routes: seq<CaddyRoute>)
    ensures WithDomains(routes, DomainsOf(StableSort(routes)))
  {
    var sorted := StableSort(routes);
    StableSortSorts(routes);
    DomainsOfStaySorted(sorted);
    forall svc ensures ForService(DomainsOf(sorted), svc) == DomainsOf(ForService(routes, svc)) {
      DomainsOfService(sorted, svc);
    }
  }

  lemma BuiltConfigures(sorted: seq<CaddyRoute>, namespace: string, email: string)
    ensures Configures(ConfigOf(sorted, namespace, email), DomainsOf(sorted), namespace, email)
  {
    ServedIsDomainsOf(sorted);
    StoredForwards(DomainsOf(sorted), namespace);
    SubjectsAreAllDomains(sorted);
  }

  lemma FaultsDecide(namespace: string, routes: seq<CaddyRoute>, email: string, r: Result<CaddyConfig, Error>)
    requires Builds(namespace, routes, email, r)
    ensures r.Ok? <==>
      namespace != "" && forall x :: x in routes ==> x.service != "" && (x.domains == [] || x.port != 0)
  {
    if r.Ok? {
      assert forall x :: x in routes ==> Fault(x).None?;
    } else if namespace != "" {
      var sorted := StableSort(routes);
      var i :| 0 <= i < |sorted| && Fault(sorted[i]) == Some(r.error);
      StableSortKeepsMembers(routes, sorted[i]);
    }
  }

  lemma BuiltServes(namespace: string, routes: seq<CaddyRoute>, email: string, r: Result<CaddyConfig, Error>)
    requires Builds(namespace, routes, email, r)
    ensures Serves(namespace, routes, email, r)
  {
    FaultsDecide(namespace, routes, email, r);
    SortedDomains(routes);
    BuiltConfigures(StableSort(routes), namespace, email);
  }

  method BuildCaddyConfig(namespace: string, routes: seq<CaddyRoute>, email: string)
      returns (r: Result<CaddyConfig, Error>)
    ensures Builds(namespace, routes, email, r)
    ensures Serves(namespace, routes, email, r)
  {
    var sorted := StableSort(routes);
    if namespace == "" {
      r := Err(NoNamespace);
    } else {
      var stored, subjects, fault := Render(sorted, namespace);
      forall x | x in routes ensures x in sorted {
        StableSortKeepsMembers(routes, x);
      }
      r := if fault.Some? then Err(fault.value) else Ok(CaddyConfig(stored, Policies(subjects, email)));
    }
    BuiltServes(namespace, routes, email, r);
  }

  // ---------------------------------------------------------------- reading back

  /** `parseCaddyDial`: the first label of the host, and a port that is not zero. */
  function ParseCaddyDial(dial: string): Option<(string, int)>
  {
    match Cut(dial, ':')
    case None => None
    case Some((host, portText)) =>
      var first := match Cut(host, '.') case None => host case Some((label_, _)) => label_;
      if first == "" then None
      else
        match ScanInt(portText)
        case None => None
        case Some(p) => if p == 0 then None else Some((first, p))
  }

  /** The first dial address of the first handler that has one. */
  function FirstDial(handle: seq<seq<string>>): string
  {
    if handle == [] then "" else if handle[0] != [] then handle[0][0] else FirstDial(handle[1..])
  }

  /** What one stored route is reported as. */
  function ReadRoute(s: StoredRoute): Option<CaddyRoute>
  {
    if s.match_ == [] || s.handle == [] || FirstDial(s.handle) == "" then None
    else
      match ParseCaddyDial(FirstDial(s.handle))
      case None => None
      case Some((svc, port)) => Some(CaddyRoute(svc, port, s.match_[0]))
  }

  lemma {:induction false} FirstDialIs(idle: seq<seq<string>>, h: seq<string>, rest: seq<seq<string>>)
    requires h != [] && forall e :: e in idle ==> e == []
    ensures FirstDial(idle + [h] + rest) == h[0]
  {
    var all := idle + [h] + rest;
    if idle != [] {
      assert idle[0] in idle && all[0] == idle[0] && forall e :: e in idle[1..] ==> e in idle;
      FirstDialIs(idle[1..], h, rest);
      assert all[1..] == idle[1..] + [h] + rest;
    }
  }

  lemma {:induction false} NoDial(idle: seq<seq<string>>)
    requires forall e :: e in idle ==> e == []
    ensures FirstDial(idle) == ""
  {
    if idle != [] {
      assert idle[0] in idle && forall e :: e in idle[1..] ==> e in idle;
      NoDial(idle[1..]);
    }
  }

  /**
   A stored route shows as its first host list with the service and port of the first dial address among its handlers.
   Without a host list or a dial address it does not show.
   */
  lemma StoredShows(hosts: seq<string>, more: seq<seq<string>>, idle: seq<seq<string>>, h: seq<string>,
                    rest: seq<seq<string>>, namespace: string, svc: string, port: int)
    requires forall e :: e in idle ==> e == []
    requires h != [] && h[0] == Dial(svc, namespace, port) && Plain(svc) && ':' !in namespace && port != 0
    ensures ReadRoute(StoredRoute([hosts] + more, idle + [h] + rest)) == Some(CaddyRoute(svc, port, hosts))
    ensures ReadRoute(StoredRoute([], idle + [h] + rest)) == None
    ensures ReadRoute(StoredRoute([hosts] + more, idle)) == None
  {
    FirstDialIs(idle, h, rest);
    NoDial(idle);
    DialRoundTrip(svc, namespace, port);
    assert Dial(svc, namespace, port)[|svc|] == '.';
  }

  function ReadRoutes(raw: seq<StoredRoute>): (r: seq<CaddyRoute>)
    ensures |r| <= |raw|
  {
    if raw == [] then []
    else
      var init := ReadRoutes(raw[..|raw| - 1]);
      match ReadRoute(raw[|raw| - 1])
      case None => init
      case Some(x) => init + [x]
  }

  /** The loop over a route's handlers, up to the first that has a dial address. */
  method FindDial(handle: seq<seq<string>>) returns (dial: string)
    ensures dial == FirstDial(handle)
  {
    for k := 0 to |handle|
      invariant FirstDial(handle[k..]) == FirstDial(handle)
    {
      if |handle[k]| > 0 { return handle[k][0]; }
    }
    return "";
  }

  /** One turn of the loop over the stored routes. */
  method ReadOne(s: StoredRoute) returns (r: Option<CaddyRoute>)
    ensures r == ReadRoute(s)
  {
    if |s.match_| == 0 || |s.handle| == 0 { return None; }
    var dial := FindDial(s.handle);
    if dial == "" { return None; }
    match ParseCaddyDial(dial)
    case None => return None;
    case Some((svc, port)) => return Some(CaddyRoute(svc, port, s.match_[0]));
  }

  /** `GetCaddyRoutes`; `live` is empty while Caddy or its admin API is not up. */
  method GetCaddyRoutes(live: Option<seq<StoredRoute>>) returns (out: seq<CaddyRoute>)
    ensures out == match live case None => [] case Some(raw) => ReadRoutes(raw)
  {
    out := [];
    if live.None? { return; }
    var raw := live.value;
    for i := 0 to |raw|
      invariant out == ReadRoutes(raw[..i])
    {
      Snoc(raw, i);
      var one := ReadOne(raw[i]);
      if one.Some? { out := out + [one.value]; }
    }
    Whole(raw);
  }

  // ---------------------------------------------------------------- round trip

  /** A service name that survives the dial address. */
  predicate Plain(svc: string)
  {
    svc != "" && '.' !in svc && ':' !in svc
  }

  lemma DialParts(svc: string, namespace: string, port: int)
    requires ':' !in namespace && ':' !in svc
    ensures Cut(Dial(svc, namespace, port), ':') == Some((svc + ['.'] + (namespace + CLUSTER_SUFFIX), Dec(port)))
  {
    var host := svc + ['.'] + (namespace + CLUSTER_SUFFIX);
    assert ':' !in CLUSTER_SUFFIX;
    assert ':' !in host;
    assert Dial(svc, namespace, port) == host + [':'] + Dec(port);
    CutIs(host, ':', Dec(port));
  }

  /** A dial address reads back as the service and port it was made from exactly for plain names. */
  lemma DialRoundTrip(svc: string, namespace: string, port: int)
    requires ':' !in namespace && port != 0
    ensures ParseCaddyDial(Dial(svc, namespace, port)) == Some((svc, port)) <==> Plain(svc)
  {
    if ':' in svc {
      ColonCutsShort(svc, Dial(svc, namespace, port));
    } else {
      DialParts(svc, namespace, port);
      ScanPrinted(port, "");
      assert Dec(port) + "" == Dec(port);
      if '.' in svc {
        var cut := Cut(svc + ['.'] + (namespace + CLUSTER_SUFFIX), '.').value;
        assert '.' !in cut.0;
      } else {
        CutIs(svc, '.', namespace + CLUSTER_SUFFIX);
      }
    }
  }

  lemma ColonCutsShort(svc: string, dial: string)
    requires ':' in svc && svc <= dial
    ensures ParseCaddyDial(dial).Some? ==> ParseCaddyDial(dial).value.0 != svc
  {
    if ParseCaddyDial(dial).Some? {
      var host := Cut(dial, ':').value.0;
      assert ':' !in host;
      match Cut(host, '.') {
        case None =>
        case Some((first, rest)) => assert forall c :: c in first ==> c in host;
      }
    }
  }

  lemma StoredReadsBack(x: CaddyRoute, namespace: string)
    requires ':' !in namespace && x.port != 0
    ensures ReadRoute(Stored(x, namespace)) == Some(x) <==> Plain(x.service)
  {
    DialRoundTrip(x.service, namespace, x.port);
  }

  lemma ReadOneMore(raw: seq<StoredRoute>, s: StoredRoute)
    ensures ReadRoutes(raw + [s]) == ReadRoutes(raw) + match ReadRoute(s) case None => [] case Some(x) => [x]
  {
    assert (raw + [s])[..|raw|] == raw;
  }

  lemma {:induction false} StoredAllLength(rs: seq<CaddyRoute>, namespace: string)
    ensures |StoredAll(rs, namespace)| == |rs|
  {
    if rs != [] {
      StoredAllLength(rs[..|rs| - 1], namespace);
    }
  }

  lemma {:induction false} StoredAllReadsBack(rs: seq<CaddyRoute>, namespace: string)
    requires ':' !in namespace && forall x :: x in rs ==> x.port != 0
    ensures ReadRoutes(StoredAll(rs, namespace)) == rs <==> forall x :: x in rs ==> Plain(x.service)
  {
    if rs != [] {
      var k := |rs| - 1;
      var init, last := rs[..k], rs[k];
      assert rs == init + [last];
      StoredAllReadsBack(init, namespace);
      StoredReadsBack(last, namespace);
      OneMore(init, last, namespace);
      StoredAllLength(init, namespace);
      ReadOneMore(StoredAll(init, namespace), Stored(last, namespace));
    }
  }

  /**
   Reading a freshly built configuration gives the routes with domains in stable service order, exactly for plain
   names.
   */
  lemma ConfigRoundTrip(namespace: string, routes: seq<CaddyRoute>, email: string, config: CaddyConfig)
    requires Builds(namespace, routes, email, Ok(config)) && ':' !in namespace
    ensures ReadRoutes(config.routes) == Served(StableSort(routes)) <==>
      forall x :: x in routes && x.domains != [] ==> Plain(x.service)
  {
    var served := Served(StableSort(routes));
    forall x ensures x in served <==> x in routes && x.domains != [] {
      StableSortKeepsMembers(routes, x);
      ServedHas(StableSort(routes), x);
    }
    assert forall x :: x in served ==> Fault(x).None?;
    StoredAllReadsBack(served, namespace);
  }

  /** The certificate subjects are the host lists of the stored routes, joined. */
  lemma {:induction false} SubjectsAreTheHosts(rs: seq<CaddyRoute>, namespace: string)
    ensures Subjects(rs) == Hosts(StoredAll(Served(rs), namespace))
  {
    if rs != [] {
      var k := |rs| - 1;
      SubjectsAreTheHosts(rs[..k], namespace);
      Whole(rs);
      NextRoute(rs, k, namespace);
      if rs[k].domains != [] {
        HostsSnoc(StoredAll(Served(rs[..k]), namespace), Stored(rs[k], namespace));
      }
    }
  }

  function Hosts(stored: seq<StoredRoute>): seq<string>
  {
    if stored == [] then []
    else
      var last := stored[|stored| - 1];
      Hosts(stored[..|stored| - 1]) + if last.match_ == [] then [] else last.match_[0]
  }

  lemma HostsSnoc(stored: seq<StoredRoute>, s: StoredRoute)
    requires s.match_ != []
    ensures Hosts(stored + [s]) == Hosts(stored) + s.match_[0]
  {
    assert (stored + [s])[..|stored|] == stored;
  }

  ghost predicate DistinctServices(rs: seq<CaddyRoute>)
  {
    forall x, y :: x in rs && y in rs && x.service == y.service ==> x == y
  }

  lemma {:induction false} AtMostOne(rs: seq<CaddyRoute>, svc: string)
    requires NoDup(rs) && DistinctServices(rs)
    ensures |ForService(rs, svc)| <= 1
  {
    if rs != [] {
      assert rs == [rs[0]] + rs[1..] && rs[0] !in rs[1..];
      assert forall x :: x in rs[1..] ==> x in rs;
      AtMostOne(rs[1..], svc);
      if rs[0].service == svc && ForService(rs[1..], svc) != [] {
        ForServiceHas(rs[1..], svc, ForService(rs[1..], svc)[0]);
      }
    }
  }

  /** At most one member each and the same members: the same list. */
  lemma SameShort(p: seq<CaddyRoute>, q: seq<CaddyRoute>)
    requires |p| <= 1 && |q| <= 1
    requires forall x :: x in p <==> x in q
    ensures p == q
  {
    assert p != [] ==> p[0] in q;
    assert q != [] ==> q[0] in p;
  }

  lemma SameForService(a: seq<CaddyRoute>, b: seq<CaddyRoute>, svc: string)
    requires NoDup(a) && NoDup(b) && DistinctServices(a) && forall x :: x in a <==> x in b
    ensures ForService(a, svc) == ForService(b, svc)
  {
    AtMostOne(a, svc);
    AtMostOne(b, svc);
    forall x ensures x in ForService(a, svc) <==> x in ForService(b, svc) {
      ForServiceHas(a, svc, x);
      ForServiceHas(b, svc, x);
    }
    SameShort(ForService(a, svc), ForService(b, svc));
  }

  /** With one route per service the order in which the routes were collected does not show. */
  lemma OrderDoesNotShow(a: seq<CaddyRoute>, b: seq<CaddyRoute>, namespace: string, email: string,
                         ra: Result<CaddyConfig, Error>, rb: Result<CaddyConfig, Error>)
    requires multiset(a) == multiset(b) && NoDup(a) && DistinctServices(a)
    requires Builds(namespace, a, email, ra) && Builds(namespace, b, email, rb)
    ensures ra == rb
  {
    SamePermutation(a, b);
    forall svc ensures ForService(a, svc) == ForService(b, svc) {
      SameForService(a, b, svc);
    }
    StableSortSorts(a);
    StableSortSorts(b);
    StableSortIsUnique(StableSort(a), StableSort(b));
    SameOutcome(a, b, namespace, email, ra, rb);
  }

  /** The outcome is a function of the sorted routes. */
  lemma SameOutcome(a: seq<CaddyRoute>, b: seq<CaddyRoute>, namespace: string, email: string,
                    ra: Result<CaddyConfig, Error>, rb: Result<CaddyConfig, Error>)
    requires StableSort(a) == StableSort(b) && forall x :: x in a <==> x in b
    requires Builds(namespace, a, email, ra) && Builds(namespace, b, email, rb)
    ensures ra == rb
  {
    if ra.Err? && namespace != "" {
      FaultIsAMember(a, namespace, email, ra);
    }
    if rb.Err? && namespace != "" {
      FaultIsAMember(b, namespace, email, rb);
    }
  }

  lemma FaultIsAMember(a: seq<CaddyRoute>, namespace: string, email: string, r: Result<CaddyConfig, Error>)
    requires Builds(namespace, a, email, r) && r.Err? && namespace != ""
    ensures exists x :: x in a && Fault(x) == Some(r.error)
  {
    var sorted := StableSort(a);
    var i :| 0 <= i < |sorted| && Fault(sorted[i]) == Some(r.error);
    StableSortKeepsMembers(a, sorted[i]);
  }
}

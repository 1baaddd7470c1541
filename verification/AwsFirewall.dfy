/**
 Writing an allow-list to an AWS security group and reading it back (pkg/provider/aws/firewall.go).
 Which CIDR texts `net.ParseCIDR` takes for IPv6 is a parameter, the set `v6`.
 */
module AwsFirewall {
  import opened AllowList
  import opened Decimal
  import opened InfraPlan
  import opened PlanEntries
  import opened StringOrder
  import opened Wrappers

  datatype Permission = Permission(proto: string, port: int, ipv4: seq<string>, ipv6: seq<string>)
  {
    function Cidrs(): seq<string> { ipv4 + ipv6 }
  }

  const PRIVATE_CIDR := "10.0.0.0/16"

  // ---------------------------------------------------------------- writing

  /** The CIDRs of one address family, in order. */
  function Family(cidrs: seq<string>, v6: set<string>, wantV6: bool): seq<string>
  {
    if cidrs == [] then []
    else
      var last := cidrs[|cidrs| - 1];
      Family(cidrs[..|cidrs| - 1], v6, wantV6) + if (last in v6) == wantV6 then [last] else []
  }

  lemma FamilySnoc(cidrs: seq<string>, x: string, v6: set<string>, wantV6: bool)
    ensures Family(cidrs + [x], v6, wantV6) == Family(cidrs, v6, wantV6) + if (x in v6) == wantV6 then [x] else []
  {
    assert (cidrs + [x])[..|cidrs|] == cidrs;
  }

  lemma CountSnoc(s: seq<string>, x: string)
    ensures multiset(s + [x]) == multiset(s) + multiset{x}
    ensures multiset(s + []) == multiset(s)
  {
    assert s + [] == s;
  }

  lemma {:induction false} FamiliesPartition(cidrs: seq<string>, v6: set<string>)
    ensures multiset(Family(cidrs, v6, false)) + multiset(Family(cidrs, v6, true)) == multiset(cidrs)
  {
    if cidrs != [] {
      var k := |cidrs| - 1;
      var init, last := cidrs[..k], cidrs[k];
      FamiliesPartition(init, v6);
      assert cidrs == init + [last];
      FamilySnoc(init, last, v6, false);
      FamilySnoc(init, last, v6, true);
      CountSnoc(init, last);
      CountSnoc(Family(init, v6, false), last);
      CountSnoc(Family(init, v6, true), last);
    }
  }

  lemma FamiliesKeepAll(cidrs: seq<string>, v6: set<string>)
    ensures multiset(Family(cidrs, v6, false) + Family(cidrs, v6, true)) == multiset(cidrs)
  {
    FamiliesPartition(cidrs, v6);
  }

  function PermissionOf(proto: string, port: int, cidrs: seq<string>, v6: set<string>): Permission
  {
    Permission(proto, port, Family(cidrs, v6, false), Family(cidrs, v6, true))
  }

  /** A permission keeps every CIDR: the IPv6 ones in the one list, the others in the other, each list in order. */
  lemma {:induction false} PermissionSplits(proto: string, port: int, cidrs: seq<string>, v6: set<string>)
    ensures var p := PermissionOf(proto, port, cidrs, v6);
      && p.proto == proto && p.port == port && multiset(p.ipv4 + p.ipv6) == multiset(cidrs)
      && (forall c :: c in p.ipv4 ==> c !in v6) && (forall c :: c in p.ipv6 ==> c in v6)
  {
    FamiliesKeepAll(cidrs, v6);
    if cidrs != [] {
      PermissionSplits(proto, port, cidrs[..|cidrs| - 1], v6);
    }
  }

  method PermissionForCIDRs(proto: string, port: int, cidrs: seq<string>, v6: set<string>) returns (p: Permission)
    ensures p == PermissionOf(proto, port, cidrs, v6)
    ensures multiset(p.Cidrs()) == multiset(cidrs)
  {
    var ipv4: seq<string>, ipv6: seq<string> := [], [];
    for i := 0 to |cidrs|
      invariant ipv4 == Family(cidrs[..i], v6, false) && ipv6 == Family(cidrs[..i], v6, true)
    {
      Snoc(cidrs, i);
      if cidrs[i] in v6 {
        ipv6 := ipv6 + [cidrs[i]];
        continue;
      }
      ipv4 := ipv4 + [cidrs[i]];
    }
    Whole(cidrs);
    FamiliesKeepAll(cidrs, v6);
    p := Permission(proto, port, ipv4, ipv6);
  }

  /** `fmt.Sscanf(port, "%d", &p)` into an int32 that starts at zero. */
  function ParsePort32(port: string): int
  {
    match ScanInt(port)
    case Some(n) => if -0x8000_0000 <= n < 0x8000_0000 then n else 0
    case None => 0
  }

  function SshCidrs(allowed: PortAllowList): seq<string>
  {
    if "22" in allowed && allowed["22"] != [] then allowed["22"] else PUBLIC_CIDRS
  }

  /** A port that gets a rule of its own. */
  predicate Custom(allowed: PortAllowList, port: string)
  {
    port in allowed && port != "22" && !IsInternalPort(port) && allowed[port] != []
  }

  function CustomRule(allowed: PortAllowList, port: string, v6: set<string>): Permission
    requires port in allowed
  {
    PermissionOf("tcp", ParsePort32(port), allowed[port], v6)
  }

  function InternalRules(v6: set<string>): seq<Permission>
  {
    [PermissionOf("tcp", 6443, [PRIVATE_CIDR], v6), PermissionOf("tcp", 10250, [PRIVATE_CIDR], v6),
     PermissionOf("udp", 8472, [PRIVATE_CIDR], v6), PermissionOf("tcp", 5000, [PRIVATE_CIDR], v6)]
  }

  function SshRule(allowed: PortAllowList, v6: set<string>): Permission
  {
    PermissionOf("tcp", 22, SshCidrs(allowed), v6)
  }

  /** Exactly the fixed rules, SSH's, and one rule per custom port, in any order. */
  ghost predicate RulesWith(fixed: seq<Permission>, ssh: Permission, allowed: PortAllowList, v6: set<string>,
                            rules: seq<Permission>)
  {
    && (forall r :: r in fixed ==> r in rules)
    && ssh in rules
    && (forall p :: Custom(allowed, p) ==> CustomRule(allowed, p, v6) in rules)
    && forall r :: r in rules ==>
         r in fixed || r == ssh || exists p :: Custom(allowed, p) && r == CustomRule(allowed, p, v6)
  }

  ghost predicate IngressRules(allowed: PortAllowList, v6: set<string>, rules: seq<Permission>)
  {
    RulesWith(InternalRules(v6), SshRule(allowed, v6), allowed, v6, rules)
  }

  /** The loop over the sorted ports: SSH and cluster ports are skipped, and so are empty lists. */
  method CustomRules(allowed: PortAllowList, v6: set<string>) returns (custom: seq<Permission>)
    ensures forall p :: Custom(allowed, p) ==> CustomRule(allowed, p, v6) in custom
    ensures forall r :: r in custom ==> exists p :: Custom(allowed, p) && r == CustomRule(allowed, p, v6)
  {
    custom := [];
    var ports := SortedPorts(allowed);
    for i := 0 to |ports|
      invariant forall p :: p in ports[..i] && Custom(allowed, p) ==> CustomRule(allowed, p, v6) in custom
      invariant forall r :: r in custom ==> exists p :: Custom(allowed, p) && r == CustomRule(allowed, p, v6)
    {
      Snoc(ports, i);
      var port := ports[i];
      if port == "22" || IsInternalPort(port) { continue; }
      if |allowed[port]| > 0 {
        var rule := PermissionForCIDRs("tcp", ParsePort32(port), allowed[port], v6);
        assert Custom(allowed, port) && rule == CustomRule(allowed, port, v6);
        custom := custom + [rule];
      }
    }
    Whole(ports);
  }

  method FixedRules(v6: set<string>) returns (rules: seq<Permission>)
    ensures rules == InternalRules(v6)
  {
    var a := PermissionForCIDRs("tcp", 6443, [PRIVATE_CIDR], v6);
    var b := PermissionForCIDRs("tcp", 10250, [PRIVATE_CIDR], v6);
    var c := PermissionForCIDRs("udp", 8472, [PRIVATE_CIDR], v6);
    var d := PermissionForCIDRs("tcp", 5000, [PRIVATE_CIDR], v6);
    rules := [a, b, c, d];
  }

  // ---------------------------------------------------------------- who may connect

  /** The rule lets in exactly these CIDRs, in whatever order. */
  ghost predicate LetsIn(r: Permission, cidrs: seq<string>)
  {
    multiset(r.ipv4 + r.ipv6) == multiset(cidrs)
  }

  ghost predicate Leads(r: Permission, proto: string, port: int, cidrs: seq<string>)
  {
    r.proto == proto && r.port == port && LetsIn(r, cidrs)
  }

  ghost predicate Opens(rules: seq<Permission>, proto: string, port: int, cidrs: seq<string>)
  {
    exists r :: r in rules && Leads(r, proto, port, cidrs)
  }

  /** The Kubernetes API, the kubelet, the overlay network and the registry. */
  ghost predicate ClusterPort(port: int)
  {
    port == 6443 || port == 10250 || port == 8472 || port == 5000
  }

  ghost predicate ClusterPortsArePrivate(rules: seq<Permission>)
  {
    forall r :: r in rules && ClusterPort(r.port) ==> LetsIn(r, ["10.0.0.0/16"])
  }

  ghost predicate ClusterPortText(port: string)
  {
    port == "6443" || port == "10250" || port == "8472" || port == "5000"
  }

  /** No other spelling of a cluster port is opened to more than the private network. */
  ghost predicate NoClusterPortInDisguise(allowed: PortAllowList)
  {
    forall p :: p in allowed && !ClusterPortText(p) && ClusterPort(ParsePort32(p)) ==>
      allowed[p] == [] || allowed[p] == ["10.0.0.0/16"]
  }

  /** The rule leads to a cluster port, from the private network alone. */
  ghost predicate PrivateRule(r: Permission)
  {
    ClusterPort(r.port) && LetsIn(r, ["10.0.0.0/16"]) && (r.proto == "tcp" || (r.proto == "udp" && r.port == 8472))
  }

  ghost predicate ClusterPortsOpen(rules: seq<Permission>)
  {
    && Opens(rules, "tcp", 6443, ["10.0.0.0/16"]) && Opens(rules, "tcp", 10250, ["10.0.0.0/16"])
    && Opens(rules, "udp", 8472, ["10.0.0.0/16"]) && Opens(rules, "tcp", 5000, ["10.0.0.0/16"])
  }

  /** A rule a user asked for, or SSH's. */
  ghost predicate AskedFor(allowed: PortAllowList, r: Permission)
  {
    r.proto == "tcp" && (r.port == 22 || exists p :: p in allowed && r.port == ParsePort32(p) && LetsIn(r, allowed[p]))
  }

  /** Who may connect to what, without regard to how the rules are put together. */
  ghost predicate Exposes(allowed: PortAllowList, rules: seq<Permission>)
  {
    && ClusterPortsOpen(rules)
    && Opens(rules, "tcp", 22,
         if "22" in allowed && allowed["22"] != [] then allowed["22"] else ["0.0.0.0/0", "::/0"])
    && (forall p :: p in allowed && allowed[p] != [] && p != "22" && !ClusterPortText(p) ==>
         Opens(rules, "tcp", ParsePort32(p), allowed[p]))
    && (forall r :: r in rules ==> PrivateRule(r) || AskedFor(allowed, r))
    && (ClusterPortsArePrivate(rules) <==> NoClusterPortInDisguise(allowed))
  }

  lemma PermissionLetsIn(proto: string, port: int, cidrs: seq<string>, v6: set<string>)
    ensures LetsIn(PermissionOf(proto, port, cidrs, v6), cidrs)
  {
    FamiliesKeepAll(cidrs, v6);
  }

  lemma FourRulesOpen(a: Permission, b: Permission, c: Permission, d: Permission, rules: seq<Permission>)
    requires rules == [a, b, c, d]
    requires Leads(a, "tcp", 6443, ["10.0.0.0/16"]) && Leads(b, "tcp", 10250, ["10.0.0.0/16"])
    requires Leads(c, "udp", 8472, ["10.0.0.0/16"]) && Leads(d, "tcp", 5000, ["10.0.0.0/16"])
    ensures ClusterPortsOpen(rules) && forall r :: r in rules ==> PrivateRule(r)
  {
    assert a in rules && b in rules && c in rules && d in rules;
    forall r | r in rules ensures r == a || r == b || r == c || r == d {
    }
  }

  lemma InternalRulesArePrivate(v6: set<string>)
    ensures ClusterPortsOpen(InternalRules(v6)) && forall r :: r in InternalRules(v6) ==> PrivateRule(r)
  {
    var private, rules := ["10.0.0.0/16"], InternalRules(v6);
    PermissionLetsIn("tcp", 6443, private, v6);
    PermissionLetsIn("tcp", 10250, private, v6);
    PermissionLetsIn("udp", 8472, private, v6);
    PermissionLetsIn("tcp", 5000, private, v6);
    FourRulesOpen(rules[0], rules[1], rules[2], rules[3], rules);
  }

  lemma CustomIsOutside(allowed: PortAllowList, p: string)
    ensures Custom(allowed, p) <==> p in allowed && allowed[p] != [] && p != "22" && !ClusterPortText(p)
  {
  }

  lemma OnlyCidr(cidrs: seq<string>, c: string)
    requires multiset(cidrs) == multiset([c])
    ensures cidrs == [c]
  {
    assert |multiset(cidrs)| == 1;
    assert cidrs[0] in multiset(cidrs);
  }

  /** The custom rules lead to cluster ports only in disguise. */
  lemma PrivateIffNoDisguise(fixed: seq<Permission>, ssh: Permission, allowed: PortAllowList, v6: set<string>,
                             rules: seq<Permission>)
    requires RulesWith(fixed, ssh, allowed, v6, rules) && ssh.port == 22 && ParsePort32("22") == 22
    requires forall r :: r in fixed ==> PrivateRule(r)
    ensures ClusterPortsArePrivate(rules) <==> NoClusterPortInDisguise(allowed)
  {
    forall p | Custom(allowed, p) ensures LetsIn(CustomRule(allowed, p, v6), allowed[p]) {
      PermissionLetsIn("tcp", ParsePort32(p), allowed[p], v6);
    }
    if ClusterPortsArePrivate(rules) {
      forall p | p in allowed && allowed[p] != [] && !ClusterPortText(p) && ClusterPort(ParsePort32(p))
        ensures allowed[p] == ["10.0.0.0/16"]
      {
        CustomIsOutside(allowed, p);
        assert LetsIn(CustomRule(allowed, p, v6), ["10.0.0.0/16"]);
        OnlyCidr(allowed[p], "10.0.0.0/16");
      }
    }
    if NoClusterPortInDisguise(allowed) {
      forall r | r in rules && ClusterPort(r.port) ensures LetsIn(r, ["10.0.0.0/16"]) {
        if r !in fixed {
          var p :| Custom(allowed, p) && r == CustomRule(allowed, p, v6);
          CustomIsOutside(allowed, p);
        }
      }
    }
  }

  lemma OpensToo(fixed: seq<Permission>, rules: seq<Permission>)
    requires forall r :: r in fixed ==> r in rules
    ensures ClusterPortsOpen(fixed) ==> ClusterPortsOpen(rules)
  {
  }

  lemma RulesExpose(allowed: PortAllowList, v6: set<string>, rules: seq<Permission>)
    requires IngressRules(allowed, v6, rules)
    ensures Exposes(allowed, rules)
  {
    var fixed, ssh := InternalRules(v6), SshRule(allowed, v6);
    InternalRulesArePrivate(v6);
    OpensToo(fixed, rules);
    PermissionLetsIn("tcp", 22, SshCidrs(allowed), v6);
    PortTexts();
    ReadsPrinted(22, "");
    PrivateIffNoDisguise(fixed, ssh, allowed, v6, rules);
    CustomRulesAreAskedFor(fixed, ssh, allowed, v6, rules);
  }

  lemma CustomRulesAreAskedFor(fixed: seq<Permission>, ssh: Permission, allowed: PortAllowList, v6: set<string>,
                               rules: seq<Permission>)
    requires RulesWith(fixed, ssh, allowed, v6, rules) && ssh.port == 22 && ssh.proto == "tcp"
    requires forall r :: r in fixed ==> PrivateRule(r)
    ensures forall r :: r in rules ==> PrivateRule(r) || AskedFor(allowed, r)
    ensures forall p :: p in allowed && allowed[p] != [] && p != "22" && !ClusterPortText(p) ==>
      Opens(rules, "tcp", ParsePort32(p), allowed[p])
  {
    forall p ensures Custom(allowed, p) <==> p in allowed && allowed[p] != [] && p != "22" && !ClusterPortText(p) {
      CustomIsOutside(allowed, p);
    }
    forall p | Custom(allowed, p) ensures LetsIn(CustomRule(allowed, p, v6), allowed[p]) {
      PermissionLetsIn("tcp", ParsePort32(p), allowed[p], v6);
    }
  }

  /** A printed number reads back as itself if it has 32 bits; any other, and any text without one, reads as zero. */
  lemma ReadsPrinted(n: int, text: string)
    ensures ParsePort32(Dec(n)) == if -0x8000_0000 <= n < 0x8000_0000 then n else 0
    ensures -0x8000_0000 <= n < 0x8000_0000 ==> Canonical(Dec(n))
    ensures text == "" || (!('0' <= text[0] <= '9') && text[0] != '-' && text[0] != '+' && !IsBlank(text[0])) ==>
      ParsePort32(text) == 0
  {
    ScanPrinted(n, "");
    assert Dec(n) + "" == Dec(n);
  }

  method BuildIngressRules(allowed: PortAllowList, v6: set<string>) returns (rules: seq<Permission>)
    ensures IngressRules(allowed, v6, rules)
  {
    var fixed := FixedRules(v6);
    var sshCIDRs := PUBLIC_CIDRS;
    if "22" in allowed && |allowed["22"]| > 0 {
      sshCIDRs := allowed["22"];
    }
    var ssh := PermissionForCIDRs("tcp", 22, sshCIDRs, v6);
    var custom := CustomRules(allowed, v6);
    rules := Assemble(fixed, ssh, custom, allowed, v6);
  }

  function Assemble(fixed: seq<Permission>, ssh: Permission, custom: seq<Permission>,
                    ghost allowed: PortAllowList, ghost v6: set<string>): (rules: seq<Permission>)
    requires forall p :: Custom(allowed, p) ==> CustomRule(allowed, p, v6) in custom
    requires forall r :: r in custom ==> exists p :: Custom(allowed, p) && r == CustomRule(allowed, p, v6)
    ensures RulesWith(fixed, ssh, allowed, v6, rules)
  {
    fixed + [ssh] + custom
  }

  /** A call works, is lost before it takes effect, or takes effect but its answer is lost. */
  datatype Outcome = Works | Lost | Unheard

  /** A security group and the calls that change its rules. */
  class SecurityGroup {
    var perms: seq<Permission>

    constructor ()
      ensures perms == []
    {
      perms := [];
    }

    /** Remove the rules of `current`. */
    method Revoke(current: seq<Permission>, o: Outcome) returns (ok: bool)
      modifies this
      ensures ok == o.Works?
      ensures o.Lost? ==> perms == old(perms)
      ensures !o.Lost? ==> forall r :: r in perms <==> r in old(perms) && r !in current
      ensures !o.Lost? && (forall r :: r in old(perms) ==> r in current) ==> perms == []
    {
      if !o.Lost? {
        var kept: seq<Permission> := [];
        for i := 0 to |perms|
          invariant perms == old(perms)
          invariant forall r :: r in kept <==> r in perms[..i] && r !in current
          invariant (forall r :: r in perms ==> r in current) ==> kept == []
        {
          if perms[i] !in current { kept := kept + [perms[i]]; }
        }
        perms := kept;
      }
      ok := o.Works?;
    }

    method Authorize(rules: seq<Permission>, o: Outcome) returns (ok: bool)
      modifies this
      ensures ok == o.Works?
      ensures perms == if o.Lost? then old(perms) else old(perms) + rules
    {
      if !o.Lost? { perms := perms + rules; }
      ok := o.Works?;
    }
  }

  /**
   `ReconcileFirewallRules`: revoke what is there, authorise what should be. Whatever happens, the group is left
   with its old rules, with none, or with exactly the built ones; success, and nothing else but a lost answer to
   the last call, means the built ones.
   */
  method ReconcileFirewallRules(sg: SecurityGroup, allowed: PortAllowList, v6: set<string>,
                                revoked: Outcome, authorized: Outcome) returns (ok: bool)
    modifies sg
    ensures ok ==> IngressRules(allowed, v6, sg.perms)
    ensures revoked.Works? && authorized.Works? ==> ok
    ensures sg.perms == old(sg.perms) || sg.perms == [] || IngressRules(allowed, v6, sg.perms)
    ensures !ok && old(sg.perms) != [] && revoked.Lost? ==> sg.perms == old(sg.perms)
    ensures !ok && old(sg.perms) != [] && revoked.Unheard? ==> sg.perms == []
    ensures !ok && (old(sg.perms) == [] || revoked.Works?) ==>
      if authorized.Lost? then sg.perms == [] else IngressRules(allowed, v6, sg.perms)
  {
    var current := sg.perms;
    if |current| > 0 {
      ok := sg.Revoke(current, revoked);
      if !ok { return; }
    }
    var rules := BuildIngressRules(allowed, v6);
    ok := sg.Authorize(rules, authorized);
    assert [] + rules == rules;
  }

  // ---------------------------------------------------------------- reading

  /** A permission the reader reports. */
  predicate Visible(r: Permission)
  {
    !IsInternalPort(Dec(r.port)) && r.Cidrs() != []
  }

  /** The reader's map: every visible port, each with the CIDRs of one of its permissions. */
  ghost predicate ReadBack(perms: seq<Permission>, live: PortAllowList)
  {
    && (forall r :: r in perms && Visible(r) ==> Dec(r.port) in live)
    && (forall k :: k in live ==> exists r :: r in perms && Visible(r) && Dec(r.port) == k && live[k] == r.Cidrs())
  }

  /** The map with one more permission read. */
  function WithRead(live: PortAllowList, r: Permission): PortAllowList
  {
    if Visible(r) then live[Dec(r.port) := r.Cidrs()] else live
  }

  /** The map itself: of two visible permissions for one port the later one is reported. */
  function ReadRules(perms: seq<Permission>): PortAllowList
  {
    if perms == [] then map[] else WithRead(ReadRules(perms[..|perms| - 1]), perms[|perms| - 1])
  }

  /** The permission shows under this port: it has sources, and the port is not the cluster's own. */
  ghost predicate Shows(r: Permission, port: string)
  {
    Dec(r.port) == port && !ClusterPortText(port) && r.ipv4 + r.ipv6 != []
  }

  /** Read permission by permission: one that shows replaces what was reported for its port, any other does nothing. */
  lemma OneMoreRead(perms: seq<Permission>, r: Permission, port: string)
    ensures var was, now := ReadRules(perms), ReadRules(perms + [r]);
      if Shows(r, port) then port in now && now[port] == r.ipv4 + r.ipv6
      else (port in now <==> port in was) && (port in was ==> now[port] == was[port])
    ensures ReadRules([]) == map[]
  {
    assert (perms + [r])[..|perms|] == perms;
    OutsideIsVisible(r);
  }

  lemma OutsideIsVisible(r: Permission)
    ensures Visible(r) <==> !ClusterPortText(Dec(r.port)) && r.ipv4 + r.ipv6 != []
  {
  }

  /** One more permission keeps the reading faithful. */
  lemma ReadBackOneMore(perms: seq<Permission>, live: PortAllowList, r: Permission, all: seq<Permission>)
    requires ReadBack(perms, live) && all == perms + [r]
    ensures ReadBack(all, WithRead(live, r))
  {
    var now := WithRead(live, r);
    assert forall x :: x in all <==> x in perms || x == r;
    forall k | k in now ensures exists x :: x in all && Visible(x) && Dec(x.port) == k && now[k] == x.Cidrs() {
      if Visible(r) && k == Dec(r.port) {
        assert r in all;
      } else {
        var x :| x in perms && Visible(x) && Dec(x.port) == k && live[k] == x.Cidrs();
        assert x in all;
      }
    }
  }

  lemma ReadOneMore(perms: seq<Permission>, i: nat)
    requires i < |perms|
    ensures ReadRules(perms[..i + 1]) == WithRead(ReadRules(perms[..i]), perms[i])
  {
    Snoc(perms, i);
  }

  /** The body of the loop: internal ports and permissions without CIDRs are skipped. */
  method ReadPermission(live0: PortAllowList, r: Permission) returns (live: PortAllowList)
    ensures live == WithRead(live0, r)
  {
    live := live0;
    var port := Dec(r.port);
    if IsInternalPort(port) { return; }
    var cidrs := r.ipv4 + r.ipv6;
    if |cidrs| > 0 {
      live := live[port := cidrs];
    }
  }

  method GetFirewallRules(perms: seq<Permission>) returns (live: PortAllowList)
    ensures live == ReadRules(perms) && ReadBack(perms, live)
  {
    live := map[];
    for i := 0 to |perms|
      invariant live == ReadRules(perms[..i])
      invariant ReadBack(perms[..i], live)
    {
      ReadOneMore(perms, i);
      Snoc(perms, i);
      ReadBackOneMore(perms[..i], live, perms[i], perms[..i + 1]);
      live := ReadPermission(live, perms[i]);
    }
    Whole(perms);
  }

  // ---------------------------------------------------------------- write, read, diff

  /** The port text is the decimal spelling of the number that gets written. */
  predicate Canonical(port: string)
  {
    Dec(ParsePort32(port)) == port
  }

  /** What an allow-list must satisfy to survive the round trip: each condition guards a branch above. */
  ghost predicate RoundTrips(allowed: PortAllowList)
  {
    forall p :: p in allowed ==> Canonical(p) && !IsInternalPort(p) && allowed[p] != []
  }

  lemma FourDigits(a: nat, b: nat, c: nat, d: nat)
    requires 0 < a < 10 && b < 10 && c < 10 && d < 10
    ensures Dec(1000 * a + 100 * b + 10 * c + d) == [Digit(a), Digit(b), Digit(c), Digit(d)]
    ensures Dec(10 * a + b) == [Digit(a), Digit(b)]
  {
    DigitsSnoc(a, b);
    DigitsSnoc(10 * a + b, c);
    DigitsSnoc(100 * a + 10 * b + c, d);
  }

  lemma PortTexts()
    ensures Dec(22) == "22" && Dec(6443) == "6443" && Dec(10250) == "10250" && Dec(8472) == "8472"
      && Dec(5000) == "5000"
  {
    FourDigits(2, 2, 0, 0);
    FourDigits(6, 4, 4, 3);
    FourDigits(1, 0, 2, 5);
    DigitsSnoc(1025, 0);
    FourDigits(8, 4, 7, 2);
    FourDigits(5, 0, 0, 0);
  }

  lemma InternalRulesAreInvisible(v6: set<string>)
    ensures forall r :: r in InternalRules(v6) ==> !Visible(r)
  {
    PortTexts();
    forall r | r in InternalRules(v6) ensures !Visible(r) {
      assert r.port == 6443 || r.port == 10250 || r.port == 8472 || r.port == 5000;
    }
  }

  lemma CustomRuleIsVisible(allowed: PortAllowList, v6: set<string>, p: string)
    requires Custom(allowed, p) && Canonical(p)
    ensures var rule := CustomRule(allowed, p, v6);
      Visible(rule) && Dec(rule.port) == p && multiset(rule.Cidrs()) == multiset(allowed[p])
  {
    var rule := CustomRule(allowed, p, v6);
    FamiliesKeepAll(allowed[p], v6);
    assert |multiset(allowed[p])| > 0 && |multiset(rule.Cidrs())| == |rule.Cidrs()|;
  }

  /** Each canonical port reads back as the CIDRs it was written with, regrouped by family. */
  lemma CanonicalReadsBack(fixed: seq<Permission>, ssh: Permission, allowed: PortAllowList, v6: set<string>,
                           perms: seq<Permission>, live: PortAllowList, p: string)
    requires RulesWith(fixed, ssh, allowed, v6, perms) && ReadBack(perms, live) && RoundTrips(allowed)
    requires (forall r :: r in fixed ==> !Visible(r)) && Dec(ssh.port) == "22"
    requires Custom(allowed, p)
    ensures p in live && multiset(live[p]) == multiset(allowed[p])
  {
    CustomRuleIsVisible(allowed, v6, p);
    var r :| r in perms && Visible(r) && Dec(r.port) == p && live[p] == r.Cidrs();
    var q :| Custom(allowed, q) && r == CustomRule(allowed, q, v6);
    CustomRuleIsVisible(allowed, v6, q);
  }

  lemma SshReadsBack(fixed: seq<Permission>, ssh: Permission, allowed: PortAllowList, v6: set<string>,
                     perms: seq<Permission>, live: PortAllowList)
    requires RulesWith(fixed, ssh, allowed, v6, perms) && ReadBack(perms, live) && RoundTrips(allowed)
    requires (forall r :: r in fixed ==> !Visible(r)) && Dec(ssh.port) == "22" && ssh.Cidrs() != []
    ensures "22" in live && live["22"] == ssh.Cidrs()
  {
    assert Visible(ssh);
    var r :| r in perms && Visible(r) && Dec(r.port) == "22" && live["22"] == r.Cidrs();
    assert r == ssh;
  }

  lemma NothingElseReadsBack(fixed: seq<Permission>, ssh: Permission, allowed: PortAllowList, v6: set<string>,
                             perms: seq<Permission>, live: PortAllowList, k: string)
    requires RulesWith(fixed, ssh, allowed, v6, perms) && ReadBack(perms, live) && RoundTrips(allowed)
    requires (forall r :: r in fixed ==> !Visible(r)) && Dec(ssh.port) == "22" && k in live
    ensures k in allowed || k == "22"
  {
    var r :| r in perms && Visible(r) && Dec(r.port) == k && live[k] == r.Cidrs();
  }

  /** Nothing to do after a round trip, stated for any invisible fixed rules. */
  lemma RoundTripSettles(fixed: seq<Permission>, ssh: Permission, fw: string, allowed: PortAllowList, v6: set<string>,
                         perms: seq<Permission>, live: PortAllowList, e: PlanEntry)
    requires RulesWith(fixed, ssh, allowed, v6, perms) && ReadBack(perms, live) && RoundTrips(allowed)
    requires (forall r :: r in fixed ==> !Visible(r)) && Dec(ssh.port) == "22" && ssh.Cidrs() != []
    requires "22" in allowed ==> multiset(ssh.Cidrs()) == multiset(allowed["22"])
    requires RuleLine(e, fw, allowed, live)
    ensures e.kind == NoChange
  {
    if e.sub == "22" {
      SshReadsBack(fixed, ssh, allowed, v6, perms, live);
    } else if e.sub in allowed {
      CanonicalReadsBack(fixed, ssh, allowed, v6, perms, live, e.sub);
    } else {
      NothingElseReadsBack(fixed, ssh, allowed, v6, perms, live, e.sub);
    }
  }

  /** A live entry always has a canonical, non-internal port and some CIDR. */
  lemma LiveIsCanonical(perms: seq<Permission>, live: PortAllowList, k: string)
    requires ReadBack(perms, live) && k in live
    requires forall r :: r in perms ==> -0x8000_0000 <= r.port < 0x8000_0000
    ensures Canonical(k) && !IsInternalPort(k) && live[k] != []
  {
    var r :| r in perms && Visible(r) && Dec(r.port) == k && live[k] == r.Cidrs();
    ScanPrinted(r.port, "");
    assert k + "" == k;
  }

  lemma WrittenPortsFit(allowed: PortAllowList, v6: set<string>, perms: seq<Permission>)
    requires IngressRules(allowed, v6, perms)
    ensures forall r :: r in perms ==> -0x8000_0000 <= r.port < 0x8000_0000
  {
  }

  lemma SshRuleKeepsCidrs(allowed: PortAllowList, v6: set<string>)
    ensures var ssh := SshRule(allowed, v6);
      Dec(ssh.port) == "22" && ssh.Cidrs() != [] && multiset(ssh.Cidrs()) == multiset(SshCidrs(allowed))
  {
    PortTexts();
    var cidrs, ssh := SshCidrs(allowed), SshRule(allowed, v6);
    FamiliesKeepAll(cidrs, v6);
    assert |multiset(cidrs)| == |cidrs| > 0;
  }

  /** Writing, reading and diffing closes on exactly the allow-lists that round-trip. */
  lemma WriteReadDiffCloses(fw: string, allowed: PortAllowList, v6: set<string>, perms: seq<Permission>,
                            live: PortAllowList, es: seq<PlanEntry>)
    requires IngressRules(allowed, v6, perms) && ReadBack(perms, live) && RuleDiff(fw, allowed, live, es)
    ensures AllUnchanged(es) <==> RoundTrips(allowed)
  {
    if RoundTrips(allowed) {
      InternalRulesAreInvisible(v6);
      SshRuleKeepsCidrs(allowed, v6);
      forall e | e in es ensures e.kind == NoChange {
        RoundTripSettles(InternalRules(v6), SshRule(allowed, v6), fw, allowed, v6, perms, live, e);
      }
    }
    if AllUnchanged(es) {
      WrittenPortsFit(allowed, v6, perms);
      UnchangedMeansRoundTrip(fw, allowed, perms, live, es);
    }
  }

  /** Reconcile a group, read it back, diff against the same list: quiet exactly for the lists that round-trip. */
  method ReconcileThenPlan(sg: SecurityGroup, fw: string, allowed: PortAllowList, v6: set<string>)
      returns (es: seq<PlanEntry>)
    modifies sg
    ensures AllUnchanged(es) <==> RoundTrips(allowed)
    ensures IngressRules(allowed, v6, sg.perms) && Exposes(allowed, sg.perms)
  {
    var _ := ReconcileFirewallRules(sg, allowed, v6, Works, Works);
    var live := GetFirewallRules(sg.perms);
    es := DiffRules(fw, allowed, live);
    WriteReadDiffCloses(fw, allowed, v6, sg.perms, live, es);
    RulesExpose(allowed, v6, sg.perms);
  }

  lemma UnchangedMeansRoundTrip(fw: string, allowed: PortAllowList, perms: seq<Permission>, live: PortAllowList,
                                es: seq<PlanEntry>)
    requires ReadBack(perms, live) && RuleDiff(fw, allowed, live, es) && AllUnchanged(es)
    requires forall r :: r in perms ==> -0x8000_0000 <= r.port < 0x8000_0000
    ensures RoundTrips(allowed)
  {
    forall p | p in allowed ensures Canonical(p) && !IsInternalPort(p) && allowed[p] != [] {
      assert PortVerdict(allowed, live, p).Some?;
      var e :| e in es && e.sub == p;
      assert RuleLine(e, fw, allowed, live);
      LiveIsCanonical(perms, live, p);
      assert |multiset(live[p])| > 0;
    }
  }

  /** For a list that came out of the parser only the spelling and the cluster ports matter. */
  lemma ParsedListCloses(fw: string, allowed: PortAllowList, groups: seq<string>, v6: set<string>,
                         perms: seq<Permission>, live: PortAllowList, es: seq<PlanEntry>)
    requires Collects(allowed, groups)
    requires IngressRules(allowed, v6, perms) && ReadBack(perms, live) && RuleDiff(fw, allowed, live, es)
    ensures AllUnchanged(es) <==> forall p :: p in allowed ==> Canonical(p) && !IsInternalPort(p)
  {
    forall p | p in allowed ensures allowed[p] != [] {
      ParsedListsAreWellFormed(allowed, groups, p);
    }
    WriteReadDiffCloses(fw, allowed, v6, perms, live, es);
  }

  /** A zero in front of the digits survives the parser but not the round trip. */
  lemma PaddedPortIsNotCanonical(port: string)
    requires port != "" && forall i :: 0 <= i < |port| ==> IsDigit(port[i])
    ensures Atoi(['0'] + port) == Some(Value(['0'] + port)) && !Canonical(['0'] + port)
  {
    PaddedPortReads(['0'] + port);
    LeadingZero(ParsePort32(['0'] + port));
  }

  lemma PaddedPortReads(padded: string)
    requires padded != "" && forall i :: 0 <= i < |padded| ==> IsDigit(padded[i])
    ensures Atoi(padded) == Some(Value(padded))
  {
    RunOfDigits(padded, []);
    assert padded + [] == padded && padded[..|padded|] == padded;
  }

  /** No printed number of several characters starts with a zero. */
  lemma {:induction false} LeadingZero(n: int)
    ensures Dec(n)[0] == '0' ==> |Dec(n)| == 1
    ensures n >= 0 && Dec(n)[0] == '0' ==> n == 0
  {
    if n >= 10 {
      LeadingZero(n / 10);
      assert Digits(n)[0] == Digits(n / 10)[0];
    }
  }
}

/** Firewall allow-lists (pkg/provider/allowlist.go): parsing, merging, and their port order. */
module AllowList {
  import opened Decimal
  import opened StringOrder
  import opened Strings
  import opened Wrappers

  /** Port text -> source CIDRs. Go's nil map is the empty map. */
  type PortAllowList = map<string, seq<string>>

  const INTERNAL_PORTS: set<string> := {"6443", "10250", "8472", "5000"}

  predicate IsInternalPort(port: string)
  {
    port in INTERNAL_PORTS
  }

  // ---------------------------------------------------------------- port order

  /** The number a port sorts by: unreadable ports count as zero. */
  function PortRank(port: string): int
  {
    match Atoi(port)
    case Some(n) => n
    case None => 0
  }

  /** `SortedPorts`: the keys by number; ports of equal rank come in any order. */
  ghost predicate PortListing(ports: seq<string>, keys: set<string>)
  {
    && NoDup(ports) && (forall p :: p in ports <==> p in keys)
    && forall i, j :: 0 <= i < j < |ports| ==> PortRank(ports[i]) <= PortRank(ports[j])
  }

  lemma {:induction false} LowestPort(keys: set<string>) returns (low: string)
    requires keys != {}
    ensures low in keys && forall p :: p in keys ==> PortRank(low) <= PortRank(p)
  {
    low :| low in keys;
    if keys != {low} {
      var other := LowestPort(keys - {low});
      if PortRank(other) < PortRank(low) {
        low := other;
      }
    }
  }

  lemma ListedOneMore(ports: seq<string>, keys: set<string>, p: string)
    requires PortListing(ports, keys) && p !in keys
    requires forall q :: q in keys ==> PortRank(q) <= PortRank(p)
    ensures PortListing(ports + [p], keys + {p})
  {
    NoDupSnoc(ports, p);
    forall i | 0 <= i < |ports| ensures PortRank(ports[i]) <= PortRank(p) {
      assert ports[i] in keys;
    }
  }

  method SortedPorts(m: PortAllowList) returns (ports: seq<string>)
    ensures PortListing(ports, m.Keys)
  {
    ports := [];
    var todo := m.Keys;
    while todo != {}
      invariant todo <= m.Keys && PortListing(ports, m.Keys - todo)
      invariant forall p, q :: p in m.Keys - todo && q in todo ==> PortRank(p) <= PortRank(q)
      decreases todo
    {
      var _ := LowestPort(todo);
      var p :| p in todo && forall q :: q in todo ==> PortRank(p) <= PortRank(q);
      ListedOneMore(ports, m.Keys - todo, p);
      assert m.Keys - todo + {p} == m.Keys - (todo - {p});
      todo := todo - {p};
      ports := ports + [p];
    }
    assert m.Keys - todo == m.Keys;
  }

  // ---------------------------------------------------------------- parsing

  /** `strings.Split(s, sep)`. */
  function Split(s: string, sep: char): seq<string>
    decreases |s|
  {
    match Cut(s, sep)
    case None => [s]
    case Some((before, after)) => [before] + Split(after, sep)
  }

  predicate IsSpace(c: char)
  {
    c == ' ' || '\t' <= c <= '\r' || c == '\U{85}' || c == '\U{A0}'
  }

  /** `strings.TrimSpace`. */
  function TrimSpace(s: string): (r: string)
    ensures r == "" || (!IsSpace(r[0]) && !IsSpace(r[|r| - 1]))
    decreases |s|
  {
    if s == "" then ""
    else if IsSpace(s[0]) then TrimSpace(s[1..])
    else if IsSpace(s[|s| - 1]) then TrimSpace(s[..|s| - 1])
    else s
  }

  /** The port of a `port:cidrs` group when the parser takes it, with the CIDR text. */
  function GroupParts(group: string): Option<(string, string)>
  {
    match Cut(TrimSpace(group), ':')
    case None => None
    case Some((port, cidrs)) =>
      match Atoi(port)
      case None => None
      case Some(n) => if 1 <= n <= 65535 then Some((port, cidrs)) else None
  }

  /** A single address is a /32. */
  function NormalizeCidr(cidr: string): string
  {
    if '/' in cidr then cidr else cidr + "/32"
  }

  /** The CIDRs of a comma-separated list, blanks dropped. */
  function Cidrs(parts: seq<string>): (r: seq<string>)
    ensures forall c :: c in r ==> '/' in c
  {
    if parts == [] then []
    else
      var cidr := TrimSpace(parts[|parts| - 1]);
      Cidrs(parts[..|parts| - 1]) + if cidr == "" then [] else [NormalizeCidr(cidr)]
  }

  function Get(m: PortAllowList, port: string): seq<string>
  {
    if port in m then m[port] else []
  }

  /** What the groups say about one port: all their CIDRs for it, in order. */
  function CidrsFor(groups: seq<string>, port: string): seq<string>
  {
    if groups == [] then []
    else
      var before := CidrsFor(groups[..|groups| - 1], port);
      match GroupParts(groups[|groups| - 1])
      case Some((p, cidrs)) => if p == port then before + Cidrs(Split(cidrs, ',')) else before
      case None => before
  }

  /** All groups of all arguments, in order. */
  function Groups(args: seq<string>): seq<string>
  {
    if args == [] then [] else Groups(args[..|args| - 1]) + Split(args[|args| - 1], ';')
  }

  /** The allow-list that collects, port by port, what the groups say. */
  ghost predicate Collects(m: PortAllowList, groups: seq<string>)
  {
    && (forall p :: Get(m, p) == CidrsFor(groups, p))
    && (forall p :: p in m ==> m[p] != [])
  }

  /** The list of one port with more CIDRs at its end; nothing changes for none. */
  ghost predicate Appended(m0: PortAllowList, m: PortAllowList, port: string, cidrs: seq<string>)
  {
    && Get(m, port) == Get(m0, port) + cidrs
    && (forall p :: p != port ==> Get(m, p) == Get(m0, p))
    && ((forall p :: p in m0 ==> m0[p] != []) ==> forall p :: p in m ==> m[p] != [])
  }

  lemma CidrsSnoc(parts: seq<string>, i: nat)
    requires i < |parts|
    ensures Cidrs(parts[..i + 1]) ==
      Cidrs(parts[..i]) + if TrimSpace(parts[i]) == "" then [] else [NormalizeCidr(TrimSpace(parts[i]))]
  {
    Snoc(parts, i);
  }

  lemma AppendedOneMore(m0: PortAllowList, m: PortAllowList, port: string, cidrs: seq<string>, cidr: string)
    requires Appended(m0, m, port, cidrs)
    ensures Appended(m0, m[port := Get(m, port) + [cidr]], port, cidrs + [cidr])
  {
    assert Get(m0, port) + cidrs + [cidr] == Get(m0, port) + (cidrs + [cidr]);
  }

  /** `result[port] = append(result[port], ...)` for each CIDR that is not blank. */
  method AppendCidrs(m0: PortAllowList, port: string, parts: seq<string>) returns (m: PortAllowList)
    ensures Appended(m0, m, port, Cidrs(parts))
  {
    m := m0;
    assert Get(m0, port) + [] == Get(m0, port);
    for i := 0 to |parts|
      invariant Appended(m0, m, port, Cidrs(parts[..i]))
    {
      CidrsSnoc(parts, i);
      var cidr := TrimSpace(parts[i]);
      if cidr != "" {
        AppendedOneMore(m0, m, port, Cidrs(parts[..i]), NormalizeCidr(cidr));
        m := m[port := Get(m, port) + [NormalizeCidr(cidr)]];
      } else {
        assert Cidrs(parts[..i]) + [] == Cidrs(parts[..i]);
      }
    }
    Whole(parts);
  }

  /** What one group adds to a port. */
  function NewCidrs(group: string, port: string): seq<string>
  {
    var parts := GroupParts(group);
    if parts.Some? && parts.value.0 == port then Cidrs(Split(parts.value.1, ',')) else []
  }

  lemma CidrsForSnoc(groups: seq<string>, group: string, port: string)
    ensures CidrsFor(groups + [group], port) == CidrsFor(groups, port) + NewCidrs(group, port)
  {
    assert (groups + [group])[..|groups|] == groups;
  }

  /** The list after one more group says what the groups say. */
  lemma CollectsOneMore(m0: PortAllowList, m: PortAllowList, groups: seq<string>, group: string)
    requires Collects(m0, groups) && forall p :: p in m ==> m[p] != []
    requires forall p :: Get(m, p) == Get(m0, p) + NewCidrs(group, p)
    ensures Collects(m, groups + [group])
  {
    forall p ensures Get(m, p) == CidrsFor(groups + [group], p) {
      CidrsForSnoc(groups, group, p);
    }
  }

  method AddGroup(m0: PortAllowList, group: string, ghost groups: seq<string>) returns (m: PortAllowList)
    requires Collects(m0, groups)
    ensures Collects(m, groups + [group])
  {
    m := m0;
    var parts := GroupParts(group);
    if parts.Some? {
      m := AppendCidrs(m0, parts.value.0, Split(parts.value.1, ','));
    }
    assert forall p :: Get(m0, p) + [] == Get(m0, p);
    CollectsOneMore(m0, m, groups, group);
  }

  lemma NextGroup(before: seq<string>, groups: seq<string>, i: nat)
    requires i < |groups|
    ensures before + groups[..i + 1] == before + groups[..i] + [groups[i]]
  {
  }

  /** The loop over the groups of one argument. */
  method AddGroups(m0: PortAllowList, groups: seq<string>, ghost before: seq<string>) returns (m: PortAllowList)
    requires Collects(m0, before)
    ensures Collects(m, before + groups)
  {
    m := m0;
    assert before + groups[..0] == before;
    for i := 0 to |groups|
      invariant Collects(m, before + groups[..i])
    {
      NextGroup(before, groups, i);
      m := AddGroup(m, groups[i], before + groups[..i]);
    }
    Whole(groups);
  }

  lemma GroupsSnoc(args: seq<string>, i: nat)
    requires i < |args|
    ensures Groups(args[..i + 1]) == Groups(args[..i]) + Split(args[i], ';')
  {
    Snoc(args, i);
  }

  method ParseRawRules(args: seq<string>) returns (m: PortAllowList)
    ensures Collects(m, Groups(args))
  {
    m := map[];
    for i := 0 to |args|
      invariant Collects(m, Groups(args[..i]))
    {
      GroupsSnoc(args, i);
      m := AddGroups(m, Split(args[i], ';'), Groups(args[..i]));
    }
    Whole(args);
  }

  lemma {:induction false} ListedPortsAreNumbers(groups: seq<string>, port: string)
    requires CidrsFor(groups, port) != []
    ensures Atoi(port).Some? && 1 <= Atoi(port).value <= 65535
    ensures forall c :: c in CidrsFor(groups, port) ==> '/' in c
  {
    var init := groups[..|groups| - 1];
    if CidrsFor(init, port) != [] {
      ListedPortsAreNumbers(init, port);
    }
  }

  /** Whatever was typed, a parsed list has only real ports, each with at least one CIDR. */
  lemma ParsedListsAreWellFormed(m: PortAllowList, groups: seq<string>, port: string)
    requires Collects(m, groups) && port in m
    ensures m[port] != [] && Atoi(port).Some? && 1 <= Atoi(port).value <= 65535
    ensures forall c :: c in m[port] ==> '/' in c
  {
    assert Get(m, port) == CidrsFor(groups, port);
    ListedPortsAreNumbers(groups, port);
  }

  // ---------------------------------------------------------------- what a user types

  ghost function Joined(parts: seq<string>, sep: char): string
    requires parts != []
  {
    if |parts| == 1 then parts[0] else parts[0] + [sep] + Joined(parts[1..], sep)
  }

  lemma {:induction false} SplitUndoesJoined(parts: seq<string>, sep: char)
    requires parts != [] && forall p :: p in parts ==> sep !in p
    ensures Split(Joined(parts, sep), sep) == parts
  {
    if |parts| > 1 {
      var rest := parts[1..];
      SplitUndoesJoined(rest, sep);
      CutIs(parts[0], sep, Joined(rest, sep));
      assert parts == [parts[0]] + rest;
    } else {
      assert parts[0] in parts && parts == [parts[0]];
    }
  }

  /** Space, tab, line feed, vertical tab, form feed, carriage return, next line, no-break space. */
  ghost predicate Blank(s: string)
  {
    forall i :: 0 <= i < |s| ==>
      s[i] == ' ' || s[i] == '\t' || s[i] == '\n' || s[i] == '\U{0B}' || s[i] == '\U{0C}' || s[i] == '\r'
      || s[i] == '\U{85}' || s[i] == '\U{A0}'
  }

  /** A text that no blank precedes or follows. */
  ghost predicate Bare(s: string)
  {
    s != "" && !Blank([s[0]]) && !Blank([s[|s| - 1]])
  }

  lemma BlankIsSpace(c: char)
    ensures Blank([c]) <==> IsSpace(c)
  {
    if Blank([c]) {
      assert [c][0] == c;
    }
  }

  lemma {:induction false} TrimIs(before: string, core: string, after: string)
    requires Blank(before) && Blank(after) && Bare(core)
    ensures TrimSpace(before + core + after) == core
    decreases |before| + |after|
  {
    var s := before + core + after;
    if before != "" {
      BlankIsSpace(before[0]);
      assert Blank([before[0]]) && s[1..] == before[1..] + core + after;
      TrimIs(before[1..], core, after);
    } else {
      BlankIsSpace(core[0]);
      BlankIsSpace(core[|core| - 1]);
      if after != "" {
        BlankIsSpace(after[|after| - 1]);
        assert Blank([after[|after| - 1]]) && s[..|s| - 1] == before + core + after[..|after| - 1];
        assert s[0] == core[0] && s[|s| - 1] == after[|after| - 1];
        TrimIs(before, core, after[..|after| - 1]);
      } else {
        assert s == core;
      }
    }
  }

  lemma {:induction false} TrimNothing(s: string)
    requires Blank(s)
    ensures TrimSpace(s) == ""
  {
    if s != "" {
      BlankIsSpace(s[0]);
      assert Blank([s[0]]);
      TrimNothing(s[1..]);
    }
  }

  /** Sources as typed: a network as it is, an address as a network of its own. */
  ghost function AsNetworks(cidrs: seq<string>): seq<string>
  {
    if cidrs == [] then []
    else
      var last := cidrs[|cidrs| - 1];
      AsNetworks(cidrs[..|cidrs| - 1]) + [if '/' in last then last else last + "/32"]
  }

  lemma {:induction false} CidrsAsTyped(cidrs: seq<string>)
    requires forall c :: c in cidrs ==> Bare(c)
    ensures Cidrs(cidrs) == AsNetworks(cidrs)
  {
    if cidrs != [] {
      var init, last := cidrs[..|cidrs| - 1], cidrs[|cidrs| - 1];
      assert cidrs == init + [last];
      CidrsAsTyped(init);
      TrimIs("", last, "");
      assert "" + last + "" == last;
    }
  }

  lemma AtoiPrinted(n: nat)
    ensures Atoi(Dec(n)) == Some(n)
  {
    ScanPrinted(n, "");
    SignOfPrinted(n, "");
    RunOfDigits(Digits(n), "");
    assert Dec(n) + "" == Dec(n) && Digits(n) + "" == Digits(n);
  }

  /**
   A group as typed: blanks, a port, a colon, sources between commas, blanks. It adds its sources to its port and
   nothing to any other, unless the port is out of range.
   */
  lemma TypedGroup(before: string, port: nat, cidrs: seq<string>, after: string, p: string)
    requires Blank(before) && Blank(after)
    requires cidrs != [] && forall c :: c in cidrs ==> Bare(c) && ',' !in c
    ensures NewCidrs(before + (Dec(port) + ":" + Joined(cidrs, ',')) + after, p) ==
      if 1 <= port <= 65535 && p == Dec(port) then AsNetworks(cidrs) else []
  {
    var list := Joined(cidrs, ',');
    var core := Dec(port) + ":" + list;
    DigitsAreBare(port);
    JoinedEndsBare(cidrs);
    assert core[0] == Dec(port)[0] && core[|core| - 1] == list[|list| - 1];
    TrimIs(before, core, after);
    NoColonInDigits(port);
    assert core == Dec(port) + [':'] + list;
    CutIs(Dec(port), ':', list);
    AtoiPrinted(port);
    SplitUndoesJoined(cidrs, ',');
    CidrsAsTyped(cidrs);
  }

  /** Ports sort by number, and what is no number sorts as zero. */
  lemma RankOfPrinted(n: nat, s: string)
    ensures PortRank(Dec(n)) == n
    ensures Atoi(s) == None ==> PortRank(s) == 0
  {
    AtoiPrinted(n);
  }

  lemma DigitsAreBare(n: nat)
    ensures !Blank([Dec(n)[0]])
  {
    BlankIsSpace(Dec(n)[0]);
    assert IsDigit(Dec(n)[0]);
  }

  lemma NoColonInDigits(n: nat)
    ensures ':' !in Dec(n)
  {
  }

  lemma {:induction false} JoinedEndsBare(cidrs: seq<string>)
    requires cidrs != [] && forall c :: c in cidrs ==> Bare(c)
    ensures var list := Joined(cidrs, ','); list != "" && !Blank([list[|list| - 1]])
  {
    assert cidrs[0] in cidrs;
    if |cidrs| > 1 {
      JoinedEndsBare(cidrs[1..]);
    }
  }

  /** Groups of one argument stand between semicolons. */
  lemma TypedArgument(groups: seq<string>)
    requires groups != [] && forall g :: g in groups ==> ';' !in g
    ensures Groups([Joined(groups, ';')]) == groups
  {
    var arg := Joined(groups, ';');
    SplitUndoesJoined(groups, ';');
    assert [arg][..0] == [] && Groups([]) + Split(arg, ';') == Split(arg, ';');
    assert [arg][0] == arg;
  }

  /** A text with a character that is neither a digit nor a sign in front is no number. */
  lemma NotANumber(s: string, i: nat)
    requires i < |s| && !('0' <= s[i] <= '9') && (i > 0 || (s[i] != '-' && s[i] != '+'))
    ensures Atoi(s) == None
  {
    var body := Unsigned(s);
    var k := i - (|s| - |body|);
    assert body[k] == s[i];
    assert forall j :: 0 <= j < DigitRun(body) ==> IsDigit(body[j]);
  }

  /** A group without a colon is skipped, and one whose text before it is no number. */
  lemma SkippedGroup(port: string, rest: string, p: string)
    requires ':' !in port
    ensures Bare(port) ==> NewCidrs(port, p) == []
    ensures Bare(port + ":" + rest) && Atoi(port) == None ==> NewCidrs(port + ":" + rest, p) == []
  {
    if Bare(port) {
      TrimIs("", port, "");
      assert "" + port + "" == port;
    }
    var group := port + ":" + rest;
    if Bare(group) {
      TrimIs("", group, "");
      assert "" + group + "" == group == port + [':'] + rest;
      CutIs(port, ':', rest);
    }
  }

  // ---------------------------------------------------------------- merging

  /** `MergeAllowLists`: an override replaces the whole entry of its port. */
  method MergeAllowLists(base: PortAllowList, overrides: PortAllowList) returns (m: PortAllowList)
    ensures m.Keys == base.Keys + overrides.Keys
    ensures forall p :: p in overrides ==> m[p] == overrides[p]
    ensures forall p :: p in base && p !in overrides ==> m[p] == base[p]
  {
    m := map[];
    var todo := base.Keys;
    while todo != {}
      invariant todo <= base.Keys && m.Keys == base.Keys - todo
      invariant forall p :: p in m ==> m[p] == base[p]
      decreases todo
    {
      var p :| p in todo;
      todo := todo - {p};
      m := m[p := base[p]];
    }
    todo := overrides.Keys;
    while todo != {}
      invariant todo <= overrides.Keys && m.Keys == base.Keys + (overrides.Keys - todo)
      invariant forall p :: p in m ==>
        m[p] == if p in overrides && p !in todo then overrides[p] else if p in base then base[p] else m[p]
      decreases todo
    {
      var p :| p in todo;
      todo := todo - {p};
      m := m[p := overrides[p]];
    }
  }

  datatype Error = NotARule(arg: string)

  /** A trimmed, non-empty argument without a colon is a former preset name. */
  predicate IsPreset(arg: string)
  {
    TrimSpace(arg) != "" && ':' !in TrimSpace(arg)
  }

  /** Between blanks, a word without a colon is refused, and nothing else is. */
  lemma BareWordsAreRefused(before: string, word: string, after: string)
    requires Blank(before) && Blank(after)
    ensures Bare(word) ==> (IsPreset(before + word + after) <==> ':' !in word)
    ensures !IsPreset(before)
  {
    TrimNothing(before);
    if Bare(word) {
      TrimIs(before, word, after);
    }
  }

  /** `ResolveFirewallArgs`. */
  method ResolveFirewallArgs(args: seq<string>) returns (r: Result<PortAllowList, Error>)
    ensures r.Err? <==> exists a :: a in args && IsPreset(a)
    ensures r.Ok? ==> Collects(r.value, Groups(args))
  {
    for i := 0 to |args|
      invariant forall a :: a in args[..i] ==> !IsPreset(a)
    {
      Snoc(args, i);
      if IsPreset(args[i]) {
        return Err(NotARule(args[i]));
      }
    }
    Whole(args);
    var m := ParseRawRules(args);
    return Ok(m);
  }

  const PUBLIC_CIDRS: seq<string> := ["0.0.0.0/0", "::/0"]

  /** The ports Caddy serves from, open to everyone. */
  function WebPorts(caddyMode: bool): PortAllowList
  {
    if caddyMode then map["80" := PUBLIC_CIDRS, "443" := PUBLIC_CIDRS] else map[]
  }

  lemma WebPortsAre(caddyMode: bool, port: string)
    ensures Get(WebPorts(caddyMode), port) ==
      if caddyMode && (port == "80" || port == "443") then ["0.0.0.0/0", "::/0"] else []
    ensures port in WebPorts(caddyMode) ==> WebPorts(caddyMode)[port] != []
  {
  }

  /** With domains and no tunnel 80 and 443 are open to everyone unless the user says otherwise; nothing else is. */
  lemma WebPortsAreOpen(hasDomains: bool, hasTunnel: bool, groups: seq<string>, port: string)
    ensures Allowed(hasDomains && !hasTunnel, groups, port) ==
      if CidrsFor(groups, port) != [] then CidrsFor(groups, port)
      else if hasDomains && !hasTunnel && (port == "80" || port == "443") then ["0.0.0.0/0", "::/0"]
      else []
  {
    WebPortsAre(hasDomains && !hasTunnel, port);
  }

  /** The user's CIDRs for a port if there are any, otherwise the public web ports of Caddy mode. */
  function Allowed(caddyMode: bool, groups: seq<string>, port: string): seq<string>
  {
    if CidrsFor(groups, port) != [] then CidrsFor(groups, port) else Get(WebPorts(caddyMode), port)
  }

  lemma MergedIsAllowed(caddyMode: bool, user: PortAllowList, groups: seq<string>, m: PortAllowList, port: string)
    requires Collects(user, groups)
    requires m.Keys == WebPorts(caddyMode).Keys + user.Keys
    requires port in user ==> m[port] == user[port]
    requires port in WebPorts(caddyMode) && port !in user ==> m[port] == WebPorts(caddyMode)[port]
    ensures Get(m, port) == Allowed(caddyMode, groups, port)
    ensures port in m ==> m[port] != []
  {
    assert Get(user, port) == CidrsFor(groups, port);
    WebPortsAre(caddyMode, port);
  }

  /** `FirewallAllowList`: 80 and 443 open with domains and no tunnel; user rules override per port. */
  method FirewallAllowList(hasDomains: bool, hasTunnel: bool, rules: seq<string>)
      returns (r: Result<PortAllowList, Error>)
    ensures r.Err? <==> exists a :: a in rules && IsPreset(a)
    ensures r.Ok? ==> forall p :: Get(r.value, p) == Allowed(hasDomains && !hasTunnel, Groups(rules), p)
    ensures r.Ok? ==> forall p :: p in r.value ==> r.value[p] != []
  {
    var base := WebPorts(hasDomains && !hasTunnel);
    var user := ResolveFirewallArgs(rules);
    if user.Err? { return user; }
    var m := MergeAllowLists(base, user.value);
    forall p ensures Get(m, p) == Allowed(hasDomains && !hasTunnel, Groups(rules), p) && (p in m ==> m[p] != []) {
      MergedIsAllowed(hasDomains && !hasTunnel, user.value, Groups(rules), m, p);
    }
    return Ok(m);
  }
}

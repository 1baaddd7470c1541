/**
 Routing a domain in a Cloudflare zone (pkg/provider/cloudflare/dns.go, pkg/provider/dns.go). The zone is a
 list of records changed one API call at a time; every state it passes through is kept in `history`.
 */
module CloudflareDns {
  import opened Wrappers

  datatype RecordType = A | AAAA | CNAME | Other(text: string)

  datatype Record = Record(id: nat, kind: RecordType, name: string, content: string, proxied: bool)

  /** What the reconciler asks for; `dnsType` is only a hint for addresses. */
  datatype IngressBinding = IngressBinding(dnsType: string, target: string, proxied: bool)

  /** A call works, is lost before it takes effect, or takes effect but its answer is lost. */
  datatype Outcome = Works | Lost | Unheard

  // ---------------------------------------------------------------- names

  /** The label of a domain inside a zone, `@` for the zone itself; a foreign domain is its own label. */
  function RecordName(domain: string, zone: string): string
  {
    var suffix := "." + zone;
    if domain == zone then "@"
    else if |domain| > |suffix| && domain[|domain| - |suffix|..] == suffix then domain[..|domain| - |suffix|]
    else domain
  }

  /** The name records are written under. */
  function WrittenName(short: string, zone: string): string
  {
    if short != "@" then short + "." + zone else zone
  }

  /** The name records are listed under. */
  function ListedName(short: string, zone: string): string
  {
    if short != "@" && short != "" then short + "." + zone else zone
  }

  function TypeOfAddress(target: string): RecordType
  {
    if ':' in target then AAAA else A
  }

  lemma LabelInZone(label_: string, zone: string)
    requires label_ != ""
    ensures RecordName(label_ + "." + zone, zone) == label_
  {
    var domain, suffix := label_ + "." + zone, "." + zone;
    assert domain == label_ + suffix && domain[|label_|..] == suffix && domain[..|label_|] == label_;
    assert |domain| > |zone|;
  }

  lemma ForeignDomain(domain: string, zone: string)
    requires domain != zone && RecordName(domain, zone) == domain
    ensures WrittenName(domain, zone) != domain
    ensures forall l: string :: l != "" ==> domain != l + "." + zone
  {
    assert |domain + "." + zone| > |domain|;
    forall l: string | l != "" ensures domain != l + "." + zone {
      LabelInZone(l, zone);
      assert |l + "." + zone| > |l|;
    }
  }

  /** A domain is written under its own name exactly when it lies in the zone and its label is not a lone `@`. */
  lemma WrittenUnderOwnName(domain: string, zone: string)
    ensures WrittenName(RecordName(domain, zone), zone) == domain <==>
      domain == zone || exists short :: short != "" && short != "@" && domain == short + "." + zone
  {
    var short := RecordName(domain, zone);
    if domain != zone {
      if short == domain {
        ForeignDomain(domain, zone);
      } else {
        assert domain == short + ("." + zone) == short + "." + zone;
        forall l: string | l != "" && domain == l + "." + zone ensures l == short {
          LabelInZone(l, zone);
        }
        assert |zone| < |domain|;
      }
    }
  }

  /** Listing and writing agree on every domain but the empty one. */
  lemma ListedWhereWritten(domain: string, zone: string)
    ensures var short := RecordName(domain, zone);
      ListedName(short, zone) == WrittenName(short, zone) <==> domain != "" || zone == ""
  {
    var short := RecordName(domain, zone);
    assert |"." + zone| == |zone| + 1;
    assert short == "" <==> domain == "" && zone != "";
    assert |"" + "." + zone| > |zone|;
  }

  // ---------------------------------------------------------------- record sets

  function Matching(rs: seq<Record>, name: string, kind: RecordType): (r: seq<Record>)
    ensures forall x :: x in r <==> x in rs && x.name == name && x.kind == kind
  {
    if rs == [] then []
    else
      var last := rs[|rs| - 1];
      Matching(rs[..|rs| - 1], name, kind) + if last.name == name && last.kind == kind then [last] else []
  }

  function Without(rs: seq<Record>, id: nat): (r: seq<Record>)
    ensures forall x :: x in r <==> x in rs && x.id != id
    ensures |r| <= |rs|
  {
    if rs == [] then []
    else (if rs[0].id == id then [] else [rs[0]]) + Without(rs[1..], id)
  }

  function Rewritten(rs: seq<Record>, r: Record): (s: seq<Record>)
    ensures |s| == |rs| && forall i :: 0 <= i < |rs| ==> s[i] == if rs[i].id == r.id then r else rs[i]
  {
    seq(|rs|, i requires 0 <= i < |rs| => if rs[i].id == r.id then r else rs[i])
  }

  predicate IsAddress(r: Record)
  {
    r.kind == A || r.kind == AAAA
  }

  /** Section 3.6.2 of RFC 1034, for the kinds of record this code writes. */
  ghost predicate Exclusive(rs: seq<Record>)
  {
    forall c, a :: c in rs && a in rs && c.kind == CNAME && IsAddress(a) ==> c.name != a.name
  }

  /** At most one A, one AAAA and one CNAME per name, and ids identify records. */
  ghost predicate Single(rs: seq<Record>)
  {
    forall r, q :: r in rs && q in rs && r.name == q.name && r.kind == q.kind && !r.kind.Other? ==> r == q
  }

  ghost predicate Identified(rs: seq<Record>)
  {
    forall r, q :: r in rs && q in rs && r.id == q.id ==> r == q
  }

  /** Sections 3.4.1 of RFC 1035 and 2.2 of RFC 3596: an A record holds an IPv4 address, an AAAA record an IPv6 one. */
  ghost predicate FamiliesFit(rs: seq<Record>)
  {
    forall r :: r in rs ==> Fits(r)
  }

  ghost predicate Fits(r: Record)
  {
    (r.kind == A ==> ':' !in r.content) && (r.kind == AAAA ==> ':' in r.content)
  }

  /** A record at the name with this content, and a type that suits it. */
  ghost predicate AddressAt(rs: seq<Record>, name: string, target: string, proxied: bool)
  {
    exists r :: r in rs && r.name == name && r.content == target && r.proxied == proxied
      && r.kind == if ':' in target then AAAA else A
  }

  ghost predicate AliasAt(rs: seq<Record>, name: string, target: string, proxied: bool)
  {
    exists r :: r in rs && r.name == name && r.content == target && r.proxied == proxied && r.kind == CNAME
  }

  lemma SettledIsThere(rs: seq<Record>, name: string, kind: RecordType, target: string, proxied: bool)
    requires Settled(rs, name, kind, target, proxied)
    ensures exists r :: r in rs && r.name == name && r.kind == kind && r.content == target && r.proxied == proxied
  {
    var r := Matching(rs, name, kind)[0];
    assert r in Matching(rs, name, kind);
  }

  /** Nothing but the addresses and CNAMEs of `name` differs. */
  ghost predicate Elsewhere(before: seq<Record>, after: seq<Record>, name: string)
  {
    forall r: Record :: r.name != name || r.kind.Other? ==> (r in before <==> r in after)
  }

  /** The first record the lookup finds is the wanted one. */
  predicate Settled(rs: seq<Record>, name: string, kind: RecordType, target: string, proxied: bool)
  {
    var found := Matching(rs, name, kind);
    found != [] && found[0].content == target && found[0].proxied == proxied
  }

  lemma {:induction false} NoneMatching(rs: seq<Record>, name: string, kind: RecordType)
    requires forall r :: r in rs ==> r.name != name || r.kind != kind
    ensures Matching(rs, name, kind) == []
  {
    if rs != [] {
      assert rs[|rs| - 1] in rs;
      NoneMatching(rs[..|rs| - 1], name, kind);
    }
  }

  lemma CreatedIsFound(rs: seq<Record>, r: Record)
    requires Matching(rs, r.name, r.kind) == []
    ensures Matching(rs + [r], r.name, r.kind) == [r]
  {
    assert (rs + [r])[..|rs|] == rs;
  }

  lemma MatchingLast(rs: seq<Record>, name: string, kind: RecordType)
    requires rs != []
    ensures var k := |rs| - 1;
      Matching(rs, name, kind) ==
        if rs[k].name == name && rs[k].kind == kind then Matching(rs[..k], name, kind) + [rs[k]]
        else Matching(rs[..k], name, kind)
  {
  }

  lemma RewrittenInit(rs: seq<Record>, r: Record)
    requires rs != []
    ensures var k := |rs| - 1;
      Rewritten(rs, r)[..k] == Rewritten(rs[..k], r) && Rewritten(rs, r)[k] == if rs[k].id == r.id then r else rs[k]
  {
  }

  lemma UntouchedInit(rs: seq<Record>, r: Record)
    requires forall x :: x in rs ==> x.id != r.id
    ensures Rewritten(rs, r) == rs
  {
    forall i | 0 <= i < |rs| ensures Rewritten(rs, r)[i] == rs[i] {
      assert rs[i] in rs;
    }
  }

  /** Writing over the first record found makes the new record the first one found. */
  lemma {:induction false} UpdatedIsFound(rs: seq<Record>, was: Record, r: Record)
    requires Matching(rs, r.name, r.kind) != [] && Matching(rs, r.name, r.kind)[0] == was && was.id == r.id
    requires Identified(rs)
    ensures Matching(Rewritten(rs, r), r.name, r.kind) != []
    ensures Matching(Rewritten(rs, r), r.name, r.kind)[0] == r
  {
    var k := |rs| - 1;
    var init, now := rs[..k], Rewritten(rs, r);
    assert was in Matching(rs, r.name, r.kind);
    MatchingLast(rs, r.name, r.kind);
    MatchingLast(now, r.name, r.kind);
    RewrittenInit(rs, r);
    if Matching(init, r.name, r.kind) == [] {
      forall x | x in init ensures x.id != r.id {
        assert x in rs && x !in Matching(init, r.name, r.kind);
      }
      UntouchedInit(init, r);
    } else {
      assert forall x :: x in init ==> x in rs;
      UpdatedIsFound(init, was, r);
    }
  }

  // ---------------------------------------------------------------- the zone

  class Zone {
    const zone: string
    var records: seq<Record>
    var nextId: nat
    var outcomes: seq<Outcome>
    ghost var history: seq<seq<Record>>

    constructor (zone: string, outcomes: seq<Outcome>)
      ensures Valid() && records == [] && this.zone == zone && history == []
    {
      this.zone, this.outcomes := zone, outcomes;
      records, nextId, history := [], 0, [];
    }

    ghost predicate Valid()
      reads this
    {
      Identified(records) && forall r :: r in records ==> r.id < nextId
    }

    ghost function Label(domain: string): string
    {
      RecordName(domain, zone)
    }

    /** No coming call fails. */
    ghost predicate Reliable()
      reads `outcomes
    {
      forall o :: o in outcomes ==> o.Works?
    }

    method Call() returns (o: Outcome)
      modifies `outcomes
      ensures old(Reliable()) ==> Reliable() && o.Works?
    {
      o := Works;
      if outcomes != [] {
        o, outcomes := outcomes[0], outcomes[1..];
      }
    }

    /** The store became `wanted`, or the call failed before it took effect. */
    ghost predicate Wrote(before: seq<Record>, h0: seq<seq<Record>>, wanted: seq<Record>, ok: bool)
      reads this
    {
      (records == wanted && history == h0 + [wanted]) || (!ok && records == before && history == h0)
    }

    method ListRecords(short: string, kind: RecordType) returns (r: Option<seq<Record>>)
      modifies `outcomes
      ensures r.Some? ==> r.value == Matching(records, ListedName(short, zone), kind)
      ensures old(Reliable()) ==> Reliable() && r.Some?
    {
      var o := Call();
      r := if o.Works? then Some(Matching(records, ListedName(short, zone), kind)) else None;
    }

    method CreateRecord(kind: RecordType, name: string, content: string, proxied: bool) returns (ok: bool)
      requires Valid()
      modifies this
      ensures old(Reliable()) ==> Reliable() && ok
      ensures Valid() && nextId >= old(nextId)
      ensures Wrote(old(records), old(history), old(records) + [Record(old(nextId), kind, name, content, proxied)], ok)
    {
      var o := Call();
      if !o.Lost? {
        records := records + [Record(nextId, kind, name, content, proxied)];
        nextId := nextId + 1;
        history := history + [records];
      }
      ok := o.Works?;
    }

    method UpdateRecord(r: Record) returns (ok: bool)
      requires Valid() && r.id < nextId
      modifies this
      ensures old(Reliable()) ==> Reliable() && ok
      ensures Valid() && nextId == old(nextId)
      ensures Wrote(old(records), old(history), Rewritten(old(records), r), ok)
    {
      var o := Call();
      if !o.Lost? {
        records := Rewritten(records, r);
        history := history + [records];
      }
      ok := o.Works?;
    }

    method DeleteRecord(id: nat) returns (ok: bool)
      requires Valid()
      modifies this
      ensures old(Reliable()) ==> Reliable() && ok
      ensures Valid() && nextId == old(nextId)
      ensures Wrote(old(records), old(history), Without(old(records), id), ok)
    {
      var o := Call();
      if !o.Lost? {
        records := Without(records, id);
        history := history + [records];
      }
      ok := o.Works?;
    }

    /** Every state since `h0` is lawful if the first was, and differs from it only at `name`. */
    ghost predicate Kept(before: seq<Record>, h0: seq<seq<Record>>, name: string)
      reads this
    {
      Valid() && KeptAlong(before, h0, records, history, name)
    }

    method DeleteOne(r: Record, ghost before: seq<Record>, ghost h0: seq<seq<Record>>) returns (ok: bool)
      requires Kept(before, h0, r.name) && !r.kind.Other? && r in before
      requires forall x :: x in records ==> x in before
      requires Identified(before)
      modifies this
      ensures old(Reliable()) ==> Reliable() && ok
      ensures Kept(before, h0, r.name)
      ensures forall x :: x in records ==> x in old(records)
      ensures forall x :: x in old(records) && x !in records ==> x == r
      ensures ok ==> r !in records
    {
      ghost var was, h1 := records, history;
      ok := DeleteRecord(r.id);
      forall x | x in was && x !in records ensures x == r {
        assert x in before && x.id == r.id;
      }
      DeletedKept(before, was, records, r);
      OneMoreState(before, h0, was, h1, records, history, r.name);
    }

    /** List the records of one kind and delete them one by one. */
    method DeleteAll(domain: string, kind: RecordType) returns (ok: bool)
      requires Valid() && !kind.Other?
      modifies this
      ensures old(Reliable()) ==> Reliable() && ok
      ensures Kept(old(records), old(history), ListedName(Label(domain), zone))
      ensures forall r :: r in records ==> r in old(records)
      ensures ok ==> Matching(records, ListedName(Label(domain), zone), kind) == []
      ensures forall r :: r in old(records) && r !in records ==> r.kind == kind
    {
      var short := RecordName(domain, zone);
      ghost var name, before := ListedName(short, zone), records;
      var found := ListRecords(short, kind);
      if found.None? { return false; }
      var todo := found.value;
      for i := 0 to |todo|
        invariant Kept(before, old(history), name) && (old(Reliable()) ==> Reliable())
        invariant forall r :: r in records ==> r in before
        invariant forall r :: r in before && r !in records ==> r.kind == kind
        invariant forall r :: r in records && r.name == name && r.kind == kind ==> r in todo[i..]
      {
        assert todo[i] in todo && todo[i..] == [todo[i]] + todo[i + 1..];
        ok := DeleteOne(todo[i], before, old(history));
        if !ok { return; }
      }
      assert todo[|todo|..] == [];
      NoneMatching(records, name, kind);
      return true;
    }

    /** The record, and the lookup, a binding is about. */
    ghost predicate Serves(domain: string, kind: RecordType, target: string, proxied: bool)
      reads this
    {
      Settled(records, ListedName(Label(domain), zone), kind, target, proxied)
    }

    /** Overwrite the record the lookup found first. */
    method Overwrite(was: Record, r: Record) returns (ok: bool)
      requires Valid() && r.id == was.id && r.kind == was.kind && !r.kind.Other? && Fits(r)
      requires Matching(records, was.name, was.kind) != [] && Matching(records, was.name, was.kind)[0] == was
      modifies this
      ensures old(Reliable()) ==> Reliable() && ok
      ensures Valid()
      ensures r.name == was.name ==> Kept(old(records), old(history), r.name)
      ensures r.name == was.name && ok ==> Settled(records, r.name, r.kind, r.content, r.proxied)
    {
      ghost var before, h0 := records, history;
      assert was in Matching(records, was.name, was.kind);
      ok := UpdateRecord(r);
      if r.name == was.name {
        NothingYet(before, h0, r.name);
        UpdatedKept(before, was, r);
        OneMoreState(before, h0, before, h0, records, history, r.name);
        UpdatedIsFound(before, was, r);
      }
    }

    /** Create a record that nothing at its name stands in the way of. */
    method CreateFree(kind: RecordType, name: string, content: string, proxied: bool,
                      ghost before: seq<Record>, ghost h0: seq<seq<Record>>) returns (ok: bool)
      requires Valid() && !kind.Other? && Fits(Record(0, kind, name, content, proxied))
      modifies this
      ensures old(Reliable()) ==> Reliable() && ok
      ensures Valid()
      ensures old(Kept(before, h0, name) && Free(records, name, kind)) ==> Kept(before, h0, name)
      ensures old(Free(records, name, kind)) && ok ==> Settled(records, name, kind, content, proxied)
    {
      ghost var was, h1, r := records, history, Record(nextId, kind, name, content, proxied);
      ok := CreateRecord(kind, name, content, proxied);
      if Free(was, name, kind) {
        CreatedIsFound(was, r);
        if KeptAlong(before, h0, was, h1, name) {
          CreatedKept(before, was, r);
          OneMoreState(before, h0, was, h1, records, history, name);
        }
      }
    }

    method EnsureAddress(domain: string, target: string, proxied: bool) returns (ok: bool)
      requires Valid()
      modifies this
      ensures old(Reliable()) ==> Reliable() && ok
      ensures Valid()
      ensures domain != "" || zone == "" ==>
        Kept(old(records), old(history), WrittenName(Label(domain), zone))
        && (ok ==> Serves(domain, TypeOfAddress(target), target, proxied))
      ensures old(Serves(domain, TypeOfAddress(target), target, proxied)) ==> history == old(history)
    {
      var rtype, short := TypeOfAddress(target), RecordName(domain, zone);
      ListedWhereWritten(domain, zone);
      var fqdn := WrittenName(short, zone);
      var existing := ListRecords(short, rtype);
      if existing.None? { return false; }
      if existing.value != [] {
        var rec := existing.value[0];
        if rec.content == target && rec.proxied == proxied { return true; }
        assert rec in existing.value;
        ok := Overwrite(rec, Record(rec.id, rtype, fqdn, target, proxied));
        return;
      }
      ok := DeleteAll(domain, CNAME);
      if !ok { return; }
      StillFree(old(records), records, ListedName(short, zone), rtype);
      ok := CreateFree(rtype, fqdn, target, proxied, old(records), old(history));
    }

    method EnsureCNAME(domain: string, target: string, proxied: bool) returns (ok: bool)
      requires Valid()
      modifies this
      ensures old(Reliable()) ==> Reliable() && ok
      ensures Valid()
      ensures domain != "" || zone == "" ==>
        Kept(old(records), old(history), WrittenName(Label(domain), zone))
        && (ok ==> Serves(domain, CNAME, target, proxied))
      ensures old(Serves(domain, CNAME, target, proxied)) ==> history == old(history)
    {
      var short := RecordName(domain, zone);
      ListedWhereWritten(domain, zone);
      var fqdn := WrittenName(short, zone);
      var existing := ListRecords(short, CNAME);
      if existing.None? { return false; }
      if existing.value != [] {
        var rec := existing.value[0];
        if rec.content == target && rec.proxied == proxied { return true; }
        assert rec in existing.value;
        ok := Overwrite(rec, Record(rec.id, CNAME, fqdn, target, proxied));
        return;
      }
      ok := DeleteAddresses(domain);
      if !ok { return; }
      StillFree(old(records), records, ListedName(short, zone), CNAME);
      ok := CreateFree(CNAME, fqdn, target, proxied, old(records), old(history));
    }

    /** The loop over the two address types. */
    method DeleteAddresses(domain: string) returns (ok: bool)
      requires Valid()
      modifies this
      ensures old(Reliable()) ==> Reliable() && ok
      ensures Kept(old(records), old(history), ListedName(Label(domain), zone))
      ensures forall r :: r in records ==> r in old(records)
      ensures ok ==> Matching(records, ListedName(Label(domain), zone), A) == []
      ensures ok ==> Matching(records, ListedName(Label(domain), zone), AAAA) == []
      ensures forall r :: r in old(records) && r !in records ==> IsAddress(r)
    {
      ghost var name, before := ListedName(Label(domain), zone), records;
      ok := DeleteAll(domain, A);
      if !ok { return; }
      ghost var mid, h1 := records, history;
      ok := DeleteAll(domain, AAAA);
      KeptTwice(before, old(history), mid, h1, name);
      if ok {
        StillFree(mid, records, name, A);
      }
    }

    lemma KeptTwice(before: seq<Record>, h0: seq<seq<Record>>, mid: seq<Record>, h1: seq<seq<Record>>, name: string)
      requires KeptState(before, mid, name) && h0 <= h1
      requires forall i :: |h0| <= i < |h1| ==> KeptState(before, h1[i], name)
      requires Kept(mid, h1, name)
      ensures Kept(before, h0, name)
    {
      forall i | |h0| <= i < |history| ensures KeptState(before, history[i], name) {
        if i < |h1| {
          assert history[i] == h1[i];
        }
      }
    }

    /** `RouteTo`: every state on the way is lawful, and success leaves the target in place. */
    method RouteTo(domain: string, b: IngressBinding) returns (ok: bool)
      requires Valid()
      modifies this
      ensures old(Reliable()) ==> (ok <==> b.dnsType in ["A", "AAAA", "", "CNAME"])
      ensures Valid()
      ensures domain != "" || zone == "" ==> Kept(old(records), old(history), WrittenName(Label(domain), zone))
      ensures ok ==> Routed(b).Some?
      ensures ok && (domain != "" || zone == "") ==> Serves(domain, Routed(b).value, b.target, b.proxied)
      ensures Routed(b).None? || old(Serves(domain, Routed(b).value, b.target, b.proxied)) ==> history == old(history)
      ensures ok ==> b.dnsType in ["A", "AAAA", "", "CNAME"]
      ensures ok && (domain != "" || zone == "") && b.dnsType == "CNAME" ==>
        AliasAt(records, WrittenName(Label(domain), zone), b.target, b.proxied)
      ensures ok && (domain != "" || zone == "") && b.dnsType != "CNAME" ==>
        AddressAt(records, WrittenName(Label(domain), zone), b.target, b.proxied)
    {
      ListedWhereWritten(domain, zone);
      if b.dnsType == "A" || b.dnsType == "AAAA" || b.dnsType == "" {
        ok := EnsureAddress(domain, b.target, b.proxied);
      } else if b.dnsType == "CNAME" {
        ok := EnsureCNAME(domain, b.target, b.proxied);
      } else {
        ok := false;
      }
      if ok && (domain != "" || zone == "") {
        SettledIsThere(records, ListedName(Label(domain), zone), Routed(b).value, b.target, b.proxied);
      }
    }

    /** `Unroute`: afterwards no address and no CNAME is left at the name, and nothing else has changed. */
    method Unroute(domain: string) returns (ok: bool)
      requires Valid()
      modifies this
      ensures old(Reliable()) ==> Reliable() && ok
      ensures Kept(old(records), old(history), ListedName(Label(domain), zone))
      ensures forall r :: r in records ==> r in old(records)
      ensures ok ==> forall r :: r in records && r.name == ListedName(Label(domain), zone) ==> r.kind.Other?
    {
      ghost var name, before := ListedName(Label(domain), zone), records;
      ok := DeleteAddresses(domain);
      if !ok { return; }
      ghost var mid, h1 := records, history;
      ok := DeleteAll(domain, CNAME);
      KeptTwice(before, old(history), mid, h1, name);
      if ok {
        StillFree(mid, records, name, A);
        StillFree(mid, records, name, AAAA);
        forall r | r in records && r.name == name ensures r.kind.Other? {
          assert r !in Matching(records, name, A) && r !in Matching(records, name, AAAA)
            && r !in Matching(records, name, CNAME);
        }
      }
    }
  }

  /** The kind of record a binding ends up as: the hint only separates CNAMEs from addresses. */
  function Routed(b: IngressBinding): Option<RecordType>
  {
    if b.dnsType == "A" || b.dnsType == "AAAA" || b.dnsType == "" then Some(TypeOfAddress(b.target))
    else if b.dnsType == "CNAME" then Some(CNAME)
    else None
  }

  /** The states after `h0`, and the one now, are lawful if `before` was, and differ from it only at `name`. */
  ghost predicate KeptAlong(before: seq<Record>, h0: seq<seq<Record>>, now: seq<Record>, history: seq<seq<Record>>,
                            name: string)
  {
    && h0 <= history && KeptState(before, now, name)
    && forall i :: |h0| <= i < |history| ==> KeptState(before, history[i], name)
  }

  /** One call more: it leaves a state that is kept, or it leaves everything as it was. */
  lemma OneMoreState(before: seq<Record>, h0: seq<seq<Record>>, was: seq<Record>, h1: seq<seq<Record>>,
                     now: seq<Record>, h2: seq<seq<Record>>, name: string)
    requires KeptAlong(before, h0, was, h1, name)
    requires (KeptState(before, now, name) && h2 == h1 + [now]) || (now == was && h2 == h1)
    ensures KeptAlong(before, h0, now, h2, name)
  {
  }

  lemma NothingYet(records: seq<Record>, history: seq<seq<Record>>, name: string)
    ensures KeptAlong(records, history, records, history, name)
  {
  }

  ghost predicate KeptState(before: seq<Record>, after: seq<Record>, name: string)
  {
    && (Exclusive(before) ==> Exclusive(after))
    && (Single(before) ==> Single(after))
    && (FamiliesFit(before) ==> FamiliesFit(after))
    && Elsewhere(before, after, name)
  }

  lemma DeletedKept(before: seq<Record>, was: seq<Record>, now: seq<Record>, r: Record)
    requires KeptState(before, was, r.name) && !r.kind.Other?
    requires forall x :: x in now ==> x in was
    requires forall x :: x in was && x !in now ==> x == r
    ensures KeptState(before, now, r.name)
  {
  }

  /** No record of this kind at the name, and none that excludes it. */
  ghost predicate Free(rs: seq<Record>, name: string, kind: RecordType)
  {
    Matching(rs, name, kind) == [] && forall r :: r in rs && r.name == name ==>
      (kind == CNAME ==> !IsAddress(r)) && (kind == A || kind == AAAA ==> r.kind != CNAME)
  }

  lemma StillFree(was: seq<Record>, now: seq<Record>, name: string, kind: RecordType)
    requires Matching(was, name, kind) == [] && forall x :: x in now ==> x in was
    ensures Matching(now, name, kind) == []
  {
    forall r | r in now ensures r.name != name || r.kind != kind {
      assert r !in Matching(was, name, kind);
    }
    NoneMatching(now, name, kind);
  }

  /** With one record per name and kind, being found first means being the only answer. */
  lemma SettledIsTheOnlyAnswer(rs: seq<Record>, name: string, kind: RecordType, target: string, proxied: bool)
    requires Single(rs) && Exclusive(rs) && !kind.Other? && Settled(rs, name, kind, target, proxied)
    ensures forall r :: r in rs && r.name == name && r.kind == kind ==> r.content == target && r.proxied == proxied
    ensures forall r :: r in rs && r.name == name && (kind == CNAME || r.kind == CNAME) && !r.kind.Other? ==>
      r.kind == kind
  {
    var first := Matching(rs, name, kind)[0];
    assert first in Matching(rs, name, kind);
  }

  lemma CreatedKept(before: seq<Record>, was: seq<Record>, r: Record)
    requires KeptState(before, was, r.name) && Free(was, r.name, r.kind) && !r.kind.Other? && Fits(r)
    ensures KeptState(before, was + [r], r.name)
  {
    forall q | q in was && q.name == r.name ensures q.kind != r.kind {
      assert q !in Matching(was, r.name, r.kind);
    }
  }

  lemma UpdatedKept(before: seq<Record>, was: Record, r: Record)
    requires Identified(before) && was in before
    requires r.id == was.id && r.kind == was.kind && r.name == was.name && !r.kind.Other? && Fits(r)
    ensures KeptState(before, Rewritten(before, r), r.name)
  {
    var now := Rewritten(before, r);
    forall q | q in now ensures q == r || (q in before && q != was) {
      var i :| 0 <= i < |now| && now[i] == q;
      assert before[i] in before;
    }
    forall q | q in before && q != was ensures q in now {
      var i :| 0 <= i < |before| && before[i] == q;
      assert now[i] == q;
    }
  }
}

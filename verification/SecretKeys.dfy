/**
 Which secret keys a deploy fetches (internal/reconcile/secrets.go) against which ones it later
 looks up (internal/reconcile/envvars.go, services.go, databases.go).
 */
module SecretKeys {
  import opened StringOrder
  import opened Strings
  import opened VarRefs
  import opened Wrappers

  /** The fields of a service or a cron that go through `$VAR` resolution. */
  datatype Workload = Workload(secrets: seq<string>, env: seq<string>)

  datatype Credentials = Credentials(user: string, password: string, database: string)

  datatype Config = Config(
    secrets: seq<string>,
    services: map<string, Workload>,
    crons: map<string, Workload>,
    databases: map<string, Option<Credentials>>)

  // ---------------------------------------------------------------- looking values up

  /** `kube.ParseSecretRef`: the two sides of the first `=`, or the text twice. */
  function ParseSecretRef(ref: string): (string, string)
  {
    match Cut(ref, '=')
    case Some(sides) => sides
    case None => (ref, ref)
  }

  /** A bare secret name is short for `NAME=$NAME`. */
  function Normalize(entry: string): string
  {
    if '=' in entry then entry else entry + "=$" + entry
  }

  function Key(entry: string): string
  {
    ParseSecretRef(entry).0
  }

  /** The text an `env:` entry resolves. */
  function Raw(entry: string): string
  {
    ParseSecretRef(entry).1
  }

  method ResolveEntry(entry: string, sources: Sources) returns (r: Result<(string, string), Error>)
    ensures r.Ok? <==> Resolve(Parse(Raw(entry)), sources).Ok?
    ensures r.Ok? ==> r.value == (Key(entry), Substitute(Parse(Raw(entry)), sources))
  {
    var (key, raw) := ParseSecretRef(entry);
    var value := ResolveRef(raw, sources);
    match value
    case Ok(v) => r := Ok((key, v));
    case Err(e) => r := Err(e);
  }

  /** A later pair with the same name wins. */
  function MapOf(pairs: seq<(string, string)>): map<string, string>
  {
    if pairs == [] then map[]
    else
      var last := pairs[|pairs| - 1];
      MapOf(pairs[..|pairs| - 1])[last.0 := last.1]
  }

  lemma {:induction false} MapOfKeys(pairs: seq<(string, string)>, k: string)
    ensures k in MapOf(pairs) <==> exists i :: 0 <= i < |pairs| && pairs[i].0 == k
  {
    if pairs != [] {
      var n := |pairs| - 1;
      MapOfKeys(pairs[..n], k);
      if k in MapOf(pairs) && pairs[n].0 != k {
        var i :| 0 <= i < n && pairs[..n][i].0 == k;
        assert pairs[i].0 == k;
      }
    }
  }

  lemma {:induction false} LastPairWins(pairs: seq<(string, string)>, i: nat)
    requires i < |pairs| && forall j :: i < j < |pairs| ==> pairs[j].0 != pairs[i].0
    ensures pairs[i].0 in MapOf(pairs) && MapOf(pairs)[pairs[i].0] == pairs[i].1
  {
    var n := |pairs| - 1;
    if i < n {
      LastPairWins(pairs[..n], i);
    }
  }

  /** What one `secrets:` entry puts into the Secret. */
  function SecretPair(entry: string, sources: Sources): (string, string)
  {
    (Key(Normalize(entry)), Substitute(Parse(Raw(Normalize(entry))), sources))
  }

  function SecretPairs(entries: seq<string>, sources: Sources): (pairs: seq<(string, string)>)
    ensures |pairs| == |entries|
  {
    seq(|entries|, i requires 0 <= i < |entries| => SecretPair(entries[i], sources))
  }

  /** The Secret data of a list of entries. */
  function SecretData(entries: seq<string>, sources: Sources): map<string, string>
  {
    MapOf(SecretPairs(entries, sources))
  }

  /** The env names of a list of entries, in order. */
  function SecretNames(entries: seq<string>): (names: seq<string>)
    ensures |names| == |entries|
  {
    seq(|entries|, i requires 0 <= i < |entries| => Key(Normalize(entries[i])))
  }

  predicate SecretResolves(entry: string, sources: Sources)
  {
    Resolve(Parse(Raw(Normalize(entry))), sources).Ok?
  }

  /** All of these entries resolve, to this data and these names. */
  ghost predicate AllResolved(entries: seq<string>, sources: Sources, kvs: map<string, string>, refs: seq<string>)
  {
    && kvs == SecretData(entries, sources) && refs == SecretNames(entries)
    && forall e :: e in entries ==> SecretResolves(e, sources)
  }

  lemma OneMorePair(seen: seq<string>, e: string, sources: Sources)
    ensures SecretPairs(seen + [e], sources) == SecretPairs(seen, sources) + [SecretPair(e, sources)]
    ensures SecretNames(seen + [e]) == SecretNames(seen) + [SecretPair(e, sources).0]
  {
  }

  lemma MapOfSnoc(pairs: seq<(string, string)>, p: (string, string))
    ensures MapOf(pairs + [p]) == MapOf(pairs)[p.0 := p.1]
  {
    assert (pairs + [p])[..|pairs|] == pairs;
  }

  lemma OneMoreSecret(seen: seq<string>, e: string, sources: Sources, kvs: map<string, string>, refs: seq<string>)
    requires AllResolved(seen, sources, kvs, refs) && SecretResolves(e, sources)
    ensures var p := SecretPair(e, sources); AllResolved(seen + [e], sources, kvs[p.0 := p.1], refs + [p.0])
  {
    OneMorePair(seen, e, sources);
    MapOfSnoc(SecretPairs(seen, sources), SecretPair(e, sources));
  }

  method ResolveSecretEntries(entries: seq<string>, sources: Sources)
      returns (r: Result<(map<string, string>, seq<string>), Error>)
    ensures r.Ok? <==> forall e :: e in entries ==> SecretResolves(e, sources)
    ensures r.Ok? ==> r.value == (SecretData(entries, sources), SecretNames(entries))
  {
    var kvs: map<string, string>, refs: seq<string> := map[], [];
    for i := 0 to |entries|
      invariant AllResolved(entries[..i], sources, kvs, refs)
    {
      var entry := entries[i];
      assert entries[..i + 1] == entries[..i] + [entry];
      var resolved := ResolveEntry(Normalize(entry), sources);
      if resolved.Err? {
        assert entry in entries && !SecretResolves(entry, sources);
        return Err(resolved.error);
      }
      OneMoreSecret(entries[..i], entry, sources, kvs, refs);
      var (name, value) := resolved.value;
      kvs := kvs[name := value];
      refs := refs + [name];
    }
    assert entries[..|entries|] == entries;
    return Ok((kvs, refs));
  }

  /** The entry is the bare name `k`, or `k`, an equals sign and a text. */
  ghost predicate Declares(entry: string, k: string)
  {
    '=' !in k && (entry == k || k + "=" <= entry)
  }

  /** The text of that entry; a bare name stands for its own reference. */
  ghost function TextFor(entry: string, k: string): string
    requires Declares(entry, k)
  {
    if entry == k then "$" + k else entry[|k| + 1..]
  }

  /** Name and text of every entry, read off the entry itself; an `env:` entry without equals sign is its own text. */
  lemma EntrySides(entry: string, k: string)
    ensures Key(entry) == k <==> Declares(entry, k)
    ensures Declares(entry, k) ==> Raw(Normalize(entry)) == TextFor(entry, k) && Key(Normalize(entry)) == k
    ensures Declares(entry, k) ==> Raw(entry) == if entry == k then k else TextFor(entry, k)
  {
    if Declares(entry, k) {
      if entry == k {
        CutIs(k, '=', "$" + k);
        assert Normalize(entry) == k + ['='] + ("$" + k);
      } else {
        CutIs(k, '=', entry[|k| + 1..]);
        assert entry == k + ['='] + entry[|k| + 1..];
      }
    }
  }

  /** The last entry that declares `k` is number `i`. */
  ghost predicate LastDeclares(entries: seq<string>, i: int, k: string)
  {
    && 0 <= i < |entries| && Declares(entries[i], k)
    && forall j :: i < j < |entries| ==> !Declares(entries[j], k)
  }

  /** The Secret holds, under each declared name, what the text of its last entry resolves to. */
  lemma SecretValue(entries: seq<string>, sources: Sources, k: string, i: int)
    requires LastDeclares(entries, i, k)
    ensures k in SecretData(entries, sources)
    ensures SecretData(entries, sources)[k] == Substitute(Parse(TextFor(entries[i], k)), sources)
  {
    var pairs := SecretPairs(entries, sources);
    forall j | i <= j < |entries|
      ensures pairs[j].0 == k <==> Declares(entries[j], k)
      ensures j == i ==> pairs[j].1 == Substitute(Parse(TextFor(entries[i], k)), sources)
    {
      PairOf(entries[j], sources, k);
    }
    LastPairWins(pairs, i);
  }

  /** The keys of the Secret are the declared names. */
  lemma SecretDataHas(entries: seq<string>, sources: Sources, k: string)
    ensures k in SecretData(entries, sources) <==> exists e :: e in entries && Declares(e, k)
    ensures k in SecretNames(entries) <==> exists e :: e in entries && Declares(e, k)
  {
    var pairs := SecretPairs(entries, sources);
    MapOfKeys(pairs, k);
    forall j | 0 <= j < |entries| ensures pairs[j].0 == SecretNames(entries)[j] == k <==> Declares(entries[j], k) {
      PairOf(entries[j], sources, k);
    }
  }

  lemma PairOf(entry: string, sources: Sources, k: string)
    ensures SecretPair(entry, sources).0 == k <==> Declares(entry, k)
    ensures Declares(entry, k) ==> SecretPair(entry, sources).1 == Substitute(Parse(TextFor(entry, k)), sources)
  {
    EntrySides(entry, k);
    EntrySides(entry, Key(entry));
  }

  lemma ResolvedText(entry: string, sources: Sources, k: string)
    requires Declares(entry, k) && SecretResolves(entry, sources)
    ensures Resolve(Parse(TextFor(entry, k)), sources) == Ok(Substitute(Parse(TextFor(entry, k)), sources))
  {
    EntrySides(entry, k);
    ResolveSucceedsExactly(Parse(TextFor(entry, k)), sources);
  }

  lemma SecretResolvesTo(entries: seq<string>, sources: Sources, k: string, i: int)
    requires LastDeclares(entries, i, k) && SecretResolves(entries[i], sources)
    ensures k in SecretData(entries, sources)
    ensures Resolve(Parse(TextFor(entries[i], k)), sources) == Ok(SecretData(entries, sources)[k])
  {
    SecretValue(entries, sources, k, i);
    ResolvedText(entries[i], sources, k);
  }

  // ---------------------------------------------------------------- collecting keys

  /** Keys fetched for one `secrets:` entry: a bare name itself, else every reference of the text. */
  ghost predicate SecretNeeds(entry: string, k: string)
  {
    if '=' in entry then k in Refs(Parse(entry)) else k == entry
  }

  ghost predicate SecretsNeed(entries: seq<string>, k: string)
  {
    exists e :: e in entries && SecretNeeds(e, k)
  }

  ghost predicate EnvNeeds(entries: seq<string>, k: string)
  {
    exists e :: e in entries && k in Refs(Parse(e))
  }

  ghost predicate WorkloadNeeds(w: Workload, k: string)
  {
    SecretsNeed(w.secrets, k) || EnvNeeds(w.env, k)
  }

  ghost predicate CredentialsNeed(c: Option<Credentials>, k: string)
  {
    c.Some? && (k in Refs(Parse(c.value.user)) || k in Refs(Parse(c.value.password))
      || k in Refs(Parse(c.value.database)))
  }

  ghost predicate AnyNeeds(ws: map<string, Workload>, k: string)
  {
    exists n :: n in ws && WorkloadNeeds(ws[n], k)
  }

  ghost predicate AnyCredentialsNeed(dbs: map<string, Option<Credentials>>, k: string)
  {
    exists n :: n in dbs && CredentialsNeed(dbs[n], k)
  }

  ghost predicate Collected(cfg: Config, k: string)
  {
    k in cfg.secrets || AnyNeeds(cfg.services, k) || AnyNeeds(cfg.crons, k) || AnyCredentialsNeed(cfg.databases, k)
  }

  /** An entry of some `secrets:` list. */
  ghost predicate SecretEntry(cfg: Config, e: string)
  {
    || (exists n :: n in cfg.services && e in cfg.services[n].secrets)
    || (exists n :: n in cfg.crons && e in cfg.crons[n].secrets)
  }

  /** An entry of some `env:` list, or a field of some database's credentials. */
  ghost predicate PlainText(cfg: Config, e: string)
  {
    || (exists n :: n in cfg.services && e in cfg.services[n].env)
    || (exists n :: n in cfg.crons && e in cfg.crons[n].env)
    || (exists n :: n in cfg.databases && cfg.databases[n].Some?
          && e in [cfg.databases[n].value.user, cfg.databases[n].value.password, cfg.databases[n].value.database])
  }

  /** A key is needed because it is declared, is a bare entry itself, or is named in a text; for no other reason. */
  lemma EveryKeyHasAReason(cfg: Config, k: string)
    ensures Collected(cfg, k) <==>
      || k in cfg.secrets
      || (exists e :: SecretEntry(cfg, e) && if '=' in e then k in Refs(Parse(e)) else e == k)
      || (exists e :: PlainText(cfg, e) && k in Refs(Parse(e)))
  {
    if n :| n in cfg.databases && CredentialsNeed(cfg.databases[n], k) {
      var c := cfg.databases[n].value;
      var e :| e in [c.user, c.password, c.database] && k in Refs(Parse(e));
      assert PlainText(cfg, e);
    }
    if e :| PlainText(cfg, e) && k in Refs(Parse(e)) {
      assert EnvOrCredentials(cfg, e, k);
    }
  }

  ghost predicate EnvOrCredentials(cfg: Config, e: string, k: string)
  {
    k in Refs(Parse(e)) ==> AnyNeeds(cfg.services, k) || AnyNeeds(cfg.crons, k) || AnyCredentialsNeed(cfg.databases, k)
  }

  method CollectVars(raw: string, seen0: set<string>) returns (seen: set<string>)
    ensures forall k :: k in seen <==> k in seen0 || k in Refs(Parse(raw))
  {
    var names := ExtractVarRefs(raw);
    seen := seen0 + set n | n in names;
  }

  method CollectRefs(refs: seq<string>, seen0: set<string>) returns (seen: set<string>)
    ensures forall k :: k in seen <==> k in seen0 || SecretsNeed(refs, k)
  {
    seen := seen0;
    for i := 0 to |refs|
      invariant forall k :: k in seen <==> k in seen0 || SecretsNeed(refs[..i], k)
    {
      var ref := refs[i];
      Snoc(refs, i);
      assert forall k :: SecretsNeed(refs[..i + 1], k) <==> SecretsNeed(refs[..i], k) || SecretNeeds(ref, k);
      if '=' !in ref {
        seen := seen + {ref};
      } else {
        seen := CollectVars(ref, seen);
      }
    }
    assert refs[..|refs|] == refs;
  }

  method CollectWorkload(w: Workload, seen0: set<string>) returns (seen: set<string>)
    ensures forall k :: k in seen <==> k in seen0 || WorkloadNeeds(w, k)
  {
    seen := CollectRefs(w.secrets, seen0);
    ghost var afterRefs := seen;
    for i := 0 to |w.env|
      invariant forall k :: k in seen <==> k in afterRefs || EnvNeeds(w.env[..i], k)
    {
      var entry := w.env[i];
      Snoc(w.env, i);
      assert forall k :: EnvNeeds(w.env[..i + 1], k) <==> EnvNeeds(w.env[..i], k) || k in Refs(Parse(entry));
      seen := CollectVars(entry, seen);
    }
    assert w.env[..|w.env|] == w.env;
  }

  method CollectWorkloads(ws: map<string, Workload>, seen0: set<string>) returns (seen: set<string>)
    ensures forall k :: k in seen <==> k in seen0 || AnyNeeds(ws, k)
  {
    seen := seen0;
    var todo := ws.Keys;
    while todo != {}
      invariant todo <= ws.Keys
      invariant forall k :: k in seen <==> k in seen0 || exists n :: n in ws && n !in todo && WorkloadNeeds(ws[n], k)
      decreases todo
    {
      var n :| n in todo;
      todo := todo - {n};
      seen := CollectWorkload(ws[n], seen);
    }
  }

  method CollectDatabases(dbs: map<string, Option<Credentials>>, seen0: set<string>) returns (seen: set<string>)
    ensures forall k :: k in seen <==> k in seen0 || AnyCredentialsNeed(dbs, k)
  {
    seen := seen0;
    var todo := dbs.Keys;
    while todo != {}
      invariant todo <= dbs.Keys
      invariant forall k :: k in seen <==>
        k in seen0 || exists n :: n in dbs && n !in todo && CredentialsNeed(dbs[n], k)
      decreases todo
    {
      var n :| n in todo;
      todo := todo - {n};
      match dbs[n]
      case None =>
      case Some(c) =>
        seen := CollectVars(c.user, seen);
        seen := CollectVars(c.password, seen);
        seen := CollectVars(c.database, seen);
    }
  }

  method CollectSecretKeys(cfg: Config) returns (keys: seq<string>)
    ensures Sorted(keys) && NoDup(keys)
    ensures forall k :: k in keys <==> Collected(cfg, k)
  {
    var seen := set k | k in cfg.secrets;
    seen := CollectWorkloads(cfg.services, seen);
    seen := CollectWorkloads(cfg.crons, seen);
    seen := CollectDatabases(cfg.databases, seen);
    keys := SortedKeys(seen);
  }

  datatype SecretsError = BackendFailed(key: string) | NotFound(key: string)

  /** The loop over the collected keys: a backend failure ends it, an empty value is dropped. */
  method Fetch(keys: seq<string>, backend: string -> Option<string>) returns (r: Result<Sources, SecretsError>)
    ensures r.Ok? <==> forall k :: k in keys ==> backend(k).Some?
    ensures r.Ok? ==> forall k :: k in r.value <==> k in keys && backend(k).Some? && backend(k).value != ""
    ensures r.Ok? ==> forall k :: k in r.value ==> backend(k) == Some(r.value[k])
  {
    var values: Sources := map[];
    for i := 0 to |keys|
      invariant forall k :: k in keys[..i] ==> backend(k).Some?
      invariant forall k :: k in values <==> k in keys[..i] && backend(k).Some? && backend(k).value != ""
      invariant forall k :: k in values ==> backend(k) == Some(values[k])
    {
      Snoc(keys, i);
      match backend(keys[i])
      case None => return Err(BackendFailed(keys[i]));
      case Some(val) =>
        if val != "" {
          values := values[keys[i] := val];
        }
    }
    Whole(keys);
    return Ok(values);
  }

  /** `Secrets`: fetch every collected key, keep the non-empty values, insist on the global ones. */
  method Secrets(cfg: Config, backend: string -> Option<string>) returns (r: Result<Sources, SecretsError>)
    ensures r.Ok? ==> forall k :: k in r.value <==> Collected(cfg, k) && backend(k).Some? && backend(k).value != ""
    ensures r.Ok? ==> forall k :: k in r.value ==> backend(k) == Some(r.value[k])
    ensures r.Ok? <==>
      (forall k :: Collected(cfg, k) ==> backend(k).Some?) && (forall k :: k in cfg.secrets ==> backend(k) != Some(""))
  {
    var allKeys := CollectSecretKeys(cfg);
    r := Fetch(allKeys, backend);
    if r.Err? { return; }
    for i := 0 to |cfg.secrets|
      invariant forall j :: 0 <= j < i ==> cfg.secrets[j] in r.value
    {
      assert Collected(cfg, cfg.secrets[i]);
      if cfg.secrets[i] !in r.value {
        return Err(NotFound(cfg.secrets[i]));
      }
    }
  }

  // ---------------------------------------------------------------- key and value share one scan

  /** `t` with its end replaced by `u`. */
  function Append(t: Text, u: Text): Text
  {
    match t
    case End => u
    case Lit(c, rest) => Lit(c, Append(rest, u))
    case Ref(name, braced, rest) => Ref(name, braced, Append(rest, u))
    case Unclosed(_) => t
  }

  lemma {:induction false} AppendText(t: Text, u: Text)
    requires Closed(t)
    ensures Print(Append(t, u)) == Print(t) + Print(u)
    ensures Refs(Append(t, u)) == Refs(t) + Refs(u)
  {
    match t
    case End =>
    case Lit(c, rest) =>
      AppendText(rest, u);
      assert [c] + (Print(rest) + Print(u)) == [c] + Print(rest) + Print(u);
    case Ref(name, braced, rest) =>
      AppendText(rest, u);
      var piece := if braced then "${" + name + "}" else "$" + name;
      assert piece + (Print(rest) + Print(u)) == piece + Print(rest) + Print(u);
      assert [name] + (Refs(rest) + Refs(u)) == [name] + Refs(rest) + Refs(u);
  }

  lemma {:induction false} AppendAfterEquals(t: Text, u: Text)
    requires Canonical(t) && Closed(t) && Canonical(u) && u.Lit? && u.c == '='
    ensures Canonical(Append(t, u))
  {
    if t.Lit? || t.Ref? {
      AppendText(t.rest, u);
      AppendAfterEquals(t.rest, u);
    }
  }

  lemma AppendReads(t: Text, u: Text)
    requires Canonical(t) && Closed(t) && Canonical(u) && u.Lit? && u.c == '='
    ensures Parse(Print(t) + Print(u)) == Append(t, u) && Refs(Append(t, u)) == Refs(t) + Refs(u)
  {
    AppendText(t, u);
    AppendAfterEquals(t, u);
    OnlyReading(Append(t, u));
  }

  /** Scanning a whole `KEY=VALUE` entry lists the key's names, then the value's. */
  lemma EntryRefs(key: string, raw: string)
    requires Closed(Parse(key))
    ensures Refs(Parse(key + "=" + raw)) == Refs(Parse(key)) + Refs(Parse(raw))
  {
    ParseRoundTrip(key);
    ParseRoundTrip(raw);
    var u := Lit('=', Parse(raw));
    assert key + "=" + raw == key + ("=" + raw);
    AppendReads(Parse(key), u);
  }

  /** `t` with more text inside its unclosed reference. */
  function Extend(t: Text, more: string): Text
  {
    match t
    case End => End
    case Lit(c, rest) => Lit(c, Extend(rest, more))
    case Ref(name, braced, rest) => Ref(name, braced, Extend(rest, more))
    case Unclosed(text) => Unclosed(text + more)
  }

  lemma {:induction false} ExtendPrints(t: Text, more: string)
    requires !Closed(t)
    ensures Print(Extend(t, more)) == Print(t) + more && Print(t) != ""
    ensures Refs(Extend(t, more)) == Refs(t)
  {
    match t
    case Lit(c, rest) =>
      ExtendPrints(rest, more);
      assert [c] + (Print(rest) + more) == [c] + Print(rest) + more;
    case Ref(name, braced, rest) =>
      ExtendPrints(rest, more);
      var piece := if braced then "${" + name + "}" else "$" + name;
      assert piece + (Print(rest) + more) == piece + Print(rest) + more;
    case Unclosed(text) =>
      assert "${" + (text + more) == "${" + text + more;
  }

  lemma {:induction false} ExtendUnclosed(t: Text, more: string)
    requires Canonical(t) && !Closed(t) && '}' !in more
    ensures Canonical(Extend(t, more))
  {
    if t.Lit? || t.Ref? {
      ExtendPrints(t.rest, more);
      ExtendUnclosed(t.rest, more);
    }
  }

  lemma {:induction false} RefsAreShort(t: Text)
    ensures forall n :: n in Refs(t) ==> |n| <= |Print(t)|
  {
    if t.Lit? || t.Ref? {
      RefsAreShort(t.rest);
    }
  }

  /** Scanning the whole entry finds the value's names for every value exactly when the key closes its braces. */
  lemma KeyHidesNothingIffClosed(key: string)
    ensures Closed(Parse(key)) <==>
      forall raw, n :: n in Refs(Parse(raw)) ==> n in Refs(Parse(key + "=" + raw))
  {
    if Closed(Parse(key)) {
      forall raw, n | n in Refs(Parse(raw)) ensures n in Refs(Parse(key + "=" + raw)) {
        EntryRefs(key, raw);
      }
    } else {
      var name := seq(|key| + 1, i => 'A');
      var raw, more := "$" + name, "=$" + name;
      var t := Parse(key);
      ParseRoundTrip(key);
      ExtendPrints(t, more);
      ExtendUnclosed(t, more);
      OnlyReading(Extend(t, more));
      RefsAreShort(t);
      assert key + "=" + raw == Print(t) + more;
      assert Print(Ref(name, false, End)) == raw;
      OnlyReading(Ref(name, false, End));
      assert Refs(Parse(raw)) == [name];
    }
  }

  // ---------------------------------------------------------------- completeness

  /** `utils.ValidateEnvVarName`, which the validator applies to every secret name. */
  predicate ValidEnvVarName(s: string)
  {
    s != "" && 'A' <= s[0] <= 'Z' && forall i :: 0 <= i < |s| ==>
      'A' <= s[i] <= 'Z' || '0' <= s[i] <= '9' || s[i] == '_'
  }

  /** The validator's names: identifiers without small letters that begin with a letter. */
  lemma ValidNamesAre(s: string)
    ensures ValidEnvVarName(s) <==>
      IsIdentifier(s) && s[0] != '_' && forall i :: 0 <= i < |s| ==> !('a' <= s[i] <= 'z')
  {
  }

  lemma BareNameRefersToItself(name: string)
    requires ValidEnvVarName(name)
    ensures Refs(Parse("$" + name)) == [name] && Closed(Parse("$" + name))
  {
    assert Print(Ref(name, false, End)) == "$" + name;
    OnlyReading(Ref(name, false, End));
  }

  lemma EnvEntryIsCovered(entry: string)
    requires '=' in entry ==> Closed(Parse(Key(entry)))
    ensures forall n :: n in Refs(Parse(Raw(entry))) ==> n in Refs(Parse(entry))
  {
    match Cut(entry, '=')
    case Some((key, raw)) => EntryRefs(key, raw);
    case None =>
  }

  lemma {:induction false} ValidNameIsLiteral(name: string, i: nat)
    requires ValidEnvVarName(name) && i <= |name|
    ensures Closed(ParseFrom(name, i))
    decreases |name| - i
  {
    if i < |name| { ValidNameIsLiteral(name, i + 1); }
  }

  lemma SecretEntryIsCovered(entry: string)
    requires ValidEnvVarName(Key(entry))
    ensures forall n :: n in Refs(Parse(Raw(Normalize(entry)))) ==> SecretNeeds(entry, n)
  {
    if '=' in entry {
      ValidNameIsLiteral(Key(entry), 0);
      EnvEntryIsCovered(entry);
    } else {
      assert Normalize(entry) == entry + ['='] + ("$" + entry);
      CutIs(entry, '=', "$" + entry);
      BareNameRefersToItself(entry);
    }
  }

  /** Every lookup the deploy makes succeeds on its text, except for an unclosed `${`. */
  ghost predicate Resolvable(text: string, sources: Sources)
  {
    Resolve(Parse(text), sources).Ok? <==> Closed(Parse(text))
  }

  lemma CoveredIsResolvable(text: string, sources: Sources)
    requires forall n :: n in Refs(Parse(text)) ==> n in sources
    ensures Resolvable(text, sources)
  {
    ResolveSucceedsExactly(Parse(text), sources);
  }

  ghost predicate WorkloadResolvable(w: Workload, sources: Sources)
  {
    && (forall e :: e in w.env ==> Resolvable(Raw(e), sources))
    && (forall e :: e in w.secrets ==> Resolvable(Raw(Normalize(e)), sources))
  }

  ghost predicate CredentialsResolvable(c: Option<Credentials>, sources: Sources)
  {
    c.Some? ==>
      Resolvable(c.value.user, sources) && Resolvable(c.value.password, sources)
        && Resolvable(c.value.database, sources)
  }

  /** Secret names are validated; an env key leaves no `${` open. */
  ghost predicate WellNamed(w: Workload)
  {
    && (forall e :: e in w.secrets ==> ValidEnvVarName(Key(e)))
    && (forall e :: e in w.env && '=' in e ==> Closed(Parse(Key(e))))
  }

  lemma WorkloadIsComplete(w: Workload, sources: Sources)
    requires WellNamed(w) && forall k :: WorkloadNeeds(w, k) ==> k in sources
    ensures WorkloadResolvable(w, sources)
  {
    forall e | e in w.env ensures Resolvable(Raw(e), sources) {
      EnvEntryIsCovered(e);
      CoveredIsResolvable(Raw(e), sources);
    }
    forall e | e in w.secrets ensures Resolvable(Raw(Normalize(e)), sources) {
      SecretEntryIsCovered(e);
      CoveredIsResolvable(Raw(Normalize(e)), sources);
    }
  }

  /** If every collected key has a value, no lookup of the deploy meets an unknown name. */
  lemma CollectedKeysSuffice(cfg: Config, sources: Sources)
    requires forall n :: n in cfg.services ==> WellNamed(cfg.services[n])
    requires forall n :: n in cfg.crons ==> WellNamed(cfg.crons[n])
    requires forall k :: Collected(cfg, k) ==> k in sources
    ensures forall n :: n in cfg.services ==> WorkloadResolvable(cfg.services[n], sources)
    ensures forall n :: n in cfg.crons ==> WorkloadResolvable(cfg.crons[n], sources)
    ensures forall n :: n in cfg.databases ==> CredentialsResolvable(cfg.databases[n], sources)
  {
    forall n | n in cfg.services ensures WorkloadResolvable(cfg.services[n], sources) {
      WorkloadIsComplete(cfg.services[n], sources);
    }
    forall n | n in cfg.crons ensures WorkloadResolvable(cfg.crons[n], sources) {
      WorkloadIsComplete(cfg.crons[n], sources);
    }
    forall n | n in cfg.databases ensures CredentialsResolvable(cfg.databases[n], sources) {
      if cfg.databases[n].Some? {
        var c := cfg.databases[n].value;
        assert forall k :: CredentialsNeed(cfg.databases[n], k) ==> k in sources;
        CoveredIsResolvable(c.user, sources);
        CoveredIsResolvable(c.password, sources);
        CoveredIsResolvable(c.database, sources);
      }
    }
  }

  lemma OpenKeyEntry(entry: string, name: string)
    requires ValidEnvVarName(name) && entry == "${" + "=" + "$" + name
    ensures Refs(Parse(entry)) == [] && Raw(entry) == "$" + name
  {
    var text := "=" + "$" + name;
    OnlyReading(Unclosed(text));
    assert entry == Print(Unclosed(text));
    CutIs("${", '=', "$" + name);
    assert entry == "${" + ['='] + ("$" + name);
  }

  /** Without the condition on env keys the promise breaks: `${=$B` fetches nothing but looks up `B`. */
  lemma OpenKeyBreaksCompleteness(name: string, entry: string, w: Workload, cfg: Config)
    requires ValidEnvVarName(name) && entry == "${" + "=" + "$" + name
    requires w == Workload([], [entry]) && cfg == Config([], map["web" := w], map[], map[])
    ensures forall k :: !Collected(cfg, k)
    ensures !Resolvable(Raw(entry), map[])
  {
    OpenKeyEntry(entry, name);
    BareNameRefersToItself(name);
    ResolveSucceedsExactly(Parse("$" + name), map[]);
    forall k ensures !Collected(cfg, k) {
      assert forall e :: e in w.env ==> e == entry;
    }
  }
}

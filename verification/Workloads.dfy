/**
 What a service or cron is configured with, and the Secret its entries add up to
 (internal/reconcile/services.go:121-170, internal/reconcile/plan.go:954-992).
 */
module Workloads {
  import opened Names
  import opened StringOrder
  import opened Strings
  import opened Wrappers
  import S = SecretKeys
  import V = VarRefs

  type Sources = map<string, string>

  datatype ServiceDef = ServiceDef(
    image: string, built: bool, volumes: seq<string>, env: seq<string>,
    secrets: seq<string>, storage: seq<string>, databases: seq<string>, dependsOn: seq<string>)

  datatype CronDef = CronDef(
    schedule: string, image: string, volumes: seq<string>, env: seq<string>, secrets: seq<string>, storage: seq<string>)

  datatype Config = Config(
    services: map<string, ServiceDef>, crons: map<string, CronDef>, registries: set<string>, knownVolumes: set<string>)

  // ---------------------------------------------------------------- volumes

  /** `ParseVolumeMount`: the source of a mount and whether it names a managed volume. */
  function MountSource(mount: string): Option<(string, bool)>
  {
    match Cut(mount, ':')
    case None => None
    case Some((source, _)) => if source == "" then None else Some((source, source[0] != '/' && source[0] != '.'))
  }

  predicate NamesVolume(mount: string)
  {
    MountSource(mount).Some? && MountSource(mount).value.1
  }

  /** A mount the first look at the volumes takes: well formed, and a named volume is known. */
  predicate KnownMount(mount: string, known: set<string>)
  {
    MountSource(mount).Some? && (NamesVolume(mount) ==> MountSource(mount).value.0 in known)
  }

  /** A mount whose source is a path relative to the deployer's own directory. */
  predicate Relative(mount: string)
  {
    MountSource(mount).Some? && MountSource(mount).value.0[0] == '.'
  }

  /** A mount that becomes a pod volume. */
  predicate Bindable(mount: string)
  {
    MountSource(mount).Some? && !Relative(mount)
  }

  /** A mount the whole apply step takes. */
  predicate GoodMount(mount: string, known: set<string>)
  {
    KnownMount(mount, known) && Bindable(mount)
  }

  /** Some mount names a managed volume: the service runs as a StatefulSet. */
  predicate Managed(volumes: seq<string>)
  {
    exists m :: m in volumes && NamesVolume(m)
  }

  /** The loop over the mounts: nothing when one is invalid or unknown, otherwise whether a volume is managed. */
  method CheckMounts(volumes: seq<string>, known: set<string>) returns (managed: Option<bool>)
    ensures managed.Some? <==> forall m :: m in volumes ==> KnownMount(m, known)
    ensures managed.Some? ==> managed.value == Managed(volumes)
  {
    var found := false;
    for i := 0 to |volumes|
      invariant forall m :: m in volumes[..i] ==> KnownMount(m, known)
      invariant found <==> exists m :: m in volumes[..i] && NamesVolume(m)
    {
      Snoc(volumes, i);
      if !KnownMount(volumes[i], known) { return None; }
      found := found || NamesVolume(volumes[i]);
    }
    Whole(volumes);
    return Some(found);
  }

  /** `buildVolumes`, which refuses relative sources: the source of every pod volume, in order. */
  method BuildVolumes(volumes: seq<string>) returns (hosts: Option<seq<string>>)
    ensures hosts.Some? <==> forall m :: m in volumes ==> Bindable(m)
    ensures hosts.Some? ==> |hosts.value| == |volumes| && forall i :: 0 <= i < |volumes| ==>
      Some(hosts.value[i]) == MountHost(volumes[i])
  {
    var out: seq<string> := [];
    for i := 0 to |volumes|
      invariant forall m :: m in volumes[..i] ==> Bindable(m)
      invariant |out| == i && forall j :: 0 <= j < i ==> Some(out[j]) == MountHost(volumes[j])
    {
      Snoc(volumes, i);
      if !Bindable(volumes[i]) { return None; }
      out := out + [MountSource(volumes[i]).value.0];
    }
    Whole(volumes);
    return Some(out);
  }

  function MountHost(mount: string): Option<string>
  {
    if MountSource(mount).Some? then Some(MountSource(mount).value.0) else None
  }

  /** A mount the validator accepts (validate.go:525-538): a path, a relative path, or a declared volume. */
  predicate AcceptedMount(mount: string, known: set<string>)
  {
    match Cut(mount, ':')
    case None => false
    case Some((source, _)) => (source != "" && (source[0] == '/' || source[0] == '.')) || source in known
  }

  /** Accepted mounts deploy exactly when none of them is relative. */
  lemma AcceptedMountsDeployExactly(volumes: seq<string>, known: set<string>)
    requires "" !in known && forall m :: m in volumes ==> AcceptedMount(m, known)
    ensures (forall m :: m in volumes ==> GoodMount(m, known)) <==> forall m :: m in volumes ==> !Relative(m)
  {
    forall m | m in volumes ensures GoodMount(m, known) <==> !Relative(m) {
      assert AcceptedMount(m, known);
    }
  }

  /** A mount read off its text: `/path:` and `.path:` bind a directory, `name:` a declared volume. */
  lemma MountsOnText(source: string, target: string, known: set<string>)
    requires ':' !in source
    ensures var mount := source + [':'] + target;
      && (KnownMount(mount, known) <==> source != "" && (source[0] == '/' || source[0] == '.' || source in known))
      && (NamesVolume(mount) <==> source != "" && source[0] != '/' && source[0] != '.')
      && (GoodMount(mount, known) <==>
           source != "" && source[0] != '.' && (source[0] == '/' || source in known))
    ensures !KnownMount(source, known) && !NamesVolume(source)
  {
    if source != "" { MountParts(source, target); }
    CutIs(source, ':', target);
  }

  lemma MountParts(source: string, target: string)
    requires source != "" && ':' !in source
    ensures MountSource(source + [':'] + target) == Some((source, source[0] != '/' && source[0] != '.'))
  {
    CutIs(source, ':', target);
  }

  /** `./data:/data` is accepted and never deploys. */
  lemma RelativeMountIsAccepted(known: set<string>)
    ensures var mount := "./data" + [':'] + "/data"; AcceptedMount(mount, known) && !GoodMount(mount, known)
  {
    CutIs("./data", ':', "/data");
    MountParts("./data", "/data");
  }

  // ---------------------------------------------------------------- the Secret of a workload

  /** `parseDatabaseRef`, with the default variable filled in: what the workload sees, and the database it means. */
  function DatabaseRef(ref: string): (string, string)
  {
    match Cut(ref, '=')
    case None => (DatabaseEnvName(ref), ref)
    case Some((alias, db)) => (if alias == "" then DatabaseEnvName(db) else alias, db)
  }

  /** Add the keys that have a source; the others are skipped. */
  function WithKeys(kvs: Sources, keys: seq<string>, sources: Sources): (m: Sources)
    ensures m.Keys == kvs.Keys + set k | k in keys && k in sources
    ensures forall k :: k in keys && k in sources ==> m[k] == sources[k]
    ensures forall k :: k in kvs && (k !in keys || k !in sources) ==> m[k] == kvs[k]
  {
    if keys == [] then kvs
    else
      var last, m := keys[|keys| - 1], WithKeys(kvs, keys[..|keys| - 1], sources);
      assert keys == keys[..|keys| - 1] + [last];
      if last in sources then m[last := sources[last]] else m
  }

  /** All variables of the given buckets. */
  ghost function StorageSet(storage: seq<string>): set<string>
  {
    if storage == [] then {}
    else StorageSet(storage[..|storage| - 1]) + Elems(StorageSecretKeys(storage[|storage| - 1]))
  }

  function WithStorage(kvs: Sources, storage: seq<string>, sources: Sources): (m: Sources)
    ensures m.Keys == kvs.Keys + StorageSet(storage) * sources.Keys
  {
    if storage == [] then kvs
    else
      var keys := StorageSecretKeys(storage[|storage| - 1]);
      var m := WithStorage(kvs, storage[..|storage| - 1], sources);
      SourcedKeys(keys, sources);
      WithKeys(m, keys, sources)
  }

  lemma SourcedKeys(keys: seq<string>, sources: Sources)
    ensures (set k | k in keys && k in sources) == Elems(keys) * sources.Keys
  {
  }

  function WithDatabases(kvs: Sources, refs: seq<string>, sources: Sources): (m: Sources)
    ensures m.Keys == kvs.Keys + set r | r in refs && DatabaseEnvName(DatabaseRef(r).1) in sources :: DatabaseRef(r).0
  {
    if refs == [] then kvs
    else
      var last, m := refs[|refs| - 1], WithDatabases(kvs, refs[..|refs| - 1], sources);
      assert refs == refs[..|refs| - 1] + [last];
      var (envName, db) := DatabaseRef(last);
      if DatabaseEnvName(db) in sources then m[envName := sources[DatabaseEnvName(db)]] else m
  }

  /** Everything the per-workload Secret should hold. */
  function WorkloadData(secrets: seq<string>, storage: seq<string>, databases: seq<string>, sources: Sources): Sources
  {
    WithDatabases(WithStorage(S.SecretData(secrets, sources), storage, sources), databases, sources)
  }

  /** The inner loop of `expandStorageCreds`. */
  method AddKeys(keys: seq<string>, sources: Sources, kvs0: Sources, refs0: seq<string>)
      returns (kvs: Sources, refs: seq<string>)
    requires Elems(refs0) == kvs0.Keys
    ensures kvs == WithKeys(kvs0, keys, sources) && Elems(refs) == kvs.Keys
  {
    kvs, refs := kvs0, refs0;
    for i := 0 to |keys|
      invariant kvs == WithKeys(kvs0, keys[..i], sources) && Elems(refs) == kvs.Keys
    {
      Snoc(keys, i);
      if keys[i] in sources {
        kvs := kvs[keys[i] := sources[keys[i]]];
        refs := refs + [keys[i]];
      }
    }
    Whole(keys);
  }

  /** `expandStorageCreds`: grows the data and the list of references together. */
  method ExpandStorageCreds(storage: seq<string>, sources: Sources, kvs0: Sources, refs0: seq<string>)
      returns (kvs: Sources, refs: seq<string>)
    requires Elems(refs0) == kvs0.Keys
    ensures kvs == WithStorage(kvs0, storage, sources) && Elems(refs) == kvs.Keys
  {
    kvs, refs := kvs0, refs0;
    for i := 0 to |storage|
      invariant kvs == WithStorage(kvs0, storage[..i], sources)
      invariant Elems(refs) == kvs.Keys
    {
      Snoc(storage, i);
      kvs, refs := AddKeys(StorageSecretKeys(storage[i]), sources, kvs, refs);
    }
    Whole(storage);
  }

  /** `expandDatabaseCreds`. */
  method ExpandDatabaseCreds(databases: seq<string>, sources: Sources, kvs0: Sources, refs0: seq<string>)
      returns (kvs: Sources, refs: seq<string>)
    requires Elems(refs0) == kvs0.Keys
    ensures kvs == WithDatabases(kvs0, databases, sources) && Elems(refs) == kvs.Keys
  {
    kvs, refs := kvs0, refs0;
    for i := 0 to |databases|
      invariant kvs == WithDatabases(kvs0, databases[..i], sources) && Elems(refs) == kvs.Keys
    {
      Snoc(databases, i);
      var (envName, db) := DatabaseRef(databases[i]);
      if DatabaseEnvName(db) in sources {
        kvs := kvs[envName := sources[DatabaseEnvName(db)]];
        refs := refs + [envName];
      }
    }
    Whole(databases);
  }

  predicate EnvResolves(env: seq<string>, sources: Sources)
  {
    forall e :: e in env ==> V.Resolve(V.Parse(S.Raw(e)), sources).Ok?
  }

  predicate SecretsResolve(secrets: seq<string>, sources: Sources)
  {
    forall e :: e in secrets ==> S.SecretResolves(e, sources)
  }

  method ResolveEnv(env: seq<string>, sources: Sources) returns (ok: bool)
    ensures ok <==> EnvResolves(env, sources)
  {
    for i := 0 to |env|
      invariant EnvResolves(env[..i], sources)
    {
      Snoc(env, i);
      var entry := S.ResolveEntry(env[i], sources);
      if entry.Err? { return false; }
    }
    Whole(env);
    return true;
  }

  lemma NamesAreTheKeys(entries: seq<string>, sources: Sources)
    ensures Elems(S.SecretNames(entries)) == S.SecretData(entries, sources).Keys
  {
    forall k ensures k in S.SecretNames(entries) <==> k in S.SecretData(entries, sources) {
      S.SecretDataHas(entries, sources, k);
    }
  }

  /** The data of a workload's Secret with a reference for every key, or nothing when an entry does not resolve. */
  method ResolveWorkload(env: seq<string>, secrets: seq<string>, storage: seq<string>, databases: seq<string>,
                         sources: Sources)
      returns (kvs: Option<Sources>, refs: seq<string>)
    ensures kvs.Some? <==> EnvResolves(env, sources) && SecretsResolve(secrets, sources)
    ensures kvs.Some? ==>
      kvs.value == WorkloadData(secrets, storage, databases, sources) && Elems(refs) == kvs.value.Keys
    ensures kvs.Some? ==> HoldsItsValues(kvs.value, secrets, storage, databases, sources)
    ensures kvs.Some? ==> HoldsNothingElse(kvs.value, secrets, storage, databases, sources)
  {
    refs := [];
    var plain := ResolveEnv(env, sources);
    if !plain { return None, []; }
    var entries := S.ResolveSecretEntries(secrets, sources);
    if entries.Err? { return None, []; }
    NamesAreTheKeys(secrets, sources);
    var data, names := ExpandStorageCreds(storage, sources, entries.value.0, entries.value.1);
    data, names := ExpandDatabaseCreds(databases, sources, data, names);
    WorkloadHolds(secrets, storage, databases, sources);
    return Some(data), names;
  }

  // ---------------------------------------------------------------- what each key holds

  /** On its own a database comes under its default variable, with an alias under that. */
  lemma DatabaseAliases(alias: string, db: string)
    requires '=' !in alias
    ensures '=' !in db ==> DatabaseRef(db) == (DatabaseEnvName(db), db)
    ensures DatabaseRef(alias + "=" + db) == (if alias == "" then DatabaseEnvName(db) else alias, db)
  {
    CutIs(alias, '=', db);
    assert alias + "=" + db == alias + ['='] + db;
  }

  /** The entry gives `k` the URL of its database. */
  ghost predicate UrlFor(ref: string, k: string, sources: Sources)
  {
    DatabaseRef(ref).0 == k && DatabaseEnvName(DatabaseRef(ref).1) in sources
  }

  ghost predicate LastUrl(databases: seq<string>, i: int, k: string, sources: Sources)
  {
    && 0 <= i < |databases| && UrlFor(databases[i], k, sources)
    && forall j :: i < j < |databases| ==> !UrlFor(databases[j], k, sources)
  }

  ghost predicate NoUrl(databases: seq<string>, k: string, sources: Sources)
  {
    forall r :: r in databases ==> !UrlFor(r, k, sources)
  }

  ghost predicate BucketKey(storage: seq<string>, k: string)
  {
    exists s :: s in storage && k in StorageSecretKeys(s)
  }

  /**
   What a workload's Secret holds: a key that is the alias of a database with a URL holds the last such URL; any other
   variable of a bucket holds its source; any other key holds what the last entry of that name resolves to.
   */
  ghost predicate HoldsItsValues(data: Sources, secrets: seq<string>, storage: seq<string>, databases: seq<string>,
                                 sources: Sources)
  {
    && (forall k, i :: LastUrl(databases, i, k, sources) ==>
         k in data && data[k] == sources[DatabaseEnvName(DatabaseRef(databases[i]).1)])
    && (forall k :: NoUrl(databases, k, sources) && BucketKey(storage, k) && k in sources ==>
         k in data && data[k] == sources[k])
    && (forall k, i :: NoUrl(databases, k, sources) && !(BucketKey(storage, k) && k in sources)
                       && S.LastDeclares(secrets, i, k) ==>
         k in data && V.Resolve(V.Parse(S.TextFor(secrets[i], k)), sources) == Ok(data[k]))
  }

  /** A key of the Secret is a database's alias, a bucket's variable or the name of an entry. */
  ghost predicate HoldsNothingElse(data: Sources, secrets: seq<string>, storage: seq<string>, databases: seq<string>,
                                   sources: Sources)
  {
    forall k :: k in data ==>
      !NoUrl(databases, k, sources) || (BucketKey(storage, k) && k in sources)
      || exists e :: e in secrets && S.Declares(e, k)
  }

  /** One more database sets its alias, if it has a URL, and leaves the other keys. */
  lemma OneMoreDatabase(kvs: Sources, databases: seq<string>, sources: Sources, k: string)
    requires databases != []
    ensures var n := |databases| - 1;
      var was, now := WithDatabases(kvs, databases[..n], sources), WithDatabases(kvs, databases, sources);
      if UrlFor(databases[n], k, sources) then
        k in now && now[k] == sources[DatabaseEnvName(DatabaseRef(databases[n]).1)]
      else (k in now <==> k in was) && (k in was ==> now[k] == was[k])
  {
  }

  lemma {:induction false} NoDatabaseValue(kvs: Sources, databases: seq<string>, sources: Sources, k: string)
    requires NoUrl(databases, k, sources)
    ensures var m := WithDatabases(kvs, databases, sources);
      (k in m <==> k in kvs) && (k in kvs ==> m[k] == kvs[k])
  {
    if databases != [] {
      var n := |databases| - 1;
      assert databases[n] in databases && forall r :: r in databases[..n] ==> r in databases;
      OneMoreDatabase(kvs, databases, sources, k);
      NoDatabaseValue(kvs, databases[..n], sources, k);
    }
  }

  lemma {:induction false} DatabaseValue(kvs: Sources, databases: seq<string>, sources: Sources, k: string, i: int)
    requires LastUrl(databases, i, k, sources)
    ensures var m := WithDatabases(kvs, databases, sources);
      k in m && m[k] == sources[DatabaseEnvName(DatabaseRef(databases[i]).1)]
  {
    var n := |databases| - 1;
    OneMoreDatabase(kvs, databases, sources, k);
    if i < n {
      assert LastUrl(databases[..n], i, k, sources);
      DatabaseValue(kvs, databases[..n], sources, k, i);
    }
  }

  lemma {:induction false} StorageValues(kvs: Sources, storage: seq<string>, sources: Sources, k: string)
    ensures var m := WithStorage(kvs, storage, sources);
      if BucketKey(storage, k) && k in sources then k in m && m[k] == sources[k]
      else (k in m <==> k in kvs) && (k in kvs ==> m[k] == kvs[k])
  {
    if storage != [] {
      var n := |storage| - 1;
      assert storage == storage[..n] + [storage[n]];
      StorageValues(kvs, storage[..n], sources, k);
      assert BucketKey(storage, k) <==> BucketKey(storage[..n], k) || k in StorageSecretKeys(storage[n]);
    }
  }

  lemma WorkloadHolds(secrets: seq<string>, storage: seq<string>, databases: seq<string>, sources: Sources)
    requires SecretsResolve(secrets, sources)
    ensures var data := WorkloadData(secrets, storage, databases, sources);
      HoldsItsValues(data, secrets, storage, databases, sources)
      && HoldsNothingElse(data, secrets, storage, databases, sources)
  {
    var named := S.SecretData(secrets, sources);
    var bucketed := WithStorage(named, storage, sources);
    forall k, i | LastUrl(databases, i, k, sources)
      ensures k in WithDatabases(bucketed, databases, sources)
      ensures WithDatabases(bucketed, databases, sources)[k] == sources[DatabaseEnvName(DatabaseRef(databases[i]).1)]
    {
      DatabaseValue(bucketed, databases, sources, k, i);
    }
    forall k | NoUrl(databases, k, sources)
      ensures var m := WithDatabases(bucketed, databases, sources);
        if BucketKey(storage, k) && k in sources then k in m && m[k] == sources[k]
        else (k in m <==> k in named) && (k in named ==> m[k] == named[k])
    {
      NoDatabaseValue(bucketed, databases, sources, k);
      StorageValues(named, storage, sources, k);
    }
    forall k, i | S.LastDeclares(secrets, i, k)
      ensures k in named && V.Resolve(V.Parse(S.TextFor(secrets[i], k)), sources) == Ok(named[k])
    {
      S.SecretResolvesTo(secrets, sources, k, i);
    }
    forall k | k in named ensures exists e :: e in secrets && S.Declares(e, k) {
      S.SecretDataHas(secrets, sources, k);
    }
  }

  /** More keys do no harm to the values that are there. */
  lemma HoldsInMore(data: Sources, more: Sources, secrets: seq<string>, storage: seq<string>, databases: seq<string>,
                    sources: Sources)
    requires HoldsItsValues(data, secrets, storage, databases, sources)
    requires forall k :: k in data ==> k in more && more[k] == data[k]
    ensures HoldsItsValues(more, secrets, storage, databases, sources)
  {
  }

  // ---------------------------------------------------------------- the planner's mirror

  /** The name the planner expects for one `secrets:` entry: the text before an `=` that is not the first character. */
  function PlannedName(entry: string): string
  {
    match Cut(entry, '=')
    case None => entry
    case Some((name, _)) => if name == "" then entry else name
  }

  /** `desiredSecretKeys`, in its order, with repetitions. */
  function DesiredSecretKeys(secrets: seq<string>, storage: seq<string>, databases: seq<string>): seq<string>
  {
    PlannedNames(secrets) + StorageKeys(storage) + DatabaseKeyNames(databases)
  }

  function PlannedNames(secrets: seq<string>): (r: seq<string>)
    ensures Elems(r) == set e | e in secrets :: PlannedName(e)
  {
    if secrets == [] then []
    else
      var init, last := secrets[..|secrets| - 1], secrets[|secrets| - 1];
      assert secrets == init + [last];
      ElemsJoin(PlannedNames(init), [PlannedName(last)]);
      PlannedNames(init) + [PlannedName(last)]
  }

  function StorageKeys(storage: seq<string>): (r: seq<string>)
    ensures Elems(r) == StorageSet(storage)
  {
    if storage == [] then []
    else
      var init, last := storage[..|storage| - 1], storage[|storage| - 1];
      ElemsJoin(StorageKeys(init), StorageSecretKeys(last));
      StorageKeys(init) + StorageSecretKeys(last)
  }

  function DatabaseKeyNames(refs: seq<string>): (r: seq<string>)
    ensures Elems(r) == set d | d in refs :: DatabaseRef(d).0
  {
    if refs == [] then []
    else
      var init, last := refs[..|refs| - 1], refs[|refs| - 1];
      assert refs == init + [last];
      ElemsJoin(DatabaseKeyNames(init), [DatabaseRef(last).0]);
      DatabaseKeyNames(init) + [DatabaseRef(last).0]
  }

  /** The validator requires a name in front of every `=` (validate.go:580-594). */
  ghost predicate NamesValidated(secrets: seq<string>)
  {
    forall e :: e in secrets ==> S.ValidEnvVarName(S.Key(e))
  }

  /** The expected name read off the entry: what stands before the equals sign, or the whole entry. */
  lemma PlannedNameOnText(name: string, text: string)
    requires '=' !in name
    ensures PlannedName(name) == name
    ensures PlannedName(name + ['='] + text) == if name == "" then ['='] + text else name
  {
    CutIs(name, '=', text);
    if name == "" {
      assert name + ['='] + text == ['='] + text;
    }
  }

  lemma PlannedNameIsWritten(entry: string)
    requires S.ValidEnvVarName(S.Key(entry))
    ensures PlannedName(entry) == S.Key(S.Normalize(entry))
  {
    if '=' !in entry {
      assert S.Normalize(entry) == entry + ['='] + ("$" + entry);
      CutIs(entry, '=', "$" + entry);
    }
  }

  lemma NormalizeKeepsKey(entry: string)
    ensures S.Key(S.Normalize(entry)) == S.Key(entry)
  {
    if '=' !in entry {
      assert S.Normalize(entry) == entry + ['='] + ("$" + entry);
      CutIs(entry, '=', "$" + entry);
    }
  }

  lemma {:induction false} StorageSetHas(storage: seq<string>, k: string)
    ensures k in StorageSet(storage) <==> exists s :: s in storage && k in StorageSecretKeys(s)
  {
    if storage != [] {
      var init, last := storage[..|storage| - 1], storage[|storage| - 1];
      assert storage == init + [last];
      StorageSetHas(init, k);
    }
  }

  /** An entry of the workload gives the Secret this key: a secret, a bucket's key or a database with a value. */
  ghost predicate Supplied(k: string, secrets: seq<string>, storage: seq<string>, databases: seq<string>,
                           sources: Sources)
  {
    || (exists e :: e in secrets && S.Key(e) == k)
    || (exists s :: s in storage && k in StorageSecretKeys(s) && k in sources)
    || (exists r :: r in databases && DatabaseRef(r).0 == k && DatabaseEnvName(DatabaseRef(r).1) in sources)
  }

  /** Every storage key and database alias without a value is supplied by another entry. */
  ghost predicate NoKeySkipped(secrets: seq<string>, storage: seq<string>, databases: seq<string>, sources: Sources)
  {
    && (forall s, k :: s in storage && k in StorageSecretKeys(s) && k !in sources ==>
         Supplied(k, secrets, storage, databases, sources))
    && (forall r :: r in databases && DatabaseEnvName(DatabaseRef(r).1) !in sources ==>
         Supplied(DatabaseRef(r).0, secrets, storage, databases, sources))
  }

  lemma NamedBySecrets(secrets: seq<string>, sources: Sources, k: string)
    ensures k in S.SecretData(secrets, sources) <==> exists e :: e in secrets && S.Key(e) == k
  {
    S.SecretDataHas(secrets, sources, k);
    forall e | e in secrets ensures S.Key(e) == k <==> S.Declares(e, k) {
      S.EntrySides(e, k);
    }
  }

  /** The deploy writes exactly the supplied keys. */
  lemma WrittenIsSupplied(k: string, secrets: seq<string>, storage: seq<string>, databases: seq<string>,
                          sources: Sources)
    ensures k in WorkloadData(secrets, storage, databases, sources) <==>
      Supplied(k, secrets, storage, databases, sources)
  {
    NamedBySecrets(secrets, sources, k);
    StorageSetHas(storage, k);
  }

  /** The planner expects every name, every storage key and every database alias. */
  lemma PlannedIsDeclared(k: string, secrets: seq<string>, storage: seq<string>, databases: seq<string>)
    requires NamesValidated(secrets)
    ensures k in DesiredSecretKeys(secrets, storage, databases) <==>
      || (exists e :: e in secrets && S.Key(e) == k)
      || (exists s :: s in storage && k in StorageSecretKeys(s))
      || (exists r :: r in databases && DatabaseRef(r).0 == k)
  {
    forall e | e in secrets ensures PlannedName(e) == S.Key(e) {
      PlannedNameIsWritten(e);
      NormalizeKeepsKey(e);
    }
    assert k in PlannedNames(secrets) <==> k in Elems(PlannedNames(secrets));
    assert k in StorageKeys(storage) <==> k in Elems(StorageKeys(storage));
    assert k in DatabaseKeyNames(databases) <==> k in Elems(DatabaseKeyNames(databases));
    StorageSetHas(storage, k);
  }

  /** The planner's list is what the deploy writes, as a set, exactly when no key was skipped. */
  lemma MirrorIsExact(secrets: seq<string>, storage: seq<string>, databases: seq<string>, sources: Sources)
    requires NamesValidated(secrets)
    ensures Elems(DesiredSecretKeys(secrets, storage, databases)) ==
      WorkloadData(secrets, storage, databases, sources).Keys
      <==> NoKeySkipped(secrets, storage, databases, sources)
  {
    var desired := DesiredSecretKeys(secrets, storage, databases);
    var data := WorkloadData(secrets, storage, databases, sources);
    forall k
      ensures k in data <==> Supplied(k, secrets, storage, databases, sources)
      ensures k in data ==> k in desired
    {
      WrittenIsSupplied(k, secrets, storage, databases, sources);
      PlannedIsDeclared(k, secrets, storage, databases);
    }
    if NoKeySkipped(secrets, storage, databases, sources) {
      forall k | k in desired ensures k in data {
        PlannedIsDeclared(k, secrets, storage, databases);
      }
    }
    if Elems(desired) == data.Keys {
      assert forall k :: k in desired ==> k in Elems(desired);
      forall s, k | s in storage && k in StorageSecretKeys(s)
        ensures Supplied(k, secrets, storage, databases, sources)
      {
        PlannedIsDeclared(k, secrets, storage, databases);
      }
      forall r | r in databases ensures Supplied(DatabaseRef(r).0, secrets, storage, databases, sources) {
        PlannedIsDeclared(DatabaseRef(r).0, secrets, storage, databases);
      }
    }
  }

  /** Sources that hold every storage and database key leave nothing to skip. */
  lemma FullSourcesSkipNothing(secrets: seq<string>, storage: seq<string>, databases: seq<string>, sources: Sources)
    requires forall s, k :: s in storage && k in StorageSecretKeys(s) ==> k in sources
    requires forall r :: r in databases ==> DatabaseEnvName(DatabaseRef(r).1) in sources
    ensures NoKeySkipped(secrets, storage, databases, sources)
  {
  }
}

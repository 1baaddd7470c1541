/**
 The database step of a deploy (internal/reconcile/databases.go): databases whose node changed in the
 configuration are left alone and reported, the others are reconciled, and orphans are swept.
 */
module DatabaseReconcile {
  import opened Cluster
  import opened Names
  import opened StringOrder
  import opened Wrappers

  datatype Write = Write(key: Key, content: Content)

  /** What the engine's provider answers: a refusal, or what it writes and the URL it hands out. */
  datatype ProviderPlan =
    | Refuses
    | Provides(bucketCreds: map<string, string>, credentials: map<string, string>, workloads: seq<Write>, url: string)

  /** `server` is empty for hosted engines. */
  datatype DatabaseDef = DatabaseDef(server: string, backup: bool, provider: ProviderPlan)

  type Config = map<string, DatabaseDef>

  datatype PendingMigration = PendingMigration(database: string, from: string, to: string)

  datatype Error = ReadFailed(database: string) | NoExistingURL(database: string) | ProviderFailed(database: string)

  /** A provider writes no object of another database. What databases share, like a storage class, it may write. */
  ghost predicate KeepsToItself(base: string, name: string, def: DatabaseDef)
  {
    def.provider.Provides? ==>
      forall w, m :: w in def.provider.workloads && m != name ==> w.key !in DatabaseKeys(base, m)
  }

  ghost predicate AllKeepToThemselves(base: string, cfg: Config)
  {
    forall n :: n in cfg ==> KeepsToItself(base, n, cfg[n])
  }

  /** What reconciling a database may write: its own objects and its provider's. */
  ghost function WriteKeys(base: string, name: string, def: DatabaseDef): set<Key>
  {
    DatabaseKeys(base, name) + if def.provider.Provides? then (set w | w in def.provider.workloads :: w.key) else {}
  }

  /** The node of a live StatefulSet, empty when it names none. */
  function LiveNode(objs: Objects, base: string, name: string): string
  {
    var k := Key(StatefulSet, Database(base, name));
    if k in objs && objs[k].content.Pods? then objs[k].content.node else ""
  }

  /** A self-hosted database that lives on another node than the configuration names. */
  predicate Drifted(objs: Objects, base: string, name: string, def: DatabaseDef)
  {
    def.server != "" && LiveNode(objs, base, name) != "" && LiveNode(objs, base, name) != def.server
  }

  function ExistingURL(objs: Objects, base: string, name: string): string
  {
    var data := DataOf(objs, CredentialsSecret(base, name));
    if "url" in data then data["url"] else ""
  }

  /** The drifted databases of a list of names, in its order. */
  function PendingOf(objs: Objects, base: string, cfg: Config, names: seq<string>): seq<PendingMigration>
    requires forall n :: n in names ==> n in cfg
  {
    if names == [] then []
    else
      var n := names[|names| - 1];
      assert forall m :: m in names[..|names| - 1] ==> m in names;
      PendingOf(objs, base, cfg, names[..|names| - 1]) +
      if Drifted(objs, base, n, cfg[n]) then [PendingMigration(n, LiveNode(objs, base, n), cfg[n].server)] else []
  }

  // ---------------------------------------------------------------- what a drifted database is

  /** The database's StatefulSet runs on this node. */
  ghost predicate RunsOn(objs: Objects, base: string, name: string, node: string)
  {
    var k := Key(StatefulSet, base + "-db-" + name);
    k in objs && objs[k].content.Pods? && objs[k].content.node == node
  }

  /** A self-hosted database runs on a node other than the one configured. */
  ghost predicate RunsElsewhere(objs: Objects, base: string, name: string, def: DatabaseDef, node: string)
  {
    def.server != "" && RunsOn(objs, base, name, node) && node != "" && node != def.server
  }

  /** The URL in the database's credentials, empty when there is none. */
  ghost predicate HasURL(objs: Objects, base: string, name: string, url: string)
  {
    var k := Key(Secret, base + "-db-" + name + "-credentials");
    if k in objs && objs[k].content.Data? && "url" in objs[k].content.data then objs[k].content.data["url"] == url
    else url == ""
  }

  lemma DriftIsSeen(objs: Objects, base: string, name: string, def: DatabaseDef)
    ensures Drifted(objs, base, name, def) <==>
      exists node :: RunsElsewhere(objs, base, name, def, node)
    ensures forall node :: RunsOn(objs, base, name, node) ==> LiveNode(objs, base, name) == node
    ensures HasURL(objs, base, name, ExistingURL(objs, base, name))
  {
    if Drifted(objs, base, name, def) {
      assert RunsElsewhere(objs, base, name, def, LiveNode(objs, base, name));
    }
  }

  // ---------------------------------------------------------------- what may change

  /** What reconciling the databases in `names` may write. */
  ghost function Reach(base: string, cfg: Config, names: set<string>): set<Key>
  {
    set n, k | n in names && n in cfg && k in WriteKeys(base, n, cfg[n]) :: k
  }

  /** The databases a run may write: those that have not drifted. */
  ghost function Writable(objs: Objects, base: string, cfg: Config): set<string>
  {
    set n | n in cfg && !Drifted(objs, base, n, cfg[n])
  }

  lemma OutOfReach(base: string, cfg: Config, names: set<string>, n: string)
    requires n !in names && AllKeepToThemselves(base, cfg)
    ensures DatabaseKeys(base, n) !! Reach(base, cfg, names)
  {
    forall k | k in DatabaseKeys(base, n) ensures k !in Reach(base, cfg, names) {
      if k in Reach(base, cfg, names) {
        var m :| m in names && m in cfg && k in WriteKeys(base, m, cfg[m]);
        assert KeepsToItself(base, m, cfg[m]);
        DatabasesShareNothing(base, m, n);
      }
    }
  }

  lemma ReachGrows(base: string, cfg: Config, names: set<string>, n: string)
    requires n in cfg
    ensures Reach(base, cfg, names + {n}) == Reach(base, cfg, names) + WriteKeys(base, n, cfg[n])
  {
  }

  lemma ReachIsMonotone(base: string, cfg: Config, some: set<string>, all: set<string>)
    requires some <= all
    ensures Reach(base, cfg, some) <= Reach(base, cfg, all)
  {
  }

  /** What a database looks like is settled by its own objects. */
  lemma SameDatabase(before: Objects, now: Objects, base: string, name: string, def: DatabaseDef)
    requires forall k :: k in Protected(base, name) ==> Same(before, now, k)
    ensures LiveNode(before, base, name) == LiveNode(now, base, name)
    ensures Drifted(before, base, name, def) <==> Drifted(now, base, name, def)
    ensures ExistingURL(before, base, name) == ExistingURL(now, base, name)
  {
    assert Same(before, now, Key(StatefulSet, Database(base, name)));
    assert Same(before, now, Key(Secret, CredentialsSecret(base, name)));
  }

  // ---------------------------------------------------------------- one database

  /** The store after applying the writes in order. */
  function AppliedAll(objs: Objects, writes: seq<Write>): Objects
  {
    if writes == [] then objs
    else
      var w := writes[|writes| - 1];
      Applied(AppliedAll(objs, writes[..|writes| - 1]), w.key, Obj(Databases, w.content))
  }

  /** Write `i` is the one that counts for its key: the last one, or the first one of a volume claim. */
  ghost predicate Decides(writes: seq<Write>, i: nat)
    requires i < |writes|
  {
    if writes[i].key.kind == PVC then forall j :: 0 <= j < i ==> writes[j].key != writes[i].key
    else forall j :: i < j < |writes| ==> writes[j].key != writes[i].key
  }

  /** A live volume claim and whatever is not written stay; every other key holds the write that counts for it. */
  lemma {:induction false} WritesStand(objs: Objects, writes: seq<Write>)
    ensures forall k: Key :: (k.kind == PVC && k in objs) || (forall w :: w in writes ==> w.key != k) ==>
      Same(objs, AppliedAll(objs, writes), k)
    ensures forall i :: 0 <= i < |writes| && Decides(writes, i) ==>
      (writes[i].key.kind == PVC && writes[i].key in objs) || Stands(AppliedAll(objs, writes), writes[i])
  {
    if writes != [] {
      var n := |writes| - 1;
      var front, w := writes[..n], writes[n];
      assert writes == front + [w];
      WritesStand(objs, front);
      forall i | 0 <= i < n && Decides(writes, i) && !(writes[i].key.kind == PVC && writes[i].key in objs)
        ensures Stands(AppliedAll(objs, writes), writes[i])
      {
        assert writes[i] == front[i] && Decides(front, i);
      }
      if w.key.kind == PVC && w.key !in objs && Decides(writes, n) {
        assert forall v :: v in front ==> v.key != w.key;
        assert Same(objs, AppliedAll(objs, front), w.key);
      }
    }
  }

  ghost predicate Stands(objs: Objects, w: Write)
  {
    w.key in objs && objs[w.key] == Obj(Databases, w.content)
  }

  /** Apply the provider's workloads one by one. */
  method ApplyWorkloads(c: Client, workloads: seq<Write>, ghost keys: set<Key>) returns (ok: bool)
    requires forall w :: w in workloads ==> w.key in keys
    modifies c
    ensures OnlyTouches(old(c.objs), c.objs, keys)
    ensures c.reliable ==> ok
    ensures ok ==> c.objs == AppliedAll(old(c.objs), workloads)
    ensures old(c.objs).Keys <= c.objs.Keys
  {
    for i := 0 to |workloads|
      invariant OnlyTouches(old(c.objs), c.objs, keys)
      invariant c.objs == AppliedAll(old(c.objs), workloads[..i])
      invariant old(c.objs).Keys <= c.objs.Keys
    {
      assert workloads[i] in workloads && workloads[..i + 1][..i] == workloads[..i];
      ok := c.ApplyOwned(Databases, workloads[i].key, workloads[i].content);
      if !ok { return; }
    }
    assert workloads[..|workloads|] == workloads;
    return true;
  }

  /** The store once a database's credentials are merged into its Secrets. */
  function WithCredentials(objs: Objects, base: string, name: string, def: DatabaseDef): Objects
    requires def.provider.Provides?
  {
    var withBackup :=
      if def.backup then Merged(objs, Databases, BackupCredsSecret(base, name), def.provider.bucketCreds) else objs;
    Merged(withBackup, Databases, CredentialsSecret(base, name), def.provider.credentials)
  }

  /** `ReconcileOneDatabase`: backup bucket, credentials, workloads. No drift guard here. */
  method ReconcileOneDatabase(c: Client, base: string, name: string, def: DatabaseDef) returns (url: Option<string>)
    modifies c
    ensures OnlyTouches(old(c.objs), c.objs, WriteKeys(base, name, def))
    ensures url.Some? ==> def.provider.Provides? && url.value == def.provider.url
    ensures url.Some? ==> c.objs == AppliedAll(WithCredentials(old(c.objs), base, name, def), def.provider.workloads)
    ensures c.reliable ==> (url.Some? <==> def.provider.Provides?)
    ensures old(c.objs).Keys <= c.objs.Keys
  {
    if def.provider.Refuses? { return None; }
    if def.backup {
      var bucket := c.Call();
      if bucket != Works { return None; }
      var stored := c.EnsureSecret(Databases, BackupCredsSecret(base, name), def.provider.bucketCreds);
      if !stored { return None; }
    }
    var ensured := c.EnsureSecret(Databases, CredentialsSecret(base, name), def.provider.credentials);
    if !ensured { return None; }
    var applied := ApplyWorkloads(c, def.provider.workloads, WriteKeys(base, name, def));
    if !applied { return None; }
    return Some(def.provider.url);
  }

  /**
   After a reconcile the credentials are in place, merged over the old ones, unless the provider wrote them itself; so
   are the bucket's, if the database has a backup.
   */
  lemma CredentialsStand(before: Objects, base: string, name: string, def: DatabaseDef)
    requires def.provider.Provides?
    ensures var now := AppliedAll(WithCredentials(before, base, name, def), def.provider.workloads);
      && Holds(before, now, base + "-db-" + name + "-credentials", def.provider.credentials, def.provider.workloads)
      && (def.backup ==>
           Holds(before, now, base + "-db-" + name + "-backup-creds", def.provider.bucketCreds, def.provider.workloads))
  {
    var mid := WithCredentials(before, base, name, def);
    var now := AppliedAll(mid, def.provider.workloads);
    WritesStand(mid, def.provider.workloads);
    SuffixesDiffer(Database(base, name), Database(base, name));
    var credentials, bucket := Key(Secret, CredentialsSecret(base, name)), Key(Secret, BackupCredsSecret(base, name));
    assert (forall w :: w in def.provider.workloads ==> w.key != credentials) ==> Same(mid, now, credentials);
    assert (forall w :: w in def.provider.workloads ==> w.key != bucket) ==> Same(mid, now, bucket);
  }

  /** The Secret has this data over what it had before, unless one of the writes was to it. */
  ghost predicate Holds(before: Objects, now: Objects, secret: string, data: map<string, string>, writes: seq<Write>)
  {
    (forall w :: w in writes ==> w.key != Key(Secret, secret)) ==> DataOf(now, secret) == DataOf(before, secret) + data
  }

  // ---------------------------------------------------------------- the loop

  /** What the loop has to show for the names it has seen. */
  ghost predicate Answers(objs: Objects, base: string, cfg: Config, names: seq<string>, out: map<string, string>)
    requires forall n :: n in names ==> n in cfg
  {
    && out.Keys == (set n | n in names :: DatabaseEnvName(n))
    && ((forall n :: n in cfg ==> IsLabel(n)) ==> forall n :: n in names ==>
         out[DatabaseEnvName(n)] == if Drifted(objs, base, n, cfg[n]) then ExistingURL(objs, base, n)
                                    else if cfg[n].provider.Provides? then cfg[n].provider.url else "")
  }

  lemma OneMoreAnswer(objs: Objects, base: string, cfg: Config, names: seq<string>, n: string,
                      out: map<string, string>, url: string)
    requires (forall m :: m in names ==> m in cfg) && n in cfg && Answers(objs, base, cfg, names, out) && n !in names
    requires url == if Drifted(objs, base, n, cfg[n]) then ExistingURL(objs, base, n)
                    else if cfg[n].provider.Provides? then cfg[n].provider.url else ""
    ensures Answers(objs, base, cfg, names + [n], out[DatabaseEnvName(n) := url])
  {
    if forall m :: m in cfg ==> IsLabel(m) {
      forall m | m in names ensures DatabaseEnvName(m) != DatabaseEnvName(n) {
        EnvNamesAreDistinct(m, n);
      }
    }
  }

  /** One turn of the loop: a drifted database is read, any other reconciled. */
  method OneDatabase(c: Client, base: string, name: string, def: DatabaseDef)
      returns (r: Result<(Option<PendingMigration>, string), Error>)
    modifies c
    ensures OnlyTouches(old(c.objs), c.objs,
      if Drifted(old(c.objs), base, name, def) then {} else WriteKeys(base, name, def))
    ensures old(c.objs).Keys <= c.objs.Keys
    ensures r.Ok? && Drifted(old(c.objs), base, name, def) ==>
      r.value == (Some(PendingMigration(name, LiveNode(old(c.objs), base, name), def.server)),
        ExistingURL(old(c.objs), base, name))
      && r.value.1 != ""
    ensures r.Ok? && !Drifted(old(c.objs), base, name, def) ==>
      && def.provider.Provides? && r.value == (None, def.provider.url)
      && c.objs == AppliedAll(WithCredentials(old(c.objs), base, name, def), def.provider.workloads)
    ensures c.reliable ==> (r.Ok? <==>
      if Drifted(old(c.objs), base, name, def) then ExistingURL(old(c.objs), base, name) != ""
      else def.provider.Provides?)
  {
    var drift: Option<PendingMigration> := None;
    if def.server != "" {
      var read := c.Call();
      if read != Works { return Err(ReadFailed(name)); }
      var current := LiveNode(c.objs, base, name);
      if current != "" && current != def.server {
        drift := Some(PendingMigration(name, current, def.server));
      }
    }
    if drift.Some? {
      var url := c.GetSecretValue(CredentialsSecret(base, name), "url");
      if url.None? { return Err(NoExistingURL(name)); }
      return Ok((drift, url.value));
    }
    var url := ReconcileOneDatabase(c, base, name, def);
    if url.None? { return Err(ProviderFailed(name)); }
    return Ok((None, url.value));
  }

  ghost predicate Swept(kind: Kind)
  {
    kind == StatefulSet || kind == Cluster.Service || kind == PVC || kind == Secret || kind == CronJob
  }

  /** The object is one that a configured database has. */
  ghost predicate Kept(base: string, cfg: Config, k: Key)
  {
    exists n :: n in cfg && IsObjectOf(base, n, cfg[n], k)
  }

  ghost predicate IsObjectOf(base: string, n: string, def: DatabaseDef, k: Key)
  {
    var name := base + "-db-" + n;
    || (def.server != "" && (k == Key(StatefulSet, name) || k == Key(Cluster.Service, name)
      || k == Key(PVC, name + "-data")))
    || k == Key(Secret, name + "-credentials")
    || (def.backup && (k == Key(Secret, name + "-backup-creds") || k == Key(CronJob, name + "-backup")))
  }

  /** A drifted database has a URL to keep; any other has a provider that answers. */
  ghost predicate CanAnswer(objs: Objects, base: string, name: string, def: DatabaseDef)
  {
    if Drifted(objs, base, name, def) then ExistingURL(objs, base, name) != "" else def.provider.Provides?
  }

  ghost predicate Answerable(objs: Objects, base: string, cfg: Config)
  {
    forall n :: n in cfg ==> CanAnswer(objs, base, n, cfg[n])
  }

  ghost function WritableAmong(objs: Objects, base: string, cfg: Config, seen: seq<string>): set<string>
  {
    set n | n in seen && n in cfg && !Drifted(objs, base, n, cfg[n])
  }

  /** The state of the loop after the names in `seen`. */
  ghost predicate Progress(before: Objects, now: Objects, base: string, cfg: Config, seen: seq<string>,
                           out: map<string, string>, pending: seq<PendingMigration>)
  {
    && (forall n :: n in seen ==> n in cfg)
    && OnlyTouches(before, now, Reach(base, cfg, WritableAmong(before, base, cfg, seen)))
    && before.Keys <= now.Keys
    && Answers(before, base, cfg, seen, out)
    && pending == PendingOf(before, base, cfg, seen)
  }

  lemma OneMorePending(objs: Objects, base: string, cfg: Config, seen: seq<string>, n: string)
    requires (forall m :: m in seen ==> m in cfg) && n in cfg
    ensures PendingOf(objs, base, cfg, seen + [n]) == if Drifted(objs, base, n, cfg[n])
      then PendingOf(objs, base, cfg, seen) + [PendingMigration(n, LiveNode(objs, base, n), cfg[n].server)]
      else PendingOf(objs, base, cfg, seen)
  {
    assert (seen + [n])[..|seen|] == seen;
  }

  lemma OneMoreWritable(before: Objects, base: string, cfg: Config, seen: seq<string>, n: string)
    requires n in cfg
    ensures WritableAmong(before, base, cfg, seen + [n]) ==
      WritableAmong(before, base, cfg, seen) + if Drifted(before, base, n, cfg[n]) then {} else {n}
  {
    var all := seen + [n];
    assert forall m :: m in all <==> m in seen || m == n;
  }

  /** What one turn may touch on top of the earlier ones. */
  lemma OneMoreTouched(before: Objects, was: Objects, now: Objects, base: string, cfg: Config, seen: seq<string>,
                       n: string)
    requires OnlyTouches(before, was, Reach(base, cfg, WritableAmong(before, base, cfg, seen))) && n in cfg
    requires OnlyTouches(was, now, if Drifted(before, base, n, cfg[n]) then {} else WriteKeys(base, n, cfg[n]))
    ensures OnlyTouches(before, now, Reach(base, cfg, WritableAmong(before, base, cfg, seen + [n])))
  {
    OneMoreWritable(before, base, cfg, seen, n);
    var earlier := WritableAmong(before, base, cfg, seen);
    var later := WritableAmong(before, base, cfg, seen + [n]);
    ReachIsMonotone(base, cfg, earlier, later);
    if Drifted(before, base, n, cfg[n]) {
      TouchedTwice(before, was, now, Reach(base, cfg, earlier), {}, Reach(base, cfg, later));
    } else {
      ReachGrows(base, cfg, earlier, n);
      TouchedTwice(before, was, now, Reach(base, cfg, earlier), WriteKeys(base, n, cfg[n]), Reach(base, cfg, later));
    }
  }

  /** The body of the loop. */
  method Turn(c: Client, base: string, cfg: Config, ghost before: Objects, ghost seen: seq<string>, name: string,
              out: map<string, string>, pending: seq<PendingMigration>)
      returns (r: Result<(map<string, string>, seq<PendingMigration>), Error>)
    requires Progress(before, c.objs, base, cfg, seen, out, pending) && name in cfg && name !in seen
    requires AllKeepToThemselves(base, cfg)
    modifies c
    ensures r.Ok? ==> Progress(before, c.objs, base, cfg, seen + [name], r.value.0, r.value.1)
    ensures OnlyTouches(before, c.objs, Reach(base, cfg, Writable(before, base, cfg))) && before.Keys <= c.objs.Keys
    ensures c.reliable ==> (r.Ok? <==> CanAnswer(before, base, name, cfg[name]))
  {
    ghost var was := c.objs;
    OutOfReach(base, cfg, WritableAmong(before, base, cfg, seen), name);
    SameDatabase(before, was, base, name, cfg[name]);
    var one := OneDatabase(c, base, name, cfg[name]);
    OneMoreTouched(before, was, c.objs, base, cfg, seen, name);
    ReachIsMonotone(base, cfg, WritableAmong(before, base, cfg, seen + [name]), Writable(before, base, cfg));
    if one.Err? { return Err(one.error); }
    OneMoreAnswer(before, base, cfg, seen, name, out, one.value.1);
    OneMorePending(before, base, cfg, seen, name);
    var out' := out[DatabaseEnvName(name) := one.value.1];
    return Ok((out', if one.value.0.Some? then pending + [one.value.0.value] else pending));
  }

  /** The loop over the sorted names. */
  method EachDatabase(c: Client, base: string, cfg: Config, names: seq<string>)
      returns (r: Result<(map<string, string>, seq<PendingMigration>), Error>)
    requires AllKeepToThemselves(base, cfg)
    requires NoDup(names) && forall n :: n in names <==> n in cfg
    modifies c
    ensures OnlyTouches(old(c.objs), c.objs, Reach(base, cfg, Writable(old(c.objs), base, cfg)))
    ensures old(c.objs).Keys <= c.objs.Keys
    ensures r.Ok? ==> Progress(old(c.objs), c.objs, base, cfg, names, r.value.0, r.value.1)
    ensures c.reliable ==> (r.Ok? <==> Answerable(old(c.objs), base, cfg))
  {
    ghost var before := c.objs;
    var out: map<string, string>, pending: seq<PendingMigration> := map[], [];
    for i := 0 to |names|
      invariant Progress(before, c.objs, base, cfg, names[..i], out, pending)
      invariant c.reliable ==> forall n :: n in names[..i] ==> CanAnswer(before, base, n, cfg[n])
    {
      var name := names[i];
      Snoc(names, i);
      assert name in cfg && name !in names[..i];
      var turn := Turn(c, base, cfg, before, names[..i], name, out, pending);
      if turn.Err? { return Err(turn.error); }
      out, pending := turn.value.0, turn.value.1;
    }
    Whole(names);
    ReachIsMonotone(base, cfg, WritableAmong(before, base, cfg, names), Writable(before, base, cfg));
    return Ok((out, pending));
  }

  // ---------------------------------------------------------------- the sweeps

  const SWEPT_KINDS: seq<Kind> := [StatefulSet, Service, PVC, Secret, CronJob]

  /** The names each sweep keeps. */
  function Wanted(base: string, cfg: Config): (w: map<Kind, set<string>>)
    ensures w.Keys == Elems(SWEPT_KINDS)
  {
    var hosts := set n | n in cfg && cfg[n].server != "" :: Database(base, n);
    var volumes := set n | n in cfg && cfg[n].server != "" :: DatabasePVC(base, n);
    var credentials := set n | n in cfg :: CredentialsSecret(base, n);
    var backups := set n | n in cfg && cfg[n].backup :: BackupCredsSecret(base, n);
    var crons := set n | n in cfg && cfg[n].backup :: BackupCron(base, n);
    map[StatefulSet := hosts, Service := hosts, PVC := volumes, Secret := credentials + backups, CronJob := crons]
  }

  /** The sweeps want exactly the objects a configured database has. */
  lemma WantedIsKept(base: string, cfg: Config, k: Key)
    ensures k.kind in Wanted(base, cfg) <==> Swept(k.kind)
    ensures k.kind in Wanted(base, cfg) ==> (k.name in Wanted(base, cfg)[k.kind] <==> Kept(base, cfg, k))
  {
    if k.kind in Wanted(base, cfg) && k.name in Wanted(base, cfg)[k.kind] {
      var n :| n in cfg && IsObjectOf(base, n, cfg[n], k);
    }
    if n :| n in cfg && IsObjectOf(base, n, cfg[n], k) {
      assert k.name in Wanted(base, cfg)[k.kind];
    }
  }

  /** No sweep wants to remove what holds a self-hosted database's data. */
  lemma ProtectedIsWanted(objs: Objects, base: string, cfg: Config, n: string, k: Key)
    requires n in cfg && cfg[n].server != "" && k in Protected(base, n)
    ensures !Orphan(objs, Databases, Wanted(base, cfg), k)
  {
    assert k.name in Wanted(base, cfg)[k.kind];
  }

  /** Neither owned by this step nor an object of a database it reconciles. */
  ghost predicate Foreign(objs: Objects, base: string, cfg: Config, k: Key)
  {
    k in objs && objs[k].owner != Databases && k !in Reach(base, cfg, Writable(objs, base, cfg))
  }

  ghost predicate Listing(names: seq<string>, cfg: Config)
  {
    Sorted(names) && NoDup(names) && forall n :: n in names <==> n in cfg
  }

  /** The URLs of all databases, and the drifted ones in the sorted order of their names. */
  ghost predicate Reports(objs: Objects, base: string, cfg: Config, out: map<string, string>,
                          pending: seq<PendingMigration>)
  {
    exists names :: Listing(names, cfg) && Answers(objs, base, cfg, names, out)
      && pending == PendingOf(objs, base, cfg, names)
  }

  /** A database that runs on another node than configured keeps all that holds or leads to its data. */
  ghost predicate DriftedStay(before: Objects, now: Objects, base: string, cfg: Config)
  {
    forall n, node :: n in cfg && RunsElsewhere(before, base, n, cfg[n], node) ==>
      var name := base + "-db-" + n;
      Same(before, now, Key(StatefulSet, name)) && Same(before, now, Key(Cluster.Service, name))
      && Same(before, now, Key(PVC, name + "-data")) && Same(before, now, Key(Secret, name + "-credentials"))
  }

  /** What disappears is of a swept kind and belongs to no configured database. */
  ghost predicate NothingKeptIsRemoved(before: Objects, now: Objects, base: string, cfg: Config)
  {
    forall k :: k in before && k !in now ==>
      Swept(k.kind) && !Kept(base, cfg, k)
  }

  /** Of the swept kinds this step owns nothing but what a configured database has. */
  ghost predicate NothingElseIsLeft(objs: Objects, base: string, cfg: Config)
  {
    forall k :: k in objs && objs[k].owner == Databases && Swept(k.kind) ==> Kept(base, cfg, k)
  }

  lemma SweepsKeep(before: Objects, mid: Objects, now: Objects, base: string, cfg: Config)
    requires before.Keys <= mid.Keys && SweepsOrphans(mid, now, Databases, Wanted(base, cfg))
    ensures NothingKeptIsRemoved(before, now, base, cfg)
    ensures NoOrphans(now, Databases, Wanted(base, cfg)) ==> NothingElseIsLeft(now, base, cfg)
  {
    forall k: Key
      ensures k.kind in Wanted(base, cfg) <==> Swept(k.kind)
      ensures k.kind in Wanted(base, cfg) ==> (k.name in Wanted(base, cfg)[k.kind] <==> Kept(base, cfg, k))
    {
      WantedIsKept(base, cfg, k);
    }
    forall k | k in before && k !in now
      ensures Swept(k.kind) && !Kept(base, cfg, k)
    {
      assert !Same(mid, now, k) && Orphan(mid, Databases, Wanted(base, cfg), k);
    }
    if NoOrphans(now, Databases, Wanted(base, cfg)) {
      forall k | k in now && now[k].owner == Databases && Swept(k.kind)
        ensures Kept(base, cfg, k)
      {
        assert !Orphan(now, Databases, Wanted(base, cfg), k);
      }
    }
  }

  lemma ProtectedStay(before: Objects, now: Objects, base: string, cfg: Config)
    requires forall n, k :: n in cfg && Drifted(before, base, n, cfg[n]) && k in Protected(base, n) ==>
      Same(before, now, k)
    ensures DriftedStay(before, now, base, cfg)
  {
    forall n | n in cfg
      ensures forall node :: RunsElsewhere(before, base, n, cfg[n], node) ==> Drifted(before, base, n, cfg[n])
    {
      DriftIsSeen(before, base, n, cfg[n]);
    }
  }

  /**
   `Databases`. In every run, whatever fails: a drifted database keeps its StatefulSet, Service, volume claim
   and credentials, and objects that are neither a reconciled database's nor owned by this step stay as they are.
   On success the drifted databases are exactly the pending ones, in sorted order, each with its existing URL.
   */
  method ReconcileDatabases(c: Client, base: string, cfg: Config)
      returns (r: Result<(map<string, string>, seq<PendingMigration>), Error>)
    requires AllKeepToThemselves(base, cfg)
    modifies c
    ensures forall n, k :: n in cfg && Drifted(old(c.objs), base, n, cfg[n]) && k in Protected(base, n) ==>
      Same(old(c.objs), c.objs, k)
    ensures forall k :: Foreign(old(c.objs), base, cfg, k) ==> Same(old(c.objs), c.objs, k)
    ensures r.Ok? ==> Reports(old(c.objs), base, cfg, r.value.0, r.value.1)
    ensures c.reliable ==> (r.Ok? <==> Answerable(old(c.objs), base, cfg))
    ensures c.reliable && r.Ok? ==> NoOrphans(c.objs, Databases, Wanted(base, cfg))
    ensures DriftedStay(old(c.objs), c.objs, base, cfg) && NothingKeptIsRemoved(old(c.objs), c.objs, base, cfg)
    ensures c.reliable && r.Ok? ==> NothingElseIsLeft(c.objs, base, cfg)
  {
    ghost var before := c.objs;
    var names := SortedKeys(cfg.Keys);
    r := EachDatabase(c, base, cfg, names);
    ghost var mid := c.objs;
    if r.Ok? {
      c.SweepEach(Databases, SWEPT_KINDS, Wanted(base, cfg));
    }
    forall n, k | n in cfg && Drifted(before, base, n, cfg[n]) && k in Protected(base, n)
      ensures Same(before, c.objs, k)
    {
      OutOfReach(base, cfg, Writable(before, base, cfg), n);
      assert Same(before, mid, k);
      ProtectedIsWanted(mid, base, cfg, n, k);
    }
    ProtectedStay(before, c.objs, base, cfg);
    SweepsKeep(before, mid, c.objs, base, cfg);
  }

  /** The pending list names exactly the drifted databases. */
  lemma {:induction false} PendingIsExact(objs: Objects, base: string, cfg: Config, names: seq<string>,
                                          p: PendingMigration)
    requires forall n :: n in names ==> n in cfg
    ensures p in PendingOf(objs, base, cfg, names) <==>
      p.database in names && Drifted(objs, base, p.database, cfg[p.database])
      && p.from == LiveNode(objs, base, p.database) && p.to == cfg[p.database].server
  {
    if names != [] {
      var k := |names| - 1;
      assert names == names[..k] + [names[k]];
      PendingIsExact(objs, base, cfg, names[..k], p);
    }
  }
}

/**
 The deploy steps that write services and crons into the cluster (internal/reconcile/services.go, crons.go,
 pkg/core/service.go, pkg/core/cron.go).
 */
module WorkloadReconcile {
  import opened Cluster
  import opened Images
  import opened Names
  import opened StringOrder
  import opened Workloads
  import opened Wrappers
  import D = DependencyOrder

  // ---------------------------------------------------------------- objects of a workload

  function SecretOf(n: string): Key
  {
    Key(Secret, ServiceSecrets(n))
  }

  function WorkloadKind(volumes: seq<string>): Kind
  {
    if Managed(volumes) then StatefulSet else Deployment
  }

  /** What applying a service writes. */
  ghost function ServiceKeys(n: string, def: ServiceDef): set<Key>
  {
    {Key(WorkloadKind(def.volumes), n), Key(Cluster.Service, n), SecretOf(n)}
  }

  ghost function CronKeys(n: string): set<Key>
  {
    {Key(CronJob, n), SecretOf(n)}
  }

  lemma SecretsOfDifferentWorkloads(m: string, n: string)
    ensures SecretOf(m) == SecretOf(n) <==> m == n
  {
    SameHead(m, n, "-secrets");
  }

  /** The Secret holds exactly `kvs`, or does not exist when there is nothing to hold. */
  ghost predicate SecretIs(objs: Objects, n: string, kvs: Sources)
  {
    if kvs == map[] then SecretOf(n) !in objs
    else SecretOf(n) in objs && objs[SecretOf(n)] == Obj(Services, Data(kvs))
  }

  /** The Secret holds at least `kvs`, under the services owner; it does not exist when there is nothing to hold. */
  ghost predicate SecretCovers(objs: Objects, n: string, kvs: Sources)
  {
    if kvs == map[] then SecretOf(n) !in objs
    else
      && SecretOf(n) in objs && objs[SecretOf(n)].owner == Services && objs[SecretOf(n)].content.Data?
      && forall k :: k in kvs ==> k in objs[SecretOf(n)].content.data && objs[SecretOf(n)].content.data[k] == kvs[k]
  }

  /** Exactly the given keys, or at least them. */
  ghost predicate SecretHolds(objs: Objects, n: string, kvs: Sources, exact: bool)
  {
    if exact then SecretIs(objs, n, kvs) else SecretCovers(objs, n, kvs)
  }

  lemma CoversWithoutOther(was: Objects, now: Objects, n: string, kvs: Sources, key: string)
    requires SecretCovers(was, n, kvs) && kvs != map[] && key !in kvs
    requires now == was || now == WithoutKey(was, ServiceSecrets(n), key)
    ensures SecretCovers(now, n, kvs)
  {
  }

  /** While removing keys: those seen and not declared are gone, the rest is untouched. */
  ghost predicate Trimmed(objs: Objects, n: string, kvs: Sources, merged: Sources, seen: seq<string>)
  {
    && SecretOf(n) in objs && objs[SecretOf(n)].owner == Services && objs[SecretOf(n)].content.Data?
    && TrimmedData(objs[SecretOf(n)].content.data, kvs, merged, seen)
  }

  ghost predicate TrimmedData(data: Sources, kvs: Sources, merged: Sources, seen: seq<string>)
  {
    && (forall k :: k in data <==> k in merged && (k in kvs || k !in seen))
    && (forall k :: k in data ==> data[k] == merged[k])
  }

  lemma TrimmedOnce(was: Objects, now: Objects, n: string, kvs: Sources, merged: Sources, seen: seq<string>,
                    key: string)
    requires Trimmed(was, n, kvs, merged, seen)
    requires now == if key in kvs then was else WithoutKey(was, ServiceSecrets(n), key)
    ensures Trimmed(now, n, kvs, merged, seen + [key])
  {
    var data := was[SecretOf(n)].content.data;
    assert now[SecretOf(n)].content.data == if key in kvs then data else data - {key};
  }

  /** The loop over the live keys; a failed removal is ignored. */
  method TrimSecret(c: Client, n: string, kvs: Sources, live: seq<string>, ghost merged: Sources)
    requires kvs != map[] && SecretCovers(c.objs, n, kvs)
    modifies c
    ensures OnlyTouches(old(c.objs), c.objs, {SecretOf(n)}) && SecretCovers(c.objs, n, kvs)
    ensures c.reliable && Trimmed(old(c.objs), n, kvs, merged, []) ==> Trimmed(c.objs, n, kvs, merged, live)
  {
    for i := 0 to |live|
      invariant OnlyTouches(old(c.objs), c.objs, {SecretOf(n)}) && SecretCovers(c.objs, n, kvs)
      invariant c.reliable && Trimmed(old(c.objs), n, kvs, merged, []) ==> Trimmed(c.objs, n, kvs, merged, live[..i])
    {
      Snoc(live, i);
      ghost var was := c.objs;
      if live[i] !in kvs {
        var _ := c.DeleteSecretKey(ServiceSecrets(n), live[i]);
        CoversWithoutOther(was, c.objs, n, kvs, live[i]);
      }
      if c.reliable && Trimmed(was, n, kvs, merged, live[..i]) {
        TrimmedOnce(was, c.objs, n, kvs, merged, live[..i], live[i]);
      }
    }
    Whole(live);
  }

  lemma FullyTrimmed(objs: Objects, n: string, kvs: Sources, merged: Sources, live: seq<string>)
    requires Trimmed(objs, n, kvs, merged, live) && kvs != map[]
    requires (forall k :: k in live <==> k in merged) && (forall k :: k in kvs ==> k in merged && merged[k] == kvs[k])
    ensures SecretIs(objs, n, kvs)
  {
    assert objs[SecretOf(n)].content.data == kvs;
  }

  /** `upsertServiceSecrets`: merge the keys in, then remove the ones no longer declared. */
  method UpsertServiceSecrets(c: Client, n: string, kvs: Sources) returns (ok: bool)
    modifies c
    ensures OnlyTouches(old(c.objs), c.objs, {SecretOf(n)})
    ensures c.reliable ==> ok
    ensures ok ==> SecretHolds(c.objs, n, kvs, c.reliable)
  {
    ghost var before := c.objs;
    if |kvs| == 0 {
      ok := c.Delete(SecretOf(n));
      return;
    }
    ok := c.EnsureSecret(Services, ServiceSecrets(n), kvs);
    if !ok { return; }
    ghost var merged := DataOf(before, ServiceSecrets(n)) + kvs;
    assert c.objs[SecretOf(n)] == Obj(Services, Data(merged));
    assert SecretCovers(c.objs, n, kvs);
    var existing := c.ListSecretKeys(ServiceSecrets(n));
    if existing.None? { return true; }
    assert Trimmed(c.objs, n, kvs, merged, []);
    TrimSecret(c, n, kvs, existing.value, merged);
    if c.reliable {
      FullyTrimmed(c.objs, n, kvs, merged, existing.value);
    }
  }

  // ---------------------------------------------------------------- one service

  /** Nothing about the service itself stops the deploy. */
  ghost predicate Deployable(cfg: Config, def: ServiceDef, sources: Sources, hash: string)
  {
    && EnvResolves(def.env, sources) && SecretsResolve(def.secrets, sources)
    && ResolveImage(def.image, def.built, cfg.registries, hash).Ok?
    && ResolveImage(def.image, def.built, cfg.registries, hash).value != ""
    && forall m :: m in def.volumes ==> GoodMount(m, cfg.knownVolumes)
  }

  function ServiceData(def: ServiceDef, sources: Sources): Sources
  {
    WorkloadData(def.secrets, def.storage, def.databases, sources)
  }

  /** A workload of the services step with this image. */
  predicate ImageRuns(objs: Objects, k: Key, image: string)
  {
    k in objs && objs[k] == Obj(Services, Pods(Some(image), ""))
  }

  /** The Service object that leads to the workload. */
  predicate Reachable(objs: Objects, n: string)
  {
    Key(Cluster.Service, n) in objs && objs[Key(Cluster.Service, n)] == Obj(Services, Plain(n))
  }

  /** The service's workload, Service and Secret are in the cluster; `exact` says that the Secret has no other keys. */
  ghost predicate ServiceStands(objs: Objects, cfg: Config, n: string, def: ServiceDef, sources: Sources, hash: string,
                                exact: bool)
  {
    && ResolveImage(def.image, def.built, cfg.registries, hash).Ok?
    && var image := ResolveImage(def.image, def.built, cfg.registries, hash).value;
    && var k := Key(WorkloadKind(def.volumes), n);
    && ImageRuns(objs, k, image) && image != "" && Reachable(objs, n)
    && SecretHolds(objs, n, ServiceData(def, sources), exact)
  }

  /** The Secret of a workload holds its values and, if `exact`, nothing else. */
  ghost predicate SecretServes(objs: Objects, n: string, secrets: seq<string>, storage: seq<string>,
                               databases: seq<string>, sources: Sources, exact: bool)
  {
    var data := DataOf(objs, ServiceSecrets(n));
    && HoldsItsValues(data, secrets, storage, databases, sources)
    && (exact ==> HoldsNothingElse(data, secrets, storage, databases, sources))
  }

  lemma CoveringIsHolding(objs: Objects, n: string, kvs: Sources, exact: bool)
    requires SecretHolds(objs, n, kvs, exact)
    ensures var data := DataOf(objs, ServiceSecrets(n));
      && (forall k :: k in kvs ==> k in data && data[k] == kvs[k])
      && (exact ==> data == kvs)
  {
  }

  /** What the Secret of a deployed workload holds, entry by entry. */
  lemma WhatTheSecretHolds(objs: Objects, n: string, secrets: seq<string>, storage: seq<string>,
                           databases: seq<string>, sources: Sources, exact: bool)
    requires SecretsResolve(secrets, sources)
    requires SecretHolds(objs, n, WorkloadData(secrets, storage, databases, sources), exact)
    ensures SecretServes(objs, n, secrets, storage, databases, sources, exact)
  {
    var kvs := WorkloadData(secrets, storage, databases, sources);
    CoveringIsHolding(objs, n, kvs, exact);
    WorkloadHolds(secrets, storage, databases, sources);
    HoldsInMore(kvs, DataOf(objs, ServiceSecrets(n)), secrets, storage, databases, sources);
  }

  /** A service that stands runs its image and gives it the values of its entries. */
  lemma StandingServes(objs: Objects, cfg: Config, n: string, def: ServiceDef, sources: Sources, hash: string,
                       exact: bool)
    requires ServiceStands(objs, cfg, n, def, sources, hash, exact) && SecretsResolve(def.secrets, sources)
    ensures SecretServes(objs, n, def.secrets, def.storage, def.databases, sources, exact)
  {
    WhatTheSecretHolds(objs, n, def.secrets, def.storage, def.databases, sources, exact);
  }

  /** `ServiceSet`: two looks at the mounts, then the workload and its Service object. */
  method ServiceSet(c: Client, n: string, image: string, volumes: seq<string>, known: set<string>) returns (ok: bool)
    modifies c
    ensures OnlyTouches(old(c.objs), c.objs, {Key(WorkloadKind(volumes), n), Key(Cluster.Service, n)})
    ensures ok ==> image != "" && forall m :: m in volumes ==> GoodMount(m, known)
    ensures ok ==> ImageRuns(c.objs, Key(WorkloadKind(volumes), n), image) && Reachable(c.objs, n)
    ensures ok && (exists m :: m in volumes && NamesVolume(m)) ==> ImageRuns(c.objs, Key(StatefulSet, n), image)
    ensures ok && (forall m :: m in volumes ==> !NamesVolume(m)) ==> ImageRuns(c.objs, Key(Deployment, n), image)
    ensures c.reliable && image != "" && (forall m :: m in volumes ==> GoodMount(m, known)) ==> ok
  {
    if image == "" { return false; }
    var managed := CheckMounts(volumes, known);
    if managed.None? { return false; }
    var hosts := BuildVolumes(volumes);
    if hosts.None? { return false; }
    var kind := if managed.value then StatefulSet else Deployment;
    ok := c.ApplyOwned(Services, Key(kind, n), Pods(Some(image), ""));
    if !ok { return; }
    ok := c.ApplyOwned(Services, Key(Cluster.Service, n), Plain(n));
  }

  /** How both loops begin: resolve the entries and write the Secret. */
  method WriteSecret(c: Client, n: string, env: seq<string>, secrets: seq<string>, storage: seq<string>,
                     databases: seq<string>, sources: Sources) returns (ok: bool)
    modifies c
    ensures OnlyTouches(old(c.objs), c.objs, {SecretOf(n)})
    ensures ok ==> EnvResolves(env, sources) && SecretsResolve(secrets, sources)
    ensures c.reliable && EnvResolves(env, sources) && SecretsResolve(secrets, sources) ==> ok
    ensures ok ==> SecretHolds(c.objs, n, WorkloadData(secrets, storage, databases, sources), c.reliable)
  {
    var kvs, refs := ResolveWorkload(env, secrets, storage, databases, sources);
    if kvs.None? { return false; }
    ok := UpsertServiceSecrets(c, n, kvs.value);
  }

  /** A Secret written before, and left alone since, together with the workload. */
  lemma BothHalvesStand(mid: Objects, now: Objects, cfg: Config, n: string, def: ServiceDef, sources: Sources,
                        hash: string, image: string, exact: bool)
    requires SecretHolds(mid, n, ServiceData(def, sources), exact) && Same(mid, now, SecretOf(n))
    requires ResolveImage(def.image, def.built, cfg.registries, hash) == Ok(image) && image != ""
    requires ImageRuns(now, Key(WorkloadKind(def.volumes), n), image) && Reachable(now, n)
    ensures ServiceStands(now, cfg, n, def, sources, hash, exact)
  {
  }

  /** The body of the loop over the services; the rollout wait is one more call. */
  method DeployService(c: Client, cfg: Config, n: string, def: ServiceDef, sources: Sources, hash: string)
      returns (ok: bool)
    modifies c
    ensures OnlyTouches(old(c.objs), c.objs, ServiceKeys(n, def))
    ensures ok ==> Deployable(cfg, def, sources, hash)
    ensures c.reliable && Deployable(cfg, def, sources, hash) ==> ok
    ensures ok ==> ServiceStands(c.objs, cfg, n, def, sources, hash, c.reliable)
  {
    ok := WriteSecret(c, n, def.env, def.secrets, def.storage, def.databases, sources);
    if !ok { return; }
    var image := ResolveImage(def.image, def.built, cfg.registries, hash);
    if image.Err? { return false; }
    ghost var mid := c.objs;
    ok := ServiceSet(c, n, image.value, def.volumes, cfg.knownVolumes);
    assert Same(mid, c.objs, SecretOf(n));
    TouchedTwice(old(c.objs), mid, c.objs, {SecretOf(n)}, {Key(WorkloadKind(def.volumes), n), Key(Cluster.Service, n)},
                 ServiceKeys(n, def));
    if !ok { return; }
    BothHalvesStand(mid, c.objs, cfg, n, def, sources, hash, image.value, c.reliable);
    var rollout := c.Call();
    ok := rollout == Works;
  }

  // ---------------------------------------------------------------- Services

  ghost function Touched(cfg: Config, names: seq<string>): set<Key>
  {
    set n, k | n in names && n in cfg.services && k in ServiceKeys(n, cfg.services[n]) :: k
  }

  ghost predicate AllStand(objs: Objects, cfg: Config, names: seq<string>, sources: Sources, hash: string, exact: bool)
  {
    forall n :: n in names ==> n in cfg.services && ServiceStands(objs, cfg, n, cfg.services[n], sources, hash, exact)
  }

  /** A service stands while its own objects stay the same. */
  lemma StillStands(was: Objects, now: Objects, cfg: Config, n: string, def: ServiceDef, sources: Sources, hash: string,
                    exact: bool)
    requires ServiceStands(was, cfg, n, def, sources, hash, exact)
    requires Same(was, now, Key(WorkloadKind(def.volumes), n)) && Same(was, now, SecretOf(n))
    requires Same(was, now, Key(Cluster.Service, n))
    ensures ServiceStands(now, cfg, n, def, sources, hash, exact)
  {
  }

  lemma ServicesShareNothing(m: string, dm: ServiceDef, n: string, dn: ServiceDef)
    requires m != n
    ensures Key(WorkloadKind(dm.volumes), m) !in ServiceKeys(n, dn) && SecretOf(m) !in ServiceKeys(n, dn)
    ensures Key(Cluster.Service, m) !in ServiceKeys(n, dn)
  {
    SecretsOfDifferentWorkloads(m, n);
  }

  /** Deploying another service does not disturb the ones that stand. */
  lemma OthersStand(was: Objects, now: Objects, cfg: Config, names: seq<string>, n: string, sources: Sources,
                    hash: string, exact: bool)
    requires AllStand(was, cfg, names, sources, hash, exact) && n !in names && n in cfg.services
    requires OnlyTouches(was, now, ServiceKeys(n, cfg.services[n]))
    ensures AllStand(now, cfg, names, sources, hash, exact)
  {
    forall m | m in names ensures ServiceStands(now, cfg, m, cfg.services[m], sources, hash, exact) {
      ServicesShareNothing(m, cfg.services[m], n, cfg.services[n]);
      StillStands(was, now, cfg, m, cfg.services[m], sources, hash, exact);
    }
  }

  lemma TouchedGrows(cfg: Config, names: seq<string>, n: string)
    requires n in cfg.services
    ensures Touched(cfg, names + [n]) == Touched(cfg, names) + ServiceKeys(n, cfg.services[n])
  {
    var all := names + [n];
    assert forall m :: m in all <==> m in names || m == n;
  }

  lemma TouchedIsMonotone(cfg: Config, some: seq<string>, all: seq<string>)
    requires forall n :: n in some ==> n in all
    ensures Touched(cfg, some) <= Touched(cfg, all)
  {
  }

  /** The loop got past `done` services and has touched at most the next one. */
  ghost predicate Underway(before: Objects, now: Objects, cfg: Config, names: seq<string>, sources: Sources,
                           hash: string, exact: bool, done: nat)
  {
    && done <= |names| && AllStand(now, cfg, names[..done], sources, hash, exact)
    && OnlyTouches(before, now, Touched(cfg, if done < |names| then names[..done + 1] else names))
  }

  method DeployAll(c: Client, cfg: Config, names: seq<string>, sources: Sources, hash: string)
      returns (ok: bool, ghost done: nat)
    requires NoDup(names) && forall n :: n in names ==> n in cfg.services
    modifies c
    ensures OnlyTouches(old(c.objs), c.objs, Touched(cfg, names))
    ensures ok ==> forall n :: n in names ==> Deployable(cfg, cfg.services[n], sources, hash)
    ensures c.reliable && (forall n :: n in names ==> Deployable(cfg, cfg.services[n], sources, hash)) ==> ok
    ensures ok ==> AllStand(c.objs, cfg, names, sources, hash, c.reliable)
    ensures Underway(old(c.objs), c.objs, cfg, names, sources, hash, c.reliable, done)
  {
    ghost var before := c.objs;
    for i := 0 to |names|
      invariant OnlyTouches(before, c.objs, Touched(cfg, names[..i]))
      invariant AllStand(c.objs, cfg, names[..i], sources, hash, c.reliable)
      invariant forall n :: n in names[..i] ==> Deployable(cfg, cfg.services[n], sources, hash)
    {
      Snoc(names, i);
      var n := names[i];
      ghost var was := c.objs;
      ok := DeployService(c, cfg, n, cfg.services[n], sources, hash);
      TouchedGrows(cfg, names[..i], n);
      TouchedIsMonotone(cfg, names[..i + 1], names);
      TouchedTwice(before, was, c.objs, Touched(cfg, names[..i]), ServiceKeys(n, cfg.services[n]),
        Touched(cfg, names[..i + 1]));
      OthersStand(was, c.objs, cfg, names[..i], n, sources, hash, c.reliable);
      if !ok { return false, i; }
    }
    Whole(names);
    return true, |names|;
  }

  /** In any run: when an object of a service has changed, everything the service depends on stands. */
  ghost predicate DependenciesFirst(before: Objects, now: Objects, cfg: Config, sources: Sources, hash: string,
                                    exact: bool)
  {
    forall n, k, d :: n in Emitted(cfg) && k in ServiceKeys(n, cfg.services[n]) && !Same(before, now, k)
                      && d in cfg.services[n].dependsOn && d in cfg.services ==>
      ServiceStands(now, cfg, d, cfg.services[d], sources, hash, exact)
  }

  lemma TouchedByOne(cfg: Config, names: seq<string>, n: string, k: Key)
    requires n in cfg.services && k in ServiceKeys(n, cfg.services[n]) && k in Touched(cfg, names)
    ensures n in names
  {
    var m :| m in names && m in cfg.services && k in ServiceKeys(m, cfg.services[m]);
    SecretsOfDifferentWorkloads(m, n);
  }

  lemma OrderIsKept(before: Objects, now: Objects, cfg: Config, names: seq<string>, sources: Sources, hash: string,
                    exact: bool, done: nat)
    requires Underway(before, now, cfg, names, sources, hash, exact, done)
    requires D.DepsFirst(DependsOn(cfg), names)
    ensures DependenciesFirst(before, now, cfg, sources, hash, exact)
  {
    var sofar := if done < |names| then names[..done + 1] else names;
    forall n, k, d | n in Emitted(cfg) && k in ServiceKeys(n, cfg.services[n]) && !Same(before, now, k)
                     && d in cfg.services[n].dependsOn && d in cfg.services
      ensures ServiceStands(now, cfg, d, cfg.services[d], sources, hash, exact)
    {
      TouchedByOne(cfg, sofar, n, k);
      var j :| 0 <= j < |sofar| && sofar[j] == n;
      assert names[j] == n && D.Edge(DependsOn(cfg), n, d);
      assert d in names[..j] && forall x :: x in names[..j] ==> x in names[..done];
    }
  }

  const SERVICE_KINDS: seq<Kind> := [Deployment, StatefulSet, Cluster.Service, Secret]

  /** Both workload kinds keep every service's name, whichever of the two it runs as. */
  function WantedByServices(names: set<string>): (w: map<Kind, set<string>>)
    ensures w.Keys == Elems(SERVICE_KINDS)
  {
    var secrets := set n | n in names :: ServiceSecrets(n);
    map[Deployment := names, StatefulSet := names, Cluster.Service := names, Secret := secrets]
  }

  function DependsOn(cfg: Config): D.Graph
  {
    map n | n in cfg.services :: cfg.services[n].dependsOn
  }

  /** The services the dependency order emits: those that do not run into a cycle. */
  ghost function Emitted(cfg: Config): set<string>
  {
    set n | n in cfg.services && !D.ReachesCycle(DependsOn(cfg), n)
  }

  ghost function AllTouched(cfg: Config, names: set<string>): set<Key>
  {
    set n, k | n in names && n in cfg.services && k in ServiceKeys(n, cfg.services[n]) :: k
  }

  /**
   The cluster after a `Services` run that succeeded: every emitted service stands, and whatever else differs is
   one of their objects or a removed orphan. When every call worked, also: no key and no orphan too many.
   */
  ghost predicate ServicesApplied(before: Objects, now: Objects, cfg: Config, sources: Sources, hash: string,
                                  exact: bool)
  {
    && (forall n :: n in Emitted(cfg) ==> ServiceStands(now, cfg, n, cfg.services[n], sources, hash, exact))
    && (exact ==> NoOrphans(now, Services, WantedByServices(Emitted(cfg))))
    && (forall k :: !Same(before, now, k) ==>
         k in AllTouched(cfg, Emitted(cfg))
           || (k !in now && Orphan(before, Services, WantedByServices(Emitted(cfg)), k)))
  }

  /** What stands is wanted, so the sweeps leave it. */
  lemma StandsThroughSweeps(was: Objects, now: Objects, cfg: Config, names: set<string>, n: string, def: ServiceDef,
                            sources: Sources, hash: string, exact: bool)
    requires SweepsOrphans(was, now, Services, WantedByServices(names)) && n in names
    requires ServiceStands(was, cfg, n, def, sources, hash, exact)
    ensures ServiceStands(now, cfg, n, def, sources, hash, exact)
  {
    assert !Orphan(was, Services, WantedByServices(names), Key(WorkloadKind(def.volumes), n));
    assert !Orphan(was, Services, WantedByServices(names), Key(Cluster.Service, n));
    assert ServiceSecrets(n) in WantedByServices(names)[Secret];
    assert !Orphan(was, Services, WantedByServices(names), SecretOf(n));
    StillStands(was, now, cfg, n, def, sources, hash, exact);
  }

  /** Touching, then sweeping: what differs was touched or is a removed orphan. */
  lemma TouchedThenSwept(before: Objects, mid: Objects, now: Objects, touched: set<Key>, owner: Owner,
                         wanted: map<Kind, set<string>>)
    requires OnlyTouches(before, mid, touched) && SweepsOrphans(mid, now, owner, wanted)
    ensures forall k :: !Same(before, now, k) ==> k in touched || (k !in now && Orphan(before, owner, wanted, k))
  {
    forall k | !Same(before, now, k) && k !in touched ensures k !in now && Orphan(before, owner, wanted, k) {
      assert Same(before, mid, k);
      assert !Same(mid, now, k);
    }
  }

  /** No emitted service stands in the deploy's way. */
  ghost predicate AllDeployable(cfg: Config, sources: Sources, hash: string)
  {
    forall n :: n in Emitted(cfg) ==> Deployable(cfg, cfg.services[n], sources, hash)
  }

  /**
   `Services`. Whatever fails, objects of other owners that are not a service's own stay as they are. Success means
   that every emitted service stands, even if a sweep or the removal of an old key failed; when every call works, the
   step succeeds exactly if each emitted service is deployable, and leaves no key and no orphan too many.
   */
  method ReconcileServices(c: Client, cfg: Config, sources: Sources, hash: string) returns (ok: bool)
    modifies c
    ensures forall k :: k in old(c.objs) && old(c.objs)[k].owner != Services && k !in AllTouched(cfg, Emitted(cfg)) ==>
      Same(old(c.objs), c.objs, k)
    ensures ok ==> AllDeployable(cfg, sources, hash)
    ensures c.reliable && AllDeployable(cfg, sources, hash) ==> ok
    ensures ok ==> ServicesApplied(old(c.objs), c.objs, cfg, sources, hash, c.reliable)
    ensures !ok ==> OnlyTouches(old(c.objs), c.objs, AllTouched(cfg, Emitted(cfg)))
    ensures !ok ==> DependenciesFirst(old(c.objs), c.objs, cfg, sources, hash, c.reliable)
  {
    ghost var before := c.objs;
    var names := D.TopoSortServices(DependsOn(cfg));
    assert Elems(names) == Emitted(cfg);
    assert Touched(cfg, names) == AllTouched(cfg, Emitted(cfg));
    ghost var done;
    ok, done := DeployAll(c, cfg, names, sources, hash);
    if !ok {
      OrderIsKept(before, c.objs, cfg, names, sources, hash, c.reliable, done);
      return;
    }
    ghost var mid := c.objs;
    var desired := set n | n in names;
    c.SweepEach(Services, SERVICE_KINDS, WantedByServices(desired));
    assert desired == Emitted(cfg);
    TouchedThenSwept(before, mid, c.objs, Touched(cfg, names), Services, WantedByServices(desired));
    forall n | n in desired ensures ServiceStands(c.objs, cfg, n, cfg.services[n], sources, hash, c.reliable) {
      StandsThroughSweeps(mid, c.objs, cfg, desired, n, cfg.services[n], sources, hash, c.reliable);
    }
  }

  // ---------------------------------------------------------------- crons

  ghost predicate CronDeployable(cfg: Config, def: CronDef, sources: Sources)
  {
    && EnvResolves(def.env, sources) && SecretsResolve(def.secrets, sources)
    && forall m :: m in def.volumes ==> GoodMount(m, cfg.knownVolumes)
  }

  function CronData(def: CronDef, sources: Sources): Sources
  {
    WorkloadData(def.secrets, def.storage, [], sources)
  }

  /** The cron is in the cluster as configured; its Secret carries the services owner. */
  ghost predicate CronStands(objs: Objects, n: string, def: CronDef, sources: Sources, exact: bool)
  {
    && Key(CronJob, n) in objs && objs[Key(CronJob, n)] == Obj(Crons, Scheduled(def.schedule, Some(def.image)))
    && SecretHolds(objs, n, CronData(def, sources), exact)
  }

  lemma StandingCronServes(objs: Objects, n: string, def: CronDef, sources: Sources, exact: bool)
    requires CronStands(objs, n, def, sources, exact) && SecretsResolve(def.secrets, sources)
    ensures SecretServes(objs, n, def.secrets, def.storage, [], sources, exact)
  {
    WhatTheSecretHolds(objs, n, def.secrets, def.storage, [], sources, exact);
  }

  /** The body of the loop over the crons, ending in `CronSet`. */
  method DeployCron(c: Client, cfg: Config, n: string, def: CronDef, sources: Sources) returns (ok: bool)
    modifies c
    ensures OnlyTouches(old(c.objs), c.objs, CronKeys(n))
    ensures ok ==> CronDeployable(cfg, def, sources)
    ensures c.reliable && CronDeployable(cfg, def, sources) ==> ok
    ensures ok ==> CronStands(c.objs, n, def, sources, c.reliable)
  {
    ok := WriteSecret(c, n, def.env, def.secrets, def.storage, [], sources);
    if !ok { return; }
    var managed := CheckMounts(def.volumes, cfg.knownVolumes);
    if managed.None? { return false; }
    var hosts := BuildVolumes(def.volumes);
    if hosts.None? { return false; }
    ghost var mid := c.objs;
    ok := c.ApplyOwned(Crons, Key(CronJob, n), Scheduled(def.schedule, Some(def.image)));
    assert Same(mid, c.objs, SecretOf(n));
    TouchedTwice(old(c.objs), mid, c.objs, {SecretOf(n)}, {Key(CronJob, n)}, CronKeys(n));
  }

  ghost predicate AllCronsStand(objs: Objects, cfg: Config, names: seq<string>, sources: Sources, exact: bool)
  {
    forall n :: n in names ==> n in cfg.crons && CronStands(objs, n, cfg.crons[n], sources, exact)
  }

  ghost function CronsTouched(names: set<string>): set<Key>
  {
    set n, k | n in names && k in CronKeys(n) :: k
  }

  lemma OtherCronsStand(was: Objects, now: Objects, cfg: Config, names: seq<string>, n: string, sources: Sources,
                        exact: bool)
    requires AllCronsStand(was, cfg, names, sources, exact) && n !in names
    requires OnlyTouches(was, now, CronKeys(n))
    ensures AllCronsStand(now, cfg, names, sources, exact)
  {
    forall m | m in names ensures CronStands(now, m, cfg.crons[m], sources, exact) {
      SecretsOfDifferentWorkloads(m, n);
      assert Same(was, now, Key(CronJob, m)) && Same(was, now, SecretOf(m));
    }
  }

  lemma CronsTouchedGrows(names: seq<string>, i: nat)
    requires i < |names|
    ensures CronsTouched(Elems(names[..i + 1])) == CronsTouched(Elems(names[..i])) + CronKeys(names[i])
    ensures CronsTouched(Elems(names[..i + 1])) <= CronsTouched(Elems(names))
  {
    Snoc(names, i);
    assert Elems(names[..i + 1]) == Elems(names[..i]) + {names[i]};
    assert Elems(names[..i + 1]) <= Elems(names);
  }

  method DeployCrons(c: Client, cfg: Config, names: seq<string>, sources: Sources) returns (ok: bool)
    requires NoDup(names) && forall n :: n in names ==> n in cfg.crons
    modifies c
    ensures OnlyTouches(old(c.objs), c.objs, CronsTouched(Elems(names)))
    ensures ok ==> forall n :: n in names ==> CronDeployable(cfg, cfg.crons[n], sources)
    ensures c.reliable && (forall n :: n in names ==> CronDeployable(cfg, cfg.crons[n], sources)) ==> ok
    ensures ok ==> AllCronsStand(c.objs, cfg, names, sources, c.reliable)
  {
    ghost var before := c.objs;
    for i := 0 to |names|
      invariant OnlyTouches(before, c.objs, CronsTouched(Elems(names[..i])))
      invariant AllCronsStand(c.objs, cfg, names[..i], sources, c.reliable)
      invariant forall n :: n in names[..i] ==> CronDeployable(cfg, cfg.crons[n], sources)
    {
      Snoc(names, i);
      var n := names[i];
      ghost var was := c.objs;
      ok := DeployCron(c, cfg, n, cfg.crons[n], sources);
      CronsTouchedGrows(names, i);
      TouchedTwice(before, was, c.objs, CronsTouched(Elems(names[..i])), CronKeys(n),
        CronsTouched(Elems(names[..i + 1])));
      if !ok { return; }
      OtherCronsStand(was, c.objs, cfg, names[..i], n, sources, c.reliable);
    }
    Whole(names);
    return true;
  }

  const CRON_KINDS: seq<Kind> := [CronJob, Secret]

  function WantedByCrons(names: set<string>): (w: map<Kind, set<string>>)
    ensures w.Keys == Elems(CRON_KINDS)
  {
    var secrets := set n | n in names :: ServiceSecrets(n);
    map[CronJob := names, Secret := secrets]
  }

  /** The cluster after a `Crons` run that succeeded; `exact` as for the services. */
  ghost predicate CronsApplied(before: Objects, now: Objects, cfg: Config, sources: Sources, exact: bool)
  {
    && (forall n :: n in cfg.crons ==> CronStands(now, n, cfg.crons[n], sources, exact))
    && (exact ==> NoOrphans(now, Crons, WantedByCrons(cfg.crons.Keys)))
    && (forall k :: !Same(before, now, k) ==>
         k in CronsTouched(cfg.crons.Keys) || (k !in now && Orphan(before, Crons, WantedByCrons(cfg.crons.Keys), k)))
  }

  lemma CronStandsThroughSweeps(was: Objects, now: Objects, names: set<string>, n: string, def: CronDef,
                                sources: Sources, exact: bool)
    requires SweepsOrphans(was, now, Crons, WantedByCrons(names)) && n in names
      && CronStands(was, n, def, sources, exact)
    ensures CronStands(now, n, def, sources, exact)
  {
    assert !Orphan(was, Crons, WantedByCrons(names), Key(CronJob, n));
    assert ServiceSecrets(n) in WantedByCrons(names)[Secret];
    assert !Orphan(was, Crons, WantedByCrons(names), SecretOf(n));
    assert Same(was, now, Key(CronJob, n)) && Same(was, now, SecretOf(n));
  }

  ghost predicate AllCronsDeployable(cfg: Config, sources: Sources)
  {
    forall n :: n in cfg.crons ==> CronDeployable(cfg, cfg.crons[n], sources)
  }

  /** `Crons`, over the sorted names. */
  method ReconcileCrons(c: Client, cfg: Config, sources: Sources) returns (ok: bool)
    modifies c
    ensures forall k :: k in old(c.objs) && old(c.objs)[k].owner != Crons && k !in CronsTouched(cfg.crons.Keys) ==>
      Same(old(c.objs), c.objs, k)
    ensures ok ==> AllCronsDeployable(cfg, sources)
    ensures c.reliable && AllCronsDeployable(cfg, sources) ==> ok
    ensures ok ==> CronsApplied(old(c.objs), c.objs, cfg, sources, c.reliable)
    ensures !ok ==> OnlyTouches(old(c.objs), c.objs, CronsTouched(cfg.crons.Keys))
  {
    ghost var before := c.objs;
    var names := SortedKeys(cfg.crons.Keys);
    assert Elems(names) == cfg.crons.Keys;
    ok := DeployCrons(c, cfg, names, sources);
    if !ok { return; }
    ghost var mid := c.objs;
    c.SweepEach(Crons, CRON_KINDS, WantedByCrons(cfg.crons.Keys));
    TouchedThenSwept(before, mid, c.objs, CronsTouched(cfg.crons.Keys), Crons, WantedByCrons(cfg.crons.Keys));
    forall n | n in cfg.crons ensures CronStands(c.objs, n, cfg.crons[n], sources, c.reliable) {
      CronStandsThroughSweeps(mid, c.objs, cfg.crons.Keys, n, cfg.crons[n], sources, c.reliable);
    }
  }

  // ---------------------------------------------------------------- a mount that is accepted and never deploys

  /** A service with the mount `./data:/data` passes validation; no deploy of it succeeds, whatever else it declares. */
  lemma RelativeMountNeverDeploys(cfg: Config, def: ServiceDef, sources: Sources, hash: string)
    requires "./data" + [':'] + "/data" in def.volumes
    ensures AcceptedMount("./data" + [':'] + "/data", cfg.knownVolumes) && !Deployable(cfg, def, sources, hash)
  {
    RelativeMountIsAccepted(cfg.knownVolumes);
  }
}

/**
 Planning after a deploy: for any starting cluster, once `Services` and then `Crons` have run without a failed
 call, the planner proposes nothing, up to exactly the conditions stated here.
 */
module PlanAfterApply {
  import opened Cluster
  import opened Images
  import opened Names
  import opened PlanEntries
  import opened StringOrder
  import opened WorkloadPlan
  import opened WorkloadReconcile
  import opened Workloads
  import opened Wrappers
  import D = DependencyOrder
  import S = SecretKeys

  /** The image a plan without a deploy hash compares with. */
  function PlannedImage(cfg: Config, def: ServiceDef): Result<string, Images.Error>
  {
    ResolveImage(def.image, def.built, cfg.registries, PLACEHOLDER_HASH)
  }

  /**
   A service with a managed volume runs as a StatefulSet. A Deployment of the same name left over from before is
   kept by the sweeps and read first by the planner, so its image must agree, or be empty.
   */
  ghost predicate NoMisleadingDeployment(before: Objects, cfg: Config, n: string, def: ServiceDef)
  {
    Managed(def.volumes) && ImageAt(before, Key(Deployment, n)).Some? && PlannedImage(cfg, def).Ok? ==>
      CompareImages(ImageAt(before, Key(Deployment, n)).value, PlannedImage(cfg, def).value) != OtherImage
  }

  /**
   The keys the planner expects of a service are the ones its Secret ends up with. A cron of the same name writes the
   same Secret, and writes it last, so then the cron's entries must supply exactly what the service declares.
   */
  ghost predicate KeysSettle(cfg: Config, n: string, def: ServiceDef, sources: Sources)
  {
    if n !in cfg.crons then NoKeySkipped(def.secrets, def.storage, def.databases, sources)
    else forall k ::
      k in DesiredSecretKeys(def.secrets, def.storage, def.databases)
      <==> Supplied(k, cfg.crons[n].secrets, cfg.crons[n].storage, [], sources)
  }

  ghost predicate ServiceIsQuiet(before: Objects, cfg: Config, n: string, def: ServiceDef, sources: Sources)
  {
    NoMisleadingDeployment(before, cfg, n, def) && KeysSettle(cfg, n, def, sources)
  }

  /** What the validator ensures about secret names. */
  ghost predicate Validated(cfg: Config)
  {
    && (forall n :: n in cfg.services ==> NamesValidated(cfg.services[n].secrets))
    && (forall n :: n in cfg.crons ==> NamesValidated(cfg.crons[n].secrets))
  }

  /** `Services` took the cluster from `s0` to `s1`, then `Crons` to `s2`, without a failed call. */
  ghost predicate Deployed(s0: Objects, s1: Objects, s2: Objects, cfg: Config, sources: Sources, hash: string)
  {
    IsHash(hash) && ServicesApplied(s0, s1, cfg, sources, hash, true) && CronsApplied(s1, s2, cfg, sources, true)
  }

  // ---------------------------------------------------------------- the crons step and the services

  lemma CronsSpareWorkloads(s1: Objects, s2: Objects, cfg: Config, sources: Sources, k: Key)
    requires CronsApplied(s1, s2, cfg, sources, true) && (k.kind == Deployment || k.kind == StatefulSet)
    ensures Same(s1, s2, k)
  {
    assert k !in CronsTouched(cfg.crons.Keys);
  }

  lemma CronsTouchOwnSecrets(names: set<string>, n: string)
    requires n !in names
    ensures SecretOf(n) !in CronsTouched(names)
  {
    forall m | m in names ensures SecretOf(n) !in CronKeys(m) {
      SecretsOfDifferentWorkloads(m, n);
    }
  }

  lemma CronsSpareServiceSecrets(s1: Objects, s2: Objects, cfg: Config, sources: Sources, n: string)
    requires CronsApplied(s1, s2, cfg, sources, true) && n !in cfg.crons
    requires SecretOf(n) in s1 ==> s1[SecretOf(n)].owner == Services
    ensures Same(s1, s2, SecretOf(n))
  {
    CronsTouchOwnSecrets(cfg.crons.Keys, n);
  }

  /** What the Secret of a service holds in the end. */
  ghost function FinalData(cfg: Config, n: string, def: ServiceDef, sources: Sources): Sources
  {
    if n in cfg.crons then CronData(cfg.crons[n], sources) else ServiceData(def, sources)
  }

  /** After both steps the service's image runs, and its Secret is its own or that of the cron with its name. */
  lemma ServiceAfterCrons(s0: Objects, s1: Objects, s2: Objects, cfg: Config, sources: Sources, hash: string, n: string)
    requires Deployed(s0, s1, s2, cfg, sources, hash) && n in Emitted(cfg)
    ensures var def := cfg.services[n];
      var image := ResolveImage(def.image, def.built, cfg.registries, hash);
      && image.Ok? && ImageRuns(s2, Key(WorkloadKind(def.volumes), n), image.value)
      && SecretIs(s2, n, FinalData(cfg, n, def, sources))
  {
    var def := cfg.services[n];
    assert ServiceStands(s1, cfg, n, def, sources, hash, true);
    CronsSpareWorkloads(s1, s2, cfg, sources, Key(WorkloadKind(def.volumes), n));
    if n in cfg.crons {
      assert CronStands(s2, n, cfg.crons[n], sources, true);
    } else {
      CronsSpareServiceSecrets(s1, s2, cfg, sources, n);
    }
  }

  lemma OnlyEmittedAreLive(s1: Objects, s2: Objects, cfg: Config, sources: Sources, n: string)
    requires NoOrphans(s1, Services, WantedByServices(Emitted(cfg))) && CronsApplied(s1, s2, cfg, sources, true)
    requires n in LiveServices(s2)
    ensures n in Emitted(cfg)
  {
    CronsSpareWorkloads(s1, s2, cfg, sources, Key(Deployment, n));
    CronsSpareWorkloads(s1, s2, cfg, sources, Key(StatefulSet, n));
    assert !Orphan(s1, Services, WantedByServices(Emitted(cfg)), Key(Deployment, n));
    assert !Orphan(s1, Services, WantedByServices(Emitted(cfg)), Key(StatefulSet, n));
  }

  /** Exactly the emitted services are live. */
  lemma LiveAreEmitted(s0: Objects, s1: Objects, s2: Objects, cfg: Config, sources: Sources, hash: string)
    requires Deployed(s0, s1, s2, cfg, sources, hash)
    ensures LiveServices(s2) == Emitted(cfg)
  {
    forall n | n in LiveServices(s2) ensures n in Emitted(cfg) {
      OnlyEmittedAreLive(s1, s2, cfg, sources, n);
    }
    forall n | n in Emitted(cfg) ensures n in LiveServices(s2) {
      EmittedIsLive(s0, s1, s2, cfg, sources, hash, n);
    }
  }

  lemma EmittedIsLive(s0: Objects, s1: Objects, s2: Objects, cfg: Config, sources: Sources, hash: string, n: string)
    requires Deployed(s0, s1, s2, cfg, sources, hash) && n in Emitted(cfg)
    ensures n in LiveServices(s2)
  {
    ServiceAfterCrons(s0, s1, s2, cfg, sources, hash, n);
  }

  lemma StatefulTouchesNoDeployment(cfg: Config, n: string)
    requires n in cfg.services && Managed(cfg.services[n].volumes)
    ensures Key(Deployment, n) !in AllTouched(cfg, Emitted(cfg))
  {
    forall m | m in Emitted(cfg) ensures Key(Deployment, n) !in ServiceKeys(m, cfg.services[m]) {
      assert Key(Deployment, n) == Key(WorkloadKind(cfg.services[m].volumes), m) ==> m == n;
    }
  }

  lemma ServicesSpare(s0: Objects, s1: Objects, cfg: Config, sources: Sources, hash: string, k: Key)
    requires ServicesApplied(s0, s1, cfg, sources, hash, true)
    requires k !in AllTouched(cfg, Emitted(cfg)) && !Orphan(s0, Services, WantedByServices(Emitted(cfg)), k)
    ensures Same(s0, s1, k)
  {
  }

  /** Both workload kinds of an emitted service are wanted. */
  lemma EmittedIsNoOrphan(objs: Objects, cfg: Config, n: string)
    requires n in Emitted(cfg)
    ensures !Orphan(objs, Services, WantedByServices(Emitted(cfg)), Key(Deployment, n))
  {
  }

  /** A Deployment named like a stateful service is what it was before the deploy. */
  lemma StaleDeploymentSurvives(s0: Objects, s1: Objects, s2: Objects, cfg: Config, sources: Sources, hash: string,
                                n: string)
    requires Deployed(s0, s1, s2, cfg, sources, hash)
    requires n in Emitted(cfg) && Managed(cfg.services[n].volumes)
    ensures Same(s0, s2, Key(Deployment, n))
  {
    var k := Key(Deployment, n);
    StatefulTouchesNoDeployment(cfg, n);
    EmittedIsNoOrphan(s0, cfg, n);
    ServicesSpare(s0, s1, cfg, sources, hash, k);
    CronsSpareWorkloads(s1, s2, cfg, sources, k);
  }

  // ---------------------------------------------------------------- one service

  lemma PlaceholderIsAHash()
    ensures IsHash(PLACEHOLDER_HASH)
  {
  }

  /** Comparing a deployed image with the planned one: at most the hash differs. */
  lemma DeployedImageIsQuiet(cfg: Config, def: ServiceDef, hash: string)
    requires IsHash(hash) && ResolveImage(def.image, def.built, cfg.registries, hash).Ok?
    ensures PlannedImage(cfg, def).Ok?
    ensures CompareImages(ResolveImage(def.image, def.built, cfg.registries, hash).value, PlannedImage(cfg, def).value)
      != OtherImage
  {
    PlaceholderIsAHash();
    HashCancels(def.image, def.built, cfg.registries, hash, PLACEHOLDER_HASH);
  }

  lemma ServiceLineIsQuiet(s0: Objects, s2: Objects, cfg: Config, n: string, hash: string, image: string)
    requires n in cfg.services && IsHash(hash)
    requires ResolveImage(cfg.services[n].image, cfg.services[n].built, cfg.registries, hash) == Ok(image)
    requires ImageRuns(s2, Key(WorkloadKind(cfg.services[n].volumes), n), image)
    requires Managed(cfg.services[n].volumes) ==> Same(s0, s2, Key(Deployment, n))
    ensures var line := ServiceLine(s2, cfg, n, "");
      && line.Some? && line.value.name == n
      && (line.value.kind == NoChange <==> NoMisleadingDeployment(s0, cfg, n, cfg.services[n]))
  {
    DeployedImageIsQuiet(cfg, cfg.services[n], hash);
    assert n in LiveServices(s2);
  }

  lemma SecretDataIsWritten(objs: Objects, n: string, kvs: Sources)
    requires SecretIs(objs, n, kvs)
    ensures DataOf(objs, ServiceSecrets(n)) == kvs
  {
  }

  ghost predicate KeysQuiet(objs: Objects, n: string, desired: seq<string>)
  {
    forall e :: KeyVerdict(e, n, Elems(desired), DataOf(objs, ServiceSecrets(n)).Keys) ==> e.kind == NoChange
  }

  /** The key lines are quiet exactly when the Secret has the wanted keys. */
  lemma KeysQuietIffSame(objs: Objects, n: string, desired: seq<string>, data: Sources)
    requires SecretIs(objs, n, data)
    ensures KeysQuiet(objs, n, desired) <==> Elems(desired) == data.Keys
  {
    SecretDataIsWritten(objs, n, data);
    DiffIsQuietIffSameKeys(n, Elems(desired), data.Keys);
  }

  /** A service's declared keys agree with its Secret's final ones exactly under the condition on the configuration. */
  lemma FinalKeysSettle(cfg: Config, n: string, def: ServiceDef, sources: Sources)
    requires NamesValidated(def.secrets)
    ensures Elems(DesiredSecretKeys(def.secrets, def.storage, def.databases)) == FinalData(cfg, n, def, sources).Keys
      <==> KeysSettle(cfg, n, def, sources)
  {
    var desired := DesiredSecretKeys(def.secrets, def.storage, def.databases);
    if n in cfg.crons {
      var cron := cfg.crons[n];
      forall k ensures k in CronData(cron, sources) <==> Supplied(k, cron.secrets, cron.storage, [], sources) {
        WrittenIsSupplied(k, cron.secrets, cron.storage, [], sources);
      }
      SameElems(desired, CronData(cron, sources).Keys);
    } else {
      MirrorIsExact(def.secrets, def.storage, def.databases, sources);
    }
  }

  lemma SameElems(s: seq<string>, keys: set<string>)
    ensures Elems(s) == keys <==> forall k :: k in s <==> k in keys
  {
    if Elems(s) == keys {
      assert forall k :: k in s <==> k in Elems(s);
    }
  }

  // ---------------------------------------------------------------- the services plan

  /** An emitted service after the whole deploy: its line and its key lines. */
  lemma EmittedService(s0: Objects, s1: Objects, s2: Objects, cfg: Config, sources: Sources, hash: string, n: string)
    requires Deployed(s0, s1, s2, cfg, sources, hash) && Validated(cfg) && n in Emitted(cfg)
    ensures var def, line := cfg.services[n], ServiceLine(s2, cfg, n, "");
      && line.Some? && line.value.name == n
      && (line.value.kind == NoChange <==> NoMisleadingDeployment(s0, cfg, n, def))
      && (KeysQuiet(s2, n, ServiceKeysWanted(cfg)[n]) <==> KeysSettle(cfg, n, def, sources))
  {
    var def := cfg.services[n];
    ServiceAfterCrons(s0, s1, s2, cfg, sources, hash, n);
    if Managed(def.volumes) {
      StaleDeploymentSurvives(s0, s1, s2, cfg, sources, hash, n);
    }
    ServiceLineIsQuiet(s0, s2, cfg, n, hash, ResolveImage(def.image, def.built, cfg.registries, hash).value);
    KeysQuietIffSame(s2, n, ServiceKeysWanted(cfg)[n], FinalData(cfg, n, def, sources));
    FinalKeysSettle(cfg, n, def, sources);
  }

  /** Every line of the services plan is a no-op. */
  ghost predicate QuietServices(objs: Objects, cfg: Config)
  {
    forall e :: InServicePlan(objs, cfg, "", e) ==> e.kind == NoChange
  }

  lemma QuietServicesAreEmitted(objs: Objects, cfg: Config)
    requires LiveServices(objs) == Emitted(cfg) && QuietServices(objs, cfg)
    ensures cfg.services.Keys == Emitted(cfg)
  {
    forall n | n in cfg.services && n !in Emitted(cfg) ensures false {
      var e := PlanEntry(Add, Workload, n, "", ["service"], "");
      assert ServiceLine(objs, cfg, n, "") == Some(e);
      assert InServicePlan(objs, cfg, "", e);
    }
  }

  lemma QuietServiceParts(objs: Objects, cfg: Config, n: string)
    requires QuietServices(objs, cfg) && n in cfg.services && n in LiveServices(objs)
    ensures ServiceLine(objs, cfg, n, "").Some? && ServiceLine(objs, cfg, n, "").value.name == n
      ==> ServiceLine(objs, cfg, n, "").value.kind == NoChange
    ensures KeysQuiet(objs, n, ServiceKeysWanted(cfg)[n])
  {
    var line := ServiceLine(objs, cfg, n, "");
    if line.Some? && line.value.name == n {
      assert InServicePlan(objs, cfg, "", line.value);
    }
    forall e | KeyVerdict(e, n, Elems(ServiceKeysWanted(cfg)[n]), DataOf(objs, ServiceSecrets(n)).Keys)
      ensures e.kind == NoChange
    {
      assert KeyLineOf(objs, LiveServices(objs), ServiceKeysWanted(cfg), e);
      assert InServicePlan(objs, cfg, "", e);
    }
  }

  lemma QuietPartsMakeQuietServices(objs: Objects, cfg: Config)
    requires LiveServices(objs) == cfg.services.Keys
    requires forall n :: n in cfg.services ==>
      ServiceLine(objs, cfg, n, "").Some? && ServiceLine(objs, cfg, n, "").value.kind == NoChange
    requires forall n :: n in cfg.services ==> KeysQuiet(objs, n, ServiceKeysWanted(cfg)[n])
    ensures QuietServices(objs, cfg)
  {
  }

  /** The cycle-free services are all there are exactly when the dependencies are acyclic. */
  lemma EmittedIsAllIffAcyclic(cfg: Config)
    ensures Emitted(cfg) == cfg.services.Keys <==> D.Acyclic(DependsOn(cfg))
  {
    D.AcyclicIffNoneReachesCycle(DependsOn(cfg));
    if D.Acyclic(DependsOn(cfg)) {
      forall n | n in cfg.services ensures n in Emitted(cfg) {
        assert n in DependsOn(cfg);
      }
    } else {
      var n :| n in DependsOn(cfg) && D.ReachesCycle(DependsOn(cfg), n);
      assert n in cfg.services && n !in Emitted(cfg);
    }
  }

  /**
   After `Services` and `Crons` the services plan exists, and is quiet exactly when the dependencies are acyclic,
   no leftover Deployment misleads the planner, and every Secret ends up with exactly the keys declared for it.
   */
  lemma ServicesPlanIsAFixpoint(s0: Objects, s1: Objects, s2: Objects, cfg: Config, sources: Sources, hash: string)
    requires Deployed(s0, s1, s2, cfg, sources, hash) && Validated(cfg)
    ensures forall n :: n in cfg.services ==> ServiceLine(s2, cfg, n, "").Some?
    ensures QuietServices(s2, cfg) <==>
      D.Acyclic(DependsOn(cfg)) && forall n :: n in cfg.services ==>
        ServiceIsQuiet(s0, cfg, n, cfg.services[n], sources)
  {
    LiveAreEmitted(s0, s1, s2, cfg, sources, hash);
    EmittedIsAllIffAcyclic(cfg);
    forall n | n in Emitted(cfg)
      ensures ServiceLine(s2, cfg, n, "").Some? && ServiceLine(s2, cfg, n, "").value.name == n
      ensures ServiceLine(s2, cfg, n, "").value.kind == NoChange && KeysQuiet(s2, n, ServiceKeysWanted(cfg)[n])
        <==> ServiceIsQuiet(s0, cfg, n, cfg.services[n], sources)
    {
      EmittedService(s0, s1, s2, cfg, sources, hash, n);
    }
    if QuietServices(s2, cfg) {
      QuietServicesAreEmitted(s2, cfg);
      forall n | n in cfg.services ensures ServiceIsQuiet(s0, cfg, n, cfg.services[n], sources) {
        QuietServiceParts(s2, cfg, n);
      }
    } else if D.Acyclic(DependsOn(cfg)) && forall n :: n in cfg.services ==>
      ServiceIsQuiet(s0, cfg, n, cfg.services[n], sources) {
      QuietPartsMakeQuietServices(s2, cfg);
    }
  }

  // ---------------------------------------------------------------- the crons plan

  lemma CronIsLiveIff(s1: Objects, s2: Objects, cfg: Config, sources: Sources, n: string)
    requires CronsApplied(s1, s2, cfg, sources, true)
    ensures n in OwnedNames(s2, Crons, Kind.CronJob) <==> n in cfg.crons
  {
    var k := Key(Kind.CronJob, n);
    if n in cfg.crons {
      assert CronStands(s2, n, cfg.crons[n], sources, true);
    } else {
      assert !Orphan(s2, Crons, WantedByCrons(cfg.crons.Keys), k);
    }
  }

  lemma LiveCronsAreConfigured(s1: Objects, s2: Objects, cfg: Config, sources: Sources)
    requires CronsApplied(s1, s2, cfg, sources, true)
    ensures OwnedNames(s2, Crons, Kind.CronJob) == cfg.crons.Keys
  {
    forall n ensures n in OwnedNames(s2, Crons, Kind.CronJob) <==> n in cfg.crons {
      CronIsLiveIff(s1, s2, cfg, sources, n);
    }
  }

  lemma SettledCronIsQuiet(objs: Objects, n: string, def: CronDef, sources: Sources)
    requires CronStands(objs, n, def, sources, true)
    ensures CronLines(objs, n, def, "") == [PlanEntry(NoChange, Resource.CronJob, n, "", [def.schedule], "")]
  {
    assert CompareImages(def.image, def.image) == SameImage;
  }

  ghost predicate QuietCrons(objs: Objects, cfg: Config)
  {
    forall e :: InCronPlan(objs, cfg, "", e) ==> e.kind == NoChange
  }

  lemma QuietPartsMakeQuietCrons(objs: Objects, cfg: Config)
    requires OwnedNames(objs, Crons, Kind.CronJob) == cfg.crons.Keys
    requires forall n, e :: n in cfg.crons && e in CronLines(objs, n, cfg.crons[n], "") ==> e.kind == NoChange
    requires forall n :: n in cfg.crons ==> KeysQuiet(objs, n, CronKeysWanted(cfg)[n])
    ensures QuietCrons(objs, cfg)
  {
  }

  lemma OneCronIsQuiet(objs: Objects, cfg: Config, n: string, sources: Sources)
    requires n in cfg.crons && CronStands(objs, n, cfg.crons[n], sources, true) && NamesValidated(cfg.crons[n].secrets)
    ensures forall e :: e in CronLines(objs, n, cfg.crons[n], "") ==> e.kind == NoChange
    ensures KeysQuiet(objs, n, CronKeysWanted(cfg)[n]) <==>
      NoKeySkipped(cfg.crons[n].secrets, cfg.crons[n].storage, [], sources)
  {
    SettledCronIsQuiet(objs, n, cfg.crons[n], sources);
    KeysQuietIffSame(objs, n, CronKeysWanted(cfg)[n], CronData(cfg.crons[n], sources));
    MirrorIsExact(cfg.crons[n].secrets, cfg.crons[n].storage, [], sources);
  }

  /** The crons plan is quiet exactly when no declared storage key was skipped. */
  lemma CronsPlanIsAFixpoint(s1: Objects, s2: Objects, cfg: Config, sources: Sources)
    requires CronsApplied(s1, s2, cfg, sources, true) && Validated(cfg)
    ensures QuietCrons(s2, cfg) <==>
      forall n :: n in cfg.crons ==> NoKeySkipped(cfg.crons[n].secrets, cfg.crons[n].storage, [], sources)
  {
    LiveCronsAreConfigured(s1, s2, cfg, sources);
    forall n | n in cfg.crons
      ensures forall e :: e in CronLines(s2, n, cfg.crons[n], "") ==> e.kind == NoChange
      ensures KeysQuiet(s2, n, CronKeysWanted(cfg)[n]) <==>
        NoKeySkipped(cfg.crons[n].secrets, cfg.crons[n].storage, [], sources)
    {
      OneCronIsQuiet(s2, cfg, n, sources);
    }
    if QuietCrons(s2, cfg) {
      forall n | n in cfg.crons ensures KeysQuiet(s2, n, CronKeysWanted(cfg)[n]) {
        QuietCronKeys(s2, cfg, n);
      }
    } else if forall n :: n in cfg.crons ==> KeysQuiet(s2, n, CronKeysWanted(cfg)[n]) {
      QuietPartsMakeQuietCrons(s2, cfg);
    }
  }

  lemma QuietCronKeys(objs: Objects, cfg: Config, n: string)
    requires QuietCrons(objs, cfg) && n in cfg.crons && n in OwnedNames(objs, Crons, Kind.CronJob)
    ensures KeysQuiet(objs, n, CronKeysWanted(cfg)[n])
  {
    forall e | KeyVerdict(e, n, Elems(CronKeysWanted(cfg)[n]), DataOf(objs, ServiceSecrets(n)).Keys)
      ensures e.kind == NoChange
    {
      assert KeyLineOf(objs, OwnedNames(objs, Crons, Kind.CronJob), CronKeysWanted(cfg), e);
      assert InCronPlan(objs, cfg, "", e);
    }
  }

  // ---------------------------------------------------------------- deploy, then plan

  /** All that can keep a plan from being empty after a clean deploy. */
  ghost predicate Settles(before: Objects, cfg: Config, sources: Sources)
  {
    && D.Acyclic(DependsOn(cfg))
    && (forall n :: n in cfg.services ==> ServiceIsQuiet(before, cfg, n, cfg.services[n], sources))
    && (forall n :: n in cfg.crons ==> NoKeySkipped(cfg.crons[n].secrets, cfg.crons[n].storage, [], sources))
  }

  /** The plan of both steps has no proposal. */
  ghost predicate QuietPlan(objs: Objects, cfg: Config)
  {
    QuietServices(objs, cfg) && QuietCrons(objs, cfg)
  }

  /** Both steps of the deploy; `mid` is the cluster between them. */
  method Deploy(c: Client, cfg: Config, sources: Sources, hash: string) returns (ok: bool, ghost mid: Objects)
    requires c.reliable && IsHash(hash)
    modifies c
    ensures ok <==> AllDeployable(cfg, sources, hash) && AllCronsDeployable(cfg, sources)
    ensures ok ==> Deployed(old(c.objs), mid, c.objs, cfg, sources, hash)
  {
    ok := ReconcileServices(c, cfg, sources, hash);
    mid := c.objs;
    if !ok { return; }
    ok := ReconcileCrons(c, cfg, sources);
  }

  /** The services plan, then the crons plan, without a deploy hash. */
  method Plan(objs: Objects, cfg: Config) returns (es: Option<seq<PlanEntry>>)
    ensures es.Some? <==> forall n :: n in cfg.services ==> ServiceLine(objs, cfg, n, "").Some?
    ensures es.Some? ==> (AllUnchanged(es.value) <==> QuietPlan(objs, cfg))
  {
    var services := PlanServices(objs, cfg, "");
    if services.None? { return None; }
    var crons := PlanCrons(objs, cfg, "");
    UnchangedJoin(services.value, crons);
    es := Some(services.value + crons);
  }

  /**
   Deploy services and crons without a failed call, then plan: nothing is proposed exactly if `Settles` held before.
   */
  method DeployThenPlan(c: Client, cfg: Config, sources: Sources, hash: string) returns (es: Option<seq<PlanEntry>>)
    requires c.reliable && IsHash(hash) && Validated(cfg)
    modifies c
    ensures es.Some? <==> AllDeployable(cfg, sources, hash) && AllCronsDeployable(cfg, sources)
    ensures es.Some? ==> (AllUnchanged(es.value) <==> Settles(old(c.objs), cfg, sources))
  {
    ghost var s0 := c.objs;
    var ok;
    ghost var s1;
    ok, s1 := Deploy(c, cfg, sources, hash);
    if !ok { return None; }
    ServicesPlanIsAFixpoint(s0, s1, c.objs, cfg, sources, hash);
    CronsPlanIsAFixpoint(s1, c.objs, cfg, sources);
    es := Plan(c.objs, cfg);
  }

  lemma UnchangedJoin(a: seq<PlanEntry>, b: seq<PlanEntry>)
    ensures AllUnchanged(a + b) <==> AllUnchanged(a) && AllUnchanged(b)
  {
    assert forall e :: e in a + b <==> e in a || e in b;
  }

  // ---------------------------------------------------------------- deploying again and again

  lemma SameVerdict(before: Objects, after: Objects, cfg: Config, n: string, def: ServiceDef, sources: Sources)
    requires Managed(def.volumes) ==> Same(before, after, Key(Deployment, n))
    ensures ServiceIsQuiet(before, cfg, n, def, sources) <==> ServiceIsQuiet(after, cfg, n, def, sources)
  {
  }

  /** A deploy changes nothing about what keeps plans from settling. */
  lemma SettlingOutlastsADeploy(s0: Objects, s1: Objects, s2: Objects, cfg: Config, sources: Sources, hash: string)
    requires Deployed(s0, s1, s2, cfg, sources, hash)
    ensures Settles(s0, cfg, sources) <==> Settles(s2, cfg, sources)
  {
    if D.Acyclic(DependsOn(cfg)) {
      EmittedIsAllIffAcyclic(cfg);
      forall n | n in cfg.services
        ensures ServiceIsQuiet(s0, cfg, n, cfg.services[n], sources) <==>
          ServiceIsQuiet(s2, cfg, n, cfg.services[n], sources)
      {
        if Managed(cfg.services[n].volumes) {
          StaleDeploymentSurvives(s0, s1, s2, cfg, sources, hash, n);
        }
        SameVerdict(s0, s2, cfg, n, cfg.services[n], sources);
      }
    }
  }

  /** Some clean deploy of this configuration, whatever its hash, leads from one cluster to the other. */
  ghost predicate Redeploy(before: Objects, after: Objects, cfg: Config, sources: Sources)
  {
    exists mid, hash :: Deployed(before, mid, after, cfg, sources, hash)
  }

  ghost predicate RedeployedAt(states: seq<Objects>, cfg: Config, sources: Sources, i: int)
  {
    0 < i < |states| && Redeploy(states[i - 1], states[i], cfg, sources)
  }

  /** The cluster after each of a series of clean deploys. */
  ghost predicate Redeploys(states: seq<Objects>, cfg: Config, sources: Sources)
  {
    forall i :: 0 < i < |states| ==> RedeployedAt(states, cfg, sources, i)
  }

  lemma OneRedeploy(before: Objects, after: Objects, cfg: Config, sources: Sources)
    requires Redeploy(before, after, cfg, sources)
    ensures Settles(before, cfg, sources) <==> Settles(after, cfg, sources)
  {
    var mid, hash :| Deployed(before, mid, after, cfg, sources, hash);
    SettlingOutlastsADeploy(before, mid, after, cfg, sources, hash);
  }

  lemma PlanAfterRedeploy(before: Objects, after: Objects, cfg: Config, sources: Sources)
    requires Redeploy(before, after, cfg, sources) && Validated(cfg)
    ensures QuietPlan(after, cfg) <==> Settles(before, cfg, sources)
  {
    var mid, hash :| Deployed(before, mid, after, cfg, sources, hash);
    ServicesPlanIsAFixpoint(before, mid, after, cfg, sources, hash);
    CronsPlanIsAFixpoint(mid, after, cfg, sources);
  }

  lemma StepOfRedeploys(states: seq<Objects>, cfg: Config, sources: Sources, i: nat)
    requires Redeploys(states, cfg, sources) && 0 < i < |states|
    ensures Settles(states[i - 1], cfg, sources) <==> Settles(states[i], cfg, sources)
  {
    assert RedeployedAt(states, cfg, sources, i);
    OneRedeploy(states[i - 1], states[i], cfg, sources);
  }

  lemma PlanOfRedeploys(states: seq<Objects>, cfg: Config, sources: Sources, i: nat)
    requires Redeploys(states, cfg, sources) && Validated(cfg) && 0 < i < |states|
    ensures QuietPlan(states[i], cfg) <==> Settles(states[i - 1], cfg, sources)
  {
    assert RedeployedAt(states, cfg, sources, i);
    PlanAfterRedeploy(states[i - 1], states[i], cfg, sources);
  }

  /** What every step keeps, and what shows it after a step, agree along a whole series. */
  lemma {:induction false} Throughout<T>(states: seq<T>, holds: T -> bool, shows: T -> bool, i: nat)
    requires forall k :: 0 < k < |states| ==> (holds(states[k - 1]) <==> holds(states[k]))
    requires forall k :: 0 < k < |states| ==> (shows(states[k]) <==> holds(states[k - 1]))
    requires 0 < i < |states|
    ensures shows(states[i]) <==> holds(states[0])
  {
    if i > 1 {
      Throughout(states, holds, shows, i - 1);
      assert holds(states[i - 2]) <==> holds(states[i - 1]);
    }
  }

  /** The plan after each deploy of a series is quiet exactly if the cluster before the first one met the condition. */
  lemma EveryLaterPlan(states: seq<Objects>, cfg: Config, sources: Sources, i: nat)
    requires Redeploys(states, cfg, sources) && Validated(cfg) && 0 < i < |states|
    ensures QuietPlan(states[i], cfg) <==> Settles(states[0], cfg, sources)
  {
    var settles := (objs: Objects) => Settles(objs, cfg, sources);
    var quiet := (objs: Objects) => QuietPlan(objs, cfg);
    forall k | 0 < k < |states| ensures settles(states[k - 1]) <==> settles(states[k]) {
      StepOfRedeploys(states, cfg, sources, k);
    }
    forall k | 0 < k < |states| ensures quiet(states[k]) <==> settles(states[k - 1]) {
      PlanOfRedeploys(states, cfg, sources, k);
    }
    Throughout(states, settles, quiet, i);
  }

  // ---------------------------------------------------------------- inputs that keep a plan from settling

  /** Nothing refers to a variable, and every mount binds. */
  lemma PlainServiceDeploys(cfg: Config, def: ServiceDef, sources: Sources, hash: string)
    requires def.env == [] && def.secrets == [] && !def.built && def.image != ""
    requires forall m :: m in def.volumes ==> GoodMount(m, cfg.knownVolumes)
    ensures Deployable(cfg, def, sources, hash)
  {
  }

  /**
   A service that was a Deployment and now has a volume: it deploys, the old Deployment is never swept, and the plan
   after every later deploy reports its image as a change.
   */
  lemma KindChangeKeepsShowing(states: seq<Objects>, cfg: Config, def: ServiceDef, sources: Sources, hash: string)
    requires def == ServiceDef("db:2", false, ["data" + [':'] + "/data"], [], [], [], [], [])
    requires cfg == Config(map["db" := def], map[], {}, {"data"})
    requires states != [] && states[0] == map[Key(Deployment, "db") := Obj(Services, Pods(Some("db:1"), ""))]
    requires Redeploys(states, cfg, sources)
    ensures AllDeployable(cfg, sources, hash) && AllCronsDeployable(cfg, sources)
    ensures forall i :: 0 < i < |states| ==> !QuietPlan(states[i], cfg)
  {
    var mount := "data" + [':'] + "/data";
    MountParts("data", "/data");
    assert NamesVolume(mount) && GoodMount(mount, cfg.knownVolumes);
    PlainServiceDeploys(cfg, def, sources, hash);
    assert def.volumes[0] == mount && Managed(def.volumes);
    assert PlannedImage(cfg, def) == Ok("db:2");
    assert "db:1"[3] != "db:2"[3];
    assert StripDeployHash("db:1") == "db:1" && StripDeployHash("db:2") == "db:2";
    assert "db" in cfg.services && cfg.services["db"] == def;
    assert !ServiceIsQuiet(states[0], cfg, "db", def, sources);
    forall i: nat | 0 < i < |states| ensures !QuietPlan(states[i], cfg) {
      EveryLaterPlan(states, cfg, sources, i);
    }
  }

  lemma NothingSuppliesABucket(bucket: string)
    ensures !NoKeySkipped([], [bucket], [], map[])
  {
    var none: Sources, storage := map[], [bucket];
    var k := StorageSecretKeys(bucket)[0];
    assert bucket in storage && k in StorageSecretKeys(bucket) && k !in none;
    assert !Supplied(k, [], storage, [], none);
  }

  /** A bucket without credentials in the sources: the service deploys, and every later plan adds the bucket's keys. */
  lemma MissingSourceKeepsShowing(states: seq<Objects>, cfg: Config, def: ServiceDef, hash: string)
    requires def == ServiceDef("web:1", false, [], [], [], ["media"], [], [])
    requires cfg == Config(map["web" := def], map[], {}, {})
    requires states != [] && Redeploys(states, cfg, map[])
    ensures AllDeployable(cfg, map[], hash) && AllCronsDeployable(cfg, map[])
    ensures forall i :: 0 < i < |states| ==> !QuietPlan(states[i], cfg)
  {
    PlainServiceDeploys(cfg, def, map[], hash);
    NothingSuppliesABucket("media");
    assert "web" in cfg.services && cfg.services["web"] == def;
    assert !ServiceIsQuiet(states[0], cfg, "web", def, map[]);
    forall i: nat | 0 < i < |states| ensures !QuietPlan(states[i], cfg) {
      EveryLaterPlan(states, cfg, map[], i);
    }
  }

  lemma TokenIsPlanned(def: ServiceDef)
    requires def.secrets == ["TOKEN"]
    ensures NamesValidated(def.secrets) && "TOKEN" in DesiredSecretKeys(def.secrets, def.storage, def.databases)
  {
    var token := "TOKEN";
    assert S.Key(token) == token && S.ValidEnvVarName(token);
    assert def.secrets[0] == token;
    PlannedIsDeclared(token, def.secrets, def.storage, def.databases);
  }

  /** A service and a cron of one name, the service with a secret the cron lacks: the shared Secret never settles. */
  lemma SharedNameKeepsShowing(states: seq<Objects>, cfg: Config, def: ServiceDef, cron: CronDef, sources: Sources)
    requires def == ServiceDef("web:1", false, [], [], ["TOKEN"], [], [], [])
    requires cron == CronDef("@daily", "job:1", [], [], [], [])
    requires cfg == Config(map["web" := def], map["web" := cron], {}, {})
    requires states != [] && Redeploys(states, cfg, sources)
    ensures forall i :: 0 < i < |states| ==> !QuietPlan(states[i], cfg)
  {
    TokenIsPlanned(def);
    var token := "TOKEN";
    assert !Supplied(token, [], [], [], sources);
    assert "web" in cfg.services && cfg.services["web"] == def && "web" in cfg.crons && cfg.crons["web"] == cron;
    assert !ServiceIsQuiet(states[0], cfg, "web", def, sources);
    forall i: nat | 0 < i < |states| ensures !QuietPlan(states[i], cfg) {
      EveryLaterPlan(states, cfg, sources, i);
    }
  }
}

/**
 The planner for services and crons (internal/reconcile/plan.go:411-659 and its helpers). It only reads the
 cluster, and derives again what the deploy steps would write.
 */
module WorkloadPlan {
  import opened Cluster
  import opened Images
  import opened Names
  import opened PlanEntries
  import opened StringOrder
  import opened Workloads
  import opened Wrappers

  const PLACEHOLDER_HASH := "00000000-000000"

  // ---------------------------------------------------------------- reading the cluster

  /** `combinedWorkloadNames` for the services. */
  function LiveServices(objs: Objects): set<string>
  {
    OwnedNames(objs, Services, Deployment) + OwnedNames(objs, Services, StatefulSet)
  }

  /** The image of a pod template, nothing when there is no object or no container. */
  function ImageAt(objs: Objects, k: Key): Option<string>
  {
    if k in objs && objs[k].content.Pods? then objs[k].content.image else None
  }

  /** `getDeploymentOrSTSImage`: a Deployment with a container answers first, whoever owns it. */
  function LiveImage(objs: Objects, n: string): string
  {
    match ImageAt(objs, Key(Deployment, n))
    case Some(image) => image
    case None =>
      match ImageAt(objs, Key(StatefulSet, n))
      case Some(image) => image
      case None => ""
  }

  // ---------------------------------------------------------------- lines of one workload

  /** How a live image compares with the wanted one. */
  datatype ImageChange = SameImage | Rebuilt | OtherImage

  function CompareImages(live: string, desired: string): ImageChange
  {
    if live == "" || live == desired then SameImage
    else if StripDeployHash(live) == StripDeployHash(desired) then Rebuilt
    else OtherImage
  }

  /** The line of a service that is live, or nothing when its image does not resolve. */
  function ServiceLine(objs: Objects, cfg: Config, n: string, hash: string): Option<PlanEntry>
    requires n in cfg.services
  {
    var def := cfg.services[n];
    if n !in LiveServices(objs) then Some(PlanEntry(Add, Workload, n, "", ["service"], ""))
    else
      match ResolveImage(def.image, def.built, cfg.registries, if hash == "" then PLACEHOLDER_HASH else hash)
      case Err(_) => None
      case Ok(desired) =>
        match CompareImages(LiveImage(objs, n), desired)
        case SameImage => Some(PlanEntry(NoChange, Workload, n, "", ["service"], ""))
        case OtherImage => Some(PlanEntry(Update, Workload, n, "", ["image", LiveImage(objs, n), desired], ""))
        case Rebuilt =>
          if hash != "" then Some(PlanEntry(Update, Workload, n, "", ["image rebuilt"], "image-tag"))
          else Some(PlanEntry(NoChange, Workload, n, "", ["service"], ""))
  }

  /** The lines of one cron: at most a schedule and an image update, otherwise one line. */
  function CronLines(objs: Objects, n: string, def: CronDef, hash: string): seq<PlanEntry>
  {
    var k := Key(Kind.CronJob, n);
    if n !in OwnedNames(objs, Crons, Kind.CronJob) then [PlanEntry(Add, Resource.CronJob, n, "", [def.schedule], "")]
    else
      var live := objs[k].content;
      var schedule := if live.Scheduled? && live.schedule != def.schedule
        then [PlanEntry(Update, Resource.CronJob, n, "", ["schedule", live.schedule, def.schedule], "")] else [];
      var change :=
        if live.Scheduled? && live.image.Some? then CompareImages(live.image.value, def.image) else SameImage;
      var image := match change
        case SameImage => []
        case OtherImage => [PlanEntry(Update, Resource.CronJob, n, "", ["image", live.image.value, def.image], "")]
        case Rebuilt =>
          if hash != "" then [PlanEntry(Update, Resource.CronJob, n, "", ["image rebuilt"], "image-tag")] else [];
      if schedule + image == [] then [PlanEntry(NoChange, Resource.CronJob, n, "", [def.schedule], "")]
      else schedule + image
  }

  // ---------------------------------------------------------------- secret keys

  function KeyLine(kind: PlanKind, w: string, key: string): PlanEntry
  {
    PlanEntry(kind, SecretKey, w, key, [], "")
  }

  /** A line for every wanted key, and a deletion for every other live one. */
  predicate KeyVerdict(e: PlanEntry, w: string, desired: set<string>, live: set<string>)
  {
    if e.sub in desired then e == KeyLine(if e.sub in live then NoChange else Add, w, e.sub)
    else e.sub in live && e == KeyLine(Delete, w, e.sub)
  }

  /** `secretKeyDiff`. */
  method SecretKeyDiff(w: string, desired: seq<string>, live: seq<string>) returns (es: seq<PlanEntry>)
    ensures forall e :: e in es <==> KeyVerdict(e, w, Elems(desired), Elems(live))
  {
    es := [];
    for i := 0 to |desired|
      invariant forall e :: e in es <==> e.sub in desired[..i] && KeyVerdict(e, w, Elems(desired), Elems(live))
    {
      Snoc(desired, i);
      es := es + [KeyLine(if desired[i] in live then NoChange else Add, w, desired[i])];
    }
    Whole(desired);
    for i := 0 to |live|
      invariant forall e :: e in es <==>
        (e.sub in desired || e.sub in live[..i]) && KeyVerdict(e, w, Elems(desired), Elems(live))
    {
      Snoc(live, i);
      if live[i] !in desired {
        es := es + [KeyLine(Delete, w, live[i])];
      }
    }
    Whole(live);
  }

  /** The diff proposes nothing exactly when the Secret has the desired keys. */
  lemma DiffIsQuietIffSameKeys(w: string, desired: set<string>, live: set<string>)
    ensures (forall e :: KeyVerdict(e, w, desired, live) ==> e.kind == NoChange) <==> desired == live
  {
    forall k | k in desired && k !in live
      ensures !(forall e :: KeyVerdict(e, w, desired, live) ==> e.kind == NoChange)
    {
      assert KeyVerdict(KeyLine(Add, w, k), w, desired, live);
    }
    forall k | k in live && k !in desired
      ensures !(forall e :: KeyVerdict(e, w, desired, live) ==> e.kind == NoChange)
    {
      assert KeyVerdict(KeyLine(Delete, w, k), w, desired, live);
    }
  }

  /** The key lines of all the workloads in a list. */
  ghost predicate KeyLineOf(objs: Objects, names: set<string>, wanted: map<string, seq<string>>, e: PlanEntry)
  {
    e.name in names && e.name in wanted &&
    KeyVerdict(e, e.name, Elems(wanted[e.name]), DataOf(objs, ServiceSecrets(e.name)).Keys)
  }

  method SecretKeyLines(objs: Objects, names: seq<string>, wanted: map<string, seq<string>>)
      returns (es: seq<PlanEntry>)
    requires forall n :: n in names ==> n in wanted
    ensures forall e :: e in es <==> KeyLineOf(objs, Elems(names), wanted, e)
  {
    es := [];
    for i := 0 to |names|
      invariant forall e :: e in es <==> KeyLineOf(objs, Elems(names[..i]), wanted, e)
    {
      Snoc(names, i);
      var live := SortedKeys(DataOf(objs, ServiceSecrets(names[i])).Keys);
      assert Elems(live) == DataOf(objs, ServiceSecrets(names[i])).Keys;
      var one := SecretKeyDiff(names[i], wanted[names[i]], live);
      es := es + one;
      assert forall e :: e in one ==> e.name == names[i];
    }
    Whole(names);
  }

  /** Live names that are not configured. */
  method OrphanLinesOf(r: Resource, live: seq<string>, desired: set<string>, detail: seq<string>)
      returns (es: seq<PlanEntry>)
    ensures forall e :: e in es <==>
      e == PlanEntry(Delete, r, e.name, "", detail, "") && e.name in live && e.name !in desired
  {
    es := [];
    for i := 0 to |live|
      invariant forall e :: e in es <==>
        e == PlanEntry(Delete, r, e.name, "", detail, "") && e.name in live[..i] && e.name !in desired
    {
      Snoc(live, i);
      if live[i] in desired { continue; }
      es := es + [PlanEntry(Delete, r, live[i], "", detail, "")];
    }
    Whole(live);
  }

  // ---------------------------------------------------------------- the planners

  function ServiceKeysWanted(cfg: Config): map<string, seq<string>>
  {
    map n | n in cfg.services ::
      DesiredSecretKeys(cfg.services[n].secrets, cfg.services[n].storage, cfg.services[n].databases)
  }

  function CronKeysWanted(cfg: Config): map<string, seq<string>>
  {
    map n | n in cfg.crons :: DesiredSecretKeys(cfg.crons[n].secrets, cfg.crons[n].storage, [])
  }

  /** The lines of the services plan. */
  ghost predicate InServicePlan(objs: Objects, cfg: Config, hash: string, e: PlanEntry)
  {
    || (e.name in cfg.services && ServiceLine(objs, cfg, e.name, hash) == Some(e))
    || (e == PlanEntry(Delete, Workload, e.name, "", ["service"], "") && e.name in LiveServices(objs)
      && e.name !in cfg.services)
    || KeyLineOf(objs, LiveServices(objs), ServiceKeysWanted(cfg), e)
  }

  method ServiceLines(objs: Objects, cfg: Config, names: seq<string>, hash: string) returns (es: Option<seq<PlanEntry>>)
    requires forall n :: n in names ==> n in cfg.services
    ensures es.Some? <==> forall n :: n in names ==> ServiceLine(objs, cfg, n, hash).Some?
    ensures es.Some? ==> forall e :: e in es.value <==>
      e.name in names && ServiceLine(objs, cfg, e.name, hash) == Some(e)
  {
    var lines: seq<PlanEntry> := [];
    for i := 0 to |names|
      invariant forall n :: n in names[..i] ==> ServiceLine(objs, cfg, n, hash).Some?
      invariant forall e :: e in lines <==> e.name in names[..i] && ServiceLine(objs, cfg, e.name, hash) == Some(e)
    {
      Snoc(names, i);
      var line := ServiceLine(objs, cfg, names[i], hash);
      if line.None? { return None; }
      assert line.value.name == names[i];
      lines := lines + [line.value];
    }
    Whole(names);
    return Some(lines);
  }

  method LiveAmong(names: seq<string>, live: set<string>) returns (some: seq<string>)
    ensures forall n :: n in some <==> n in names && n in live
  {
    some := [];
    for i := 0 to |names|
      invariant forall n :: n in some <==> n in names[..i] && n in live
    {
      Snoc(names, i);
      if names[i] !in live { continue; }
      some := some + [names[i]];
    }
    Whole(names);
  }

  /** `planServices`: no plan when the image of a live service does not resolve. */
  method PlanServices(objs: Objects, cfg: Config, hash: string) returns (es: Option<seq<PlanEntry>>)
    ensures es.Some? <==> forall n :: n in cfg.services ==> ServiceLine(objs, cfg, n, hash).Some?
    ensures es.Some? ==> forall e :: e in es.value <==> InServicePlan(objs, cfg, hash, e)
    ensures es.Some? ==> ServicesTold(objs, cfg, hash, es.value) && ServiceKeysPatched(objs, cfg, es.value)
  {
    var names := SortedKeys(cfg.services.Keys);
    var lines := ServiceLines(objs, cfg, names, hash);
    if lines.None? { return None; }
    var live := SortedKeys(LiveServices(objs));
    var orphans := OrphanLinesOf(Workload, live, cfg.services.Keys, ["service"]);
    var deployed := LiveAmong(names, LiveServices(objs));
    var keys := SecretKeyLines(objs, deployed, ServiceKeysWanted(cfg));
    var all := lines.value + orphans + keys;
    ServicePlanTells(objs, cfg, hash, all);
    ServicePlanPatchesKeys(objs, cfg, hash, all);
    return Some(all);
  }

  /** The lines of the crons plan. */
  ghost predicate InCronPlan(objs: Objects, cfg: Config, hash: string, e: PlanEntry)
  {
    || (e.name in cfg.crons && e in CronLines(objs, e.name, cfg.crons[e.name], hash))
    || (e == PlanEntry(Delete, Resource.CronJob, e.name, "", [], "")
        && e.name in OwnedNames(objs, Crons, Kind.CronJob) && e.name !in cfg.crons)
    || KeyLineOf(objs, OwnedNames(objs, Crons, Kind.CronJob), CronKeysWanted(cfg), e)
  }

  lemma CronLinesCarryTheName(objs: Objects, n: string, def: CronDef, hash: string)
    ensures forall e :: e in CronLines(objs, n, def, hash) ==> e.name == n
  {
  }

  /** `planCrons`. */
  method PlanCrons(objs: Objects, cfg: Config, hash: string) returns (es: seq<PlanEntry>)
    ensures forall e :: e in es <==> InCronPlan(objs, cfg, hash, e)
    ensures CronsTold(objs, cfg, hash, es) && CronKeysPatched(objs, cfg, es)
  {
    var names := SortedKeys(cfg.crons.Keys);
    var live := OwnedNames(objs, Crons, Kind.CronJob);
    es := [];
    for i := 0 to |names|
      invariant forall e :: e in es <==> e.name in names[..i] && e in CronLines(objs, e.name, cfg.crons[e.name], hash)
    {
      Snoc(names, i);
      CronLinesCarryTheName(objs, names[i], cfg.crons[names[i]], hash);
      es := es + CronLines(objs, names[i], cfg.crons[names[i]], hash);
    }
    Whole(names);
    var liveNames := SortedKeys(live);
    var orphans := OrphanLinesOf(Resource.CronJob, liveNames, cfg.crons.Keys, []);
    var deployed := LiveAmong(names, live);
    var keys := SecretKeyLines(objs, deployed, CronKeysWanted(cfg));
    es := es + orphans + keys;
    CronPlanTells(objs, cfg, hash, es);
    CronPlanPatchesKeys(objs, cfg, hash, es);
  }

  // ---------------------------------------------------------------- what the plan would do

  lemma ServiceLineVerdict(objs: Objects, cfg: Config, n: string, hash: string)
    requires n in cfg.services
    ensures var line := ServiceLine(objs, cfg, n, hash);
      line.Some? ==> line.value.name == n && line.value.resource == Workload && line.value.kind != Delete
                     && (line.value.kind == Add <==> n !in LiveServices(objs))
  {
  }

  /** Applying the plan's additions and deletions to the live workloads leaves exactly the configured services. */
  lemma ServicePlanIsAPatch(objs: Objects, cfg: Config, hash: string, es: seq<PlanEntry>)
    requires forall e :: e in es <==> InServicePlan(objs, cfg, hash, e)
    ensures ReplayNames(es, Workload, LiveServices(objs)) == cfg.services.Keys
  {
    forall n ensures n in ReplayNames(es, Workload, LiveServices(objs)) <==> n in cfg.services {
      if n in cfg.services {
        ServiceLineVerdict(objs, cfg, n, hash);
        var line := ServiceLine(objs, cfg, n, hash);
        if n !in LiveServices(objs) {
          assert line.value in es;
        }
      } else if n in LiveServices(objs) {
        assert PlanEntry(Delete, Workload, n, "", ["service"], "") in es;
      }
      ReplayByLines(es, Workload, LiveServices(objs), n);
    }
  }

  lemma CronLinesVerdict(objs: Objects, n: string, def: CronDef, hash: string)
    ensures forall e :: e in CronLines(objs, n, def, hash) ==>
      e.name == n && e.kind != Delete && (e.kind == Add <==> n !in OwnedNames(objs, Crons, Kind.CronJob))
  {
  }

  /** The same for crons. */
  lemma CronPlanIsAPatch(objs: Objects, cfg: Config, hash: string, es: seq<PlanEntry>)
    requires forall e :: e in es <==> InCronPlan(objs, cfg, hash, e)
    ensures ReplayNames(es, Resource.CronJob, OwnedNames(objs, Crons, Kind.CronJob)) == cfg.crons.Keys
  {
    var live := OwnedNames(objs, Crons, Kind.CronJob);
    forall n ensures n in ReplayNames(es, Resource.CronJob, live) <==> n in cfg.crons {
      if n in cfg.crons {
        CronLinesVerdict(objs, n, cfg.crons[n], hash);
        if n !in live {
          var add := PlanEntry(Add, Resource.CronJob, n, "", [cfg.crons[n].schedule], "");
          assert add in CronLines(objs, n, cfg.crons[n], hash) && add in es;
        }
      } else if n in live {
        assert PlanEntry(Delete, Resource.CronJob, n, "", [], "") in es;
      }
      ReplayByLines(es, Resource.CronJob, live, n);
    }
  }

  // ---------------------------------------------------------------- what the update lines say

  /** The line gives a field's old and new value. */
  ghost predicate Updates(e: PlanEntry, r: Resource, n: string, field: string)
  {
    e.kind == Update && e.resource == r && e.name == n && |e.detail| == 3 && e.detail[0] == field
  }

  /** The value of a field after the updates among these lines. */
  ghost function AfterUpdates(es: seq<PlanEntry>, r: Resource, n: string, field: string, live: string): string
  {
    if es == [] then live
    else
      var e := es[|es| - 1];
      if Updates(e, r, n, field) then e.detail[2] else AfterUpdates(es[..|es| - 1], r, n, field, live)
  }

  ghost function UpdateLine(r: Resource, n: string, field: string, live: string, wanted: string): PlanEntry
  {
    PlanEntry(Update, r, n, "", [field, live, wanted], "")
  }

  /** If an update of the field is among the lines, it says where the field goes; otherwise the field stays. */
  lemma {:induction false} UpdatesTell(es: seq<PlanEntry>, r: Resource, n: string, field: string, live: string,
                                       wanted: string)
    requires forall e :: e in es && Updates(e, r, n, field) ==> e == UpdateLine(r, n, field, live, wanted)
    ensures AfterUpdates(es, r, n, field, live) ==
      if UpdateLine(r, n, field, live, wanted) in es then wanted else live
  {
    if es != [] {
      var init, last := es[..|es| - 1], es[|es| - 1];
      assert es == init + [last];
      UpdatesTell(init, r, n, field, live, wanted);
    }
  }

  /** The image of a workload changes, beyond its deploy hash. */
  ghost predicate OtherReference(live: string, desired: string)
  {
    live != "" && StripDeployHash(live) != StripDeployHash(desired)
  }

  /** Only the deploy hash differs. */
  ghost predicate OnlyTheHash(live: string, desired: string)
  {
    live != "" && live != desired && StripDeployHash(live) == StripDeployHash(desired)
  }

  /** The lines about the image of a workload that runs `live` and should run `desired`. */
  ghost predicate ImageTold(es: seq<PlanEntry>, r: Resource, n: string, live: string, desired: string, hash: string)
  {
    && (UpdateLine(r, n, "image", live, desired) in es <==> OtherReference(live, desired))
    && (PlanEntry(Update, r, n, "", ["image rebuilt"], "image-tag") in es <==>
         hash != "" && OnlyTheHash(live, desired))
    && (live != "" ==> StripDeployHash(AfterUpdates(es, r, n, "image", live)) == StripDeployHash(desired))
  }

  /** One of the lines a workload's image gives rise to. */
  ghost predicate ImageLine(e: PlanEntry, r: Resource, n: string, live: string, desired: string, hash: string)
  {
    || (OtherReference(live, desired) && e == UpdateLine(r, n, "image", live, desired))
    || (hash != "" && OnlyTheHash(live, desired) && e == PlanEntry(Update, r, n, "", ["image rebuilt"], "image-tag"))
  }

  ghost predicate ImageIsQuiet(live: string, desired: string, hash: string)
  {
    !OtherReference(live, desired) && (hash == "" || !OnlyTheHash(live, desired))
  }

  lemma FieldsDiffer()
    ensures "image" != "schedule"
  {
    assert |"image"| == 5 && |"schedule"| == 8;
  }

  lemma ImageLinesTell(es: seq<PlanEntry>, r: Resource, n: string, live: string, desired: string, hash: string)
    requires forall e :: ImageLine(e, r, n, live, desired, hash) ==> e in es
    requires forall e :: e in es && Updates(e, r, n, "image") ==> ImageLine(e, r, n, live, desired, hash)
    requires PlanEntry(Update, r, n, "", ["image rebuilt"], "image-tag") in es ==>
      ImageLine(PlanEntry(Update, r, n, "", ["image rebuilt"], "image-tag"), r, n, live, desired, hash)
    ensures ImageTold(es, r, n, live, desired, hash)
  {
    var line := UpdateLine(r, n, "image", live, desired);
    var rebuilt := PlanEntry(Update, r, n, "", ["image rebuilt"], "image-tag");
    assert |line.detail| == 3 && |rebuilt.detail| == 1;
    assert Updates(line, r, n, "image");
    assert ImageLine(line, r, n, live, desired, hash) <==> OtherReference(live, desired);
    UpdatesTell(es, r, n, "image", live, desired);
  }

  // ---------------------------------------------------------------- crons

  /** A line for a live cron. */
  ghost predicate CronLine(e: PlanEntry, n: string, def: CronDef, schedule: string, image: string, hash: string)
  {
    || (schedule != def.schedule && e == UpdateLine(Resource.CronJob, n, "schedule", schedule, def.schedule))
    || ImageLine(e, Resource.CronJob, n, image, def.image, hash)
    || (schedule == def.schedule && ImageIsQuiet(image, def.image, hash)
        && e == PlanEntry(NoChange, Resource.CronJob, n, "", [def.schedule], ""))
  }

  /** A cron of this step has this schedule and runs this image, or none. */
  ghost predicate LiveCron(objs: Objects, n: string, schedule: string, image: string)
  {
    Key(Kind.CronJob, n) in objs
    && (objs[Key(Kind.CronJob, n)] == Obj(Crons, Scheduled(schedule, Some(image)))
        || (objs[Key(Kind.CronJob, n)] == Obj(Crons, Scheduled(schedule, None)) && image == ""))
  }

  /** A live cron: its schedule line, its image lines, its line without a change, and where the updates lead. */
  ghost predicate CronTold(es: seq<PlanEntry>, n: string, def: CronDef, schedule: string, image: string, hash: string)
  {
    && (UpdateLine(Resource.CronJob, n, "schedule", schedule, def.schedule) in es <==> schedule != def.schedule)
    && AfterUpdates(es, Resource.CronJob, n, "schedule", schedule) == def.schedule
    && ImageTold(es, Resource.CronJob, n, image, def.image, hash)
    && (PlanEntry(NoChange, Resource.CronJob, n, "", [def.schedule], "") in es <==>
         schedule == def.schedule && ImageIsQuiet(image, def.image, hash))
  }

  /** Every configured cron that is live. */
  ghost predicate CronsTold(objs: Objects, cfg: Config, hash: string, es: seq<PlanEntry>)
  {
    forall n, schedule, image :: n in cfg.crons && LiveCron(objs, n, schedule, image) ==>
      CronTold(es, n, cfg.crons[n], schedule, image, hash)
  }

  lemma CronLinesAre(objs: Objects, n: string, def: CronDef, schedule: string, image: string, hash: string,
                     e: PlanEntry)
    requires LiveCron(objs, n, schedule, image)
    ensures e in CronLines(objs, n, def, hash) <==> CronLine(e, n, def, schedule, image, hash)
  {
    assert n in OwnedNames(objs, Crons, Kind.CronJob);
  }

  lemma OnlyCronLinesTell(objs: Objects, cfg: Config, hash: string, n: string, e: PlanEntry)
    requires e.resource == Resource.CronJob && e.kind != Delete && e.name == n && n in cfg.crons
    ensures InCronPlan(objs, cfg, hash, e) <==> e in CronLines(objs, n, cfg.crons[n], hash)
  {
  }

  lemma CronTells(es: seq<PlanEntry>, n: string, def: CronDef, schedule: string, image: string, hash: string)
    requires forall e :: CronLine(e, n, def, schedule, image, hash) ==> e in es
    requires forall e :: e in es && e.resource == Resource.CronJob && e.kind != Delete && e.name == n ==>
      CronLine(e, n, def, schedule, image, hash)
    ensures CronTold(es, n, def, schedule, image, hash)
  {
    FieldsDiffer();
    var line := UpdateLine(Resource.CronJob, n, "schedule", schedule, def.schedule);
    assert line.detail[0] == "schedule";
    ImageLinesTell(es, Resource.CronJob, n, image, def.image, hash);
    UpdatesTell(es, Resource.CronJob, n, "schedule", schedule, def.schedule);
  }

  lemma CronPlanTells(objs: Objects, cfg: Config, hash: string, es: seq<PlanEntry>)
    requires forall e :: e in es <==> InCronPlan(objs, cfg, hash, e)
    ensures CronsTold(objs, cfg, hash, es)
  {
    forall n, schedule, image | n in cfg.crons && LiveCron(objs, n, schedule, image)
      ensures CronTold(es, n, cfg.crons[n], schedule, image, hash)
    {
      forall e: PlanEntry | e.resource == Resource.CronJob && e.kind != Delete && e.name == n
        ensures e in es <==> CronLine(e, n, cfg.crons[n], schedule, image, hash)
      {
        OnlyCronLinesTell(objs, cfg, hash, n, e);
        CronLinesAre(objs, n, cfg.crons[n], schedule, image, hash, e);
      }
      CronTells(es, n, cfg.crons[n], schedule, image, hash);
    }
  }

  // ---------------------------------------------------------------- services

  /** A service of this step runs this image: its Deployment's, else its StatefulSet's, else none. */
  ghost predicate LiveService(objs: Objects, n: string, image: string)
  {
    && ((Key(Deployment, n) in objs && objs[Key(Deployment, n)].owner == Services)
        || (Key(StatefulSet, n) in objs && objs[Key(StatefulSet, n)].owner == Services))
    && if Key(Deployment, n) in objs && objs[Key(Deployment, n)].content.Pods?
            && objs[Key(Deployment, n)].content.image.Some?
       then objs[Key(Deployment, n)].content.image == Some(image)
       else if Key(StatefulSet, n) in objs && objs[Key(StatefulSet, n)].content.Pods?
            && objs[Key(StatefulSet, n)].content.image.Some?
       then objs[Key(StatefulSet, n)].content.image == Some(image)
       else image == ""
  }

  /** A line for a live service. */
  ghost predicate ServiceEntry(e: PlanEntry, n: string, live: string, desired: string, hash: string)
  {
    || ImageLine(e, Workload, n, live, desired, hash)
    || (ImageIsQuiet(live, desired, hash) && e == PlanEntry(NoChange, Workload, n, "", ["service"], ""))
  }

  ghost predicate ServiceTold(es: seq<PlanEntry>, n: string, live: string, desired: string, hash: string)
  {
    && ImageTold(es, Workload, n, live, desired, hash)
    && (PlanEntry(NoChange, Workload, n, "", ["service"], "") in es <==> ImageIsQuiet(live, desired, hash))
  }

  /** Every configured service that is live; without a deploy hash a placeholder stands in. */
  ghost predicate ServicesTold(objs: Objects, cfg: Config, hash: string, es: seq<PlanEntry>)
  {
    forall n, live :: n in cfg.services && LiveService(objs, n, live) ==>
      var desired := ResolveImage(cfg.services[n].image, cfg.services[n].built, cfg.registries,
                                  if hash == "" then "00000000-000000" else hash);
      desired.Ok? && ServiceTold(es, n, live, desired.value, hash)
  }

  lemma ServiceLineIs(objs: Objects, cfg: Config, n: string, live: string, hash: string, e: PlanEntry)
    requires n in cfg.services && LiveService(objs, n, live) && ServiceLine(objs, cfg, n, hash).Some?
    ensures var desired := ResolveImage(cfg.services[n].image, cfg.services[n].built, cfg.registries,
                                        if hash == "" then "00000000-000000" else hash);
      desired.Ok? &&
      (ServiceLine(objs, cfg, n, hash) == Some(e) <==> ServiceEntry(e, n, live, desired.value, hash))
  {
    LiveServiceShows(objs, n, live);
    LinesOfImage(n, live, ResolveImage(cfg.services[n].image, cfg.services[n].built, cfg.registries,
                                       if hash == "" then "00000000-000000" else hash).value, hash);
  }

  lemma LiveServiceShows(objs: Objects, n: string, live: string)
    requires LiveService(objs, n, live)
    ensures n in LiveServices(objs) && LiveImage(objs, n) == live
  {
  }

  /** The comparison, case by case. */
  lemma LinesOfImage(n: string, live: string, desired: string, hash: string)
    ensures CompareImages(live, desired) ==
      if OtherReference(live, desired) then OtherImage else if OnlyTheHash(live, desired) then Rebuilt else SameImage
  {
  }

  lemma OnlyServiceLinesTell(objs: Objects, cfg: Config, hash: string, n: string, e: PlanEntry)
    requires e.resource == Workload && e.kind != Delete && e.name == n && n in cfg.services
    ensures InServicePlan(objs, cfg, hash, e) <==> ServiceLine(objs, cfg, n, hash) == Some(e)
  {
  }

  lemma ServiceTells(es: seq<PlanEntry>, n: string, live: string, desired: string, hash: string)
    requires forall e: PlanEntry :: e.resource == Workload && e.kind != Delete && e.name == n ==>
      (e in es <==> ServiceEntry(e, n, live, desired, hash))
    ensures ServiceTold(es, n, live, desired, hash)
  {
    ImageLinesTell(es, Workload, n, live, desired, hash);
  }

  lemma ServicePlanTells(objs: Objects, cfg: Config, hash: string, es: seq<PlanEntry>)
    requires forall n :: n in cfg.services ==> ServiceLine(objs, cfg, n, hash).Some?
    requires forall e :: e in es <==> InServicePlan(objs, cfg, hash, e)
    ensures ServicesTold(objs, cfg, hash, es)
  {
    forall n, live | n in cfg.services && LiveService(objs, n, live)
      ensures var desired := ResolveImage(cfg.services[n].image, cfg.services[n].built, cfg.registries,
                                          if hash == "" then "00000000-000000" else hash);
        desired.Ok? && ServiceTold(es, n, live, desired.value, hash)
    {
      var desired := ResolveImage(cfg.services[n].image, cfg.services[n].built, cfg.registries,
                                  if hash == "" then "00000000-000000" else hash);
      ServiceLineIs(objs, cfg, n, live, hash, PlanEntry(NoChange, Workload, n, "", [], ""));
      forall e: PlanEntry | e.resource == Workload && e.kind != Delete && e.name == n
        ensures e in es <==> ServiceEntry(e, n, live, desired.value, hash)
      {
        OnlyServiceLinesTell(objs, cfg, hash, n, e);
        ServiceLineIs(objs, cfg, n, live, hash, e);
      }
      ServiceTells(es, n, live, desired.value, hash);
    }
  }

  // ---------------------------------------------------------------- what the key lines do

  /** Replaying a workload's key lines on the keys its Secret has leaves exactly the declared ones. */
  ghost predicate KeysPatched(es: seq<PlanEntry>, n: string, live: set<string>, desired: set<string>)
  {
    forall k :: k in desired <==>
      (k in live || PlanEntry(Add, SecretKey, n, k, [], "") in es) && PlanEntry(Delete, SecretKey, n, k, [], "") !in es
  }

  ghost predicate ServiceKeysPatched(objs: Objects, cfg: Config, es: seq<PlanEntry>)
  {
    forall n :: n in cfg.services && n in LiveServices(objs) ==>
      KeysPatched(es, n, DataOf(objs, ServiceSecrets(n)).Keys, Elems(ServiceKeysWanted(cfg)[n]))
  }

  ghost predicate CronKeysPatched(objs: Objects, cfg: Config, es: seq<PlanEntry>)
  {
    forall n :: n in cfg.crons && n in OwnedNames(objs, Crons, Kind.CronJob) ==>
      KeysPatched(es, n, DataOf(objs, ServiceSecrets(n)).Keys, Elems(CronKeysWanted(cfg)[n]))
  }

  lemma VerdictsPatch(es: seq<PlanEntry>, n: string, live: set<string>, desired: set<string>)
    requires forall e: PlanEntry :: e.resource == SecretKey && e.name == n ==>
      (e in es <==> KeyVerdict(e, n, desired, live))
    ensures KeysPatched(es, n, live, desired)
  {
    forall k
      ensures k in desired <==>
        (k in live || PlanEntry(Add, SecretKey, n, k, [], "") in es)
        && PlanEntry(Delete, SecretKey, n, k, [], "") !in es
    {
      var add, delete := PlanEntry(Add, SecretKey, n, k, [], ""), PlanEntry(Delete, SecretKey, n, k, [], "");
      assert add in es <==> KeyVerdict(add, n, desired, live);
      assert delete in es <==> KeyVerdict(delete, n, desired, live);
    }
  }

  lemma ServicePlanPatchesKeys(objs: Objects, cfg: Config, hash: string, es: seq<PlanEntry>)
    requires forall e :: e in es <==> InServicePlan(objs, cfg, hash, e)
    ensures ServiceKeysPatched(objs, cfg, es)
  {
    forall n | n in cfg.services && n in LiveServices(objs)
      ensures KeysPatched(es, n, DataOf(objs, ServiceSecrets(n)).Keys, Elems(ServiceKeysWanted(cfg)[n]))
    {
      forall e: PlanEntry | e.resource == SecretKey && e.name == n
        ensures e in es <==> KeyVerdict(e, n, Elems(ServiceKeysWanted(cfg)[n]), DataOf(objs, ServiceSecrets(n)).Keys)
      {
        ServiceLineVerdict(objs, cfg, n, hash);
      }
      VerdictsPatch(es, n, DataOf(objs, ServiceSecrets(n)).Keys, Elems(ServiceKeysWanted(cfg)[n]));
    }
  }

  lemma CronPlanPatchesKeys(objs: Objects, cfg: Config, hash: string, es: seq<PlanEntry>)
    requires forall e :: e in es <==> InCronPlan(objs, cfg, hash, e)
    ensures CronKeysPatched(objs, cfg, es)
  {
    forall n | n in cfg.crons && n in OwnedNames(objs, Crons, Kind.CronJob)
      ensures KeysPatched(es, n, DataOf(objs, ServiceSecrets(n)).Keys, Elems(CronKeysWanted(cfg)[n]))
    {
      forall e: PlanEntry | e.resource == SecretKey && e.name == n
        ensures e in es <==> KeyVerdict(e, n, Elems(CronKeysWanted(cfg)[n]), DataOf(objs, ServiceSecrets(n)).Keys)
      {
      }
      VerdictsPatch(es, n, DataOf(objs, ServiceSecrets(n)).Keys, Elems(CronKeysWanted(cfg)[n]));
    }
  }
}

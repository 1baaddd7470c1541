# nvoi: a verified model of the reconciler

nvoi keeps no state file. A YAML description of servers, services, secrets, databases, DNS names and firewall
rules is reconciled with whatever is live, so what it promises are properties of its algorithms and of the order
of its state-changing steps. This project models those algorithms and steps in Dafny and proves the promises,
for all inputs, all interleavings and all failures of the calls involved. Where the code does not keep a promise,
the exact condition under which it does is proved, with an input that shows the gap.

`dafny verify dfyconfig.toml` checks everything.

## What is modelled

| module | part of nvoi |
|---|---|
| `StringOrder`, `Strings`, `Decimal`, `Wrappers` | Go's string order, `sort.Strings`, `strings.Cut`, `%d` in both directions, results |
| `DependencyOrder`, `DependencyCycle` | the rollout order (Kahn, smallest ready name first) and the validator's three-colour search |
| `VarRefs`, `SecretKeys` | the `$VAR` language: its two scanners, the key collector and the lookups of a deploy |
| `Images`, `Names`, `Workloads` | image references and the deploy hash, object and variable names, a workload's Secret |
| `Cluster` | the namespace's objects, owner-scoped listing and sweeping, Secret merging; any call may fail |
| `OptimisticApply` | get, create or version-checked update, retried, while controllers write status |
| `WorkloadReconcile`, `WorkloadPlan`, `PlanAfterApply` | the services and crons steps, their planner, and planning after deploying |
| `DatabaseReconcile`, `BackupKeys`, `Migrate` | the database step with its drift guard, backup keys, and the migration as a step machine |
| `AllowList`, `PlanEntries`, `InfraPlan`, `AwsFirewall` | firewall allow-lists, plan lines, the infrastructure diff, write and read-back of AWS rules |
| `CloudflareDns`, `Caddy` | DNS record switching, Caddy routes and their dial addresses |
| `Rollout`, `PrefixedWriter` | waiting for pods, and the line-prefixing log writer |

Remote stores are classes whose writing calls may work, be lost before they take effect, or take effect with their
answer lost; clocks, outcomes of calls and what other parties write are inputs or arbitrary choices.

## Where the code and its promises part

* A relative bind mount such as `./data:/data` passes the validator, and every deploy of it fails in `buildVolumes`.
  Accepted mounts deploy iff none has a relative source (`Workloads.AcceptedMountsDeployExactly`,
  `WorkloadReconcile.RelativeMountNeverDeploys`).
* A service that turns from a Deployment into a StatefulSet keeps its old Deployment, because both sweeps keep all
  service names, and the planner reads a Deployment's image first. `PlanAfterApply` gives the condition and the case,
  which every later plan reports, however often it is deployed again.
* The planner lists storage and database keys even when the deploy skipped them for want of a value, so such a key
  is planned as an addition after every deploy, unless another entry supplies it (`Workloads.NoKeySkipped`).
* A service and a cron of one name write the same Secret, the cron last. The plan settles iff the cron supplies exactly
  the keys the service declares (`PlanAfterApply.KeysSettle`, `PlanAfterApply.SharedNameKeepsShowing`).
* A builder server `b` and a declared volume `b-builder-cache` give the infrastructure plan two lines for one volume.
  Each resource has one line iff no declared or cache name is repeated and no undeclared live name is
  (`InfraPlan.NamedOnce`, `InfraPlan.VolumesCollideExactly`, `InfraPlan.CacheNameDeclaredTwice`).
* Services on a dependency cycle, or leading into one, are dropped by the sort. The validator reports the cycle first.
* The help of `nvoi database migrate` calls it idempotent: "re-running after success is a no-op"
  (cmd/cli/database.go:470). That holds (`Migrate.RerunAfterSuccess`). Nothing is said of a run that failed past the
  teardown: once the new StatefulSet exists, a second run reports success without restoring (`Migrate.RerunAfterStop`).
* The migration does not stop the applications. What they write between the dump and the restore is lost even when
  every call works (`Migrate.WriteAfterDumpIsLost`); `Migrate.WritesSurviveExactly` says when the last write survives.
* The key collector scans a whole `KEY=VALUE` entry. A key with an unclosed `${` hides the value's references
  (`SecretKeys.KeyHidesNothingIffClosed`).
* A port written with leading zeros, or one of the cluster's own ports, passes the allow-list parser but never
  settles in the firewall diff (`AwsFirewall.ParsedListCloses`). A padded spelling of a cluster port is written as a
  rule for that port: the cluster ports are open to the private network alone iff no such spelling is listed with
  other sources (`AwsFirewall.NoClusterPortInDisguise`).
* Records for an empty domain are listed under the zone but written under `.` and the zone
  (`CloudflareDns.ListedWhereWritten`). `utils.ValidateDomain` rejects the empty domain, so no configuration leads there.

## Model

| member | source | states |
|---|---|---|
| `StringOrder.SortedKeys` | pkg/utils/maps.go:6-13 | the keys of a map in any visiting order come out sorted, without repetition, and complete |
| `StringOrder.SortedListingIsUnique` | pkg/utils/maps.go:6-13 | a key set has one sorted listing, so the map's visiting order cannot show |
| `DependencyOrder.TopoSortServices` | internal/reconcile/topsort.go:17-66 | on any graph, with duplicate or unknown entries: each emitted service follows its known dependencies, no repetition, exactly the services from which no cycle is reachable, all of them iff acyclic |
| `DependencyOrder.CountEdges` | internal/reconcile/topsort.go:20-34 | in-degrees and dependents count every known entry as often as it is listed |
| `DependencyOrder.Release` | internal/reconcile/topsort.go:47-63 | after emitting the smallest ready name, the ready list is again exactly the unemitted services whose dependencies are out, sorted |
| `DependencyOrder.KahnEmitsExactlyTheCycleFree` | internal/reconcile/topsort.go:36-66 | a service is emitted iff no cycle is reachable from it |
| `DependencyOrder.KahnCompleteIffAcyclic` | internal/reconcile/topsort.go:36-66 | the output is a topological order of all services iff the graph is acyclic |
| `DependencyOrder.KahnIsLexLeast` | internal/reconcile/topsort.go:36-65 | the output is lexicographically least among all topological orders |
| `DependencyOrder.KahnIsDeterministic` | internal/reconcile/topsort.go:36-65 | two runs on one graph give the same order, whatever the map order |
| `DependencyCycle.CycleSearch.Visit` | internal/reconcile/topsort.go:78-107 | depth-first step: finished services stay finished, or a real closed walk of edges is returned; terminates |
| `DependencyCycle.CycleSearch.CutCycle` | internal/reconcile/topsort.go:86-97 | the gray service is always on the path, so the fallback is unreachable, and the cut is a simple closed walk |
| `DependencyCycle.FindDependencyCycle` | internal/reconcile/topsort.go:70-123 | empty iff acyclic, otherwise a real cycle joined by arrows |
| `DependencyCycle.JoinSnoc` | internal/reconcile/topsort.go:99-123 | the report lists the services of the cycle in order with the arrow between each two |
| `DependencyCycle.GuardAgreesWithOrder` | internal/reconcile/topsort.go:17-123 | the guard reports nothing iff the sort emits every service |
| `VarRefs.ParseRoundTrip` | internal/reconcile/envvars.go:24-76 | the reading of a string prints back as that string, and is canonical |
| `VarRefs.OnlyReading` | internal/reconcile/envvars.go:24-76 | a canonical reading is the only one its text has |
| `VarRefs.PlainReference` | internal/reconcile/envvars.go:24-76 | `$` and a letter or underscore, then letters, digits and underscores, name exactly that much of the text, whatever other character follows; the name comes first and its source is put in its place |
| `VarRefs.BracedReference` | internal/reconcile/envvars.go:24-76 | between `${` and the next `}` any text is a name |
| `VarRefs.OpenReference` | internal/reconcile/envvars.go:36-40 | a `${` that is never closed names nothing more and is an error |
| `VarRefs.LiteralCharacter` | internal/reconcile/envvars.go:24-76 | any other character stays as it is, a dollar sign before anything but a letter, an underscore or a brace included |
| `VarRefs.ExtractVarRefs` | pkg/utils/envvars.go:14-44 | returns the names of the string's reading, in order, up to an unclosed brace |
| `VarRefs.HasVarRef` | pkg/utils/envvars.go:48-58 | true iff a name is extracted or the first reference is an unclosed brace |
| `VarRefs.ResolveRef` | internal/reconcile/envvars.go:24-76 | succeeds iff no brace is left open and every extracted name has a source; the value is literals and looked-up values, never scanned again |
| `VarRefs.ResolveSucceedsExactly` | internal/reconcile/envvars.go:24-76 | the success condition of the two scanners' shared reading, and the value on success |
| `VarRefs.ResolveReadsOnlyRefs` | internal/reconcile/envvars.go:24-76 | the outcome, errors included, depends on the sources only at extracted names |
| `VarRefs.BraceAllIsHarmless` | pkg/utils/envvars.go:14-44 | spelling all references with braces keeps the names and every outcome, and is idempotent |
| `SecretKeys.ResolveEntry` | internal/reconcile/envvars.go:80-87 | splits at the first equals sign and resolves the right side; a bare name is both sides |
| `SecretKeys.EntrySides` | pkg/kube/generate.go:52-57 | an entry is a bare name, or a name, an equals sign and a text; in `secrets:` a bare name stands for its own reference, in `env:` for itself |
| `SecretKeys.ResolveSecretEntries` | internal/reconcile/services.go:125-144 | succeeds iff every normalised entry resolves; later entries win; one reference per entry |
| `SecretKeys.SecretResolvesTo` | internal/reconcile/services.go:125-144 | under each declared name the data holds what the text of its last entry resolves to |
| `SecretKeys.CollectSecretKeys` | internal/reconcile/secrets.go:28-83 | sorted, without repetition, exactly the declared secrets and the names every entry and credential refers to |
| `SecretKeys.EveryKeyHasAReason` | internal/reconcile/secrets.go:28-83 | a key is collected iff it is declared, is a bare entry, or is named in an entry or a credential text |
| `SecretKeys.Secrets` | internal/reconcile/secrets.go:88-111 | fetches each collected key, keeps non-empty values, fails iff the backend fails or a declared secret is empty |
| `SecretKeys.CollectedKeysSuffice` | internal/reconcile/secrets.go:28-83 | if every collected key has a value then each env, secret and credential lookup succeeds unless its own text leaves a brace open |
| `SecretKeys.ValidNamesAre` | pkg/utils/naming.go:346-356 | the validator's secret names are identifiers without small letters that begin with a letter |
| `SecretKeys.KeyHidesNothingIffClosed` | internal/reconcile/secrets.go:28-83 | scanning the whole entry finds the value's names, for all values, iff the key leaves no brace open |
| `SecretKeys.OpenKeyBreaksCompleteness` | internal/reconcile/secrets.go:28-83 | the entry `${=$B` fetches nothing yet looks up B |
| `Images.HashCancels` | internal/reconcile/image.go:50-99 | two well-formed hashes resolve alike and their references agree once stripped |
| `Images.StripGivesHosted` | internal/reconcile/plan.go:403-409 | stripping a deployed reference gives back host, repository and the user's tag |
| `Images.EveryDeployShipsANewReference` | internal/reconcile/image.go:84-98 | different hashes give different references iff no digest is pinned |
| `Images.StripsItsHash` | internal/reconcile/plan.go:396-409 | either separator and hash are removed and nothing else |
| `Images.StripsExactlyHashes` | internal/reconcile/plan.go:396-409 | stripping changes an image iff it ends in a hyphen or colon, eight digits, a hyphen and six digits, and takes off exactly those |
| `Images.ContainsSomewhere` | internal/reconcile/image.go:89 | a text is contained iff it stands somewhere |
| `Images.HashGoesLast` | internal/reconcile/image.go:84-98 | a built image gets `:hash`, or `-hash` behind its tag; a colon before the last slash is no tag |
| `Images.HostComesFirst` | internal/reconcile/image.go:64-82 | a first segment with a dot or colon, or `localhost`, is kept iff that registry is declared; any other image goes to the only registry, and there must be exactly one |
| `Images.VerbatimImages` | internal/reconcile/image.go:50-98 | an image without a build and one pinned by digest ship as written; a build needs a hash |
| `Names.EnvNamesAreDistinct` | pkg/utils/naming.go:287-290 | databases with different label names have different URL variables |
| `Names.EnvTextOfLabel` | pkg/utils/naming.go:287-290 | a variable spells a label in capitals, digits as they are, underscores for hyphens |
| `Names.VariableNames` | pkg/utils/naming.go:282-290 | how the variables of a database and a bucket, and the name of a workload's Secret, are put together |
| `Names.DatabasesShareNothing` | pkg/utils/naming.go:97-119 | two databases have no cluster object in common, whatever their names |
| `Cluster.Client.SweepOwned` | pkg/kube/sweep.go:41-148 | removes only objects of that owner and kind outside the desired names; on success none of those is left |
| `Cluster.Client.SweepEach` | internal/reconcile/services.go:105-117 | a sequence of sweeps that goes on past failures removes only orphans, and all of them when no call fails |
| `Cluster.Client.ListOwned` | pkg/kube/sweep.go:154-222 | exactly the names of the owner's objects of that kind, each once |
| `Cluster.Client.EnsureSecret` | pkg/kube/secrets.go:31-85 | merges the keys, keeps the others, stamps the owner; a failed call changes nothing else |
| `Cluster.Client.DeleteSecretKey` | pkg/kube/secrets.go:96-113 | removes that key alone; a missing Secret or key is no error |
| `Cluster.Client.ListSecretKeys` | pkg/kube/secrets.go:128-141 | exactly the keys of the Secret, none when it does not exist |
| `Cluster.Client.GetSecretValue` | pkg/kube/secrets.go:145-158 | the value, or an error when it is missing or empty |
| `Cluster.Client.ApplyOwned` | pkg/kube/apply.go:74-88 | stores the content under the owner; an existing volume claim is left alone |
| `Workloads.CheckMounts` | pkg/core/service.go:65-79 | fails iff a mount is malformed or names an unknown volume; managed iff some mount names a volume; relative sources pass here |
| `Workloads.MountsOnText` | pkg/core/service.go:65-79 | `/path:` and `.path:` name a directory, `name:` a volume that must be declared; the apply step takes all but the second |
| `Workloads.BuildVolumes` | pkg/kube/generate.go:243-279 | fails iff a mount is malformed or has a relative source; otherwise one pod volume for each mount, in order, with its source |
| `Workloads.AcceptedMountsDeployExactly` | internal/reconcile/validate.go:525-538 | mounts the validator accepts are taken by the apply step iff none has a relative source |
| `Workloads.ExpandStorageCreds` | internal/reconcile/services.go:148-157 | adds the keys that have a source, with one reference for every key of the Secret |
| `Workloads.ExpandDatabaseCreds` | internal/reconcile/services.go:159-170 | adds each database URL that has a source under its alias, with its reference |
| `Workloads.ResolveWorkload` | internal/reconcile/services.go:37-55 | nothing iff an entry does not resolve; otherwise data and references have the same keys, and each key has its value: the last URL of a database with that alias, else the source of a bucket's variable, else what the last entry of that name resolves to |
| `Workloads.WorkloadHolds` | internal/reconcile/services.go:37-55 | key by key what the Secret holds, and that it holds nothing else |
| `Workloads.DatabaseAliases` | internal/reconcile/services.go:159-170 | `db` comes under its default variable, `ALIAS=db` under the alias, `=db` under the default again |
| `Workloads.MirrorIsExact` | internal/reconcile/plan.go:954-992 | the planner's key list equals the written keys, as sets, iff every storage key and database alias without a value is a secret's name, or a key or alias that another entry has a value for |
| `Workloads.PlannedNameOnText` | internal/reconcile/plan.go:971-979 | the key planned for an entry is the text before its equals sign, or the whole entry |
| `Workloads.WrittenIsSupplied` | internal/reconcile/services.go:37-55 | the deploy writes exactly the names of the secret entries, the storage keys and the database aliases that have a value |
| `Workloads.FullSourcesSkipNothing` | internal/reconcile/services.go:148-170 | sources with all storage and database keys skip nothing |
| `WorkloadReconcile.UpsertServiceSecrets` | internal/reconcile/services.go:174-207 | touches that one Secret; without failures it ends with exactly the given keys and values, or absent for none |
| `WorkloadReconcile.ServiceSet` | pkg/core/service.go:38-123 | on success the StatefulSet or Deployment runs the image under the services owner; touches only the service's workload and Service |
| `WorkloadReconcile.DeployService` | internal/reconcile/services.go:29-92 | success implies, and without failed calls is implied by, sound entries, image and mounts; then the workload runs the image and the Secret holds the configured values, and without failed calls nothing else |
| `WorkloadReconcile.StandingServes` | internal/reconcile/services.go:37-55 | the Secret of a deployed service holds the value of each of its entries, buckets and databases, and without failed calls nothing else |
| `WorkloadReconcile.StandingCronServes` | internal/reconcile/crons.go:20-60 | the same for crons |
| `WorkloadReconcile.ReconcileServices` | internal/reconcile/services.go:14-119 | in any run foreign objects stay; success, failing sweeps included, leaves every emitted service standing and changes only their objects and removed orphans; without failed calls it succeeds iff all are deployable and leaves no orphan and no extra key; a failed run touches only the services' own objects; and nothing of a service changes before all it depends on stands |
| `WorkloadReconcile.OrderIsKept` | internal/reconcile/services.go:20-92 | wherever the loop stops: if an object of a service has changed, every service it depends on is deployed |
| `WorkloadReconcile.ReconcileCrons` | internal/reconcile/crons.go:13-80 | the same for crons, whose Secrets carry the services owner |
| `WorkloadReconcile.OthersStand` | internal/reconcile/services.go:29-92 | deploying one service leaves the others as configured |
| `WorkloadReconcile.StandsThroughSweeps` | internal/reconcile/services.go:101-117 | the sweeps leave a configured service as it is |
| `WorkloadReconcile.RelativeMountNeverDeploys` | pkg/kube/generate.go:263-264 | a service with `./data:/data` is accepted and not deployable, whatever else it declares |
| `WorkloadPlan.SecretKeyDiff` | internal/reconcile/plan.go:997-1030 | one verdict for every wanted key and a deletion for every other live key, nothing else |
| `WorkloadPlan.DiffIsQuietIffSameKeys` | internal/reconcile/plan.go:997-1030 | the diff proposes nothing iff the key sets are equal |
| `WorkloadPlan.PlanServices` | internal/reconcile/plan.go:422-555 | no plan iff a live service's image does not resolve; otherwise exactly the service, orphan and key lines: an image update, old and new, iff they differ beyond the deploy hash; an auto-applied line iff only the hash differs and there is one; no-change otherwise |
| `WorkloadPlan.PlanCrons` | internal/reconcile/plan.go:559-659 | exactly the cron, orphan and key lines; the updates lead from the live schedule and image to the configured ones |
| `WorkloadPlan.ServicePlanTells` | internal/reconcile/plan.go:433-506 | for a live service: which image lines are in the plan, and where replaying the updates leads |
| `WorkloadPlan.CronPlanTells` | internal/reconcile/plan.go:580-632 | for a live cron: a schedule update, old and new, iff they differ; image lines as for services; replaying the updates gives the configured schedule, and image up to the deploy hash |
| `WorkloadPlan.ServicePlanPatchesKeys` | internal/reconcile/plan.go:522-537 | replaying a live service's key lines on its Secret's keys leaves exactly the declared keys |
| `WorkloadPlan.CronPlanPatchesKeys` | internal/reconcile/plan.go:643-657 | the same for crons |
| `WorkloadPlan.ServicePlanIsAPatch` | internal/reconcile/plan.go:433-537 | replaying the plan's additions and deletions on the live workloads leaves exactly the configured services |
| `WorkloadPlan.CronPlanIsAPatch` | internal/reconcile/plan.go:570-642 | the same for crons |
| `PlanAfterApply.ServicesPlanIsAFixpoint` | internal/reconcile/plan.go:411-555 | after Services and Crons, from any cluster, the plan exists and is all no-change iff dependencies are acyclic, no leftover Deployment misleads it, and each Secret ends with the declared keys: none was skipped, or the cron of the same name supplies exactly them |
| `PlanAfterApply.CronsPlanIsAFixpoint` | internal/reconcile/plan.go:557-659 | the cron plan is all no-change iff no key was skipped |
| `PlanAfterApply.DeployThenPlan` | internal/reconcile/plan.go:422-659 | the whole sequence, shared names included: deployed iff everything is deployable, then quiet iff the starting cluster and sources met the condition |
| `PlanAfterApply.LiveAreEmitted` | internal/reconcile/plan.go:917-934 | after the deploy the planner sees exactly the emitted services |
| `PlanAfterApply.StaleDeploymentSurvives` | internal/reconcile/services.go:105-117 | a Deployment named like a stateful service is neither swept nor changed |
| `PlanAfterApply.SettlingOutlastsADeploy` | internal/reconcile/services.go:14-119 | the condition for a quiet plan holds after a deploy iff it held before, from any cluster |
| `PlanAfterApply.EveryLaterPlan` | internal/reconcile/plan.go:411-659 | along any series of deploys, the plan after each one is quiet iff the cluster before the first met the condition |
| `PlanAfterApply.KindChangeKeepsShowing` | internal/reconcile/plan.go:936-952 | a concrete kind change that deploys, and that the plan after every later deploy reports |
| `PlanAfterApply.MissingSourceKeepsShowing` | internal/reconcile/plan.go:954-992 | a concrete bucket without credentials that deploys, and that the plan after every later deploy reports |
| `PlanAfterApply.SharedNameKeepsShowing` | internal/reconcile/crons.go:13-80 | a service and a cron of one name, the service with a secret the cron lacks: no later plan is quiet |
| `OptimisticApply.Apply` | pkg/kube/apply.go:148-260 | for every interleaving: attempts and outcome are determined by the races; the desired object is stored, on the newest status, exactly if the last attempt's write took effect, heard or not, and otherwise only the controllers' writes happened; no status write is lost |
| `OptimisticApply.ApplyOwned` | pkg/kube/apply.go:74-88 | refuses an empty owner without effect; otherwise stamps two labels and keeps the rest |
| `OptimisticApply.ApiServer.Update` | pkg/kube/apply.go:225-260 | rejects a stale version without effect; versions strictly increase over the history |
| `OptimisticApply.Manifest.Adopt` | pkg/kube/apply.go:175-243 | takes version always, cluster IP for Services, status for Deployments and StatefulSets |
| `OptimisticApply.OnlyConstantRacingConflicts` | pkg/kube/apply.go:141-148 | with a reachable server an apply fails iff every attempt lost its own race |
| `AllowList.SortedPorts` | pkg/provider/allowlist.go:27-38 | every port once, by number |
| `AllowList.RankOfPrinted` | pkg/provider/allowlist.go:27-38 | a port ranks by its number, a text that is no number as zero |
| `AllowList.ParseRawRules` | pkg/provider/allowlist.go:106-135 | port by port exactly the CIDRs the groups name, in order, single addresses as /32 |
| `AllowList.ParsedListsAreWellFormed` | pkg/provider/allowlist.go:106-135 | whatever was typed, a parsed list has ports from 1 to 65535, each with a CIDR |
| `AllowList.TypedGroup` | pkg/provider/allowlist.go:106-135 | blanks, a port from 1 to 65535, a colon, sources between commas, blanks: adds these sources to this port, a bare address as /32, and nothing to any other |
| `AllowList.TypedArgument` | pkg/provider/allowlist.go:106-109 | the groups of an argument are what stands between semicolons |
| `AllowList.SkippedGroup` | pkg/provider/allowlist.go:110-118 | a group without a colon, or with no number before it, adds nothing |
| `AllowList.NotANumber` | pkg/provider/allowlist.go:113-117 | a text with a character that is neither a digit nor a leading sign is no number |
| `AllowList.MergeAllowLists` | pkg/provider/allowlist.go:87-102 | an override replaces its port's entry, the others stay |
| `AllowList.ResolveFirewallArgs` | pkg/provider/allowlist.go:51-59 | fails iff an argument is a bare word |
| `AllowList.BareWordsAreRefused` | pkg/provider/allowlist.go:51-58 | an argument is refused iff, blanks aside, it is not empty and has no colon |
| `AllowList.FirewallAllowList` | pkg/provider/allowlist.go:70-84 | user rules per port, else public 80 and 443 with domains and no tunnel, else nothing |
| `AllowList.WebPortsAreOpen` | pkg/provider/allowlist.go:70-84 | 80 and 443 are open to 0.0.0.0/0 and ::/0 iff there are domains and no tunnel and the user lists no source for them |
| `InfraPlan.CidrEqual` | pkg/provider/plan.go:334-348 | true iff the lists are equal as multisets |
| `InfraPlan.DiffRules` | pkg/provider/plan.go:281-331 | exactly one line for each port with something to say; an undeclared live 22 has none |
| `InfraPlan.RuleDiffIsAPatch` | pkg/provider/plan.go:281-331 | replaying the lines gives the desired rules up to CIDR order, and keeps an undeclared live 22 |
| `InfraPlan.ComputeInfraPlan` | pkg/provider/plan.go:104-268 | replaying the plan on the snapshot gives precisely the desired servers, volumes and firewalls and every surviving firewall's rules, role by role; each resource has one line iff nothing is declared twice, cache volumes included, and no undeclared live name repeats |
| `InfraPlan.PatchesByRole` | pkg/provider/plan.go:104-268 | a firewall for each role that occurs, a cache volume for each `builder`, rules on the master's firewall alone: the user's sources, else the public web ports; an undeclared SSH port stays |
| `InfraPlan.VolumesCollideExactly` | pkg/provider/plan.go:138-185 | with distinct servers and volumes declared, a volume is planned twice iff one has the name of a builder's cache |
| `InfraPlan.CacheNameDeclaredTwice` | pkg/provider/plan.go:138-185 | a builder `b` beside a volume named like its cache is planned twice |
| `InfraPlan.SplitByRole` | pkg/provider/plan.go:363-378 | the names of each role, sorted; a role is empty iff no server has it, anything unknown counting as master |
| `PlanEntries.AddThenDelete` | pkg/provider/plan.go:120-185 | additions then deletions turn the live names into the desired ones |
| `AwsFirewall.PermissionForCIDRs` | pkg/provider/aws/firewall.go:300-317 | splits by family and keeps every CIDR |
| `AwsFirewall.PermissionSplits` | pkg/provider/aws/firewall.go:300-317 | protocol and port as given, the IPv6 CIDRs in the one list and the others in the other |
| `AwsFirewall.BuildIngressRules` | pkg/provider/aws/firewall.go:154-182 | exactly the cluster rules, SSH's rule and one rule for each custom port with CIDRs |
| `AwsFirewall.RulesExpose` | pkg/provider/aws/firewall.go:154-182 | tcp 6443, 10250 and 5000 and udp 8472 are open from 10.0.0.0/16, SSH to the listed sources or everyone, each custom port to its own; nothing else is open; the cluster ports are private iff no other spelling of one is listed with more |
| `AwsFirewall.ReconcileFirewallRules` | pkg/provider/aws/firewall.go:186-225 | success leaves exactly the built rules; whatever fails, the old rules, none, or the built ones, and which of them by the call that failed and whether it took effect |
| `AwsFirewall.GetFirewallRules` | pkg/provider/aws/firewall.go:228-268 | every visible port with the CIDRs of its last visible permission, nothing else |
| `AwsFirewall.OneMoreRead` | pkg/provider/aws/firewall.go:250-264 | permission by permission: one with CIDRs for a port outside the cluster's own replaces what was reported for that port, any other changes nothing |
| `AwsFirewall.WriteReadDiffCloses` | pkg/provider/aws/firewall.go:153-268 | reading back what was written and diffing gives only no-change lines iff ports are canonical, not the cluster's own, and lists are non-empty |
| `AwsFirewall.ReconcileThenPlan` | pkg/provider/aws/firewall.go:153-268 | the whole sequence of reconcile, read-back and diff is quiet iff the allow-list round-trips, and leaves who may connect as the rules expose it |
| `AwsFirewall.ParsedListCloses` | pkg/provider/aws/firewall.go:153-268 | for parsed lists only spelling and the cluster's ports matter |
| `AwsFirewall.PaddedPortIsNotCanonical` | pkg/provider/aws/firewall.go:324-328 | a port with a leading zero parses but does not survive the round trip |
| `Decimal.ScanPrinted` | pkg/kube/caddy.go:284-287 | a printed number scans back, whatever text without a digit in front follows |
| `Decimal.ScanSkipsBlanks` | pkg/kube/caddy.go:284-287 | blanks in front of a number are skipped |
| `CloudflareDns.WrittenUnderOwnName` | pkg/provider/dns.go:53-62 | a domain's records carry its own name iff it is the zone or a label other than a lone at-sign in it |
| `CloudflareDns.ListedWhereWritten` | pkg/provider/cloudflare/dns.go:85-94 | lookups and writes use one name iff the domain is not empty |
| `CloudflareDns.Zone.RouteTo` | pkg/provider/cloudflare/dns.go:46-57 | every state on the way keeps CNAME exclusivity, one record per name and type, and IPv4 addresses in A and IPv6 in AAAA records, and touches no other name; success leaves the target at the name, as AAAA iff it has a colon, or as CNAME; a settled binding writes nothing; without failed calls it succeeds iff the record type is known |
| `CloudflareDns.Zone.EnsureAddress` | pkg/provider/cloudflare/dns.go:139-172 | the same for address records, replacing a CNAME |
| `CloudflareDns.Zone.EnsureCNAME` | pkg/provider/cloudflare/dns.go:85-114 | the same for a CNAME, replacing address records |
| `CloudflareDns.Zone.Unroute` | pkg/provider/cloudflare/dns.go:60-74 | leaves no address and no CNAME at the name and everything else as it was |
| `CloudflareDns.SettledIsTheOnlyAnswer` | pkg/provider/cloudflare/dns.go:85-172 | with one record per name and type the settled target is the only answer of its kind |
| `Caddy.BuildCaddyConfig` | pkg/kube/caddy_config.go:106-176 | fails iff the namespace is empty or a route is faulty, with the first fault in service order; otherwise each route with domains, sorted by service, forwards them to `service.namespace.svc.cluster.local:port`, and one policy covers all domains under the given or a derived email |
| `Caddy.BuiltServes` | pkg/kube/caddy_config.go:106-176 | routes, dial addresses, subjects and email of a configuration, and when there is none |
| `Caddy.GetCaddyRoutes` | pkg/kube/caddy.go:212-269 | every stored route with a readable dial address, in order; nothing while Caddy is down |
| `Caddy.StoredShows` | pkg/kube/caddy.go:239-266 | a stored route shows as its first host list under the first dial address among its handlers; without hosts or address it does not show |
| `Caddy.StableSortSorts` | pkg/kube/caddy_config.go:131-134 | sorted by service, routes of one service in their order |
| `Caddy.StableSortIsUnique` | pkg/kube/caddy_config.go:131-134 | any stable sort by service gives this result |
| `Caddy.DialRoundTrip` | pkg/kube/caddy.go:271-289 | a dial address reads back as its service and port iff the name is not empty and has no dot or colon |
| `Caddy.ConfigRoundTrip` | pkg/kube/caddy.go:201-269 | reading a built configuration gives the routes with domains, stably sorted, iff their services have such names |
| `Caddy.SubjectsAreTheHosts` | pkg/kube/caddy_config.go:153-173 | the certificate subjects are the stored host lists, joined |
| `Caddy.OrderDoesNotShow` | pkg/kube/caddy_config.go:96-134 | permuting routes of distinct services changes neither configuration nor error |
| `BackupKeys.KeyOrderIsTimeOrder` | cmd/db/main.go:166 | keys sort as strings exactly as their times do |
| `BackupKeys.KeyFormat` | cmd/db/main.go:166 | four digits of the year, two each of month, day, hour, minute and second, a T between date and time, then `Z.sql.gz` |
| `BackupKeys.LatestBackupKey` | cmd/cli/database.go:610-625 | nothing for an empty bucket, otherwise the greatest key |
| `BackupKeys.LatestIsNewest` | cmd/cli/database.go:607-625 | among real backup keys it is the chronologically newest |
| `BackupKeys.NewBackupIsLatest` | cmd/cli/database.go:543-550 | a backup no earlier than all others is the one the lookup returns |
| `Migrate.MigrationIsSafe` | cmd/cli/database.go:479-605 | in every run, with applications writing, in every state: the old database still serves all that was written, or the fresh key holds the contents as of the dump; completion serves what was written since the restore, else the dump, or the newest old backup iff it sorts after; every stop is classified |
| `Migrate.NothingIsLost` | cmd/cli/database.go:528-604 | the invariant of each phase, and the safety of every state, along every run |
| `Migrate.WritesSurviveExactly` | cmd/cli/database.go:528-604 | a completed run ends with the last acknowledged write iff one came after the restore, or none between dump and restore changed the dumped contents |
| `Migrate.WriteAfterDumpIsLost` | cmd/cli/database.go:535-567 | a write just after the dump is gone from a run in which every call works |
| `Migrate.RerunAfterSuccess` | cmd/cli/database.go:522-526 | after completion another run changes nothing |
| `Migrate.RefusedRequests` | cmd/cli/database.go:479-513 | an undefined, hosted, unresolved, unbacked, unconnected or unreadable database is refused before the first call |
| `Migrate.RerunAfterStop` | cmd/cli/database.go:515-526 | after a stop an undisturbed rerun reports success iff a StatefulSet is live, and leaves the volume as the stop left it |
| `Migrate.LostRestoreIsNotRetried` | cmd/cli/database.go:522-526 | a lost restore leaves only what was written to the rebuilt database, the backup holds the contents as of the dump, and the next run takes it for migrated |
| `Migrate.Site.RunDatabaseMigrate` | cmd/cli/database.go:479-605 | the command performs exactly the step machine's run and succeeds iff it completes or is already in place; a request without backup, server or connection changes nothing |
| `DatabaseReconcile.ReconcileOneDatabase` | internal/reconcile/databases.go:187-298 | touches only the database's and its provider's objects; success hands out the provider's URL and leaves merged credentials, then the provider's writes in order |
| `DatabaseReconcile.WritesStand` | internal/reconcile/databases.go:290-294 | each key holds the last write for it, except that an existing volume claim, or a new one's first write, stands; unwritten keys stay |
| `DatabaseReconcile.CredentialsStand` | internal/reconcile/databases.go:187-298 | after a reconcile the credentials Secret holds the new credentials over the old keys, unless the provider wrote it itself |
| `DatabaseReconcile.OneDatabase` | internal/reconcile/databases.go:87-116 | a drifted database is only read and reported with its existing URL; any other is reconciled |
| `DatabaseReconcile.ReconcileDatabases` | internal/reconcile/databases.go:45-172 | in any run databases that run on another node than configured keep StatefulSet, Service, claim and credentials, foreign objects stay, and only objects of swept kinds that no configured database has disappear; success reports URLs and the drifted ones in sorted order, and without failed calls leaves nothing else |
| `DatabaseReconcile.PendingIsExact` | internal/reconcile/databases.go:76-110 | the pending list holds exactly the drifted databases, with the nodes they are on and should be on |
| `DatabaseReconcile.DriftIsSeen` | internal/reconcile/databases.go:87-101 | a database has drifted iff it is self-hosted and its StatefulSet names a node other than the configured one |
| `DatabaseReconcile.ProtectedIsWanted` | internal/reconcile/databases.go:128-168 | no sweep wants a self-hosted database's data objects |
| `DatabaseReconcile.WantedIsKept` | internal/reconcile/databases.go:128-168 | by kind and name, the sweeps keep exactly the objects a configured database has |
| `Rollout.WaitRollout` | pkg/kube/rollout.go:78-212 | succeeds iff a listing shows all pods ready before any lost cause and, without a health check, the second look finds no pod restarted or failed; then every pod shown had succeeded or ran with all containers ready; times out iff no listing decides |
| `Rollout.VerifyStability` | pkg/kube/rollout.go:216-244 | passes iff no tracked pod restarted above its first-seen count and none failed for good |
| `Rollout.StableMeans` | pkg/kube/rollout.go:216-244 | the second look passes iff it lists no doomed pod and no tracked pod above the restarts it was first seen with |
| `Rollout.FirstSeenStays` | pkg/kube/rollout.go:82-104 | a pod's initial count is the first one seen, whatever comes later |
| `Rollout.FirstSeenCounts` | pkg/kube/rollout.go:95-104 | a new pod is counted with the restarts of the listing that first shows it |
| `Rollout.RestartsShow` | pkg/kube/rollout.go:97-102 | a restart of any container shows in the count |
| `Rollout.WhatAListingShows` | pkg/kube/rollout.go:106-186 | which waiting and termination reasons end the wait, and what counts as ready |
| `Rollout.ReadyMeansNoHardFailureSeen` | pkg/kube/rollout.go:111-121 | success implies that no listing so far showed a pod failed for good |
| `PrefixedWriter.Writer.Write` | pkg/kube/streaming.go:143-172 | success returns the input length and writes the prefixed input; an interruption writes a prefix of it and counts the bytes passed on |
| `PrefixedWriter.WriteAll` | pkg/kube/streaming.go:143-172 | any chunking of a stream gives the output of one write |
| `PrefixedWriter.PrefixedSplits` | pkg/kube/streaming.go:143-172 | the output of a concatenation is the concatenation of the outputs, with the line state carried over |
| `PrefixedWriter.PrefixStandsAtLineStarts` | pkg/kube/streaming.go:136-172 | the prefix stands before a byte iff it is the first of its line |
| `PrefixedWriter.StripUndoesPrefixed` | pkg/kube/streaming.go:136-172 | dropping the prefixes gives back the input |

## Left out

- Network clients, SSH, SFTP, tunnels, docker, cloud-init and the k3s install: only the stores they change are modelled.
- Rendering, flags, JSON and YAML encoding and log text: replaced by the values they carry.
- The other planners (storage, DNS, registries, tunnel, Caddy) and providers (Hetzner, Scaleway): they would repeat the diffs shown here.
- Provider internals of databases: a provider's plan is an input, assumed to write no object of another database. Shared cluster-scoped objects, such as the storage class of the postgres provider, it may write.
- The storage driver install before the database loop, and the missing-client branches of the loop: they change no modelled object.
- Pod templates beyond image and node, replicas, ports and environment of workloads, and the deploy-hash label.
- `mergeSources`: the merged map is an input of the services and crons steps.
- Integer ranges of Go's `int`: port numbers, versions and restart counts are unbounded; only the 32-bit port of the AWS rules has its range.
- `net.ParseCIDR`: which CIDRs are IPv6 is a parameter of the firewall model.
- Blank and space characters beyond Latin-1, and upper-casing of characters beyond ASCII.
- WorkloadPlan.PlanServices: states which lines the plan has, not their order, and plans from a snapshot, so the planner's own failed reads are not modelled.
- WorkloadPlan.PlanCrons: as for the services plan, lines without their order.
- PlanAfterApply.DeployThenPlan: requires secret names the validator accepts, and says nothing about runs with failed calls.
- OptimisticApply.Apply: the number of attempts is the length of the schedule; the client library's default of five is one such length.
- Cluster.Client.ApplyOwned: one call that stores the object; conflicts, versions and status are in the optimistic apply model.
- CloudflareDns.Zone.RouteTo: says nothing about lawfulness for an empty domain in a named zone, where lookup and write use different names; record kinds other than A, AAAA and CNAME are kept but not checked for exclusivity.
- Migrate.MigrationIsSafe: a write replaces the contents, and a restore puts the dump in place of whatever is there; tables made after the dump, which a replay would leave, are not told apart.
- Rollout.WaitRollout: time is the sequence of listings; diagnostics and progress text are not modelled.

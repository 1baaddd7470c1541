/**
 Waiting for a rollout (pkg/kube/rollout.go) over the sequence of pod listings it sees: the listings until the
 deadline, and the one taken after the stability delay. A failed listing is `None`.
 */
module Rollout {
  import opened StringOrder
  import opened Wrappers

  datatype Container = Container(ready: bool, restarts: nat, waiting: Option<string>, terminated: Option<string>)

  datatype Phase = Pending | Running | Succeeded | Failed | Unknown

  datatype Pod = Pod(name: string, unschedulable: bool, phase: Phase, containers: seq<Container>)

  type Listing = Option<seq<Pod>>

  datatype Outcome = Ready | HardFailure(pod: Pod) | Crashed(pod: Pod) | TimedOut | StabilityCheckFailed

  const HOPELESS_WAITS: set<string> :=
    {"ImagePullBackOff", "ErrImagePull", "InvalidImageName", "ErrImageNeverPull", "CreateContainerConfigError"}

  // ---------------------------------------------------------------- one pod

  predicate Hopeless(c: Container)
  {
    (c.waiting.Some? && c.waiting.value in HOPELESS_WAITS) || c.terminated == Some("OOMKilled")
  }

  /** `hardFailReason` gives a reason. */
  predicate HardFailed(p: Pod)
  {
    p.unschedulable || exists c :: c in p.containers && Hopeless(c)
  }

  predicate PodReady(p: Pod)
  {
    p.phase == Succeeded || (p.phase == Running && forall c :: c in p.containers ==> c.ready)
  }

  function Restarts(cs: seq<Container>): nat
  {
    if cs == [] then 0 else Restarts(cs[..|cs| - 1]) + cs[|cs| - 1].restarts
  }

  // ---------------------------------------------------------------- what the reasons mean

  /** The pod cannot come up, whatever it is given time for. */
  ghost predicate Doomed(p: Pod)
  {
    || p.unschedulable
    || exists c :: c in p.containers &&
         (c.terminated == Some("OOMKilled") || c.waiting == Some("ImagePullBackOff")
          || c.waiting == Some("ErrImagePull") || c.waiting == Some("InvalidImageName")
          || c.waiting == Some("ErrImageNeverPull") || c.waiting == Some("CreateContainerConfigError"))
  }

  /** The pod has done its work, or runs with every container ready. */
  ghost predicate Up(p: Pod)
  {
    p.phase == Succeeded || (p.phase == Running && forall c :: c in p.containers ==> c.ready)
  }

  lemma DoomedContainer(c: Container)
    ensures Hopeless(c) <==>
      c.terminated == Some("OOMKilled") || c.waiting == Some("ImagePullBackOff") || c.waiting == Some("ErrImagePull")
      || c.waiting == Some("InvalidImageName") || c.waiting == Some("ErrImageNeverPull")
      || c.waiting == Some("CreateContainerConfigError")
  {
  }

  lemma HardFailedIsDoomed(p: Pod)
    ensures HardFailed(p) <==> Doomed(p)
  {
    forall c | c in p.containers
      ensures Hopeless(c) <==>
        c.terminated == Some("OOMKilled") || c.waiting == Some("ImagePullBackOff") || c.waiting == Some("ErrImagePull")
        || c.waiting == Some("InvalidImageName") || c.waiting == Some("ErrImageNeverPull")
        || c.waiting == Some("CreateContainerConfigError")
    {
      DoomedContainer(c);
    }
  }

  /** The listing shows pods, all of them up and none of them doomed. */
  ghost predicate ShowsSuccess(o: Listing)
  {
    o.Some? && o.value != [] && forall p :: p in o.value ==> Up(p) && !Doomed(p)
  }

  /** The listing failed, is empty, or shows no doomed pod and one that is not up. */
  ghost predicate ShowsNothing(o: Listing)
  {
    o.None? || o.value == [] || ((forall p :: p in o.value ==> !Doomed(p)) && exists p :: p in o.value && !Up(p))
  }

  lemma WhatAListingShows(o: Listing)
    ensures ShowsNothing(o) <==> !Decisive(o)
    ensures ShowsSuccess(o) <==> o.Some? && o.value != [] && AllReady(o.value) && !AnyHardFailed(o.value)
  {
    if o.Some? {
      forall p | p in o.value ensures HardFailed(p) <==> Doomed(p) {
        HardFailedIsDoomed(p);
      }
    }
  }

  /** Restarts count over all containers: one more anywhere shows, and equal counts show nothing. */
  lemma {:induction false} RestartsShow(was: seq<Container>, now: seq<Container>)
    requires |was| == |now| && forall i :: 0 <= i < |was| ==> was[i].restarts <= now[i].restarts
    ensures Restarts(was) <= Restarts(now) && (|was| == 1 ==> Restarts(was) == was[0].restarts)
    ensures Restarts(was) < Restarts(now) <==> exists i :: 0 <= i < |was| && was[i].restarts < now[i].restarts
  {
    if was != [] {
      var n := |was| - 1;
      RestartsShow(was[..n], now[..n]);
      if i :| 0 <= i < |was| && was[i].restarts < now[i].restarts {
        assert i < n ==> was[..n][i].restarts < now[..n][i].restarts;
      }
      if i :| 0 <= i < n && was[..n][i].restarts < now[..n][i].restarts {
        assert was[i].restarts < now[i].restarts;
      }
    }
  }

  // ---------------------------------------------------------------- first-seen restart counts

  /** Add the pods not yet tracked. */
  function Track(m: map<string, nat>, pods: seq<Pod>): map<string, nat>
  {
    if pods == [] then m
    else
      var before, p := Track(m, pods[..|pods| - 1]), pods[|pods| - 1];
      if p.name in before then before else before[p.name := Restarts(p.containers)]
  }

  function TrackAll(obs: seq<Listing>): map<string, nat>
  {
    if obs == [] then map[]
    else
      match obs[|obs| - 1]
      case None => TrackAll(obs[..|obs| - 1])
      case Some(pods) => Track(TrackAll(obs[..|obs| - 1]), pods)
  }

  lemma {:induction false} TrackKeepsCounts(m: map<string, nat>, pods: seq<Pod>)
    ensures forall n :: n in m ==> n in Track(m, pods) && Track(m, pods)[n] == m[n]
    ensures forall p :: p in pods ==> p.name in Track(m, pods)
  {
    if pods != [] {
      var k := |pods| - 1;
      TrackKeepsCounts(m, pods[..k]);
      assert pods == pods[..k] + [pods[k]];
    }
  }

  /** A pod's count is the one of the first listing that showed it, whatever comes later. */
  lemma {:induction false} FirstSeenStays(obs: seq<Listing>, later: seq<Listing>)
    ensures forall n :: n in TrackAll(obs) ==>
      n in TrackAll(obs + later) && TrackAll(obs + later)[n] == TrackAll(obs)[n]
  {
    if later == [] {
      assert obs + later == obs;
    } else {
      var k := |later| - 1;
      FirstSeenStays(obs, later[..k]);
      var all := obs + later;
      assert all[..|all| - 1] == obs + later[..k] && all[|all| - 1] == later[k];
      if later[k].Some? {
        TrackKeepsCounts(TrackAll(obs + later[..k]), later[k].value);
      }
    }
  }

  /** A pod shown by no listing so far is counted as the next one first shows it. */
  lemma {:induction false} FirstSeenCounts(m: map<string, nat>, pods: seq<Pod>, i: nat)
    requires i < |pods| && pods[i].name !in m && forall j :: 0 <= j < i ==> pods[j].name != pods[i].name
    ensures pods[i].name in Track(m, pods) && Track(m, pods)[pods[i].name] == Restarts(pods[i].containers)
  {
    var n := |pods| - 1;
    if i < n {
      FirstSeenCounts(m, pods[..n], i);
    } else {
      TrackedAreSeen(m, pods[..n], pods[i].name);
    }
  }

  lemma {:induction false} TrackedAreSeen(m: map<string, nat>, pods: seq<Pod>, name: string)
    ensures name in Track(m, pods) <==> name in m || exists i :: 0 <= i < |pods| && pods[i].name == name
  {
    if pods != [] {
      var n := |pods| - 1;
      TrackedAreSeen(m, pods[..n], name);
      if i :| 0 <= i < n && pods[..n][i].name == name {
        assert pods[i].name == name;
      }
      if i :| 0 <= i < |pods| && pods[i].name == name {
        assert i < n ==> pods[..n][i].name == name;
      }
    }
  }

  // ---------------------------------------------------------------- what a listing decides

  predicate AllReady(pods: seq<Pod>)
  {
    forall p :: p in pods ==> PodReady(p)
  }

  predicate AnyHardFailed(pods: seq<Pod>)
  {
    exists p :: p in pods && HardFailed(p)
  }

  /** The poll stops at this listing. */
  predicate Decisive(o: Listing)
  {
    o.Some? && o.value != [] && (AnyHardFailed(o.value) || AllReady(o.value))
  }

  /** Nothing before index `i` stopped the poll, and listing `i` shows every pod ready and none failed. */
  ghost predicate ReadyAt(obs: seq<Listing>, i: nat)
  {
    && i < |obs| && (forall j :: 0 <= j < i ==> !Decisive(obs[j]))
    && obs[i].Some? && obs[i].value != [] && AllReady(obs[i].value) && !AnyHardFailed(obs[i].value)
  }

  /** A pod of the second look that crashed since it was first seen, or failed for good. */
  predicate Suspect(p: Pod, initial: map<string, nat>)
  {
    (p.name in initial && Restarts(p.containers) > initial[p.name]) || HardFailed(p)
  }

  ghost predicate Stable(after: Listing, initial: map<string, nat>)
  {
    after.Some? && forall p :: p in after.value ==> !Suspect(p, initial)
  }

  /** What the second look passes: a listing with no doomed pod and none above the count it was first seen with. */
  lemma StableMeans(after: Listing, initial: map<string, nat>)
    ensures Stable(after, initial) <==>
      after.Some? && forall p :: p in after.value ==>
        !Doomed(p) && (p.name in initial ==> Restarts(p.containers) <= initial[p.name])
  {
    if after.Some? {
      forall p | p in after.value ensures HardFailed(p) <==> Doomed(p) {
        HardFailedIsDoomed(p);
      }
    }
  }

  // ---------------------------------------------------------------- the poll

  method FirstHardFailure(pods: seq<Pod>) returns (p: Option<Pod>)
    ensures p.Some? <==> AnyHardFailed(pods)
    ensures p.Some? ==> p.value in pods && HardFailed(p.value)
  {
    for i := 0 to |pods|
      invariant !AnyHardFailed(pods[..i])
    {
      Snoc(pods, i);
      if HardFailed(pods[i]) { return Some(pods[i]); }
    }
    Whole(pods);
    return None;
  }

  lemma {:induction false} CountAllReady(pods: seq<Pod>)
    ensures ReadyCount(pods) <= |pods| && (ReadyCount(pods) == |pods| <==> AllReady(pods))
  {
    if pods != [] {
      CountAllReady(pods[..|pods| - 1]);
      assert pods == pods[..|pods| - 1] + [pods[|pods| - 1]];
    }
  }

  function ReadyCount(pods: seq<Pod>): nat
  {
    if pods == [] then 0 else ReadyCount(pods[..|pods| - 1]) + if PodReady(pods[|pods| - 1]) then 1 else 0
  }

  /** The poll function on one listing: `None` to go on, otherwise how it ends. */
  method Judge(pods: seq<Pod>) returns (r: Option<Outcome>)
    requires pods != []
    ensures r.Some? <==> Decisive(Some(pods))
    ensures r.Some? ==>
      if AnyHardFailed(pods) then r.value.HardFailure? && r.value.pod in pods && HardFailed(r.value.pod)
      else r.value == Ready
  {
    var failed := FirstHardFailure(pods);
    if failed.Some? { return Some(HardFailure(failed.value)); }
    var ready := 0;
    for i := 0 to |pods|
      invariant ready == ReadyCount(pods[..i])
    {
      Snoc(pods, i);
      if PodReady(pods[i]) { ready := ready + 1; }
    }
    Whole(pods);
    CountAllReady(pods);
    r := if ready == |pods| then Some(Ready) else None;
  }

  method TrackPods(initial0: map<string, nat>, pods: seq<Pod>) returns (initial: map<string, nat>)
    ensures initial == Track(initial0, pods)
  {
    initial := initial0;
    for i := 0 to |pods|
      invariant initial == Track(initial0, pods[..i])
    {
      Snoc(pods, i);
      if pods[i].name !in initial {
        initial := initial[pods[i].name := Restarts(pods[i].containers)];
      }
    }
    Whole(pods);
  }

  /** `verifyStability`. */
  method VerifyStability(after: Listing, initial: map<string, nat>) returns (r: Outcome)
    ensures r == Ready <==> Stable(after, initial)
    ensures r != TimedOut
    ensures r.Crashed? ==> r.pod.name in initial && Restarts(r.pod.containers) > initial[r.pod.name]
    ensures r.HardFailure? ==> HardFailed(r.pod)
  {
    if after.None? { return StabilityCheckFailed; }
    var pods := after.value;
    for i := 0 to |pods|
      invariant forall p :: p in pods[..i] ==> !Suspect(p, initial)
    {
      Snoc(pods, i);
      var p := pods[i];
      assert p in pods;
      if p.name in initial && Restarts(p.containers) > initial[p.name] { return Crashed(p); }
      if HardFailed(p) { return HardFailure(p); }
    }
    Whole(pods);
    return Ready;
  }

  /** Listing `i` ends the wait well. */
  ghost predicate SucceedsAt(obs: seq<Listing>, i: nat, hasHealthCheck: bool, after: Listing)
  {
    ReadyAt(obs, i) && (hasHealthCheck || Stable(after, TrackAll(obs[..i + 1])))
  }

  /** Listing `i` is the first to stop the poll. */
  ghost predicate StopsAt(obs: seq<Listing>, i: nat)
  {
    i < |obs| && Decisive(obs[i]) && forall j :: 0 <= j < i ==> !Decisive(obs[j])
  }

  /** Only the first decisive listing can end the wait well. */
  lemma FirstDecisiveDecides(obs: seq<Listing>, i: nat, hasHealthCheck: bool, after: Listing)
    requires StopsAt(obs, i)
    ensures (exists j :: SucceedsAt(obs, j, hasHealthCheck, after)) <==> SucceedsAt(obs, i, hasHealthCheck, after)
  {
    forall j: nat | SucceedsAt(obs, j, hasHealthCheck, after) ensures j == i {
      assert Decisive(obs[j]);
    }
  }

  /** After the poll has seen every pod ready: the second look, unless a health check vouches for the pods. */
  method SecondLook(hasHealthCheck: bool, after: Listing, initial: map<string, nat>) returns (r: Outcome)
    ensures r == Ready <==> hasHealthCheck || Stable(after, initial)
    ensures r != TimedOut
  {
    if hasHealthCheck { return Ready; }
    r := VerifyStability(after, initial);
  }

  /** The poll: where it stops and how, with the restart counts tracked so far; nothing at the deadline. */
  method Poll(obs: seq<Listing>) returns (verdict: Option<Outcome>, i: nat, initial: map<string, nat>)
    ensures verdict.None? <==> forall j :: 0 <= j < |obs| ==> !Decisive(obs[j])
    ensures verdict.Some? ==> StopsAt(obs, i) && initial == TrackAll(obs[..i + 1])
    ensures verdict.Some? ==> verdict.value != TimedOut && (verdict.value == Ready <==> !AnyHardFailed(obs[i].value))
  {
    i, initial := 0, map[];
    while i < |obs|
      invariant i <= |obs| && initial == TrackAll(obs[..i])
      invariant forall j :: 0 <= j < i ==> !Decisive(obs[j])
    {
      Snoc(obs, i);
      if obs[i].Some? && obs[i].value != [] {
        initial := TrackPods(initial, obs[i].value);
        verdict := Judge(obs[i].value);
        if verdict.Some? { return; }
      }
      i := i + 1;
    }
    verdict := None;
  }

  /**
   `WaitRollout` succeeds exactly when some listing shows every pod ready, no earlier one showed a lost cause, and,
   without a health check, no pod has restarted or failed at the second look since it was first seen.
   */
  method WaitRollout(obs: seq<Listing>, hasHealthCheck: bool, after: Listing) returns (r: Outcome)
    ensures r == Ready <==> exists i :: SucceedsAt(obs, i, hasHealthCheck, after)
    ensures r == TimedOut <==> forall i :: 0 <= i < |obs| ==> !Decisive(obs[i])
    ensures r == TimedOut <==> forall i :: 0 <= i < |obs| ==> ShowsNothing(obs[i])
    ensures r == Ready ==>
      exists i :: 0 <= i < |obs| && ShowsSuccess(obs[i]) && forall j :: 0 <= j < i ==> ShowsNothing(obs[j])
  {
    forall i | 0 <= i < |obs|
      ensures ShowsNothing(obs[i]) <==> !Decisive(obs[i])
      ensures ShowsSuccess(obs[i]) <==>
        obs[i].Some? && obs[i].value != [] && AllReady(obs[i].value) && !AnyHardFailed(obs[i].value)
    {
      WhatAListingShows(obs[i]);
    }
    var verdict, i, initial := Poll(obs);
    if verdict.None? { return TimedOut; }
    FirstDecisiveDecides(obs, i, hasHealthCheck, after);
    if verdict.value != Ready { return verdict.value; }
    r := SecondLook(hasHealthCheck, after, initial);
  }

  /** Success means that no listing up to the deciding one showed a pod that had failed for good. */
  lemma ReadyMeansNoHardFailureSeen(obs: seq<Listing>, i: nat, j: nat)
    requires ReadyAt(obs, i) && j <= i && obs[j].Some?
    ensures !AnyHardFailed(obs[j].value)
  {
    if AnyHardFailed(obs[j].value) {
      assert obs[j].value != [];
      assert j < i ==> Decisive(obs[j]);
    }
  }
}

/**
 `nvoi database migrate` (cmd/cli/database.go): move a database to the node its configuration names, by
 backup, teardown, apply and restore. Any call may fail, with or without having taken effect, and nothing stops
 the applications from writing while the command runs.
 */
module Migrate {
  import opened BackupKeys
  import opened StringOrder
  import opened Wrappers

  type Data = seq<string>

  /** The StatefulSet's node selector, the contents of its volume, and the backup bucket. */
  datatype Db = Db(selector: Option<string>, volume: Option<Data>, bucket: map<string, Data>)

  /** What the command knows before it starts, and the time its backup job will be stamped with. */
  datatype Request = Request(
    defined: bool, server: string, resolved: bool, backedUp: bool, connected: bool, readable: bool, stamp: Stamp)
  {
    predicate Accepted()
    {
      defined && server != "" && resolved && backedUp && connected && readable
    }
  }

  /** `Partial` is a failure half way; for a restore it leaves `junk` in the volume. */
  datatype Outcome = Works | Lost | Unheard | Partial(junk: Data)

  datatype Step = BackupNow | WaitForJob | Locate | DeleteWorkloads | DeleteVolume | Apply | Rollout | Restore | Probe

  /** What applications last write before a step's call, and how that call goes. */
  datatype Round = Round(written: Option<Data>, outcome: Outcome)

  /** Every step's call is made at most once, so a run is settled by one round for each step. */
  type Script = Step -> Round

  datatype Phase =
    | At(step: Step, key: string)
    | Refused
    | NothingLive
    | AlreadyOn
    | Stopped(at: Step, outcome: Outcome)
    | Completed(key: string)

  // ---------------------------------------------------------------- the step machine

  function Start(r: Request, s: Db): Phase
  {
    if !r.Accepted() then Refused
    else if s.selector.None? then NothingLive
    else if s.selector.value == r.server then AlreadyOn
    else At(BackupNow, "")
  }

  /** A running database takes a write. */
  function Served(s: Db, w: Option<Data>): Db
  {
    if w.Some? && s.selector.Some? && s.volume.Some? then s.(volume := w) else s
  }

  /** The dump of the live volume under the job's key. */
  function Uploaded(r: Request, s: Db): Db
  {
    if s.volume.Some? then s.(bucket := s.bucket[Key(r.stamp) := s.volume.value]) else s
  }

  /** The workloads of the target node, over the volume if there is one and an empty one otherwise. */
  function Applied(r: Request, s: Db): Db
  {
    s.(selector := Some(r.server), volume := if s.volume.Some? then s.volume else Some([]))
  }

  function Restored(s: Db, key: string): Db
  {
    if key in s.bucket then s.(volume := Some(s.bucket[key])) else s
  }

  /** The state one call leaves behind. */
  function Effect(step: Step, key: string, r: Request, s: Db, o: Outcome): Db
  {
    match step
    case BackupNow => if o.Works? || o.Lost? then s else Uploaded(r, s)
    case WaitForJob => if o.Lost? then s else Uploaded(r, s)
    case Locate => s
    case DeleteWorkloads => if o.Works? || o.Unheard? then s.(selector := None) else s
    case DeleteVolume => if o.Works? || o.Unheard? then s.(volume := None) else s
    case Apply => if o.Works? || o.Unheard? then Applied(r, s) else s
    case Rollout => s
    case Restore => if o.Lost? then s else if o.Partial? then s.(volume := Some(o.junk)) else Restored(s, key)
    case Probe => s
  }

  /** Whether the command goes on: a dump needs a volume, a lookup needs an object. */
  predicate GoesOn(step: Step, s: Db, o: Outcome)
  {
    o.Works? && (step == WaitForJob ==> s.volume.Some?) && (step == Locate ==> s.bucket.Keys != {})
  }

  ghost function After(step: Step, key: string, s: Db): Phase
    requires step == Locate ==> s.bucket.Keys != {}
  {
    match step
    case BackupNow => At(WaitForJob, key)
    case WaitForJob => At(Locate, key)
    case Locate => At(DeleteWorkloads, Latest(s.bucket.Keys))
    case DeleteWorkloads => At(DeleteVolume, key)
    case DeleteVolume => At(Apply, key)
    case Apply => At(Rollout, key)
    case Rollout => At(Restore, key)
    case Restore => At(Probe, key)
    case Probe => Completed(key)
  }

  /** The writes before a step, then its call. */
  ghost function Next(step: Step, key: string, r: Request, s: Db, f: Script): (Phase, Db)
  {
    var o, t := f(step).outcome, Served(s, f(step).written);
    (if GoesOn(step, t, o) then After(step, key, t) else Stopped(step, o), Effect(step, key, r, t, o))
  }

  /** The steps done before this one. */
  function Place(step: Step): nat
  {
    match step
    case BackupNow => 0 case WaitForJob => 1 case Locate => 2 case DeleteWorkloads => 3 case DeleteVolume => 4
    case Apply => 5 case Rollout => 6 case Restore => 7 case Probe => 8
  }

  function Nth(n: nat): (step: Step)
    ensures n <= 8 ==> Place(step) == n
  {
    if n == 0 then BackupNow else if n == 1 then WaitForJob else if n == 2 then Locate
    else if n == 3 then DeleteWorkloads else if n == 4 then DeleteVolume else if n == 5 then Apply
    else if n == 6 then Rollout else if n == 7 then Restore else Probe
  }

  /** The calls made when the run is in phase `p`. */
  function Made(p: Phase): nat
  {
    match p
    case At(step, _) => Place(step)
    case Stopped(at, _) => Place(at) + 1
    case Completed(_) => 9
    case _ => 0
  }

  function Rank(p: Phase): nat
  {
    if p.At? then 9 - Place(p.step) else 0
  }

  /** The states of a run from phase `p` on, and where it ends. */
  ghost function Run(p: Phase, r: Request, s: Db, f: Script): (seq<Db>, Phase)
    decreases Rank(p)
  {
    if !p.At? then ([s], p)
    else
      var (p', s') := Next(p.step, p.key, r, s, f);
      var (states, end) := Run(p', r, s', f);
      ([s] + states, end)
  }

  ghost function Last(p: Phase, r: Request, s: Db, f: Script): Db
    decreases Rank(p)
  {
    if !p.At? then s
    else
      var (p', s') := Next(p.step, p.key, r, s, f);
      Last(p', r, s', f)
  }

  // ---------------------------------------------------------------- what applications wrote

  function Over(data: Data, w: Option<Data>): Data
  {
    if w.Some? then w.value else data
  }

  /** What applications take the contents to be after `n` calls: no database answers between teardown and apply. */
  function Acknowledged(data: Data, f: Script, n: nat): Data
  {
    if n == 0 then data
    else
      var before, step := Acknowledged(data, f, n - 1), Nth(n - 1);
      if step == DeleteVolume || step == Apply then before else Over(before, f(step).written)
  }

  /** The contents when the backup job has run. */
  function Dump(s0: Db, f: Script): Data
    requires s0.volume.Some?
  {
    Acknowledged(s0.volume.value, f, 2)
  }

  // ---------------------------------------------------------------- no data is lost

  /** The old database still serves everything written so far. */
  ghost predicate Alive(s0: Db, f: Script, n: nat, s: Db)
    requires s0.volume.Some?
  {
    s.selector == s0.selector && s.volume == Some(Acknowledged(s0.volume.value, f, n))
  }

  /** This run's backup holds the contents as of its dump. */
  ghost predicate Stored(s0: Db, f: Script, r: Request, s: Db)
    requires s0.volume.Some?
  {
    Key(r.stamp) in s.bucket && s.bucket[Key(r.stamp)] == Dump(s0, f)
  }

  ghost predicate Safe(s0: Db, f: Script, r: Request, n: nat, s: Db)
    requires s0.volume.Some?
  {
    Alive(s0, f, n, s) || Stored(s0, f, r, s)
  }

  ghost predicate OldBackupsKept(s0: Db, r: Request, s: Db)
  {
    && s0.bucket.Keys <= s.bucket.Keys <= s0.bucket.Keys + {Key(r.stamp)}
    && forall k :: k in s0.bucket && k != Key(r.stamp) ==> s.bucket[k] == s0.bucket[k]
  }

  /** The database runs on the wanted node with the contents of the latest backup, and what was written since. */
  ghost predicate Moved(r: Request, s: Db, key: string, since: Option<Data>)
  {
    s.selector == Some(r.server) && IsLatest(key, s.bucket.Keys) && s.volume == Some(Over(s.bucket[key], since))
  }

  ghost predicate Arrived(r: Request, s: Db, since: Option<Data>)
  {
    exists key :: Moved(r, s, key, since)
  }

  /** The database runs on the wanted node with these contents. */
  ghost predicate Rebuilt(r: Request, s: Db, contents: Data)
  {
    s.selector == Some(r.server) && s.volume == Some(contents)
  }

  /** How far a stopped run got: still serving, torn down, fresh on the new node, half restored, or restored. */
  ghost predicate Left(s0: Db, f: Script, r: Request, at: Step, o: Outcome, s: Db)
    requires s0.volume.Some?
  {
    if Place(at) <= 2 || (at == DeleteWorkloads && !o.Unheard?) then Alive(s0, f, Place(at) + 1, s)
    else
      && Stored(s0, f, r, s)
      && if Place(at) <= 4 || (at == Apply && !o.Unheard?) then s.selector == None
         else if at == Apply then Rebuilt(r, s, [])
         else if at == Rollout then Rebuilt(r, s, Over([], f(Rollout).written))
         else if at == Restore && o.Lost? then Rebuilt(r, s, Over(Over([], f(Rollout).written), f(Restore).written))
         else if at == Restore && o.Partial? then Rebuilt(r, s, o.junk)
         else Arrived(r, s, if at == Probe then f(Probe).written else None)
  }

  /** What each step relies on: the old database up to the teardown, the backup from the lookup on. */
  ghost predicate Ready(s0: Db, f: Script, r: Request, step: Step, key: string, s: Db)
    requires s0.volume.Some?
  {
    && (Place(step) >= 2 ==> Stored(s0, f, r, s))
    && (Place(step) >= 3 ==> IsLatest(key, s.bucket.Keys))
    && if Place(step) <= 3 then Alive(s0, f, Place(step), s)
       else if step == DeleteVolume then s.selector == None
       else if step == Apply then s.selector == None && s.volume == None
       else if step == Rollout then Rebuilt(r, s, [])
       else if step == Restore then Rebuilt(r, s, Over([], f(Rollout).written))
       else Moved(r, s, key, None)
  }

  /** What holds in each phase of a run that began in `s0`. */
  ghost predicate Holds(s0: Db, f: Script, r: Request, p: Phase, s: Db)
  {
    && s0.volume.Some? && s0.selector.Some? && s0.selector != Some(r.server) && OldBackupsKept(s0, r, s)
    && (p.At? ==> Ready(s0, f, r, p.step, p.key, s))
    && (p.Completed? ==> Stored(s0, f, r, s) && Moved(r, s, p.key, f(Probe).written))
    && (p.Stopped? ==> !p.outcome.Works? && Left(s0, f, r, p.at, p.outcome, s))
  }

  lemma HoldsIsSafe(s0: Db, f: Script, r: Request, p: Phase, s: Db)
    requires Holds(s0, f, r, p, s) && (p.At? || p.Stopped? || p.Completed?)
    ensures Safe(s0, f, r, Made(p), s)
  {
  }

  lemma Dumping(s0: Db, step: Step, key: string, r: Request, s: Db, f: Script)
    requires Holds(s0, f, r, At(step, key), s) && Place(step) <= 1
    ensures var (p', s') := Next(step, key, r, s, f); Holds(s0, f, r, p', s')
  {
    assert Nth(Place(step)) == step;
  }

  lemma TakingDown(s0: Db, step: Step, key: string, r: Request, s: Db, f: Script)
    requires Holds(s0, f, r, At(step, key), s) && 2 <= Place(step) <= 3
    ensures var (p', s') := Next(step, key, r, s, f); Holds(s0, f, r, p', s')
  {
    assert Nth(Place(step)) == step;
  }

  lemma Rebuilding(s0: Db, step: Step, key: string, r: Request, s: Db, f: Script)
    requires Holds(s0, f, r, At(step, key), s) && 4 <= Place(step) <= 6
    ensures var (p', s') := Next(step, key, r, s, f); Holds(s0, f, r, p', s')
  {
  }

  lemma Refilling(s0: Db, step: Step, key: string, r: Request, s: Db, f: Script)
    requires Holds(s0, f, r, At(step, key), s) && Place(step) >= 7
    ensures var (p', s') := Next(step, key, r, s, f); Holds(s0, f, r, p', s')
  {
    var (p', s') := Next(step, key, r, s, f);
    if step == Probe {
      assert Moved(r, s', key, f(Probe).written);
    } else if f(step).outcome.Works? || f(step).outcome.Unheard? {
      assert Moved(r, s', key, None);
    }
  }

  lemma NextHolds(s0: Db, step: Step, key: string, r: Request, s: Db, f: Script)
    requires Holds(s0, f, r, At(step, key), s)
    ensures var (p', s') := Next(step, key, r, s, f); Holds(s0, f, r, p', s')
  {
    if Place(step) <= 1 { Dumping(s0, step, key, r, s, f); }
    else if Place(step) <= 3 { TakingDown(s0, step, key, r, s, f); }
    else if Place(step) <= 6 { Rebuilding(s0, step, key, r, s, f); }
    else { Refilling(s0, step, key, r, s, f); }
  }

  lemma OneMoreCall(step: Step, key: string, r: Request, s: Db, f: Script)
    requires step == Locate ==> Served(s, f(step).written).bucket.Keys != {}
    ensures var p' := Next(step, key, r, s, f).0;
      Made(p') == Place(step) + 1 && (p'.At? || p'.Stopped? || p'.Completed?)
  {
  }

  /** The states after `k` calls and on are all safe. */
  ghost predicate AllSafe(s0: Db, f: Script, r: Request, k: nat, states: seq<Db>)
    requires s0.volume.Some?
  {
    forall n :: 0 <= n < |states| ==> Safe(s0, f, r, k + n, states[n])
  }

  lemma SafeBefore(s0: Db, f: Script, r: Request, k: nat, s: Db, rest: seq<Db>)
    requires s0.volume.Some? && Safe(s0, f, r, k, s) && AllSafe(s0, f, r, k + 1, rest)
    ensures AllSafe(s0, f, r, k, [s] + rest)
  {
    var states := [s] + rest;
    forall n | 0 <= n < |states| ensures Safe(s0, f, r, k + n, states[n]) {
      if n > 0 {
        assert states[n] == rest[n - 1] && k + 1 + (n - 1) == k + n;
      }
    }
  }

  /** Along every run, and wherever it stops: the old database still serves, or the backup holds what it had. */
  lemma {:induction false} NothingIsLost(s0: Db, p: Phase, r: Request, s: Db, f: Script)
    requires Holds(s0, f, r, p, s) && (p.At? || p.Stopped? || p.Completed?)
    ensures AllSafe(s0, f, r, Made(p), Run(p, r, s, f).0)
    ensures Holds(s0, f, r, Run(p, r, s, f).1, Last(p, r, s, f))
    decreases Rank(p)
  {
    HoldsIsSafe(s0, f, r, p, s);
    if p.At? {
      var (p', s') := Next(p.step, p.key, r, s, f);
      NextHolds(s0, p.step, p.key, r, s, f);
      OneMoreCall(p.step, p.key, r, s, f);
      NothingIsLost(s0, p', r, s', f);
      SafeBefore(s0, f, r, Made(p), s, Run(p', r, s', f).0);
    }
  }

  /** A live database with a volume, about to be migrated. */
  predicate Live(r: Request, s: Db)
  {
    Start(r, s) == At(BackupNow, "") && s.volume.Some?
  }

  lemma StartHolds(r: Request, s: Db, f: Script)
    requires Live(r, s)
    ensures Holds(s, f, r, Start(r, s), s)
  {
  }

  /**
   Every run from the start, whatever fails and whatever is written meanwhile. In every state on the way the old
   database still serves all that was written, or the backup holds the contents as of the dump. A completed run
   serves, from the new node, what was written since the restore, otherwise the latest backup. That is this run's own
   exactly when no older key sorts after it.
   */
  lemma MigrationIsSafe(r: Request, s: Db, f: Script)
    requires Live(r, s)
    ensures var (states, end) := Run(Start(r, s), r, s, f); var last := Last(Start(r, s), r, s, f);
      && AllSafe(s, f, r, 0, states)
      && (end.Completed? || end.Stopped?)
      && (end.Completed? ==> Stored(s, f, r, last) && Moved(r, last, end.key, f(Probe).written))
      && (end.Completed? ==> (end.key == Key(r.stamp) <==> NewestAt(s.bucket.Keys, r.stamp)))
      && (end.Completed? ==> last.volume == Some(Over(
            if NewestAt(s.bucket.Keys, r.stamp) then Dump(s, f) else s.bucket[Latest(s.bucket.Keys)],
            f(Probe).written)))
      && (end.Stopped? ==> Left(s, f, r, end.at, end.outcome, last))
  {
    StartHolds(r, s, f);
    NothingIsLost(s, Start(r, s), r, s, f);
    RunEnds(Start(r, s), r, s, f);
    var end, last := Run(Start(r, s), r, s, f).1, Last(Start(r, s), r, s, f);
    if end.Completed? {
      LessAsymmetric(Key(r.stamp), Key(r.stamp));
      if NewestAt(s.bucket.Keys, r.stamp) {
        LatestIsUnique(end.key, Key(r.stamp), last.bucket.Keys);
      } else {
        OldLatest(r, s, last, end.key);
      }
    }
  }

  lemma OldLatest(r: Request, s0: Db, s: Db, key: string)
    requires OldBackupsKept(s0, r, s) && IsLatest(key, s.bucket.Keys) && !NewestAt(s0.bucket.Keys, r.stamp)
    ensures s0.bucket.Keys != {} && key == Latest(s0.bucket.Keys) && key != Key(r.stamp)
      && s.bucket[key] == s0.bucket[key]
  {
    var later :| later in s0.bucket.Keys && !Leq(later, Key(r.stamp));
    assert Leq(later, key);
    LatestIsUnique(key, Latest(s0.bucket.Keys), s0.bucket.Keys);
  }

  lemma {:induction false} RunEnds(p: Phase, r: Request, s: Db, f: Script)
    requires p.At? || p.Stopped? || p.Completed?
    ensures Run(p, r, s, f).1.Completed? || Run(p, r, s, f).1.Stopped?
    decreases Rank(p)
  {
    if p.At? {
      var (p', s') := Next(p.step, p.key, r, s, f);
      RunEnds(p', r, s', f);
    }
  }

  // ---------------------------------------------------------------- which writes are lost

  /** The last write that the old database takes after the dump, or the new one before the restore. */
  function LastInBetween(f: Script): Option<Data>
  {
    if f(Restore).written.Some? then f(Restore).written
    else if f(Rollout).written.Some? then f(Rollout).written
    else if f(DeleteWorkloads).written.Some? then f(DeleteWorkloads).written
    else f(Locate).written
  }

  lemma AcknowledgedInAll(s: Db, f: Script)
    requires s.volume.Some?
    ensures Acknowledged(s.volume.value, f, 9) == Over(Over(Dump(s, f), LastInBetween(f)), f(Probe).written)
  {
    var v := s.volume.value;
    assert Acknowledged(v, f, 4) == Over(Over(Dump(s, f), f(Locate).written), f(DeleteWorkloads).written);
    assert Acknowledged(v, f, 6) == Acknowledged(v, f, 4);
    assert Acknowledged(v, f, 8) == Over(Over(Acknowledged(v, f, 6), f(Rollout).written), f(Restore).written);
  }

  /**
   A run that completes with its own backup ends with the last acknowledged write exactly if something is written after
   the restore, or nothing between dump and restore, or only what the dump has already.
   */
  lemma WritesSurviveExactly(r: Request, s: Db, f: Script)
    requires Live(r, s) && NewestAt(s.bucket.Keys, r.stamp) && Run(Start(r, s), r, s, f).1.Completed?
    ensures Last(Start(r, s), r, s, f).volume == Some(Acknowledged(s.volume.value, f, 9)) <==>
      f(Probe).written.Some? || LastInBetween(f).None? || LastInBetween(f) == Some(Dump(s, f))
  {
    MigrationIsSafe(r, s, f);
    AcknowledgedInAll(s, f);
  }

  /** Every call works and only `step` sees a write. */
  function OneWrite(step: Step, data: Data): Script
  {
    at => Round(if at == step then Some(data) else None, Works)
  }

  /** A write to the old database after its dump is gone from a run that completes without a failed call. */
  lemma WriteAfterDumpIsLost(r: Request, s: Db, data: Data)
    requires Live(r, s) && NewestAt(s.bucket.Keys, r.stamp) && s.volume != Some(data)
    ensures var f := OneWrite(Locate, data);
      && Run(Start(r, s), r, s, f).1.Completed?
      && Last(Start(r, s), r, s, f).volume == s.volume != Some(data)
  {
    WorkingRun(r, s, OneWrite(Locate, data));
  }

  lemma {:induction false} CleanRunCompletes(s0: Db, p: Phase, r: Request, s: Db, f: Script)
    requires Holds(s0, f, r, p, s) && (p.At? || p.Completed?) && forall step :: f(step).outcome == Works
    ensures Run(p, r, s, f).1.Completed?
    decreases Rank(p)
  {
    if p.At? {
      var (p', s') := Next(p.step, p.key, r, s, f);
      NextHolds(s0, p.step, p.key, r, s, f);
      CleanRunCompletes(s0, p', r, s', f);
    }
  }

  /** With no failed call, and no write before the dump or after the restore, the volume ends as it began. */
  lemma WorkingRun(r: Request, s: Db, f: Script)
    requires Live(r, s) && NewestAt(s.bucket.Keys, r.stamp) && forall step :: f(step).outcome == Works
    requires f(BackupNow).written == f(WaitForJob).written == f(Probe).written == None
    ensures Run(Start(r, s), r, s, f).1.Completed? && Last(Start(r, s), r, s, f).volume == s.volume
  {
    StartHolds(r, s, f);
    CleanRunCompletes(s, Start(r, s), r, s, f);
    MigrationIsSafe(r, s, f);
    assert Acknowledged(s.volume.value, f, 1) == s.volume.value;
  }

  // ---------------------------------------------------------------- running it again

  /** Without a defined, self-hosted, resolved, backed-up, connected and readable database no call is made. */
  lemma RefusedRequests(r: Request, s: Db, f: Script)
    ensures Start(r, s) == Refused <==>
      !r.defined || r.server == "" || !r.resolved || !r.backedUp || !r.connected || !r.readable
    ensures Start(r, s) == Refused ==> Run(Start(r, s), r, s, f) == ([s], Refused) && Last(Start(r, s), r, s, f) == s
  {
  }

  /** After a completed run there is nothing to do, whatever the calls would have done. */
  lemma RerunAfterSuccess(r: Request, again: Request, s: Db, key: string, since: Option<Data>, f: Script)
    requires Moved(r, s, key, since) && again.Accepted() && again.server == r.server
    ensures Run(Start(again, s), again, s, f) == ([s], AlreadyOn)
  {
  }

  /** No call fails and nothing is written. */
  function Calm(): Script
  {
    _ => Round(None, Works)
  }

  /**
   Running the command again after a stop, this time undisturbed: it reports success exactly when a StatefulSet is
   live, and the volume ends as the stop left it. Past the teardown the command never goes back to the backup by itself.
   */
  lemma RerunAfterStop(s0: Db, f: Script, r: Request, again: Request, s: Db, at: Step, o: Outcome)
    requires Holds(s0, f, r, Stopped(at, o), s)
    requires again.Accepted() && again.server == r.server && NewestAt(s.bucket.Keys, again.stamp)
    ensures var end, last := Run(Start(again, s), again, s, Calm()).1, Last(Start(again, s), again, s, Calm());
      && (end.Completed? || end.AlreadyOn? <==> s.selector.Some?)
      && last.volume == s.volume
  {
    if Start(again, s).At? {
      WorkingRun(again, s, Calm());
    }
  }

  /**
   A run whose restore call is lost leaves a database with only what was written to it since it was rebuilt, and the
   next run takes it for migrated. The contents as of the dump are in the backup.
   */
  lemma LostRestoreIsNotRetried(r: Request, again: Request, s: Db, f: Script)
    requires Live(r, s) && again.Accepted() && again.server == r.server
    requires f(Restore).outcome == Lost && forall step :: step != Restore ==> f(step).outcome == Works
    ensures var last := Last(Start(r, s), r, s, f);
      && Run(Start(r, s), r, s, f).1 == Stopped(Restore, Lost)
      && Start(again, last) == AlreadyOn && Stored(s, f, r, last)
      && last.volume == Some(Over(Over([], f(Rollout).written), f(Restore).written))
  {
    StartHolds(r, s, f);
    WorksUpToRestore(s, Start(r, s), r, s, f);
    MigrationIsSafe(r, s, f);
  }

  lemma {:induction false} WorksUpToRestore(s0: Db, p: Phase, r: Request, s: Db, f: Script)
    requires Holds(s0, f, r, p, s) && p.At? && Rank(p) >= 2
    requires f(Restore).outcome == Lost && forall step :: step != Restore ==> f(step).outcome == Works
    ensures Run(p, r, s, f).1 == Stopped(Restore, Lost)
    decreases Rank(p)
  {
    var (p', s') := Next(p.step, p.key, r, s, f);
    NextHolds(s0, p.step, p.key, r, s, f);
    if p.step != Restore {
      WorksUpToRestore(s0, p', r, s', f);
    }
  }

  // ---------------------------------------------------------------- the command

  /** The cluster and bucket as the command changes them; `script` is what happens at its steps. */
  class Site {
    var selector: Option<string>
    var volume: Option<Data>
    var bucket: map<string, Data>
    const script: Script

    constructor (db: Db, script: Script)
      ensures Now() == db && this.script == script
    {
      selector, volume, bucket := db.selector, db.volume, db.bucket;
      this.script := script;
    }

    function Now(): Db
      reads this
    {
      Db(selector, volume, bucket)
    }

    /** The writes before a step, then its call. */
    method Call(step: Step, key: string, r: Request) returns (ok: bool)
      modifies this
      ensures ok == GoesOn(step, Served(old(Now()), script(step).written), script(step).outcome)
      ensures Now() == Effect(step, key, r, Served(old(Now()), script(step).written), script(step).outcome)
      ensures Resumes(At(step, key), r, old(Now()), script, Next(step, key, r, old(Now()), script).0, Now())
    {
      var now, o := Served(Now(), script(step).written), script(step).outcome;
      ok := GoesOn(step, now, o);
      var after := Effect(step, key, r, now, o);
      selector, volume, bucket := after.selector, after.volume, after.bucket;
    }

    /** Steps 1: back up and find the key. */
    method Stage(r: Request) returns (freshKey: Option<string>)
      modifies this
      ensures var p, s := At(BackupNow, ""), old(Now());
        match freshKey
        case Some(key) => Resumes(p, r, s, script, At(DeleteWorkloads, key), Now())
        case None => Ends(p, r, s, script, Now())
    {
      var ok := Call(BackupNow, "", r);
      if !ok { return None; }
      ok := Call(WaitForJob, "", r);
      if !ok { return None; }
      ok := Call(Locate, "", r);
      if !ok { return None; }
      var refs := SortedKeys(bucket.Keys);
      freshKey := LatestBackupKey(refs);
      assert Elems(refs) == bucket.Keys;
      LatestIsUnique(freshKey.value, Latest(bucket.Keys), bucket.Keys);
    }

    /** Steps 2 and 3: tear down, and apply on the new node. */
    method Rebuild(r: Request, key: string) returns (ok: bool)
      modifies this
      ensures var p, s := At(DeleteWorkloads, key), old(Now());
        if ok then Resumes(p, r, s, script, At(Rollout, key), Now()) else Ends(p, r, s, script, Now())
    {
      ok := Call(DeleteWorkloads, key, r);
      if !ok { return; }
      ok := Call(DeleteVolume, key, r);
      if !ok { return; }
      ok := Call(Apply, key, r);
    }

    /** Steps 4 to 6: wait for the pod, restore, and check health. */
    method Refill(r: Request, key: string) returns (ok: bool)
      modifies this
      ensures var p, s := At(Rollout, key), old(Now());
        if ok then Resumes(p, r, s, script, Completed(key), Now()) else Ends(p, r, s, script, Now())
    {
      ok := Call(Rollout, key, r);
      if !ok { return; }
      ok := Call(Restore, key, r);
      if !ok { return; }
      ok := Call(Probe, key, r);
    }

    /** `runDatabaseMigrate`: success is exactly a completed run or a database already in place. */
    method RunDatabaseMigrate(r: Request) returns (ok: bool)
      modifies this
      ensures var p, s := Start(r, old(Now())), old(Now());
        && Now() == Last(p, r, s, script)
        && (ok <==> Run(p, r, s, script).1.Completed? || p.AlreadyOn?)
      ensures !r.defined || r.server == "" || !r.resolved || !r.backedUp || !r.connected || !r.readable ==>
        !ok && Now() == old(Now())
      ensures old(selector) == None ==> !ok && Now() == old(Now())
      ensures old(selector) == Some(r.server) ==> Now() == old(Now())
    {
      if !r.defined || r.server == "" || !r.resolved || !r.backedUp || !r.connected || !r.readable { return false; }
      if selector == None { return false; }
      if selector.value == r.server { return true; }
      var key := Stage(r);
      if key.None? { return false; }
      ok := Rebuild(r, key.value);
      if !ok { return; }
      ok := Refill(r, key.value);
    }
  }

  /** The run goes through `p'` in state `s'`. */
  ghost predicate Resumes(p: Phase, r: Request, s: Db, f: Script, p': Phase, s': Db)
  {
    Run(p, r, s, f).1 == Run(p', r, s', f).1 && Last(p, r, s, f) == Last(p', r, s', f)
  }

  /** The run stops in state `s'`. */
  ghost predicate Ends(p: Phase, r: Request, s: Db, f: Script, s': Db)
  {
    Run(p, r, s, f).1.Stopped? && Last(p, r, s, f) == s'
  }
}

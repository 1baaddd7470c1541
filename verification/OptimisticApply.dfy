/**
 The version-checked apply (pkg/kube/apply.go): get, create if missing, otherwise update under the
 version just read, and try again on a conflict, while controllers write the object's status.
 */
module OptimisticApply {
  import opened Wrappers

  /** A stored object. The apiserver assigns `clusterIP` and `version`, controllers own `status`. */
  datatype Object = Object(
    spec: string, labels: map<string, string>, clusterIP: string, status: string, version: nat)

  datatype Kind = Deployment | StatefulSet | Service | CronJob | Job | Secret | ConfigMap | Namespace | StorageClass
      | Ingress
  {
    predicate CarriesStatus() { Deployment? || StatefulSet? }
  }

  datatype Outcome = Applied | Conflict | Unavailable | AlreadyExists | NotFound | OwnerRequired

  /** A write reaches the server and is answered, never arrives, or is handled but its answer is lost. */
  datatype Reply = Works | Lost | Unheard

  // ---------------------------------------------------------------- what controllers do to an object

  function WithStatus(o: Object, status: string): Object
  {
    o.(status := status, version := o.version + 1)
  }

  /** The object after a run of status writes; writes to a missing object do nothing. */
  function AfterWrites(o: Option<Object>, writes: seq<string>): Option<Object>
  {
    if o.None? || writes == [] then o
    else Some(o.value.(status := writes[|writes| - 1], version := o.value.version + |writes|))
  }

  function NewestStatus(initial: string, writes: seq<string>): string
  {
    if writes == [] then initial else writes[|writes| - 1]
  }

  /** Each write sets the status and takes the next version. */
  lemma OneMoreWrite(o: Object, writes: seq<string>, w: string)
    ensures AfterWrites(Some(o), writes + [w]) == Some(WithStatus(AfterWrites(Some(o), writes).value, w))
  {
  }

  lemma AfterMoreWrites(o: Option<Object>, a: seq<string>, b: seq<string>)
    ensures AfterWrites(AfterWrites(o, a), b) == AfterWrites(o, a + b)
  {
    if b == [] {
      assert a + b == a;
    } else {
      assert (a + b)[|a + b| - 1] == b[|b| - 1];
    }
  }

  // ---------------------------------------------------------------- the apiserver's slot for one object

  class ApiServer {
    /** The real apiserver keeps `.status` out of Update; the test fake stores what it is given. */
    const statusSubresource: bool
    var store: Option<Object>
    ghost var history: seq<Object>  // every state the slot went through

    ghost predicate Valid()
      reads this
    {
      && (forall i, j :: 0 <= i < j < |history| ==> history[i].version < history[j].version)
      && (if store.None? then history == [] else history != [] && history[|history| - 1] == store.value)
    }

    method ControllersWrite(writes: seq<string>)
      requires Valid()
      modifies this
      ensures Valid() && store == AfterWrites(old(store), writes)
      ensures store.None? ==> history == old(history)
      ensures store.Some? ==> |history| == |old(history)| + |writes| && old(history) <= history
      ensures store.Some? ==> forall i :: 0 <= i < |writes| ==> history[|old(history)| + i].status == writes[i]
    {
      if store.None? { return; }
      for i := 0 to |writes|
        invariant Valid() && store == AfterWrites(old(store), writes[..i])
        invariant |history| == |old(history)| + i && old(history) <= history
        invariant forall k :: 0 <= k < i ==> history[|old(history)| + k].status == writes[k]
      {
        assert writes[..i + 1] == writes[..i] + [writes[i]];
        OneMoreWrite(old(store).value, writes[..i], writes[i]);
        store := Some(WithStatus(store.value, writes[i]));
        history := history + [store.value];
      }
      assert writes[..|writes|] == writes;
    }

    method Get(down: bool) returns (existing: Option<Object>, err: bool)
      ensures err == down && (!err ==> existing == store)
    {
      existing, err := store, down;
    }

    method Create(o: Object, reply: Reply) returns (r: Outcome)
      requires Valid()
      modifies this
      ensures Valid() && old(history) <= history
      ensures r == if !reply.Works? then Unavailable else if old(store).Some? then AlreadyExists else Applied
      ensures store == if reply.Lost? || old(store).Some? then old(store) else Some(o.(version := 1))
      ensures reply.Lost? || old(store).Some? ==> history == old(history)
    {
      if reply.Lost? { return Unavailable; }
      r := AlreadyExists;
      if store.None? {
        store := Some(o.(version := 1));
        history := history + [store.value];
        r := Applied;
      }
      if reply.Unheard? { r := Unavailable; }
    }

    /** The server takes an update that reaches it only under the version it has. */
    predicate Takes(o: Object, reply: Reply)
      reads this
    {
      !reply.Lost? && store.Some? && o.version == store.value.version
    }

    method Update(o: Object, reply: Reply) returns (r: Outcome)
      requires Valid()
      modifies this
      ensures Valid() && old(history) <= history
      ensures r == if !reply.Works? then Unavailable else if old(store).None? then NotFound
                   else if o.version != old(store).value.version then Conflict else Applied
      ensures !old(Takes(o, reply)) ==> store == old(store) && history == old(history)
      ensures old(Takes(o, reply)) ==> store == Some(o.(
        version := o.version + 1, status := if statusSubresource then old(store).value.status else o.status))
    {
      if reply.Lost? { return Unavailable; }
      if store.None? {
        r := NotFound;
      } else if o.version != store.value.version {
        r := Conflict;
      } else {
        var status := if statusSubresource then store.value.status else o.status;
        store := Some(o.(version := o.version + 1, status := status));
        history := history + [store.value];
        r := Applied;
      }
      if reply.Unheard? { r := Unavailable; }
    }
  }

  // ---------------------------------------------------------------- every interleaving

  /**
   What happens around one attempt: the status writes before its get, those between its get and its
   write, whether the get fails, and what becomes of the write.
   */
  datatype Round = Round(early: seq<string>, late: seq<string>, getDown: bool, write: Reply)
  {
    predicate Down() { getDown || !write.Works? }

    /** A status write between the get and the update loses the race. */
    predicate Raced(existed: bool) { existed && late != [] }

    /** The attempt's write is stored, whether or not the applier hears of it. */
    predicate TookEffect(existed: bool) { !getDown && !write.Lost? && !Raced(existed) }

    /** How the attempt ends. */
    function Verdict(existed: bool): Outcome
    {
      if Down() then Unavailable else if Raced(existed) then Conflict else Applied
    }
  }

  /** One interleaving: a round for each attempt the retry policy allows. */
  type Schedule = seq<Round>

  /** The status writes of the first `n` attempts, oldest first. */
  function WritesUpTo(s: Schedule, n: nat): seq<string>
    requires n <= |s|
  {
    if n == 0 then [] else WritesUpTo(s, n - 1) + s[n - 1].early + s[n - 1].late
  }

  /** The first `n` attempts all lost their races. */
  ghost predicate AllRaced(s: Schedule, existed: bool, n: nat)
    requires n <= |s|
  {
    forall k :: 0 <= k < n ==> s[k].Verdict(existed) == Conflict
  }

  /** An apply retried exactly the lost races and reports its last attempt. */
  ghost predicate Justified(s: Schedule, existed: bool, attempts: nat, r: Outcome)
  {
    && attempts <= |s|
    && (if attempts == 0 then r == Conflict
        else AllRaced(s, existed, attempts - 1) && r == s[attempts - 1].Verdict(existed))
    && (r == Conflict ==> attempts == |s|)
  }

  /** A desired object in the caller's hands; the apply overwrites its server-owned fields. */
  class Manifest {
    const kind: Kind
    const spec: string
    var labels: map<string, string>
    var clusterIP: string
    var status: string
    var version: nat

    constructor (kind: Kind, spec: string, labels: map<string, string>)
      ensures this.kind == kind && this.spec == spec && this.labels == labels
    {
      this.kind, this.spec, this.labels := kind, spec, labels;
      clusterIP, status, version := "", "", 0;
    }

    /** What this manifest asks of a server. */
    function Wants(server: ApiServer): Desired
      reads this
    {
      Desired(kind, spec, labels, server.statusSubresource)
    }

    function AsObject(): Object
      reads this
    {
      Object(spec, labels, clusterIP, status, version)
    }

    /** The fields taken over from the live object before an update. */
    method Adopt(existing: Object)
      modifies this`clusterIP, this`status, this`version
      ensures version == existing.version
      ensures clusterIP == if kind.Service? then existing.clusterIP else old(clusterIP)
      ensures status == if kind.CarriesStatus() then existing.status else old(status)
      ensures kind == Deployment || kind == StatefulSet ==> status == existing.status
    {
      if kind.Service? { clusterIP := existing.clusterIP; }
      if kind.CarriesStatus() { status := existing.status; }
      version := existing.version;
    }
  }

  /** The controllers' writes `seen` took effect one by one, in order, in the slot's history. */
  ghost predicate Recorded(before: seq<Object>, after: seq<Object>, seen: seq<string>)
  {
    && |before| + |seen| <= |after| && before <= after
    && forall i :: 0 <= i < |seen| ==> after[|before| + i].status == seen[i]
  }

  /** From `before` to `now`, only the controllers' writes `seen` happened to the slot. */
  ghost predicate OnlyWritten(before: Option<Object>, history: seq<Object>, now: Option<Object>,
                              nowHistory: seq<Object>, seen: seq<string>)
  {
    && now == AfterWrites(before, seen)
    && (before.Some? ==> Recorded(history, nowHistory, seen) && |nowHistory| == |history| + |seen|)
  }

  lemma RecordedMore(before: seq<Object>, mid: seq<Object>, after: seq<Object>, a: seq<string>, b: seq<string>)
    requires Recorded(before, mid, a) && |mid| == |before| + |a| && Recorded(mid, after, b)
    ensures Recorded(before, after, a + b)
  {
    forall i | 0 <= i < |a + b| ensures after[|before| + i].status == (a + b)[i] {
      if i >= |a| { assert |before| + i == |mid| + (i - |a|); }
    }
  }

  /** What the applier wants stored; `shielded` says that the server keeps `.status` out of updates. */
  datatype Desired = Desired(kind: Kind, spec: string, labels: map<string, string>, shielded: bool)

  /** The status an update must leave behind: the newest one, wherever server or manifest protects it. */
  function StatusAfter(d: Desired, live: Object, own: string, seen: seq<string>): string
  {
    if d.kind.CarriesStatus() || d.shielded then NewestStatus(live.status, seen) else own
  }

  /** The desired object is stored over `before`, on top of the controllers' writes `seen`. */
  ghost predicate Stored(d: Desired, now: Option<Object>, before: Option<Object>, own: string, seen: seq<string>)
  {
    && now.Some? && now.value.spec == d.spec && now.value.labels == d.labels
    && (before.Some? ==>
      && now.value.version == before.value.version + |seen| + 1
      && now.value.status == StatusAfter(d, before.value, own, seen)
      && (d.kind.Service? ==> now.value.clusterIP == before.value.clusterIP))
  }

  /**
   The slot after an attempt: the desired object if the write took effect, otherwise the controllers' writes alone.
   */
  ghost predicate Leaves(took: bool, d: Desired, before: Option<Object>, history: seq<Object>, now: Option<Object>,
                         nowHistory: seq<Object>, own: string, seen: seq<string>)
  {
    && (if took then Stored(d, now, before, own, seen) else OnlyWritten(before, history, now, nowHistory, seen))
    && (before.Some? ==> Recorded(history, nowHistory, seen))
  }

  lemma MoreWritten(before: Option<Object>, history: seq<Object>, mid: Option<Object>, midHistory: seq<Object>,
                    now: Option<Object>, nowHistory: seq<Object>, seen: seq<string>, writes: seq<string>)
    requires OnlyWritten(before, history, mid, midHistory, seen)
      && OnlyWritten(mid, midHistory, now, nowHistory, writes)
    ensures OnlyWritten(before, history, now, nowHistory, seen + writes)
  {
    AfterMoreWrites(before, seen, writes);
    if before.Some? {
      RecordedMore(history, midHistory, nowHistory, seen, writes);
    }
  }

  /** Controllers may write while the applier waits. */
  method Elapse(server: ApiServer, ghost before: Option<Object>, ghost history: seq<Object>, ghost seen: seq<string>,
                writes: seq<string>)
    requires server.Valid() && OnlyWritten(before, history, server.store, server.history, seen)
    modifies server
    ensures server.Valid() && OnlyWritten(before, history, server.store, server.history, seen + writes)
    ensures writes == [] ==> server.store == old(server.store)
    ensures writes != [] && server.store.Some? ==>
      old(server.store).Some? && server.store.value.version > old(server.store).value.version
  {
    ghost var mid, midHistory := server.store, server.history;
    server.ControllersWrite(writes);
    MoreWritten(before, history, mid, midHistory, server.store, server.history, seen, writes);
  }

  /** Create what was not there, otherwise update under the version just read. */
  method Submit(server: ApiServer, m: Manifest, existing: Option<Object>, write: Reply) returns (r: Outcome)
    requires server.Valid() && (existing.Some? <==> server.store.Some?)
    requires existing.Some? && existing.value.version == server.store.value.version ==> existing == server.store
    modifies server, m`clusterIP, m`status, m`version
    ensures server.Valid() && old(server.history) <= server.history
    ensures var raced := existing.Some? && existing != old(server.store);
      && r == (if !write.Works? then Unavailable else if raced then Conflict else Applied)
      && (write.Lost? || raced ==> server.store == old(server.store) && server.history == old(server.history))
      && (!write.Lost? && !raced ==> Stored(m.Wants(server), server.store, old(server.store), old(m.status), []))
    ensures !m.kind.CarriesStatus() ==> m.status == old(m.status)
  {
    if existing.None? {
      r := server.Create(m.AsObject(), write);
    } else {
      m.Adopt(existing.value);
      r := server.Update(m.AsObject(), write);
    }
  }

  /** What was stored on top of the writes so far was stored over the object before them. */
  lemma StoredOnTop(d: Desired, before: Option<Object>, mid: Option<Object>, now: Option<Object>, own: string,
                    seen: seq<string>)
    requires mid == AfterWrites(before, seen) && Stored(d, now, mid, own, [])
    ensures Stored(d, now, before, own, seen)
  {
  }

  /** The get of one attempt, with the controllers' writes around it. */
  method Observe(server: ApiServer, round: Round, ghost before: Option<Object>, ghost history: seq<Object>,
                 ghost sofar: seq<string>)
      returns (existing: Option<Object>, err: bool, ghost seen: seq<string>)
    requires server.Valid() && OnlyWritten(before, history, server.store, server.history, sofar)
    modifies server
    ensures server.Valid() && err == round.getDown
    ensures seen == sofar + round.early + if err then [] else round.late
    ensures OnlyWritten(before, history, server.store, server.history, seen)
    ensures !err ==> (existing.Some? <==> before.Some?)
    ensures !err && existing.Some? ==>
      (existing.value.version == server.store.value.version <==> round.late == [])
      && (round.late == [] ==> existing == server.store)
  {
    Elapse(server, before, history, sofar, round.early);
    seen := sofar + round.early;
    existing, err := server.Get(round.getDown);
    if err {
      assert seen + [] == seen;
      return;
    }
    Elapse(server, before, history, seen, round.late);
    seen := seen + round.late;
  }

  /** One attempt: get, create if missing, otherwise update under the version just read. */
  method Attempt(server: ApiServer, m: Manifest, round: Round, ghost before: Option<Object>,
                 ghost history: seq<Object>, ghost sofar: seq<string>)
      returns (r: Outcome, ghost seen: seq<string>)
    requires server.Valid() && OnlyWritten(before, history, server.store, server.history, sofar)
    modifies server, m`clusterIP, m`status, m`version
    ensures server.Valid() && r == round.Verdict(before.Some?)
    ensures seen == sofar + round.early + if round.getDown then [] else round.late
    ensures Leaves(round.TookEffect(before.Some?), m.Wants(server), before, history, server.store, server.history,
                   old(m.status), seen)
    ensures !m.kind.CarriesStatus() ==> m.status == old(m.status)
  {
    var existing, err;
    existing, err, seen := Observe(server, round, before, history, sofar);
    if err { return Unavailable, seen; }
    ghost var mid := server.store;
    r := Submit(server, m, existing, round.write);
    if round.TookEffect(before.Some?) {
      StoredOnTop(m.Wants(server), before, mid, server.store, old(m.status), seen);
    }
  }

  /** The last attempt's write was stored. */
  ghost predicate LastTookEffect(s: Schedule, existed: bool, attempts: nat)
    requires attempts <= |s|
  {
    attempts > 0 && s[attempts - 1].TookEffect(existed)
  }

  /** What the applier can say at the end: its attempts, their outcome, and the controllers' writes they met. */
  ghost predicate Ended(s: Schedule, existed: bool, attempts: nat, r: Outcome, seen: seq<string>)
  {
    && Justified(s, existed, attempts, r) && seen <= WritesUpTo(s, attempts)
    && (r != Unavailable ==> seen == WritesUpTo(s, attempts))
    && (r == Applied ==> LastTookEffect(s, existed, attempts))
  }

  /** The applier's state after some attempts: done, or still racing with nothing stored. */
  ghost predicate Reached(s: Schedule, attempts: nat, r: Outcome, d: Desired, before: Option<Object>,
                          history: seq<Object>, now: Option<Object>, nowHistory: seq<Object>, own: string,
                          seen: seq<string>)
  {
    && attempts <= |s|
    && (if r == Conflict then AllRaced(s, before.Some?, attempts) && seen == WritesUpTo(s, attempts)
        else Ended(s, before.Some?, attempts, r, seen))
    && (r == Conflict ==> !LastTookEffect(s, before.Some?, attempts))
    && Leaves(LastTookEffect(s, before.Some?, attempts), d, before, history, now, nowHistory, own, seen)
  }

  lemma OneMoreAttempt(s: Schedule, attempts: nat, r: Outcome, d: Desired, before: Option<Object>, history: seq<Object>,
                       now: Option<Object>, nowHistory: seq<Object>, own: string, sofar: seq<string>, seen: seq<string>)
    requires attempts < |s| && AllRaced(s, before.Some?, attempts) && sofar == WritesUpTo(s, attempts)
    requires r == s[attempts].Verdict(before.Some?)
    requires seen == sofar + s[attempts].early + if s[attempts].getDown then [] else s[attempts].late
    requires Leaves(s[attempts].TookEffect(before.Some?), d, before, history, now, nowHistory, own, seen)
    ensures Reached(s, attempts + 1, r, d, before, history, now, nowHistory, own, seen)
  {
    if s[attempts].getDown {
      assert seen == sofar + s[attempts].early;
    }
  }

  /**
   `retry.RetryOnConflict` around the attempt, one attempt for each round of `s`. The desired object is stored
   exactly if the last attempt's write took effect; otherwise nothing but the controllers' writes happened.
   */
  method Apply(server: ApiServer, m: Manifest, s: Schedule)
      returns (r: Outcome, attempts: nat, ghost seen: seq<string>)
    requires server.Valid()
    modifies server, m`clusterIP, m`status, m`version
    ensures server.Valid() && Ended(s, old(server.store).Some?, attempts, r, seen)
    ensures Leaves(LastTookEffect(s, old(server.store).Some?, attempts), old(m.Wants(server)), old(server.store),
                   old(server.history), server.store, server.history, old(m.status), seen)
    ensures LastTookEffect(s, old(server.store).Some?, attempts) ==>
      server.store.Some? && server.store.value.spec == m.spec && server.store.value.labels == old(m.labels)
    ensures LastTookEffect(s, old(server.store).Some?, attempts) && old(server.store).Some? ==>
      (m.kind == Deployment || m.kind == StatefulSet ==>
        server.store.value.status == if seen == [] then old(server.store).value.status else seen[|seen| - 1])
      && (m.kind == Service ==> server.store.value.clusterIP == old(server.store).value.clusterIP)
  {
    ghost var before, history, d, own := server.store, server.history, m.Wants(server), m.status;
    r, seen, attempts := Conflict, [], 0;
    while r == Conflict && attempts < |s|
      invariant server.Valid() && Reached(s, attempts, r, d, before, history, server.store, server.history, own, seen)
      invariant m.Wants(server) == d && (!d.kind.CarriesStatus() ==> m.status == own)
      decreases |s| - attempts
    {
      ghost var sofar, carried := seen, m.status;
      r, seen := Attempt(server, m, s[attempts], before, history, sofar);
      OwnStatusIsMoot(s[attempts].TookEffect(before.Some?), d, before, history, server.store, server.history, carried,
        own, seen);
      OneMoreAttempt(s, attempts, r, d, before, history, server.store, server.history, own, sofar, seen);
      attempts := attempts + 1;
    }
  }

  /** A manifest's own status matters only for kinds that never adopt the live one. */
  lemma OwnStatusIsMoot(took: bool, d: Desired, before: Option<Object>, history: seq<Object>, now: Option<Object>,
                        nowHistory: seq<Object>, carried: string, own: string, seen: seq<string>)
    requires Leaves(took, d, before, history, now, nowHistory, carried, seen)
    requires !d.kind.CarriesStatus() ==> carried == own
    ensures Leaves(took, d, before, history, now, nowHistory, own, seen)
  {
  }

  /** `ApplyOwned`: stamp the two ownership labels, keep all others, then apply. */
  method ApplyOwned(server: ApiServer, owner: string, m: Manifest, s: Schedule)
      returns (r: Outcome, attempts: nat)
    requires server.Valid()
    modifies server, m
    ensures server.Valid()
    ensures owner == "" <==> r == OwnerRequired
    ensures owner == "" ==> server.store == old(server.store) && m.labels == old(m.labels)
    ensures owner != "" ==> Justified(s, old(server.store).Some?, attempts, r)
    ensures r == Applied ==> server.store.Some? && server.store.value.spec == m.spec
    ensures r == Applied ==>
      server.store.value.labels == old(m.labels)["app.kubernetes.io/managed-by" := "nvoi"]["nvoi/owner" := owner]
  {
    if owner == "" {
      return OwnerRequired, 0;
    }
    m.labels := m.labels["app.kubernetes.io/managed-by" := "nvoi"]["nvoi/owner" := owner];
    ghost var seen;
    r, attempts, seen := Apply(server, m, s);
  }

  // ---------------------------------------------------------------- what a caller may conclude

  /** With a reachable apiserver, an update fails only if every single attempt lost its own race. */
  lemma OnlyConstantRacingConflicts(s: Schedule, existed: bool, attempts: nat, r: Outcome)
    requires Justified(s, existed, attempts, r) && forall k :: 0 <= k < |s| ==> !s[k].Down()
    ensures r == Conflict || r == Applied
    ensures r == Conflict <==> s == [] || (existed && forall k :: 0 <= k < |s| ==> s[k].late != [])
  {
    if r == Conflict && s != [] {
      assert s[|s| - 1].Verdict(existed) == Conflict;
      forall k | 0 <= k < |s| ensures s[k].late != [] {
        assert s[k].Verdict(existed) == Conflict;
      }
    } else if s != [] {
      assert !(existed && s[attempts - 1].late != []);
    }
  }
}

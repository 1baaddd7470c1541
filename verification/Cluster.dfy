/**
 The objects of the application's namespace and the client calls that change them (pkg/kube/apply.go,
 pkg/kube/sweep.go, pkg/kube/secrets.go). Every object is known by its kind and name, and carries the owner
 label of the reconcile step it belongs to.
 */
module Cluster {
  import opened StringOrder
  import opened Wrappers

  datatype Kind = Deployment | StatefulSet | Service | Secret | ConfigMap | CronJob | PVC | StorageClass

  datatype Owner = Services | Crons | Databases | DatabaseBranches | Tunnel | Caddy | Registries | Unowned

  datatype Key = Key(kind: Kind, name: string)

  /** What later steps read back: a pod template's image and node, a schedule, or a Secret's data. */
  datatype Content =
    | Pods(image: Option<string>, node: string)
    | Scheduled(schedule: string, image: Option<string>)
    | Data(data: map<string, string>)
    | Plain(text: string)

  datatype Obj = Obj(owner: Owner, content: Content)

  type Objects = map<Key, Obj>

  /** A call works, is lost before it takes effect, or takes effect but its answer is lost. */
  datatype Outcome = Works | Lost | Unheard

  function DataOf(objs: Objects, name: string): map<string, string>
  {
    var k := Key(Secret, name);
    if k in objs && objs[k].content.Data? then objs[k].content.data else map[]
  }

  /** The names `ListOwned` reports. */
  function OwnedNames(objs: Objects, owner: Owner, kind: Kind): (names: set<string>)
    ensures forall n :: n in names <==> Key(kind, n) in objs && objs[Key(kind, n)].owner == owner
  {
    set k | k in objs && k.kind == kind && objs[k].owner == owner :: k.name
  }

  /** `now` differs from `before` at no key outside `touched`. */
  ghost predicate OnlyTouches(before: Objects, now: Objects, touched: set<Key>)
  {
    forall k :: k !in touched ==> Same(before, now, k)
  }

  ghost predicate Same(before: Objects, now: Objects, k: Key)
  {
    (k in before <==> k in now) && (k in before ==> before[k] == now[k])
  }

  lemma TouchedTwice(a: Objects, b: Objects, c: Objects, first: set<Key>, second: set<Key>, all: set<Key>)
    requires OnlyTouches(a, b, first) && OnlyTouches(b, c, second) && first <= all && second <= all
    ensures OnlyTouches(a, c, all)
  {
    forall k | k !in all ensures Same(a, c, k) {
      assert Same(a, b, k) && Same(b, c, k);
    }
  }

  /** What a sweep of `owner` and `kind` may do: remove objects it owns and does not want. */
  ghost predicate SweptFrom(before: Objects, now: Objects, owner: Owner, kind: Kind, desired: set<string>)
  {
    forall k :: !Same(before, now, k) ==>
      k in before && k !in now && k.kind == kind && before[k].owner == owner && k.name !in desired
  }

  /** An object some sweep of `owner` removes: of a swept kind, and not wanted. */
  predicate Orphan(objs: Objects, owner: Owner, wanted: map<Kind, set<string>>, k: Key)
  {
    k in objs && objs[k].owner == owner && k.kind in wanted && k.name !in wanted[k.kind]
  }

  ghost predicate SweepsOrphans(before: Objects, now: Objects, owner: Owner, wanted: map<Kind, set<string>>)
  {
    forall k :: !Same(before, now, k) ==> k !in now && Orphan(before, owner, wanted, k)
  }

  ghost predicate NoOrphans(objs: Objects, owner: Owner, wanted: map<Kind, set<string>>)
  {
    forall k :: !Orphan(objs, owner, wanted, k)
  }

  /** Nothing of `owner` and `kind` is left but the desired names. */
  ghost predicate Clean(objs: Objects, owner: Owner, kind: Kind, desired: set<string>)
  {
    OwnedNames(objs, owner, kind) <= desired
  }

  /** The Secret after `EnsureSecret`: the new keys win, the others stay. */
  function Merged(objs: Objects, owner: Owner, name: string, kvs: map<string, string>): Objects
  {
    objs[Key(Secret, name) := Obj(owner, Data(DataOf(objs, name) + kvs))]
  }

  /** The store after an apply: an existing volume claim is left alone. */
  function Applied(objs: Objects, k: Key, o: Obj): Objects
  {
    if k.kind == PVC && k in objs then objs else objs[k := o]
  }

  class Client {
    var objs: Objects
    /** No call of this client ever fails. */
    const reliable: bool

    constructor (objs: Objects, reliable: bool)
      ensures this.objs == objs && this.reliable == reliable
    {
      this.objs, this.reliable := objs, reliable;
    }

    method Call() returns (o: Outcome)
      ensures reliable ==> o == Works
    {
      o := *;
      if reliable { o := Works; }
    }

    method ApplyOwned(owner: Owner, k: Key, content: Content) returns (ok: bool)
      modifies this
      ensures objs == old(objs) || objs == Applied(old(objs), k, Obj(owner, content))
      ensures ok ==> objs == Applied(old(objs), k, Obj(owner, content))
      ensures reliable ==> ok
    {
      var o := Call();
      if !o.Lost? && !(k.kind == PVC && k in objs) {
        objs := objs[k := Obj(owner, content)];
      }
      ok := o.Works?;
    }

    method ListOwned(owner: Owner, kind: Kind) returns (names: Option<seq<string>>)
      ensures reliable ==> names.Some?
      ensures names.Some? ==> NoDup(names.value) && forall n :: n in names.value <==> n in OwnedNames(objs, owner, kind)
    {
      var o := Call();
      if !o.Works? { return None; }
      var listed := SortedKeys(OwnedNames(objs, owner, kind));
      names := Some(listed);
    }

    method Delete(k: Key) returns (ok: bool)
      modifies this
      ensures objs == old(objs) || objs == old(objs) - {k}
      ensures ok ==> objs == old(objs) - {k}
      ensures reliable ==> ok
    {
      var o := Call();
      if !o.Lost? { objs := objs - {k}; }
      ok := o.Works?;
    }

    /** Delete the listed names that are not desired, stopping at the first failure. */
    method DeleteListed(owner: Owner, kind: Kind, listed: seq<string>, desired: set<string>) returns (ok: bool)
      requires forall n :: n in listed ==> n in OwnedNames(objs, owner, kind)
      modifies this
      ensures SweptFrom(old(objs), objs, owner, kind, desired)
      ensures ok ==> forall n :: n in listed && n !in desired ==> Key(kind, n) !in objs
      ensures reliable ==> ok
    {
      for i := 0 to |listed|
        invariant SweptFrom(old(objs), objs, owner, kind, desired)
        invariant forall n :: n in listed[..i] && n !in desired ==> Key(kind, n) !in objs
      {
        Snoc(listed, i);
        if listed[i] in desired { continue; }
        assert listed[i] in OwnedNames(old(objs), owner, kind);
        ghost var was := objs;
        ok := Delete(Key(kind, listed[i]));
        SweptOneMore(old(objs), was, objs, owner, kind, desired, listed[i]);
        if !ok { return; }
      }
      Whole(listed);
      return true;
    }

    /** `SweepOwned`: list what the owner has of this kind and delete what is not desired. */
    method SweepOwned(owner: Owner, kind: Kind, desired: set<string>) returns (ok: bool)
      modifies this
      ensures SweptFrom(old(objs), objs, owner, kind, desired)
      ensures ok ==> Clean(objs, owner, kind, desired)
      ensures reliable ==> ok
    {
      var names := ListOwned(owner, kind);
      if names.None? { return false; }
      ok := DeleteListed(owner, kind, names.value, desired);
      if ok {
        SweptClean(old(objs), objs, owner, kind, desired, names.value);
      }
    }

    /** One sweep per kind; a failed sweep is only logged, so the next one still runs. */
    method SweepEach(owner: Owner, kinds: seq<Kind>, wanted: map<Kind, set<string>>)
      requires wanted.Keys == Elems(kinds)
      modifies this
      ensures SweepsOrphans(old(objs), objs, owner, wanted)
      ensures reliable ==> NoOrphans(objs, owner, wanted)
    {
      for i := 0 to |kinds|
        invariant SweepsOrphans(old(objs), objs, owner, wanted)
        invariant reliable ==> forall kind :: kind in kinds[..i] ==> Clean(objs, owner, kind, wanted[kind])
      {
        Snoc(kinds, i);
        ghost var was := objs;
        var _ := SweepOwned(owner, kinds[i], wanted[kinds[i]]);
        forall kind | kind in kinds[..i] && Clean(was, owner, kind, wanted[kind])
          ensures Clean(objs, owner, kind, wanted[kind])
        {
          StillClean(was, objs, owner, kinds[i], wanted[kinds[i]], kind, wanted[kind]);
        }
      }
      Whole(kinds);
      if reliable {
        AllClean(objs, owner, wanted);
      }
    }

    method EnsureSecret(owner: Owner, name: string, kvs: map<string, string>) returns (ok: bool)
      modifies this
      ensures objs == old(objs) || objs == Merged(old(objs), owner, name, kvs)
      ensures ok ==> objs == Merged(old(objs), owner, name, kvs)
      ensures reliable ==> ok
    {
      var read := Call();
      if !read.Works? { return false; }
      var o := Call();
      if !o.Lost? { objs := Merged(objs, owner, name, kvs); }
      ok := o.Works?;
    }

    /** `ListSecretKeys`: no keys when the Secret does not exist. */
    method ListSecretKeys(name: string) returns (keys: Option<seq<string>>)
      ensures reliable ==> keys.Some?
      ensures keys.Some? ==> NoDup(keys.value) && forall k :: k in keys.value <==> k in DataOf(objs, name)
    {
      var o := Call();
      if !o.Works? { return None; }
      var listed := SortedKeys(DataOf(objs, name).Keys);
      keys := Some(listed);
    }

    /** `DeleteSecretKey`: a missing Secret or key is no error. */
    method DeleteSecretKey(name: string, key: string) returns (ok: bool)
      modifies this
      ensures objs == old(objs) || objs == WithoutKey(old(objs), name, key)
      ensures ok ==> objs == WithoutKey(old(objs), name, key)
      ensures reliable ==> ok
    {
      var read := Call();
      if !read.Works? { return false; }
      if key !in DataOf(objs, name) { return true; }
      var o := Call();
      if !o.Lost? { objs := WithoutKey(objs, name, key); }
      ok := o.Works?;
    }

    /** `GetSecretValue`: a missing or empty value is an error. */
    method GetSecretValue(name: string, key: string) returns (value: Option<string>)
      ensures value.Some? ==> key in DataOf(objs, name) && DataOf(objs, name)[key] == value.value != ""
      ensures reliable ==> (value.Some? <==> key in DataOf(objs, name) && DataOf(objs, name)[key] != "")
    {
      var o := Call();
      if !o.Works? || key !in DataOf(objs, name) || DataOf(objs, name)[key] == "" { return None; }
      return Some(DataOf(objs, name)[key]);
    }
  }

  function WithoutKey(objs: Objects, name: string, key: string): Objects
  {
    if key !in DataOf(objs, name) then objs
    else objs[Key(Secret, name) := objs[Key(Secret, name)].(content := Data(DataOf(objs, name) - {key}))]
  }

  lemma StillClean(was: Objects, now: Objects, owner: Owner, swept: Kind, desired: set<string>, kind: Kind,
                   names: set<string>)
    requires SweptFrom(was, now, owner, swept, desired) && Clean(was, owner, kind, names)
    ensures Clean(now, owner, kind, names)
  {
    forall n | n in OwnedNames(now, owner, kind) ensures n in names {
      assert Same(was, now, Key(kind, n));
      assert n in OwnedNames(was, owner, kind);
    }
  }

  lemma AllClean(objs: Objects, owner: Owner, wanted: map<Kind, set<string>>)
    requires forall kind :: kind in wanted ==> Clean(objs, owner, kind, wanted[kind])
    ensures NoOrphans(objs, owner, wanted)
  {
    forall k | k in objs && objs[k].owner == owner && k.kind in wanted ensures k.name in wanted[k.kind] {
      assert k.name in OwnedNames(objs, owner, k.kind);
    }
  }

  lemma SweptOneMore(before: Objects, was: Objects, now: Objects, owner: Owner, kind: Kind, desired: set<string>,
                     n: string)
    requires SweptFrom(before, was, owner, kind, desired) && (now == was || now == was - {Key(kind, n)})
    requires n in OwnedNames(before, owner, kind) && n !in desired
    ensures SweptFrom(before, now, owner, kind, desired)
  {
    forall k | k != Key(kind, n) ensures Same(was, now, k) {
    }
  }

  lemma SweptClean(before: Objects, now: Objects, owner: Owner, kind: Kind, desired: set<string>, listed: seq<string>)
    requires SweptFrom(before, now, owner, kind, desired)
    requires forall n :: n in listed <==> n in OwnedNames(before, owner, kind)
    requires forall n :: n in listed && n !in desired ==> Key(kind, n) !in now
    ensures Clean(now, owner, kind, desired)
  {
    forall n | n in OwnedNames(now, owner, kind) ensures n in desired {
      assert Same(before, now, Key(kind, n));
    }
  }
}

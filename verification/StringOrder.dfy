/**
 The string order the reconciler relies on for determinism: Go's `<` on strings,
 `sort.Strings`, and the sorted key lists every planner and every apply loop walks.
 */
module StringOrder {

  /** Go's `a < b`: compare left to right, a proper prefix comes first. */
  predicate Less(a: string, b: string)
  {
    if b == "" then false
    else if a == "" then true
    else a[0] < b[0] || (a[0] == b[0] && Less(a[1..], b[1..]))
  }

  predicate Leq(a: string, b: string)
  {
    !Less(b, a)
  }

  lemma {:induction false} LessAsymmetric(a: string, b: string)
    ensures !Less(a, a)
    ensures Less(a, b) ==> !Less(b, a)
  {
    if a != "" {
      if b != "" {
        LessAsymmetric(a[1..], b[1..]);
      } else {
        LessAsymmetric(a[1..], "");
      }
    }
  }

  lemma {:induction false} LeqAntisymmetric(a: string, b: string)
    requires Leq(a, b) && Leq(b, a)
    ensures a == b
  {
    if a != "" && b != "" {
      LeqAntisymmetric(a[1..], b[1..]);
      assert a == [a[0]] + a[1..] && b == [b[0]] + b[1..];
    }
  }

  lemma {:induction false} LeqTransitive(a: string, b: string, c: string)
    requires Leq(a, b) && Leq(b, c)
    ensures Leq(a, c)
  {
    if a != "" && b != "" && c != "" && a[0] == b[0] == c[0] {
      LeqTransitive(a[1..], b[1..], c[1..]);
    }
  }

  ghost predicate Sorted(s: seq<string>)
  {
    forall i, j :: 0 <= i < j < |s| ==> Leq(s[i], s[j])
  }

  ghost predicate NoDup<T>(s: seq<T>)
  {
    forall i, j :: 0 <= i < j < |s| ==> s[i] != s[j]
  }

  /** A loop over `s` that has seen `i` elements sees one more. */
  lemma Snoc<T>(s: seq<T>, i: nat)
    requires i < |s|
    ensures s[..i + 1] == s[..i] + [s[i]] && s[..i + 1][..i] == s[..i]
  {
  }

  lemma Whole<T>(s: seq<T>)
    ensures s[..|s|] == s
  {
  }

  ghost function Elems<T>(s: seq<T>): set<T>
  {
    set x | x in s
  }

  lemma PrependSmallest(x: string, s: seq<string>)
    requires Sorted(s) && (s == [] || Leq(x, s[0]))
    ensures Sorted([x] + s)
  {
    forall j | 0 <= j < |s| ensures Leq(x, s[j]) {
      if j > 0 { LeqTransitive(x, s[0], s[j]); }
    }
  }

  lemma NoDupSnoc<T>(s: seq<T>, x: T)
    ensures NoDup(s + [x]) <==> NoDup(s) && x !in s
  {
    var t := s + [x];
    assert t[..|s|] == s && t[|s|] == x;
    if NoDup(t) {
      assert forall i, j :: 0 <= i < j < |s| ==> t[i] != t[j];
      forall i | 0 <= i < |s| ensures s[i] != x {
        assert t[i] != t[|s|];
      }
    }
  }

  lemma NoDupPrefix<T>(s: seq<T>, n: nat)
    requires NoDup(s) && n <= |s|
    ensures NoDup(s[..n])
  {
  }

  lemma NoDupJoin<T>(a: seq<T>, b: seq<T>)
    requires NoDup(a) && NoDup(b) && forall x :: x in a ==> x !in b
    ensures NoDup(a + b)
  {
    var t := a + b;
    forall i, j | 0 <= i < j < |t| ensures t[i] != t[j] {
      assert i < |a| ==> t[i] in a;
      assert j >= |a| ==> t[j] in b;
    }
  }

  function Insert(x: string, s: seq<string>): (r: seq<string>)
    ensures r != [] && (r[0] == x || (s != [] && r[0] == s[0]))
  {
    if s != [] && Less(s[0], x) then [s[0]] + Insert(x, s[1..]) else [x] + s
  }

  lemma {:induction false} InsertSorts(x: string, s: seq<string>)
    requires Sorted(s)
    ensures Sorted(Insert(x, s))
  {
    if s != [] && Less(s[0], x) {
      InsertSorts(x, s[1..]);
      LessAsymmetric(s[0], x);
      PrependSmallest(s[0], Insert(x, s[1..]));
    } else {
      PrependSmallest(x, s);
    }
  }

  lemma {:induction false} InsertCounts(x: string, s: seq<string>)
    ensures multiset(Insert(x, s)) == multiset(s) + multiset{x}
  {
    if s != [] && Less(s[0], x) {
      InsertCounts(x, s[1..]);
      assert s == [s[0]] + s[1..];
    }
  }

  /** `sort.Strings`. */
  function SortStrings(s: seq<string>): (r: seq<string>)
    ensures Sorted(r) && multiset(r) == multiset(s) && |r| == |s|
  {
    if s == [] then []
    else
      var rest := SortStrings(s[1..]);
      InsertSorts(s[0], rest);
      InsertCounts(s[0], rest);
      assert s == [s[0]] + s[1..];
      var r := Insert(s[0], rest);
      assert |multiset(r)| == |r| && |multiset(s)| == |s|;
      r
  }

  lemma SamePermutation<T>(a: seq<T>, b: seq<T>)
    requires multiset(a) == multiset(b)
    ensures forall x :: x in a <==> x in b
    ensures NoDup(a) ==> NoDup(b)
  {
    forall x ensures x in a <==> x in b {
      assert x in a <==> x in multiset(a);
      assert x in b <==> x in multiset(b);
    }
    if NoDup(a) {
      NoDupCounts(a);
      forall i, j | 0 <= i < j < |b| ensures b[i] != b[j] {
        CountAtTwoPlaces(b, i, j);
        assert b[j] in a;
      }
    }
  }

  lemma CountAtTwoPlaces<T>(s: seq<T>, i: nat, j: nat)
    requires i < j < |s|
    ensures multiset(s)[s[j]] >= if s[i] == s[j] then 2 else 1
  {
    assert s == s[..j] + [s[j]] + s[j + 1..];
    assert multiset(s) == multiset(s[..j]) + multiset{s[j]} + multiset(s[j + 1..]);
    assert s[i] in s[..j];
  }

  lemma {:induction false} NoDupCounts<T>(a: seq<T>)
    requires NoDup(a)
    ensures forall x :: x in a ==> multiset(a)[x] == 1
  {
    if a != [] {
      var n := |a| - 1;
      NoDupCounts(a[..n]);
      assert a == a[..n] + [a[n]];
      assert a[n] !in a[..n];
      forall x | x in a ensures multiset(a)[x] == 1 {
        assert x in a[..n] || x == a[n];
        assert multiset(a) == multiset(a[..n]) + multiset{a[n]};
        assert x !in a[..n] ==> multiset(a[..n])[x] == 0;
      }
    }
  }

  /** A duplicate-free list drawn from a set is no longer than the set. */
  lemma {:induction false} Pigeonhole<T>(p: seq<T>, s: set<T>)
    requires NoDup(p) && forall x :: x in p ==> x in s
    ensures |p| <= |s|
  {
    if p != [] {
      var n := |p| - 1;
      forall x | x in p[..n] ensures x in s - {p[n]} {
      }
      Pigeonhole(p[..n], s - {p[n]});
    }
  }

  lemma Repetition<T>(p: seq<T>, s: set<T>) returns (i: nat, j: nat)
    requires |p| > |s| && forall x :: x in p ==> x in s
    ensures i < j < |p| && p[i] == p[j]
  {
    if NoDup(p) {
      Pigeonhole(p, s);
    }
    i, j :| 0 <= i < j < |p| && p[i] == p[j];
  }

  /** `utils.SortedKeys`: the keys of a map, collected in any order, then sorted. */
  method SortedKeys(keys: set<string>) returns (r: seq<string>)
    ensures Sorted(r) && NoDup(r)
    ensures forall k :: k in r <==> k in keys
  {
    var todo, list := keys, [];
    while todo != {}
      invariant NoDup(list)
      invariant forall k :: k in list <==> k in keys - todo
      invariant todo <= keys
      decreases todo
    {
      var k :| k in todo;
      assert k !in list;
      todo := todo - {k};
      list := list + [k];
    }
    r := SortStrings(list);
    SamePermutation(list, r);
  }

  /** A set has exactly one sorted listing, so the order in which Go visits a map is lost. */
  lemma {:induction false} SortedListingIsUnique(a: seq<string>, b: seq<string>)
    requires Sorted(a) && NoDup(a) && Sorted(b) && NoDup(b)
    requires forall k :: k in a <==> k in b
    ensures a == b
  {
    assert (a != [] ==> a[0] in b) && (b != [] ==> b[0] in a);
    if a != [] && b != [] {
      LessAsymmetric(a[0], b[0]);
      LessAsymmetric(b[0], a[0]);
      LeqAntisymmetric(a[0], b[0]);
      forall k ensures k in a[1..] <==> k in b[1..] {
        assert a == [a[0]] + a[1..] && b == [b[0]] + b[1..];
        assert k in a[1..] ==> k != a[0] && k in b;
        assert k in b[1..] ==> k != b[0] && k in a;
      }
      SortedListingIsUnique(a[1..], b[1..]);
      assert a == [a[0]] + a[1..] && b == [b[0]] + b[1..];
    }
  }

  lemma ElemsJoin<T>(a: seq<T>, b: seq<T>)
    ensures Elems(a + b) == Elems(a) + Elems(b)
  {
  }
}

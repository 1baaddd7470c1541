/** Backup object keys (cmd/db/main.go:166) and the choice of the latest one (cmd/cli/database.go). */
module BackupKeys {
  import opened Decimal
  import opened StringOrder
  import opened Wrappers

  /** A UTC time with a four-digit year, to the second. */
  datatype Stamp = Stamp(year: nat, month: nat, day: nat, hour: nat, minute: nat, second: nat)
  {
    ghost predicate Valid()
    {
      year <= 9999 && 1 <= month <= 12 && 1 <= day <= 31 && hour <= 23 && minute <= 59 && second <= 59
    }

    /** The calendar order. */
    predicate Before(t: Stamp)
    {
      if year != t.year then year < t.year
      else if month != t.month then month < t.month
      else if day != t.day then day < t.day
      else if hour != t.hour then hour < t.hour
      else if minute != t.minute then minute < t.minute
      else second < t.second
    }
  }

  /** `n` in exactly `width` digits. */
  function Pad(width: nat, n: nat): (s: string)
    ensures |s| == width
  {
    if width == 0 then "" else Pad(width - 1, n / 10) + [Digit(n % 10)]
  }

  ghost predicate Fits(width: nat, n: nat)
  {
    if width == 0 then n == 0 else Fits(width - 1, n / 10)
  }

  const SUFFIX := "Z.sql.gz"

  /** `YYYYMMDDTHHMMSSZ.sql.gz`. */
  function Key(t: Stamp): string
  {
    Pad(4, t.year) + (Pad(2, t.month) + (Pad(2, t.day) +
      (['T'] + (Pad(2, t.hour) + (Pad(2, t.minute) + (Pad(2, t.second) + SUFFIX))))))
  }

  // ---------------------------------------------------------------- string order is time order

  lemma {:induction false} LessPrefix(a: string, b: string, x: string, y: string)
    requires |a| == |b|
    ensures Less(a + x, b + y) <==> Less(a, b) || (a == b && Less(x, y))
  {
    if a == "" {
      assert a + x == x && b + y == y;
    } else {
      assert (a + x)[1..] == a[1..] + x && (b + y)[1..] == b[1..] + y;
      LessPrefix(a[1..], b[1..], x, y);
      assert a == [a[0]] + a[1..] && b == [b[0]] + b[1..];
    }
  }

  lemma {:induction false} PadOrder(width: nat, m: nat, n: nat)
    requires Fits(width, m) && Fits(width, n)
    ensures Less(Pad(width, m), Pad(width, n)) <==> m < n
    ensures Pad(width, m) == Pad(width, n) <==> m == n
  {
    if width > 0 {
      PadOrder(width - 1, m / 10, n / 10);
      var a, b := Pad(width - 1, m / 10), Pad(width - 1, n / 10);
      var c, d := [Digit(m % 10)], [Digit(n % 10)];
      LessPrefix(a, b, c, d);
      assert Less(c, d) <==> m % 10 < n % 10 by { assert c[1..] == d[1..] == ""; }
      if a + c == b + d {
        assert a == (a + c)[..width - 1] == b && c == (a + c)[width - 1..] == d;
        assert c[0] == d[0];
      }
    }
  }

  /** One fixed-width field, then the rest. */
  lemma FieldOrder(width: nat, m: nat, n: nat, x: string, y: string)
    requires Fits(width, m) && Fits(width, n)
    ensures Less(Pad(width, m) + x, Pad(width, n) + y) <==> m < n || (m == n && Less(x, y))
  {
    PadOrder(width, m, n);
    LessPrefix(Pad(width, m), Pad(width, n), x, y);
  }

  lemma TwoDigits(n: nat)
    requires n <= 99
    ensures Fits(2, n)
  {
    assert Fits(0, n / 10 / 10);
    assert Fits(1, n / 10);
  }

  lemma FourDigits(n: nat)
    requires n <= 9999
    ensures Fits(4, n)
  {
    assert n / 10 / 10 <= 99;
    TwoDigits(n / 10 / 10);
    assert Fits(3, n / 10);
  }

  function TimeText(t: Stamp): string
  {
    Pad(2, t.hour) + (Pad(2, t.minute) + (Pad(2, t.second) + SUFFIX))
  }

  lemma TimeOrder(a: Stamp, b: Stamp)
    requires a.Valid() && b.Valid()
    ensures Less(TimeText(a), TimeText(b)) <==>
      a.hour < b.hour || (a.hour == b.hour && (a.minute < b.minute || (a.minute == b.minute && a.second < b.second)))
  {
    TwoDigits(a.hour); TwoDigits(b.hour);
    TwoDigits(a.minute); TwoDigits(b.minute);
    TwoDigits(a.second); TwoDigits(b.second);
    LessAsymmetric(SUFFIX, SUFFIX);
    var sa, sb := Pad(2, a.second) + SUFFIX, Pad(2, b.second) + SUFFIX;
    FieldOrder(2, a.second, b.second, SUFFIX, SUFFIX);
    FieldOrder(2, a.minute, b.minute, sa, sb);
    FieldOrder(2, a.hour, b.hour, Pad(2, a.minute) + sa, Pad(2, b.minute) + sb);
  }

  /** Keys sort as strings exactly as their times sort. */
  lemma KeyOrderIsTimeOrder(a: Stamp, b: Stamp)
    requires a.Valid() && b.Valid()
    ensures Less(Key(a), Key(b)) <==> a.Before(b)
  {
    TimeOrder(a, b);
    FourDigits(a.year); FourDigits(b.year);
    TwoDigits(a.month); TwoDigits(b.month);
    TwoDigits(a.day); TwoDigits(b.day);
    var ta, tb := ['T'] + TimeText(a), ['T'] + TimeText(b);
    LessPrefix(['T'], ['T'], TimeText(a), TimeText(b));
    LessAsymmetric(['T'], ['T']);
    FieldOrder(2, a.day, b.day, ta, tb);
    FieldOrder(2, a.month, b.month, Pad(2, a.day) + ta, Pad(2, b.day) + tb);
    FieldOrder(4, a.year, b.year, Pad(2, a.month) + (Pad(2, a.day) + ta), Pad(2, b.month) + (Pad(2, b.day) + tb));
  }

  // ---------------------------------------------------------------- the format

  lemma {:induction false} PadIsDecimal(width: nat, n: nat)
    requires Fits(width, n)
    ensures forall i :: 0 <= i < width ==> IsDigit(Pad(width, n)[i])
    ensures Value(Pad(width, n)) == n
  {
    if width > 0 {
      PadIsDecimal(width - 1, n / 10);
      var s := Pad(width, n);
      assert s[..width - 1] == Pad(width - 1, n / 10) && s[width - 1] == Digit(n % 10);
    }
  }

  /** `text` is the number `n` in exactly this many digits. */
  ghost predicate Spells(text: string, digits: nat, n: nat)
  {
    |text| == digits && (forall i :: 0 <= i < digits ==> IsDigit(text[i])) && Value(text) == n
  }

  /** Year, month, day, a T, hour, minute, second, then `Z.sql.gz`. */
  lemma KeyFormat(t: Stamp)
    requires t.Valid()
    ensures var k := Key(t);
      && |k| == 23 && k[8] == 'T' && k[15..] == "Z.sql.gz"
      && Spells(k[0..4], 4, t.year) && Spells(k[4..6], 2, t.month) && Spells(k[6..8], 2, t.day)
      && Spells(k[9..11], 2, t.hour) && Spells(k[11..13], 2, t.minute) && Spells(k[13..15], 2, t.second)
  {
    FourDigits(t.year);
    TwoDigits(t.month);
    TwoDigits(t.day);
    TwoDigits(t.hour);
    TwoDigits(t.minute);
    TwoDigits(t.second);
    PadIsDecimal(4, t.year);
    PadIsDecimal(2, t.month);
    PadIsDecimal(2, t.day);
    PadIsDecimal(2, t.hour);
    PadIsDecimal(2, t.minute);
    PadIsDecimal(2, t.second);
    var k := Key(t);
    assert k[0..4] == Pad(4, t.year) && k[4..6] == Pad(2, t.month) && k[6..8] == Pad(2, t.day);
    assert k[9..11] == Pad(2, t.hour) && k[11..13] == Pad(2, t.minute) && k[13..15] == Pad(2, t.second);
  }

  // ---------------------------------------------------------------- the latest key

  ghost predicate IsLatest(key: string, keys: set<string>)
  {
    key in keys && forall k :: k in keys ==> Leq(k, key)
  }

  lemma LatestIsUnique(a: string, b: string, keys: set<string>)
    requires IsLatest(a, keys) && IsLatest(b, keys)
    ensures a == b
  {
    LeqAntisymmetric(a, b);
  }

  lemma {:induction false} SomeLatest(keys: set<string>) returns (key: string)
    requires keys != {}
    ensures IsLatest(key, keys)
  {
    key :| key in keys;
    LessAsymmetric(key, key);
    if keys != {key} {
      var other := SomeLatest(keys - {key});
      LessAsymmetric(key, other);
      if Less(key, other) {
        key := other;
      } else {
        forall k | k in keys ensures Leq(k, key) {
          if k != key { LeqTransitive(k, other, key); }
        }
      }
    }
  }

  ghost function Latest(keys: set<string>): (key: string)
    requires keys != {}
    ensures IsLatest(key, keys)
  {
    assert exists k :: IsLatest(k, keys) by { var k := SomeLatest(keys); }
    var k :| IsLatest(k, keys);
    k
  }

  /** `latestBackupKey`: no key when the bucket is empty, otherwise the greatest. */
  method LatestBackupKey(refs: seq<string>) returns (latest: Option<string>)
    ensures latest.None? <==> refs == []
    ensures latest.Some? ==> IsLatest(latest.value, Elems(refs))
  {
    if |refs| == 0 { return None; }
    var best := refs[0];
    LessAsymmetric(best, best);
    for i := 1 to |refs|
      invariant IsLatest(best, Elems(refs[..i]))
    {
      Snoc(refs, i);
      if Less(best, refs[i]) {
        LessAsymmetric(best, refs[i]);
        LessAsymmetric(refs[i], refs[i]);
        forall k | k in refs[..i] ensures Leq(k, refs[i]) {
          LeqTransitive(k, best, refs[i]);
        }
        best := refs[i];
      }
    }
    Whole(refs);
    return Some(best);
  }

  ghost predicate AllKeys(keys: set<string>)
  {
    forall k :: k in keys ==> exists t: Stamp :: t.Valid() && k == Key(t)
  }

  /** Among real backup keys the latest one is the chronologically newest. */
  lemma LatestIsNewest(key: string, keys: set<string>, t: Stamp)
    requires IsLatest(key, keys) && AllKeys(keys) && t.Valid() && Key(t) in keys
    ensures exists newest: Stamp :: newest.Valid() && key == Key(newest) && !newest.Before(t)
  {
    var newest: Stamp :| newest.Valid() && key == Key(newest);
    KeyOrderIsTimeOrder(newest, t);
  }

  /** No key in the bucket sorts after that of a backup made at `t`. */
  ghost predicate NewestAt(keys: set<string>, t: Stamp)
  {
    forall k :: k in keys ==> Leq(k, Key(t))
  }

  /** When every earlier backup was made earlier, a new backup is the one the lookup returns. */
  lemma NewBackupIsLatest(keys: set<string>, t: Stamp, key: string)
    requires t.Valid() && forall k :: k in keys ==> exists u: Stamp :: u.Valid() && k == Key(u) && !t.Before(u)
    requires IsLatest(key, keys + {Key(t)})
    ensures NewestAt(keys, t) && key == Key(t)
  {
    forall k | k in keys ensures Leq(k, Key(t)) {
      var u: Stamp :| u.Valid() && k == Key(u) && !t.Before(u);
      KeyOrderIsTimeOrder(t, u);
    }
    LessAsymmetric(Key(t), Key(t));
    LatestIsUnique(key, Key(t), keys + {Key(t)});
  }
}

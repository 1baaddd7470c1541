/** Decimal integers as Go prints (`%d`) and reads (`strconv.Atoi`, `fmt.Sscanf("%d")`) them. */
module Decimal {
  import opened Wrappers

  predicate IsDigit(c: char)
  {
    '0' <= c <= '9'
  }

  function DigitValue(c: char): (v: nat)
    requires IsDigit(c)
    ensures v < 10
  {
    c as int - '0' as int
  }

  function Digit(v: nat): (c: char)
    requires v < 10
    ensures IsDigit(c) && DigitValue(c) == v
  {
    (v + '0' as int) as char
  }

  function Digits(n: nat): (s: string)
    ensures s != "" && forall i :: 0 <= i < |s| ==> IsDigit(s[i])
  {
    if n < 10 then [Digit(n)] else Digits(n / 10) + [Digit(n % 10)]
  }

  /** `fmt.Sprintf("%d", n)`. */
  function Dec(n: int): string
  {
    if n < 0 then "-" + Digits(-n) else Digits(n)
  }

  function DigitRun(s: string): (n: nat)
    ensures n <= |s| && forall i :: 0 <= i < n ==> IsDigit(s[i])
    ensures n < |s| ==> !IsDigit(s[n])
  {
    if s == "" || !IsDigit(s[0]) then 0 else 1 + DigitRun(s[1..])
  }

  function Value(s: string): nat
    requires forall i :: 0 <= i < |s| ==> IsDigit(s[i])
  {
    if s == "" then 0 else 10 * Value(s[..|s| - 1]) + DigitValue(s[|s| - 1])
  }

  function Unsigned(s: string): string
  {
    if s != "" && (s[0] == '-' || s[0] == '+') then s[1..] else s
  }

  function Signed(s: string, magnitude: int): int
  {
    if s != "" && s[0] == '-' then -magnitude else magnitude
  }

  /** An optional sign and the leading digits; the rest is ignored. */
  function Leading(s: string): Option<int>
  {
    var body := Unsigned(s);
    var n := DigitRun(body);
    if n == 0 then None else Some(Signed(s, Value(body[..n])))
  }

  predicate IsBlank(c: char)
  {
    c == ' ' || c == '\t' || c == '\U{0B}' || c == '\U{0C}' || c == '\r' || c == '\U{85}' || c == '\U{A0}'
  }

  function SkipBlanks(s: string): string
  {
    if s != "" && IsBlank(s[0]) then SkipBlanks(s[1..]) else s
  }

  /** `fmt.Sscanf(s, "%d", &n)`. */
  function ScanInt(s: string): Option<int>
  {
    Leading(SkipBlanks(s))
  }

  /** `strconv.Atoi`: nothing may stand before or follow. */
  function Atoi(s: string): Option<int>
  {
    if DigitRun(Unsigned(s)) == |Unsigned(s)| then Leading(s) else None
  }

  lemma {:induction false} ValueOfDigits(n: nat)
    ensures Value(Digits(n)) == n
  {
    if n >= 10 {
      ValueOfDigits(n / 10);
      var s := Digits(n);
      assert s[..|s| - 1] == Digits(n / 10);
    } else {
      assert Digits(n)[..0] == "";
    }
  }

  lemma {:induction false} RunOfDigits(ds: string, rest: string)
    requires forall i :: 0 <= i < |ds| ==> IsDigit(ds[i])
    requires rest == "" || !IsDigit(rest[0])
    ensures DigitRun(ds + rest) == |ds|
  {
    if ds == "" {
      assert ds + rest == rest;
    } else {
      RunOfDigits(ds[1..], rest);
      assert (ds + rest)[1..] == ds[1..] + rest;
    }
  }

  lemma SignGoesFirst(t: string)
    requires t != "" && IsDigit(t[0])
    ensures Unsigned("-" + t) == t && Unsigned(t) == t
    ensures ("-" + t)[0] == '-' && t[0] != '-' && !IsBlank('-') && !IsBlank(t[0])
  {
  }

  lemma SignOfPrinted(n: int, rest: string)
    ensures var s := Dec(n) + rest;
      Unsigned(s) == Digits(if n < 0 then -n else n) + rest && (s[0] == '-' <==> n < 0) && !IsBlank(s[0])
  {
    var ds := Digits(if n < 0 then -n else n);
    SignGoesFirst(ds + rest);
    assert "-" + ds + rest == "-" + (ds + rest);
  }

  /** Reading back what was printed, whatever text without a digit in front comes next. */
  lemma ScanPrinted(n: int, rest: string)
    requires rest == "" || !IsDigit(rest[0])
    ensures ScanInt(Dec(n) + rest) == Some(n)
  {
    var ds := Digits(if n < 0 then -n else n);
    SignOfPrinted(n, rest);
    ValueOfDigits(if n < 0 then -n else n);
    RunOfDigits(ds, rest);
    assert (ds + rest)[..|ds|] == ds;
  }

  /** Space, tab, vertical tab, form feed, carriage return and their like. */
  ghost predicate AllBlank(s: string)
  {
    forall i :: 0 <= i < |s| ==>
      s[i] == ' ' || s[i] == '\t' || s[i] == '\U{0B}' || s[i] == '\U{0C}' || s[i] == '\r' || s[i] == '\U{85}'
      || s[i] == '\U{A0}'
  }

  lemma {:induction false} SkipsAll(blanks: string, s: string)
    requires AllBlank(blanks)
    ensures SkipBlanks(blanks + s) == SkipBlanks(s)
  {
    if blanks == "" {
      assert blanks + s == s;
    } else {
      SkipsAll(blanks[1..], s);
      assert (blanks + s)[1..] == blanks[1..] + s;
    }
  }

  /** Blanks in front of a number are skipped. */
  lemma ScanSkipsBlanks(blanks: string, n: int, rest: string)
    requires AllBlank(blanks) && (rest == "" || !IsDigit(rest[0]))
    ensures ScanInt(blanks + (Dec(n) + rest)) == Some(n)
  {
    SkipsAll(blanks, Dec(n) + rest);
    ScanPrinted(n, rest);
  }

  lemma DigitsSnoc(n: nat, d: nat)
    requires n > 0 && d < 10
    ensures Digits(10 * n + d) == Digits(n) + [Digit(d)]
  {
    assert (10 * n + d) / 10 == n && (10 * n + d) % 10 == d;
  }
}

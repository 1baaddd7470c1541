/** The line-prefixing stream writer behind multi-pod logs (pkg/kube/streaming.go). */
module PrefixedWriter {
  newtype byte = x: int | 0 <= x < 256

  const NEWLINE: byte := 10

  /** An `io.Writer`: it may stop short or fail, and without an error it has taken everything. */
  class Sink {
    var out: seq<byte>

    constructor ()
      ensures out == []
    {
      out := [];
    }

    method Write(b: seq<byte>) returns (n: nat, ok: bool)
      modifies this
      ensures n <= |b| && out == old(out) + b[..n]
      ensures ok ==> n == |b|
    {
      n :| 0 <= n <= |b|;
      ok :| ok ==> n == |b|;
      out := out + b[..n];
    }
  }

  // ---------------------------------------------------------------- what the stream should become

  /** `mid` says whether the current line already has its prefix. */
  function Prefixed(prefix: seq<byte>, mid: bool, b: seq<byte>): seq<byte>
    decreases |b|
  {
    if b == [] then []
    else (if mid then [] else prefix) + [b[0]] + Prefixed(prefix, b[0] != NEWLINE, b[1..])
  }

  function MidLine(mid: bool, b: seq<byte>): bool
  {
    if b == [] then mid else b[|b| - 1] != NEWLINE
  }

  lemma Assoc<T>(a: seq<T>, b: seq<T>, c: seq<T>)
    ensures a + (b + c) == a + b + c
  {
  }

  lemma Drop<T>(a: seq<T>, b: seq<T>)
    ensures (a + b)[|a|..] == b && (a + b)[..|a|] == a
  {
  }

  lemma Rejoin<T>(a: seq<T>, whole: seq<T>)
    requires a <= whole
    ensures whole == a + whole[|a|..]
  {
  }

  lemma TakeMiddle<T>(a: seq<T>, b: seq<T>, c: seq<T>, n: nat)
    requires n <= |b|
    ensures (a + b + c)[..|a| + n] == a + b[..n]
  {
  }

  lemma {:induction false} PrefixedSplits(prefix: seq<byte>, mid: bool, a: seq<byte>, b: seq<byte>)
    ensures Prefixed(prefix, mid, a + b) == Prefixed(prefix, mid, a) + Prefixed(prefix, MidLine(mid, a), b)
    ensures MidLine(mid, a + b) == MidLine(MidLine(mid, a), b)
    decreases |a|
  {
    if a == [] {
      assert a + b == b;
    } else {
      var head, next := (if mid then [] else prefix) + [a[0]], a[0] != NEWLINE;
      PrefixedSplits(prefix, next, a[1..], b);
      assert (a + b)[0] == a[0] && (a + b)[1..] == a[1..] + b;
      assert MidLine(mid, a) == MidLine(next, a[1..]) && MidLine(mid, a + b) == MidLine(next, a[1..] + b);
      Assoc(head, Prefixed(prefix, next, a[1..]), Prefixed(prefix, MidLine(mid, a), b));
    }
  }

  /** A piece without an inner newline gets at most one prefix, in front. */
  lemma {:induction false} PrefixedPiece(prefix: seq<byte>, mid: bool, b: seq<byte>)
    requires b != [] && forall i :: 0 <= i < |b| - 1 ==> b[i] != NEWLINE
    ensures Prefixed(prefix, mid, b) == (if mid then [] else prefix) + b
    decreases |b|
  {
    if |b| > 1 {
      PrefixedPiece(prefix, true, b[1..]);
      assert b == [b[0]] + b[1..];
    } else {
      assert b == [b[0]] && b[1..] == [];
    }
  }

  // ---------------------------------------------------------------- the writer

  /** After a failure: `done` bytes of the input went through, then possibly part of a prefix. */
  ghost predicate Interrupted(prefix: seq<byte>, mid: bool, b: seq<byte>, done: nat, produced: seq<byte>)
  {
    done <= |b| && exists k :: 0 <= k <= |prefix| && produced == Prefixed(prefix, mid, b[..done]) + prefix[..k]
  }

  /** An interruption inside `piece` is one of the whole input when everything before went through. */
  lemma InterruptedLater(prefix: seq<byte>, mid: bool, a: seq<byte>, piece: seq<byte>, rest: seq<byte>,
                         done: nat, produced: seq<byte>)
    requires Interrupted(prefix, MidLine(mid, a), piece, done, produced)
    ensures Interrupted(prefix, mid, a + piece + rest, |a| + done, Prefixed(prefix, mid, a) + produced)
  {
    var part := piece[..done];
    var x, y := Prefixed(prefix, mid, a), Prefixed(prefix, MidLine(mid, a), part);
    var k :| 0 <= k <= |prefix| && produced == y + prefix[..k];
    TakeMiddle(a, piece, rest, done);
    PrefixedSplits(prefix, mid, a, part);
    Assoc(x, y, prefix[..k]);
  }

  /** Everything up to and including the first newline, or all of `b`. */
  method CutLine(b: seq<byte>) returns (piece: seq<byte>, rest: seq<byte>)
    requires b != []
    ensures b == piece + rest && piece != []
    ensures forall i :: 0 <= i < |piece| - 1 ==> piece[i] != NEWLINE
    ensures rest != [] ==> piece[|piece| - 1] == NEWLINE
  {
    var nl := 0;
    while nl < |b| && b[nl] != NEWLINE
      invariant 0 <= nl <= |b|
      invariant forall i :: 0 <= i < nl ==> b[i] != NEWLINE
    {
      nl := nl + 1;
    }
    if nl == |b| {
      piece, rest := b, [];
    } else {
      piece, rest := b[..nl + 1], b[nl + 1..];
    }
  }

  class Writer {
    const w: Sink
    const prefix: seq<byte>
    var pend: bool

    constructor (w: Sink, prefix: seq<byte>)
      ensures this.w == w && this.prefix == prefix && !pend
    {
      this.w, this.prefix, pend := w, prefix, false;
    }

    /** One turn of the loop: the prefix if it is still owed, then the bytes up to the next newline. */
    method WritePiece(piece: seq<byte>) returns (n: nat, ok: bool)
      requires piece != [] && forall i :: 0 <= i < |piece| - 1 ==> piece[i] != NEWLINE
      modifies this, w
      ensures old(w.out) <= w.out
      ensures ok ==> n == |piece| && w.out == old(w.out) + Prefixed(prefix, old(pend), piece)
      ensures ok ==> pend == MidLine(old(pend), piece)
      ensures !ok ==> Interrupted(prefix, old(pend), piece, n, w.out[|old(w.out)|..])
    {
      assert piece[..0] == [] && prefix[..|prefix|] == prefix && prefix[..0] == [];
      if !pend {
        var k, took := w.Write(prefix);
        if !took {
          assert w.out[|old(w.out)|..] == Prefixed(prefix, old(pend), []) + prefix[..k];
          return 0, false;
        }
        pend := true;
      }
      ghost var lead := if old(pend) then [] else prefix;
      assert w.out == old(w.out) + lead;
      n, ok := w.Write(piece);
      assert w.out == old(w.out) + (lead + piece[..n]);
      assert w.out[|old(w.out)|..] == lead + piece[..n];
      if n > 0 {
        PrefixedPiece(prefix, old(pend), piece[..n]);
      }
      assert n == 0 ==> lead + piece[..n] == Prefixed(prefix, old(pend), []) + prefix[..|lead|];
      assert n > 0 ==> lead + piece[..n] == Prefixed(prefix, old(pend), piece[..n]) + prefix[..0];
      if ok {
        assert piece[..n] == piece;
        pend := piece[|piece| - 1] != NEWLINE;
      }
    }

    method Write(b0: seq<byte>) returns (written: nat, ok: bool)
      modifies this, w
      ensures ok ==> written == |b0|
      ensures ok ==> w.out == old(w.out) + Prefixed(prefix, old(pend), b0) && pend == MidLine(old(pend), b0)
      ensures !ok ==> old(w.out) <= w.out && Interrupted(prefix, old(pend), b0, written, w.out[|old(w.out)|..])
    {
      var b := b0;
      written, ok := 0, true;
      ghost var start, mid := w.out, pend;
      ghost var a: seq<byte> := [];
      while |b| > 0
        invariant ok && b0 == a + b && written == |a|
        invariant w.out == start + Prefixed(prefix, mid, a) && pend == MidLine(mid, a)
        decreases |b|
      {
        var piece, rest := CutLine(b);
        Assoc(a, piece, rest);
        ghost var before := w.out;
        var n;
        n, ok := WritePiece(piece);
        written := written + n;
        ghost var made := Prefixed(prefix, mid, a);
        if !ok {
          ghost var produced := w.out[|before|..];
          Rejoin(before, w.out);
          InterruptedLater(prefix, mid, a, piece, rest, n, produced);
          Assoc(start, made, produced);
          Drop(start, made + produced);
          return;
        }
        PrefixedSplits(prefix, mid, a, piece);
        Assoc(start, made, Prefixed(prefix, MidLine(mid, a), piece));
        a := a + piece;
        b := rest;
      }
      assert a + b == a;
    }
  }

  // ---------------------------------------------------------------- what follows for whole streams

  function Flatten(chunks: seq<seq<byte>>): seq<byte>
  {
    if chunks == [] then [] else chunks[0] + Flatten(chunks[1..])
  }

  /** Write the chunks one after the other. */
  method WriteAll(p: Writer, chunks: seq<seq<byte>>) returns (ok: bool)
    modifies p, p.w
    ensures ok ==> p.w.out == old(p.w.out) + Prefixed(p.prefix, old(p.pend), Flatten(chunks))
    ensures ok ==> p.pend == MidLine(old(p.pend), Flatten(chunks))
    decreases |chunks|
  {
    if chunks == [] { return true; }
    var _, first := p.Write(chunks[0]);
    if !first { return false; }
    ok := WriteAll(p, chunks[1..]);
    PrefixedSplits(p.prefix, old(p.pend), chunks[0], Flatten(chunks[1..]));
    if ok {
      Assoc(old(p.w.out), Prefixed(p.prefix, old(p.pend), chunks[0]),
            Prefixed(p.prefix, MidLine(old(p.pend), chunks[0]), Flatten(chunks[1..])));
    }
  }

  /** Byte `i` is the first of its line: a line feed, byte 10, stands before it. */
  ghost predicate LineStart(mid: bool, b: seq<byte>, i: nat)
    requires i < |b|
  {
    if i == 0 then !mid else b[i - 1] == 10
  }

  /** The prefix stands directly before byte `i` when it starts a line, and nowhere else. */
  lemma PrefixStandsAtLineStarts(prefix: seq<byte>, mid: bool, b: seq<byte>, i: nat)
    requires i < |b|
    ensures Prefixed(prefix, mid, b) ==
      Prefixed(prefix, mid, b[..i]) + (if LineStart(mid, b, i) then prefix else []) + [b[i]]
        + Prefixed(prefix, b[i] != 10, b[i + 1..])
  {
    PrefixedSplits(prefix, mid, b[..i], b[i..]);
    assert b == b[..i] + b[i..] && b[i..][1..] == b[i + 1..];
    assert MidLine(mid, b[..i]) == !LineStart(mid, b, i);
  }

  /** Drop one prefix at each line start. */
  function Strip(prefix: seq<byte>, mid: bool, s: seq<byte>): seq<byte>
    decreases |s|
  {
    var k := if mid then 0 else |prefix|;
    if |s| <= k then [] else [s[k]] + Strip(prefix, s[k] != NEWLINE, s[k + 1..])
  }

  /** Stripping takes off the lead of the first byte and goes on behind it. */
  lemma StripOne(prefix: seq<byte>, mid: bool, x: byte, rest: seq<byte>)
    ensures Strip(prefix, mid, (if mid then [] else prefix) + [x] + rest) == [x] + Strip(prefix, x != NEWLINE, rest)
  {
    var lead := if mid then [] else prefix;
    var s := lead + [x] + rest;
    assert s[|lead|] == x && s[|lead| + 1..] == rest;
  }

  lemma {:induction false} StripUndoesPrefixed(prefix: seq<byte>, mid: bool, b: seq<byte>)
    ensures Strip(prefix, mid, Prefixed(prefix, mid, b)) == b
    decreases |b|
  {
    if b != [] {
      StripUndoesPrefixed(prefix, b[0] != NEWLINE, b[1..]);
      StripOne(prefix, mid, b[0], Prefixed(prefix, b[0] != NEWLINE, b[1..]));
    }
  }
}

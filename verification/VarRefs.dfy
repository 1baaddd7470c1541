/**
 The `$VAR` language (pkg/utils/envvars.go, internal/reconcile/envvars.go). Two hand-written
 scanners, one that lists names and one that substitutes values, are both proved against one
 grammar of texts.
 */
module VarRefs {
  import opened Wrappers

  predicate IsVarStart(c: char)
  {
    'A' <= c <= 'Z' || 'a' <= c <= 'z' || c == '_'
  }

  predicate IsVarChar(c: char)
  {
    IsVarStart(c) || '0' <= c <= '9'
  }

  // ---------------------------------------------------------------- the grammar

  /** Literal characters, references in either spelling, or an unclosed `${` and all that follows it. */
  datatype Text =
    | End
    | Lit(c: char, rest: Text)
    | Ref(name: string, braced: bool, rest: Text)
    | Unclosed(text: string)

  function Print(t: Text): string
  {
    match t
    case End => ""
    case Lit(c, rest) => [c] + Print(rest)
    case Ref(name, braced, rest) => (if braced then "${" + name + "}" else "$" + name) + Print(rest)
    case Unclosed(text) => "${" + text
  }

  /** Texts that mean what they print: nothing runs into its neighbour. */
  predicate Canonical(t: Text)
  {
    match t
    case End => true
    case Lit(c, rest) => (c == '$' ==> EndsDollar(Print(rest))) && Canonical(rest)
    case Ref(name, braced, rest) =>
      (if braced then '}' !in name else IsName(name) && EndsName(Print(rest))) && Canonical(rest)
    case Unclosed(text) => '}' !in text
  }

  predicate EndsDollar(rest: string)
  {
    rest == "" || (rest[0] != '{' && !IsVarStart(rest[0]))
  }

  predicate EndsName(rest: string)
  {
    rest == "" || !IsVarChar(rest[0])
  }

  predicate IsName(s: string)
  {
    s != "" && IsVarStart(s[0]) && forall i :: 0 <= i < |s| ==> IsVarChar(s[i])
  }

  // ---------------------------------------------------------------- the parse

  /** The first `}` at or after `i`, or the end of `s`. */
  function BraceEnd(s: string, i: nat): (j: nat)
    requires i <= |s|
    ensures i <= j <= |s| && (j < |s| ==> s[j] == '}')
    ensures forall k :: i <= k < j ==> s[k] != '}'
    decreases |s| - i
  {
    if i == |s| || s[i] == '}' then i else BraceEnd(s, i + 1)
  }

  /** The end of the run of name characters that starts at `i`. */
  function NameEnd(s: string, i: nat): (j: nat)
    requires i <= |s|
    ensures i <= j <= |s| && (j < |s| ==> !IsVarChar(s[j]))
    ensures forall k :: i <= k < j ==> IsVarChar(s[k])
    decreases |s| - i
  {
    if i == |s| || !IsVarChar(s[i]) then i else NameEnd(s, i + 1)
  }

  /** What starts at position `i`, and where the text goes on. */
  datatype Head =
    | LitHead
    | RefHead(name: string, braced: bool, next: nat)
    | UnclosedHead

  function HeadAt(s: string, i: nat): (h: Head)
    requires i < |s|
    ensures h.RefHead? ==> i < h.next <= |s|
  {
    if s[i] != '$' || i + 1 == |s| then LitHead
    else if s[i + 1] == '{' then
      var j := BraceEnd(s, i + 2);
      if j == |s| then UnclosedHead else RefHead(s[i + 2..j], true, j + 1)
    else if IsVarStart(s[i + 1]) then
      var j := NameEnd(s, i + 2);
      RefHead(s[i + 1..j], false, j)
    else LitHead
  }

  function ParseFrom(s: string, i: nat): Text
    requires i <= |s|
    decreases |s| - i
  {
    if i == |s| then End
    else
      match HeadAt(s, i)
      case LitHead => Lit(s[i], ParseFrom(s, i + 1))
      case RefHead(name, braced, next) => Ref(name, braced, ParseFrom(s, next))
      case UnclosedHead => Unclosed(s[i + 2..])
  }

  function Parse(s: string): Text
  {
    ParseFrom(s, 0)
  }

  lemma BracedHeadText(s: string, i: nat)
    requires i + 1 < |s| && s[i] == '$' && s[i + 1] == '{'
    ensures var j := BraceEnd(s, i + 2);
      if j == |s| then s[i..] == "${" + s[i + 2..] && '}' !in s[i + 2..]
      else s[i..] == "${" + s[i + 2..j] + "}" + s[j + 1..] && '}' !in s[i + 2..j]
  {
  }

  lemma PlainHeadText(s: string, i: nat)
    requires i + 1 < |s| && s[i] == '$' && IsVarStart(s[i + 1])
    ensures var j := NameEnd(s, i + 2);
      s[i..] == "$" + s[i + 1..j] + s[j..] && IsName(s[i + 1..j]) && EndsName(s[j..])
  {
  }

  lemma {:induction false} ParseFromRoundTrip(s: string, i: nat)
    requires i <= |s|
    ensures Print(ParseFrom(s, i)) == s[i..] && Canonical(ParseFrom(s, i))
    decreases |s| - i
  {
    if i < |s| {
      match HeadAt(s, i)
      case LitHead =>
        ParseFromRoundTrip(s, i + 1);
        assert s[i..] == [s[i]] + s[i + 1..];
      case RefHead(_, braced, next) =>
        if braced { BracedHeadText(s, i); } else { PlainHeadText(s, i); }
        ParseFromRoundTrip(s, next);
      case UnclosedHead =>
        BracedHeadText(s, i);
    }
  }

  lemma ParseRoundTrip(s: string)
    ensures Print(Parse(s)) == s && Canonical(Parse(s))
  {
    ParseFromRoundTrip(s, 0);
    assert s[0..] == s;
  }

  lemma {:induction false} BraceEndIs(s: string, i: nat, j: nat)
    requires i <= j <= |s| && (j < |s| ==> s[j] == '}')
    requires forall k :: i <= k < j ==> s[k] != '}'
    ensures BraceEnd(s, i) == j
    decreases j - i
  {
    if i < j { BraceEndIs(s, i + 1, j); }
  }

  lemma {:induction false} NameEndIs(s: string, i: nat, j: nat)
    requires i <= j <= |s| && (j < |s| ==> !IsVarChar(s[j]))
    requires forall k :: i <= k < j ==> IsVarChar(s[k])
    ensures NameEnd(s, i) == j
    decreases j - i
  {
    if i < j { NameEndIs(s, i + 1, j); }
  }

  lemma ReadsLit(pre: string, c: char, rest: string)
    requires c == '$' ==> EndsDollar(rest)
    ensures var s := pre + [c] + rest; ParseFrom(s, |pre|) == Lit(c, ParseFrom(s, |pre + [c]|))
  {
  }

  lemma ReadsBraced(pre: string, name: string, rest: string)
    requires '}' !in name
    ensures var s := pre + ("${" + name + "}") + rest;
      ParseFrom(s, |pre|) == Ref(name, true, ParseFrom(s, |pre + ("${" + name + "}")|))
  {
    var s, from := pre + ("${" + name + "}") + rest, |pre| + 2;
    assert forall k :: from <= k < from + |name| ==> s[k] == name[k - from];
    BraceEndIs(s, from, from + |name|);
    assert s[from..from + |name|] == name;
  }

  lemma ReadsPlain(pre: string, name: string, rest: string)
    requires IsName(name) && EndsName(rest)
    ensures var s := pre + ("$" + name) + rest;
      ParseFrom(s, |pre|) == Ref(name, false, ParseFrom(s, |pre + ("$" + name)|))
  {
    var s, from := pre + ("$" + name) + rest, |pre| + 1;
    assert forall k :: from <= k < from + |name| ==> s[k] == name[k - from];
    NameEndIs(s, from + 1, from + |name|);
    assert s[from..from + |name|] == name;
  }

  lemma ReadsUnclosed(pre: string, text: string)
    requires '}' !in text
    ensures ParseFrom(pre + "${" + text, |pre|) == Unclosed(text)
  {
    var s, from := pre + "${" + text, |pre| + 2;
    assert forall k :: from <= k < |s| ==> s[k] == text[k - from];
    BraceEndIs(s, from, |s|);
    assert s[from..] == text;
  }

  lemma Regroup(pre: string, piece: string, rest: string)
    ensures pre + (piece + rest) == pre + piece + rest
  {
  }

  lemma {:induction false} OnlyReadingAfter(pre: string, t: Text)
    requires Canonical(t)
    ensures ParseFrom(pre + Print(t), |pre|) == t
    decreases t
  {
    match t
    case End =>
    case Lit(c, rest) =>
      Regroup(pre, [c], Print(rest));
      ReadsLit(pre, c, Print(rest));
      OnlyReadingAfter(pre + [c], rest);
    case Ref(name, braced, rest) =>
      var piece := if braced then "${" + name + "}" else "$" + name;
      Regroup(pre, piece, Print(rest));
      if braced { ReadsBraced(pre, name, Print(rest)); } else { ReadsPlain(pre, name, Print(rest)); }
      OnlyReadingAfter(pre + piece, rest);
    case Unclosed(text) =>
      Regroup(pre, "${", text);
      ReadsUnclosed(pre, text);
  }

  /** The parse is the only canonical reading of a string. */
  lemma OnlyReading(t: Text)
    requires Canonical(t)
    ensures Parse(Print(t)) == t
  {
    assert "" + Print(t) == Print(t);
    OnlyReadingAfter("", t);
  }

  // ---------------------------------------------------------------- listing names

  function Refs(t: Text): seq<string>
  {
    match t
    case End => []
    case Lit(_, rest) => Refs(rest)
    case Ref(name, _, rest) => [name] + Refs(rest)
    case Unclosed(_) => []
  }

  predicate Closed(t: Text)
  {
    match t
    case End => true
    case Lit(_, rest) => Closed(rest)
    case Ref(_, _, rest) => Closed(rest)
    case Unclosed(_) => false
  }

  /** `indexByte`. */
  method IndexByte(s: string, c: char) returns (r: int)
    ensures -1 <= r < |s| && (r >= 0 ==> s[r] == c)
    ensures forall k :: 0 <= k < (if r < 0 then |s| else r) ==> s[k] != c
  {
    for i := 0 to |s|
      invariant forall k :: 0 <= k < i ==> s[k] != c
    {
      if s[i] == c { return i; }
    }
    return -1;
  }

  /** `indexByte(s[from:], '}')`, as a position of `s`. */
  method FindBrace(s: string, from: nat) returns (end: int)
    requires from <= |s|
    ensures end < 0 ==> BraceEnd(s, from) == |s|
    ensures end >= 0 ==> BraceEnd(s, from) == from + end < |s|
  {
    end := IndexByte(s[from..], '}');
    var j := if end < 0 then |s| else from + end;
    assert forall k :: from <= k < j ==> s[k] == s[from..][k - from];
    BraceEndIs(s, from, j);
  }

  /** The name-character loop both scanners run after `$` and a first letter. */
  method ScanName(s: string, from: nat) returns (j: nat)
    requires from <= |s|
    ensures j == NameEnd(s, from)
  {
    j := from;
    while j < |s| && IsVarChar(s[j])
      invariant from <= j <= |s|
      invariant forall k :: from <= k < j ==> IsVarChar(s[k])
    {
      j := j + 1;
    }
    NameEndIs(s, from, j);
  }

  /** All names of the string once `refs` are collected and scanning stands at `i`. */
  ghost function Collected(refs: seq<string>, s: string, i: nat): seq<string>
    requires i <= |s|
  {
    refs + Refs(ParseFrom(s, i))
  }

  lemma CollectStep(refs: seq<string>, s: string, i: nat, found: seq<string>, next: nat)
    requires i < |s|
    requires match HeadAt(s, i)
      case LitHead => found == [] && next == i + 1
      case RefHead(name, _, after) => found == [name] && next == after
      case UnclosedHead => false
    ensures next <= |s| && Collected(refs + found, s, next) == Collected(refs, s, i)
  {
    assert (refs + found) + Refs(ParseFrom(s, next)) == refs + (found + Refs(ParseFrom(s, next)));
  }

  /** The names one turn of the scan adds, and where it goes on; nothing at an unclosed brace. */
  ghost function FoundAt(s: string, i: nat): Option<(seq<string>, nat)>
    requires i < |s|
  {
    match HeadAt(s, i)
    case LitHead => Some(([], i + 1))
    case RefHead(name, _, after) => Some(([name], after))
    case UnclosedHead => None
  }

  lemma FoundSteps(refs: seq<string>, s: string, i: nat)
    requires i < |s|
    ensures match FoundAt(s, i)
      case Some((found, next)) => i < next <= |s| && Collected(refs + found, s, next) == Collected(refs, s, i)
      case None => Collected(refs, s, i) == refs
  {
    match FoundAt(s, i)
    case Some((found, next)) => CollectStep(refs, s, i, found, next);
    case None =>
  }

  /** The body of the scan. */
  method NextName(s: string, i: nat) returns (r: Option<(seq<string>, nat)>)
    requires i < |s|
    ensures r == FoundAt(s, i)
  {
    if s[i] != '$' || i + 1 >= |s| {
      return Some(([], i + 1));
    }
    var next := s[i + 1];
    if next == '{' {
      var end := FindBrace(s, i + 2);
      if end < 0 {
        return None;
      }
      return Some(([s[i + 2..i + 2 + end]], i + 2 + end + 1));
    }
    if IsVarStart(next) {
      var j := ScanName(s, i + 2);
      return Some(([s[i + 1..j]], j));
    }
    return Some(([], i + 1));
  }

  method ExtractVarRefs(s: string) returns (refs: seq<string>)
    ensures refs == Refs(Parse(s))
  {
    refs := [];
    var i := 0;
    while i < |s|
      invariant 0 <= i <= |s|
      invariant Collected(refs, s, i) == Refs(Parse(s))
    {
      FoundSteps(refs, s, i);
      var found := NextName(s, i);
      if found.None? { return; }
      refs, i := refs + found.value.0, found.value.1;
    }
  }

  predicate AllLiteral(t: Text)
  {
    t.End? || (t.Lit? && AllLiteral(t.rest))
  }

  /** The first thing in the text that is not a literal is an unclosed `${`. */
  predicate FirstReferenceUnclosed(t: Text)
  {
    t.Unclosed? || (t.Lit? && FirstReferenceUnclosed(t.rest))
  }

  lemma {:induction false} ReferenceOrUnclosed(t: Text)
    ensures !AllLiteral(t) <==> Refs(t) != [] || FirstReferenceUnclosed(t)
  {
    if t.Lit? { ReferenceOrUnclosed(t.rest); }
  }

  method HasVarRef(s: string) returns (has: bool)
    ensures has <==> !AllLiteral(Parse(s))
    ensures has <==> Refs(Parse(s)) != [] || FirstReferenceUnclosed(Parse(s))
  {
    ReferenceOrUnclosed(Parse(s));
    for i := 0 to |s|
      invariant AllLiteral(Parse(s)) <==> AllLiteral(ParseFrom(s, i))
    {
      if s[i] == '$' && i + 1 < |s| {
        var next := s[i + 1];
        if next == '{' || IsVarStart(next) {
          return true;
        }
      }
    }
    return false;
  }

  // ---------------------------------------------------------------- substituting values

  datatype Error = UnclosedBrace | UnknownVar(name: string)

  type Sources = map<string, string>

  /** Left to right: literals stay, each name is looked up once, the first failure wins. */
  function Resolve(t: Text, sources: Sources): Result<string, Error>
  {
    match t
    case End => Ok("")
    case Lit(c, rest) => Prepend([c], Resolve(rest, sources))
    case Ref(name, _, rest) =>
      if name !in sources then Err(UnknownVar(name)) else Prepend(sources[name], Resolve(rest, sources))
    case Unclosed(_) => Err(UnclosedBrace)
  }

  function Prepend(text: string, r: Result<string, Error>): Result<string, Error>
  {
    if r.Ok? then Ok(text + r.value) else r
  }

  /** Literal pieces and substituted values, concatenated; values are not scanned again. */
  function Substitute(t: Text, sources: Sources): string
  {
    match t
    case End => ""
    case Lit(c, rest) => [c] + Substitute(rest, sources)
    case Ref(name, _, rest) => (if name in sources then sources[name] else "") + Substitute(rest, sources)
    case Unclosed(_) => ""
  }

  lemma {:induction false} ResolveSucceedsExactly(t: Text, sources: Sources)
    ensures Resolve(t, sources).Ok? <==> Closed(t) && forall n :: n in Refs(t) ==> n in sources
    ensures Resolve(t, sources).Ok? ==> Resolve(t, sources).value == Substitute(t, sources)
  {
    match t
    case End =>
    case Lit(_, rest) => ResolveSucceedsExactly(rest, sources);
    case Ref(name, _, rest) =>
      ResolveSucceedsExactly(rest, sources);
      assert name in Refs(t) && forall n :: n in Refs(rest) ==> n in Refs(t);
    case Unclosed(_) =>
  }

  /** The outcome, errors included, depends on the sources only at the listed names. */
  lemma {:induction false} ResolveReadsOnlyRefs(t: Text, a: Sources, b: Sources)
    requires forall n :: n in Refs(t) ==> (n in a <==> n in b) && (n in a ==> a[n] == b[n])
    ensures Resolve(t, a) == Resolve(t, b)
  {
    match t
    case End =>
    case Lit(_, rest) => ResolveReadsOnlyRefs(rest, a, b);
    case Ref(name, _, rest) =>
      assert name in Refs(t);
      ResolveReadsOnlyRefs(rest, a, b);
    case Unclosed(_) =>
  }

  lemma {:induction false} LiteralIsVerbatim(t: Text, sources: Sources)
    requires AllLiteral(t)
    ensures Resolve(t, sources) == Ok(Print(t))
  {
    if t.Lit? { LiteralIsVerbatim(t.rest, sources); }
  }

  /** What the whole value resolves to once `b` is built and scanning stands at `i`. */
  ghost function Outcome(b: string, val: string, i: nat, sources: Sources): Result<string, Error>
    requires i <= |val|
  {
    Prepend(b, Resolve(ParseFrom(val, i), sources))
  }

  lemma WriteStep(b: string, val: string, i: nat, sources: Sources, text: string, next: nat)
    requires i < |val|
    requires match HeadAt(val, i)
      case LitHead => text == [val[i]] && next == i + 1
      case RefHead(name, _, after) => name in sources && text == sources[name] && next == after
      case UnclosedHead => false
    ensures next <= |val| && Outcome(b + text, val, next, sources) == Outcome(b, val, i, sources)
  {
    var r := Resolve(ParseFrom(val, next), sources);
    if r.Ok? { assert (b + text) + r.value == b + (text + r.value); }
  }

  method ResolveRef(val: string, sources: Sources) returns (r: Result<string, Error>)
    ensures r == Resolve(Parse(val), sources)
    ensures r.Ok? <==> Closed(Parse(val)) && forall n :: n in Refs(Parse(val)) ==> n in sources
    ensures r.Ok? ==> r.value == Substitute(Parse(val), sources)
  {
    ResolveSucceedsExactly(Parse(val), sources);
    var has := HasVarRef(val);
    if !has {
      LiteralIsVerbatim(Parse(val), sources);
      ParseRoundTrip(val);
      return Ok(val);
    }
    r := Substituted(val, sources);
  }

  /** What one turn of the loop writes, and where it goes on. */
  ghost function PieceAt(val: string, i: nat, sources: Sources): Result<(string, nat), Error>
    requires i < |val|
  {
    match HeadAt(val, i)
    case LitHead => Ok(([val[i]], i + 1))
    case RefHead(name, _, after) => if name in sources then Ok((sources[name], after)) else Err(UnknownVar(name))
    case UnclosedHead => Err(UnclosedBrace)
  }

  lemma PieceSteps(b: string, val: string, i: nat, sources: Sources)
    requires i < |val|
    ensures match PieceAt(val, i, sources)
      case Ok((text, next)) => i < next <= |val| && Outcome(b + text, val, next, sources) == Outcome(b, val, i, sources)
      case Err(e) => Outcome(b, val, i, sources) == Err(e)
  {
    match PieceAt(val, i, sources)
    case Ok((text, next)) => WriteStep(b, val, i, sources, text, next);
    case Err(_) =>
  }

  /** The body of the loop of `resolveRef`. */
  method NextPiece(val: string, i: nat, sources: Sources) returns (r: Result<(string, nat), Error>)
    requires i < |val|
    ensures r == PieceAt(val, i, sources)
  {
    if val[i] != '$' || i + 1 >= |val| {
      return Ok(([val[i]], i + 1));
    }
    var next := val[i + 1];
    if next == '{' {
      var end := FindBrace(val, i + 2);
      if end < 0 {
        return Err(UnclosedBrace);
      }
      var varName := val[i + 2..i + 2 + end];
      if varName !in sources {
        return Err(UnknownVar(varName));
      }
      return Ok((sources[varName], i + 2 + end + 1));
    }
    if IsVarStart(next) {
      var j := ScanName(val, i + 2);
      var varName := val[i + 1..j];
      if varName !in sources {
        return Err(UnknownVar(varName));
      }
      return Ok((sources[varName], j));
    }
    return Ok(([val[i]], i + 1));
  }

  /** The loop of `resolveRef`, with its string builder `b`. */
  method Substituted(val: string, sources: Sources) returns (r: Result<string, Error>)
    ensures r == Resolve(Parse(val), sources)
  {
    var b, i := "", 0;
    EmptyBuilder(Resolve(Parse(val), sources));
    while i < |val|
      invariant 0 <= i <= |val|
      invariant Outcome(b, val, i, sources) == Resolve(Parse(val), sources)
    {
      PieceSteps(b, val, i, sources);
      var piece := NextPiece(val, i, sources);
      if piece.Err? { return Err(piece.error); }
      b, i := b + piece.value.0, piece.value.1;
    }
    assert b + "" == b;
    return Ok(b);
  }

  lemma EmptyBuilder(r: Result<string, Error>)
    ensures Prepend("", r) == r
  {
    if r.Ok? { assert "" + r.value == r.value; }
  }

  // ---------------------------------------------------------------- the language, piece by piece

  /** A letter or underscore, then letters, digits and underscores. */
  ghost predicate IsIdentifier(name: string)
  {
    && name != "" && !('0' <= name[0] <= '9')
    && forall i :: 0 <= i < |name| ==>
         'A' <= name[i] <= 'Z' || 'a' <= name[i] <= 'z' || name[i] == '_' || '0' <= name[i] <= '9'
  }

  /** The next character, if there is one, could not stand inside a name. */
  ghost predicate StopsName(rest: string)
  {
    rest == "" || !('A' <= rest[0] <= 'Z' || 'a' <= rest[0] <= 'z' || rest[0] == '_' || '0' <= rest[0] <= '9')
  }

  /** What follows a piece reads as it would on its own. */
  lemma ReadsAlone(pre: string, rest: string)
    ensures ParseFrom(pre + rest, |pre|) == Parse(rest)
  {
    ParseRoundTrip(rest);
    OnlyReadingAfter(pre, Parse(rest));
  }

  /** A name after `$` reaches exactly as far as its letters, digits and underscores do. */
  lemma PlainReference(name: string, rest: string, sources: Sources)
    requires IsIdentifier(name) && StopsName(rest)
    ensures Refs(Parse("$" + name + rest)) == [name] + Refs(Parse(rest))
    ensures Resolve(Parse("$" + name + rest), sources) ==
      if name !in sources then Err(UnknownVar(name))
      else if Resolve(Parse(rest), sources).Err? then Resolve(Parse(rest), sources)
      else Ok(sources[name] + Resolve(Parse(rest), sources).value)
  {
    ReadsPlain("", name, rest);
    ReadsAlone("$" + name, rest);
    assert "" + ("$" + name) + rest == "$" + name + rest && "" + ("$" + name) == "$" + name;
  }

  /** Between braces anything but a closing brace is a name. */
  lemma BracedReference(name: string, rest: string, sources: Sources)
    requires '}' !in name
    ensures Refs(Parse("${" + name + "}" + rest)) == [name] + Refs(Parse(rest))
    ensures Resolve(Parse("${" + name + "}" + rest), sources) ==
      if name !in sources then Err(UnknownVar(name))
      else if Resolve(Parse(rest), sources).Err? then Resolve(Parse(rest), sources)
      else Ok(sources[name] + Resolve(Parse(rest), sources).value)
  {
    var piece := "${" + name + "}";
    ReadsBraced("", name, rest);
    ReadsAlone(piece, rest);
    assert "" + piece + rest == piece + rest && "" + piece == piece;
  }

  /** A brace that is never closed hides all that follows it from the listing, and is an error when resolving. */
  lemma OpenReference(text: string, sources: Sources)
    requires '}' !in text
    ensures Refs(Parse("${" + text)) == [] && Resolve(Parse("${" + text), sources) == Err(UnclosedBrace)
  {
    ReadsUnclosed("", text);
    assert "" + "${" + text == "${" + text;
  }

  /** Every other character stays: any but a dollar sign, and a dollar sign that no name and no brace follows. */
  lemma LiteralCharacter(c: char, rest: string, sources: Sources)
    requires c == '$' && rest != "" ==>
      rest[0] != '{' && rest[0] != '_' && !('A' <= rest[0] <= 'Z') && !('a' <= rest[0] <= 'z')
    ensures Refs(Parse([c] + rest)) == Refs(Parse(rest))
    ensures Resolve(Parse([c] + rest), sources) ==
      if Resolve(Parse(rest), sources).Err? then Resolve(Parse(rest), sources)
      else Ok([c] + Resolve(Parse(rest), sources).value)
  {
    ReadsLit("", c, rest);
    ReadsAlone([c], rest);
    assert "" + [c] + rest == [c] + rest && "" + [c] == [c];
  }

  // ---------------------------------------------------------------- one spelling

  /** Every reference spelled `${NAME}`. */
  function Brace(t: Text): Text
  {
    match t
    case Lit(c, rest) => Lit(c, Brace(rest))
    case Ref(name, _, rest) => Ref(name, true, Brace(rest))
    case _ => t
  }

  function BraceAll(s: string): string
  {
    Print(Brace(Parse(s)))
  }

  lemma {:induction false} BraceKeepsMeaning(t: Text)
    requires Canonical(t)
    ensures Canonical(Brace(t)) && Refs(Brace(t)) == Refs(t) && Brace(Brace(t)) == Brace(t)
    ensures Print(t) == "" <==> Print(Brace(t)) == ""
    ensures Print(t) != "" ==> Print(Brace(t))[0] == Print(t)[0]
  {
    if t.Lit? || t.Ref? {
      BraceKeepsMeaning(t.rest);
    }
  }

  lemma {:induction false} BraceKeepsValue(t: Text, sources: Sources)
    ensures Resolve(Brace(t), sources) == Resolve(t, sources)
  {
    if t.Lit? || t.Ref? {
      BraceKeepsValue(t.rest, sources);
    }
  }

  /** Rewriting changes neither the names nor what the value resolves to, and one pass is enough. */
  lemma BraceAllIsHarmless(s: string, sources: Sources)
    ensures Refs(Parse(BraceAll(s))) == Refs(Parse(s))
    ensures BraceAll(BraceAll(s)) == BraceAll(s)
    ensures Resolve(Parse(BraceAll(s)), sources) == Resolve(Parse(s), sources)
  {
    ParseRoundTrip(s);
    BraceKeepsMeaning(Parse(s));
    BraceKeepsValue(Parse(s), sources);
    OnlyReading(Brace(Parse(s)));
  }
}

/** Image references (internal/reconcile/image.go) and the deploy hash the planner strips (plan.go:403-409). */
module Images {
  import opened Decimal
  import opened Strings
  import opened Wrappers

  /** `strings.Contains`. */
  predicate Contains(s: string, sub: string)
    decreases |s|
  {
    sub <= s || (s != "" && Contains(s[1..], sub))
  }

  const DIGEST_MARK := "@sha256:"

  predicate DigestPinned(image: string)
  {
    Contains(image, DIGEST_MARK)
  }

  function AfterLast(s: string, c: char): (r: string)
    ensures c !in r
  {
    if s == "" then ""
    else if s[|s| - 1] == c then ""
    else AfterLast(s[..|s| - 1], c) + [s[|s| - 1]]
  }

  /** The tag: what follows the first colon after the last slash, unless a digest is pinned. */
  function ImageTag(image: string): string
  {
    if DigestPinned(image) then ""
    else
      match Cut(AfterLast(image, '/'), ':')
      case None => ""
      case Some((_, tag)) => tag
  }

  /** The registry host of an image: a first path segment that is `localhost` or has a dot or a colon. */
  function ImageRegistryHost(image: string): string
  {
    match Cut(image, '/')
    case None => ""
    case Some((first, _)) => if first == "localhost" || '.' in first || ':' in first then first else ""
  }

  datatype Error = NoImage | UnknownRegistry(host: string) | NoRegistry | AmbiguousRegistry | EmptyHash

  lemma SoleMember(s: set<string>)
    requires |s| == 1
    ensures exists h :: h in s && s == {h}
  {
    var h :| h in s;
    assert |s - {h}| == 0;
    assert s == {h};
  }

  function Only(s: set<string>): (h: string)
    requires |s| == 1
    ensures s == {h}
  {
    SoleMember(s);
    var h :| h in s && s == {h};
    h
  }

  /** The reference of a built service before the deploy hash goes on. */
  function Hosted(image: string, registries: set<string>): Result<string, Error>
  {
    var host := ImageRegistryHost(image);
    if image == "" then Err(NoImage)
    else if host != "" then if host in registries then Ok(image) else Err(UnknownRegistry(host))
    else if |registries| == 0 then Err(NoRegistry)
    else if |registries| == 1 then Ok(Only(registries) + "/" + image)
    else Err(AmbiguousRegistry)
  }

  function Stamped(image: string, hash: string): string
  {
    if DigestPinned(image) then image
    else if ImageTag(image) != "" then image + ['-'] + hash
    else image + [':'] + hash
  }

  /** `ResolveImage`; `built` says that the service has a build context. */
  function ResolveImage(image: string, built: bool, registries: set<string>, hash: string): Result<string, Error>
  {
    if !built then Ok(image)
    else
      match Hosted(image, registries)
      case Err(e) => Err(e)
      case Ok(hosted) => if hash == "" then Err(EmptyHash) else Ok(Stamped(hosted, hash))
  }

  // ---------------------------------------------------------------- the hash

  /** `YYYYMMDD-HHMMSS`. */
  predicate IsHash(h: string)
  {
    |h| == 15 && h[8] == '-' && forall i :: 0 <= i < 15 && i != 8 ==> IsDigit(h[i])
  }

  predicate EndsInHash(image: string)
  {
    |image| >= 16 && image[|image| - 16] in {'-', ':'} && IsHash(image[|image| - 15..])
  }

  /** `stripDeployHash`: the pattern is anchored at the end and has one length, so it matches there or nowhere. */
  function StripDeployHash(image: string): string
  {
    if EndsInHash(image) then image[..|image| - 16] else image
  }

  lemma StripsItsHash(image: string, sep: char, hash: string)
    requires sep in {'-', ':'} && IsHash(hash)
    ensures StripDeployHash(image + [sep] + hash) == image
  {
    var s := image + [sep] + hash;
    assert s[|s| - 15..] == hash && s[..|s| - 16] == image;
  }

  /** The hash cancels: whatever two deploys stamp, the stripped references agree. */
  lemma HashCancels(image: string, built: bool, registries: set<string>, h1: string, h2: string)
    requires IsHash(h1) && IsHash(h2)
    ensures var a, b := ResolveImage(image, built, registries, h1), ResolveImage(image, built, registries, h2);
      && (a.Ok? <==> b.Ok?)
      && (a.Ok? ==> StripDeployHash(a.value) == StripDeployHash(b.value))
  {
    if built && Hosted(image, registries).Ok? {
      var hosted := Hosted(image, registries).value;
      StripsItsHash(hosted, '-', h1);
      StripsItsHash(hosted, '-', h2);
      StripsItsHash(hosted, ':', h1);
      StripsItsHash(hosted, ':', h2);
    }
  }

  /** Stripping gives back the reference the user wrote, host filled in, unless it is pinned by digest. */
  lemma StripGivesHosted(image: string, registries: set<string>, hash: string)
    requires IsHash(hash) && Hosted(image, registries).Ok? && !DigestPinned(Hosted(image, registries).value)
    ensures ResolveImage(image, true, registries, hash).Ok?
    ensures StripDeployHash(ResolveImage(image, true, registries, hash).value) == Hosted(image, registries).value
  {
    var hosted := Hosted(image, registries).value;
    StripsItsHash(hosted, '-', hash);
    StripsItsHash(hosted, ':', hash);
  }

  /** Two deploys of a built service ship different references exactly when no digest is pinned. */
  lemma EveryDeployShipsANewReference(image: string, registries: set<string>, h1: string, h2: string)
    requires h1 != "" && h2 != "" && h1 != h2 && Hosted(image, registries).Ok?
    ensures ResolveImage(image, true, registries, h1) != ResolveImage(image, true, registries, h2)
      <==> !DigestPinned(Hosted(image, registries).value)
  {
    var hosted := Hosted(image, registries).value;
    if !DigestPinned(hosted) {
      var sep := if ImageTag(hosted) != "" then '-' else ':';
      var a, b := hosted + [sep] + h1, hosted + [sep] + h2;
      assert a[|hosted| + 1..] == h1 && b[|hosted| + 1..] == h2;
    }
  }

  // ---------------------------------------------------------------- references, part by part

  ghost predicate StandsAt(s: string, sub: string, i: int)
  {
    0 <= i <= |s| - |sub| && s[i..i + |sub|] == sub
  }

  lemma StandsFurther(s: string, sub: string, i: int)
    requires s != ""
    ensures i >= 0 ==> (StandsAt(s[1..], sub, i) <==> StandsAt(s, sub, i + 1))
    ensures StandsAt(s, sub, 0) <==> sub <= s
  {
    if 0 <= i && i + 1 + |sub| <= |s| {
      assert s[1..][i..i + |sub|] == s[i + 1..i + 1 + |sub|];
    }
  }

  lemma {:induction false} ContainsSomewhere(s: string, sub: string)
    ensures Contains(s, sub) <==> exists i :: StandsAt(s, sub, i)
    decreases |s|
  {
    if s == "" {
      assert sub == "" ==> StandsAt(s, sub, 0);
    } else {
      ContainsSomewhere(s[1..], sub);
      StandsFurther(s, sub, 0);
      forall i | StandsAt(s, sub, i) && i > 0 ensures StandsAt(s[1..], sub, i - 1) {
        StandsFurther(s, sub, i - 1);
      }
      if i :| StandsAt(s[1..], sub, i) {
        StandsFurther(s, sub, i);
      }
    }
  }

  /** The part of a reference before its last segment: nothing, or everything up to and with a slash. */
  ghost predicate IsPath(path: string)
  {
    path == "" || path[|path| - 1] == '/'
  }

  lemma {:induction false} AfterLastIs(path: string, last: string)
    requires IsPath(path) && '/' !in last
    ensures AfterLast(path + last, '/') == last
    decreases |last|
  {
    var s := path + last;
    if last != "" {
      assert s[..|s| - 1] == path + last[..|last| - 1];
      AfterLastIs(path, last[..|last| - 1]);
      assert last == last[..|last| - 1] + [last[|last| - 1]];
    }
  }

  /** Where the deploy hash goes: after a colon, or after a hyphen if there is a tag; a pinned digest takes none. */
  lemma HashGoesLast(image: string, registries: set<string>, path: string, name: string, tag: string, hash: string)
    requires IsPath(path) && '/' !in name && ':' !in name && '/' !in tag && tag != "" && hash != ""
    ensures Hosted(image, registries) == Ok(path + name) && !Contains(path + name, "@sha256:") ==>
      ResolveImage(image, true, registries, hash) == Ok(path + name + ":" + hash)
    ensures var tagged := path + (name + ":" + tag);
      Hosted(image, registries) == Ok(tagged) && !Contains(tagged, "@sha256:") ==>
        ResolveImage(image, true, registries, hash) == Ok(tagged + "-" + hash)
  {
    AfterLastIs(path, name);
    AfterLastIs(path, name + ":" + tag);
    assert name + ":" + tag == name + [':'] + tag;
    CutIs(name, ':', tag);
  }

  /** What is left as it is: an image nobody builds, and one that is pinned by digest. A build needs a hash. */
  lemma VerbatimImages(image: string, registries: set<string>, hash: string)
    ensures ResolveImage(image, false, registries, hash) == Ok(image)
    ensures Contains(image, "@sha256:") ==> ImageTag(image) == ""
    ensures Hosted(image, registries).Ok? && Contains(Hosted(image, registries).value, "@sha256:") && hash != "" ==>
      ResolveImage(image, true, registries, hash) == Hosted(image, registries)
    ensures Hosted(image, registries).Ok? && hash == "" ==>
      ResolveImage(image, true, registries, hash) == Err(EmptyHash)
    ensures Hosted(image, registries).Err? ==>
      ResolveImage(image, true, registries, hash) == Hosted(image, registries)
  {
  }

  /** A first segment that names a registry. */
  ghost predicate LooksLikeHost(segment: string)
  {
    segment == "localhost" || '.' in segment || ':' in segment
  }

  /** An image without a registry of its own goes to the only one there is. */
  ghost predicate GoesToTheOnlyRegistry(image: string, registries: set<string>)
  {
    && (registries == {} ==> Hosted(image, registries) == Err(NoRegistry))
    && (forall h :: registries == {h} ==> Hosted(image, registries) == Ok(h + "/" + image))
    && (forall g, h :: g in registries && h in registries && g != h ==>
         Hosted(image, registries) == Err(AmbiguousRegistry))
  }

  lemma OneOrMany(registries: set<string>)
    ensures forall g, h :: g in registries && h in registries && g != h ==> |registries| >= 2
  {
    forall g, h | g in registries && h in registries && g != h ensures |registries| >= 2 {
      assert {g, h} <= registries && |registries - {g, h}| == |registries| - 2;
    }
  }

  /** Which registry the image of a built service goes to, read off its first segment. */
  lemma HostComesFirst(segment: string, rest: string, registries: set<string>)
    requires '/' !in segment
    ensures var image := segment + "/" + rest;
      if LooksLikeHost(segment) then
        Hosted(image, registries) == if segment in registries then Ok(image) else Err(UnknownRegistry(segment))
      else GoesToTheOnlyRegistry(image, registries)
    ensures segment != "" ==> GoesToTheOnlyRegistry(segment, registries)
    ensures Hosted("", registries) == Err(NoImage)
  {
    OneOrMany(registries);
    assert segment + "/" + rest == segment + ['/'] + rest;
    CutIs(segment, '/', rest);
  }

  /** What the planner strips: one separator, eight digits, a hyphen and six digits at the very end. */
  lemma StripsExactlyHashes(image: string)
    ensures StripDeployHash(image) != image <==>
      |image| >= 16 && (image[|image| - 16] == '-' || image[|image| - 16] == ':') && image[|image| - 7] == '-'
      && forall i :: |image| - 15 <= i < |image| && i != |image| - 7 ==> '0' <= image[i] <= '9'
    ensures StripDeployHash(image) != image ==> StripDeployHash(image) == image[..|image| - 16]
  {
    if |image| >= 16 {
      var h := image[|image| - 15..];
      assert forall i :: 0 <= i < 15 ==> h[i] == image[|image| - 15 + i];
      forall i | |image| - 15 <= i < |image| ensures image[i] == h[i - (|image| - 15)] {
      }
    }
  }
}

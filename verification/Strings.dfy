/** Go's `strings.Cut` on a one-character separator. */
module Strings {
  import opened Wrappers

  /** Text before and after the first `sep`. */
  function Cut(s: string, sep: char): (r: Option<(string, string)>)
    ensures r.None? <==> sep !in s
    ensures r.Some? ==> s == r.value.0 + [sep] + r.value.1 && sep !in r.value.0
  {
    if s == "" then None
    else if s[0] == sep then
      assert s == [] + [sep] + s[1..];
      Some(("", s[1..]))
    else
      assert s == [s[0]] + s[1..];
      match Cut(s[1..], sep)
      case None => None
      case Some((before, after)) =>
        assert s == ([s[0]] + before) + [sep] + after;
        Some(([s[0]] + before, after))
  }

  lemma {:induction false} CutIs(before: string, sep: char, after: string)
    requires sep !in before
    ensures Cut(before + [sep] + after, sep) == Some((before, after))
  {
    var s := before + [sep] + after;
    if before == "" {
      assert s[1..] == after;
    } else {
      CutIs(before[1..], sep, after);
      assert s[1..] == before[1..] + [sep] + after;
      assert before == [before[0]] + before[1..];
    }
  }
}

/** Searching a string for a separator character and splitting it there.
    The log-entry strings the extension builds (`host:port`, the request
    line, the URL, the trace name) are joins around a separator; these
    functions read them back, and the join lemmas say when that recovers
    the parts. */
module Strings {
  import opened RubyValues

  /** The position of the first `c` in `s`, if any. */
  function IndexOf(s: string, c: char): (r: Option<nat>)
    ensures r.Some? ==> r.value < |s| && s[r.value] == c && c !in s[..r.value]
    ensures r.None? ==> c !in s
  {
    if |s| == 0 then None
    else if s[0] == c then Some(0)
    else
      match IndexOf(s[1..], c)
      case None => None
      case Some(i) =>
        assert s[..i + 1] == [s[0]] + s[1..][..i];
        Some(i + 1)
  }

  /** The position of the last `c` in `s`, if any. */
  function LastIndexOf(s: string, c: char): (r: Option<nat>)
    ensures r.Some? ==> r.value < |s| && s[r.value] == c && c !in s[r.value + 1..]
    ensures r.None? ==> c !in s
  {
    if |s| == 0 then None
    else if s[|s| - 1] == c then Some(|s| - 1)
    else
      match LastIndexOf(s[..|s| - 1], c)
      case None =>
        assert s == s[..|s| - 1] + [s[|s| - 1]];
        None
      case Some(i) =>
        assert s[i + 1..] == s[..|s| - 1][i + 1..] + [s[|s| - 1]];
        Some(i)
  }

  /** `s` cut at its first `c`: the part before and the part after it. */
  function SplitFirst(s: string, c: char): (r: Option<(string, string)>)
    ensures r.Some? <==> c in s
    ensures r.Some? ==> s == r.value.0 + [c] + r.value.1 && c !in r.value.0
  {
    match IndexOf(s, c)
    case None => None
    case Some(i) =>
      assert s == s[..i] + [c] + s[i + 1..];
      Some((s[..i], s[i + 1..]))
  }

  /** `s` cut at its last `c`: the part before and the part after it. */
  function SplitLast(s: string, c: char): (r: Option<(string, string)>)
    ensures r.Some? <==> c in s
    ensures r.Some? ==> s == r.value.0 + [c] + r.value.1 && c !in r.value.1
  {
    match LastIndexOf(s, c)
    case None => None
    case Some(i) =>
      assert s == s[..i] + [c] + s[i + 1..];
      Some((s[..i], s[i + 1..]))
  }

  /** Cutting `a + [c] + b` at its first `c` gives back `a` and `b` when `a`
      holds no `c`. */
  lemma SplitFirstOfJoin(a: string, c: char, b: string)
    requires c !in a
    ensures SplitFirst(a + [c] + b, c) == Some((a, b))
  {
    var s := a + [c] + b;
    assert s[|a|] == c;
    var (x, y) := SplitFirst(s, c).value;
    assert |x| == |a|;
    assert x == s[..|a|] == a;
  }

  /** Cutting `a + [c] + b` at its last `c` gives back `a` and `b` when `b`
      holds no `c`. */
  lemma SplitLastOfJoin(a: string, c: char, b: string)
    requires c !in b
    ensures SplitLast(a + [c] + b, c) == Some((a, b))
  {
    var s := a + [c] + b;
    assert s[|a|] == c;
    var (x, y) := SplitLast(s, c).value;
    assert |x| == |a|;
    assert x == s[..|a|] == a;
  }

  /** `s` with `prefix` removed, when it starts with it. */
  function StripPrefix(s: string, prefix: string): (r: Option<string>)
    ensures r.Some? <==> |prefix| <= |s| && s[..|prefix|] == prefix
    ensures r.Some? ==> s == prefix + r.value
  {
    if |prefix| <= |s| && s[..|prefix|] == prefix then
      assert s == s[..|prefix|] + s[|prefix|..];
      Some(s[|prefix|..])
    else None
  }

  lemma StripPrefixOfJoin(prefix: string, rest: string)
    ensures StripPrefix(prefix + rest, prefix) == Some(rest)
  {
    var s := prefix + rest;
    assert s[..|prefix|] == prefix;
    assert s[|prefix|..] == rest;
  }
}

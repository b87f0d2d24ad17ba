/** The derived `bgGradient` string: the 135-degree linear gradient from
    `gradientStart` at 0% to `gradientEnd` at 100%, and a decoder that reads the
    two stops back out of it. */
module Gradients {
  import opened Wrappers
  import opened Types

  const PREFIX: string := "linear-gradient(135deg, "
  const MIDDLE: string := " 0%, "
  const SUFFIX: string := " 100%)"

  /** The gradient string the editor builds from two colours. */
  function LinearGradient(start: string, end: string): (g: string)
    ensures |g| == |PREFIX| + |start| + |MIDDLE| + |end| + |SUFFIX|
    ensures g[..|PREFIX|] == PREFIX && g[|g| - |SUFFIX|..] == SUFFIX
    ensures g[|PREFIX|..|PREFIX| + |start|] == start
    ensures g[|PREFIX| + |start|..|PREFIX| + |start| + |MIDDLE|] == MIDDLE
    ensures g[|PREFIX| + |start| + |MIDDLE|..|g| - |SUFFIX|] == end
  {
    PREFIX + start + MIDDLE + end + SUFFIX
  }

  /** `bgGradient` agrees with the two colours it is derived from. */
  predicate Consistent(s: SplashSettings) {
    s.bgGradient == LinearGradient(s.gradientStart, s.gradientEnd)
  }

  predicate IsHexDigit(c: char) {
    ('0' <= c <= '9') || ('a' <= c <= 'f') || ('A' <= c <= 'F')
  }

  /** The `#rrggbb` form a colour input yields. */
  predicate IsHexColor(c: string) {
    |c| == 7 && c[0] == '#' && forall i :: 1 <= i < 7 ==> IsHexDigit(c[i])
  }

  /** Reads the two colour stops out of a gradient string built from `#rrggbb`
      colours; any other string has no stops. */
  function Stops(g: string): (r: Option<(string, string)>)
    ensures r.Some? ==> IsHexColor(r.value.0) && IsHexColor(r.value.1)
    ensures r.Some? ==> g == LinearGradient(r.value.0, r.value.1)
  {
    if |g| == 49 && g[..24] == PREFIX && g[31..36] == MIDDLE && g[43..] == SUFFIX
       && IsHexColor(g[24..31]) && IsHexColor(g[36..43])
    then
      assert g == g[..24] + g[24..31] + g[31..36] + g[36..43] + g[43..];
      Some((g[24..31], g[36..43]))
    else
      None
  }

  /** The gradient string encodes exactly its two colours. */
  lemma {:induction false} StopsRoundTrip(start: string, end: string)
    requires IsHexColor(start) && IsHexColor(end)
    ensures Stops(LinearGradient(start, end)) == Some((start, end))
  {
    var g := LinearGradient(start, end);
    assert |PREFIX| == 24 && |MIDDLE| == 5 && |SUFFIX| == 6;
    assert g[..24] == PREFIX;
    assert g[24..31] == start;
    assert g[31..36] == MIDDLE;
    assert g[36..43] == end;
    assert g[43..] == SUFFIX;
  }

  /** Equal gradient strings from hex colours have equal colours. */
  lemma LinearGradientInjective(s1: string, e1: string, s2: string, e2: string)
    requires IsHexColor(s1) && IsHexColor(e1) && IsHexColor(s2) && IsHexColor(e2)
    requires LinearGradient(s1, e1) == LinearGradient(s2, e2)
    ensures s1 == s2 && e1 == e2
  {
    StopsRoundTrip(s1, e1);
    StopsRoundTrip(s2, e2);
  }

  /** For colour strings that themselves contain a stop separator the string is
      ambiguous, which is why the decoder accepts `#rrggbb` colours only. */
  lemma AmbiguousWithoutHexColors()
    ensures LinearGradient("#000 0%, #111", "#222") == LinearGradient("#000", "#111 0%, #222")
  {
  }
}

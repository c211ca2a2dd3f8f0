/**
 * The two parts of `urllib.parse.urlparse` that the scrapers look at: the
 * scheme (is there one?) and the network location (the host used as a
 * lookup key, as the host of relative PDF links and as a grouping key), and
 * `os.path.basename` for link-derived titles.
 */
module Urls {
  import opened Options
  import opened Text

  predicate IsAsciiAlpha(c: char) {
    'a' <= c <= 'z' || 'A' <= c <= 'Z'
  }

  /** The characters urlsplit accepts in a scheme. */
  predicate IsSchemeChar(c: char) {
    IsAsciiAlpha(c) || IsDigit(c) || c == '+' || c == '-' || c == '.'
  }

  /**
   * The index of the ':' that ends the scheme: the first ':' of the URL,
   * provided something precedes it, the URL starts with an ASCII letter
   * and everything before the ':' is a scheme character.
   */
  function SchemeColon(u: string): (r: Option<nat>)
    ensures r.Some? ==> 0 < r.value < |u| && u[r.value] == ':'
    ensures r.Some? ==> IsAsciiAlpha(u[0]) && forall k :: 0 <= k < r.value ==> IsSchemeChar(u[k])
  {
    match Find(u, ":")
    case None => None
    case Some(i) =>
      assert u[i..i + 1] == ":";
      if i > 0 && IsAsciiAlpha(u[0]) && forall k :: 0 <= k < i ==> IsSchemeChar(u[k]) then Some(i) else None
  }

  /** `urlparse(u).scheme`. */
  function Scheme(u: string): string {
    match SchemeColon(u)
    case Some(i) => Lower(u[..i])
    case None => ""
  }

  /** What urlsplit goes on parsing once the scheme is taken off. */
  function AfterScheme(u: string): (r: string)
    ensures |r| <= |u|
  {
    match SchemeColon(u)
    case Some(i) => u[i + 1..]
    case None => u
  }

  predicate IsNetlocDelimiter(c: char) {
    c == '/' || c == '?' || c == '#'
  }

  /** The first index at or after `k` holding '/', '?' or '#', else `|s|`. */
  function DelimiterFrom(s: string, k: nat): (r: nat)
    requires k <= |s|
    decreases |s| - k
    ensures k <= r <= |s|
    ensures forall j :: k <= j < r ==> !IsNetlocDelimiter(s[j])
    ensures r < |s| ==> IsNetlocDelimiter(s[r])
  {
    if k == |s| || IsNetlocDelimiter(s[k]) then k else DelimiterFrom(s, k + 1)
  }

  /**
   * `urlparse(u).netloc`: after the scheme, a "//" introduces the network
   * location, which runs up to the first '/', '?' or '#'. It never holds
   * one of those three characters.
   */
  function Netloc(u: string): (r: string)
    ensures forall j :: 0 <= j < |r| ==> !IsNetlocDelimiter(r[j])
  {
    var rest := AfterScheme(u);
    if StartsWith(rest, "//") then rest[2..DelimiterFrom(rest, 2)] else ""
  }

  /** A host: no character of it ends a network location. */
  predicate IsHost(h: string) {
    forall j :: 0 <= j < |h| ==> !IsNetlocDelimiter(h[j])
  }

  /** "https://" + x has the scheme "https" and keeps "//" + x to parse. */
  lemma HttpsPrefix(x: string)
    ensures SchemeColon("https://" + x) == Some(5)
    ensures Scheme("https://" + x) == "https"
    ensures AfterScheme("https://" + x) == "//" + x
  {
    var u := "https://" + x;
    assert OccursAt(u, ":", 5);
    forall j | 0 <= j < 5 ensures !OccursAt(u, ":", j) {
      assert u[j..j + 1] == [u[j]];
    }
    assert u[..5] == "https";
    assert u[6..] == "//" + x;
  }

  /**
   * The host of "https://" + h + rest is h whenever h is a host and rest is
   * empty or starts with a delimiter.
   */
  lemma NetlocOfHttps(h: string, rest: string)
    requires IsHost(h)
    requires rest == [] || IsNetlocDelimiter(rest[0])
    ensures Netloc("https://" + h + rest) == h
  {
    var u := "https://" + h + rest;
    assert u == "https://" + (h + rest);
    HttpsPrefix(h + rest);
    var r := "//" + (h + rest);
    assert StartsWith(r, "//");
    forall j | 2 <= j < 2 + |h| ensures !IsNetlocDelimiter(r[j]) {
      assert r[j] == h[j - 2];
    }
    assert 2 + |h| == |r| || r[2 + |h|] == rest[0];
    assert DelimiterFrom(r, 2) == 2 + |h|;
    assert r[2..2 + |h|] == h;
  }

  /** `os.path.basename(p)`: what follows the last '/' (all of `p` when none). */
  function Basename(p: string): (r: string)
    ensures '/' !in r
    ensures EndsWith(p, r)
    ensures |r| == |p| || p[|p| - |r| - 1] == '/'
  {
    match RFind(p, "/")
    case None =>
      forall j | 0 <= j < |p| ensures p[j] != '/' {
        assert !OccursAt(p, "/", j);
        assert p[j..j + 1] == [p[j]];
      }
      p
    case Some(i) =>
      var r := p[i + 1..];
      assert p[i..i + 1] == "/";
      assert forall j :: 0 <= j < |r| ==> !OccursAt(p, "/", i + 1 + j) && p[i + 1 + j..i + 2 + j] == [r[j]];
      r
  }
}

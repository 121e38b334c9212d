/**
 * The pure string builders of `addAllAssetsToCompilation`: the trailing-slash
 * normaliser, the public-path fallback, the hash suffix and the public path
 * under which an asset is listed for the HTML page.
 */
module Paths {
  import opened Types

  function Min(a: int, b: int): int {
    if a <= b then a else b
  }

  predicate EndsWithSlash(s: string) {
    s != [] && s[|s| - 1] == '/'
  }

  /**
   * `ensureTrailingSlash`: a missing or empty string becomes `""`; any other
   * string is returned as it is when it ends in `/` and with `/` appended
   * otherwise.
   */
  function EnsureTrailingSlash(x: Nullable): (r: string)
    ensures r == "" || EndsWithSlash(r)
    ensures !NonEmpty(x) ==> r == ""
    ensures NonEmpty(x) ==> x.value <= r && |r| <= |x.value| + 1
    ensures NonEmpty(x) && EndsWithSlash(x.value) ==> r == x.value
  {
    match x
    case Str(s) => if s != "" && s[|s| - 1] != '/' then s + "/" else s
    case _ => ""
  }

  /** Normalising a normalised path changes nothing. */
  lemma EnsureTrailingSlashIdempotent(x: Nullable)
    ensures EnsureTrailingSlash(Str(EnsureTrailingSlash(x))) == EnsureTrailingSlash(x)
  {
  }

  /** The strings that `EnsureTrailingSlash` leaves alone are exactly its results. */
  lemma EnsureTrailingSlashFixedPoints(s: string)
    ensures EnsureTrailingSlash(Str(s)) == s <==> (s == "" || EndsWithSlash(s))
  {
    if s != "" && !EndsWithSlash(s) {
      assert |EnsureTrailingSlash(Str(s))| == |s| + 1;
    }
  }

  /**
   * `resolvePublicPath`: the bundler's `output.publicPath` when it is not
   * `undefined` (a `null` one gives `""`), otherwise the path from the
   * directory of `filename` back to the output root; either way normalised.
   */
  function ResolvePublicPath(configured: Nullable, filename: string, h: Host): (r: string)
    ensures r == "" || EndsWithSlash(r)
    ensures configured.Null? ==> r == ""
    ensures NonEmpty(configured) ==> configured.value <= r
    ensures configured.Undefined? ==> h.relativeToDir(filename) <= r
    ensures configured == Str("") ==> r == ""
    ensures !configured.Undefined? ==> r == EnsureTrailingSlash(configured)
    ensures configured.Undefined? ==> r == EnsureTrailingSlash(Str(h.relativeToDir(filename)))
  {
    var publicPath := if configured.Undefined? then Str(h.relativeToDir(filename)) else configured;
    EnsureTrailingSlash(publicPath)
  }

  /** JavaScript's `s.substr(0, n)` for `n >= 0`. */
  function Take(s: string, n: nat): (r: string)
    ensures r <= s && |r| == Min(n, |s|)
  {
    if |s| <= n then s else s[..n]
  }

  /** The cache-busting suffix: `""`, or `?` and the first 20 digits of the digest. */
  function HashSuffix(hashed: bool, digest: string): (r: string)
    ensures !hashed ==> r == ""
    ensures hashed ==> |r| == 1 + Min(20, |digest|) && r[0] == '?' && r[1..] <= digest
  {
    if hashed then "?" + Take(digest, 20) else ""
  }

  /**
   * The prefix of an asset's public path: the descriptor's own `publicPath`
   * (normalised) unless it is `undefined`, else the bundler-derived one.
   */
  function PublicPrefix(configured: Nullable, h: Host, d: AssetDescriptor, name: string): (r: string)
    ensures r == "" || EndsWithSlash(r)
    ensures NonEmpty(d.publicPath) ==> d.publicPath.value <= r
    ensures d.publicPath.Null? ==> r == ""
    ensures !d.publicPath.Undefined? ==> r == EnsureTrailingSlash(d.publicPath)
    ensures d.publicPath.Undefined? ==> r == ResolvePublicPath(configured, name, h)
  {
    if d.publicPath.Undefined? then ResolvePublicPath(configured, name, h)
    else EnsureTrailingSlash(d.publicPath)
  }

  /**
   * `resolvedPath`: the public prefix, the registered output name, and the
   * hash suffix computed from the registered content. The result splits back
   * into these parts: the name sits right after the prefix, and after it
   * comes either nothing (no hash) or `?` followed by the head of the
   * content's digest.
   */
  function ResolvedPath(configured: Nullable, h: Host, d: AssetDescriptor, name: string, source: string): (r: string)
    ensures var p := PublicPrefix(configured, h, d, name);
            var n := |p| + |name|;
            && n <= |r|
            && r[..|p|] == p
            && r[|p|..n] == name
            && (!Hashed(d) ==> r == p + name)
            && (Hashed(d) ==> n < |r| && r[n] == '?' && r[n + 1..] <= h.md5Hex(source))
            && (Hashed(d) && |h.md5Hex(source)| >= 20 ==> |r| == n + 21)
  {
    var p := PublicPrefix(configured, h, d, name);
    var suffix := HashSuffix(Hashed(d), h.md5Hex(source));
    var r := p + name + suffix;
    assert r[|p| + |name|..] == suffix;
    r
  }
}

/** The string helpers the two clients use to put URLs together. */
module Urls {
  predicate EndsWithSlash(s: string)
  {
    |s| > 0 && s[|s| - 1] == '/'
  }

  predicate StartsWithSlash(s: string)
  {
    |s| > 0 && s[0] == '/'
  }

  /** `url.endsWith('/') ? url : url + '/'`: the shortest extension of `url` that ends with a slash. */
  function WithTrailingSlash(url: string): (r: string)
    ensures EndsWithSlash(r)
    ensures |url| <= |r| <= |url| + 1 && r[..|url|] == url
    ensures r == url <==> EndsWithSlash(url)
  {
    if EndsWithSlash(url) then url else url + "/"
  }

  /** Normalising twice is normalising once. */
  lemma TrailingSlashIdempotent(url: string)
    ensures WithTrailingSlash(WithTrailingSlash(url)) == WithTrailingSlash(url)
  {
  }

  /** `p.startsWith('/') ? p.substring(1) : p`: at most one leading slash removed. */
  function StripLeadingSlash(p: string): (r: string)
    ensures StartsWithSlash(p) ==> "/" + r == p
    ensures !StartsWithSlash(p) ==> r == p
  {
    if StartsWithSlash(p) then p[1..] else p
  }

  /** Only one slash goes: a path written with a leading slash gives the same result as without it. */
  lemma StripLeadingSlashOnce(p: string)
    ensures StripLeadingSlash("/" + p) == p
  {
  }
}

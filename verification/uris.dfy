/** Resolution of a path-only reference against an absolute base URI, as
    `new Uri(baseUri, "/some/path")` does it, following section 5.2 of
    RFC 3986 without dot-segment removal. */
module Uris {
  import opened Text

  /** An absolute URI split into the parts resolution uses. */
  datatype AbsoluteUri = AbsoluteUri(scheme: string, authority: string, path: string)

  /** The scheme and authority: everything before the path. */
  function Origin(u: AbsoluteUri): string {
    u.scheme + "://" + u.authority
  }

  /** The text form of a URI. */
  function ToText(u: AbsoluteUri): string {
    Origin(u) + u.path
  }

  /** The path up to and including its last "/", or empty when there is no
      "/" at all. */
  function Directory(path: string): (r: string)
    ensures |r| <= |path| && r == path[..|r|]
    ensures |r| == 0 || r[|r| - 1] == '/'
    ensures '/' !in path[|r|..]
  {
    if |path| == 0 then ""
    else if path[|path| - 1] == '/' then path
    else
      var r := Directory(path[..|path| - 1]);
      assert path[|r|..] == path[..|path| - 1][|r|..] + [path[|path| - 1]];
      r
  }

  /** Merging a relative path with the base path (section 5.2.3 of RFC 3986). */
  function Merge(base: AbsoluteUri, reference: string): string {
    if |base.authority| > 0 && |base.path| == 0 then "/" + reference
    else Directory(base.path) + reference
  }

  /** Resolving a path-only reference (section 5.2.2 of RFC 3986): the
      target keeps the base's scheme and authority; an empty path keeps the
      base path, a path starting with "/" replaces it outright, and any other
      path is merged with it. */
  function Resolve(base: AbsoluteUri, reference: string): (r: AbsoluteUri)
    ensures r.scheme == base.scheme && r.authority == base.authority
    ensures reference == "" ==> r == base
    ensures StartsWith(reference, "/") ==> r.path == reference
    ensures reference != "" && !StartsWith(reference, "/") ==> r.path == Merge(base, reference)
  {
    if reference == "" then base
    else if reference[0] == '/' then base.(path := reference)
    else base.(path := Merge(base, reference))
  }

  /** Resolving an absolute path gives the base's origin followed by that
      path, whatever the base's own path is. */
  lemma ResolveAbsolutePath(base: AbsoluteUri, other: AbsoluteUri, reference: string)
    requires StartsWith(reference, "/")
    requires Origin(other) == Origin(base)
    ensures ToText(Resolve(base, reference)) == Origin(base) + reference
    ensures ToText(Resolve(other, reference)) == ToText(Resolve(base, reference))
  {
  }
}

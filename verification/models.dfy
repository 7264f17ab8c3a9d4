/** The records a Gameyfin server returns from its games listing, after JSON
    decoding. The release date stays the raw text the server sent; ratings are
    plain integers; a game carries two platform lists, its own and the one of
    the library it was found in. */
module Models {

  datatype SlugAndName = SlugAndName(slug: string, name: string)

  /** A SlugAndName extended with the identifier of a logo image. */
  datatype SlugNameAndLogo = SlugNameAndLogo(slug: string, name: string, logoId: string)
  {
    /** The SlugAndName this record extends. */
    function AsSlugAndName(): SlugAndName {
      SlugAndName(slug, name)
    }
  }

  datatype GameyfinLibraryDetails = GameyfinLibraryDetails(
    path: string,
    platforms: seq<SlugNameAndLogo>)

  datatype GameyfinGame = GameyfinGame(
    slug: string,
    title: string,
    summary: string,
    releaseDate: string,
    userRating: int,
    criticsRating: int,
    coverId: string,
    confirmedMatch: bool,
    offlineCoop: bool,
    onlineCoop: bool,
    lanSupport: bool,
    library: GameyfinLibraryDetails,
    playerPerspectives: seq<SlugAndName>,
    genres: seq<SlugAndName>,
    companies: seq<SlugNameAndLogo>,
    platforms: seq<SlugNameAndLogo>)

  /** The names of a list of slug/name pairs, in order. */
  function Names(xs: seq<SlugAndName>): (r: seq<string>)
    ensures |r| == |xs|
    ensures forall i :: 0 <= i < |xs| ==> r[i] == xs[i].name
  {
    seq(|xs|, i requires 0 <= i < |xs| => xs[i].name)
  }

  /** The names of a list of slug/name/logo records, in order. */
  function LogoNames(xs: seq<SlugNameAndLogo>): (r: seq<string>)
    ensures |r| == |xs|
    ensures forall i :: 0 <= i < |xs| ==> r[i] == xs[i].name
  {
    Names(seq(|xs|, i requires 0 <= i < |xs| => xs[i].AsSlugAndName()))
  }
}

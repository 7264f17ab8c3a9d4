/** The catalog fetcher after the server has answered: the status check, the
    confirmed-match and platform filters, and the mapping of every surviving
    record to Playnite game metadata with its cover and download URLs. */
module GameFetcher {
  import opened Wrappers
  import opened Text
  import opened Models
  import opened Uris
  import LibrarySettings

  /** A release date as the date parser produces it; its representation is
      the parser's business. */
  datatype DateTime = DateTime(ticks: int)

  /** The culture-dependent date parser, partial: None where it throws. */
  type DateParser = string -> Option<DateTime>

  /** The kinds of game action the Playnite SDK knows. */
  datatype GameActionType = File | Url | Emulator | Script

  datatype GameAction = GameAction(
    name: string,
    isPlayAction: bool,
    actionType: GameActionType,
    path: string)

  /** The metadata Playnite receives for one game. Name lists are kept as
      sequences in source order. */
  datatype GameMetadata = GameMetadata(
    source: string,
    name: string,
    gameId: string,
    description: string,
    releaseDate: DateTime,
    userScore: int,
    criticScore: int,
    genres: seq<string>,
    platforms: seq<string>,
    features: seq<string>,
    developers: seq<string>,
    coverImage: string,
    isInstalled: bool,
    gameActions: seq<GameAction>)

  /** The server's answer to the games listing request, with the body already
      decoded: None when the JSON could not be decoded. */
  datatype Response = Response(
    statusCode: int,
    reasonPhrase: string,
    body: Option<seq<GameyfinGame>>)

  /** Why a fetch fails as a whole. */
  datatype FetchError =
    | RequestFailed(statusCode: int, reasonPhrase: string)
    | ResponseParseFailed
    | DateParseFailed(releaseDate: string)

  const SourceName := "Gameyfin"
  const DownloadActionName := "Download"
  const OnlineCoopLabel := "Online Co-Op"
  const OfflineCoopLabel := "Offline Co-Op"
  const LanSupportLabel := "LAN Support"

  /** HttpResponseMessage.IsSuccessStatusCode. */
  predicate IsSuccessStatusCode(code: int) {
    200 <= code <= 299
  }

  // ---------------------------------------------------------------------
  // Filtering
  // ---------------------------------------------------------------------

  /** The elements of s that satisfy keep, in their original order. */
  function Filter<T(!new)>(s: seq<T>, keep: T -> bool): (r: seq<T>)
    ensures |r| <= |s|
    ensures forall x :: x in r <==> x in s && keep(x)
  {
    if |s| == 0 then []
    else (if keep(s[0]) then [s[0]] else []) + Filter(s[1..], keep)
  }

  /** Filtering a concatenation filters each part and keeps them in order. */
  lemma {:induction false} FilterAppend<T(!new)>(a: seq<T>, b: seq<T>, keep: T -> bool)
    ensures Filter(a + b, keep) == Filter(a, keep) + Filter(b, keep)
  {
    if |a| == 0 {
      assert a + b == b;
    } else {
      assert (a + b)[1..] == a[1..] + b;
      FilterAppend(a[1..], b, keep);
      var head := if keep(a[0]) then [a[0]] else [];
      calc {
        Filter(a + b, keep);
        head + Filter(a[1..] + b, keep);
        head + (Filter(a[1..], keep) + Filter(b, keep));
        (head + Filter(a[1..], keep)) + Filter(b, keep);
        Filter(a, keep) + Filter(b, keep);
      }
    }
  }

  /** Some platform of the game's library has a slug in the filter. */
  predicate MatchesPlatformFilter(g: GameyfinGame, importPlatforms: seq<string>) {
    exists i :: 0 <= i < |g.library.platforms| && g.library.platforms[i].slug in importPlatforms
  }

  /** Whether a record reaches the output: it is a confirmed match and, when
      the filter is not empty, its library has a platform in the filter. */
  predicate Kept(g: GameyfinGame, importPlatforms: seq<string>) {
    g.confirmedMatch && (|importPlatforms| == 0 || MatchesPlatformFilter(g, importPlatforms))
  }

  /** The two filters of GetGames: confirmed matches first, then the platform
      filter when one is configured. */
  function SelectGames(games: seq<GameyfinGame>, importPlatforms: seq<string>): (r: seq<GameyfinGame>)
    ensures |r| <= |games|
    ensures forall g :: g in r <==> g in games && Kept(g, importPlatforms)
  {
    var confirmed := Filter(games, (g: GameyfinGame) => g.confirmedMatch);
    if |importPlatforms| > 0 then Filter(confirmed, (g: GameyfinGame) => MatchesPlatformFilter(g, importPlatforms))
    else confirmed
  }

  /** Selection works record by record and keeps the input order: selecting
      from a concatenation concatenates the selections, and a single record is
      kept exactly when it is Kept. */
  lemma SelectGamesPreservesOrder(a: seq<GameyfinGame>, b: seq<GameyfinGame>, importPlatforms: seq<string>)
    ensures SelectGames(a + b, importPlatforms) == SelectGames(a, importPlatforms) + SelectGames(b, importPlatforms)
  {
    var confirmed := (g: GameyfinGame) => g.confirmedMatch;
    var onPlatform := (g: GameyfinGame) => MatchesPlatformFilter(g, importPlatforms);
    FilterAppend(a, b, confirmed);
    FilterAppend(Filter(a, confirmed), Filter(b, confirmed), onPlatform);
  }

  /** A single record is selected exactly when it is Kept. */
  lemma SelectSingle(g: GameyfinGame, importPlatforms: seq<string>)
    ensures SelectGames([g], importPlatforms) == (if Kept(g, importPlatforms) then [g] else [])
  {
  }

  /** With a non-empty filter, adding platforms to it never drops a record. */
  lemma EnlargingFilterKeepsGames(games: seq<GameyfinGame>, small: seq<string>, large: seq<string>)
    requires |small| > 0
    requires forall p :: p in small ==> p in large
    ensures forall g :: g in SelectGames(games, small) ==> g in SelectGames(games, large)
  {
  }

  /** The monotonicity above stops at the empty filter: removing the last
      platform turns filtering off and lets every confirmed record through. */
  lemma EmptyingFilterAdmitsMore(g: GameyfinGame)
    requires g.confirmedMatch && g.library.platforms == []
    ensures SelectGames([g], ["win"]) == []
    ensures SelectGames([g], []) == [g]
  {
    SelectSingle(g, ["win"]);
    SelectSingle(g, []);
  }

  /** Fresh settings import exactly the confirmed records whose library has
      the "win" platform. */
  lemma DefaultSettingsImportWindows(games: seq<GameyfinGame>)
    ensures forall g :: g in SelectGames(games, LibrarySettings.Default.importPlatforms)
                        <==> g in games && g.confirmedMatch
                             && exists i :: 0 <= i < |g.library.platforms| && g.library.platforms[i].slug == "win"
  {
  }

  // ---------------------------------------------------------------------
  // Mapping
  // ---------------------------------------------------------------------

  /** The number of co-op/LAN flags that are set. */
  function FlagCount(g: GameyfinGame): nat {
    (if g.onlineCoop then 1 else 0) + (if g.offlineCoop then 1 else 0) + (if g.lanSupport then 1 else 0)
  }

  /** The fixed position of each flag label in the feature list. */
  function LabelRank(feature: string): nat {
    if feature == OnlineCoopLabel then 0
    else if feature == OfflineCoopLabel then 1
    else if feature == LanSupportLabel then 2
    else 3
  }

  /** The feature names: one label per set flag, in the order online co-op,
      offline co-op, LAN, then every player perspective's name in order. */
  function Features(g: GameyfinGame): (r: seq<string>)
    ensures |r| == FlagCount(g) + |g.playerPerspectives|
    ensures r[FlagCount(g)..] == Names(g.playerPerspectives)
    ensures g.onlineCoop <==> OnlineCoopLabel in r[..FlagCount(g)]
    ensures g.offlineCoop <==> OfflineCoopLabel in r[..FlagCount(g)]
    ensures g.lanSupport <==> LanSupportLabel in r[..FlagCount(g)]
    ensures forall i, j :: 0 <= i < j < FlagCount(g) ==> LabelRank(r[i]) < LabelRank(r[j])
  {
    var flags := (if g.onlineCoop then [OnlineCoopLabel] else [])
                 + (if g.offlineCoop then [OfflineCoopLabel] else [])
                 + (if g.lanSupport then [LanSupportLabel] else []);
    assert |flags| == FlagCount(g);
    flags + Names(g.playerPerspectives)
  }

  /** The cover image reference: the server's origin followed by
      "/v1/images/" and the cover id, produced even for an empty id. */
  function CoverImageUrl(base: AbsoluteUri, coverId: string): (r: string)
    ensures r == Origin(base) + "/v1/images/" + coverId
  {
    ToText(Resolve(base, "/v1/images/" + coverId))
  }

  /** The download link: the server's origin followed by
      "/v1/games/game/{slug}/download". */
  function DownloadUrl(base: AbsoluteUri, slug: string): (r: string)
    ensures r == Origin(base) + "/v1/games/game/" + slug + "/download"
  {
    ToText(Resolve(base, "/v1/games/game/" + slug + "/download"))
  }

  /** The metadata for one record; fails exactly when its release date does
      not parse. */
  function MetadataForGame(base: AbsoluteUri, parseDate: DateParser, g: GameyfinGame): (r: Result<GameMetadata, FetchError>)
    ensures r.Success? <==> parseDate(g.releaseDate).Some?
    ensures r.Failure? ==> r.error == DateParseFailed(g.releaseDate)
    ensures r.Success? ==>
      var m := r.value;
      && m.source == SourceName
      && m.name == g.title && m.gameId == g.slug && m.description == g.summary
      && m.releaseDate == parseDate(g.releaseDate).value
      && m.userScore == g.userRating && m.criticScore == g.criticsRating
      && m.genres == Names(g.genres)
      && m.platforms == LogoNames(g.library.platforms)
      && m.features == Features(g)
      && m.developers == LogoNames(g.companies)
      && m.coverImage == Origin(base) + "/v1/images/" + g.coverId
      && !m.isInstalled
      && m.gameActions == [GameAction(DownloadActionName, false, Url,
                                      Origin(base) + "/v1/games/game/" + g.slug + "/download")]
  {
    match parseDate(g.releaseDate)
    case None => Failure(DateParseFailed(g.releaseDate))
    case Some(date) =>
      Success(GameMetadata(
        source := SourceName,
        name := g.title,
        gameId := g.slug,
        description := g.summary,
        releaseDate := date,
        userScore := g.userRating,
        criticScore := g.criticsRating,
        genres := Names(g.genres),
        platforms := LogoNames(g.library.platforms),
        features := Features(g),
        developers := LogoNames(g.companies),
        coverImage := CoverImageUrl(base, g.coverId),
        isInstalled := false,
        gameActions := [GameAction(DownloadActionName, false, Url, DownloadUrl(base, g.slug))]))
  }

  /** The metadata's platforms come from the library's platform list: the
      record's own top-level platform list changes neither the metadata nor
      whether the record is kept. */
  lemma TopLevelPlatformsIgnored(base: AbsoluteUri, parseDate: DateParser, g: GameyfinGame,
                                 other: seq<SlugNameAndLogo>, importPlatforms: seq<string>)
    ensures MetadataForGame(base, parseDate, g.(platforms := other)) == MetadataForGame(base, parseDate, g)
    ensures Kept(g.(platforms := other), importPlatforms) == Kept(g, importPlatforms)
  {
  }

  /** Maps every record in order; fails with the first release date that
      does not parse. */
  function MapMetadata(base: AbsoluteUri, parseDate: DateParser, games: seq<GameyfinGame>)
    : (r: Result<seq<GameMetadata>, FetchError>)
    ensures r.Success? <==> forall i :: 0 <= i < |games| ==> parseDate(games[i].releaseDate).Some?
    ensures r.Success? ==> |r.value| == |games|
    ensures r.Success? ==> forall i :: 0 <= i < |games| ==> MetadataForGame(base, parseDate, games[i]) == Success(r.value[i])
    ensures r.Failure? ==> exists i :: 0 <= i < |games| && parseDate(games[i].releaseDate).None?
                                       && r.error == DateParseFailed(games[i].releaseDate)
                                       && forall j :: 0 <= j < i ==> parseDate(games[j].releaseDate).Some?
  {
    if |games| == 0 then Success([])
    else
      var first :- MetadataForGame(base, parseDate, games[0]);
      var rest :- MapMetadata(base, parseDate, games[1..]);
      Success([first] + rest)
  }

  // ---------------------------------------------------------------------
  // GetGames
  // ---------------------------------------------------------------------

  /** GetGames once the response has arrived. */
  function GetGames(settings: LibrarySettings.Settings, base: AbsoluteUri, response: Response, parseDate: DateParser)
    : (r: Result<seq<GameMetadata>, FetchError>)
    ensures !IsSuccessStatusCode(response.statusCode) ==>
              r == Failure(RequestFailed(response.statusCode, response.reasonPhrase))
    ensures IsSuccessStatusCode(response.statusCode) && response.body.None? ==> r == Failure(ResponseParseFailed)
    ensures r.Success? <==>
              && IsSuccessStatusCode(response.statusCode)
              && response.body.Some?
              && forall g :: g in SelectGames(response.body.value, settings.importPlatforms)
                             ==> parseDate(g.releaseDate).Some?
    ensures r.Success? ==>
              var selected := SelectGames(response.body.value, settings.importPlatforms);
              && |r.value| == |selected|
              && forall i :: 0 <= i < |selected| ==> MetadataForGame(base, parseDate, selected[i]) == Success(r.value[i])
    ensures IsSuccessStatusCode(response.statusCode) && response.body.Some? && r.Failure? ==>
              var selected := SelectGames(response.body.value, settings.importPlatforms);
              exists i :: 0 <= i < |selected| && parseDate(selected[i].releaseDate).None?
                          && r.error == DateParseFailed(selected[i].releaseDate)
                          && forall j :: 0 <= j < i ==> parseDate(selected[j].releaseDate).Some?
  {
    if !IsSuccessStatusCode(response.statusCode) then
      Failure(RequestFailed(response.statusCode, response.reasonPhrase))
    else if response.body.None? then
      Failure(ResponseParseFailed)
    else
      var selected := SelectGames(response.body.value, settings.importPlatforms);
      var r := MapMetadata(base, parseDate, selected);
      assert r.Success? <==> forall g :: g in selected ==> parseDate(g.releaseDate).Some? by {
        if forall g :: g in selected ==> parseDate(g.releaseDate).Some? {
          assert forall i :: 0 <= i < |selected| ==> selected[i] in selected;
        }
      }
      r
  }

  /** Every game in a successful result comes from a confirmed record that
      passes the platform filter, and carries one "Download" URL action and
      no installed flag. */
  lemma GetGamesOutputsConfirmedOnly(settings: LibrarySettings.Settings, base: AbsoluteUri, response: Response,
                                     parseDate: DateParser)
    requires GetGames(settings, base, response, parseDate).Success?
    ensures var out := GetGames(settings, base, response, parseDate).value;
            forall m :: m in out ==>
              && (exists g :: g in response.body.value && Kept(g, settings.importPlatforms) && g.slug == m.gameId)
              && !m.isInstalled
              && m.gameActions == [GameAction(DownloadActionName, false, Url,
                                              Origin(base) + "/v1/games/game/" + m.gameId + "/download")]
  {
    var out := GetGames(settings, base, response, parseDate).value;
    var selected := SelectGames(response.body.value, settings.importPlatforms);
    forall m | m in out
      ensures exists g :: g in response.body.value && Kept(g, settings.importPlatforms) && g.slug == m.gameId
      ensures !m.isInstalled
      ensures m.gameActions == [GameAction(DownloadActionName, false, Url,
                                           Origin(base) + "/v1/games/game/" + m.gameId + "/download")]
    {
      var i :| 0 <= i < |out| && out[i] == m;
      var g := selected[i];
      assert g in selected;
      assert MetadataForGame(base, parseDate, g) == Success(m);
      assert m.gameId == g.slug;
    }
  }

  /** Records that are not confirmed matches are dropped before any date is
      parsed: inserting one anywhere, whatever its release date, changes
      nothing. */
  lemma UnconfirmedRecordIgnored(settings: LibrarySettings.Settings, base: AbsoluteUri, response: Response,
                                 parseDate: DateParser, i: nat, g: GameyfinGame)
    requires response.body.Some? && i <= |response.body.value|
    requires !g.confirmedMatch
    ensures var games := response.body.value;
            GetGames(settings, base, response.(body := Some(games[..i] + [g] + games[i..])), parseDate)
            == GetGames(settings, base, response, parseDate)
  {
    var games := response.body.value;
    SelectSkipsUnconfirmed(games, settings.importPlatforms, i, g);
  }

  lemma SelectSkipsUnconfirmed(games: seq<GameyfinGame>, f: seq<string>, i: nat, g: GameyfinGame)
    requires i <= |games|
    requires !g.confirmedMatch
    ensures SelectGames(games[..i] + [g] + games[i..], f) == SelectGames(games, f)
  {
    var pre, post := games[..i], games[i..];
    assert pre + post == games;
    SelectGamesPreservesOrder(pre + [g], post, f);
    SelectGamesPreservesOrder(pre, [g], f);
    SelectGamesPreservesOrder(pre, post, f);
    SelectSingle(g, f);
    calc {
      SelectGames(pre + [g] + post, f);
      SelectGames(pre + [g], f) + SelectGames(post, f);
      SelectGames(pre, f) + SelectGames([g], f) + SelectGames(post, f);
      { assert SelectGames([g], f) == []; }
      SelectGames(pre, f) + SelectGames(post, f);
    }
  }

  /** A failing status fails the whole fetch, whatever the body holds. */
  lemma ServiceUnavailableFails(settings: LibrarySettings.Settings, base: AbsoluteUri,
                                body: Option<seq<GameyfinGame>>, parseDate: DateParser)
    ensures GetGames(settings, base, Response(503, "Service Unavailable", body), parseDate)
            == Failure(RequestFailed(503, "Service Unavailable"))
  {
  }

  /** One kept record with an unparseable date fails the whole fetch, however
      many other records are fine. */
  lemma BadDateFailsWholeFetch(settings: LibrarySettings.Settings, base: AbsoluteUri, response: Response,
                               parseDate: DateParser, g: GameyfinGame)
    requires IsSuccessStatusCode(response.statusCode) && response.body.Some?
    requires g in response.body.value && Kept(g, settings.importPlatforms)
    requires parseDate(g.releaseDate).None?
    ensures GetGames(settings, base, response, parseDate).Failure?
    ensures GetGames(settings, base, response, parseDate).error.DateParseFailed?
  {
  }
}

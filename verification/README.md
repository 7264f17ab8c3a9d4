# Gameyfin library plugin for Playnite — a Dafny model

This project models the core of a Playnite library plugin that imports games
from a Gameyfin server. It has three parts:

- **Catalog fetcher** (`game_fetcher.dfy`, `uris.dfy`). This is the part of
  `GameyfinGameFetcher.GetGames` that runs once the HTTP response is in hand.
  It checks the status code and drops records that are not confirmed matches.
  It applies the optional platform-slug filter from the settings. Each record
  left is mapped to Playnite `GameMetadata`, which gets feature labels, a
  cover URL and one "Download" URL action. A bad status fails the whole call,
  and so does a release date that does not parse. The response body comes in
  already decoded. Date parsing is a parameter, a partial function
  `string -> Option<DateTime>`. `new Uri(base, "/path")` is modelled after
  section 5.2.2 of RFC 3986: the reference path replaces the base path.
- **Interactive cookie authenticator** (`webview_authenticator.dfy`). This is
  `GameyfinWebviewAuthenticator`, written as a state record
  (`AuthenticationInProgress`, `AuthenticateSuccess`,
  `AuthenticationErrorMessage`, `AuthCookieValue`, plus the web-view slot)
  with one pure transition per event:
  - `StartLogin`: `StartForwardAuthLogin`.
  - `LoadingChanged`: the deferred load handler. The event carries what the
    browser answers when asked for its address and its cookies.
  - `WindowClosed`: `DisposeWebView`.
  When the authenticator asks its dialog to close, the model sets a flag on
  the view in the slot. The host answers that request with `WindowClosed`.
- **Settings** (`settings.dfy`, `settings_view_model.dfy`, `text.dfy`). This
  covers the settings record and its defaults, and the property setters. It
  also covers the `PlatformFilter` text codec: a comma join for the getter,
  and trim-then-split-then-trim for the setter. The rest is
  `BeginEdit`/`CancelEdit` and `VerifySettings`.

`models.dfy` holds the decoded server records. `wrappers.dfy` holds `Option`,
which stands for a C# reference that may be null, and `Result`, which stands
for an operation that throws.

Some behaviours of the program are easy to miss, and the model states them:

- A cover URL is always produced. With an empty cover id it ends in
  `/v1/images/`; the cover is never left out (`GameFetcher.CoverImageUrl`).
- Load events are still evaluated after an attempt has succeeded or failed.
  A page that loads before the dialog has closed can turn a success into a
  failure (`WebviewAuthenticator.LateLoadOverturnsSuccess`).
- A second `StartForwardAuthLogin` while a dialog is open is refused. It also
  asks the open dialog to close, so it ends the first attempt too
  (`WebviewAuthenticator.SecondStartClosesFirst`).
- Success does not clear `AuthenticationInProgress`. Disposal of the web
  view clears it, and so does a later failure.
- `CancelEdit` puts the snapshot object itself back into `Settings`. Until
  the next `BeginEdit`, the settings and the snapshot are one object, and
  later edits change both. A second `CancelEdit` therefore keeps those edits
  (`SettingsViewModel.SecondCancelKeepsEdits`).
- The authenticator reads the view model's settings each time it handles an
  event. If they are null, for example after a `CancelEdit` with no earlier
  `BeginEdit`, the handler fails with a NullReferenceException
  (`WebviewAuthenticator.NullSettingsBreakLogin`).
- Adding platforms to a non-empty filter never drops a record. Removing the
  last platform, though, switches filtering off and admits more records
  (`GameFetcher.EmptyingFilterAdmitsMore`).

## Model

| member | source | states |
|---|---|---|
| `LibrarySettings.Assign` | GameyfinLibrary/GameyfinLibrarySettings.cs:10-50 | a property setter gives its own property the new value; the other four properties keep their old values |
| `LibrarySettings.AssignmentsCommute` | GameyfinLibrary/GameyfinLibrarySettings.cs:10-50 | setters of two different properties give the same settings in either order |
| `LibrarySettings.LastAssignmentWins` | GameyfinLibrary/GameyfinLibrarySettings.cs:10-50 | a second setter call on the same property overrides the first |
| `GameFetcher.DefaultSettingsImportWindows` | GameyfinLibrary/GameyfinLibrarySettings.cs:52-56 | with the default settings a record is imported iff it is a confirmed match and its library has a platform with slug "win" |
| `WebviewAuthenticator.DefaultSettingsRefuseLogin` | GameyfinLibrary/GameyfinLibrarySettings.cs:54 | default settings (auth method None) make a login fail at once with the ForwardAuth message, and no view is opened |
| `Text.Trim` | GameyfinLibrary/Views/GameyfinLibrarySettingsViewModel.cs:31 | the result has no whitespace at either end; text already like that is returned unchanged |
| `Text.TrimIsSlice` | GameyfinLibrary/Views/GameyfinLibrarySettingsViewModel.cs:31 | the trimmed text is a slice of the input, and everything cut off is whitespace |
| `Text.Split` | GameyfinLibrary/Views/GameyfinLibrarySettingsViewModel.cs:34 | there is at least one piece; no piece holds a comma; joining the pieces with the separator gives back the input |
| `Text.SplitJoin` | GameyfinLibrary/Views/GameyfinLibrarySettingsViewModel.cs:29-34 | splitting the join of one or more comma-free pieces gives back those pieces |
| `SettingsViewModel.ParsePlatformFilter` | GameyfinLibrary/Views/GameyfinLibrarySettingsViewModel.cs:30-36 | text that is blank after trimming gives no platforms. Other text gives at least one platform and never `[""]`. The platforms are the trimmed comma-free segments, in order, whose comma-join is the trimmed text. Every platform is trimmed and has no comma. When the trimmed text has no comma, the result is that text as the single platform |
| `SettingsViewModel.CommaFreeTextIsOnePlatform` | GameyfinLibrary/Views/GameyfinLibrarySettingsViewModel.cs:31-34 | text that is not blank and has no comma gives exactly one platform, the trimmed text |
| `SettingsViewModel.ParseKeepsEmptyPieces` | GameyfinLibrary/Views/GameyfinLibrarySettingsViewModel.cs:34 | empty pieces are kept: "a,,b" gives ["a", "", "b"] |
| `SettingsViewModel.PlatformFilterRoundTrip` | GameyfinLibrary/Views/GameyfinLibrarySettingsViewModel.cs:29-34 | setting the text the getter shows gives back any list of trimmed, comma-free platforms other than `[""]` |
| `SettingsViewModel.EmptyPlatformIsLost` | GameyfinLibrary/Views/GameyfinLibrarySettingsViewModel.cs:29-34 | `[""]` shows the same text as the empty list and reads back as the empty list |
| `SettingsViewModel.PlatformFilterIdempotent` | GameyfinLibrary/Views/GameyfinLibrarySettingsViewModel.cs:29-34 | set(get(set(s))) == set(s) for every string s |
| `SettingsViewModel.GetPlatformFilter` | GameyfinLibrary/Views/GameyfinLibrarySettingsViewModel.cs:27-29 | the getter yields text exactly when the settings slot is not null, and that text is the platforms joined with commas, which the round-trip lemmas relate to the setter |
| `SettingsViewModel.SetPlatformFilter` | GameyfinLibrary/Views/GameyfinLibrarySettingsViewModel.cs:30-36 | the setter works exactly when the settings slot is not null. It assigns the parsed list to ImportPlatforms and changes no other property. The snapshot is left alone, unless it is the same object as the settings, in which case it changes too |
| `SettingsViewModel.BlankFilterImportsAll` | GameyfinLibrary/Views/GameyfinLibrarySettingsViewModel.cs:31-33 | setting text that is blank after trimming leaves ImportPlatforms empty |
| `SettingsViewModel.Create` | GameyfinLibrary/Views/GameyfinLibrarySettingsViewModel.cs:58-62 | the view model starts with the stored settings when there are any, otherwise with the defaults; it has no snapshot |
| `SettingsViewModel.BeginEdit` | GameyfinLibrary/Views/GameyfinLibrarySettingsViewModel.cs:67-70 | the snapshot becomes the current settings and the settings stay as they are |
| `SettingsViewModel.CancelEdit` | GameyfinLibrary/Views/GameyfinLibrarySettingsViewModel.cs:75-78 | the settings become the snapshot object itself, so both slots now hold one object |
| `SettingsViewModel.EditsKeepSnapshot` | GameyfinLibrary/Views/GameyfinLibrarySettingsViewModel.cs:30-36 | with non-null settings no edit faults. Edits leave a snapshot taken by BeginEdit unchanged. After a CancelEdit, the snapshot is the settings object and follows every edit |
| `SettingsViewModel.CancelEditRestoresSnapshot` | GameyfinLibrary/Views/GameyfinLibrarySettingsViewModel.cs:67-78 | with non-null settings, any run of filter or property edits after BeginEdit succeeds, and CancelEdit then restores the settings seen at BeginEdit |
| `SettingsViewModel.SecondCancelKeepsEdits` | GameyfinLibrary/Views/GameyfinLibrarySettingsViewModel.cs:67-78 | after a CancelEdit with a snapshot, any edits followed by another CancelEdit leave the edited settings in place |
| `SettingsViewModel.CancelTwiceKeepsFilter` | GameyfinLibrary/Views/GameyfinLibrarySettingsViewModel.cs:30-36 | BeginEdit, CancelEdit, a PlatformFilter write, then CancelEdit again: ImportPlatforms is the parsed text that was written |
| `SettingsViewModel.CancelWithoutBeginClearsSettings` | GameyfinLibrary/Views/GameyfinLibrarySettingsViewModel.cs:75-78 | CancelEdit with no earlier BeginEdit makes the settings null, so reading PlatformFilter afterwards faults |
| `SettingsViewModel.VerifySettings` | GameyfinLibrary/Views/GameyfinLibrarySettingsViewModel.cs:89-102 | the result is true iff the error list is empty, and it is always true |
| `Uris.Resolve` | GameyfinLibrary/Services/GameyfinGameFetcher.cs:127-131 | the resolved URI keeps the base's scheme and authority; an empty reference keeps the base unchanged; a path starting with "/" replaces the base path; any other non-empty path is merged with the base path |
| `Uris.ResolveAbsolutePath` | GameyfinLibrary/Services/GameyfinGameFetcher.cs:127-131 | resolving "/..." gives the base origin followed by that path; two bases with the same origin give the same text |
| `GameFetcher.Filter` | GameyfinLibrary/Services/GameyfinGameFetcher.cs:63-67 | the result is no longer than the input and holds exactly the input elements that satisfy the predicate |
| `GameFetcher.FilterAppend` | GameyfinLibrary/Services/GameyfinGameFetcher.cs:63-67 | filtering a concatenation is the concatenation of the filtered parts, so input order is kept |
| `GameFetcher.SelectGames` | GameyfinLibrary/Services/GameyfinGameFetcher.cs:62-67 | a record is selected iff it is a confirmed match and either the filter is empty or some library platform slug is in the filter |
| `GameFetcher.SelectGamesPreservesOrder` | GameyfinLibrary/Services/GameyfinGameFetcher.cs:62-67 | selecting from a concatenation concatenates the selections, so relative order is kept |
| `GameFetcher.SelectSingle` | GameyfinLibrary/Services/GameyfinGameFetcher.cs:62-67 | a one-record input is kept whole iff the record is Kept, and otherwise gives nothing |
| `GameFetcher.EnlargingFilterKeepsGames` | GameyfinLibrary/Services/GameyfinGameFetcher.cs:66-67 | with a non-empty filter, a filter that holds all its platforms keeps every record it keeps |
| `GameFetcher.EmptyingFilterAdmitsMore` | GameyfinLibrary/Services/GameyfinGameFetcher.cs:66-67 | a confirmed record with no library platforms is dropped by ["win"] but kept by the empty filter |
| `GameFetcher.Features` | GameyfinLibrary/Services/GameyfinGameFetcher.cs:112-125 | the count is the number of set flags plus the number of perspectives; each flag label appears among the leading labels iff its flag is set, in the order online, offline, LAN; then come the perspective names in order |
| `GameFetcher.CoverImageUrl` | GameyfinLibrary/Services/GameyfinGameFetcher.cs:127-131 | the cover is the server origin + "/v1/images/" + cover id, even for an empty id |
| `GameFetcher.DownloadUrl` | GameyfinLibrary/Services/GameyfinGameFetcher.cs:106 | the download link is the server origin + "/v1/games/game/" + slug + "/download" |
| `GameFetcher.MetadataForGame` | GameyfinLibrary/Services/GameyfinGameFetcher.cs:73-110 | mapping fails iff the release date does not parse, and the error names that date. On success: source "Gameyfin"; name, id, description and scores copied; genres and developers are the names; platforms are the library's platform names; features as above; the cover URL; not installed; exactly one non-play URL action "Download" to the download link |
| `GameFetcher.TopLevelPlatformsIgnored` | GameyfinLibrary/Services/GameyfinGameFetcher.cs:67-88 | the record's own top-level platform list changes neither its metadata nor whether it is kept |
| `GameFetcher.MapMetadata` | GameyfinLibrary/Services/GameyfinGameFetcher.cs:70-82 | mapping a list succeeds iff every release date parses; then there is one metadata entry per record, in order; otherwise the error is the first unparseable date |
| `GameFetcher.GetGames` | GameyfinLibrary/Services/GameyfinGameFetcher.cs:49-82 | a non-2xx status fails with that status and reason; an undecodable body fails with a parse error; success holds iff the status is 2xx, the body decodes and every selected record's date parses; on success entry i is the metadata of selected record i; otherwise the failure names the release date of the first selected record whose date does not parse |
| `GameFetcher.GetGamesOutputsConfirmedOnly` | GameyfinLibrary/Services/GameyfinGameFetcher.cs:62-108 | every output entry comes from a confirmed input record that passes the platform filter; it is not installed and has the single Download action for its slug |
| `GameFetcher.UnconfirmedRecordIgnored` | GameyfinLibrary/Services/GameyfinGameFetcher.cs:62-70 | inserting an unconfirmed record anywhere in the response leaves the result unchanged, whatever its release date |
| `GameFetcher.ServiceUnavailableFails` | GameyfinLibrary/Services/GameyfinGameFetcher.cs:55-56 | a 503 response fails with RequestFailed(503, reason), whatever the body |
| `GameFetcher.BadDateFailsWholeFetch` | GameyfinLibrary/Services/GameyfinGameFetcher.cs:63-82 | one kept record with an unparseable date fails the whole fetch, and the failure is a date-parse failure |
| `WebviewAuthenticator.HandleAuthFailure` | GameyfinLibrary/Services/GameyfinWebviewAuthenticator.cs:166-172 | failure sets the message, sets success to false, clears in-progress, keeps the cookie value, and asks an open view to close |
| `WebviewAuthenticator.HandleAuthSuccess` | GameyfinLibrary/Services/GameyfinWebviewAuthenticator.cs:156-161 | success stores the cookie, sets success to true and asks the view to close; in-progress and the message stay as they were; closing an empty slot ends as a null-reference failure |
| `WebviewAuthenticator.Start` | GameyfinLibrary/Services/GameyfinWebviewAuthenticator.cs:72-111 | the attempt is left in progress iff the slot was empty, the settings are not null, the method is ForwardAuth, the cookie name is not blank and opening worked. Success and the message are then reset and a fresh view is in the slot; otherwise success is false. An occupied slot gives the "already open" message and asks that view to close. Null settings give the null-reference message. A wrong method or a blank name gives its message; in these three cases no view is opened. A creation fault leaves the slot empty, and a later fault asks the new view to close; both carry the exception's message |
| `WebviewAuthenticator.FirstCookieNamed` | GameyfinLibrary/Services/GameyfinWebviewAuthenticator.cs:136 | the result is the first cookie whose name equals the configured name; there is none iff no cookie has that name, and a null name matches nothing |
| `WebviewAuthenticator.Load` | GameyfinLibrary/Services/GameyfinWebviewAuthenticator.cs:121-154 | a page still loading changes nothing, and so does an address off the server. Null settings or an empty slot end in a null-reference failure, and a query that throws ends in a failure with its message. On the server page: when no cookie has the configured name, the failure names it; when the first such cookie is blank, the failure gives the empty-value message; otherwise success holds with that cookie's value, in-progress and the message are unchanged, and the view is asked to close |
| `WebviewAuthenticator.Dispose` | GameyfinLibrary/Services/GameyfinWebviewAuthenticator.cs:174-182 | disposal always clears in-progress and empties the slot; the outcome, message and cookie are kept |
| `WebviewAuthenticator.DisposeIdempotent` | GameyfinLibrary/Services/GameyfinWebviewAuthenticator.cs:174-182 | disposing twice is the same as disposing once |
| `WebviewAuthenticator.StepKeepsValid` | GameyfinLibrary/Services/GameyfinWebviewAuthenticator.cs:72-182 | every event keeps the invariant: (1) a view not asked to close means an attempt in progress with no outcome; (2) a success holds a non-blank cookie; (3) a failure has a message; (4) no outcome means no message |
| `WebviewAuthenticator.RunKeepsValid` | GameyfinLibrary/Services/GameyfinWebviewAuthenticator.cs:55-182 | a fresh authenticator satisfies the invariant, and every sequence of events keeps it |
| `WebviewAuthenticator.RedirectChainLeavesStateAlone` | GameyfinLibrary/Services/GameyfinWebviewAuthenticator.cs:126-132 | any run of load events that are still loading or off the server leaves the state exactly as it was, so an attempt stays in progress |
| `WebviewAuthenticator.CookieOutcomes` | GameyfinLibrary/Services/GameyfinWebviewAuthenticator.cs:135-160 | on the server page, a missing "sess" cookie fails with a message naming "sess" and an empty one fails with the empty-value message. A later cookie "abc123" after an unrelated one succeeds with "abc123", with in-progress still set and close requested. Disposal then clears in-progress and keeps the success |
| `WebviewAuthenticator.SecondStartClosesFirst` | GameyfinLibrary/Services/GameyfinWebviewAuthenticator.cs:81-83 | starting while any view is open, whether or not it was already asked to close, asks that view to close; after its disposal nothing is in progress and the message is the "already open" one |
| `WebviewAuthenticator.LateLoadOverturnsSuccess` | GameyfinLibrary/Services/GameyfinWebviewAuthenticator.cs:121-172 | after a success, a server page loading with no cookie, before the dialog closes, turns the result into a failure with in-progress cleared |
| `WebviewAuthenticator.NullSettingsBreakLogin` | GameyfinLibrary/Services/GameyfinWebviewAuthenticator.cs:86-131 | once CancelEdit without BeginEdit has nulled the view model's settings, a login fails with the null-reference message and opens no view, and a page load handled afterwards fails the same way and asks the dialog to close, also when that dialog was opened while the settings were still there |

## Left out

- HTTP plumbing is left out: the client and handler, the cancellable `GetAsync`, reading the body and `Dispose`. The response is a status, a reason phrase and an already-decoded body.
- JSON decoding belongs to the SDK's serialiser, which is not part of this model. A body that does not decode is the abstract error `ResponseParseFailed`.
- The hard-coded `authelia_session` cookie in the fetcher's constructor is a placeholder and not authentication behaviour. Building the base `Uri` from `GameyfinUrl` is not modelled either: the base arrives already split into scheme, authority and path.
- `GameFetcher.GetGames`: the message of the thrown exception is not modelled. That message formats the `HttpStatusCode` enum by name; the error keeps the numeric code and the reason phrase.
- `Uris.Resolve`: dot-segment removal, percent-escaping and unescaping, the rewriting of `\` to "/", and host normalisation by `System.Uri` are not modelled. References are paths only, so queries and fragments are not split off. The cover URL and download URL therefore hold literally when the id and slug contain no "." or ".." segments and no "?", "#", "%" or `\`.
- `GameFetcher.MetadataForGame`: genres, platforms, features and developers are sequences in source order. The source converts them to `HashSet<MetadataProperty>`, whose equality lives in the SDK, so duplicates are not merged here.
- `DateTime.Parse` is culture-dependent library behaviour. It is a parameter of the model.
- The lazy `IEnumerable` result is computed eagerly. Only an enumeration that the caller drives to completion is modelled; the settings are read once, when the call is made.
- Fields of the server records that are null (a missing `Library`, say) would throw a NullReferenceException. Record fields are modelled as always present.
- `Text.StartsWith`: .NET's `String.StartsWith(string)` compares culture-sensitively. The model compares character by character.
- `SettingsViewModel.SetPlatformFilter`: a null value would throw on `Trim`. The value is modelled as a string.
- Dispatcher deferral with `InvokeAsync` is a threading workaround. The deferred handler is a direct `LoadingChanged` event.
- Web view creation, `Navigate`, `OpenDialog` and the window host are reduced to the slot, the close-request flag and the `WindowClosed` event. An exception thrown by `Close()` itself is not modelled.
- Property-change notifications are UI plumbing and left out.
- Settings persistence (`LoadPluginSettings`, `SavePluginSettings`, hence `EndEdit`) is I/O and left out. `Serialization.GetClone` makes a deep copy; immutable values make that the value itself.
- The plugin glue (`GameyfinLibrary.cs`) and the browser launcher (`GameyfinClient.cs`) are not part of this model.

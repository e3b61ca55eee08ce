# RecordStore request broker — a Dafny model

RecordStore is a Next.js web application through which users find music in the MusicBrainz
catalog and ask for it to be added to a Lidarr music manager. This project models the
decision rules at its core and proves properties of them:

- **MusicBrainz client** (`musicbrainz.dfy`). The rate limiter is a class over an injected
  monotone clock. It holds the time of the last dispatch and keeps requests that are awaited
  one after another at least 1100 ms apart. Each catalog operation builds a request and sends it through the limiter. The model
  also covers the request builders (`URLSearchParams.set` over a list of pairs), the Cover Art
  Archive image-selection rule, and the batch cover lookup, which fills a map in a loop.
- **Lidarr client** (`lidarr.dfy`):
  - configuration normalisation;
  - request construction;
  - the list calls, the connection test and the existence check;
  - `addArtistToLidarr`. This is an imperative method proved equal to a pure function,
    `AddArtistSpec`, that returns the outcome together with the log of requests made. Lemmas describe which
    requests are sent and what the POST carries.
- **Settings endpoint** (`settings_route.dfy`):
  - the administrator gate;
  - the GET that masks the API key, built row by row;
  - the POST's chain of conditional upserts into a settings store;
  - the PUT connection test with its option lists.
- **Request endpoint** (`requests_route.dfy`): the body schema, the duplicate check and the
  insert into a request store, and the listing of the caller's requests, newest first.
- **Registration endpoint** (`register_route.dfy`): the form schema, the email and username
  uniqueness checks, and the insert into a user store whose first user is the administrator.
- **Search endpoints** (`artist_search.dfy`, `album_search.dfy`). The artist search adds
  covers to the first ten artists only. The album search maps each release group to an album.
- **Navigation bar** (`navbar.dfy`): the items shown for each role, the "active" rule for a
  path, and the administrator badge.

Shared pieces:

- `js.dfy` models the JavaScript built-ins the decisions depend on:
  - truthiness and `||`;
  - `parseInt` with no radix;
  - `String(n)` of an integer;
  - `encodeURIComponent`.
- `schema.dfy` models how the request-body schemas report the first issue, field by field.
- `api.dfy` holds HTTP responses, sessions and error replies.
- `wrappers.dfy` holds `Option` and `Result`.

Network answers, the database, the clock, password hashing and the email check are not
computed. They are inputs to the model:

- a `Server` value gives the manager's answer to each request;
- functions from URL to outcome give the catalog's and the archive's answers;
- `Clock` is the clock;
- a `hash` function hashes passwords;
- an `isEmail` predicate checks email addresses.

Two behaviours of the code that the model keeps as written:

- When the `mbid:` lookup is empty, the code falls back to a lookup on the bare id (the
  comment at src/lib/lidarr.ts:211). It uses that lookup only to choose between "not found"
  and going on. Its result `fallbackResults` (line 212) is never read again. Line 218 then
  posts `searchResults[0]`, the first entry of the empty lookup, which is undefined, so the
  posted body has no entry fields. See `Lidarr.FallbackResultsDiscarded`.
- When no image is flagged front, src/lib/musicbrainz.ts:209 tries the first image's 500px
  thumbnail and then its raw image. It does not try the `large` thumbnail on this path. See
  `MusicBrainz.NoFrontIgnoresLarge`.

## Model

| member | source | states |
|---|---|---|
| Js.ParseIntOfIntToString | src/lib/lidarr.ts:180-181 | `parseInt` of the decimal string of any integer gives back that integer |
| Js.EncodeUriComponentConcat | src/lib/lidarr.ts:146 | percent-encoding a lookup term works character by character, so it distributes over concatenation |
| Js.EncodeUnreservedIsIdentity | src/lib/lidarr.ts:146 | a term made only of unreserved characters (a MusicBrainz id) is sent unchanged |
| Api.SearchPagingDefaults | src/app/api/search/artist/route.ts:15-16 | an absent or empty `limit`/`offset` reads as 25/0, and a number written out reads as itself |
| MusicBrainz.RemoveParam | src/lib/musicbrainz.ts:109-112 | no pair named `key` remains, and every other name looks up as before |
| MusicBrainz.SetParam | src/lib/musicbrainz.ts:109-112 | afterwards exactly one pair is named `key` and it holds the value; other names look up as before; a new name is appended at the end |
| MusicBrainz.SetFresh | src/lib/musicbrainz.ts:109-112 | setting a name that no pair has yet appends the pair |
| MusicBrainz.SearchArtistsUrl | src/lib/musicbrainz.ts:108-112 | the `/artist` search sends query, limit (default 25), offset (default 0) and fmt=json, in that order |
| MusicBrainz.SearchReleaseGroupsUrl | src/lib/musicbrainz.ts:124-128 | the `/release-group` search sends the same four parameters |
| MusicBrainz.ArtistUrl | src/lib/musicbrainz.ts:138-140 | the artist lookup asks for release groups and tags, in JSON |
| MusicBrainz.ReleaseGroupUrl | src/lib/musicbrainz.ts:150-152 | the release-group lookup asks for releases and artist credits, in JSON |
| MusicBrainz.ArtistReleaseGroupsUrl | src/lib/musicbrainz.ts:165-172 | artist, limit (default 100) and offset (default 0) are sent, `type` only when it is a non-empty string, then fmt=json |
| MusicBrainz.CheckStatus | src/lib/musicbrainz.ts:31-35 | a 2xx response passes unchanged; any other status fails with "MusicBrainz API error: <status>"; a rejected fetch fails with its own message |
| MusicBrainz.Delay | src/lib/musicbrainz.ts:13-20 | below 1100 ms since the last dispatch the wait is exactly the remainder of 1100 ms; otherwise there is no wait |
| MusicBrainz.DelayKeepsInterval | src/lib/musicbrainz.ts:16-22 | waiting the delay, or longer, leaves at least 1100 ms since the last dispatch |
| MusicBrainz.Clock.Advance | src/lib/musicbrainz.ts:17-19 | the clock moves forward by the time elapsed |
| MusicBrainz.RateLimiter.constructor | src/lib/musicbrainz.ts:9-10 | at start-up the last dispatch time is 0 and nothing has been dispatched |
| MusicBrainz.RateLimiter.Fetch | src/lib/musicbrainz.ts:12-36 | waits `Delay`, records the clock after the wait as the last dispatch time, dispatches with the user-agent headers, and keeps dispatches awaited one after another at least 1100 ms apart; the result is the checked response |
| MusicBrainz.SearchArtists | src/lib/musicbrainz.ts:103-116 | one limited dispatch of the artist search URL; the result is the body of a 2xx response, or the error |
| MusicBrainz.SearchReleaseGroups | src/lib/musicbrainz.ts:119-132 | one limited dispatch of the release-group search URL; same result rule |
| MusicBrainz.GetArtist | src/lib/musicbrainz.ts:135-144 | one limited dispatch of the artist URL; same result rule |
| MusicBrainz.GetReleaseGroup | src/lib/musicbrainz.ts:147-156 | one limited dispatch of the release-group URL; same result rule |
| MusicBrainz.GetArtistReleaseGroups | src/lib/musicbrainz.ts:159-176 | one limited dispatch of the artist's release-group URL; same result rule |
| MusicBrainz.ConsecutiveSearches | src/lib/musicbrainz.ts:9-22 | two catalog requests awaited one after the other leave at least 1100 ms apart, however little time passes between them |
| MusicBrainz.FirstFront | src/lib/musicbrainz.ts:197-199 | the index of the first image flagged front, or none when no image is |
| MusicBrainz.SelectCover | src/lib/musicbrainz.ts:197-209 | a chosen cover is always one of some image's URLs |
| MusicBrainz.GetCoverArt | src/lib/musicbrainz.ts:179-213 | never fails: a rejected fetch or a non-2xx response gives null; otherwise the selection over the image list, where a missing list counts as empty |
| MusicBrainz.FrontImageDecides | src/lib/musicbrainz.ts:197-207 | with a front image, the first front image decides: its 500px thumbnail, else its large thumbnail, else its raw image |
| MusicBrainz.NoFrontFirstImageDecides | src/lib/musicbrainz.ts:209 | with no front image, the first image decides: its 500px thumbnail, else its raw image, else null |
| MusicBrainz.NoFrontIgnoresLarge | src/lib/musicbrainz.ts:209 | with no front image, changing the first image's large thumbnail does not change the result |
| MusicBrainz.NoImagesNoCover | src/lib/musicbrainz.ts:197-209 | an empty or missing image list gives null |
| MusicBrainz.FrontOutranksSize | src/lib/musicbrainz.ts:197-207 | a front image with only a large thumbnail wins over an earlier non-front image with a 500px one |
| MusicBrainz.BatchGetCoverArt | src/lib/musicbrainz.ts:216-230 | the map's keys are exactly the requested ids, and each maps to that id's cover |
| Lidarr.StripTrailingSlash | src/lib/lidarr.ts:24 | at most one trailing slash is removed, and only a trailing one |
| Lidarr.GetLidarrConfig | src/lib/lidarr.ts:11-27 | absent exactly when the URL or the key is missing or empty; otherwise the URL without its trailing slash and the key as stored |
| Lidarr.LidarrFetch | src/lib/lidarr.ts:29-51 | fails with "Lidarr is not configured" exactly when there is no configuration; otherwise targets `<url>/api/v1<endpoint>` with the stored key in `X-Api-Key` and `Content-Type: application/json` |
| Lidarr.ListCall | src/lib/lidarr.ts:110-153 | the list requests (root folders, quality and metadata profiles, artist lookup) succeed exactly when configured and 2xx, with the body; a non-2xx fails with the operation's message and the status text |
| Lidarr.TestLidarrConnection | src/lib/lidarr.ts:81-107 | never fails: success exactly when configured and 2xx, with the version; otherwise "HTTP <status>: <text>", the thrown message, or the not-configured message |
| Lidarr.AnyWithForeignId | src/lib/lidarr.ts:268 | true exactly when some artist has the foreign id |
| Lidarr.ArtistExistsInLidarr | src/lib/lidarr.ts:263-272 | true exactly when the artist list can be read and holds the id; false when it cannot be read |
| Lidarr.Resolve | src/lib/lidarr.ts:179-197 | the root folder, quality profile and metadata profile an add uses are non-empty and non-zero |
| Lidarr.ResolvedRootFolder | src/lib/lidarr.ts:179-190 | a truthy saved root folder is used as stored, even when the lists are requested for another setting; otherwise the folder list succeeded, is non-empty, and its first path is used |
| Lidarr.ResolvedProfiles | src/lib/lidarr.ts:180-192 | each profile id is the saved one when it reads as a non-zero number, even when the lists are requested; otherwise its list succeeded, is non-empty, and its first id is used |
| Lidarr.ResolveFailsExactlyWhenUnresolved | src/lib/lidarr.ts:183-197 | resolution fails exactly when the lists are needed and one of them fails, or when some setting has no truthy saved value and its list is empty or starts with an empty path or id 0 |
| Lidarr.ResolveSettings | src/lib/lidarr.ts:166-197 | the step-by-step resolution gives `Resolve`'s result, and requests the three lists exactly when a saved setting is missing |
| Lidarr.LookupAndAdd | src/lib/lidarr.ts:199-244 | the lookups and the POST give the outcome and the requests of the pure function `Lidarr.LookupAndPost` |
| Lidarr.AddArtistToLidarr | src/lib/lidarr.ts:156-249 | the method's outcome and its requests, in order, are those of the pure function `Lidarr.AddArtistSpec` |
| Js.EncodeMbidPrefix | src/lib/lidarr.ts:146 | `mbid:` is encoded as `mbid%3A` |
| Lidarr.EncodedLookupTerm | src/lib/lidarr.ts:146 | the lookup term of an id made of unreserved characters is encoded as `mbid%3A` followed by the id |
| Lidarr.LookupRequestUrl | src/lib/lidarr.ts:143-146 | the lookup for such an id is a GET of `<url>/api/v1/artist/lookup?term=mbid%3A<id>` |
| Lidarr.NotConfiguredSendsNothing | src/lib/lidarr.ts:160-164 | without a configuration the result is null and nothing is sent |
| Lidarr.LookupAndPostShape | src/lib/lidarr.ts:208-235 | after resolution the `mbid:` lookup comes first, then lookups, then at most one POST |
| Lidarr.CallsShape | src/lib/lidarr.ts:183-235 | the requests are the three lists (only when a setting is missing) followed by the lookups and the POST |
| Lidarr.ListsOnlyWhenMissing | src/lib/lidarr.ts:183-188 | the three lists are requested first when a saved setting is missing, and never otherwise |
| Lidarr.SavedSettingsWin | src/lib/lidarr.ts:179-183 | when all three settings are saved and truthy they are used as stored |
| Lidarr.ZeroOrNaNProfileIsMissing | src/lib/lidarr.ts:180-183 | a saved profile that reads as 0 or NaN counts as missing |
| Lidarr.UnresolvedFailsBeforeLookup | src/lib/lidarr.ts:195-197 | an unresolved setting fails the add before any lookup or POST |
| Lidarr.EmptyRootFoldersIncomplete | src/lib/lidarr.ts:190-197 | no saved root folder and an empty folder list fail with "Could not determine Lidarr configuration" after the list requests only |
| Lidarr.KindDoesNotMatter | src/lib/lidarr.ts:201-206 | artist and album requests behave identically |
| Lidarr.NotFoundExactlyWhenBothLookupsEmpty | src/lib/lidarr.ts:208-216 | "Artist not found" exactly when resolution succeeds and both the prefixed and the bare lookups are empty |
| Lidarr.PostedBody | src/lib/lidarr.ts:218-235 | a POST is the last request, follows the `mbid:` lookup, and carries that lookup's first result with the resolved settings, monitoring all and searching for missing albums |
| Lidarr.PostComesLast | src/lib/lidarr.ts:218-235 | after resolution a POST is the last request and carries the prefixed lookup's first result |
| Lidarr.FallbackResultsDiscarded | src/lib/lidarr.ts:210-218 | when only the bare lookup finds the artist, the POST carries no entry |
| Lidarr.StoredProfileIdReadBack | src/lib/lidarr.ts:180-181 | a profile id stored as its decimal string is read back as the same id |
| SettingsRoute.Mask | src/app/api/settings/lidarr/route.ts:28 | the mask is eight bullets followed by at most the last four characters of the key |
| SettingsRoute.MaskedSettings | src/app/api/settings/lidarr/route.ts:15-32 | the reply has exactly the `lidarr_` keys; every other value is verbatim; the API key is empty exactly when stored empty, and otherwise is the mask of the stored key |
| SettingsRoute.GetSettings | src/app/api/settings/lidarr/route.ts:8-42 | 401 unless an administrator with a user id; otherwise the map the row-by-row loop builds is the masked settings |
| SettingsRoute.MaskedSettingsOfRows | src/app/api/settings/lidarr/route.ts:24-32 | a map holding the shown value of exactly the `lidarr_` rows is the GET reply |
| SettingsRoute.MaskRevealsAtMostFour | src/app/api/settings/lidarr/route.ts:27-28 | the GET reveals at most the last four characters of the stored key |
| SettingsRoute.ToString | src/app/api/settings/lidarr/route.ts:87 | `toString()` fails exactly on null and gives a string as itself |
| SettingsRoute.SettingsStore.Upsert | src/app/api/settings/lidarr/route.ts:58-62 | the row is created or overwritten, and no other row changes |
| SettingsRoute.SaveSettings | src/app/api/settings/lidarr/route.ts:45-109 | 401 changes nothing; a body that is not JSON fails and changes nothing; otherwise the store after the upserts is that of the pure function `SettingsRoute.SaveSpec`, with 500 when an upsert fails |
| SettingsRoute.SaveTouchesOnlyFormKeys | src/app/api/settings/lidarr/route.ts:57-99 | a POST writes no key other than the five settings, whether or not it succeeds |
| SettingsRoute.SavedFieldsAreStored | src/app/api/settings/lidarr/route.ts:57-99 | a successful POST stores every present field, the profiles as strings, and the API key unless it starts with the mask |
| SettingsRoute.SaveFailsOnBadField | src/app/api/settings/lidarr/route.ts:57-99 | a POST fails exactly when a present field has a type its upsert rejects |
| SettingsRoute.SaveKeepsUnwritten | src/app/api/settings/lidarr/route.ts:57-99 | a row the body does not write (its field is missing, or the API key starts with the mask) keeps its presence and value, whether or not the POST succeeds |
| SettingsRoute.AbsentFieldsUntouched | src/app/api/settings/lidarr/route.ts:57-99 | each of the five fields missing from the body leaves its row present or absent as before, with the same value |
| SettingsRoute.MaskPrefixSkipped | src/app/api/settings/lidarr/route.ts:66-72 | an API key starting with the mask marker leaves the stored key, or its absence, as it was |
| SettingsRoute.FailureKeepsEarlierWrites | src/app/api/settings/lidarr/route.ts:56-72 | upserts are not undone: a URL saved before a failing API key stays saved |
| SettingsRoute.MaskedApiKeyRoundTrip | src/app/api/settings/lidarr/route.ts:66-72 | posting back the key as the GET showed it leaves the stored key unchanged |
| SettingsRoute.SavedProfileNumberReadBack | src/app/api/settings/lidarr/route.ts:84-90 | a numeric profile saved by the POST is read by the Lidarr client as the same id |
| SettingsRoute.OrEmpty | src/app/api/settings/lidarr/route.ts:125-127 | a list that cannot be read becomes empty; otherwise it is kept |
| SettingsRoute.TestConnection | src/app/api/settings/lidarr/route.ts:112-146 | 401 unless an administrator; the test's result as it is, with the three lists exactly when it succeeded |
| SettingsRoute.FailedTestHasNoLists | src/app/api/settings/lidarr/route.ts:120-138 | without a configuration the reply is the failed test with no lists |
| Schema.StringFieldIssues | src/app/api/requests/route.ts:7-13 | a string field has no issue exactly when it is an optional absent field or a string passing its checks; a missing field is "Required"; a wrong type is reported with the type received |
| RequestsRoute.KindIssues | src/app/api/requests/route.ts:9 | the kind has no issue exactly when it is "ALBUM" or "ARTIST" |
| RequestsRoute.Validate | src/app/api/requests/route.ts:7-32 | valid exactly when the id and title are non-empty strings, the kind is one of the two, and the optional fields are strings or absent; the data carries the fields |
| RequestsRoute.MissingIdIsReportedFirst | src/app/api/requests/route.ts:8 | a missing id is reported as "Required" whatever the other fields hold |
| RequestsRoute.BadKindReported | src/app/api/requests/route.ts:9 | with a good id, a string kind outside the two is reported with the enum message |
| RequestsRoute.EmptyTitleReported | src/app/api/requests/route.ts:10 | an empty title after valid fields is reported as too short |
| RequestsRoute.HasRequested | src/app/api/requests/route.ts:37-42 | true exactly when the user has a request for the item, whatever its kind and status |
| RequestsRoute.RequestStore.Create | src/app/api/requests/route.ts:16-71 | 401, 500, 400 for validation and 400 for a duplicate leave the store unchanged; otherwise one PENDING request with the user's id is appended; the store never holds two requests by one user for one item |
| RequestsRoute.ParseStatus | src/app/api/requests/route.ts:88 | a status is named exactly by one of PENDING, APPROVED, REJECTED, PROCESSING and AVAILABLE, and each name gives the status of that name |
| RequestsRoute.ParseStatusName | src/app/api/requests/route.ts:88 | every status is read back from its own name |
| RequestsRoute.NewestFirst | src/app/api/requests/route.ts:85-93 | a request is listed exactly when it is stored, is the caller's, and has the status asked for |
| RequestsRoute.NewestFirstIsDescending | src/app/api/requests/route.ts:90-92 | a store in creation order is listed in strictly decreasing creation order |
| RequestsRoute.ListRequests | src/app/api/requests/route.ts:74-103 | 401 without a user id; 500 for a status that names none; otherwise (an empty status, or one that names a status) always a success holding exactly the caller's requests with that status |
| RequestsRoute.ListedNewestFirst | src/app/api/requests/route.ts:85-93 | the listing of a valid store is newest first |
| RegisterRoute.UsernameChecks | src/app/api/auth/register/route.ts:8-12 | no issue exactly when the username has 3 to 20 characters from `[A-Za-z0-9_]`; a short or long name reports that first |
| RegisterRoute.PasswordChecks | src/app/api/auth/register/route.ts:13 | no issue exactly when the password has at least 8 characters |
| RegisterRoute.Validate | src/app/api/auth/register/route.ts:6-27 | valid exactly when all three fields are strings passing their checks; the form carries the three values |
| RegisterRoute.ShortUsernameReportedFirst | src/app/api/auth/register/route.ts:10 | after a good email, a short username is the first issue reported |
| RegisterRoute.ShortPasswordReported | src/app/api/auth/register/route.ts:13 | after a good email and username, a short password is reported |
| RegisterRoute.Public | src/app/api/auth/register/route.ts:71-76 | the reply shows id, email, username and role; it has no password because the `PublicUser` type has no such field |
| RegisterRoute.AppendUserKeepsValid | src/app/api/auth/register/route.ts:54-64 | a new user with a fresh email and username, numbered next and administrator only when first, keeps emails and usernames unique |
| RegisterRoute.UserStore.Register | src/app/api/auth/register/route.ts:16-87 | every rejection leaves the store unchanged; the email is checked before the username; otherwise one user is added, ADMIN exactly when the store was empty, stored with the hashed password |
| RegisterRoute.OnlyFirstUserIsAdmin | src/app/api/auth/register/route.ts:54-64 | in a valid store the administrator is exactly the first user |
| ArtistSearchRoute.FirstAlbumUrl | src/app/api/search/artist/route.ts:29 | the first-album request asks for one album of the artist from offset 0 |
| ArtistSearchRoute.FirstAlbumCover | src/app/api/search/artist/route.ts:28-43 | null when the request fails or the artist has no album; otherwise the cover of the first album |
| ArtistSearchRoute.WithCovers | src/app/api/search/artist/route.ts:26-55 | same length and order as the catalog's artists; the first ten get their first album's cover; the rest get null |
| ArtistSearchRoute.SearchArtistsRoute | src/app/api/search/artist/route.ts:6-64 | 401 without a session; 400 without `q`; 500 when the search fails; otherwise the search body with its artists enriched |
| ArtistSearchRoute.DefaultSearchPaging | src/app/api/search/artist/route.ts:15-23 | without `limit` and `offset` the catalog is asked for 25 artists from offset 0 |
| ArtistSearchRoute.FailureIsPerArtist | src/app/api/search/artist/route.ts:41-43 | one artist's failing request costs only that artist its cover |
| AlbumSearchRoute.FirstCredited | src/app/api/search/album/route.ts:29 | there is a credited artist exactly when the credit list exists and is non-empty |
| AlbumSearchRoute.ArtistName | src/app/api/search/album/route.ts:29 | the first credited artist's name when non-empty, otherwise "Unknown Artist" |
| AlbumSearchRoute.AlbumOf | src/app/api/search/album/route.ts:28-40 | id, title, type, secondary types and date are copied; the artist name as above; the artist id is the first credited artist's, present exactly when the credit list exists and is non-empty; the cover from the archive |
| AlbumSearchRoute.Albums | src/app/api/search/album/route.ts:26-42 | same length and order as the release groups, each mapped on its own |
| AlbumSearchRoute.SearchAlbumsRoute | src/app/api/search/album/route.ts:6-56 | 401 without a session; 400 without `q`; 500 when the search fails; otherwise the catalog's count and offset with one album per release group |
| AlbumSearchRoute.AlbumsOfConcat | src/app/api/search/album/route.ts:26-42 | mapping commutes with joining lists, so each album depends only on its own release group |
| Navbar.Navigation | src/components/layout/navbar.tsx:14-21 | an administrator sees Search, My Requests, Admin and Settings in that order; anyone else sees the first two |
| Navbar.MenuLinks | src/components/layout/navbar.tsx:36-53 | one link per item, in order, active exactly when the path is the link or below it |
| Navbar.Render | src/components/layout/navbar.tsx:10-105 | the desktop and mobile menus are the same links; the badge shows exactly for an administrator |
| Navbar.ActiveMeansBelow | src/components/layout/navbar.tsx:44 | an item is active exactly when the path is its link or continues it with `/` |
| Navbar.SearchHighlighting | src/components/layout/navbar.tsx:44 | `/searching` does not highlight Search, while `/search` and `/search/results` do |
| Navbar.AtMostOneActive | src/components/layout/navbar.tsx:16-44 | at most one menu item is highlighted for any path |

## Left out

- Network, JSON parsing and HTTP plumbing. The manager's, the catalog's and the archive's
  answers are inputs. A body that is not JSON is an absent body. A catalog response whose JSON
  cannot be read is not modelled.
- Database failures. The 500 replies that a failing Prisma query produces are not modelled
  (GET settings "Failed to fetch settings", and the catch blocks of the request and
  registration routes on a store error). The stores are sequences and maps that always answer.
  One exception: the requests listing's 500 for a `status` value that names no status is
  modelled, since the database rejects such a filter.
- Concurrency. `Promise.all` in the search routes, in `batchGetCoverArt` and in the list
  requests of an add is modelled as sequential. When several of the three lists fail, the one
  reported is the first in list order, whereas the code reports whichever rejects first. Races
  between concurrent requests on the stores are not modelled.
- MusicBrainz.RateLimiter.Fetch: the 1100 ms interval is proved only for requests awaited one
  after another. The code reads `lastRequestTime` before its wait and writes it after
  (src/lib/musicbrainz.ts:13-20), so calls started in the same tick all read the same value.
  The artist search starts up to ten `getArtistReleaseGroups` calls at once
  (src/app/api/search/artist/route.ts:26-29). Those calls can be dispatched at the same
  instant. The model runs them one after another.
- Timers. `setTimeout` is the clock advancing by the wait plus a `late` amount. Real time is
  the injected `Clock`.
- Password hashing (bcrypt) is an uninterpreted `hash` function. The schema's email check is
  an uninterpreted `isEmail` predicate.
- Session retrieval (NextAuth) is an optional session input. Logging, styling, icons' drawings
  and the sign-out button are not modelled.
- Request ids and user ids. A request's `createdAt` is a creation counter, so its timestamps
  are strictly increasing. A user's id is their position in the store. Generated ids (cuid)
  and wall-clock timestamps are not modelled.
- Numbers. They are integers or NaN. Floating point, `-0` and the exponent notation of very
  large numbers in `String(n)` are not modelled.
- RegisterRoute.UsernameChecks: lengths are counted in Unicode code points, whereas the schema
  counts UTF-16 code units. The two differ only for characters outside the Basic Multilingual
  Plane. A name outside `[A-Za-z0-9_]` is rejected either way.
- RegisterRoute.PasswordChecks: the minimum of 8 is counted in Unicode code points, whereas the
  schema counts UTF-16 code units. "😀😀😀😀" is 8 code units, so the code accepts it. It is
  4 code points, so the model rejects it.
- SettingsRoute.Mask: the last four characters are taken in Unicode code points, whereas
  `slice(-4)` takes UTF-16 code units. For the key "abc😀" the code shows the bullets then
  "bc😀", while the model shows the bullets then "abc😀".
- MusicBrainz.ArtistUrl: the id is appended to the path as given. `new URL` parses it, so an
  id holding `?`, `#` or a dot segment changes the query or the path. For example, "abc?x=1"
  can reach `getArtist` through src/app/api/artist/[id]/route.ts. The model assumes ids
  without these characters, as MusicBrainz ids are.
- MusicBrainz.ReleaseGroupUrl: the same holds for the release-group id.
- Js.EncodeUriComponent: Dafny characters are Unicode scalar values, so the error that
  `encodeURIComponent` raises on a lone surrogate cannot occur in the model.
- JSON arrays in the settings POST body are not modelled as field values.
- `src/app/api/admin/requests/route.ts`, `src/app/api/admin/requests/[id]/route.ts`,
  `src/app/api/artist/[id]/route.ts`, the pages, `src/app/layout.tsx` and `next.config.ts`
  are not part of this model.
- The root-folder, profile, lookup and artist-list requests (`getRootFolders`,
  `getQualityProfiles`, `getMetadataProfiles`, `searchArtist`, `getArtists`) have no row of
  their own. Each is `Lidarr.ListCall` applied to its answer and its failure message.

/** The Lidarr client. Its configuration is read from the settings store on every call;
    the manager's answers to each request are given as a `Server` value. */
module Lidarr {
  import opened Wrappers
  import opened Js
  import opened Api

  const UrlKey := "lidarr_url"
  const ApiKeyKey := "lidarr_api_key"
  const RootFolderKey := "lidarr_root_folder"
  const QualityProfileKey := "lidarr_quality_profile"
  const MetadataProfileKey := "lidarr_metadata_profile"

  const NotConfiguredMessage := "Lidarr is not configured"

  /** The settings store: one value per key. */
  type Settings = map<string, string>

  /** `(await prisma.settings.findUnique({where: {key}}))?.value` */
  function Saved(settings: Settings, key: string): Option<string> {
    if key in settings then Some(settings[key]) else None
  }

  // ---------------------------------------------------------------- configuration and requests

  datatype Config = Config(url: string, apiKey: string)

  /** `url.replace(/\/$/, "")`: at most one trailing slash removed. */
  function StripTrailingSlash(url: string): (r: string)
    ensures url == r + "/" || (r == url && (url == [] || url[|url| - 1] != '/'))
  {
    if url != [] && url[|url| - 1] == '/' then url[..|url| - 1] else url
  }

  /** `getLidarrConfig`: absent when the URL or the API key is missing or empty. */
  function GetLidarrConfig(settings: Settings): (c: Option<Config>)
    ensures c.None? <==> !StrTruthy(Saved(settings, UrlKey)) || !StrTruthy(Saved(settings, ApiKeyKey))
    ensures c.Some? ==> c.value.url == StripTrailingSlash(settings[UrlKey]) && c.value.apiKey == settings[ApiKeyKey]
  {
    if !StrTruthy(Saved(settings, UrlKey)) || !StrTruthy(Saved(settings, ApiKeyKey)) then None
    else Some(Config(StripTrailingSlash(settings[UrlKey]), settings[ApiKeyKey]))
  }

  datatype LidarrArtist = LidarrArtist(
    id: int, artistName: string, foreignArtistId: string, status: string, path: string,
    qualityProfileId: int, metadataProfileId: int, monitored: bool)

  datatype RootFolder = RootFolder(id: int, path: string, freeSpace: int)

  datatype Profile = Profile(id: int, name: string)

  datatype StatusBody = StatusBody(version: Option<string>)

  datatype AddOptions = AddOptions(monitor: string, searchForMissingAlbums: bool)

  /** The body posted to add an artist: the fields of the lookup entry (none when the entry
      is `undefined`), with the fields named here taking precedence over the entry's own. */
  datatype AddArtistBody = AddArtistBody(
    entry: Option<LidarrArtist>, rootFolderPath: string, qualityProfileId: int, metadataProfileId: int,
    monitored: bool, monitorNewItems: string, addOptions: AddOptions)

  datatype HttpMethod = GET | POST

  /** A request to the manager as it is sent. */
  datatype LidarrRequest = LidarrRequest(verb: HttpMethod, url: string, headers: seq<(string, string)>, body: Option<AddArtistBody>)

  /** `lidarrFetch(endpoint, options)`: the request it sends, or the error it throws when
      there is no configuration. */
  function LidarrFetch(settings: Settings, endpoint: string, verb: HttpMethod, body: Option<AddArtistBody>): (r: Result<LidarrRequest, string>)
    ensures r.Err? <==> GetLidarrConfig(settings).None?
    ensures r.Err? ==> r.error == NotConfiguredMessage
    ensures r.Ok? ==> && r.value.url == GetLidarrConfig(settings).value.url + "/api/v1" + endpoint
                      && |r.value.headers| == 2 && r.value.headers[0] == ("X-Api-Key", settings[ApiKeyKey])
                      && r.value.headers[1] == ("Content-Type", "application/json")
                      && r.value.verb == verb && r.value.body == body
  {
    match GetLidarrConfig(settings)
    case None => Err(NotConfiguredMessage)
    case Some(config) =>
      Ok(LidarrRequest(verb, config.url + "/api/v1" + endpoint,
                       [("X-Api-Key", config.apiKey), ("Content-Type", "application/json")], body))
  }

  /** How the manager answers each request. */
  datatype Server = Server(
    status: Outcome<StatusBody>,
    rootFolders: Outcome<seq<RootFolder>>,
    qualityProfiles: Outcome<seq<Profile>>,
    metadataProfiles: Outcome<seq<Profile>>,
    lookup: string -> Outcome<seq<LidarrArtist>>,
    add: AddArtistBody -> Outcome<AddReply>,
    artists: Outcome<seq<LidarrArtist>>)

  /** The manager's answer to an add: the created artist, or an object whose `message` may be set. */
  datatype AddReply = Created(artist: LidarrArtist) | Problem(message: Option<string>)

  // ---------------------------------------------------------------- list requests

  /** A GET whose 2xx body is the result: no configuration, a rejected fetch and a non-2xx
      status each fail, the last with `failure` and the status text. */
  function ListCall<T>(settings: Settings, outcome: Outcome<seq<T>>, failure: string): (r: Result<seq<T>, string>)
    ensures GetLidarrConfig(settings).None? ==> r == Err(NotConfiguredMessage)
    ensures r.Ok? <==> GetLidarrConfig(settings).Some? && outcome.Got? && outcome.response.Ok()
    ensures r.Ok? ==> r.value == outcome.response.body
    ensures GetLidarrConfig(settings).Some? && outcome.Threw? ==> r == Err(outcome.message)
    ensures GetLidarrConfig(settings).Some? && outcome.Got? && !outcome.response.Ok() ==>
              r == Err(failure + ": " + outcome.response.statusText)
  {
    if GetLidarrConfig(settings).None? then Err(NotConfiguredMessage)
    else match outcome
      case Threw(m) => Err(m)
      case Got(response) => if response.Ok() then Ok(response.body) else Err(failure + ": " + response.statusText)
  }

  /** `getRootFolders` */
  function GetRootFolders(settings: Settings, server: Server): Result<seq<RootFolder>, string> {
    ListCall(settings, server.rootFolders, "Failed to get root folders")
  }

  /** `getQualityProfiles` */
  function GetQualityProfiles(settings: Settings, server: Server): Result<seq<Profile>, string> {
    ListCall(settings, server.qualityProfiles, "Failed to get quality profiles")
  }

  /** `getMetadataProfiles` */
  function GetMetadataProfiles(settings: Settings, server: Server): Result<seq<Profile>, string> {
    ListCall(settings, server.metadataProfiles, "Failed to get metadata profiles")
  }

  /** `searchArtist(term)` */
  function SearchArtist(settings: Settings, server: Server, term: string): Result<seq<LidarrArtist>, string> {
    ListCall(settings, server.lookup(term), "Failed to search artist")
  }

  /** `getArtists` */
  function GetArtists(settings: Settings, server: Server): Result<seq<LidarrArtist>, string> {
    ListCall(settings, server.artists, "Failed to get artists")
  }

  // ---------------------------------------------------------------- connection test and existence check

  datatype TestResult = TestResult(success: bool, error: Option<string>, version: Option<string>)

  /** `testLidarrConnection`: never fails; every failure becomes `success: false` with a message. */
  function TestLidarrConnection(settings: Settings, server: Server): (r: TestResult)
    ensures r.success <==> GetLidarrConfig(settings).Some? && server.status.Got? && server.status.response.Ok()
    ensures r.success ==> r.error == None && r.version == server.status.response.body.version
    ensures !r.success ==> r.error.Some? && r.version == None
    ensures GetLidarrConfig(settings).None? ==> r.error == Some(NotConfiguredMessage)
    ensures GetLidarrConfig(settings).Some? && server.status.Threw? ==> r.error == Some(server.status.message)
    ensures GetLidarrConfig(settings).Some? && server.status.Got? && !server.status.response.Ok() ==>
              r.error == Some("HTTP " + IntToString(server.status.response.status) + ": " + server.status.response.statusText)
  {
    if GetLidarrConfig(settings).None? then TestResult(false, Some(NotConfiguredMessage), None)
    else match server.status
      case Threw(m) => TestResult(false, Some(m), None)
      case Got(response) =>
        if !response.Ok() then
          TestResult(false, Some("HTTP " + IntToString(response.status) + ": " + response.statusText), None)
        else TestResult(true, None, response.body.version)
  }

  /** `artists.some(a => a.foreignArtistId === id)` */
  function AnyWithForeignId(artists: seq<LidarrArtist>, musicBrainzId: string): (b: bool)
    ensures b <==> exists i :: 0 <= i < |artists| && artists[i].foreignArtistId == musicBrainzId
  {
    if artists == [] then false
    else artists[0].foreignArtistId == musicBrainzId || AnyWithForeignId(artists[1..], musicBrainzId)
  }

  /** `artistExistsInLidarr`: true exactly when the manager's artist list can be read and
      holds an artist with this foreign id; false when the list cannot be read. */
  function ArtistExistsInLidarr(settings: Settings, server: Server, musicBrainzId: string): (b: bool)
    ensures b <==> && GetArtists(settings, server).Ok?
                   && exists i :: 0 <= i < |GetArtists(settings, server).value|
                                  && GetArtists(settings, server).value[i].foreignArtistId == musicBrainzId
    ensures GetArtists(settings, server).Err? ==> !b
  {
    match GetArtists(settings, server)
    case Err(_) => false
    case Ok(artists) => AnyWithForeignId(artists, musicBrainzId)
  }

  // ---------------------------------------------------------------- adding an artist

  /** The requests `addArtistToLidarr` sends. */
  datatype Call = ListRootFolders | ListQualityProfiles | ListMetadataProfiles | Lookup(term: string) | Post(body: AddArtistBody)

  /** The HTTP request each call sends. */
  function RequestOf(settings: Settings, call: Call): Result<LidarrRequest, string> {
    match call
    case ListRootFolders => LidarrFetch(settings, "/rootfolder", GET, None)
    case ListQualityProfiles => LidarrFetch(settings, "/qualityprofile", GET, None)
    case ListMetadataProfiles => LidarrFetch(settings, "/metadataprofile", GET, None)
    case Lookup(term) => LidarrFetch(settings, "/artist/lookup?term=" + EncodeUriComponent(term), GET, None)
    case Post(body) => LidarrFetch(settings, "/artist", POST, Some(body))
  }

  /** The three list requests sent together when a setting has to be completed. */
  const ListCalls := [ListRootFolders, ListQualityProfiles, ListMetadataProfiles]

  /** Why an add failed. */
  datatype AddError = ConfigurationIncomplete | NotFoundUpstream | Upstream(message: string)

  /** The message of the error thrown. */
  function ErrorMessage(e: AddError): string {
    match e
    case ConfigurationIncomplete => "Could not determine Lidarr configuration"
    case NotFoundUpstream => "Artist not found in Lidarr lookup"
    case Upstream(m) => m
  }

  /** `null` when not configured, the manager's reply to the POST, or the error thrown. */
  datatype AddOutcome = Skipped | Added(reply: AddReply) | Failed(error: AddError)

  /** A saved profile id: `value ? parseInt(value) : undefined`. */
  function SavedProfileId(settings: Settings, key: string): Option<JsInt> {
    if StrTruthy(Saved(settings, key)) then Some(ParseInt(settings[key])) else None
  }

  /** A profile id that is a number other than 0 and NaN. */
  predicate IdTruthy(x: Option<JsInt>) {
    x.Some? && NumTruthy(x.value)
  }

  /** Some saved setting is missing, empty, or (for a profile) reads as 0 or NaN. */
  predicate NeedsDefaults(settings: Settings) {
    || !StrTruthy(Saved(settings, RootFolderKey))
    || !IdTruthy(SavedProfileId(settings, QualityProfileKey))
    || !IdTruthy(SavedProfileId(settings, MetadataProfileKey))
  }

  /** `saved || folders[0]?.path` */
  function DefaultRootFolder(saved: Option<string>, folders: seq<RootFolder>): Option<string> {
    if StrTruthy(saved) then saved else if folders == [] then None else Some(folders[0].path)
  }

  /** `saved || profiles[0]?.id` */
  function DefaultProfileId(saved: Option<JsInt>, profiles: seq<Profile>): Option<JsInt> {
    if IdTruthy(saved) then saved else if profiles == [] then None else Some(Num(profiles[0].id))
  }

  datatype Resolved = Resolved(rootFolderPath: string, qualityProfileId: int, metadataProfileId: int)

  /** The three settings an add uses: the saved ones when all are present, otherwise each
      missing one completed from the first option the manager lists. The three lists are
      requested together; the first of them (in that order) that fails fails the add. */
  function Resolve(settings: Settings, server: Server): (r: Result<Resolved, AddError>)
    ensures r.Ok? ==> r.value.rootFolderPath != "" && r.value.qualityProfileId != 0 && r.value.metadataProfileId != 0
  {
    var root := Saved(settings, RootFolderKey);
    var quality := SavedProfileId(settings, QualityProfileKey);
    var metadata := SavedProfileId(settings, MetadataProfileKey);
    if !NeedsDefaults(settings) then Ok(Resolved(root.value, quality.value.n, metadata.value.n))
    else
      var folders := GetRootFolders(settings, server);
      var qualities := GetQualityProfiles(settings, server);
      var metadatas := GetMetadataProfiles(settings, server);
      if folders.Err? then Err(Upstream(folders.error))
      else if qualities.Err? then Err(Upstream(qualities.error))
      else if metadatas.Err? then Err(Upstream(metadatas.error))
      else
        var root' := DefaultRootFolder(root, folders.value);
        var quality' := DefaultProfileId(quality, qualities.value);
        var metadata' := DefaultProfileId(metadata, metadatas.value);
        if StrTruthy(root') && IdTruthy(quality') && IdTruthy(metadata') then
          Ok(Resolved(root'.value, quality'.value.n, metadata'.value.n))
        else Err(ConfigurationIncomplete)
  }

  /** The lookup term: the same for an artist and an album request. */
  function SearchTerm(musicBrainzId: string, kind: MediaKind): string {
    "mbid:" + musicBrainzId
  }

  /** The POST body for a lookup entry and the resolved settings. */
  function AddBody(entry: Option<LidarrArtist>, settings: Resolved): AddArtistBody {
    AddArtistBody(entry, settings.rootFolderPath, settings.qualityProfileId, settings.metadataProfileId,
                  true, "all", AddOptions("all", true))
  }

  /** What a POST yields: the 2xx body, or the error with the reply's message, else one
      built from the status text. */
  function PostOutcome(outcome: Outcome<AddReply>): AddOutcome {
    match outcome
    case Threw(m) => Failed(Upstream(m))
    case Got(response) =>
      if response.Ok() then Added(response.body)
      else
        var message := if response.body.Problem? then response.body.message else None;
        Failed(Upstream(OrElse(message, Some("Failed to add artist: " + response.statusText)).value))
  }

  /** The steps after the settings are resolved: the prefixed lookup, the fallback lookup on
      the bare id when the first is empty, and the POST; with the calls they make. */
  function LookupAndPost(settings: Settings, server: Server, musicBrainzId: string, kind: MediaKind, resolved: Resolved): (AddOutcome, seq<Call>) {
    var term := SearchTerm(musicBrainzId, kind);
    match SearchArtist(settings, server, term)
    case Err(e) => (Failed(Upstream(e)), [Lookup(term)])
    case Ok(results) =>
      if results == [] then
        var fallback := SearchArtist(settings, server, musicBrainzId);
        var looked := [Lookup(term), Lookup(musicBrainzId)];
        if fallback.Err? then (Failed(Upstream(fallback.error)), looked)
        else if fallback.value == [] then (Failed(NotFoundUpstream), looked)
        else
          var body := AddBody(None, resolved);
          (PostOutcome(server.add(body)), looked + [Post(body)])
      else
        var body := AddBody(Some(results[0]), resolved);
        (PostOutcome(server.add(body)), [Lookup(term), Post(body)])
  }

  /** `addArtistToLidarr` as a value: its outcome and the calls it makes, in order. */
  function AddArtistSpec(settings: Settings, server: Server, musicBrainzId: string, kind: MediaKind): (AddOutcome, seq<Call>) {
    if GetLidarrConfig(settings).None? then (Skipped, [])
    else
      var listed := if NeedsDefaults(settings) then ListCalls else [];
      match Resolve(settings, server)
      case Err(e) => (Failed(e), listed)
      case Ok(resolved) =>
        var (r, rest) := LookupAndPost(settings, server, musicBrainzId, kind, resolved);
        (r, listed + rest)
  }

  /** The first half of `addArtistToLidarr`: the saved settings, completed from the manager's
      lists when one is missing; with the list calls made. */
  method ResolveSettings(settings: Settings, server: Server) returns (resolution: Result<Resolved, AddError>, calls: seq<Call>)
    requires GetLidarrConfig(settings).Some?
    ensures resolution == Resolve(settings, server)
    ensures calls == if NeedsDefaults(settings) then ListCalls else []
  {
    calls := [];
    var rootFolderPath := Saved(settings, RootFolderKey);
    var qualityProfileId := SavedProfileId(settings, QualityProfileKey);
    var metadataProfileId := SavedProfileId(settings, MetadataProfileKey);

    if !StrTruthy(rootFolderPath) || !IdTruthy(qualityProfileId) || !IdTruthy(metadataProfileId) {
      calls := ListCalls;
      var rootFolders := GetRootFolders(settings, server);
      var qualityProfiles := GetQualityProfiles(settings, server);
      var metadataProfiles := GetMetadataProfiles(settings, server);
      if rootFolders.Err? {
        return Err(Upstream(rootFolders.error)), calls;
      }
      if qualityProfiles.Err? {
        return Err(Upstream(qualityProfiles.error)), calls;
      }
      if metadataProfiles.Err? {
        return Err(Upstream(metadataProfiles.error)), calls;
      }
      rootFolderPath := DefaultRootFolder(rootFolderPath, rootFolders.value);
      qualityProfileId := DefaultProfileId(qualityProfileId, qualityProfiles.value);
      metadataProfileId := DefaultProfileId(metadataProfileId, metadataProfiles.value);
    }

    if !StrTruthy(rootFolderPath) || !IdTruthy(qualityProfileId) || !IdTruthy(metadataProfileId) {
      return Err(ConfigurationIncomplete), calls;
    }
    resolution := Ok(Resolved(rootFolderPath.value, qualityProfileId.value.n, metadataProfileId.value.n));
  }

  /** The second half of `addArtistToLidarr`: the lookups and the POST, with the calls made. */
  method LookupAndAdd(settings: Settings, server: Server, musicBrainzId: string, kind: MediaKind, resolved: Resolved)
    returns (r: AddOutcome, calls: seq<Call>)
    ensures (r, calls) == LookupAndPost(settings, server, musicBrainzId, kind, resolved)
  {
    var searchTerm := "mbid:" + musicBrainzId;
    if kind == ALBUM {
      searchTerm := "mbid:" + musicBrainzId;
    }
    calls := [Lookup(searchTerm)];
    var searchResults := SearchArtist(settings, server, searchTerm);
    if searchResults.Err? {
      return Failed(Upstream(searchResults.error)), calls;
    }
    if |searchResults.value| == 0 {
      calls := calls + [Lookup(musicBrainzId)];
      assert calls == [Lookup(searchTerm), Lookup(musicBrainzId)];
      var fallbackResults := SearchArtist(settings, server, musicBrainzId);
      if fallbackResults.Err? {
        return Failed(Upstream(fallbackResults.error)), calls;
      }
      if |fallbackResults.value| == 0 {
        return Failed(NotFoundUpstream), calls;
      }
    }

    var artistToAdd := if |searchResults.value| > 0 then Some(searchResults.value[0]) else None;
    var body := AddBody(artistToAdd, resolved);
    calls := calls + [Post(body)];
    r := PostOutcome(server.add(body));
    assert calls == if searchResults.value == [] then [Lookup(searchTerm), Lookup(musicBrainzId), Post(body)]
                    else [Lookup(searchTerm), Post(body)];
  }

  /** `addArtistToLidarr(musicBrainzId, type)`: `null` without a configuration, otherwise
      the settings are resolved and the artist is looked up and posted. */
  method AddArtistToLidarr(settings: Settings, server: Server, musicBrainzId: string, kind: MediaKind)
    returns (r: AddOutcome, calls: seq<Call>)
    ensures (r, calls) == AddArtistSpec(settings, server, musicBrainzId, kind)
  {
    var config := GetLidarrConfig(settings);
    if config.None? {
      return Skipped, [];
    }
    var resolution, listed := ResolveSettings(settings, server);
    if resolution.Err? {
      return Failed(resolution.error), listed;
    }
    var rest;
    r, rest := LookupAndAdd(settings, server, musicBrainzId, kind, resolution.value);
    calls := listed + rest;
  }

  // ---------------------------------------------------------------- properties of adding

  /** Without a configuration nothing is sent and the result is `null`. */
  lemma NotConfiguredSendsNothing(settings: Settings, server: Server, musicBrainzId: string, kind: MediaKind)
    requires GetLidarrConfig(settings).None?
    ensures AddArtistSpec(settings, server, musicBrainzId, kind) == (Skipped, [])
  {
  }

  /** The calls after resolution: the prefixed lookup first, then lookups, then at most one
      POST, which comes last. */
  lemma LookupAndPostShape(settings: Settings, server: Server, musicBrainzId: string, kind: MediaKind, resolved: Resolved)
    ensures var rest := LookupAndPost(settings, server, musicBrainzId, kind, resolved).1;
            && 1 <= |rest| <= 3
            && rest[0] == Lookup("mbid:" + musicBrainzId)
            && (forall j :: 0 <= j < |rest| - 1 ==> rest[j].Lookup?)
            && (forall j :: 0 <= j < |rest| ==> rest[j].Lookup? || rest[j].Post?)
  {
  }

  /** The calls an add makes: the list requests when a setting is missing, then lookups,
      then at most one POST, which comes last. */
  lemma CallsShape(settings: Settings, server: Server, musicBrainzId: string, kind: MediaKind) returns (rest: seq<Call>)
    requires GetLidarrConfig(settings).Some?
    ensures AddArtistSpec(settings, server, musicBrainzId, kind).1
            == (if NeedsDefaults(settings) then ListCalls else []) + rest
    ensures forall j :: 0 <= j < |rest| ==> rest[j].Lookup? || rest[j].Post?
    ensures forall j :: 0 <= j < |rest| - 1 ==> rest[j].Lookup?
    ensures Resolve(settings, server).Err? <==> rest == []
    ensures rest != [] ==> rest[0] == Lookup("mbid:" + musicBrainzId)
    ensures Resolve(settings, server).Ok? ==> rest == LookupAndPost(settings, server, musicBrainzId, kind, Resolve(settings, server).value).1
  {
    var listed := if NeedsDefaults(settings) then ListCalls else [];
    var resolution := Resolve(settings, server);
    if resolution.Err? {
      rest := [];
      assert AddArtistSpec(settings, server, musicBrainzId, kind).1 == listed;
    } else {
      rest := LookupAndPost(settings, server, musicBrainzId, kind, resolution.value).1;
      LookupAndPostShape(settings, server, musicBrainzId, kind, resolution.value);
      assert AddArtistSpec(settings, server, musicBrainzId, kind).1 == listed + rest;
    }
  }

  /** With a configuration, the three lists are requested, first of all, exactly when some
      saved setting is missing, and never otherwise. */
  lemma ListsOnlyWhenMissing(settings: Settings, server: Server, musicBrainzId: string, kind: MediaKind)
    requires GetLidarrConfig(settings).Some?
    ensures var (r, calls) := AddArtistSpec(settings, server, musicBrainzId, kind);
            && r != Skipped
            && (NeedsDefaults(settings) ==> |calls| >= 3 && calls[..3] == ListCalls)
            && (!NeedsDefaults(settings) ==> forall i :: 0 <= i < |calls| ==> calls[i] !in ListCalls)
  {
    var rest := CallsShape(settings, server, musicBrainzId, kind);
    var calls := AddArtistSpec(settings, server, musicBrainzId, kind).1;
    if NeedsDefaults(settings) {
      assert calls[..3] == (ListCalls + rest)[..3] == ListCalls;
    }
  }

  /** Saved settings are used as they are when all three are present. */
  lemma SavedSettingsWin(settings: Settings, server: Server)
    requires !NeedsDefaults(settings)
    ensures Resolve(settings, server)
         == Ok(Resolved(settings[RootFolderKey], ParseInt(settings[QualityProfileKey]).n, ParseInt(settings[MetadataProfileKey]).n))
  {
  }

  /** The root folder stays unresolved: nothing truthy is saved, and the folder list fails,
      is empty, or starts with an empty path. */
  predicate RootUnresolved(settings: Settings, server: Server) {
    && !StrTruthy(Saved(settings, RootFolderKey))
    && (GetRootFolders(settings, server).Err? || GetRootFolders(settings, server).value == []
        || GetRootFolders(settings, server).value[0].path == "")
  }

  /** A profile stays unresolved: nothing truthy is saved, and its list fails, is empty, or
      starts with the id 0. */
  predicate ProfileUnresolved(saved: Option<JsInt>, profiles: Result<seq<Profile>, string>) {
    && !IdTruthy(saved)
    && (profiles.Err? || profiles.value == [] || profiles.value[0].id == 0)
  }

  /** The root folder an add uses: the saved one when truthy, even when the lists are
      requested for another setting; otherwise the first listed folder's path. */
  lemma ResolvedRootFolder(settings: Settings, server: Server)
    requires Resolve(settings, server).Ok?
    ensures var path := Resolve(settings, server).value.rootFolderPath;
            var folders := GetRootFolders(settings, server);
            && (StrTruthy(Saved(settings, RootFolderKey)) ==> path == settings[RootFolderKey])
            && (!StrTruthy(Saved(settings, RootFolderKey)) ==>
                  folders.Ok? && folders.value != [] && path == folders.value[0].path)
  {
  }

  /** Each profile an add uses: the saved id when it reads as a non-zero number, even when
      the lists are requested for another setting; otherwise the first listed profile's id. */
  lemma ResolvedProfiles(settings: Settings, server: Server)
    requires Resolve(settings, server).Ok?
    ensures var resolved := Resolve(settings, server).value;
            var qualities := GetQualityProfiles(settings, server);
            var metadatas := GetMetadataProfiles(settings, server);
            && (IdTruthy(SavedProfileId(settings, QualityProfileKey)) ==>
                  resolved.qualityProfileId == ParseInt(settings[QualityProfileKey]).n)
            && (!IdTruthy(SavedProfileId(settings, QualityProfileKey)) ==>
                  qualities.Ok? && qualities.value != [] && resolved.qualityProfileId == qualities.value[0].id)
            && (IdTruthy(SavedProfileId(settings, MetadataProfileKey)) ==>
                  resolved.metadataProfileId == ParseInt(settings[MetadataProfileKey]).n)
            && (!IdTruthy(SavedProfileId(settings, MetadataProfileKey)) ==>
                  metadatas.Ok? && metadatas.value != [] && resolved.metadataProfileId == metadatas.value[0].id)
  {
  }

  /** Resolution fails exactly when the lists are needed and one of them fails, or some
      setting stays unresolved. */
  lemma ResolveFailsExactlyWhenUnresolved(settings: Settings, server: Server)
    ensures Resolve(settings, server).Err? <==>
              || (NeedsDefaults(settings)
                  && (GetRootFolders(settings, server).Err? || GetQualityProfiles(settings, server).Err?
                      || GetMetadataProfiles(settings, server).Err?))
              || RootUnresolved(settings, server)
              || ProfileUnresolved(SavedProfileId(settings, QualityProfileKey), GetQualityProfiles(settings, server))
              || ProfileUnresolved(SavedProfileId(settings, MetadataProfileKey), GetMetadataProfiles(settings, server))
  {
  }

  /** The lookup term for an id made of unreserved characters encodes to `mbid%3A<id>`: the
      colon is percent-encoded and the id is sent as it is. */
  lemma EncodedLookupTerm(musicBrainzId: string, kind: MediaKind)
    requires forall i :: 0 <= i < |musicBrainzId| ==> IsUriUnreserved(musicBrainzId[i])
    ensures EncodeUriComponent(SearchTerm(musicBrainzId, kind)) == "mbid%3A" + musicBrainzId
  {
    EncodeUriComponentConcat("mbid:", musicBrainzId);
    EncodeUnreservedIsIdentity(musicBrainzId);
    EncodeMbidPrefix();
  }

  /** The lookup request for such an id is a GET of `/api/v1/artist/lookup?term=mbid%3A<id>`
      under the configured URL. */
  lemma LookupRequestUrl(settings: Settings, musicBrainzId: string, kind: MediaKind)
    requires GetLidarrConfig(settings).Some?
    requires forall i :: 0 <= i < |musicBrainzId| ==> IsUriUnreserved(musicBrainzId[i])
    ensures var request := RequestOf(settings, Lookup(SearchTerm(musicBrainzId, kind)));
            && request.Ok? && request.value.verb == GET
            && request.value.url == GetLidarrConfig(settings).value.url + "/api/v1/artist/lookup?term=mbid%3A" + musicBrainzId
  {
    EncodedLookupTerm(musicBrainzId, kind);
    LookupPath(GetLidarrConfig(settings).value.url, musicBrainzId);
  }

  /** The lookup endpoint joined onto the API root. */
  lemma LookupPath(base: string, musicBrainzId: string)
    ensures base + "/api/v1" + ("/artist/lookup?term=" + ("mbid%3A" + musicBrainzId))
         == base + "/api/v1/artist/lookup?term=mbid%3A" + musicBrainzId
  {
    assert "/api/v1" + "/artist/lookup?term=" + "mbid%3A" == "/api/v1/artist/lookup?term=mbid%3A";
  }

  /** A saved profile that reads as 0 or NaN counts as missing. */
  lemma ZeroOrNaNProfileIsMissing(settings: Settings)
    requires QualityProfileKey in settings
    requires ParseInt(settings[QualityProfileKey]) == Num(0) || ParseInt(settings[QualityProfileKey]) == NaN
    ensures NeedsDefaults(settings)
  {
  }

  /** When all three lists arrive but one setting is still unresolved, the add fails with the
      configuration error and no lookup or POST is made. */
  lemma UnresolvedFailsBeforeLookup(settings: Settings, server: Server, musicBrainzId: string, kind: MediaKind)
    requires GetLidarrConfig(settings).Some? && Resolve(settings, server).Err?
    ensures var (r, calls) := AddArtistSpec(settings, server, musicBrainzId, kind);
            && r == Failed(Resolve(settings, server).error)
            && forall i :: 0 <= i < |calls| ==> calls[i] in ListCalls
  {
  }

  /** No saved defaults and an empty root-folder list: the configuration error, and no POST. */
  lemma EmptyRootFoldersIncomplete(settings: Settings, server: Server, musicBrainzId: string, kind: MediaKind)
    requires GetLidarrConfig(settings).Some? && !StrTruthy(Saved(settings, RootFolderKey))
    requires GetRootFolders(settings, server) == Ok([])
    requires GetQualityProfiles(settings, server).Ok? && GetMetadataProfiles(settings, server).Ok?
    ensures var (r, calls) := AddArtistSpec(settings, server, musicBrainzId, kind);
            r == Failed(ConfigurationIncomplete) && calls == ListCalls
  {
  }

  /** Artist and album requests look up the same term and so behave the same. */
  lemma KindDoesNotMatter(settings: Settings, server: Server, musicBrainzId: string)
    ensures AddArtistSpec(settings, server, musicBrainzId, ARTIST) == AddArtistSpec(settings, server, musicBrainzId, ALBUM)
  {
  }

  /** "Not found" is reported exactly when the settings resolve and both the prefixed and the
      bare lookup succeed with no result. */
  lemma NotFoundExactlyWhenBothLookupsEmpty(settings: Settings, server: Server, musicBrainzId: string, kind: MediaKind)
    ensures AddArtistSpec(settings, server, musicBrainzId, kind).0 == Failed(NotFoundUpstream)
        <==> && GetLidarrConfig(settings).Some?
             && Resolve(settings, server).Ok?
             && SearchArtist(settings, server, "mbid:" + musicBrainzId) == Ok([])
             && SearchArtist(settings, server, musicBrainzId) == Ok([])
  {
    if GetLidarrConfig(settings).Some? && Resolve(settings, server).Ok? {
      var resolved := Resolve(settings, server).value;
      assert AddArtistSpec(settings, server, musicBrainzId, kind).0
          == LookupAndPost(settings, server, musicBrainzId, kind, resolved).0;
    }
  }

  /** Every POST carries the first result of the prefixed lookup (none when that lookup was
      empty) overridden by the resolved settings, monitoring everything and searching for
      missing albums; it follows the prefixed lookup and is the last call. */
  lemma PostedBody(settings: Settings, server: Server, musicBrainzId: string, kind: MediaKind, i: nat)
    requires var calls := AddArtistSpec(settings, server, musicBrainzId, kind).1;
             i < |calls| && calls[i].Post?
    ensures var calls := AddArtistSpec(settings, server, musicBrainzId, kind).1;
            var prefixed := SearchArtist(settings, server, "mbid:" + musicBrainzId);
            && i == |calls| - 1
            && Lookup("mbid:" + musicBrainzId) in calls[..i]
            && Resolve(settings, server).Ok? && prefixed.Ok?
            && calls[i].body == AddBody(if prefixed.value == [] then None else Some(prefixed.value[0]), Resolve(settings, server).value)
            && calls[i].body.monitored && calls[i].body.monitorNewItems == "all"
            && calls[i].body.addOptions == AddOptions("all", true)
  {
    var rest := CallsShape(settings, server, musicBrainzId, kind);
    var listed := if NeedsDefaults(settings) then ListCalls else [];
    var calls := AddArtistSpec(settings, server, musicBrainzId, kind).1;
    assert calls == listed + rest;
    assert i >= |listed| && calls[i] == rest[i - |listed|];
    var resolved := Resolve(settings, server).value;
    PostComesLast(settings, server, musicBrainzId, kind, resolved, i - |listed|);
    assert calls[|listed|] == Lookup("mbid:" + musicBrainzId) && calls[..i][|listed|] == calls[|listed|];
  }

  /** Within the lookups and the POST, a POST is the last call and carries the prefixed
      lookup's first result. */
  lemma PostComesLast(settings: Settings, server: Server, musicBrainzId: string, kind: MediaKind, resolved: Resolved, j: nat)
    requires var rest := LookupAndPost(settings, server, musicBrainzId, kind, resolved).1;
             j < |rest| && rest[j].Post?
    ensures var rest := LookupAndPost(settings, server, musicBrainzId, kind, resolved).1;
            var prefixed := SearchArtist(settings, server, "mbid:" + musicBrainzId);
            && j == |rest| - 1 && prefixed.Ok?
            && rest[j].body == AddBody(if prefixed.value == [] then None else Some(prefixed.value[0]), resolved)
  {
  }

  /** A hit for the bare id after an empty prefixed lookup lets the add go ahead, but the
      POST carries no entry from either lookup: the fallback's results are not used. */
  lemma FallbackResultsDiscarded(settings: Settings, server: Server, musicBrainzId: string, kind: MediaKind)
    requires GetLidarrConfig(settings).Some? && Resolve(settings, server).Ok?
    requires SearchArtist(settings, server, "mbid:" + musicBrainzId) == Ok([])
    requires SearchArtist(settings, server, musicBrainzId).Ok? && SearchArtist(settings, server, musicBrainzId).value != []
    ensures var calls := AddArtistSpec(settings, server, musicBrainzId, kind).1;
            calls[|calls| - 1] == Post(AddBody(None, Resolve(settings, server).value))
  {
  }

  /** A saved profile id written with `toString` is read back as the same id. */
  lemma StoredProfileIdReadBack(settings: Settings, key: string, id: int)
    requires key in settings && settings[key] == IntToString(id)
    ensures SavedProfileId(settings, key) == Some(Num(id))
  {
    ParseIntOfIntToString(id);
  }
}

/** The MusicBrainz client: the rate limiter every catalog request passes through, the
    request builders of the catalog operations, and the Cover Art Archive lookup with its
    image-selection rule. */
module MusicBrainz {
  import opened Wrappers
  import opened Js
  import opened Api

  const MusicBrainzBaseUrl := "https://musicbrainz.org/ws/2"
  const CoverArtBaseUrl := "https://coverartarchive.org"
  const UserAgent := "RecordStore/1.0.0 (https://github.com/recordstore)"

  /** The least time between two catalog dispatches, in milliseconds. */
  const MinRequestInterval := 1100

  /** The headers of every catalog and archive request. */
  const RequestHeaders: seq<(string, string)> := [("User-Agent", UserAgent), ("Accept", "application/json")]

  // ---------------------------------------------------------------- catalog records

  datatype Tag = Tag(name: string, count: int)

  datatype Artist = Artist(
    id: string, name: string, sortName: string,
    kind: Option<string>, country: Option<string>, disambiguation: Option<string>,
    tags: Option<seq<Tag>>)

  datatype Credit = Credit(artist: Artist)

  datatype ReleaseGroup = ReleaseGroup(
    id: string, title: string,
    primaryType: Option<string>, secondaryTypes: Option<seq<string>>,
    firstReleaseDate: Option<string>, artistCredit: Option<seq<Credit>>)

  datatype Release = Release(id: string, title: string, status: Option<string>, date: Option<string>, country: Option<string>)

  datatype ArtistSearchBody = ArtistSearchBody(created: string, count: int, offset: int, artists: seq<Artist>)

  datatype ReleaseGroupSearchBody = ReleaseGroupSearchBody(created: string, count: int, offset: int, releaseGroups: seq<ReleaseGroup>)

  datatype ArtistDetailBody = ArtistDetailBody(artist: Artist, releaseGroups: Option<seq<ReleaseGroup>>)

  datatype ReleaseGroupDetailBody = ReleaseGroupDetailBody(releaseGroup: ReleaseGroup, releases: Option<seq<Release>>)

  datatype ArtistReleaseGroupsBody = ArtistReleaseGroupsBody(releaseGroups: Option<seq<ReleaseGroup>>, releaseGroupCount: int)

  // ---------------------------------------------------------------- URLs

  /** A URL before serialisation: the address without its query, and the query's
      name/value pairs in order. */
  datatype Url = Url(address: string, params: seq<(string, string)>)

  /** `URLSearchParams.get`: the value of the first pair named `key`. */
  function GetParam(params: seq<(string, string)>, key: string): Option<string> {
    if params == [] then None
    else if params[0].0 == key then Some(params[0].1)
    else GetParam(params[1..], key)
  }

  /** How many pairs are named `key`. */
  function CountParam(params: seq<(string, string)>, key: string): nat {
    if params == [] then 0 else (if params[0].0 == key then 1 else 0) + CountParam(params[1..], key)
  }

  /** The pairs not named `key`. */
  function RemoveParam(params: seq<(string, string)>, key: string): (r: seq<(string, string)>)
    ensures CountParam(r, key) == 0 && GetParam(r, key) == None
    ensures forall k :: k != key ==> GetParam(r, k) == GetParam(params, k)
  {
    if params == [] then []
    else if params[0].0 == key then RemoveParam(params[1..], key)
    else [params[0]] + RemoveParam(params[1..], key)
  }

  /** `URLSearchParams.set`: the first pair named `key` takes the value and later pairs of
      that name are dropped; with no such pair, the pair is appended. */
  function SetParam(params: seq<(string, string)>, key: string, value: string): (r: seq<(string, string)>)
    ensures GetParam(r, key) == Some(value) && CountParam(r, key) == 1
    ensures forall k :: k != key ==> GetParam(r, k) == GetParam(params, k)
    ensures CountParam(params, key) == 0 ==> r == params + [(key, value)]
  {
    if params == [] then [(key, value)]
    else if params[0].0 == key then [(key, value)] + RemoveParam(params[1..], key)
    else [params[0]] + SetParam(params[1..], key, value)
  }

  /** Setting a name no pair has yet appends the pair. */
  lemma {:induction false} SetFresh(params: seq<(string, string)>, key: string, value: string)
    requires forall i :: 0 <= i < |params| ==> params[i].0 != key
    ensures SetParam(params, key, value) == params + [(key, value)]
  {
    CountFresh(params, key);
  }

  lemma {:induction false} CountFresh(params: seq<(string, string)>, key: string)
    requires forall i :: 0 <= i < |params| ==> params[i].0 != key
    ensures CountParam(params, key) == 0
  {
    if params != [] {
      CountFresh(params[1..], key);
    }
  }

  /** The query value of a numeric argument: JavaScript's string of the number, where an
      omitted argument takes its default. */
  function NumberArg(arg: Option<JsInt>, default: int): string {
    NumberToString(arg.GetOr(Num(default)))
  }

  /** A search request: `query`, `limit` (default 25), `offset` (default 0) and `fmt=json`. */
  function SearchUrl(entity: string, query: string, limit: Option<JsInt>, offset: Option<JsInt>): (u: Url)
    ensures u.address == MusicBrainzBaseUrl + "/" + entity
    ensures u.params == [("query", query), ("limit", NumberArg(limit, 25)), ("offset", NumberArg(offset, 0)), ("fmt", "json")]
  {
    var limitValue := NumberArg(limit, 25);
    var offsetValue := NumberArg(offset, 0);
    SetFresh([], "query", query);
    var p0 := SetParam([], "query", query);
    SetFresh(p0, "limit", limitValue);
    var p1 := SetParam(p0, "limit", limitValue);
    SetFresh(p1, "offset", offsetValue);
    var p2 := SetParam(p1, "offset", offsetValue);
    SetFresh(p2, "fmt", "json");
    Url(MusicBrainzBaseUrl + "/" + entity, SetParam(p2, "fmt", "json"))
  }

  /** `searchArtists(query, limit, offset)`; an argument given as `None` is omitted. */
  function SearchArtistsUrl(query: string, limit: Option<JsInt>, offset: Option<JsInt>): (u: Url)
    ensures u.address == MusicBrainzBaseUrl + "/artist"
    ensures u.params == [("query", query), ("limit", NumberArg(limit, 25)), ("offset", NumberArg(offset, 0)), ("fmt", "json")]
  {
    SearchUrl("artist", query, limit, offset)
  }

  /** `searchReleaseGroups(query, limit, offset)`. */
  function SearchReleaseGroupsUrl(query: string, limit: Option<JsInt>, offset: Option<JsInt>): (u: Url)
    ensures u.address == MusicBrainzBaseUrl + "/release-group"
    ensures u.params == [("query", query), ("limit", NumberArg(limit, 25)), ("offset", NumberArg(offset, 0)), ("fmt", "json")]
  {
    SearchUrl("release-group", query, limit, offset)
  }

  /** `getArtist(id)`: the artist with its release groups and tags. */
  function ArtistUrl(artistId: string): (u: Url)
    ensures u.address == MusicBrainzBaseUrl + "/artist/" + artistId
    ensures u.params == [("inc", "release-groups+tags"), ("fmt", "json")]
  {
    Url(MusicBrainzBaseUrl + "/artist/" + artistId, SetParam(SetParam([], "inc", "release-groups+tags"), "fmt", "json"))
  }

  /** `getReleaseGroup(id)`: the release group with its releases and artist credits. */
  function ReleaseGroupUrl(releaseGroupId: string): (u: Url)
    ensures u.address == MusicBrainzBaseUrl + "/release-group/" + releaseGroupId
    ensures u.params == [("inc", "releases+artist-credits"), ("fmt", "json")]
  {
    Url(MusicBrainzBaseUrl + "/release-group/" + releaseGroupId,
        SetParam(SetParam([], "inc", "releases+artist-credits"), "fmt", "json"))
  }

  /** `getArtistReleaseGroups(id, type, limit, offset)`: `limit` defaults to 100, `offset`
      to 0, and `type` is sent only when it is a non-empty string. */
  function ArtistReleaseGroupsUrl(artistId: string, kind: Option<string>, limit: Option<JsInt>, offset: Option<JsInt>): (u: Url)
    ensures u.address == MusicBrainzBaseUrl + "/release-group"
    ensures u.params == [("artist", artistId), ("limit", NumberArg(limit, 100)), ("offset", NumberArg(offset, 0))]
                        + (if StrTruthy(kind) then [("type", kind.value)] else [])
                        + [("fmt", "json")]
  {
    var limitValue := NumberArg(limit, 100);
    var offsetValue := NumberArg(offset, 0);
    SetFresh([], "artist", artistId);
    var p0 := SetParam([], "artist", artistId);
    SetFresh(p0, "limit", limitValue);
    var p1 := SetParam(p0, "limit", limitValue);
    SetFresh(p1, "offset", offsetValue);
    var p2 := SetParam(p1, "offset", offsetValue);
    SetFresh(p2, "type", kind.GetOr(""));
    var p3 := if StrTruthy(kind) then SetParam(p2, "type", kind.value) else p2;
    SetFresh(p3, "fmt", "json");
    Url(MusicBrainzBaseUrl + "/release-group", SetParam(p3, "fmt", "json"))
  }

  // ---------------------------------------------------------------- rate limiting

  /** The checked status of a catalog response: a 2xx response is passed on unchanged,
      any other fails with the status in the message, and a rejected fetch fails with its own. */
  function CheckStatus<T>(outcome: Outcome<T>): (r: Result<Response<T>, string>)
    ensures r.Ok? <==> outcome.Got? && outcome.response.Ok()
    ensures r.Ok? ==> r.value == outcome.response
    ensures outcome.Got? && !outcome.response.Ok() ==>
              r == Err("MusicBrainz API error: " + IntToString(outcome.response.status))
    ensures outcome.Threw? ==> r == Err(outcome.message)
  {
    match outcome
    case Threw(m) => Err(m)
    case Got(response) =>
      if response.Ok() then Ok(response)
      else Err("MusicBrainz API error: " + IntToString(response.status))
  }

  /** The body of a checked catalog response. */
  function CatalogBody<T>(outcome: Outcome<T>): Result<T, string> {
    match CheckStatus(outcome)
    case Ok(response) => Ok(response.body)
    case Err(e) => Err(e)
  }

  /** How long a dispatch waits when `elapsed` ms have passed since the previous one. */
  function Delay(elapsed: int): (d: nat)
    ensures elapsed < MinRequestInterval ==> elapsed + d == MinRequestInterval
    ensures elapsed >= MinRequestInterval ==> d == 0
  {
    if elapsed < MinRequestInterval then MinRequestInterval - elapsed else 0
  }

  /** Waiting `Delay` (or longer: a timer may fire late) before dispatching keeps a gap of at
      least the minimum interval after the previous dispatch. */
  lemma DelayKeepsInterval(last: int, now: int, late: nat)
    requires last <= now
    ensures var d := Delay(now - last);
            (if d > 0 then now + d + late else now) - last >= MinRequestInterval
  {
  }

  /** The wall clock, advancing monotonically. */
  class Clock {
    var now: int

    constructor (start: int)
      ensures now == start
    {
      now := start;
    }

    /** Time passes: other work, or a timer that fires `elapsed` ms later. */
    method Advance(elapsed: nat)
      modifies this
      ensures now == old(now) + elapsed
    {
      now := now + elapsed;
    }
  }

  /** One catalog request as it leaves the process: when, where and with which headers. */
  datatype Dispatch = Dispatch(at: int, url: Url, headers: seq<(string, string)>)

  /** The rate limiter shared by all catalog requests: the time of the last dispatch,
      read from the injected clock. */
  class RateLimiter {
    const clock: Clock
    var lastRequestTime: int
    /** Every dispatch so far, oldest first. */
    ghost var dispatches: seq<Dispatch>

    /** The clock never runs behind the last dispatch, and consecutive dispatches are at
        least the minimum interval apart. */
    ghost predicate Valid()
      reads this, clock
    {
      && lastRequestTime <= clock.now
      && (dispatches == [] ==> lastRequestTime == 0)
      && (dispatches != [] ==> lastRequestTime == dispatches[|dispatches| - 1].at)
      && forall i :: 0 < i < |dispatches| ==> dispatches[i].at - dispatches[i - 1].at >= MinRequestInterval
    }

    /** The state at start-up: no dispatch yet, `lastRequestTime` 0. */
    constructor (clock: Clock)
      requires clock.now >= 0
      ensures Valid() && this.clock == clock && clock.now == old(clock.now)
      ensures lastRequestTime == 0 && dispatches == []
    {
      this.clock := clock;
      lastRequestTime := 0;
      dispatches := [];
    }

    /** `rateLimitedFetch(url)`: when less than the minimum interval has passed since the
        last dispatch, sleep for the rest of it (the timer fires `late` ms after it is due),
        record the clock as the new dispatch time, then check the response's status. */
    method Fetch<T>(url: Url, late: nat, outcome: Outcome<T>) returns (waited: nat, r: Result<Response<T>, string>)
      requires Valid()
      modifies this, clock
      ensures Valid()
      ensures waited == Delay(old(clock.now) - old(lastRequestTime))
      ensures clock.now == old(clock.now) + (if waited > 0 then waited + late else 0)
      ensures lastRequestTime == clock.now
      ensures dispatches == old(dispatches) + [Dispatch(clock.now, url, RequestHeaders)]
      ensures old(dispatches) != [] ==> clock.now - old(lastRequestTime) >= MinRequestInterval
      ensures r == CheckStatus(outcome)
    {
      var now := clock.now;
      var timeSinceLastRequest := now - lastRequestTime;
      waited := 0;
      if timeSinceLastRequest < MinRequestInterval {
        waited := MinRequestInterval - timeSinceLastRequest;
        clock.Advance(waited + late);
      }
      lastRequestTime := clock.now;
      dispatches := dispatches + [Dispatch(lastRequestTime, url, RequestHeaders)];
      r := CheckStatus(outcome);
    }
  }

  /** `searchArtists`: one rate-limited request; the body of a 2xx response is the result. */
  method SearchArtists(limiter: RateLimiter, query: string, limit: Option<JsInt>, offset: Option<JsInt>,
                       late: nat, outcome: Outcome<ArtistSearchBody>)
    returns (r: Result<ArtistSearchBody, string>)
    requires limiter.Valid()
    modifies limiter, limiter.clock
    ensures limiter.Valid()
    ensures limiter.dispatches == old(limiter.dispatches) + [Dispatch(limiter.lastRequestTime, SearchArtistsUrl(query, limit, offset), RequestHeaders)]
    ensures r == CatalogBody(outcome)
  {
    var _, response := limiter.Fetch(SearchArtistsUrl(query, limit, offset), late, outcome);
    r := if response.Ok? then Ok(response.value.body) else Err(response.error);
  }

  /** `searchReleaseGroups`. */
  method SearchReleaseGroups(limiter: RateLimiter, query: string, limit: Option<JsInt>, offset: Option<JsInt>,
                             late: nat, outcome: Outcome<ReleaseGroupSearchBody>)
    returns (r: Result<ReleaseGroupSearchBody, string>)
    requires limiter.Valid()
    modifies limiter, limiter.clock
    ensures limiter.Valid()
    ensures limiter.dispatches == old(limiter.dispatches) + [Dispatch(limiter.lastRequestTime, SearchReleaseGroupsUrl(query, limit, offset), RequestHeaders)]
    ensures r == CatalogBody(outcome)
  {
    var _, response := limiter.Fetch(SearchReleaseGroupsUrl(query, limit, offset), late, outcome);
    r := if response.Ok? then Ok(response.value.body) else Err(response.error);
  }

  /** `getArtist`. */
  method GetArtist(limiter: RateLimiter, artistId: string, late: nat, outcome: Outcome<ArtistDetailBody>)
    returns (r: Result<ArtistDetailBody, string>)
    requires limiter.Valid()
    modifies limiter, limiter.clock
    ensures limiter.Valid()
    ensures limiter.dispatches == old(limiter.dispatches) + [Dispatch(limiter.lastRequestTime, ArtistUrl(artistId), RequestHeaders)]
    ensures r == CatalogBody(outcome)
  {
    var _, response := limiter.Fetch(ArtistUrl(artistId), late, outcome);
    r := if response.Ok? then Ok(response.value.body) else Err(response.error);
  }

  /** `getReleaseGroup`. */
  method GetReleaseGroup(limiter: RateLimiter, releaseGroupId: string, late: nat, outcome: Outcome<ReleaseGroupDetailBody>)
    returns (r: Result<ReleaseGroupDetailBody, string>)
    requires limiter.Valid()
    modifies limiter, limiter.clock
    ensures limiter.Valid()
    ensures limiter.dispatches == old(limiter.dispatches) + [Dispatch(limiter.lastRequestTime, ReleaseGroupUrl(releaseGroupId), RequestHeaders)]
    ensures r == CatalogBody(outcome)
  {
    var _, response := limiter.Fetch(ReleaseGroupUrl(releaseGroupId), late, outcome);
    r := if response.Ok? then Ok(response.value.body) else Err(response.error);
  }

  /** `getArtistReleaseGroups`. */
  method GetArtistReleaseGroups(limiter: RateLimiter, artistId: string, kind: Option<string>,
                                limit: Option<JsInt>, offset: Option<JsInt>,
                                late: nat, outcome: Outcome<ArtistReleaseGroupsBody>)
    returns (r: Result<ArtistReleaseGroupsBody, string>)
    requires limiter.Valid()
    modifies limiter, limiter.clock
    ensures limiter.Valid()
    ensures limiter.dispatches == old(limiter.dispatches) + [Dispatch(limiter.lastRequestTime, ArtistReleaseGroupsUrl(artistId, kind, limit, offset), RequestHeaders)]
    ensures r == CatalogBody(outcome)
  {
    var _, response := limiter.Fetch(ArtistReleaseGroupsUrl(artistId, kind, limit, offset), late, outcome);
    r := if response.Ok? then Ok(response.value.body) else Err(response.error);
  }

  /** Two catalog requests in a row, with any time passing in between, leave the process at
      least the minimum interval apart. */
  method ConsecutiveSearches(limiter: RateLimiter, pause: nat, q1: string, q2: string,
                             late1: nat, late2: nat, o1: Outcome<ArtistSearchBody>, o2: Outcome<ReleaseGroupSearchBody>)
    returns (first: int, second: int)
    requires limiter.Valid()
    modifies limiter, limiter.clock
    ensures limiter.Valid()
    ensures second - first >= MinRequestInterval
  {
    var _ := SearchArtists(limiter, q1, None, None, late1, o1);
    first := limiter.lastRequestTime;
    ghost var n := |limiter.dispatches|;
    assert limiter.dispatches[n - 1].at == first;
    limiter.clock.Advance(pause);
    var _ := SearchReleaseGroups(limiter, q2, None, None, late2, o2);
    second := limiter.lastRequestTime;
    assert limiter.dispatches[n].at == second && limiter.dispatches[n - 1].at == first;
  }

  // ---------------------------------------------------------------- cover art

  datatype Thumbnails = Thumbnails(size500: Option<string>, large: Option<string>)

  datatype Image = Image(front: bool, thumbnails: Option<Thumbnails>, image: Option<string>)

  /** The archive's answer for one release group; `images` may be missing. */
  datatype CoverArtBody = CoverArtBody(images: Option<seq<Image>>)

  /** The archive address of a release group's images. */
  function CoverArtUrl(releaseGroupId: string): string {
    CoverArtBaseUrl + "/release-group/" + releaseGroupId
  }

  /** `img.thumbnails?.["500"]` */
  function Thumb500(img: Image): Option<string> {
    if img.thumbnails.Some? then img.thumbnails.value.size500 else None
  }

  /** `img.thumbnails?.large` */
  function ThumbLarge(img: Image): Option<string> {
    if img.thumbnails.Some? then img.thumbnails.value.large else None
  }

  /** `images.find(img => img.front)`, as an index. */
  function FirstFront(images: seq<Image>): (k: Option<nat>)
    ensures k.Some? ==> k.value < |images| && images[k.value].front
    ensures k.Some? ==> forall j :: 0 <= j < k.value ==> !images[j].front
    ensures k.None? ==> forall j :: 0 <= j < |images| ==> !images[j].front
  {
    if images == [] then None
    else if images[0].front then Some(0)
    else match FirstFront(images[1..])
      case None => None
      case Some(j) => Some(j + 1)
  }

  /** The image list of the archive's answer: the cover URL, or None for `null`. */
  function SelectCover(images: seq<Image>): (r: Option<string>)
    ensures r.Some? ==> exists i :: 0 <= i < |images| && r in {Thumb500(images[i]), ThumbLarge(images[i]), images[i].image}
  {
    match FirstFront(images)
    case Some(i) => OrElse(OrElse(Thumb500(images[i]), ThumbLarge(images[i])), images[i].image)
    case None => if images == [] then None else OrElse(OrElse(Thumb500(images[0]), images[0].image), None)
  }

  /** `getCoverArt`: never fails; a rejected fetch or a non-2xx response gives `null`. */
  function GetCoverArt(fetched: Outcome<CoverArtBody>): (r: Option<string>)
    ensures !(fetched.Got? && fetched.response.Ok()) ==> r == None
    ensures fetched.Got? && fetched.response.Ok() ==> r == SelectCover(fetched.response.body.images.GetOr([]))
  {
    match fetched
    case Threw(_) => None
    case Got(response) => if !response.Ok() then None else SelectCover(response.body.images.GetOr([]))
  }

  /** When some image is flagged front, the first such image decides: its 500px thumbnail,
      else its large thumbnail, else its raw image. */
  lemma FrontImageDecides(images: seq<Image>, i: nat)
    requires i < |images| && images[i].front
    requires forall j :: 0 <= j < i ==> !images[j].front
    ensures StrTruthy(Thumb500(images[i])) ==> SelectCover(images) == Thumb500(images[i])
    ensures !StrTruthy(Thumb500(images[i])) && StrTruthy(ThumbLarge(images[i])) ==> SelectCover(images) == ThumbLarge(images[i])
    ensures !StrTruthy(Thumb500(images[i])) && !StrTruthy(ThumbLarge(images[i])) ==> SelectCover(images) == images[i].image
  {
    assert FirstFront(images) == Some(i);
  }

  /** With no front image, the first image decides: its 500px thumbnail, else its raw
      image, else `null`. */
  lemma NoFrontFirstImageDecides(images: seq<Image>)
    requires images != [] && forall j :: 0 <= j < |images| ==> !images[j].front
    ensures StrTruthy(Thumb500(images[0])) ==> SelectCover(images) == Thumb500(images[0])
    ensures !StrTruthy(Thumb500(images[0])) && StrTruthy(images[0].image) ==> SelectCover(images) == images[0].image
    ensures !StrTruthy(Thumb500(images[0])) && !StrTruthy(images[0].image) ==> SelectCover(images) == None
  {
    assert !images[0].front;
  }

  /** With no front image the large thumbnail is never consulted: changing it does not
      change the result. */
  lemma NoFrontIgnoresLarge(images: seq<Image>, large: Option<string>)
    requires images != [] && forall j :: 0 <= j < |images| ==> !images[j].front
    ensures var first := images[0].(thumbnails := Some(Thumbnails(Thumb500(images[0]), large)));
            SelectCover(images[0 := first]) == SelectCover(images)
  {
    var first := images[0].(thumbnails := Some(Thumbnails(Thumb500(images[0]), large)));
    var changed := images[0 := first];
    assert forall j :: 0 <= j < |changed| ==> !changed[j].front;
    NoFrontFirstImageDecides(images);
    NoFrontFirstImageDecides(changed);
  }

  /** An empty or missing image list gives `null`. */
  lemma NoImagesNoCover(fetched: Outcome<CoverArtBody>)
    requires fetched.Got? && (fetched.response.body.images == None || fetched.response.body.images == Some([]))
    ensures GetCoverArt(fetched) == None
  {
  }

  /** The front flag outranks thumbnail size: a front image with only a large thumbnail
      wins over a non-front image with a 500px one. */
  lemma FrontOutranksSize(largeUrl: string, otherUrl: string)
    requires largeUrl != ""
    ensures SelectCover([Image(false, Some(Thumbnails(Some(otherUrl), None)), None),
                         Image(true, Some(Thumbnails(None, Some(largeUrl))), None)]) == Some(largeUrl)
  {
    FrontImageDecides([Image(false, Some(Thumbnails(Some(otherUrl), None)), None),
                       Image(true, Some(Thumbnails(None, Some(largeUrl))), None)], 1);
  }

  /** `batchGetCoverArt(ids)`: a map from every requested id to that id's cover;
      `archive` gives the archive's answer for each address. */
  method BatchGetCoverArt(ids: seq<string>, archive: string -> Outcome<CoverArtBody>)
    returns (results: map<string, Option<string>>)
    ensures results.Keys == set id | id in ids
    ensures forall id :: id in results ==> results[id] == GetCoverArt(archive(CoverArtUrl(id)))
  {
    results := map[];
    var i := 0;
    while i < |ids|
      invariant 0 <= i <= |ids|
      invariant results.Keys == set id | id in ids[..i]
      invariant forall id :: id in results ==> results[id] == GetCoverArt(archive(CoverArtUrl(id)))
    {
      var coverUrl := GetCoverArt(archive(CoverArtUrl(ids[i])));
      results := results[ids[i] := coverUrl];
      assert ids[..i + 1] == ids[..i] + [ids[i]];
      i := i + 1;
    }
    assert ids[..i] == ids;
  }
}

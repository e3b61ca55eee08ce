/** The artist search endpoint: one catalog search, with the first ten artists given the
    cover of their first album and the rest none. The catalog and the cover archive are given
    as their answers to each URL. */
module ArtistSearchRoute {
  import opened Wrappers
  import opened Js
  import opened Api
  import opened MusicBrainz

  /** How many artists, from the front of the list, are looked up for a cover. */
  const EnrichedCount := 10

  const SearchFailed := ApiError(500, "Failed to search artists")

  /** An artist of the reply: the catalog's record with a cover URL or `null`. */
  datatype ArtistHit = ArtistHit(artist: Artist, coverUrl: Option<string>)

  /** The reply: the catalog's search body with its artists replaced by the hits. */
  datatype ArtistSearchReply = ArtistSearchReply(created: string, count: int, offset: int, artists: seq<ArtistHit>)

  /** The request for an artist's first album: `getArtistReleaseGroups(id, "album", 1)`. */
  function FirstAlbumUrl(artistId: string): (u: Url)
    ensures u == ArtistReleaseGroupsUrl(artistId, Some("album"), Some(Num(1)), None)
    ensures u.params == [("artist", artistId), ("limit", "1"), ("offset", "0"), ("type", "album"), ("fmt", "json")]
  {
    assert NatToString(1) == "1" && NatToString(0) == "0";
    ArtistReleaseGroupsUrl(artistId, Some("album"), Some(Num(1)), None)
  }

  /** The cover of an artist's first album: `null` when the release-group request fails, when
      the artist has no album, or when the archive has no cover for it. */
  function FirstAlbumCover(artist: Artist, releaseGroups: Url -> Outcome<ArtistReleaseGroupsBody>,
                           archive: string -> Outcome<CoverArtBody>): (cover: Option<string>)
    ensures CatalogBody(releaseGroups(FirstAlbumUrl(artist.id))).Err? ==> cover == None
    ensures CatalogBody(releaseGroups(FirstAlbumUrl(artist.id))).Ok? ==>
              var groups := CatalogBody(releaseGroups(FirstAlbumUrl(artist.id))).value.releaseGroups.GetOr([]);
              cover == if groups == [] then None else GetCoverArt(archive(CoverArtUrl(groups[0].id)))
  {
    match CatalogBody(releaseGroups(FirstAlbumUrl(artist.id)))
    case Err(_) => None
    case Ok(body) =>
      var groups := body.releaseGroups.GetOr([]);
      if groups == [] then None else GetCoverArt(archive(CoverArtUrl(groups[0].id)))
  }

  /** `artists.slice(0, 10).map(withCover)` followed by `artists.slice(10).map(withoutCover)`. */
  function WithCovers(artists: seq<Artist>, releaseGroups: Url -> Outcome<ArtistReleaseGroupsBody>,
                      archive: string -> Outcome<CoverArtBody>): (hits: seq<ArtistHit>)
    ensures |hits| == |artists|
    ensures forall i :: 0 <= i < |hits| ==> hits[i].artist == artists[i]
    ensures forall i :: 0 <= i < |hits| && i < EnrichedCount ==>
              hits[i].coverUrl == FirstAlbumCover(artists[i], releaseGroups, archive)
    ensures forall i :: EnrichedCount <= i < |hits| ==> hits[i].coverUrl == None
  {
    var split := if |artists| < EnrichedCount then |artists| else EnrichedCount;
    var head := artists[..split];
    var rest := artists[split..];
    var enriched := seq(|head|, i requires 0 <= i < |head| => ArtistHit(head[i], FirstAlbumCover(head[i], releaseGroups, archive)));
    var remaining := seq(|rest|, i requires 0 <= i < |rest| => ArtistHit(rest[i], None));
    assert forall i :: 0 <= i < |enriched| ==> (enriched + remaining)[i] == enriched[i];
    assert forall i :: |enriched| <= i < |artists| ==> (enriched + remaining)[i] == remaining[i - split];
    enriched + remaining
  }

  /** `GET`: 401 without a session; 400 without a query; 500 when the search fails; otherwise
      the search body with the artists enriched, in the catalog's order. */
  function SearchArtistsRoute(session: Option<Session>, q: Option<string>, limit: Option<string>, offset: Option<string>,
                              catalog: Url -> Outcome<ArtistSearchBody>,
                              releaseGroups: Url -> Outcome<ArtistReleaseGroupsBody>,
                              archive: string -> Outcome<CoverArtBody>): (r: Result<ArtistSearchReply, ApiError>)
    ensures session.None? ==> r == Err(Unauthorized)
    ensures session.Some? && !StrTruthy(q) ==> r == Err(MissingQuery)
    ensures session.Some? && StrTruthy(q) ==>
              var search := CatalogBody(catalog(SearchArtistsUrl(q.value, Some(SearchLimit(limit)), Some(SearchOffset(offset)))));
              && (search.Err? ==> r == Err(SearchFailed))
              && (search.Ok? ==> && r.Ok?
                                 && r.value.created == search.value.created
                                 && r.value.count == search.value.count
                                 && r.value.offset == search.value.offset
                                 && r.value.artists == WithCovers(search.value.artists, releaseGroups, archive))
  {
    if session.None? then Err(Unauthorized)
    else if !StrTruthy(q) then Err(MissingQuery)
    else
      match CatalogBody(catalog(SearchArtistsUrl(q.value, Some(SearchLimit(limit)), Some(SearchOffset(offset)))))
      case Err(_) => Err(SearchFailed)
      case Ok(results) =>
        Ok(ArtistSearchReply(results.created, results.count, results.offset,
                             WithCovers(results.artists, releaseGroups, archive)))
  }

  /** Without `limit` and `offset` the search asks for 25 artists from the start. */
  lemma DefaultSearchPaging(query: string)
    ensures SearchArtistsUrl(query, Some(SearchLimit(None)), Some(SearchOffset(None))).params
         == [("query", query), ("limit", "25"), ("offset", "0"), ("fmt", "json")]
  {
    var limit, offset := SearchLimit(None), SearchOffset(None);
    SearchPagingDefaults(None, 0);
    SmallNumerals();
    assert NumberArg(Some(limit), 25) == IntToString(25);
    assert NumberArg(Some(offset), 0) == IntToString(0);
  }

  /** One artist's failing release-group request costs only that artist its cover: every
      other artist's hit is the same as if the request had succeeded. */
  lemma FailureIsPerArtist(artists: seq<Artist>, k: nat,
                           releaseGroups: Url -> Outcome<ArtistReleaseGroupsBody>,
                           releaseGroups': Url -> Outcome<ArtistReleaseGroupsBody>,
                           archive: string -> Outcome<CoverArtBody>)
    requires k < |artists|
    requires CatalogBody(releaseGroups'(FirstAlbumUrl(artists[k].id))).Err?
    requires forall i :: 0 <= i < |artists| && artists[i].id != artists[k].id ==>
               releaseGroups'(FirstAlbumUrl(artists[i].id)) == releaseGroups(FirstAlbumUrl(artists[i].id))
    ensures var hits := WithCovers(artists, releaseGroups, archive);
            var hits' := WithCovers(artists, releaseGroups', archive);
            && |hits'| == |hits|
            && hits'[k].artist == artists[k] && hits'[k].coverUrl == None
            && forall i :: 0 <= i < |artists| && artists[i].id != artists[k].id ==> hits'[i] == hits[i]
  {
  }
}

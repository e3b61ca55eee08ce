/** The album search endpoint: one catalog search for release groups, each turned into an
    album record with its credited artist and its cover. */
module AlbumSearchRoute {
  import opened Wrappers
  import opened Js
  import opened Api
  import opened MusicBrainz

  const UnknownArtist := "Unknown Artist"

  const SearchFailed := ApiError(500, "Failed to search albums")

  /** An album of the reply. */
  datatype AlbumHit = AlbumHit(
    id: string, title: string, artistName: string, artistId: Option<string>,
    kind: Option<string>, secondaryTypes: Option<seq<string>>, releaseDate: Option<string>,
    coverUrl: Option<string>)

  /** The reply: the catalog's count and offset, and one album per release group. */
  datatype AlbumSearchReply = AlbumSearchReply(count: int, offset: int, albums: seq<AlbumHit>)

  /** `album["artist-credit"]?.[0]?.artist`: the first credited artist, if any. */
  function FirstCredited(group: ReleaseGroup): (a: Option<Artist>)
    ensures a.Some? <==> group.artistCredit.Some? && group.artistCredit.value != []
  {
    match group.artistCredit
    case None => None
    case Some(credits) => if credits == [] then None else Some(credits[0].artist)
  }

  /** The album's artist name: the first credited artist's, or "Unknown Artist" when there is
      no credit or the name is empty. */
  function ArtistName(group: ReleaseGroup): (name: string)
    ensures name != ""
    ensures FirstCredited(group).Some? && FirstCredited(group).value.name != "" ==> name == FirstCredited(group).value.name
    ensures FirstCredited(group).None? || FirstCredited(group).value.name == "" ==> name == UnknownArtist
  {
    var credited := FirstCredited(group);
    OrElse(if credited.Some? then Some(credited.value.name) else None, Some(UnknownArtist)).value
  }

  /** One release group as an album: its fields copied, the artist's name and id, and the
      cover the archive gives for it. */
  function AlbumOf(group: ReleaseGroup, archive: string -> Outcome<CoverArtBody>): (album: AlbumHit)
    ensures && album.id == group.id && album.title == group.title
            && album.kind == group.primaryType && album.secondaryTypes == group.secondaryTypes
            && album.releaseDate == group.firstReleaseDate
    ensures album.artistName == ArtistName(group)
    ensures album.artistId.Some? <==> group.artistCredit.Some? && group.artistCredit.value != []
    ensures album.artistId.Some? ==> album.artistId.value == group.artistCredit.value[0].artist.id
    ensures album.coverUrl == GetCoverArt(archive(CoverArtUrl(group.id)))
  {
    var credited := FirstCredited(group);
    AlbumHit(group.id, group.title, ArtistName(group), if credited.Some? then Some(credited.value.id) else None,
             group.primaryType, group.secondaryTypes, group.firstReleaseDate,
             GetCoverArt(archive(CoverArtUrl(group.id))))
  }

  /** `results["release-groups"].map(toAlbum)` */
  function Albums(groups: seq<ReleaseGroup>, archive: string -> Outcome<CoverArtBody>): (albums: seq<AlbumHit>)
    ensures |albums| == |groups|
    ensures forall i :: 0 <= i < |groups| ==> albums[i] == AlbumOf(groups[i], archive)
  {
    if groups == [] then [] else [AlbumOf(groups[0], archive)] + Albums(groups[1..], archive)
  }

  /** `GET`: 401 without a session; 400 without a query; 500 when the search fails; otherwise
      the catalog's count and offset with one album per release group, in the catalog's order. */
  function SearchAlbumsRoute(session: Option<Session>, q: Option<string>, limit: Option<string>, offset: Option<string>,
                             catalog: Url -> Outcome<ReleaseGroupSearchBody>,
                             archive: string -> Outcome<CoverArtBody>): (r: Result<AlbumSearchReply, ApiError>)
    ensures session.None? ==> r == Err(Unauthorized)
    ensures session.Some? && !StrTruthy(q) ==> r == Err(MissingQuery)
    ensures session.Some? && StrTruthy(q) ==>
              var search := CatalogBody(catalog(SearchReleaseGroupsUrl(q.value, Some(SearchLimit(limit)), Some(SearchOffset(offset)))));
              && (search.Err? ==> r == Err(SearchFailed))
              && (search.Ok? ==> && r.Ok?
                                 && r.value.count == search.value.count
                                 && r.value.offset == search.value.offset
                                 && |r.value.albums| == |search.value.releaseGroups|
                                 && forall i :: 0 <= i < |r.value.albums| ==>
                                      r.value.albums[i] == AlbumOf(search.value.releaseGroups[i], archive))
  {
    if session.None? then Err(Unauthorized)
    else if !StrTruthy(q) then Err(MissingQuery)
    else
      match CatalogBody(catalog(SearchReleaseGroupsUrl(q.value, Some(SearchLimit(limit)), Some(SearchOffset(offset)))))
      case Err(_) => Err(SearchFailed)
      case Ok(results) => Ok(AlbumSearchReply(results.count, results.offset, Albums(results.releaseGroups, archive)))
  }

  /** Mapping release groups commutes with joining lists: the albums of a joined list are the
      albums of each part, joined, so each album depends on its own release group only. */
  lemma {:induction false} AlbumsOfConcat(a: seq<ReleaseGroup>, b: seq<ReleaseGroup>, archive: string -> Outcome<CoverArtBody>)
    ensures Albums(a + b, archive) == Albums(a, archive) + Albums(b, archive)
  {
    if a == [] {
      assert a + b == b;
    } else {
      assert (a + b)[1..] == a[1..] + b;
      AlbumsOfConcat(a[1..], b, archive);
    }
  }
}

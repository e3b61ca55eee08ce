/** The user's request endpoint: create a request for a catalog item after validating the
    body and checking for a duplicate, and list the caller's own requests newest first. */
module RequestsRoute {
  import opened Wrappers
  import opened Js
  import opened Api
  import opened Schema

  // ---------------------------------------------------------------- validation

  /** The parsed body: a value that is not an object (with its type name), or an object's five fields. */
  datatype Payload =
    | NotAnObject(received: string)
    | Fields(musicBrainzId: Field, kind: Field, title: Field, artistName: Field, coverUrl: Field)

  const TooShortMessage := "String must contain at least 1 character(s)"
  const KindOptions := "'ALBUM' | 'ARTIST'"

  /** The check of `.min(1)`. */
  function NonEmptyChecks(s: string): seq<string> {
    if s == "" then [TooShortMessage] else []
  }

  /** The issues of the `z.enum(["ALBUM", "ARTIST"])` field. */
  function KindIssues(f: Field): (issues: seq<string>)
    ensures issues == [] <==> f.Text? && (f.s == "ALBUM" || f.s == "ARTIST")
  {
    match f
    case Absent => [RequiredMessage]
    case Other(t) => ["Expected " + KindOptions + ", received " + t]
    case Text(s) =>
      if s == "ALBUM" || s == "ARTIST" then []
      else ["Invalid enum value. Expected " + KindOptions + ", received '" + s + "'"]
  }

  /** A validated body. */
  datatype NewRequest = NewRequest(
    musicBrainzId: string, kind: MediaKind, title: string, artistName: Option<string>, coverUrl: Option<string>)

  /** The issues of an object's fields, in the schema's field order. */
  function Issues(p: Payload): seq<string>
    requires p.Fields?
  {
    StringFieldIssues(p.musicBrainzId, false, NonEmptyChecks(TextOf(p.musicBrainzId)))
    + KindIssues(p.kind)
    + StringFieldIssues(p.title, false, NonEmptyChecks(TextOf(p.title)))
    + StringFieldIssues(p.artistName, true, [])
    + StringFieldIssues(p.coverUrl, true, [])
  }

  /** `createRequestSchema.safeParse(body)`: the data, or the first issue's message. */
  function Validate(p: Payload): (r: Result<NewRequest, string>)
    ensures r.Ok? <==> && p.Fields?
                       && p.musicBrainzId.Text? && p.musicBrainzId.s != ""
                       && p.kind.Text? && (p.kind.s == "ALBUM" || p.kind.s == "ARTIST")
                       && p.title.Text? && p.title.s != ""
                       && !p.artistName.Other? && !p.coverUrl.Other?
    ensures r.Ok? ==> && r.value.musicBrainzId == p.musicBrainzId.s && r.value.title == p.title.s
                      && (r.value.kind == ALBUM <==> p.kind.s == "ALBUM")
                      && r.value.artistName == OptionalText(p.artistName) && r.value.coverUrl == OptionalText(p.coverUrl)
    ensures p.NotAnObject? ==> r == Err(ObjectIssue(p.received))
  {
    match p
    case NotAnObject(t) => Err(ObjectIssue(t))
    case Fields(musicBrainzId, kind, title, artistName, coverUrl) =>
      var issues := Issues(p);
      if issues != [] then Err(issues[0])
      else
        Ok(NewRequest(musicBrainzId.s, if kind.s == "ALBUM" then ALBUM else ARTIST, title.s,
                      OptionalText(artistName), OptionalText(coverUrl)))
  }

  /** The identifier is the first field checked: without it the reply is "Required", whatever the rest. */
  lemma MissingIdIsReportedFirst(kind: Field, title: Field, artistName: Field, coverUrl: Field)
    ensures Validate(Fields(Absent, kind, title, artistName, coverUrl)) == Err(RequiredMessage)
  {
  }

  /** With a good identifier, a string `type` outside the two kinds is reported with the enum's
      message, whatever the later fields hold. */
  lemma BadKindReported(id: string, kind: string, title: Field, artistName: Field, coverUrl: Field)
    requires id != "" && kind != "ALBUM" && kind != "ARTIST"
    ensures Validate(Fields(Text(id), Text(kind), title, artistName, coverUrl))
         == Err("Invalid enum value. Expected " + KindOptions + ", received '" + kind + "'")
  {
  }

  /** An empty title, with the fields before it valid, is reported as too short. */
  lemma EmptyTitleReported(id: string, kind: string, artistName: Field, coverUrl: Field)
    requires id != "" && (kind == "ALBUM" || kind == "ARTIST")
    ensures Validate(Fields(Text(id), Text(kind), Text(""), artistName, coverUrl)) == Err(TooShortMessage)
  {
  }

  // ---------------------------------------------------------------- the store

  datatype RequestStatus = PENDING | APPROVED | REJECTED | PROCESSING | AVAILABLE

  /** The name a status is stored and sent under. */
  function StatusName(status: RequestStatus): string {
    match status
    case PENDING => "PENDING"
    case APPROVED => "APPROVED"
    case REJECTED => "REJECTED"
    case PROCESSING => "PROCESSING"
    case AVAILABLE => "AVAILABLE"
  }

  /** A stored request. `createdAt` is the creation stamp. */
  datatype MediaRequest = MediaRequest(
    musicBrainzId: string, kind: MediaKind, title: string, artistName: Option<string>, coverUrl: Option<string>,
    userId: string, status: RequestStatus, createdAt: nat)

  /** `prisma.request.findFirst({where: {musicBrainzId, userId}})` finds a row, of any kind and status. */
  function HasRequested(requests: seq<MediaRequest>, musicBrainzId: string, userId: string): (b: bool)
    ensures b <==> exists i :: 0 <= i < |requests| && requests[i].musicBrainzId == musicBrainzId && requests[i].userId == userId
  {
    if requests == [] then false
    else (requests[0].musicBrainzId == musicBrainzId && requests[0].userId == userId)
         || HasRequested(requests[1..], musicBrainzId, userId)
  }

  /** Requests in strictly decreasing order of creation. */
  predicate NewestToOldest(requests: seq<MediaRequest>) {
    forall i, j :: 0 <= i < j < |requests| ==> requests[i].createdAt > requests[j].createdAt
  }

  /** Requests stamped in strictly increasing order of creation. */
  predicate Chronological(requests: seq<MediaRequest>) {
    forall i, j :: 0 <= i < j < |requests| ==> requests[i].createdAt < requests[j].createdAt
  }

  /** No two requests by one user for one catalog item. */
  predicate NoDuplicates(requests: seq<MediaRequest>) {
    forall i, j :: 0 <= i < j < |requests| ==>
      requests[i].musicBrainzId != requests[j].musicBrainzId || requests[i].userId != requests[j].userId
  }

  const CreateFailed := ApiError(500, "Failed to create request")
  const Duplicate := ApiError(400, "You have already requested this item")

  /** The request table, in order of creation; `clock` is the next creation stamp. */
  class RequestStore {
    var requests: seq<MediaRequest>
    var clock: nat

    predicate Valid()
      reads this
    {
      && NoDuplicates(requests)
      && Chronological(requests)
      && forall i :: 0 <= i < |requests| ==> requests[i].createdAt < clock
    }

    constructor()
      ensures Valid() && requests == []
    {
      requests := [];
      clock := 0;
    }

    /** `POST`: 401 without a user id; 500 for a body that is not JSON; 400 with the first
        issue for an invalid body; 400 for a duplicate; otherwise one new PENDING request. */
    method Create(session: Option<Session>, body: Option<Payload>) returns (r: Result<MediaRequest, ApiError>)
      requires Valid()
      modifies this
      ensures Valid()
      ensures r.Err? ==> requests == old(requests)
      ensures !HasUserId(session) ==> r == Err(Unauthorized)
      ensures HasUserId(session) && body.None? ==> r == Err(CreateFailed)
      ensures HasUserId(session) && body.Some? && Validate(body.value).Err? ==>
                r == Err(ApiError(400, Validate(body.value).error))
      ensures HasUserId(session) && body.Some? && Validate(body.value).Ok? ==>
                var data := Validate(body.value).value;
                if HasRequested(old(requests), data.musicBrainzId, session.value.userId) then r == Err(Duplicate)
                else && r == Ok(MediaRequest(data.musicBrainzId, data.kind, data.title, data.artistName, data.coverUrl,
                                             session.value.userId, PENDING, old(clock)))
                     && requests == old(requests) + [r.value]
    {
      if !HasUserId(session) {
        return Err(Unauthorized);
      }
      if body.None? {
        return Err(CreateFailed);
      }
      var result := Validate(body.value);
      if result.Err? {
        return Err(ApiError(400, result.error));
      }
      var data := result.value;
      var userId := session.value.userId;

      var existingRequest := HasRequested(requests, data.musicBrainzId, userId);
      if existingRequest {
        return Err(Duplicate);
      }

      var newRequest := MediaRequest(data.musicBrainzId, data.kind, data.title, data.artistName, data.coverUrl,
                                     userId, PENDING, clock);
      requests := requests + [newRequest];
      clock := clock + 1;
      return Ok(newRequest);
    }
  }

  // ---------------------------------------------------------------- listing

  /** The `status` query value as a status, if it names one. */
  function ParseStatus(s: string): (status: Option<RequestStatus>)
    ensures status.Some? <==> s == "PENDING" || s == "APPROVED" || s == "REJECTED" || s == "PROCESSING" || s == "AVAILABLE"
    ensures status.Some? ==> StatusName(status.value) == s
  {
    match s
    case "PENDING" => Some(PENDING)
    case "APPROVED" => Some(APPROVED)
    case "REJECTED" => Some(REJECTED)
    case "PROCESSING" => Some(PROCESSING)
    case "AVAILABLE" => Some(AVAILABLE)
    case _ => None
  }

  /** Every status is read back from its own name. */
  lemma ParseStatusName(status: RequestStatus)
    ensures ParseStatus(StatusName(status)) == Some(status)
  {
  }

  /** A request the listing returns: the caller's own, with the given status if one is given. */
  predicate Visible(request: MediaRequest, userId: string, status: Option<RequestStatus>) {
    request.userId == userId && (status.None? || request.status == status.value)
  }

  /** The caller's requests, filtered, with the newest first: the store's order reversed. */
  function NewestFirst(requests: seq<MediaRequest>, userId: string, status: Option<RequestStatus>): (listed: seq<MediaRequest>)
    ensures forall x :: x in listed <==> x in requests && Visible(x, userId, status)
    ensures |listed| <= |requests|
  {
    if requests == [] then []
    else
      NewestFirst(requests[1..], userId, status)
      + (if Visible(requests[0], userId, status) then [requests[0]] else [])
  }

  /** Requests stored in creation order are listed in strictly decreasing order of creation. */
  lemma {:induction false} NewestFirstIsDescending(requests: seq<MediaRequest>, userId: string, status: Option<RequestStatus>)
    requires Chronological(requests)
    ensures NewestToOldest(NewestFirst(requests, userId, status))
  {
    if requests != [] {
      var rest := requests[1..];
      assert Chronological(rest);
      NewestFirstIsDescending(rest, userId, status);
      var tail := NewestFirst(rest, userId, status);
      if Visible(requests[0], userId, status) {
        OlderThanAll(requests, tail, userId, status);
        AppendOldest(tail, requests[0]);
      } else {
        assert NewestFirst(requests, userId, status) == tail + [];
      }
    }
  }

  /** Every listed request of the later part of a store is newer than its first request. */
  lemma OlderThanAll(requests: seq<MediaRequest>, tail: seq<MediaRequest>, userId: string, status: Option<RequestStatus>)
    requires requests != [] && Chronological(requests)
    requires tail == NewestFirst(requests[1..], userId, status)
    ensures forall x :: x in tail ==> x.createdAt > requests[0].createdAt
  {
    forall x | x in tail
      ensures x.createdAt > requests[0].createdAt
    {
      var k :| 0 <= k < |requests[1..]| && requests[1..][k] == x;
      assert requests[k + 1] == x;
    }
  }

  /** Appending a request older than all others keeps the newest-to-oldest order. */
  lemma AppendOldest(listed: seq<MediaRequest>, oldest: MediaRequest)
    requires NewestToOldest(listed)
    requires forall x :: x in listed ==> x.createdAt > oldest.createdAt
    ensures NewestToOldest(listed + [oldest])
  {
    var all := listed + [oldest];
    forall i, j | 0 <= i < j < |all|
      ensures all[i].createdAt > all[j].createdAt
    {
      assert all[i] == listed[i] && listed[i] in listed;
      if j < |listed| {
        assert all[j] == listed[j];
      }
    }
  }

  const FetchFailed := ApiError(500, "Failed to fetch requests")

  /** `GET`: 401 without a user id; a `status` value that names no status fails in the store
      (500); otherwise the caller's requests, newest first. An empty `status` filters nothing. */
  function ListRequests(session: Option<Session>, status: Option<string>, requests: seq<MediaRequest>): (r: Result<seq<MediaRequest>, ApiError>)
    ensures !HasUserId(session) ==> r == Err(Unauthorized)
    ensures HasUserId(session) && StrTruthy(status) && ParseStatus(status.value).None? ==> r == Err(FetchFailed)
    ensures r.Ok? <==> HasUserId(session) && (!StrTruthy(status) || ParseStatus(status.value).Some?)
    ensures r.Ok? ==> forall x :: x in r.value <==>
              && x in requests && x.userId == session.value.userId
              && (StrTruthy(status) ==> ParseStatus(status.value) == Some(x.status))
  {
    if !HasUserId(session) then Err(Unauthorized)
    else if StrTruthy(status) && ParseStatus(status.value).None? then Err(FetchFailed)
    else
      var filter := if StrTruthy(status) then ParseStatus(status.value) else None;
      Ok(NewestFirst(requests, session.value.userId, filter))
  }

  /** Listing a store kept in creation order gives the newest request first. */
  lemma ListedNewestFirst(session: Option<Session>, status: Option<string>, store: RequestStore)
    requires store.Valid()
    requires ListRequests(session, status, store.requests).Ok?
    ensures NewestToOldest(ListRequests(session, status, store.requests).value)
  {
    var filter := if StrTruthy(status) then ParseStatus(status.value) else None;
    assert ListRequests(session, status, store.requests).value == NewestFirst(store.requests, session.value.userId, filter);
    NewestFirstIsDescending(store.requests, session.value.userId, filter);
  }
}

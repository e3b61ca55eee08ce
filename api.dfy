/** What the route handlers and the two clients share: HTTP responses and their outcomes,
    the signed-in session, and the error replies of the routes. */
module Api {
  import opened Wrappers
  import opened Js

  /** An HTTP response: status code, status text and the parsed JSON body. */
  datatype Response<T> = Response(status: int, statusText: string, body: T) {
    /** `response.ok`: the status is a 2xx code. */
    predicate Ok() {
      200 <= status <= 299
    }
  }

  /** What an awaited `fetch` (with the body parsed) yields: a rejection carrying its
      message, or a response. A body that does not parse is a rejection too. */
  datatype Outcome<T> = Threw(message: string) | Got(response: Response<T>)

  datatype Role = ADMIN | USER

  /** The session of a signed-in user; `userId` may be empty, which the routes treat as missing. */
  datatype Session = Session(userId: string, role: Role, name: string)

  /** `session?.user?.id` is truthy. */
  predicate HasUserId(session: Option<Session>) {
    session.Some? && session.value.userId != ""
  }

  /** The settings routes' gate: a user id and the ADMIN role. */
  predicate IsAdmin(session: Option<Session>) {
    HasUserId(session) && session.value.role == ADMIN
  }

  /** An error reply of a route: its status code and the `error` text of its body. */
  datatype ApiError = ApiError(status: int, message: string)

  const Unauthorized := ApiError(401, "Unauthorized")

  /** What a request asks for: a whole artist or one album (a release group). */
  datatype MediaKind = ARTIST | ALBUM

  /** The search routes' reply when `q` is missing or empty. */
  const MissingQuery := ApiError(400, "Query parameter 'q' is required")

  /** `parseInt(searchParams.get("limit") || "25")`: an absent or empty value reads as 25. */
  function SearchLimit(param: Option<string>): JsInt {
    ParseInt(OrElse(param, Some("25")).value)
  }

  /** `parseInt(searchParams.get("offset") || "0")`: an absent or empty value reads as 0. */
  function SearchOffset(param: Option<string>): JsInt {
    ParseInt(OrElse(param, Some("0")).value)
  }

  /** Omitted paging parameters read as 25 and 0, and a number written out reads as itself. */
  lemma SearchPagingDefaults(param: Option<string>, n: int)
    ensures !StrTruthy(param) ==> SearchLimit(param) == Num(25) && SearchOffset(param) == Num(0)
    ensures param == Some(IntToString(n)) ==> SearchLimit(param) == Num(n) && SearchOffset(param) == Num(n)
  {
    if !StrTruthy(param) {
      SmallNumerals();
      ParseIntOfIntToString(25);
      ParseIntOfIntToString(0);
    }
    if param == Some(IntToString(n)) {
      ParseIntOfIntToString(n);
    }
  }
}

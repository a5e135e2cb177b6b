/** The session-introspection handler: how many seconds the access token in
    the `Authorization` header has left, as a 200, 401 or 500 response. The
    clock is the `nowMs` argument (`Date.now()`). */
module Session {
  import opened Wrappers
  import opened Runtime

  /** The JSON body handed to the response builder. */
  datatype Body = Message(message: string) | ExpiresIn(accessTokenExpiresIn: int)

  datatype Response = Response(statusCode: int, body: Body)

  /** The callback's two arguments. */
  datatype Reply = Reply(error: Option<Error>, response: Response)

  /** The collaborators: the authorization header's name, the `Bearer`
      header parser, and `jwt.decode(token).exp` (`None` when the token does
      not decode). */
  datatype Libraries = Libraries(
    authorizationHeader: string,
    parseAuthorizationHeader: Option<string> -> Result<string, Error>,
    decodeExp: string -> Option<int>)

  const ExpiryErrorMessage := "Error in getting accessToken Expiry date"
  const ExpiredMessage := "Token expired"

  /** `Math.floor(nowMs / 1000)`: the whole Unix seconds elapsed. */
  function EpochSeconds(nowMs: int): (s: int)
    ensures s * 1000 <= nowMs < s * 1000 + 1000
  {
    nowMs / 1000
  }

  /** Whole seconds from `nowMs` to the token's `exp`; negative once the
      second `exp` has gone by. */
  function Remaining(exp: int, nowMs: int): (k: int)
    ensures k >= 0 <==> nowMs < exp * 1000 + 1000
    ensures (exp - k) * 1000 <= nowMs < (exp - k) * 1000 + 1000
  {
    exp - EpochSeconds(nowMs)
  }

  /** The handler. */
  function GetSession(headers: map<string, string>, lib: Libraries, nowMs: int): (r: Reply)
    // the callback's error argument is always null
    ensures r.error == None
    ensures r.response.statusCode in {200, 401, 500}
    // a rejected header parse is a 500 carrying the rejection's message
    ensures lib.parseAuthorizationHeader(Header(headers, lib.authorizationHeader)).Failure? ==>
      r.response == Response(500, Message(lib.parseAuthorizationHeader(Header(headers, lib.authorizationHeader)).error.message))
    // a token that does not decode is a 500 with the fixed message
    ensures lib.parseAuthorizationHeader(Header(headers, lib.authorizationHeader)).Success? &&
            lib.decodeExp(lib.parseAuthorizationHeader(Header(headers, lib.authorizationHeader)).value).None? ==>
      r.response == Response(500, Message(ExpiryErrorMessage))
    // a decoded token is live (200) until the end of its `exp` second, expired (401) after
    ensures lib.parseAuthorizationHeader(Header(headers, lib.authorizationHeader)).Success? &&
            lib.decodeExp(lib.parseAuthorizationHeader(Header(headers, lib.authorizationHeader)).value).Some? ==>
      var exp := lib.decodeExp(lib.parseAuthorizationHeader(Header(headers, lib.authorizationHeader)).value).value;
      && (r.response.statusCode == 200 <==> nowMs < exp * 1000 + 1000)
      && (r.response.statusCode == 401 <==> nowMs >= exp * 1000 + 1000)
      && (r.response.statusCode == 401 ==> r.response.body == Message(ExpiredMessage))
    // a 200 reports a non-negative number of seconds
    ensures r.response.statusCode == 200 ==>
      r.response.body.ExpiresIn? && r.response.body.accessTokenExpiresIn >= 0
  {
    match lib.parseAuthorizationHeader(Header(headers, lib.authorizationHeader))
    case Failure(err) => Reply(None, Response(500, Message(err.message)))
    case Success(token) =>
      match lib.decodeExp(token)
      case None => Reply(None, Response(500, Message(ExpiryErrorMessage)))
      case Some(exp) =>
        var remaining := Remaining(exp, nowMs);
        if remaining < 0 then Reply(None, Response(401, Message(ExpiredMessage)))
        else Reply(None, Response(200, ExpiresIn(remaining)))
  }

  /** The header parses to `token` and the token decodes with `exp`. */
  predicate DecodesTo(headers: map<string, string>, lib: Libraries, token: string, exp: int)
  {
    lib.parseAuthorizationHeader(Header(headers, lib.authorizationHeader)) == Success(token) &&
    lib.decodeExp(token) == Some(exp)
  }

  /** A token expiring `k >= 0` whole seconds after the current second is
      reported live with exactly `k` seconds left. */
  lemma ReportsSecondsLeft(headers: map<string, string>, lib: Libraries, token: string, exp: int, k: int, nowMs: int)
    requires DecodesTo(headers, lib, token, exp)
    requires k >= 0
    requires (exp - k) * 1000 <= nowMs < (exp - k) * 1000 + 1000
    ensures GetSession(headers, lib, nowMs).response == Response(200, ExpiresIn(k))
  {
  }

  /** The boundary: during the second `exp` itself the token is still live,
      with 0 seconds left, not expired. */
  lemma ExpiringSecondIsLive(headers: map<string, string>, lib: Libraries, token: string, exp: int, nowMs: int)
    requires DecodesTo(headers, lib, token, exp)
    requires exp * 1000 <= nowMs < exp * 1000 + 1000
    ensures GetSession(headers, lib, nowMs).response == Response(200, ExpiresIn(0))
  {
  }

  /** A token signed at `signMs` with a lifetime of `k >= 5` seconds and
      inspected up to five seconds later reports between `k - 5` and `k`
      seconds left. */
  lemma SignedThenInspected(headers: map<string, string>, lib: Libraries, token: string, k: int,
                            signMs: int, nowMs: int)
    requires DecodesTo(headers, lib, token, EpochSeconds(signMs) + k)
    requires k >= 5
    requires signMs <= nowMs <= signMs + 5000
    ensures GetSession(headers, lib, nowMs).response.statusCode == 200
    ensures k - 5 <= GetSession(headers, lib, nowMs).response.body.accessTokenExpiresIn <= k
  {
  }

  /** A later clock never reports more time left. */
  lemma RemainingNeverGrows(exp: int, nowMs: int, laterMs: int)
    requires nowMs <= laterMs
    ensures Remaining(exp, laterMs) <= Remaining(exp, nowMs)
  {
  }
}

/**
 * The client's authentication interceptor: it attaches the bearer header to
 * every call except the authentication calls, and on a 401 refreshes the
 * session once, holding back the other 401s until the refresh is done.
 * Its state is the `isRefreshing` flag and the last value of
 * `refreshTokenSubject` (`None` is null); the observables' timing is not
 * modelled, only the transitions each event makes.
 */
module ClientAuthInterceptor {
  import opened Common
  import opened ClientHttp
  import opened Jwt
  import opened ClientAuthService
  import opened AuthMiddleware

  /** An outgoing call: its URL and its `Authorization` header. */
  datatype Request = Request(url: string, authorization: Option<string>)

  /** What a call threw: an `HttpErrorResponse`, or anything else. */
  datatype Thrown = HttpError(failure: HttpFailure) | OtherError

  /**
   * What the interceptor does with a failed call: rethrow it, start a
   * refresh and retry afterwards, or hold the call until a refresh in flight
   * ends.
   */
  datatype Reaction = Rethrow(thrown: Thrown) | StartRefresh(request: Request) | AwaitRefresh(request: Request)

  datatype RefreshState = RefreshState(isRefreshing: bool, subject: Option<bool>)

  const Idle := RefreshState(false, None)

  /** `isAuthUrl`: the login, registration and refresh calls. */
  predicate IsAuthUrl(url: string) {
    Includes(url, "/auth/login") || Includes(url, "/auth/register") || Includes(url, "/auth/refresh")
  }

  /** The logout call, `POST ${API_URL}/auth/logout`; its route sits behind `authenticate`. */
  predicate IsLogoutUrl(url: string) {
    Includes(url, "/auth/logout")
  }

  /** `addAuthHeader`: a stored token goes on every call that is not an authentication call. */
  function AddAuthHeader(req: Request, token: Option<string>): (r: Request)
    ensures r.url == req.url
    ensures Truthy(token) && !IsAuthUrl(req.url) ==> r.authorization == Some("Bearer " + token.value)
    ensures !(Truthy(token) && !IsAuthUrl(req.url)) ==> r == req
  {
    if Truthy(token) && !IsAuthUrl(req.url) then req.(authorization := Some("Bearer " + token.value)) else req
  }

  /** The header the interceptor attaches is one the server's middleware reads the same token from. */
  lemma AttachedHeaderIsAccepted(req: Request, token: string)
    requires token != "" && ' ' !in token && !IsAuthUrl(req.url)
    ensures ExtractTokenFromHeader(AddAuthHeader(req, Some(token)).authorization) == Some(token)
  {
    ExtractTokenIff(Some("Bearer " + token), token);
  }

  /** A refresh call never carries an access token, whatever surrounds the path. */
  lemma RefreshCallsCarryNoToken(pre: string, post: string, header: Option<string>, token: Option<string>)
    ensures AddAuthHeader(Request(pre + "/auth/refresh" + post, header), token) == Request(pre + "/auth/refresh" + post, header)
  {
    IncludesInfix(pre, "/auth/refresh", post);
  }

  /**
   * The 401 handling as written (`intercept` and `handle401Error`): any
   * `HttpErrorResponse` with status 401 starts a refresh when none is in
   * flight, and otherwise waits for the one in flight; everything else is
   * rethrown. The refresh call itself goes through the same handling.
   */
  function OnErrorAsWritten(s: RefreshState, req: Request, thrown: Thrown): (RefreshState, Reaction) {
    if thrown.HttpError? && thrown.failure.status == 401 then
      if !s.isRefreshing then (RefreshState(true, None), StartRefresh(req))
      else (s, AwaitRefresh(req))
    else (s, Rethrow(thrown))
  }

  /**
   * The 401 handling with the authentication calls and the logout call
   * exempt: their 401s are rethrown, so a refused refresh reaches the
   * refresh's own error handler, and a refused logout reaches the logout's.
   */
  function OnError(s: RefreshState, req: Request, thrown: Thrown): (r: (RefreshState, Reaction))
    ensures !(thrown.HttpError? && thrown.failure.status == 401) ==> r == (s, Rethrow(thrown))
    ensures IsAuthUrl(req.url) || IsLogoutUrl(req.url) ==> r == (s, Rethrow(thrown))
    ensures !IsAuthUrl(req.url) && !IsLogoutUrl(req.url) && thrown.HttpError? && thrown.failure.status == 401 ==>
      if s.isRefreshing then r == (s, AwaitRefresh(req)) else r == (RefreshState(true, None), StartRefresh(req))
  {
    if thrown.HttpError? && thrown.failure.status == 401 && !IsAuthUrl(req.url) && !IsLogoutUrl(req.url) then
      if !s.isRefreshing then (RefreshState(true, None), StartRefresh(req))
      else (s, AwaitRefresh(req))
    else (s, Rethrow(thrown))
  }

  /** A held call goes on, with the current token, once the subject carries a value. */
  function Released(s: RefreshState, req: Request, token: Option<string>): (r: Option<Request>)
    ensures r.Some? <==> s.subject.Some?
  {
    if s.subject.Some? then Some(AddAuthHeader(req, token)) else None
  }

  /**
   * As written, a refused refresh hangs: the refresh call's own 401 is held
   * until the refresh ends, which it cannot do, so the flag stays set, the
   * subject stays null, and every later 401 is held as well.
   */
  lemma RefusedRefreshHangsAsWritten(req: Request, refresh: Request, later: Request, f: HttpFailure, token: Option<string>)
    requires f.status == 401 && IsAuthUrl(refresh.url)
    ensures OnErrorAsWritten(Idle, req, HttpError(f)) == (RefreshState(true, None), StartRefresh(req))
    ensures var s := OnErrorAsWritten(Idle, req, HttpError(f)).0;
      && OnErrorAsWritten(s, refresh, HttpError(f)) == (s, AwaitRefresh(refresh))
      && Released(s, refresh, token).None?
      && OnErrorAsWritten(s, later, HttpError(f)) == (s, AwaitRefresh(later))
  {
  }

  /**
   * With authentication calls exempt, a refused refresh is rethrown, so the
   * refresh's failure handler runs; the logout call it then sends must be
   * exempt as well for that to end the session (`LogoutAfterRefreshFailure`).
   */
  lemma RefusedRefreshIsRethrown(s: RefreshState, refresh: Request, thrown: Thrown)
    requires IsAuthUrl(refresh.url)
    ensures OnError(s, refresh, thrown) == (s, Rethrow(thrown))
  {
  }

  /** Exempting the authentication and logout calls changes nothing for any other call. */
  lemma OnErrorAgreesElsewhere(s: RefreshState, req: Request, thrown: Thrown)
    requires !IsAuthUrl(req.url) && !IsLogoutUrl(req.url)
    ensures OnError(s, req, thrown) == OnErrorAsWritten(s, req, thrown)
  {
  }

  /** The interceptor's state. */
  class AuthInterceptor {
    var isRefreshing: bool
    var subject: Option<bool>

    function State(): RefreshState
      reads this
    {
      RefreshState(isRefreshing, subject)
    }

    constructor()
      ensures !isRefreshing && subject.None?
    {
      isRefreshing := false;
      subject := None;
    }

    /** The `catchError` of `intercept` as written: every 401 goes to `handle401Error`, the refresh call's too. */
    method HandleErrorAsWritten(req: Request, thrown: Thrown) returns (reaction: Reaction)
      modifies this
      ensures (State(), reaction) == OnErrorAsWritten(old(State()), req, thrown)
    {
      var r := OnErrorAsWritten(State(), req, thrown);
      isRefreshing, subject := r.0.isRefreshing, r.0.subject;
      reaction := r.1;
    }

    /** The `catchError` of `intercept` with the authentication calls exempt from `handle401Error`. */
    method HandleError(req: Request, thrown: Thrown) returns (reaction: Reaction)
      modifies this
      ensures (State(), reaction) == OnError(old(State()), req, thrown)
    {
      var r := OnError(State(), req, thrown);
      isRefreshing, subject := r.0.isRefreshing, r.0.subject;
      reaction := r.1;
    }

    /** The refresh succeeded: clear the flag, release the held calls, retry with the new token. */
    method RefreshSucceeded(req: Request, token: Option<string>) returns (retry: Request)
      modifies this
      ensures !isRefreshing && subject == Some(true)
      ensures retry == AddAuthHeader(req, token)
    {
      isRefreshing := false;
      subject := Some(true);
      retry := AddAuthHeader(req, token);
    }

    /** The refresh failed: clear the flag, log the session out, rethrow the refresh's error. */
    method RefreshFailed(session: Session, logout: Outcome<()>, thrown: Thrown) returns (reaction: Reaction)
      modifies this, session
      ensures !isRefreshing && subject == old(subject)
      ensures session.currentUser.None? && !session.authenticated
      ensures session.navigations == old(session.navigations) + [LoginRoute]
      ensures session.storage == if session.storageAvailable then WithoutAuthData(old(session.storage)) else old(session.storage)
      ensures session.AccessToken().None? && session.RefreshToken().None?
      ensures reaction == Rethrow(thrown)
    {
      isRefreshing := false;
      var _ := session.Logout(logout);
      reaction := Rethrow(thrown);
    }

    /**
     * What follows `RefreshFailed` as written. The logout call it sends
     * passes through this interceptor with the tokens already cleared, so it
     * carries no header and `authenticate` refuses it with 401. The logout
     * call is no authentication call, so the 401 starts a refresh; with no
     * refresh token that refresh fails at once, and its failure handler is
     * `RefreshFailed` again, which sends the next logout call from the same
     * state. The state this round needs is the one it leaves, which is also
     * the one `RefreshFailed` leaves: the rounds never end.
     */
    method LogoutAfterRefreshFailureAsWritten(session: Session, logoutUrl: string, verify: string -> VerifyOutcome,
                                              lookup: string -> LookupOutcome, body: Option<ErrorBody>, message: Option<string>)
      returns (call: Request, gate: Gate, reaction: Reaction, refresh: RefreshResult, again: Reaction)
      modifies this, session
      requires IsLogoutUrl(logoutUrl) && !IsAuthUrl(logoutUrl)
      requires !isRefreshing && session.AccessToken().None? && session.RefreshToken().None?
      ensures call == Request(logoutUrl, None)
      ensures gate == Respond(401, TokenRequired)
      ensures reaction == StartRefresh(call)
      ensures refresh == NoRefreshToken(NoRefreshTokenAvailable)
      ensures again == Rethrow(OtherError)
      ensures !isRefreshing && session.AccessToken().None? && session.RefreshToken().None?
      ensures session.navigations == old(session.navigations) + [LoginRoute, LoginRoute]
    {
      call := AddAuthHeader(Request(logoutUrl, None), session.AccessToken());
      gate := Authenticate(call.authorization, verify, lookup);
      var refusal := HttpFailure(gate.status, body, message);
      reaction := HandleErrorAsWritten(call, HttpError(refusal));
      refresh := session.RefreshSession(Failed(refusal));
      again := RefreshFailed(session, Failed(refusal), OtherError);
    }

    /**
     * The same logout call with the logout call exempt from the 401
     * handling: its refusal is rethrown without starting a refresh, the
     * logout's own error handler clears the session once and reports
     * 'Logout failed', and nothing more is sent.
     */
    method LogoutAfterRefreshFailure(session: Session, logoutUrl: string, verify: string -> VerifyOutcome,
                                     lookup: string -> LookupOutcome, body: Option<ErrorBody>, message: Option<string>)
      returns (call: Request, gate: Gate, reaction: Reaction, error: Option<string>)
      modifies this, session
      requires IsLogoutUrl(logoutUrl)
      requires !isRefreshing && session.AccessToken().None? && session.RefreshToken().None?
      ensures call == Request(logoutUrl, None)
      ensures gate == Respond(401, TokenRequired)
      ensures reaction == Rethrow(HttpError(HttpFailure(401, body, message)))
      ensures !isRefreshing && subject == old(subject)
      ensures error == Some(LogoutFailed)
      ensures session.AccessToken().None? && session.RefreshToken().None?
      ensures session.navigations == old(session.navigations) + [LoginRoute]
    {
      call := AddAuthHeader(Request(logoutUrl, None), session.AccessToken());
      gate := Authenticate(call.authorization, verify, lookup);
      var refusal := HttpFailure(gate.status, body, message);
      reaction := HandleError(call, HttpError(refusal));
      error := session.Logout(Failed(refusal));
    }
  }
}

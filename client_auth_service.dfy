/**
 * The browser client's session: the tokens and the user kept in
 * `localStorage` under three keys, the published current user and
 * authentication flag, and the navigations to the login page. Each request
 * method receives what its HTTP call delivered, or the failure it raised;
 * decoding a token's payload (`JSON.parse(atob(...))`) is a parameter that
 * gives `None` where the source's `try` would catch.
 */
module ClientAuthService {
  import opened Common
  import opened ClientHttp
  import opened Jwt
  import ClientTaskService

  datatype User = User(id: string, name: string, email: string, role: string)

  /**
   * The `data` of an authentication reply. Login and registration replies
   * carry the user; the server's refresh reply is the bare token pair, so
   * there `user` is `None` (the field is undefined).
   */
  datatype AuthData = AuthData(user: Option<User>, accessToken: string, refreshToken: string, expiresIn: string)

  datatype AuthReply = AuthReply(status: string, data: Option<AuthData>)
  datatype ProfileReply = ProfileReply(status: string, data: Option<User>)

  /** How `refreshToken` ends: the reply, the failure rethrown, or no stored refresh token. */
  datatype RefreshResult = Refreshed(reply: AuthReply) | RefreshFailed(failure: HttpFailure) | NoRefreshToken(message: string)

  const TokenKey := "access_token"
  const RefreshTokenKey := "refresh_token"
  const UserKey := "current_user"
  const LoginRoute := "/auth/login"
  const UnexpectedError := "Ocorreu um erro inesperado"
  const LogoutFailed := "Logout failed"
  const NoRefreshTokenAvailable := "No refresh token available"
  const Undefined := "undefined"

  /** `localStorage.getItem(key)`. */
  function Stored(storage: map<string, string>, key: string): Option<string> {
    if key in storage then Some(storage[key]) else None
  }

  /**
   * The text `localStorage.setItem` keeps for `JSON.stringify(user)`: the
   * user's JSON, or, for an undefined user, `JSON.stringify`'s undefined
   * coerced to the string "undefined".
   */
  function UserText(user: Option<User>, userJson: User -> string): string {
    if user.Some? then userJson(user.value) else Undefined
  }

  /** The storage after `setAuthData` writes the three keys. */
  function WithAuthData(storage: map<string, string>, data: AuthData, userJson: User -> string): (s: map<string, string>)
    ensures Stored(s, TokenKey) == Some(data.accessToken)
    ensures Stored(s, RefreshTokenKey) == Some(data.refreshToken)
    ensures data.user.Some? ==> Stored(s, UserKey) == Some(userJson(data.user.value))
    ensures data.user.None? ==> Stored(s, UserKey) == Some(Undefined)
    ensures forall k :: k !in {TokenKey, RefreshTokenKey, UserKey} ==> Stored(s, k) == Stored(storage, k)
  {
    storage[TokenKey := data.accessToken][RefreshTokenKey := data.refreshToken][UserKey := UserText(data.user, userJson)]
  }

  /** The storage after `clearAuthData` removes the three keys. */
  function WithoutAuthData(storage: map<string, string>): (s: map<string, string>)
    ensures Stored(s, TokenKey).None? && Stored(s, RefreshTokenKey).None? && Stored(s, UserKey).None?
    ensures forall k :: k !in {TokenKey, RefreshTokenKey, UserKey} ==> Stored(s, k) == Stored(storage, k)
  {
    storage - {TokenKey, RefreshTokenKey, UserKey}
  }

  /** Clearing after a sign-in leaves the storage as clearing alone would: nothing of the session survives. */
  lemma ClearUndoesSet(storage: map<string, string>, data: AuthData, userJson: User -> string)
    ensures WithoutAuthData(WithAuthData(storage, data, userJson)) == WithoutAuthData(storage)
  {
    var a := WithoutAuthData(WithAuthData(storage, data, userJson));
    var b := WithoutAuthData(storage);
    forall k | k in a
      ensures k in b && a[k] == b[k]
    {
      assert Stored(a, k) == Stored(b, k);
    }
    forall k | k in b
      ensures k in a
    {
      assert Stored(a, k) == Stored(b, k);
    }
  }

  /**
   * `hasValidToken` on the stored token: false without a token or when the
   * payload cannot be decoded; otherwise whether `exp` is after the current
   * second (a missing `exp` compares false).
   */
  function ValidToken(token: Option<string>, decode: string -> Option<Claims>, nowMillis: int): (b: bool)
    ensures b ==> Truthy(token) && decode(token.value).Some? && decode(token.value).value.exp.Some?
  {
    if !Truthy(token) then false
    else
      var payload := decode(token.value);
      payload.Some? && payload.value.exp.Some? && payload.value.exp.value > Seconds(nowMillis)
  }

  /** A decodable token with `exp` is valid exactly before the start of second `exp`. */
  lemma ValidTokenWindow(token: string, decode: string -> Option<Claims>, nowMillis: int, exp: int)
    requires token != "" && decode(token).Some? && decode(token).value.exp == Some(exp)
    ensures ValidToken(Some(token), decode, nowMillis) <==> nowMillis < exp * 1000
  {
    var s := Seconds(nowMillis);
    if nowMillis < exp * 1000 {
      assert s * 1000 < exp * 1000;
    } else {
      assert s * 1000 + 1000 > exp * 1000;
    }
  }

  /** The client is stricter than the server: a token it holds valid, the server's test does not call expired. */
  lemma ClientValidImpliesServerLive(token: string, decode: string -> Option<Claims>, nowMillis: int)
    requires nowMillis >= 0
    requires ValidToken(Some(token), decode, nowMillis)
    ensures !IsTokenExpired(token, decode, nowMillis)
  {
  }

  /** A token issued as written has no `exp`, so the client never holds it valid. */
  lemma AsWrittenTokensNeverValid(who: Identity, sign: Claims -> string, decode: string -> Option<Claims>, nowMillis: int)
    requires forall c :: decode(sign(c)) == Some(c)
    ensures !ValidToken(Some(GenerateTokenPairAsWritten(who, sign).accessToken), decode, nowMillis)
  {
    assert decode(sign(AccessClaims(who))) == Some(AccessClaims(who));
  }

  /**
   * A token issued with the announced lifetime is valid for the client until
   * the start of the second seven days after the second of issue: at least
   * seven days less a second, and never seven days or more.
   */
  lemma IssuedTokensValidSevenDays(who: Identity, sign: Claims -> string, decode: string -> Option<Claims>, issuedMillis: int, nowMillis: int)
    requires forall c :: decode(sign(c)) == Some(c) && sign(c) != ""
    ensures ValidToken(Some(GenerateTokenPair(who, sign, issuedMillis).accessToken), decode, nowMillis) <==>
      nowMillis < (Seconds(issuedMillis) + SevenDays) * 1000
    ensures issuedMillis <= nowMillis <= issuedMillis + SevenDays * 1000 - 1000 ==>
      ValidToken(Some(GenerateTokenPair(who, sign, issuedMillis).accessToken), decode, nowMillis)
    ensures nowMillis >= issuedMillis + SevenDays * 1000 ==>
      !ValidToken(Some(GenerateTokenPair(who, sign, issuedMillis).accessToken), decode, nowMillis)
  {
    var c := AccessClaims(who).(exp := Some(Seconds(issuedMillis) + SevenDays));
    assert decode(sign(c)) == Some(c) && sign(c) != "";
    ValidTokenWindow(sign(c), decode, nowMillis, Seconds(issuedMillis) + SevenDays);
  }

  /**
   * `handleError`'s message: the server's message; else, when the body has
   * an `errors` array, its entries' `msg || message` joined by ', '; else
   * the error's own message; else the default.
   */
  function AuthErrorMessage(e: HttpFailure): (m: string)
    ensures Truthy(BodyMessage(e)) ==> m == BodyMessage(e).value
    ensures !Truthy(BodyMessage(e)) && BodyErrors(e).Some? ==> m == Join(ItemTexts(BodyErrors(e).value, false), ", ")
    ensures !Truthy(BodyMessage(e)) && BodyErrors(e).None? && Truthy(e.message) ==> m == e.message.value
    ensures !Truthy(BodyMessage(e)) && BodyErrors(e).None? && !Truthy(e.message) ==> m == UnexpectedError
  {
    if Truthy(BodyMessage(e)) then BodyMessage(e).value
    else if BodyErrors(e).Some? then Join(ItemTexts(BodyErrors(e).value, false), ", ")
    else if Truthy(e.message) then e.message.value
    else UnexpectedError
  }

  /** Without an `errors` array the session and the task service word an error alike. */
  lemma AuthAndTaskMessagesAgree(e: HttpFailure)
    requires BodyErrors(e).None?
    ensures AuthErrorMessage(e) == ClientTaskService.ErrorMessage(e)
  {
  }

  /** A single error entry is shown as its own text, `msg` before `message`. */
  lemma SingleErrorShown(e: HttpFailure, item: ErrorItem)
    requires !Truthy(BodyMessage(e)) && BodyErrors(e) == Some([item])
    ensures AuthErrorMessage(e) == FirstText(item.msg, item.message)
  {
    assert ItemTexts([item], false) == [FirstText(item.msg, item.message)];
  }

  /**
   * The authentication service's state. `storageAvailable` is whether
   * `localStorage` exists (it does not during server-side rendering);
   * `userJson` is `JSON.stringify` on users. `currentUser` is the value
   * last published; `None` stands for both null and undefined.
   */
  class Session {
    const storageAvailable: bool
    const userJson: User -> string
    var storage: map<string, string>
    var currentUser: Option<User>
    var authenticated: bool
    var navigations: seq<string>

    /** `getAccessToken`. */
    function AccessToken(): Option<string>
      reads this
    {
      if storageAvailable then Stored(storage, TokenKey) else None
    }

    /** `getRefreshToken`. */
    function RefreshToken(): Option<string>
      reads this
    {
      if storageAvailable then Stored(storage, RefreshTokenKey) else None
    }

    /** `hasValidToken`. */
    function HasValidToken(decode: string -> Option<Claims>, nowMillis: int): bool
      reads this
    {
      ValidToken(AccessToken(), decode, nowMillis)
    }

    /**
     * Construction: the user and the flag start from storage (`storedUser` is
     * what `getCurrentUser` parses there), then `checkTokenValidity` clears
     * the session unless the stored token is valid.
     */
    constructor(available: bool, stored: map<string, string>, storedUser: Option<User>, userJson: User -> string,
                decode: string -> Option<Claims>, nowMillis: int)
      ensures storageAvailable == available && this.userJson == userJson
      ensures ValidToken(if available then Stored(stored, TokenKey) else None, decode, nowMillis) ==>
        storage == stored && currentUser == storedUser && authenticated && navigations == []
      ensures !ValidToken(if available then Stored(stored, TokenKey) else None, decode, nowMillis) ==>
        storage == (if available then WithoutAuthData(stored) else stored) &&
        currentUser.None? && !authenticated && navigations == [LoginRoute]
    {
      storageAvailable := available;
      this.userJson := userJson;
      storage := stored;
      currentUser := storedUser;
      navigations := [];
      authenticated := ValidToken(if available then Stored(stored, TokenKey) else None, decode, nowMillis);
      new;
      CheckTokenValidity(decode, nowMillis);
    }

    /** `setAuthData`: store both tokens and the user, publish the user (possibly undefined), mark authenticated. */
    method SetAuthData(data: AuthData)
      modifies this
      ensures storage == if storageAvailable then WithAuthData(old(storage), data, userJson) else old(storage)
      ensures currentUser == data.user && authenticated
      ensures navigations == old(navigations)
    {
      if storageAvailable {
        storage := WithAuthData(storage, data, userJson);
      }
      currentUser := data.user;
      authenticated := true;
    }

    /** `clearAuthData`: remove the three keys, publish no user, not authenticated, go to the login page. */
    method ClearAuthData()
      modifies this
      ensures storage == if storageAvailable then WithoutAuthData(old(storage)) else old(storage)
      ensures currentUser.None? && !authenticated
      ensures navigations == old(navigations) + [LoginRoute]
    {
      if storageAvailable {
        storage := WithoutAuthData(storage);
      }
      currentUser := None;
      authenticated := false;
      navigations := navigations + [LoginRoute];
    }

    /** `updateCurrentUser`: store and publish the user; the tokens and the flag stay. */
    method UpdateCurrentUser(user: User)
      modifies this
      ensures storage == if storageAvailable then old(storage)[UserKey := userJson(user)] else old(storage)
      ensures currentUser == Some(user)
      ensures authenticated == old(authenticated) && navigations == old(navigations)
    {
      if storageAvailable {
        storage := storage[UserKey := userJson(user)];
      }
      currentUser := Some(user);
    }

    /** `checkTokenValidity`: clear the session unless the stored token is valid. */
    method CheckTokenValidity(decode: string -> Option<Claims>, nowMillis: int)
      modifies this
      ensures old(HasValidToken(decode, nowMillis)) ==>
        storage == old(storage) && currentUser == old(currentUser) && authenticated == old(authenticated) && navigations == old(navigations)
      ensures !old(HasValidToken(decode, nowMillis)) ==>
        storage == (if storageAvailable then WithoutAuthData(old(storage)) else old(storage)) &&
        currentUser.None? && !authenticated && navigations == old(navigations) + [LoginRoute]
    {
      if !HasValidToken(decode, nowMillis) {
        ClearAuthData();
      }
    }

    /** `handleError`: a 401 clears the session; the error is rethrown with its message. */
    method HandleError(e: HttpFailure) returns (u: UserError)
      modifies this
      ensures u == UserError(e, AuthErrorMessage(e))
      ensures e.status == 401 ==>
        storage == (if storageAvailable then WithoutAuthData(old(storage)) else old(storage)) &&
        currentUser.None? && !authenticated && navigations == old(navigations) + [LoginRoute]
      ensures e.status != 401 ==>
        storage == old(storage) && currentUser == old(currentUser) && authenticated == old(authenticated) && navigations == old(navigations)
    {
      if e.status == 401 {
        ClearAuthData();
      }
      u := UserError(e, AuthErrorMessage(e));
    }

    /**
     * `login` and `register`, which handle their replies alike: a successful
     * reply with data signs in; a failure goes through `handleError`.
     */
    method Login(outcome: Outcome<AuthReply>) returns (error: Option<UserError>)
      modifies this
      ensures outcome.Delivered? && outcome.reply.status == "success" && outcome.reply.data.Some? ==>
        storage == (if storageAvailable then WithAuthData(old(storage), outcome.reply.data.value, userJson) else old(storage)) &&
        currentUser == outcome.reply.data.value.user && authenticated && error.None?
      ensures outcome.Delivered? && !(outcome.reply.status == "success" && outcome.reply.data.Some?) ==>
        storage == old(storage) && currentUser == old(currentUser) && authenticated == old(authenticated) && error.None?
      ensures outcome.Delivered? ==> navigations == old(navigations)
      ensures outcome.Failed? ==> error == Some(UserError(outcome.failure, AuthErrorMessage(outcome.failure)))
      ensures outcome.Failed? && outcome.failure.status == 401 ==>
        storage == (if storageAvailable then WithoutAuthData(old(storage)) else old(storage)) &&
        currentUser.None? && !authenticated && navigations == old(navigations) + [LoginRoute]
      ensures outcome.Failed? && outcome.failure.status != 401 ==>
        storage == old(storage) && currentUser == old(currentUser) && authenticated == old(authenticated) && navigations == old(navigations)
    {
      error := None;
      match outcome
      case Delivered(reply) =>
        if reply.status == "success" && reply.data.Some? {
          SetAuthData(reply.data.value);
        }
      case Failed(failure) =>
        var u := HandleError(failure);
        error := Some(u);
    }

    /** `logout`: the session is cleared whether the call succeeds or fails; a failure is reported as 'Logout failed'. */
    method Logout(outcome: Outcome<()>) returns (error: Option<string>)
      modifies this
      ensures storage == if storageAvailable then WithoutAuthData(old(storage)) else old(storage)
      ensures currentUser.None? && !authenticated && navigations == old(navigations) + [LoginRoute]
      ensures error == if outcome.Failed? then Some(LogoutFailed) else None
    {
      ClearAuthData();
      error := if outcome.Failed? then Some(LogoutFailed) else None;
    }

    /**
     * `refreshToken`: without a stored refresh token the session is cleared
     * and no call is made; a successful reply with data signs in again; a
     * failed call clears the session and rethrows. The server's refresh
     * reply carries no user, so after it the session is authenticated with
     * no published user and the string "undefined" stored as the user.
     */
    method RefreshSession(outcome: Outcome<AuthReply>) returns (r: RefreshResult)
      modifies this
      ensures !Truthy(old(RefreshToken())) ==> r == NoRefreshToken(NoRefreshTokenAvailable)
      ensures Truthy(old(RefreshToken())) && outcome.Delivered? ==> r == Refreshed(outcome.reply)
      ensures Truthy(old(RefreshToken())) && outcome.Failed? ==> r == RefreshFailed(outcome.failure)
      ensures r.NoRefreshToken? || r.RefreshFailed? ==>
        storage == (if storageAvailable then WithoutAuthData(old(storage)) else old(storage)) &&
        currentUser.None? && !authenticated && navigations == old(navigations) + [LoginRoute]
      ensures r.Refreshed? && r.reply.status == "success" && r.reply.data.Some? ==>
        storage == (if storageAvailable then WithAuthData(old(storage), r.reply.data.value, userJson) else old(storage)) &&
        currentUser == r.reply.data.value.user && authenticated
      ensures r.Refreshed? && r.reply.status == "success" && r.reply.data.Some? && r.reply.data.value.user.None? ==>
        authenticated && currentUser.None? && (storageAvailable ==> Stored(storage, UserKey) == Some(Undefined))
      ensures r.Refreshed? && !(r.reply.status == "success" && r.reply.data.Some?) ==>
        storage == old(storage) && currentUser == old(currentUser) && authenticated == old(authenticated)
      ensures r.Refreshed? ==> navigations == old(navigations)
    {
      if !Truthy(RefreshToken()) {
        ClearAuthData();
        r := NoRefreshToken(NoRefreshTokenAvailable);
      } else {
        match outcome
        case Delivered(reply) =>
          if reply.status == "success" && reply.data.Some? {
            SetAuthData(reply.data.value);
          }
          r := Refreshed(reply);
        case Failed(failure) =>
          ClearAuthData();
          r := RefreshFailed(failure);
      }
    }

    /** `getProfile`: a successful reply with a user updates the current user; a failure goes through `handleError`. */
    method GetProfile(outcome: Outcome<ProfileReply>) returns (error: Option<UserError>)
      modifies this
      ensures outcome.Delivered? && outcome.reply.status == "success" && outcome.reply.data.Some? ==>
        storage == (if storageAvailable then old(storage)[UserKey := userJson(outcome.reply.data.value)] else old(storage)) &&
        currentUser == outcome.reply.data && authenticated == old(authenticated) && error.None?
      ensures outcome.Delivered? && !(outcome.reply.status == "success" && outcome.reply.data.Some?) ==>
        storage == old(storage) && currentUser == old(currentUser) && authenticated == old(authenticated) && error.None?
      ensures outcome.Delivered? ==> navigations == old(navigations)
      ensures outcome.Failed? ==> error == Some(UserError(outcome.failure, AuthErrorMessage(outcome.failure)))
      ensures outcome.Failed? && outcome.failure.status == 401 ==>
        storage == (if storageAvailable then WithoutAuthData(old(storage)) else old(storage)) &&
        currentUser.None? && !authenticated && navigations == old(navigations) + [LoginRoute]
      ensures outcome.Failed? && outcome.failure.status != 401 ==>
        storage == old(storage) && currentUser == old(currentUser) && authenticated == old(authenticated) && navigations == old(navigations)
    {
      error := None;
      match outcome
      case Delivered(reply) =>
        if reply.status == "success" && reply.data.Some? {
          UpdateCurrentUser(reply.data.value);
        }
      case Failed(failure) =>
        var u := HandleError(failure);
        error := Some(u);
    }
  }
}

/**
 * The authentication middleware of the API. Each middleware either passes
 * the request on (`next()`), possibly with `req.user` set, or answers it
 * with a status and a message. Verifying the token and finding the user in
 * the database are parameters: `verify` is the token library, `lookup` the
 * `User.findById(...).select('+isActive')` query.
 */
module AuthMiddleware {
  import opened Common
  import opened Jwt

  /** `req.user`: the authenticated caller. */
  datatype AuthUser = AuthUser(id: string, email: string, role: string)

  /** A stored user, with the `isActive` flag the query selects. */
  datatype UserRecord = UserRecord(id: string, email: string, role: string, isActive: bool)

  /** What the user query gives: a user, null, or a thrown error with its message. */
  datatype LookupOutcome = Found(user: UserRecord) | NoUser | LookupFailed(message: string)

  /** A middleware's decision: go on with `req.user`, or answer with a status and a message. */
  datatype Gate = Next(user: Option<AuthUser>) | Respond(status: int, message: string)

  const TokenRequired := "Access token is required"
  const UserInactive := "User not found or inactive"
  const AuthenticationRequired := "Authentication required"
  const AdminRequired := "Admin access required"
  const AccessDenied := "Access denied: insufficient permissions"

  /** The parameter name `requireOwnershipOrAdmin` reads by default. */
  const DefaultOwnerField := "userId"

  function UserOf(r: UserRecord): AuthUser {
    AuthUser(r.id, r.email, r.role)
  }

  /**
   * `authenticate`: a missing token, a token that fails verification, a
   * failed query, and a missing or inactive user all answer 401; otherwise
   * the request goes on as the stored user.
   */
  function Authenticate(header: Option<string>, verify: string -> VerifyOutcome, lookup: string -> LookupOutcome): (g: Gate)
    ensures g.Respond? ==> g.status == 401
    ensures g.Next? ==> exists t :: ExtractTokenFromHeader(header) == Some(t) && verify(t).Verified?
    ensures g.Next? ==> var t := ExtractTokenFromHeader(header).value;
      && lookup(verify(t).claims.userId).Found?
      && lookup(verify(t).claims.userId).user.isActive
      && g.user == Some(UserOf(lookup(verify(t).claims.userId).user))
    ensures ExtractTokenFromHeader(header).None? ==> g == Respond(401, TokenRequired)
    ensures ExtractTokenFromHeader(header).Some? ==> var t := ExtractTokenFromHeader(header).value;
      && (verify(t) == ExpiredToken ==> g == Respond(401, "Token expired"))
      && (verify(t) == MalformedToken ==> g == Respond(401, "Invalid token"))
      && (verify(t) == OtherFailure ==> g == Respond(401, "Token verification failed"))
      && (verify(t).Verified? ==> match lookup(verify(t).claims.userId)
            case LookupFailed(m) => g == Respond(401, m)
            case NoUser => g == Respond(401, UserInactive)
            case Found(u) => g == if u.isActive then Next(Some(UserOf(u))) else Respond(401, UserInactive))
  {
    var token := ExtractTokenFromHeader(header);
    if token.None? then Respond(401, TokenRequired)
    else
      var decoded := VerifyToken(token.value, verify);
      if decoded.Err? then Respond(401, decoded.error)
      else
        match lookup(decoded.value.userId)
        case LookupFailed(m) => Respond(401, m)
        case NoUser => Respond(401, UserInactive)
        case Found(u) => if !u.isActive then Respond(401, UserInactive) else Next(Some(UserOf(u)))
  }

  /** A well-formed bearer header with a valid token of an active user is let through as that user. */
  lemma AuthenticateAcceptsBearer(token: string, verify: string -> VerifyOutcome, lookup: string -> LookupOutcome, u: UserRecord)
    requires token != "" && ' ' !in token
    requires verify(token).Verified?
    requires lookup(verify(token).claims.userId) == Found(u) && u.isActive
    ensures Authenticate(Some("Bearer " + token), verify, lookup) == Next(Some(UserOf(u)))
  {
    ExtractTokenIff(Some("Bearer " + token), token);
  }

  /** A verified token is still refused when its user is gone or deactivated. */
  lemma AuthenticateRefusesInactive(header: Option<string>, verify: string -> VerifyOutcome, lookup: string -> LookupOutcome)
    requires ExtractTokenFromHeader(header).Some?
    requires verify(ExtractTokenFromHeader(header).value).Verified?
    requires var id := verify(ExtractTokenFromHeader(header).value).claims.userId;
      lookup(id) == NoUser || (lookup(id).Found? && !lookup(id).user.isActive)
    ensures Authenticate(header, verify, lookup) == Respond(401, UserInactive)
  {
  }

  /** `requireAdmin`: 401 without a user, 403 for a non-admin, otherwise on. */
  function RequireAdmin(user: Option<AuthUser>): (g: Gate)
    ensures g.Next? <==> user.Some? && user.value.role == "admin"
    ensures g.Next? ==> g.user == user
    ensures user.None? ==> g == Respond(401, AuthenticationRequired)
    ensures user.Some? && user.value.role != "admin" ==> g == Respond(403, AdminRequired)
  {
    if user.None? then Respond(401, AuthenticationRequired)
    else if user.value.role != "admin" then Respond(403, AdminRequired)
    else Next(user)
  }

  /**
   * The owner id `requireOwnershipOrAdmin` compares: `req.params[field] ||
   * req.body[field]`, where an absent or empty parameter falls back to the body.
   */
  function ResourceOwner(field: string, params: map<string, string>, body: map<string, string>): Option<string> {
    if field in params && params[field] != "" then Some(params[field])
    else if field in body then Some(body[field])
    else None
  }

  /**
   * `requireOwnershipOrAdmin(field)`: 401 without a user; an admin goes on;
   * anyone else is refused with 403 exactly when a non-empty owner id names
   * somebody else.
   */
  function RequireOwnershipOrAdmin(field: string, user: Option<AuthUser>, params: map<string, string>, body: map<string, string>): (g: Gate)
    ensures user.None? ==> g == Respond(401, AuthenticationRequired)
    ensures user.Some? ==>
      (g == Respond(403, AccessDenied) <==>
        user.value.role != "admin" && Truthy(ResourceOwner(field, params, body)) && ResourceOwner(field, params, body).value != user.value.id)
    ensures g.Next? ==> g.user == user
    ensures g.Respond? ==> g == Respond(401, AuthenticationRequired) || g == Respond(403, AccessDenied)
  {
    if user.None? then Respond(401, AuthenticationRequired)
    else if user.value.role == "admin" then Next(user)
    else
      var owner := ResourceOwner(field, params, body);
      if Truthy(owner) && owner.value != user.value.id then Respond(403, AccessDenied)
      else Next(user)
  }

  /** Whoever passes `requireAdmin` passes `requireOwnershipOrAdmin` on any resource. */
  lemma AdminPassesOwnership(user: Option<AuthUser>, field: string, params: map<string, string>, body: map<string, string>)
    requires RequireAdmin(user).Next?
    ensures RequireOwnershipOrAdmin(field, user, params, body) == Next(user)
  {
  }

  /** The owner of a resource always passes the ownership check on it. */
  lemma OwnerPasses(u: AuthUser, field: string, params: map<string, string>, body: map<string, string>)
    requires ResourceOwner(field, params, body) == Some(u.id)
    ensures RequireOwnershipOrAdmin(field, Some(u), params, body) == Next(Some(u))
  {
  }

  /** A non-empty route parameter decides ownership; the body cannot override it. */
  lemma ParamsTakePrecedence(field: string, u: AuthUser, params: map<string, string>, body: map<string, string>)
    requires u.role != "admin"
    requires field in params && params[field] != "" && params[field] != u.id
    ensures RequireOwnershipOrAdmin(field, Some(u), params, body) == Respond(403, AccessDenied)
    ensures RequireOwnershipOrAdmin(field, Some(u), params, body[field := u.id]) == Respond(403, AccessDenied)
  {
  }

  /**
   * `optionalAuth`: the same checks as `authenticate`, but every failure
   * (including a thrown one) just goes on without a user.
   */
  function OptionalAuth(header: Option<string>, verify: string -> VerifyOutcome, lookup: string -> LookupOutcome): (g: Gate)
    ensures g.Next?
  {
    var token := ExtractTokenFromHeader(header);
    if token.None? then Next(None)
    else
      var decoded := VerifyToken(token.value, verify);
      if decoded.Err? then Next(None)
      else
        match lookup(decoded.value.userId)
        case Found(u) => if u.isActive then Next(Some(UserOf(u))) else Next(None)
        case _ => Next(None)
  }

  /** `optionalAuth` sets the user `authenticate` would accept, and no user where it would refuse. */
  lemma OptionalAuthAgrees(header: Option<string>, verify: string -> VerifyOutcome, lookup: string -> LookupOutcome)
    ensures Authenticate(header, verify, lookup).Next? ==> OptionalAuth(header, verify, lookup) == Authenticate(header, verify, lookup)
    ensures Authenticate(header, verify, lookup).Respond? ==> OptionalAuth(header, verify, lookup) == Next(None)
  {
  }
}

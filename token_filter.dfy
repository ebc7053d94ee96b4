/**
 * MiniAppTokenFilter: every request outside the login and QR endpoints must
 * carry a token that JwtUtils accepts, whose userId claim is the user the
 * cached session of the token names, and whose user exists. Such a request
 * reaches the chain with that user, the token and the token's AppId in the
 * UserContext; any other is answered 401, and an exception 500. The context
 * is cleared when the filter is done, whatever happened.
 *
 * JwtUtils is not part of this model: what it answers for the token is an
 * input, and so is whether the rest of the chain throws.
 */
module TokenFilter {
  import opened Wrappers
  import opened Text
  import opened Entities
  import opened RedisCache
  import opened Database
  import opened Context
  import Users
  import CacheConstants
  import WeChat

  /** The paths served without a token; a path matches when it starts with
      one of them. */
  const EXCLUDE_PATHS: seq<string> := [
    "/front/auth/wxMiniAppLogin",
    "/front/auth/qr/generate",
    "/front/auth/qr/check",
    "/front/auth/qr/wxacode",
    "/api/front/auth/qr/generate",
    "/api/front/auth/qr/check",
    "/api/front/auth/qr/wxacode",
    "/health",
    "/actuator",
    "/swagger",
    "/v3/api-docs",
    "/favicon.ico"
  ]

  const BEARER_PREFIX := "Bearer "

  const UNAUTHORIZED := 401
  const INTERNAL_SERVER_ERROR := 500

  const MISSING_TOKEN := "缺少认证token"
  const INVALID_TOKEN := "token无效或已过期"
  const MALFORMED_TOKEN := "token格式错误"
  const SESSION_GONE := "会话已失效，请重新登录"
  const USER_GONE := "用户不存在"
  const FILTER_FAILURE := "认证服务异常"

  /** What the filter reads of a request: its URI, the "Authorization"
      and "token" headers and the "token" parameter. */
  datatype Request = Request(uri: string, authorization: Option<string>, tokenHeader: Option<string>,
                             tokenParam: Option<string>)

  /** What JwtUtils answers for the token: validateToken, and the userId
      and appId claims. Each call may throw. */
  datatype Jwt = Jwt(valid: WeChat.Answer<bool>, userId: WeChat.Answer<Option<int>>, appId: WeChat.Answer<Option<string>>)

  /** The status and message of the error response written. */
  datatype ErrorResponse = ErrorResponse(status: int, message: string)

  /** What doFilter did: the context the chain ran with, if it ran; the
      error response written, if any; and the cache afterwards. */
  datatype Filtered = Filtered(chain: Option<Snapshot>, error: Option<ErrorResponse>, store: Store)

  /** isExcludePath: anyMatch of startsWith over the excluded paths. */
  predicate IsExcludePath(uri: string) {
    exists i :: 0 <= i < |EXCLUDE_PATHS| && StartsWith(uri, EXCLUDE_PATHS[i])
  }

  /** extractToken: a "Bearer " Authorization header wins, and gives what
      follows the seven characters, blank or not; then a non-blank "token"
      header; then a non-blank "token" parameter. */
  function ExtractToken(req: Request): Option<string> {
    if HasText(req.authorization) && StartsWith(req.authorization.value, BEARER_PREFIX) then
      Some(req.authorization.value[|BEARER_PREFIX|..])
    else if HasText(req.tokenHeader) then req.tokenHeader
    else if HasText(req.tokenParam) then req.tokenParam
    else None
  }

  /** getUserInfo: the cached user; on a miss the user loaded by
      UsersService.getById, cached when found. Every exception is null. */
  function UserInfoLookup(t: Tables, s: Store, userId: int): (Store, Option<UsersDto>) {
    match UserIn(Read(s, UserInfoKey(Some(userId))))
    case Err(_) => (s, None)
    case Ok(Some(u)) => (s, Some(u))
    case Ok(None) =>
      var u := Users.UserById(t, Some(userId));
      if u.None? then (s, None)
      else match CacheUserIn(s, u)
        case Err(_) => (s, None)
        case Ok(s') => (s', u)
  }

  function Refused(status: int, message: string, s: Store): Filtered {
    Filtered(None, Some(ErrorResponse(status, message)), s)
  }

  /** chain.doFilter with the given context; an exception of the chain is
      caught like any other. */
  function Forwarded(c: Snapshot, chain: WeChat.Answer<()>, s: Store): Filtered {
    Filtered(Some(c), if chain.Threw? then Some(ErrorResponse(INTERNAL_SERVER_ERROR, FILTER_FAILURE)) else None, s)
  }

  /** The checks of the token itself: present, valid, with a userId claim. */
  function Claim(token: Option<string>, jwt: Jwt): Result<int, ErrorResponse> {
    if !HasText(token) then Err(ErrorResponse(UNAUTHORIZED, MISSING_TOKEN))
    else match jwt.valid
      case Threw(_) => Err(ErrorResponse(INTERNAL_SERVER_ERROR, FILTER_FAILURE))
      case Answered(false) => Err(ErrorResponse(UNAUTHORIZED, INVALID_TOKEN))
      case Answered(true) =>
        match jwt.userId
        case Threw(_) => Err(ErrorResponse(INTERNAL_SERVER_ERROR, FILTER_FAILURE))
        case Answered(None) => Err(ErrorResponse(UNAUTHORIZED, MALFORMED_TOKEN))
        case Answered(Some(userId)) => Ok(userId)
  }

  /** The checks against the cache and the table: the token's session
      names the claimed user, and that user is found. */
  function Admission(t: Tables, s: Store, token: Option<string>, userId: int): (Store, Result<UsersDto, ErrorResponse>) {
    match SessionIn(s, token)
    case Err(_) => (s, Err(ErrorResponse(INTERNAL_SERVER_ERROR, FILTER_FAILURE)))
    case Ok(cachedUserId) =>
      if cachedUserId != Some(userId) then (s, Err(ErrorResponse(UNAUTHORIZED, SESSION_GONE)))
      else
        var (s1, user) := UserInfoLookup(t, s, userId);
        if user.None? then (s1, Err(ErrorResponse(UNAUTHORIZED, USER_GONE))) else (s1, Ok(user.value))
  }

  /** The try block of doFilter, from the context c the request starts
      with. */
  function Filter(t: Tables, s: Store, c: Snapshot, req: Request, jwt: Jwt, chain: WeChat.Answer<()>): Filtered {
    if IsExcludePath(req.uri) then Forwarded(c, chain, s)
    else
      var token := ExtractToken(req);
      match Claim(token, jwt)
      case Err(e) => Filtered(None, Some(e), s)
      case Ok(userId) =>
        var (s1, user) := Admission(t, s, token, userId);
        if user.Err? then Filtered(None, Some(user.error), s1)
        else match jwt.appId
          case Threw(_) => Refused(INTERNAL_SERVER_ERROR, FILTER_FAILURE, s1)
          case Answered(appId) =>
            Forwarded(Snapshot(Some(user.value), token, if HasText(appId) then appId else c.appId), chain, s1)
  }

  class MiniAppTokenFilter {
    const db: Db
    const cache: CacheService
    const users: Users.UsersService
    const context: UserContext

    constructor(db: Db, cache: CacheService, users: Users.UsersService, context: UserContext)
      requires users.db == db
      ensures this.db == db && this.cache == cache && this.users == users && this.context == context
    {
      this.db := db;
      this.cache := cache;
      this.users := users;
      this.context := context;
    }

    method GetUserInfo(userId: int) returns (u: Option<UsersDto>)
      requires users.db == db
      modifies cache
      ensures (cache.store, u) == UserInfoLookup(db.tables, old(cache.store), userId)
    {
      var cachedUser := cache.GetUserInfo(Some(userId));
      if cachedUser.Err? {
        return None;
      }
      if cachedUser.value.Some? {
        return cachedUser.value;
      }
      var user := users.GetById(Some(userId));
      if user.Some? {
        var c := cache.CacheUserInfo(user);
        if c.Abrupt? {
          return None;
        }
      }
      return user;
    }

    /** doFilter: the try block, then clear() in the finally block. */
    method DoFilter(req: Request, jwt: Jwt, chain: WeChat.Answer<()>) returns (ran: Option<Snapshot>, error: Option<ErrorResponse>)
      requires users.db == db
      modifies cache, context
      ensures Filtered(ran, error, cache.store) == Filter(db.tables, old(cache.store), old(context.Current()), req, jwt, chain)
      ensures context.Current() == EMPTY
    {
      ran, error := Authenticate(req, jwt, chain);
      context.Clear();
    }

    method Authenticate(req: Request, jwt: Jwt, chain: WeChat.Answer<()>) returns (ran: Option<Snapshot>, error: Option<ErrorResponse>)
      requires users.db == db
      modifies cache, context
      ensures Filtered(ran, error, cache.store) == Filter(db.tables, old(cache.store), old(context.Current()), req, jwt, chain)
    {
      if IsExcludePath(req.uri) {
        ran, error := RunChain(chain);
        return;
      }
      var token := ExtractToken(req);
      if !HasText(token) {
        return None, Some(ErrorResponse(UNAUTHORIZED, MISSING_TOKEN));
      }
      if jwt.valid.Threw? {
        return None, Some(ErrorResponse(INTERNAL_SERVER_ERROR, FILTER_FAILURE));
      }
      if !jwt.valid.value {
        return None, Some(ErrorResponse(UNAUTHORIZED, INVALID_TOKEN));
      }
      if jwt.userId.Threw? {
        return None, Some(ErrorResponse(INTERNAL_SERVER_ERROR, FILTER_FAILURE));
      }
      var userId := jwt.userId.value;
      if userId.None? {
        return None, Some(ErrorResponse(UNAUTHORIZED, MALFORMED_TOKEN));
      }
      var cachedUserId := cache.GetUserSession(token);
      if cachedUserId.Err? {
        return None, Some(ErrorResponse(INTERNAL_SERVER_ERROR, FILTER_FAILURE));
      }
      if cachedUserId.value.None? || cachedUserId.value != userId {
        return None, Some(ErrorResponse(UNAUTHORIZED, SESSION_GONE));
      }
      var user := GetUserInfo(userId.value);
      if user.None? {
        return None, Some(ErrorResponse(UNAUTHORIZED, USER_GONE));
      }
      context.SetCurrentUser(user);
      context.SetCurrentToken(token);
      if jwt.appId.Threw? {
        return None, Some(ErrorResponse(INTERNAL_SERVER_ERROR, FILTER_FAILURE));
      }
      var appId := jwt.appId.value;
      if HasText(appId) {
        context.SetCurrentAppId(appId);
      }
      ran, error := RunChain(chain);
    }

    /** chain.doFilter, which runs with the context as it stands. */
    method RunChain(chain: WeChat.Answer<()>) returns (ran: Option<Snapshot>, error: Option<ErrorResponse>)
      ensures Filtered(ran, error, cache.store) == Forwarded(context.Current(), chain, cache.store)
    {
      ran := Some(context.Current());
      error := if chain.Threw? then Some(ErrorResponse(INTERNAL_SERVER_ERROR, FILTER_FAILURE)) else None;
    }
  }

  // ---------------------------------------------------------------------
  // Properties of isExcludePath

  /** Exclusion is by prefix: whatever extends an excluded path is
      excluded too. */
  lemma ExclusionIsByPrefix(uri: string, more: string)
    requires IsExcludePath(uri)
    ensures IsExcludePath(uri + more)
  {
    var i :| 0 <= i < |EXCLUDE_PATHS| && StartsWith(uri, EXCLUDE_PATHS[i]);
    assert (uri + more)[..|EXCLUDE_PATHS[i]|] == uri[..|EXCLUDE_PATHS[i]|];
  }

  /** So "/healthz" and "/front/auth/qr/checkout" are served without a
      token as well. */
  lemma ExcludedExamples()
    ensures IsExcludePath("/healthz")
    ensures IsExcludePath("/front/auth/qr/checkout")
  {
    assert StartsWith("/health", EXCLUDE_PATHS[7]);
    ExclusionIsByPrefix("/health", "z");
    assert StartsWith("/front/auth/qr/check", EXCLUDE_PATHS[2]);
    ExclusionIsByPrefix("/front/auth/qr/check", "out");
  }

  /** A string that differs from p at a position of p does not start
      with p. */
  lemma DiffersAt(s: string, p: string, k: int)
    requires 0 <= k < |p| && k < |s| && s[k] != p[k]
    ensures !StartsWith(s, p)
  {
    if |p| <= |s| {
      assert s[..|p|][k] != p[k];
    }
  }

  /** Scanning a QR code always needs a token. */
  lemma ScanNeedsToken()
    ensures !IsExcludePath("/front/auth/qr/scan")
  {
    forall i | 0 <= i < |EXCLUDE_PATHS|
      ensures !StartsWith("/front/auth/qr/scan", EXCLUDE_PATHS[i])
    {
      if i == 0 {
        DiffersAt("/front/auth/qr/scan", EXCLUDE_PATHS[i], 12);
      } else if i == 1 {
        DiffersAt("/front/auth/qr/scan", EXCLUDE_PATHS[i], 15);
      } else if i == 2 {
        DiffersAt("/front/auth/qr/scan", EXCLUDE_PATHS[i], 15);
      } else if i == 3 {
        DiffersAt("/front/auth/qr/scan", EXCLUDE_PATHS[i], 15);
      } else if i == 4 {
        DiffersAt("/front/auth/qr/scan", EXCLUDE_PATHS[i], 1);
      } else if i == 5 {
        DiffersAt("/front/auth/qr/scan", EXCLUDE_PATHS[i], 1);
      } else if i == 6 {
        DiffersAt("/front/auth/qr/scan", EXCLUDE_PATHS[i], 1);
      } else if i == 7 {
        DiffersAt("/front/auth/qr/scan", EXCLUDE_PATHS[i], 1);
      } else if i == 8 {
        DiffersAt("/front/auth/qr/scan", EXCLUDE_PATHS[i], 1);
      } else if i == 9 {
        DiffersAt("/front/auth/qr/scan", EXCLUDE_PATHS[i], 1);
      } else if i == 10 {
        DiffersAt("/front/auth/qr/scan", EXCLUDE_PATHS[i], 1);
      } else {
        DiffersAt("/front/auth/qr/scan", EXCLUDE_PATHS[i], 2);
      }
    }
  }

  /** Confirming a QR code always needs a token. */
  lemma ConfirmNeedsToken()
    ensures !IsExcludePath("/front/auth/qr/confirm")
  {
    forall i | 0 <= i < |EXCLUDE_PATHS|
      ensures !StartsWith("/front/auth/qr/confirm", EXCLUDE_PATHS[i])
    {
      if i == 0 {
        DiffersAt("/front/auth/qr/confirm", EXCLUDE_PATHS[i], 12);
      } else if i == 1 {
        DiffersAt("/front/auth/qr/confirm", EXCLUDE_PATHS[i], 15);
      } else if i == 2 {
        DiffersAt("/front/auth/qr/confirm", EXCLUDE_PATHS[i], 16);
      } else if i == 3 {
        DiffersAt("/front/auth/qr/confirm", EXCLUDE_PATHS[i], 15);
      } else if i == 4 {
        DiffersAt("/front/auth/qr/confirm", EXCLUDE_PATHS[i], 1);
      } else if i == 5 {
        DiffersAt("/front/auth/qr/confirm", EXCLUDE_PATHS[i], 1);
      } else if i == 6 {
        DiffersAt("/front/auth/qr/confirm", EXCLUDE_PATHS[i], 1);
      } else if i == 7 {
        DiffersAt("/front/auth/qr/confirm", EXCLUDE_PATHS[i], 1);
      } else if i == 8 {
        DiffersAt("/front/auth/qr/confirm", EXCLUDE_PATHS[i], 1);
      } else if i == 9 {
        DiffersAt("/front/auth/qr/confirm", EXCLUDE_PATHS[i], 1);
      } else if i == 10 {
        DiffersAt("/front/auth/qr/confirm", EXCLUDE_PATHS[i], 1);
      } else {
        DiffersAt("/front/auth/qr/confirm", EXCLUDE_PATHS[i], 2);
      }
    }
  }

  // ---------------------------------------------------------------------
  // Properties of extractToken

  /** The three sources in order: a "Bearer " header, then a non-blank
      token header, then a non-blank token parameter. */
  lemma TokenPrecedence(req: Request)
    ensures var r := ExtractToken(req); var bearer := HasText(req.authorization) && StartsWith(req.authorization.value, BEARER_PREFIX);
      (bearer ==> r == Some(req.authorization.value[7..])) &&
      (!bearer && HasText(req.tokenHeader) ==> r == req.tokenHeader) &&
      (!bearer && !HasText(req.tokenHeader) && HasText(req.tokenParam) ==> r == req.tokenParam) &&
      (!bearer && !HasText(req.tokenHeader) && !HasText(req.tokenParam) ==> r.None?)
  {
  }

  /** A token that is missing or blank comes from a blank-tailed Bearer
      header or from nowhere. */
  lemma BlankTokenOnlyFromBearer(req: Request)
    requires !HasText(ExtractToken(req))
    ensures ExtractToken(req).Some? ==> HasText(req.authorization) && StartsWith(req.authorization.value, BEARER_PREFIX)
    ensures ExtractToken(req).None? ==> !HasText(req.tokenHeader) && !HasText(req.tokenParam)
  {
  }

  /** A bare "Bearer " header hides a good token header: the request is
      refused for a missing token. */
  lemma BareBearerHidesTokenHeader(t: Tables, s: Store, c: Snapshot, uri: string, token: string, jwt: Jwt,
                                   chain: WeChat.Answer<()>)
    requires !IsExcludePath(uri)
    ensures Filter(t, s, c, Request(uri, Some("Bearer "), Some(token), Some(token)), jwt, chain) ==
      Refused(401, "缺少认证token", s)
  {
    var req := Request(uri, Some("Bearer "), Some(token), Some(token));
    assert "Bearer "[0] == 'B' && !IsJavaWhitespace('B');
    assert HasText(req.authorization);
    assert req.authorization.value[..7] == BEARER_PREFIX;
    assert req.authorization.value[7..] == "";
    assert !HasText(Some(""));
  }

  // ---------------------------------------------------------------------
  // Properties of doFilter

  /** The token checks pass exactly for a non-blank valid token with a
      userId claim; a refusal is 500 exactly when JwtUtils threw. */
  lemma ClaimOutcomes(token: Option<string>, jwt: Jwt)
    ensures Claim(token, jwt).Ok? <==>
      HasText(token) && jwt.valid == WeChat.Answered(true) && jwt.userId.Answered? && jwt.userId.value.Some?
    ensures Claim(token, jwt).Ok? ==> Claim(token, jwt).value == jwt.userId.value.value
    ensures var r := Claim(token, jwt);
      r.Err? ==> (r.error.status == 401 || r.error.status == 500) &&
                 (r.error.status == 500 <==> HasText(token) && (jwt.valid.Threw? || (jwt.valid == WeChat.Answered(true) && jwt.userId.Threw?)))
  {
  }

  /** The session and user checks pass exactly when the token's session
      names the claimed user and that user is found; a refusal is 500
      exactly when the session read failed. The only write is the caching
      of the found profile. */
  lemma AdmissionOutcomes(t: Tables, s: Store, token: Option<string>, userId: int)
    ensures var (s1, r) := Admission(t, s, token, userId);
      (r.Ok? <==> SessionIn(s, token) == Ok(Some(userId)) && UserInfoLookup(t, s, userId).1.Some?) &&
      (r.Ok? ==> Some(r.value) == UserInfoLookup(t, s, userId).1 && s1 == UserInfoLookup(t, s, userId).0) &&
      (r.Err? ==> (r.error.status == 401 || r.error.status == 500) &&
                  (r.error.status == 500 <==> SessionIn(s, token).Err?)) &&
      (s1 == s || s1 == UserInfoLookup(t, s, userId).0)
  {
  }

  /** A protected request reaches the chain exactly when the token passes
      its checks, its session and user are found, and the appId claim can
      be read. It then runs with that user, the token, and the token's
      AppId when it has one. */
  lemma ForwardedIff(t: Tables, s: Store, c: Snapshot, req: Request, jwt: Jwt, chain: WeChat.Answer<()>)
    requires !IsExcludePath(req.uri)
    ensures var token := ExtractToken(req); var f := Filter(t, s, c, req, jwt, chain);
      f.chain.Some? <==>
        Claim(token, jwt).Ok? && Admission(t, s, token, Claim(token, jwt).value).1.Ok? && jwt.appId.Answered?
    ensures var token := ExtractToken(req); var f := Filter(t, s, c, req, jwt, chain);
      f.chain.Some? ==>
        var (s1, user) := Admission(t, s, token, Claim(token, jwt).value);
        f.chain.value.user == Some(user.value) && f.chain.value.token == token &&
        f.chain.value.appId == (if HasText(jwt.appId.value) then jwt.appId.value else c.appId) &&
        f.store == s1 && (f.error.Some? <==> chain.Threw?)
  {
  }

  /** An excluded request reaches the chain untouched: same context, same
      cache, whatever the token. */
  lemma ExcludedPassesUntouched(t: Tables, s: Store, c: Snapshot, req: Request, jwt: Jwt, chain: WeChat.Answer<()>)
    requires IsExcludePath(req.uri)
    ensures Filter(t, s, c, req, jwt, chain) == Filtered(Some(c), if chain.Threw? then Some(ErrorResponse(500, "认证服务异常")) else None, s)
  {
  }

  /** A request that does not reach the chain is answered 401 or 500, and
      the only write is getUserInfo caching the claimed user's profile. */
  lemma RefusalStatus(t: Tables, s: Store, c: Snapshot, req: Request, jwt: Jwt, chain: WeChat.Answer<()>)
    ensures var f := Filter(t, s, c, req, jwt, chain);
      f.chain.None? ==> f.error.Some? && (f.error.value.status == 401 || f.error.value.status == 500)
    ensures var f := Filter(t, s, c, req, jwt, chain);
      f.store == s || (jwt.userId.Answered? && jwt.userId.value.Some? && f.store == UserInfoLookup(t, s, jwt.userId.value.value).0)
  {
    var token := ExtractToken(req);
    ClaimOutcomes(token, jwt);
    if Claim(token, jwt).Ok? {
      AdmissionOutcomes(t, s, token, Claim(token, jwt).value);
    }
  }

  /** A token whose session was removed is refused, even while JwtUtils
      still accepts it. */
  lemma RemovedSessionRefused(t: Tables, s: Store, c: Snapshot, req: Request, jwt: Jwt, chain: WeChat.Answer<()>,
                              userId: int)
    requires !IsExcludePath(req.uri) && HasText(ExtractToken(req))
    requires jwt.valid == WeChat.Answered(true) && jwt.userId == WeChat.Answered(Some(userId))
    requires CacheSessionIn(s, ExtractToken(req), Some(userId)).Ok?
    ensures var s' := Erase(CacheSessionIn(s, ExtractToken(req), Some(userId)).value, SessionKey(ExtractToken(req))).value;
      Filter(t, s', c, req, jwt, chain) == Refused(401, "会话已失效，请重新登录", s')
  {
    SessionRoundTrip(s, ExtractToken(req), Some(userId));
  }

  /** A session of another user does not let the token through. */
  lemma OtherUsersSessionRefused(t: Tables, s: Store, c: Snapshot, req: Request, jwt: Jwt, chain: WeChat.Answer<()>,
                                 userId: int, other: int)
    requires !IsExcludePath(req.uri) && HasText(ExtractToken(req))
    requires jwt.valid == WeChat.Answered(true) && jwt.userId == WeChat.Answered(Some(userId)) && other != userId
    requires SessionIn(s, ExtractToken(req)) == Ok(Some(other))
    ensures Filter(t, s, c, req, jwt, chain) == Refused(401, "会话已失效，请重新登录", s)
  {
  }

  // ---------------------------------------------------------------------
  // Properties of getUserInfo

  /** A cached profile is answered without a database read or a write; a
      user not found is never cached. */
  lemma LookupCacheFirst(t: Tables, s: Store, userId: int)
    ensures var (s', u) := UserInfoLookup(t, s, userId);
      (UserIn(Read(s, UserInfoKey(Some(userId)))).Ok? && UserIn(Read(s, UserInfoKey(Some(userId)))).value.Some? ==>
        s' == s && u == UserIn(Read(s, UserInfoKey(Some(userId)))).value) &&
      (u.None? ==> s' == s)
  {
  }

  /** A profile loaded from the table carries the id asked for, and is
      cached under it: the next lookup is a cache hit with the same
      answer. */
  lemma LookupThenHit(t: Tables, s: Store, userId: int)
    requires UserIn(Read(s, UserInfoKey(Some(userId)))) == Ok(None)
    requires UserInfoLookup(t, s, userId).1.Some?
    ensures var (s', u) := UserInfoLookup(t, s, userId);
      u.value.id == Some(userId) && UserInfoLookup(t, s', userId) == (s', u)
  {
    var (s', u) := UserInfoLookup(t, s, userId);
    var row := First(UsersWithId(t.users, Some(userId))).value;
    assert row in UsersWithId(t.users, Some(userId));
    assert u.value.id == row.id == Some(userId);
    ReadAfterWrite(s, UserInfoKey(Some(userId)), Some(UserValue(u.value)), CacheConstants.USER_INFO_EXPIRE);
  }
}

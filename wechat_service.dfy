/**
 * WeChatServiceImpl: the calls into the WeChat mini-program platform, with
 * the anti-replay marking of authorization codes and the cache-aside
 * lookups of apps and access tokens. The platform itself is an oracle: each
 * call into it is given as the answer it returns or the exception it throws.
 */
module WeChat {
  import opened Wrappers
  import opened Text
  import opened CacheConstants
  import opened Entities
  import opened Converters
  import opened RedisCache
  import opened Database

  /** What a call into the WeChat platform did. */
  datatype Answer<T> = Answered(value: T) | Threw(message: Option<string>)

  /** jsCode2SessionInfo's result. */
  datatype SessionInfo = SessionInfo(openid: Option<string>, sessionKey: Option<string>, unionid: Option<string>)

  /** The parameters of createWxaCodeUnlimit. */
  datatype WxaRequest = WxaRequest(
    scene: Option<string>, page: Option<string>, hyaline: bool, envVersion: string,
    width: int, autoColor: bool, checkPath: bool)

  /** createWxaCodeUnlimit on the platform: the image it makes, or the
      exception it throws, for the app whose credentials configure the call
      and the parameters sent. */
  type WxaPlatform = (App, WxaRequest) -> Answer<seq<Byte>>

  /** The cache after a call, and what the call returned. */
  datatype Reply<T> = Reply(store: Store, value: T)

  // ---------------------------------------------------------------------
  // getAppByAppId: cache first, then the enabled app, which is then cached

  function AppLookup(t: Tables, s: Store, appId: Option<string>): Reply<Result<Option<App>, Fault>> {
    match AppIn(Read(s, AppInfoKey(appId)))
    case Err(f) => Reply(s, Err(f))
    case Ok(Some(d)) => Reply(s, Ok(Some(AppFromDto(d))))
    case Ok(None) =>
      match One(ActiveApps(t.apps, appId))
      case Err(f) => Reply(s, Err(f))
      case Ok(None) => Reply(s, Ok(None))
      case Ok(Some(a)) =>
        match CacheAppIn(s, Some(AppToDto(a)))
        case Err(f) => Reply(s, Err(f))
        case Ok(s') => Reply(s', Ok(Some(a)))
  }

  // ---------------------------------------------------------------------
  // getWeChatSession

  /** An error answer: errcode -1 and a message. */
  function Failed(message: string): (w: WeChatSession)
    ensures w.errcode == Some(-1) && w.errmsg == Some(message)
    ensures w.openid.None? && w.sessionKey.None? && w.unionid.None?
  {
    WeChatSession(None, None, None, Some(-1), Some(message))
  }

  const CODE_USED_MESSAGE := "授权码已使用"
  const APP_UNAVAILABLE_MESSAGE := "应用不存在或已禁用"
  const API_FAILURE_PREFIX := "调用微信API异常: "

  /** The answer of the catch-all handler to an exception with a message. */
  function Caught(message: Option<string>): WeChatSession {
    Failed(API_FAILURE_PREFIX + NullableText(message))
  }

  /** getWeChatSession: a code already marked used is refused before the
      app or the platform is consulted; a code the platform accepts is
      marked used. Every exception becomes an error answer; one raised in
      the service itself carries the message `internal`. */
  function SessionExchange(t: Tables, s: Store, appId: Option<string>, code: Option<string>,
                           platform: Answer<SessionInfo>, internal: Option<string>): Reply<WeChatSession> {
    match CodeUsedIn(s, appId, code)
    case Err(_) => Reply(s, Caught(internal))
    case Ok(used) =>
      if used == Some(true) then Reply(s, Failed(CODE_USED_MESSAGE))
      else
        var l := AppLookup(t, s, appId);
        if l.value.Err? then Reply(l.store, Caught(internal))
        else if l.value.value.None? then Reply(l.store, Failed(APP_UNAVAILABLE_MESSAGE))
        else match platform
          case Threw(m) => Reply(l.store, Caught(m))
          case Answered(info) =>
            match MarkCodeIn(l.store, appId, code, true)
            case Err(_) => Reply(l.store, Caught(internal))
            case Ok(s') => Reply(s', WeChatSession(info.openid, info.sessionKey, info.unionid, Some(0), None))
  }

  // ---------------------------------------------------------------------
  // getMiniAppAccessToken

  /** A non-blank cached token is answered as it is; otherwise the platform
      is asked for the app's token, and a non-blank one is cached. Every
      failure is null. */
  function AccessToken(t: Tables, s: Store, appId: Option<string>, arrayText: string,
                       fetched: Answer<Option<string>>): Reply<Option<string>> {
    match AccessTokenIn(s, appId, arrayText)
    case Err(_) => Reply(s, None)
    case Ok(cached) =>
      if HasText(cached) then Reply(s, cached)
      else
        var l := AppLookup(t, s, appId);
        if l.value.Err? || l.value.value.None? then Reply(l.store, None)
        else match fetched
          case Threw(_) => Reply(l.store, None)
          case Answered(token) =>
            if !HasText(token) then Reply(l.store, None)
            else match CacheAccessTokenIn(l.store, appId, token)
              case Err(_) => Reply(l.store, None)
              case Ok(s') => Reply(s', token)
  }

  // ---------------------------------------------------------------------
  // getWxaCodeUnlimited

  const DEFAULT_WIDTH := 430
  const DEFAULT_ENV_VERSION := "release"

  /** The request's optional settings with their defaults filled in. */
  function WxaSettings(scene: Option<string>, page: Option<string>, width: Option<int>, envVersion: Option<string>,
                       checkPath: Option<bool>, hyaline: Option<bool>): (q: WxaRequest)
    ensures q.width > 0 && q.envVersion != "" && q.autoColor
  {
    WxaRequest(
      scene, page,
      if hyaline.None? then false else hyaline.value,
      if envVersion.Some? && |envVersion.value| > 0 then envVersion.value else DEFAULT_ENV_VERSION,
      if width.Some? && width.value > 0 then width.value else DEFAULT_WIDTH,
      true,
      if checkPath.None? then true else checkPath.value)
  }

  /** getWxaCodeUnlimited: the image only when the app has a token and is
      found, null on every failure. */
  function WxaCode(t: Tables, s: Store, appId: Option<string>, q: WxaRequest, arrayText: string,
                   fetched: Answer<Option<string>>, image: WxaPlatform): Reply<Option<seq<Byte>>> {
    var token := AccessToken(t, s, appId, arrayText, fetched);
    if !HasText(token.value) then Reply(token.store, None)
    else
      var l := AppLookup(t, token.store, appId);
      if l.value.Err? || l.value.value.None? then Reply(l.store, None)
      else match image(l.value.value.value, q)
        case Threw(_) => Reply(l.store, None)
        case Answered(bytes) => Reply(l.store, Some(bytes))
  }

  // ---------------------------------------------------------------------
  // joinUrl

  function TrimTrailingSlash(base: Option<string>): string {
    if base.None? then "" else if EndsWith(base.value, "/") then base.value[..|base.value| - 1] else base.value
  }

  function TrimLeadingSlash(path: Option<string>): string {
    if path.None? then "" else if StartsWith(path.value, "/") then path.value[1..] else path.value
  }

  function JoinUrl(base: Option<string>, path: Option<string>): string {
    TrimTrailingSlash(base) + "/" + TrimLeadingSlash(path)
  }

  // ---------------------------------------------------------------------
  // The service

  class WeChatService {
    const db: Db
    const cache: CacheService

    constructor(db: Db, cache: CacheService)
      ensures this.db == db && this.cache == cache
    {
      this.db := db;
      this.cache := cache;
    }

    method GetAppByAppId(appId: Option<string>) returns (r: Result<Option<App>, Fault>)
      modifies cache
      ensures var l := AppLookup(db.tables, old(cache.store), appId);
        cache.store == l.store && r == l.value
    {
      var cached := cache.GetAppInfo(appId);
      if cached.Err? {
        return Err(cached.error);
      }
      if cached.value.Some? {
        return Ok(Some(AppFromDto(cached.value.value)));
      }
      var app := db.SelectOneActiveApp(appId);
      if app.Err? {
        return Err(app.error);
      }
      if app.value.Some? {
        var c := cache.CacheAppInfo(Some(AppToDto(app.value.value)));
        match c {
          case Abrupt(f) => return Err(f);
          case Normal =>
        }
      }
      r := app;
    }

    method GetWeChatSession(appId: Option<string>, code: Option<string>, platform: Answer<SessionInfo>,
                            internal: Option<string>) returns (w: WeChatSession)
      modifies cache
      ensures var x := SessionExchange(db.tables, old(cache.store), appId, code, platform, internal);
        cache.store == x.store && w == x.value
    {
      var used := cache.IsWeChatCodeUsed(appId, code);
      if used.Err? {
        return Caught(internal);
      }
      if used.value == Some(true) {
        return Failed(CODE_USED_MESSAGE);
      }
      var app := GetAppByAppId(appId);
      if app.Err? {
        return Caught(internal);
      }
      if app.value.None? {
        return Failed(APP_UNAVAILABLE_MESSAGE);
      }
      if platform.Threw? {
        return Caught(platform.message);
      }
      var info := platform.value;
      w := WeChatSession(info.openid, info.sessionKey, info.unionid, Some(0), None);
      var c := cache.CacheWeChatSession(appId, code, true);
      if c.Abrupt? {
        return Caught(internal);
      }
    }

    method GetMiniAppAccessToken(appId: Option<string>, arrayText: string, fetched: Answer<Option<string>>)
      returns (token: Option<string>)
      modifies cache
      ensures var x := AccessToken(db.tables, old(cache.store), appId, arrayText, fetched);
        cache.store == x.store && token == x.value
    {
      var cached := cache.GetMiniAppAccessToken(appId, arrayText);
      if cached.Err? {
        return None;
      }
      if HasText(cached.value) {
        return cached.value;
      }
      var app := GetAppByAppId(appId);
      if app.Err? || app.value.None? {
        return None;
      }
      if fetched.Threw? || !HasText(fetched.value) {
        return None;
      }
      var c := cache.CacheMiniAppAccessToken(appId, fetched.value);
      if c.Abrupt? {
        return None;
      }
      token := fetched.value;
    }

    method GetWxaCodeUnlimited(appId: Option<string>, scene: Option<string>, page: Option<string>, width: Option<int>,
                               envVersion: Option<string>, checkPath: Option<bool>, hyaline: Option<bool>,
                               arrayText: string, fetched: Answer<Option<string>>, image: WxaPlatform)
      returns (bytes: Option<seq<Byte>>)
      modifies cache
      ensures var x := WxaCode(db.tables, old(cache.store), appId, WxaSettings(scene, page, width, envVersion, checkPath, hyaline),
                               arrayText, fetched, image);
        cache.store == x.store && bytes == x.value
    {
      var token := GetMiniAppAccessToken(appId, arrayText, fetched);
      if !HasText(token) {
        return None;
      }
      var app := GetAppByAppId(appId);
      if app.Err? || app.value.None? {
        return None;
      }
      var q := WxaSettings(scene, page, width, envVersion, checkPath, hyaline);
      var made := image(app.value.value, q);
      if made.Threw? {
        return None;
      }
      bytes := Some(made.value);
    }
  }

  // ---------------------------------------------------------------------
  // Properties of getAppByAppId

  /** A cached app is answered as it is, without the table being read and
      without a write. */
  lemma AppLookupCacheHit(t: Tables, s: Store, appId: Option<string>, d: AppsDto)
    requires AppIn(Read(s, AppInfoKey(appId))) == Ok(Some(d))
    ensures AppLookup(t, s, appId) == Reply(s, Ok(Some(AppFromDto(d))))
  {
  }

  /** On a miss the enabled app is read; it is cached only when found. */
  lemma AppLookupCacheMiss(t: Tables, s: Store, appId: Option<string>)
    requires AppIn(Read(s, AppInfoKey(appId))) == Ok(None)
    ensures var l := AppLookup(t, s, appId);
      (ActiveApps(t.apps, appId) == [] ==> l == Reply(s, Ok(None))) &&
      (|ActiveApps(t.apps, appId)| > 1 ==> l == Reply(s, Err(TooManyResults))) &&
      (|ActiveApps(t.apps, appId)| == 1 ==>
        var a := ActiveApps(t.apps, appId)[0];
        l.value == Ok(Some(a)) && AppIn(Read(l.store, AppInfoKey(appId))) == Ok(Some(AppToDto(a))))
  {
    var hits := ActiveApps(t.apps, appId);
    if |hits| == 1 {
      var a := hits[0];
      assert a in hits;
      assert a.appId == appId;
      AppInfoRoundTrip(s, AppToDto(a));
    }
  }

  /** A lookup that finds no app writes nothing. */
  lemma AppLookupNoneWritesNothing(t: Tables, s: Store, appId: Option<string>)
    ensures AppLookup(t, s, appId).value.Err? ==> AppLookup(t, s, appId).store == s
    ensures AppLookup(t, s, appId).value == Ok(None) ==> AppLookup(t, s, appId).store == s
  {
  }

  /** The lookup writes at most the app-info entry of the app. */
  lemma AppLookupWritesOnlyAppInfo(t: Tables, s: Store, appId: Option<string>, key: Option<string>)
    requires key != AppInfoKey(appId)
    ensures Read(AppLookup(t, s, appId).store, key) == Read(s, key)
  {
    match AppIn(Read(s, AppInfoKey(appId)))
    case Err(f) =>
    case Ok(Some(d)) =>
    case Ok(None) =>
      match One(ActiveApps(t.apps, appId))
      case Err(f) =>
      case Ok(None) =>
      case Ok(Some(a)) =>
        assert a in ActiveApps(t.apps, appId);
        assert a.appId == appId;
        if CacheAppIn(s, Some(AppToDto(a))).Ok? {
          WriteKeepsOthers(s, AppInfoKey(appId), Some(AppValue(AppToDto(a))), APP_INFO_EXPIRE, key);
        }
  }

  // ---------------------------------------------------------------------
  // Properties of getWeChatSession

  /** A code already marked used is refused with nothing read or written,
      whatever the platform would have answered. */
  lemma UsedCodeRefused(t: Tables, s: Store, appId: Option<string>, code: Option<string>,
                        platform: Answer<SessionInfo>, internal: Option<string>)
    requires CodeUsedIn(s, appId, code) == Ok(Some(true))
    ensures SessionExchange(t, s, appId, code, platform, internal) == Reply(s, Failed(CODE_USED_MESSAGE))
  {
  }

  /** The code key and the app-info key never coincide. */
  lemma CodeKeyIsNotAppKey(appId: Option<string>, code: Option<string>, other: Option<string>)
    ensures CodeKey(appId, code).Some? ==> CodeKey(appId, code) != AppInfoKey(other)
  {
    KeysOfDifferentKindsDiffer(WechatSession, AppInfo, [NullableText(appId), NullableText(code)], [NullableText(other)]);
  }

  /** An unknown or disabled app is refused and the code stays unmarked. */
  lemma UnknownAppLeavesCodeUnmarked(t: Tables, s: Store, appId: Option<string>, code: Option<string>,
                                     platform: Answer<SessionInfo>, internal: Option<string>)
    requires CodeUsedIn(s, appId, code).Ok? && CodeUsedIn(s, appId, code) != Ok(Some(true))
    requires AppLookup(t, s, appId).value == Ok(None)
    ensures var x := SessionExchange(t, s, appId, code, platform, internal);
      x == Reply(s, Failed(APP_UNAVAILABLE_MESSAGE))
  {
    AppLookupNoneWritesNothing(t, s, appId);
  }

  /** When the platform accepts the code the answer has errcode 0 and the
      platform's identities, and the code is marked used. */
  lemma AcceptedCodeIsMarked(t: Tables, s: Store, appId: Option<string>, code: Option<string>,
                             info: SessionInfo, internal: Option<string>)
    requires CodeUsedIn(s, appId, code) == Ok(None) || CodeUsedIn(s, appId, code) == Ok(Some(false))
    requires AppLookup(t, s, appId).value.Ok? && AppLookup(t, s, appId).value.value.Some?
    ensures var x := SessionExchange(t, s, appId, code, Answered(info), internal);
      x.value == WeChatSession(info.openid, info.sessionKey, info.unionid, Some(0), None) &&
      CodeUsedIn(x.store, appId, code) == Ok(Some(true))
  {
    var l := AppLookup(t, s, appId);
    CodeKeyIsNotAppKey(appId, code, appId);
    ReadAfterWrite(l.store, CodeKey(appId, code), Some(FlagValue(true)), WECHAT_SESSION_EXPIRE);
  }

  /** When the platform throws, the answer is an error carrying its message
      and the code stays as it was. */
  lemma RejectedCodeIsNotMarked(t: Tables, s: Store, appId: Option<string>, code: Option<string>,
                                message: Option<string>, internal: Option<string>)
    requires CodeUsedIn(s, appId, code).Ok? && CodeUsedIn(s, appId, code) != Ok(Some(true))
    requires AppLookup(t, s, appId).value.Ok? && AppLookup(t, s, appId).value.value.Some?
    ensures var x := SessionExchange(t, s, appId, code, Threw(message), internal);
      x.value == Failed(API_FAILURE_PREFIX + NullableText(message)) &&
      CodeUsedIn(x.store, appId, code) == CodeUsedIn(s, appId, code)
  {
    var l := AppLookup(t, s, appId);
    assert SessionExchange(t, s, appId, code, Threw(message), internal) == Reply(l.store, Caught(message));
    CodeKeyIsNotAppKey(appId, code, appId);
    AppLookupWritesOnlyAppInfo(t, s, appId, CodeKey(appId, code));
  }

  /** An exchange that does not fail has been accepted by the platform, so
      it has marked its code used. */
  lemma ExchangeSuccessMarksCode(t: Tables, s: Store, appId: Option<string>, code: Option<string>,
                                 platform: Answer<SessionInfo>, internal: Option<string>)
    requires var w := SessionExchange(t, s, appId, code, platform, internal).value; w.errcode.None? || w.errcode == Some(0)
    ensures platform.Answered?
    ensures CodeUsedIn(SessionExchange(t, s, appId, code, platform, internal).store, appId, code) == Ok(Some(true))
  {
    AcceptedCodeIsMarked(t, s, appId, code, platform.value, internal);
  }

  /** A code accepted once is refused the second time, whatever the
      platform would say then. */
  lemma CodeIsOneShot(t: Tables, s: Store, appId: Option<string>, code: Option<string>,
                      info: SessionInfo, again: Answer<SessionInfo>, internal: Option<string>)
    requires CodeUsedIn(s, appId, code) == Ok(None) || CodeUsedIn(s, appId, code) == Ok(Some(false))
    requires AppLookup(t, s, appId).value.Ok? && AppLookup(t, s, appId).value.value.Some?
    ensures var x := SessionExchange(t, s, appId, code, Answered(info), internal);
      SessionExchange(t, x.store, appId, code, again, internal) == Reply(x.store, Failed(CODE_USED_MESSAGE))
  {
    AcceptedCodeIsMarked(t, s, appId, code, info, internal);
  }

  // ---------------------------------------------------------------------
  // Properties of getMiniAppAccessToken

  /** A non-blank cached token is answered with no other call. */
  lemma CachedTokenAnswered(t: Tables, s: Store, appId: Option<string>, arrayText: string, fetched: Answer<Option<string>>)
    requires AccessTokenIn(s, appId, arrayText).Ok? && HasText(AccessTokenIn(s, appId, arrayText).value)
    ensures AccessToken(t, s, appId, arrayText, fetched) == Reply(s, AccessTokenIn(s, appId, arrayText).value)
  {
  }

  /** Past a blank cached token, the answer is the fetched token with the
      store it was cached in, or null with the store the app lookup left. */
  lemma FetchedReply(t: Tables, s: Store, appId: Option<string>, arrayText: string, fetched: Answer<Option<string>>)
    requires AccessTokenIn(s, appId, arrayText).Ok? && !HasText(AccessTokenIn(s, appId, arrayText).value)
    ensures var l := AppLookup(t, s, appId);
      var cached := if fetched.Answered? then CacheAccessTokenIn(l.store, appId, fetched.value) else Err(External);
      AccessToken(t, s, appId, arrayText, fetched) ==
        if l.value.Ok? && l.value.value.Some? && fetched.Answered? && HasText(fetched.value) && cached.Ok?
        then Reply(cached.value, fetched.value)
        else Reply(l.store, None)
  {
  }

  /** A fetched token is answered and cached only when it is non-blank; a
      blank one or a failure answers null and leaves the access-token entry
      as it was. */
  lemma FetchedTokenCachedOnlyIfNonBlank(t: Tables, s: Store, appId: Option<string>, arrayText: string,
                                         fetched: Answer<Option<string>>)
    requires AccessTokenIn(s, appId, arrayText).Ok? && !HasText(AccessTokenIn(s, appId, arrayText).value)
    ensures var x := AccessToken(t, s, appId, arrayText, fetched);
      (x.value.Some? ==>
         HasText(x.value) && fetched == Answered(x.value) && TextIn(Read(x.store, AccessTokenKey(appId))) == Ok(x.value)) &&
      (x.value.None? ==> Read(x.store, AccessTokenKey(appId)) == Read(s, AccessTokenKey(appId)))
  {
    var l := AppLookup(t, s, appId);
    FetchedReply(t, s, appId, arrayText, fetched);
    KeysOfDifferentKindsDiffer(MiniAppAccessToken, AppInfo, [NullableText(appId)], [NullableText(appId)]);
    AppLookupWritesOnlyAppInfo(t, s, appId, AccessTokenKey(appId));
    TokenReplyStore(s, l.store, appId, l.value.Ok? && l.value.value.Some?, fetched, AccessToken(t, s, appId, arrayText, fetched));
  }

  /** The store part of FetchedTokenCachedOnlyIfNonBlank, for any store ls
      the app lookup leaves with the access-token entry untouched. */
  lemma TokenReplyStore(s: Store, ls: Store, appId: Option<string>, found: bool, fetched: Answer<Option<string>>,
                        x: Reply<Option<string>>)
    requires Read(ls, AccessTokenKey(appId)) == Read(s, AccessTokenKey(appId))
    requires var cached := if fetched.Answered? then CacheAccessTokenIn(ls, appId, fetched.value) else Err(External);
      x == if found && fetched.Answered? && HasText(fetched.value) && cached.Ok?
           then Reply(cached.value, fetched.value)
           else Reply(ls, None)
    ensures x.value.Some? ==>
      HasText(x.value) && fetched == Answered(x.value) && TextIn(Read(x.store, AccessTokenKey(appId))) == Ok(x.value)
    ensures x.value.None? ==> Read(x.store, AccessTokenKey(appId)) == Read(s, AccessTokenKey(appId))
  {
    if fetched.Answered? && CacheAccessTokenIn(ls, appId, fetched.value).Ok? {
      ReadAfterWrite(ls, AccessTokenKey(appId), TextOf(fetched.value), MINI_APP_ACCESS_TOKEN_EXPIRE);
    }
  }

  // ---------------------------------------------------------------------
  // Properties of getWxaCodeUnlimited and joinUrl

  /** width 430 unless positive, envVersion "release" unless non-empty,
      checkPath true and hyaline false when absent; given values are kept. */
  lemma WxaDefaults(scene: Option<string>, page: Option<string>, width: Option<int>, envVersion: Option<string>,
                    checkPath: Option<bool>, hyaline: Option<bool>)
    ensures var q := WxaSettings(scene, page, width, envVersion, checkPath, hyaline);
      (q.width == if width.Some? && width.value > 0 then width.value else 430) &&
      (q.envVersion == if envVersion.Some? && envVersion.value != "" then envVersion.value else "release") &&
      (q.checkPath <==> checkPath != Some(false)) &&
      (q.hyaline <==> hyaline == Some(true)) &&
      q.scene == scene && q.page == page
  {
  }

  /** The image is answered exactly when a non-blank token was obtained, the
      app found and the platform made an image for that app and the request
      sent; it is then that image, and a failed call is null. */
  lemma WxaCodeNeedsToken(t: Tables, s: Store, appId: Option<string>, q: WxaRequest, arrayText: string,
                          fetched: Answer<Option<string>>, image: WxaPlatform)
    ensures var x := WxaCode(t, s, appId, q, arrayText, fetched, image);
      var token := AccessToken(t, s, appId, arrayText, fetched);
      var l := AppLookup(t, token.store, appId);
      (x.value.Some? <==> HasText(token.value) && l.value.Ok? && l.value.value.Some? && image(l.value.value.value, q).Answered?) &&
      (x.value.Some? ==> x.value.value == image(l.value.value.value, q).value)
  {
  }

  /** joinUrl puts exactly one '/' between a base and a path that bring
      none of their own, and absorbs one brought by either side. */
  lemma JoinUrlOneSlash(b: string, p: string)
    requires !EndsWith(b, "/") && !StartsWith(p, "/")
    ensures JoinUrl(Some(b), Some(p)) == b + "/" + p
    ensures JoinUrl(Some(b + "/"), Some(p)) == b + "/" + p
    ensures JoinUrl(Some(b), Some("/" + p)) == b + "/" + p
    ensures JoinUrl(Some(b + "/"), Some("/" + p)) == b + "/" + p
  {
    assert EndsWith(b + "/", "/") && (b + "/")[..|b|] == b;
    assert StartsWith("/" + p, "/") && ("/" + p)[1..] == p;
  }

  /** null counts as the empty text, and only one slash is stripped. */
  lemma JoinUrlEdges()
    ensures JoinUrl(None, None) == "/"
    ensures JoinUrl(Some("a//"), Some("//b")) == "a/" + "/" + "/b"
  {
    assert EndsWith("a//", "/") && "a//"[..2] == "a/";
    assert StartsWith("//b", "/") && "//b"[1..] == "/b";
  }
}

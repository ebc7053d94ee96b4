/**
 * CacheService: the Redis-backed cache of the user centre. Every entry is a
 * value with a lifetime in seconds; keys come from the CacheConstants
 * templates. Values are written with the JSON serializer, which stores a
 * null value as an empty entry that reads back as null.
 */
module RedisCache {
  import opened Wrappers
  import opened Text
  import opened CacheConstants
  import opened Entities

  /** A stored value and the seconds it has left to live. */
  datatype Entry = Entry(value: Option<CacheValue>, ttl: int)

  type Store = map<string, Entry>

  // ---------------------------------------------------------------------
  // Keys, as formatKey builds them from String.valueOf of each argument

  function AccessTokenKey(appId: Option<string>): Option<string> {
    FormatKeySpec(MINI_APP_ACCESS_TOKEN_KEY, [NullableText(appId)])
  }

  function AppInfoKey(appId: Option<string>): Option<string> {
    FormatKeySpec(APP_INFO_KEY, [NullableText(appId)])
  }

  function UserInfoKey(userId: Option<int>): Option<string> {
    FormatKeySpec(USER_INFO_KEY, [LongText(userId)])
  }

  function SessionKey(token: Option<string>): Option<string> {
    FormatKeySpec(USER_SESSION_KEY, [NullableText(token)])
  }

  function UserAppKey(userId: Option<int>, appId: Option<string>): Option<string> {
    FormatKeySpec(USER_APP_KEY, [LongText(userId), NullableText(appId)])
  }

  /** The anti-replay marker of a WeChat authorization code. */
  function CodeKey(appId: Option<string>, code: Option<string>): Option<string> {
    FormatKeySpec(WECHAT_SESSION_KEY, [NullableText(appId), NullableText(code)])
  }

  /** The hand-off key of a QR login, shared by its token and its image. */
  function QrKey(qrcodeId: Option<string>): Option<string> {
    FormatKeySpec(QR_TOKEN_KEY, [NullableText(qrcodeId)])
  }

  // ---------------------------------------------------------------------
  // The store

  /** opsForValue().get(key); RedisTemplate refuses a null key. */
  function Read(s: Store, key: Option<string>): (r: Result<Option<CacheValue>, Fault>)
    ensures key.None? <==> r.Err?
    ensures r.Err? ==> r.error == IllegalArgument
    ensures key.Some? && key.value !in s ==> r == Ok(None)
  {
    match key
    case None => Err(IllegalArgument)
    case Some(k) => Ok(if k in s then s[k].value else None)
  }

  /** opsForValue().set(key, value, ttl, SECONDS). */
  function Write(s: Store, key: Option<string>, v: Option<CacheValue>, ttl: int): (r: Result<Store, Fault>)
    ensures key.None? <==> r.Err?
    ensures r.Ok? ==> r.value.Keys == s.Keys + {key.value} && r.value[key.value] == Entry(v, ttl)
    ensures r.Ok? ==> forall k :: k in s && k != key.value ==> r.value[k] == s[k]
  {
    match key
    case None => Err(IllegalArgument)
    case Some(k) => Ok(s[k := Entry(v, ttl)])
  }

  /** delete(key). */
  function Erase(s: Store, key: Option<string>): (r: Result<Store, Fault>)
    ensures key.None? <==> r.Err?
    ensures r.Ok? ==> r.value == s - {key.value}
  {
    match key
    case None => Err(IllegalArgument)
    case Some(k) => Ok(s - {k})
  }

  /** expire(key, timeout, SECONDS): nothing happens to an absent key, a
      non-positive timeout deletes the key, any other sets its lifetime. */
  function Expired(s: Store, key: Option<string>, timeout: int): (r: Result<Store, Fault>)
    ensures key.None? <==> r.Err?
    ensures r.Ok? ==> r.value.Keys <= s.Keys
    ensures r.Ok? && key.value !in s ==> r.value == s
  {
    match key
    case None => Err(IllegalArgument)
    case Some(k) =>
      if k !in s then Ok(s)
      else if timeout <= 0 then Ok(s - {k})
      else Ok(s[k := s[k].(ttl := timeout)])
  }

  /** The store after the given seconds: Redis drops every entry whose
      lifetime has run out and the others count down. */
  function Aged(s: Store, seconds: nat): (r: Store)
    ensures forall k :: k in r <==> k in s && s[k].ttl > seconds
    ensures forall k :: k in r ==> r[k] == Entry(s[k].value, s[k].ttl - seconds)
  {
    map k | k in s && s[k].ttl > seconds :: Entry(s[k].value, s[k].ttl - seconds)
  }

  /** Lombok's toString of the two transfer objects. */
  function AppText(d: AppsDto): string {
    "AppsDTO(id=" + LongText(d.id) + ", appId=" + NullableText(d.appId) + ", appName=" + NullableText(d.appName)
    + ", appSecret=" + NullableText(d.appSecret) + ", description=" + NullableText(d.description)
    + ", status=" + LongText(d.status) + ")"
  }

  function UserText(d: UsersDto): string {
    "UsersDTO(id=" + LongText(d.id) + ", username=" + NullableText(d.username) + ", nickname=" + NullableText(d.nickname)
    + ", avatar=" + NullableText(d.avatar) + ", phone=" + NullableText(d.phone) + ", email=" + NullableText(d.email)
    + ", status=" + LongText(d.status) + ")"
  }

  /** Object.toString of a cached value; a byte array prints as its type
      and identity hash, which the caller supplies. */
  function ValueText(v: CacheValue, arrayText: string): string {
    match v
    case TextValue(t) => t
    case NumberValue(n) => IntToString(n)
    case FlagValue(b) => if b then "true" else "false"
    case AppValue(d) => AppText(d)
    case UserValue(d) => UserText(d)
    case BytesValue(_) => arrayText
  }

  // ---------------------------------------------------------------------
  // The operations of CacheService, as functions of the store

  function CacheAccessTokenIn(s: Store, appId: Option<string>, token: Option<string>): Result<Store, Fault> {
    Write(s, AccessTokenKey(appId), TextOf(token), MINI_APP_ACCESS_TOKEN_EXPIRE)
  }

  /** getMiniAppAccessToken: toString of whatever is stored, not only text. */
  function AccessTokenIn(s: Store, appId: Option<string>, arrayText: string): (r: Result<Option<string>, Fault>)
    ensures r.Err? <==> AccessTokenKey(appId).None?
  {
    match Read(s, AccessTokenKey(appId))
    case Err(f) => Err(f)
    case Ok(v) => Ok(if v.Some? then Some(ValueText(v.value, arrayText)) else None)
  }

  /** cacheAppInfo: keyed by the app's WeChat AppId; a null app throws. */
  function CacheAppIn(s: Store, app: Option<AppsDto>): Result<Store, Fault> {
    if app.None? then Err(NullPointer)
    else Write(s, AppInfoKey(app.value.appId), Some(AppValue(app.value)), APP_INFO_EXPIRE)
  }

  function CacheUserIn(s: Store, user: Option<UsersDto>): Result<Store, Fault> {
    if user.None? then Err(NullPointer)
    else Write(s, UserInfoKey(user.value.id), Some(UserValue(user.value)), USER_INFO_EXPIRE)
  }

  /** cacheUserSession: the token leads to the user id. */
  function CacheSessionIn(s: Store, token: Option<string>, userId: Option<int>): Result<Store, Fault> {
    Write(s, SessionKey(token), NumberOf(userId), USER_SESSION_EXPIRE)
  }

  function SessionIn(s: Store, token: Option<string>): Result<Option<int>, Fault> {
    NumberIn(Read(s, SessionKey(token)))
  }

  function CacheUserAppIn(s: Store, userId: Option<int>, appId: Option<string>, present: bool): Result<Store, Fault> {
    Write(s, UserAppKey(userId, appId), Some(FlagValue(present)), USER_APP_EXPIRE)
  }

  function MarkCodeIn(s: Store, appId: Option<string>, code: Option<string>, used: bool): Result<Store, Fault> {
    Write(s, CodeKey(appId, code), Some(FlagValue(used)), WECHAT_SESSION_EXPIRE)
  }

  /** isWeChatCodeUsed: the stored Boolean, or null. */
  function CodeUsedIn(s: Store, appId: Option<string>, code: Option<string>): Result<Option<bool>, Fault> {
    FlagIn(Read(s, CodeKey(appId, code)))
  }

  function CacheQrTokenIn(s: Store, qrcodeId: Option<string>, token: Option<string>): Result<Store, Fault> {
    Write(s, QrKey(qrcodeId), TextOf(token), QR_TOKEN_EXPIRE)
  }

  function QrTokenIn(s: Store, qrcodeId: Option<string>): Result<Option<string>, Fault> {
    TextIn(Read(s, QrKey(qrcodeId)))
  }

  function CacheWxaCodeIn(s: Store, qrcodeId: Option<string>, image: seq<Byte>): Result<Store, Fault> {
    Write(s, QrKey(qrcodeId), Some(BytesValue(image)), QR_TOKEN_EXPIRE)
  }

  function WxaCodeIn(s: Store, qrcodeId: Option<string>): Result<Option<seq<Byte>>, Fault> {
    BytesIn(Read(s, QrKey(qrcodeId)))
  }

  // ---------------------------------------------------------------------
  // The service

  class CacheService {
    var store: Store

    constructor()
      ensures store == map[]
    {
      store := map[];
    }

    /** The value under a key, or the exception a null key raises. */
    method Get(key: Option<string>) returns (r: Result<Option<CacheValue>, Fault>)
      ensures r == Read(store, key)
    {
      if key.None? {
        return Err(IllegalArgument);
      }
      r := Ok(if key.value in store then store[key.value].value else None);
    }

    method Put(key: Option<string>, v: Option<CacheValue>, ttl: int) returns (c: Completion)
      modifies this
      ensures var r := Write(old(store), key, v, ttl);
        c == CompletionOf(r) && store == StateAfter(old(store), r)
    {
      if key.None? {
        return Abrupt(IllegalArgument);
      }
      store := store[key.value := Entry(v, ttl)];
      c := Normal;
    }

    method CacheMiniAppAccessToken(appId: Option<string>, accessToken: Option<string>) returns (c: Completion)
      modifies this
      ensures var r := CacheAccessTokenIn(old(store), appId, accessToken);
        c == CompletionOf(r) && store == StateAfter(old(store), r)
    {
      var key := FormatKey(MINI_APP_ACCESS_TOKEN_KEY, [NullableText(appId)]);
      c := Put(key, TextOf(accessToken), MINI_APP_ACCESS_TOKEN_EXPIRE);
    }

    method GetMiniAppAccessToken(appId: Option<string>, arrayText: string) returns (r: Result<Option<string>, Fault>)
      ensures r == AccessTokenIn(store, appId, arrayText)
    {
      var key := FormatKey(MINI_APP_ACCESS_TOKEN_KEY, [NullableText(appId)]);
      var token := Get(key);
      if token.Err? {
        return Err(token.error);
      }
      r := Ok(if token.value.Some? then Some(ValueText(token.value.value, arrayText)) else None);
    }

    method CacheAppInfo(app: Option<AppsDto>) returns (c: Completion)
      modifies this
      ensures var r := CacheAppIn(old(store), app);
        c == CompletionOf(r) && store == StateAfter(old(store), r)
    {
      if app.None? {
        return Abrupt(NullPointer);
      }
      var key := FormatKey(APP_INFO_KEY, [NullableText(app.value.appId)]);
      c := Put(key, Some(AppValue(app.value)), APP_INFO_EXPIRE);
    }

    method GetAppInfo(appId: Option<string>) returns (r: Result<Option<AppsDto>, Fault>)
      ensures r == AppIn(Read(store, AppInfoKey(appId)))
    {
      var key := FormatKey(APP_INFO_KEY, [NullableText(appId)]);
      var app := Get(key);
      r := AppIn(app);
    }

    method CacheUserInfo(user: Option<UsersDto>) returns (c: Completion)
      modifies this
      ensures var r := CacheUserIn(old(store), user);
        c == CompletionOf(r) && store == StateAfter(old(store), r)
    {
      if user.None? {
        return Abrupt(NullPointer);
      }
      var key := FormatKey(USER_INFO_KEY, [LongText(user.value.id)]);
      c := Put(key, Some(UserValue(user.value)), USER_INFO_EXPIRE);
    }

    method GetUserInfo(userId: Option<int>) returns (r: Result<Option<UsersDto>, Fault>)
      ensures r == UserIn(Read(store, UserInfoKey(userId)))
    {
      var key := FormatKey(USER_INFO_KEY, [LongText(userId)]);
      var user := Get(key);
      r := UserIn(user);
    }

    method CacheUserSession(token: Option<string>, userId: Option<int>) returns (c: Completion)
      modifies this
      ensures var r := CacheSessionIn(old(store), token, userId);
        c == CompletionOf(r) && store == StateAfter(old(store), r)
    {
      var key := FormatKey(USER_SESSION_KEY, [NullableText(token)]);
      c := Put(key, NumberOf(userId), USER_SESSION_EXPIRE);
    }

    method GetUserSession(token: Option<string>) returns (r: Result<Option<int>, Fault>)
      ensures r == SessionIn(store, token)
    {
      var key := FormatKey(USER_SESSION_KEY, [NullableText(token)]);
      var userId := Get(key);
      r := NumberIn(userId);
    }

    method RemoveUserSession(token: Option<string>) returns (c: Completion)
      modifies this
      ensures var r := Erase(old(store), SessionKey(token));
        c == CompletionOf(r) && store == StateAfter(old(store), r)
    {
      var key := FormatKey(USER_SESSION_KEY, [NullableText(token)]);
      c := Delete(key);
    }

    method CacheUserApp(userId: Option<int>, appId: Option<string>, present: bool) returns (c: Completion)
      modifies this
      ensures var r := CacheUserAppIn(old(store), userId, appId, present);
        c == CompletionOf(r) && store == StateAfter(old(store), r)
    {
      var key := FormatKey(USER_APP_KEY, [LongText(userId), NullableText(appId)]);
      c := Put(key, Some(FlagValue(present)), USER_APP_EXPIRE);
    }

    method GetUserApp(userId: Option<int>, appId: Option<string>) returns (r: Result<Option<bool>, Fault>)
      ensures r == FlagIn(Read(store, UserAppKey(userId, appId)))
    {
      var key := FormatKey(USER_APP_KEY, [LongText(userId), NullableText(appId)]);
      var present := Get(key);
      r := FlagIn(present);
    }

    method CacheWeChatSession(appId: Option<string>, code: Option<string>, used: bool) returns (c: Completion)
      modifies this
      ensures var r := MarkCodeIn(old(store), appId, code, used);
        c == CompletionOf(r) && store == StateAfter(old(store), r)
    {
      var key := FormatKey(WECHAT_SESSION_KEY, [NullableText(appId), NullableText(code)]);
      c := Put(key, Some(FlagValue(used)), WECHAT_SESSION_EXPIRE);
    }

    method IsWeChatCodeUsed(appId: Option<string>, code: Option<string>) returns (r: Result<Option<bool>, Fault>)
      ensures r == CodeUsedIn(store, appId, code)
    {
      var key := FormatKey(WECHAT_SESSION_KEY, [NullableText(appId), NullableText(code)]);
      var used := Get(key);
      r := FlagIn(used);
    }

    method Delete(key: Option<string>) returns (c: Completion)
      modifies this
      ensures var r := Erase(old(store), key);
        c == CompletionOf(r) && store == StateAfter(old(store), r)
    {
      if key.None? {
        return Abrupt(IllegalArgument);
      }
      store := store - {key.value};
      c := Normal;
    }

    /** hasKey(key): an entry holding null still exists. */
    method Exists(key: Option<string>) returns (r: Result<bool, Fault>)
      ensures key.None? ==> r == Err(IllegalArgument)
      ensures key.Some? ==> r == Ok(key.value in store)
    {
      if key.None? {
        return Err(IllegalArgument);
      }
      r := Ok(key.value in store);
    }

    /** expire(key, timeout, unit) with the timeout given in seconds. */
    method Expire(key: Option<string>, timeout: int) returns (c: Completion)
      modifies this
      ensures var r := Expired(old(store), key, timeout);
        c == CompletionOf(r) && store == StateAfter(old(store), r)
    {
      if key.None? {
        return Abrupt(IllegalArgument);
      }
      if key.value in store {
        if timeout <= 0 {
          store := store - {key.value};
        } else {
          store := store[key.value := store[key.value].(ttl := timeout)];
        }
      }
      c := Normal;
    }

    /** set(key, value, seconds) and get(key), which the verification codes
        use on keys they build themselves. get answers the stored text. */
    method Set(key: string, value: string, timeout: int)
      modifies this
      ensures store == old(store)[key := Entry(Some(TextValue(value)), timeout)]
    {
      store := store[key := Entry(Some(TextValue(value)), timeout)];
    }

    method GetText(key: string) returns (r: Option<string>)
      ensures r == AsText(Read(store, Some(key)).value)
    {
      r := AsText(if key in store then store[key].value else None);
    }

    method CacheQrToken(qrcodeId: Option<string>, token: Option<string>) returns (c: Completion)
      modifies this
      ensures var r := CacheQrTokenIn(old(store), qrcodeId, token);
        c == CompletionOf(r) && store == StateAfter(old(store), r)
    {
      var key := FormatKey(QR_TOKEN_KEY, [NullableText(qrcodeId)]);
      c := Put(key, TextOf(token), QR_TOKEN_EXPIRE);
    }

    method GetQrToken(qrcodeId: Option<string>) returns (r: Result<Option<string>, Fault>)
      ensures r == QrTokenIn(store, qrcodeId)
    {
      var key := FormatKey(QR_TOKEN_KEY, [NullableText(qrcodeId)]);
      var token := Get(key);
      r := TextIn(token);
    }

    method CacheWxaCode(qrcodeId: Option<string>, image: seq<Byte>) returns (c: Completion)
      modifies this
      ensures var r := CacheWxaCodeIn(old(store), qrcodeId, image);
        c == CompletionOf(r) && store == StateAfter(old(store), r)
    {
      var key := FormatKey(QR_TOKEN_KEY, [NullableText(qrcodeId)]);
      c := Put(key, Some(BytesValue(image)), QR_TOKEN_EXPIRE);
    }

    method GetWxaCode(qrcodeId: Option<string>) returns (r: Result<Option<seq<Byte>>, Fault>)
      ensures r == WxaCodeIn(store, qrcodeId)
    {
      var key := FormatKey(QR_TOKEN_KEY, [NullableText(qrcodeId)]);
      var image := Get(key);
      r := BytesIn(image);
    }

    /** Time passing on the Redis server. */
    method Elapse(seconds: nat)
      modifies this
      ensures store == Aged(old(store), seconds)
    {
      store := Aged(store, seconds);
    }
  }

  // ---------------------------------------------------------------------
  // Properties

  /** Reading back what was just written. */
  lemma ReadAfterWrite(s: Store, key: Option<string>, v: Option<CacheValue>, ttl: int)
    requires Write(s, key, v, ttl).Ok?
    ensures Read(Write(s, key, v, ttl).value, key) == Ok(v)
  {
  }

  /** A write leaves the entries of every other key as they were. */
  lemma WriteKeepsOthers(s: Store, key: Option<string>, v: Option<CacheValue>, ttl: int, other: Option<string>)
    requires Write(s, key, v, ttl).Ok? && other != key
    ensures Read(Write(s, key, v, ttl).value, other) == Read(s, other)
  {
  }

  /** cacheUserSession(t, u) then getUserSession(t) gives u; after
      removeUserSession(t) it gives null. */
  lemma SessionRoundTrip(s: Store, token: Option<string>, userId: Option<int>)
    requires CacheSessionIn(s, token, userId).Ok?
    ensures SessionIn(CacheSessionIn(s, token, userId).value, token) == Ok(userId)
    ensures Erase(CacheSessionIn(s, token, userId).value, SessionKey(token)).Ok?
    ensures SessionIn(Erase(CacheSessionIn(s, token, userId).value, SessionKey(token)).value, token) == Ok(None)
  {
    ReadAfterWrite(s, SessionKey(token), NumberOf(userId), USER_SESSION_EXPIRE);
  }

  /** getUserSession answers a user id only for a stored number. */
  lemma SessionIsNumberOnly(s: Store, token: Option<string>, n: int)
    ensures SessionIn(s, token) == Ok(Some(n)) <==>
      SessionKey(token).Some? && SessionKey(token).value in s &&
      s[SessionKey(token).value].value == Some(NumberValue(n))
  {
  }

  /** isWeChatCodeUsed answers null, not false, for an unmarked code, and
      true once the code is marked used. */
  lemma CodeMarkerIsNullUntilMarked(s: Store, appId: Option<string>, code: Option<string>)
    requires CodeKey(appId, code).Some? && CodeKey(appId, code).value !in s
    ensures CodeUsedIn(s, appId, code) == Ok(None)
    ensures MarkCodeIn(s, appId, code, true).Ok?
    ensures CodeUsedIn(MarkCodeIn(s, appId, code, true).value, appId, code) == Ok(Some(true))
  {
    ReadAfterWrite(s, CodeKey(appId, code), Some(FlagValue(true)), WECHAT_SESSION_EXPIRE);
  }

  /** cacheAppInfo(d) then getAppInfo(d.appId) gives d back. */
  lemma AppInfoRoundTrip(s: Store, d: AppsDto)
    requires CacheAppIn(s, Some(d)).Ok?
    ensures AppIn(Read(CacheAppIn(s, Some(d)).value, AppInfoKey(d.appId))) == Ok(Some(d))
  {
    ReadAfterWrite(s, AppInfoKey(d.appId), Some(AppValue(d)), APP_INFO_EXPIRE);
  }

  /** The lifetime left to the entry under a key, if there is one. */
  function LifetimeOf(s: Store, key: Option<string>): Option<int> {
    if key.Some? && key.value in s then Some(s[key.value].ttl) else None
  }

  /** Each kind of write gives its entry that kind's lifetime. */
  lemma WriteLifetimes(s: Store, appId: Option<string>, text: Option<string>, d: AppsDto, u: UsersDto,
                       userId: Option<int>, flag: bool, image: seq<Byte>)
    ensures var r := CacheAccessTokenIn(s, appId, text); r.Ok? ==> LifetimeOf(r.value, AccessTokenKey(appId)) == Some(6600)
    ensures var r := CacheAppIn(s, Some(d)); r.Ok? ==> LifetimeOf(r.value, AppInfoKey(d.appId)) == Some(604800)
    ensures var r := CacheUserIn(s, Some(u)); r.Ok? ==> LifetimeOf(r.value, UserInfoKey(u.id)) == Some(3600)
    ensures var r := CacheSessionIn(s, text, userId); r.Ok? ==> LifetimeOf(r.value, SessionKey(text)) == Some(7200)
    ensures var r := CacheUserAppIn(s, userId, appId, flag); r.Ok? ==> LifetimeOf(r.value, UserAppKey(userId, appId)) == Some(1800)
    ensures var r := MarkCodeIn(s, appId, text, flag); r.Ok? ==> LifetimeOf(r.value, CodeKey(appId, text)) == Some(300)
    ensures var r := CacheQrTokenIn(s, appId, text); r.Ok? ==> LifetimeOf(r.value, QrKey(appId)) == Some(300)
    ensures var r := CacheWxaCodeIn(s, appId, image); r.Ok? ==> LifetimeOf(r.value, QrKey(appId)) == Some(300)
  {
    Lifetimes();
  }

  /** getMiniAppAccessToken renders any stored value as text, where the
      type-checking getters see nothing: a user id stored under the key
      comes back as its digits. */
  lemma AccessTokenRendersAnyValue(s: Store, appId: Option<string>, n: int, arrayText: string)
    requires AccessTokenKey(appId).Some?
    ensures var s' := Write(s, AccessTokenKey(appId), Some(NumberValue(n)), MINI_APP_ACCESS_TOKEN_EXPIRE).value;
      AccessTokenIn(s', appId, arrayText) == Ok(Some(IntToString(n))) &&
      TextIn(Read(s', AccessTokenKey(appId))) == Ok(None)
  {
    ReadAfterWrite(s, AccessTokenKey(appId), Some(NumberValue(n)), MINI_APP_ACCESS_TOKEN_EXPIRE);
  }

  /** A user's profile key is never a session key. */
  lemma UserKeyIsNotSessionKey(userId: Option<int>, token: string)
    ensures UserInfoKey(userId) != SessionKey(Some(token)) || SessionKey(Some(token)).None?
  {
    if UserInfoKey(userId).Some? && SessionKey(Some(token)).Some? {
      KeysOfDifferentKindsDiffer(KeyKind.UserInfo, KeyKind.UserSession, [LongText(userId)], [NullableText(Some(token))]);
    }
  }

  /** A login-code marker key is never a session key nor a profile key. */
  lemma CodeKeyIsNoSessionOrUserKey(appId: Option<string>, code: Option<string>, token: string, userId: Option<int>)
    ensures CodeKey(appId, code).Some? ==> CodeKey(appId, code) != SessionKey(Some(token))
    ensures CodeKey(appId, code).Some? ==> CodeKey(appId, code) != UserInfoKey(userId)
  {
    var p := [NullableText(appId), NullableText(code)];
    KeysOfDifferentKindsDiffer(KeyKind.WechatSession, KeyKind.UserSession, p, [NullableText(Some(token))]);
    KeysOfDifferentKindsDiffer(KeyKind.WechatSession, KeyKind.UserInfo, p, [LongText(userId)]);
  }

  /** A session cached with a null user id exists, yet reads back as null. */
  lemma NullSessionExists(s: Store, token: Option<string>)
    requires CacheSessionIn(s, token, None).Ok?
    ensures SessionKey(token).value in CacheSessionIn(s, token, None).value
    ensures SessionIn(CacheSessionIn(s, token, None).value, token) == Ok(None)
  {
  }

  /** Writing a key of one kind leaves every key of another kind as it was. */
  lemma KindsDoNotInterfere(s: Store, k1: KeyKind, p1: seq<string>, v: Option<CacheValue>, ttl: int,
                            k2: KeyKind, p2: seq<string>)
    requires k1 != k2
    requires Write(s, FormatKeySpec(Template(k1), p1), v, ttl).Ok?
    ensures Read(Write(s, FormatKeySpec(Template(k1), p1), v, ttl).value, FormatKeySpec(Template(k2), p2)) ==
      Read(s, FormatKeySpec(Template(k2), p2))
  {
    KeysOfDifferentKindsDiffer(k1, k2, p1, p2);
  }

  /** The QR token and the mini-program code image share one key: caching
      either hides the other from its typed getter. */
  lemma QrTokenAndImageShareKey(s: Store, qrcodeId: Option<string>, token: string, image: seq<Byte>)
    requires QrKey(qrcodeId).Some?
    ensures QrTokenIn(s, qrcodeId).Ok?
    ensures WxaCodeIn(CacheWxaCodeIn(s, qrcodeId, image).value, qrcodeId) == Ok(Some(image))
    ensures QrTokenIn(CacheWxaCodeIn(s, qrcodeId, image).value, qrcodeId) == Ok(None)
    ensures QrTokenIn(CacheQrTokenIn(s, qrcodeId, Some(token)).value, qrcodeId) == Ok(Some(token))
    ensures WxaCodeIn(CacheQrTokenIn(s, qrcodeId, Some(token)).value, qrcodeId) == Ok(None)
  {
    ReadAfterWrite(s, QrKey(qrcodeId), Some(BytesValue(image)), QR_TOKEN_EXPIRE);
    ReadAfterWrite(s, QrKey(qrcodeId), Some(TextValue(token)), QR_TOKEN_EXPIRE);
  }

  /** An entry written with lifetime ttl is there for fewer than ttl
      seconds and gone after ttl seconds. */
  lemma EntryLivesForItsLifetime(s: Store, key: Option<string>, v: Option<CacheValue>, ttl: int, seconds: nat)
    requires Write(s, key, v, ttl).Ok?
    ensures var s' := Aged(Write(s, key, v, ttl).value, seconds);
      (seconds < ttl ==> Read(s', key) == Ok(v)) && (seconds >= ttl ==> Read(s', key) == Ok(None))
  {
  }

  /** expire with a non-positive timeout deletes; on an absent key it does
      nothing; otherwise only the lifetime changes. */
  lemma ExpireEffect(s: Store, key: string, timeout: int)
    ensures key !in s ==> Expired(s, Some(key), timeout) == Ok(s)
    ensures key in s && timeout <= 0 ==> Read(Expired(s, Some(key), timeout).value, Some(key)) == Ok(None)
    ensures key in s && timeout > 0 ==>
      Read(Expired(s, Some(key), timeout).value, Some(key)) == Read(s, Some(key)) &&
      Expired(s, Some(key), timeout).value[key].ttl == timeout
  {
  }
}

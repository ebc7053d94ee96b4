/**
 * MemoryCacheService: the in-process cache used when no Redis template is
 * configured. One map holds every entry; sessions are indexed both ways,
 * user and app to token, and token to "userId:appId".
 */
module MemoryCache {
  import opened Wrappers
  import opened Text
  import opened CacheConstants
  import opened Entities

  type Cache = map<string, CacheValue>

  /** The app part of a session key: a null appId is stored as "default". */
  function AppIdOrDefault(appId: Option<string>): string {
    match appId
    case None => "default"
    case Some(a) => a
  }

  /** The value stored under the token of a session. */
  function SessionText(userId: Option<int>, appId: Option<string>): string {
    LongText(userId) + ":" + AppIdOrDefault(appId)
  }

  function UserTokenKey(userId: Option<int>, appId: Option<string>): Option<string> {
    FormatKeySpec(USER_TOKEN_KEY, [LongText(userId), AppIdOrDefault(appId)])
  }

  function TokenUserKey(token: Option<string>): Option<string> {
    FormatKeySpec(TOKEN_USER_KEY, [NullableText(token)])
  }

  // ---------------------------------------------------------------------
  // Reading

  /** The value under the key formatKey builds, or the exception it throws. */
  function Lookup(c: Cache, key: Option<string>): Result<Option<CacheValue>, Fault> {
    match key
    case None => Err(IllegalArgument)
    case Some(k) => Ok(if k in c then Some(c[k]) else None)
  }

  function UserTokenOf(c: Cache, userId: Option<int>, appId: Option<string>): Result<Option<string>, Fault> {
    TextIn(Lookup(c, UserTokenKey(userId, appId)))
  }

  function SessionOf(c: Cache, token: Option<string>): Result<Option<string>, Fault> {
    TextIn(Lookup(c, TokenUserKey(token)))
  }

  /** isWeChatCodeUsed: false unless a Boolean true is stored. */
  function CodeUsedIn(c: Cache, appId: Option<string>, code: Option<string>): Result<bool, Fault> {
    match FlagIn(Lookup(c, FormatKeySpec(WECHAT_CODE_KEY, [NullableText(appId), NullableText(code)])))
    case Err(f) => Err(f)
    case Ok(b) => Ok(b == Some(true))
  }

  // ---------------------------------------------------------------------
  // Writing

  /** Storing a value under a formatted key; ConcurrentHashMap refuses a
      null value. */
  function Store(c: Cache, key: Option<string>, v: Option<CacheValue>): Result<Cache, Fault> {
    if key.None? then Err(IllegalArgument)
    else if v.None? then Err(NullPointer)
    else Ok(c[key.value := v.value])
  }

  /** cacheUserSession: both keys are built before anything is stored. */
  function CacheSession(c: Cache, userId: Option<int>, appId: Option<string>, token: Option<string>): Result<Cache, Fault> {
    var k1 := UserTokenKey(userId, appId);
    var k2 := TokenUserKey(token);
    if k1.None? || k2.None? then Err(IllegalArgument)
    else if token.None? then Err(NullPointer)
    else Ok(c[k1.value := TextValue(token.value)][k2.value := TextValue(SessionText(userId, appId))])
  }

  /** removeUserSession: the token entry always goes; the user entry goes
      only when the stored "userId:appId" splits on ':' into exactly two
      parts, and then it is the entry those two parts name. */
  function RemoveSession(c: Cache, token: Option<string>): Result<Cache, Fault> {
    var k := TokenUserKey(token);
    if k.None? then Err(IllegalArgument)
    else
      var info := AsText(if k.value in c then Some(c[k.value]) else None);
      var parts := if info.Some? then JavaSplit(info.value, ':') else [];
      if info.Some? && |parts| == 2 then
        match FormatKeySpec(USER_TOKEN_KEY, parts)
        case None => Err(IllegalArgument)
        case Some(k2) => Ok(c - {k2} - {k.value})
      else Ok(c - {k.value})
  }

  /** removeUserSessionByUserId: the user entry goes, and the token entry
      of the token it held. */
  function RemoveSessionByUser(c: Cache, userId: Option<int>, appId: Option<string>): Result<Cache, Fault> {
    var k := UserTokenKey(userId, appId);
    if k.None? then Err(IllegalArgument)
    else
      var token := AsText(if k.value in c then Some(c[k.value]) else None);
      if token.Some? then
        match TokenUserKey(token)
        case None => Err(IllegalArgument)
        case Some(k2) => Ok(c - {k2} - {k.value})
      else Ok(c - {k.value})
  }

  // ---------------------------------------------------------------------
  // The service

  class MemoryCacheService {
    var cache: Cache

    constructor()
      ensures cache == map[]
    {
      cache := map[];
    }

    method CacheMiniAppAccessToken(appId: Option<string>, accessToken: Option<string>) returns (c: Completion)
      modifies this
      ensures var r := Store(old(cache), FormatKeySpec(MINI_APP_ACCESS_TOKEN_KEY, [NullableText(appId)]), TextOf(accessToken));
        c == CompletionOf(r) && cache == StateAfter(old(cache), r)
    {
      var key := FormatKey(MINI_APP_ACCESS_TOKEN_KEY, [NullableText(appId)]);
      if key.None? {
        return Abrupt(IllegalArgument);
      }
      if accessToken.None? {
        return Abrupt(NullPointer);
      }
      cache := cache[key.value := TextValue(accessToken.value)];
      c := Normal;
    }

    method GetMiniAppAccessToken(appId: Option<string>) returns (r: Result<Option<string>, Fault>)
      ensures r == TextIn(Lookup(cache, FormatKeySpec(MINI_APP_ACCESS_TOKEN_KEY, [NullableText(appId)])))
    {
      var v := Get(FormatKeySpec(MINI_APP_ACCESS_TOKEN_KEY, [NullableText(appId)]));
      r := TextIn(v);
    }

    /** app.getAppId() on a null app throws before any key is built. */
    method CacheAppInfo(app: Option<AppsDto>) returns (c: Completion)
      modifies this
      ensures app.None? ==> c == Abrupt(NullPointer) && cache == old(cache)
      ensures app.Some? ==>
        var r := Store(old(cache), FormatKeySpec(APP_INFO_KEY, [NullableText(app.value.appId)]), Some(AppValue(app.value)));
        c == CompletionOf(r) && cache == StateAfter(old(cache), r)
    {
      if app.None? {
        return Abrupt(NullPointer);
      }
      var key := FormatKey(APP_INFO_KEY, [NullableText(app.value.appId)]);
      if key.None? {
        return Abrupt(IllegalArgument);
      }
      cache := cache[key.value := AppValue(app.value)];
      c := Normal;
    }

    method GetAppInfo(appId: Option<string>) returns (r: Result<Option<AppsDto>, Fault>)
      ensures r == AppIn(Lookup(cache, FormatKeySpec(APP_INFO_KEY, [NullableText(appId)])))
    {
      var v := Get(FormatKeySpec(APP_INFO_KEY, [NullableText(appId)]));
      r := AppIn(v);
    }

    method CacheUserInfo(user: Option<UsersDto>) returns (c: Completion)
      modifies this
      ensures user.None? ==> c == Abrupt(NullPointer) && cache == old(cache)
      ensures user.Some? ==>
        var r := Store(old(cache), FormatKeySpec(USER_INFO_KEY, [LongText(user.value.id)]), Some(UserValue(user.value)));
        c == CompletionOf(r) && cache == StateAfter(old(cache), r)
    {
      if user.None? {
        return Abrupt(NullPointer);
      }
      var key := FormatKey(USER_INFO_KEY, [LongText(user.value.id)]);
      if key.None? {
        return Abrupt(IllegalArgument);
      }
      cache := cache[key.value := UserValue(user.value)];
      c := Normal;
    }

    method GetUserInfo(userId: Option<int>) returns (r: Result<Option<UsersDto>, Fault>)
      ensures r == UserIn(Lookup(cache, FormatKeySpec(USER_INFO_KEY, [LongText(userId)])))
    {
      var v := Get(FormatKeySpec(USER_INFO_KEY, [LongText(userId)]));
      r := UserIn(v);
    }

    method CacheUserSession(userId: Option<int>, appId: Option<string>, token: Option<string>) returns (c: Completion)
      modifies this
      ensures var r := CacheSession(old(cache), userId, appId, token);
        c == CompletionOf(r) && cache == StateAfter(old(cache), r)
    {
      var userTokenKey := FormatKey(USER_TOKEN_KEY, [LongText(userId), AppIdOrDefault(appId)]);
      var tokenUserKey := FormatKey(TOKEN_USER_KEY, [NullableText(token)]);
      if userTokenKey.None? || tokenUserKey.None? {
        return Abrupt(IllegalArgument);
      }
      if token.None? {
        return Abrupt(NullPointer);
      }
      cache := cache[userTokenKey.value := TextValue(token.value)];
      cache := cache[tokenUserKey.value := TextValue(SessionText(userId, appId))];
      c := Normal;
    }

    method GetUserToken(userId: Option<int>, appId: Option<string>) returns (r: Result<Option<string>, Fault>)
      ensures r == UserTokenOf(cache, userId, appId)
    {
      var v := Get(UserTokenKey(userId, appId));
      r := TextIn(v);
    }

    method GetUserSession(token: Option<string>) returns (r: Result<Option<string>, Fault>)
      ensures r == SessionOf(cache, token)
    {
      var v := Get(TokenUserKey(token));
      r := TextIn(v);
    }

    method RemoveUserSession(token: Option<string>) returns (c: Completion)
      modifies this
      ensures var r := RemoveSession(old(cache), token);
        c == CompletionOf(r) && cache == StateAfter(old(cache), r)
    {
      var tokenUserKey := FormatKey(TOKEN_USER_KEY, [NullableText(token)]);
      if tokenUserKey.None? {
        return Abrupt(IllegalArgument);
      }
      var stored := Get(tokenUserKey);
      var userInfo := AsText(stored.value);
      ghost var before := cache;
      if userInfo.Some? {
        var parts := JavaSplit(userInfo.value, ':');
        if |parts| == 2 {
          var userTokenKey := FormatKey(USER_TOKEN_KEY, parts);
          if userTokenKey.None? {
            assert RemoveSession(before, token) == Err(IllegalArgument);
            return Abrupt(IllegalArgument);
          }
          cache := cache - {userTokenKey.value};
          assert RemoveSession(before, token) == Ok(cache - {tokenUserKey.value});
        } else {
          assert RemoveSession(before, token) == Ok(cache - {tokenUserKey.value});
        }
      } else {
        assert RemoveSession(before, token) == Ok(cache - {tokenUserKey.value});
      }
      cache := cache - {tokenUserKey.value};
      c := Normal;
    }

    method RemoveUserSessionByUserId(userId: Option<int>, appId: Option<string>) returns (c: Completion)
      modifies this
      ensures var r := RemoveSessionByUser(old(cache), userId, appId);
        c == CompletionOf(r) && cache == StateAfter(old(cache), r)
    {
      var userTokenKey := FormatKey(USER_TOKEN_KEY, [LongText(userId), AppIdOrDefault(appId)]);
      if userTokenKey.None? {
        return Abrupt(IllegalArgument);
      }
      var stored := Get(userTokenKey);
      var token := AsText(stored.value);
      ghost var before := cache;
      if token.Some? {
        var tokenUserKey := FormatKey(TOKEN_USER_KEY, [NullableText(token)]);
        if tokenUserKey.None? {
          assert RemoveSessionByUser(before, userId, appId) == Err(IllegalArgument);
          return Abrupt(IllegalArgument);
        }
        cache := cache - {tokenUserKey.value};
        assert RemoveSessionByUser(before, userId, appId) == Ok(cache - {userTokenKey.value});
      } else {
        assert RemoveSessionByUser(before, userId, appId) == Ok(cache - {userTokenKey.value});
      }
      cache := cache - {userTokenKey.value};
      c := Normal;
    }

    method CacheUserApp(userId: Option<int>, appId: Option<string>, present: bool) returns (c: Completion)
      modifies this
      ensures var r := Store(old(cache), FormatKeySpec(USER_APP_KEY, [LongText(userId), NullableText(appId)]), Some(FlagValue(present)));
        c == CompletionOf(r) && cache == StateAfter(old(cache), r)
    {
      var key := FormatKey(USER_APP_KEY, [LongText(userId), NullableText(appId)]);
      if key.None? {
        return Abrupt(IllegalArgument);
      }
      cache := cache[key.value := FlagValue(present)];
      c := Normal;
    }

    method GetUserApp(userId: Option<int>, appId: Option<string>) returns (r: Result<Option<bool>, Fault>)
      ensures r == FlagIn(Lookup(cache, FormatKeySpec(USER_APP_KEY, [LongText(userId), NullableText(appId)])))
    {
      var v := Get(FormatKeySpec(USER_APP_KEY, [LongText(userId), NullableText(appId)]));
      r := FlagIn(v);
    }

    method CacheWeChatSession(appId: Option<string>, code: Option<string>, used: bool) returns (c: Completion)
      modifies this
      ensures var r := Store(old(cache), FormatKeySpec(WECHAT_CODE_KEY, [NullableText(appId), NullableText(code)]), Some(FlagValue(used)));
        c == CompletionOf(r) && cache == StateAfter(old(cache), r)
    {
      var key := FormatKey(WECHAT_CODE_KEY, [NullableText(appId), NullableText(code)]);
      if key.None? {
        return Abrupt(IllegalArgument);
      }
      cache := cache[key.value := FlagValue(used)];
      c := Normal;
    }

    method IsWeChatCodeUsed(appId: Option<string>, code: Option<string>) returns (r: Result<bool, Fault>)
      ensures r == CodeUsedIn(cache, appId, code)
    {
      var v := Get(FormatKeySpec(WECHAT_CODE_KEY, [NullableText(appId), NullableText(code)]));
      if v.Err? {
        return Err(v.error);
      }
      r := Ok(AsFlag(v.value) == Some(true));
    }

    /** cache.remove(key); a null key is a NullPointerException. */
    method Delete(key: Option<string>) returns (c: Completion)
      modifies this
      ensures key.None? ==> c == Abrupt(NullPointer) && cache == old(cache)
      ensures key.Some? ==> c == Normal && cache == old(cache) - {key.value}
    {
      if key.None? {
        return Abrupt(NullPointer);
      }
      cache := cache - {key.value};
      c := Normal;
    }

    /** cache.containsKey(key). */
    method Exists(key: Option<string>) returns (r: Result<bool, Fault>)
      ensures key.None? ==> r == Err(NullPointer)
      ensures key.Some? ==> r == Ok(key.value in cache)
    {
      if key.None? {
        return Err(NullPointer);
      }
      r := Ok(key.value in cache);
    }

    /** expire, refreshUserSession and setExpiration: the in-memory cache
        keeps no lifetimes, so these only log. */
    method Expire(key: Option<string>, timeout: int)
      ensures unchanged(this)
    {
    }

    method RefreshUserSession(token: Option<string>)
      ensures unchanged(this)
    {
    }

    method SetExpiration(key: Option<string>, timeout: int)
      ensures unchanged(this)
    {
    }

    /** cache.get on a key formatKey built. */
    method Get(key: Option<string>) returns (r: Result<Option<CacheValue>, Fault>)
      ensures r == Lookup(cache, key)
    {
      if key.None? {
        return Err(IllegalArgument);
      }
      r := Ok(if key.value in cache then Some(cache[key.value]) else None);
    }
  }

  // ---------------------------------------------------------------------
  // Properties

  /** After cacheUserSession(u, a, t) the token leads to "u:a" and (u, a)
      leads to t. */
  lemma CacheSessionRoundTrip(c: Cache, userId: Option<int>, appId: Option<string>, token: Option<string>)
    requires CacheSession(c, userId, appId, token).Ok?
    ensures var c' := CacheSession(c, userId, appId, token).value;
      SessionOf(c', token) == Ok(Some(SessionText(userId, appId))) &&
      UserTokenOf(c', userId, appId) == Ok(Some(token.value))
  {
    SessionKeysDiffer(userId, appId, token);
    var k1 := UserTokenKey(userId, appId).value;
    var k2 := TokenUserKey(token).value;
    var c' := c[k1 := TextValue(token.value)][k2 := TextValue(SessionText(userId, appId))];
    assert c'[k1] == TextValue(token.value);
  }

  /** The user entry and the token entry never share a key. */
  lemma SessionKeysDiffer(userId: Option<int>, appId: Option<string>, token: Option<string>)
    ensures UserTokenKey(userId, appId).Some? && TokenUserKey(token).Some? ==>
      UserTokenKey(userId, appId).value != TokenUserKey(token).value
  {
    KeysOfDifferentKindsDiffer(UserToken, TokenUser,
      [LongText(userId), AppIdOrDefault(appId)], [NullableText(token)]);
  }

  /** A null appId is the app "default". */
  lemma NullAppIdIsDefault(c: Cache, userId: Option<int>, token: Option<string>)
    ensures CacheSession(c, userId, None, token) == CacheSession(c, userId, Some("default"), token)
    ensures UserTokenOf(c, userId, None) == UserTokenOf(c, userId, Some("default"))
  {
  }

  /** Caching (u, a) again with another token replaces the user entry but
      leaves the old token's entry in place. */
  lemma RecacheLeavesOldToken(c: Cache, userId: Option<int>, appId: Option<string>, t1: string, t2: string)
    requires Plain(t1) && Plain(t2) && t1 != t2
    requires CacheSession(c, userId, appId, Some(t1)).Ok?
    ensures var c1 := CacheSession(c, userId, appId, Some(t1)).value;
      CacheSession(c1, userId, appId, Some(t2)).Ok? &&
      var c2 := CacheSession(c1, userId, appId, Some(t2)).value;
      UserTokenOf(c2, userId, appId) == Ok(Some(t2)) &&
      SessionOf(c2, Some(t1)) == Ok(Some(SessionText(userId, appId)))
  {
    var c1 := CacheSession(c, userId, appId, Some(t1)).value;
    CacheSessionRoundTrip(c, userId, appId, Some(t1));
    TokenKeysDiffer(t1, t2);
    SessionKeysDiffer(userId, appId, Some(t1));
    var ku := UserTokenKey(userId, appId).value;
    var kt1 := TokenUserKey(Some(t1)).value;
    var kt2 := TokenUserKey(Some(t2)).value;
    var c2 := c1[ku := TextValue(t2)][kt2 := TextValue(SessionText(userId, appId))];
    assert CacheSession(c1, userId, appId, Some(t2)) == Ok(c2);
    CacheSessionRoundTrip(c1, userId, appId, Some(t2));
    assert c2[kt1] == c1[kt1];
  }

  /** Distinct plain tokens have distinct token entries. */
  lemma TokenKeysDiffer(t1: string, t2: string)
    requires Plain(t1) && Plain(t2) && t1 != t2
    ensures TokenUserKey(Some(t1)).Some? && TokenUserKey(Some(t2)).Some?
    ensures TokenUserKey(Some(t1)).value != TokenUserKey(Some(t2)).value
  {
    KeyOne(TokenUser, t1);
    KeyOne(TokenUser, t2);
    KeyOneInjective(TokenUser, t1, t2);
  }

  /** removeUserSession always drops the token's entry. */
  lemma RemoveSessionDropsToken(c: Cache, token: Option<string>)
    requires RemoveSession(c, token).Ok?
    ensures SessionOf(RemoveSession(c, token).value, token) == Ok(None)
  {
  }

  /** removeUserSessionByUserId drops the user entry and the entry of the
      token it pointed to. */
  lemma RemoveByUserDropsBoth(c: Cache, userId: Option<int>, appId: Option<string>)
    requires RemoveSessionByUser(c, userId, appId).Ok?
    ensures var c' := RemoveSessionByUser(c, userId, appId).value;
      UserTokenOf(c', userId, appId) == Ok(None) &&
      (UserTokenOf(c, userId, appId).value.Some? ==>
        SessionOf(c', UserTokenOf(c, userId, appId).value) == Ok(None))
  {
  }

  /** Right after caching (u, a, t), removeUserSession(t) drops both entries
      when a is a non-empty, colon-free app id... */
  lemma RemoveSessionAfterCache(c: Cache, userId: Option<int>, a: string, t: string)
    requires a != "" && ':' !in a && Plain(a) && NoOpenBrace(a) && Plain(t)
    requires CacheSession(c, userId, Some(a), Some(t)).Ok?
    ensures var c1 := CacheSession(c, userId, Some(a), Some(t)).value;
      RemoveSession(c1, Some(t)).Ok? &&
      UserTokenOf(RemoveSession(c1, Some(t)).value, userId, Some(a)) == Ok(None) &&
      SessionOf(RemoveSession(c1, Some(t)).value, Some(t)) == Ok(None)
  {
    var c1 := CacheSession(c, userId, Some(a), Some(t)).value;
    CacheSessionRoundTrip(c, userId, Some(a), Some(t));
    var u := LongText(userId);
    UserIdTextColonFree(userId);
    SplitPair(u, a);
    assert SessionText(userId, Some(a)) == u + ":" + a;
  }

  /** ...but an app id that is empty or holds a ':' leaves the user entry
      behind, still pointing at the removed token. */
  lemma RemoveSessionLeavesStaleEntry(c: Cache, userId: Option<int>, a: string, t: string)
    requires a == "" || ':' in a
    requires CacheSession(c, userId, Some(a), Some(t)).Ok?
    requires Plain(a)
    ensures var c1 := CacheSession(c, userId, Some(a), Some(t)).value;
      RemoveSession(c1, Some(t)).Ok? &&
      UserTokenOf(RemoveSession(c1, Some(t)).value, userId, Some(a)) == Ok(Some(t))
  {
    var c1 := CacheSession(c, userId, Some(a), Some(t)).value;
    CacheSessionRoundTrip(c, userId, Some(a), Some(t));
    SessionKeysDiffer(userId, Some(a), Some(t));
    var u := LongText(userId);
    UserIdTextColonFree(userId);
    assert SessionText(userId, Some(a)) == u + ":" + a;
    StaleSplitOtherKey(u, a);
    var ku := UserTokenKey(userId, Some(a)).value;
    var kt := TokenUserKey(Some(t)).value;
    assert c1[kt] == TextValue(u + ":" + a);
    assert c1[ku] == TextValue(t);
    RemoveSessionKeeps(c1, Some(t), kt, ku, u + ":" + a);
  }

  /** removeUserSession leaves an entry alone when it is neither the token's
      entry nor the one the stored text splits into. */
  lemma RemoveSessionKeeps(c: Cache, token: Option<string>, kt: string, ku: string, s: string)
    requires TokenUserKey(token) == Some(kt) && kt in c && c[kt] == TextValue(s)
    requires ku != kt && ku in c
    requires |JavaSplit(s, ':')| == 2 ==>
      FormatKeySpec(USER_TOKEN_KEY, JavaSplit(s, ':')).Some? &&
      FormatKeySpec(USER_TOKEN_KEY, JavaSplit(s, ':')) != Some(ku)
    ensures RemoveSession(c, token).Ok?
    ensures ku in RemoveSession(c, token).value && RemoveSession(c, token).value[ku] == c[ku]
  {
  }

  /** With a ':' or an empty app id, a two-part split names another key. */
  lemma StaleSplitOtherKey(u: string, a: string)
    requires u != "" && ':' !in u && (a == "" || ':' in a) && Plain(a) && Plain(u) && NoOpenBrace(u)
    ensures var parts := JavaSplit(u + ":" + a, ':');
      |parts| == 2 ==>
        FormatKeySpec(USER_TOKEN_KEY, parts).Some? &&
        FormatKeySpec(USER_TOKEN_KEY, parts) != FormatKeySpec(USER_TOKEN_KEY, [u, a])
  {
    var parts := JavaSplit(u + ":" + a, ':');
    if |parts| == 2 {
      StaleSplitTwoParts(u, a, parts);
    }
  }

  lemma StaleSplitTwoParts(u: string, a: string, parts: seq<string>)
    requires u != "" && ':' !in u && (a == "" || ':' in a) && Plain(a) && Plain(u) && NoOpenBrace(u)
    requires parts == JavaSplit(u + ":" + a, ':') && |parts| == 2
    ensures FormatKeySpec(USER_TOKEN_KEY, parts).Some?
    ensures FormatKeySpec(USER_TOKEN_KEY, parts) != FormatKeySpec(USER_TOKEN_KEY, [u, a])
  {
    SplitPair(u, a);
    SplitPartsShape(u, a, parts);
    var p1 := parts[1];
    assert Plain(p1) by {
      var s := u + ":" + a;
      assert '$' !in s && '\\' !in s;
    }
    assert parts == [u, p1];
    KeyTwo(UserToken, u, a);
    KeyTwo(UserToken, u, p1);
    PrefixedColonSplitUnique(Prefix(UserToken), u, p1, u, a);
  }

  /** Splitting "u:a" on ':' in two parts gives u and a colon-free text
      made of characters of "u:a". */
  lemma SplitPartsShape(u: string, a: string, parts: seq<string>)
    requires u != "" && ':' !in u
    requires parts == JavaSplit(u + ":" + a, ':') && |parts| == 2
    ensures parts[0] == u && ':' !in parts[1]
    ensures forall i :: 0 <= i < |parts[1]| ==> parts[1][i] in u + ":" + a
  {
    var s := u + ":" + a;
    assert s[|u|] == ':';
    FieldsAfterPrefix(u, a, ':');
    var f := Fields(s, ':');
    assert parts == f[..2];
  }

  /** The decimal text of a user id (or "null") is non-empty and colon-free. */
  lemma UserIdTextColonFree(userId: Option<int>)
    ensures LongText(userId) != "" && ':' !in LongText(userId)
    ensures Plain(LongText(userId)) && NoOpenBrace(LongText(userId))
  {
    if userId.Some? {
      IntToStringChars(userId.value);
    }
  }

  /** Marking (a, c) as used makes isWeChatCodeUsed(a, c) true and leaves the
      marker of every other pair alone, for colon-free app ids. */
  lemma MarkCodeUsed(m: Cache, a: string, code: string, a2: string, code2: string)
    requires Plain(a) && Plain(code) && NoOpenBrace(a) && ':' !in a
    requires Plain(a2) && Plain(code2) && NoOpenBrace(a2) && ':' !in a2
    requires (a, code) != (a2, code2)
    ensures var r := Store(m, FormatKeySpec(WECHAT_CODE_KEY, [a, code]), Some(FlagValue(true)));
      r.Ok? &&
      CodeUsedIn(r.value, Some(a), Some(code)) == Ok(true) &&
      CodeUsedIn(r.value, Some(a2), Some(code2)) == CodeUsedIn(m, Some(a2), Some(code2))
  {
    CodeKeysDiffer(a, code, a2, code2);
    var k := FormatKeySpec(WECHAT_CODE_KEY, [a, code]).value;
    var k2 := FormatKeySpec(WECHAT_CODE_KEY, [a2, code2]).value;
    var m' := m[k := FlagValue(true)];
    assert Lookup(m', Some(k)) == Ok(Some(FlagValue(true)));
    assert Lookup(m', Some(k2)) == Lookup(m, Some(k2));
  }

  /** Distinct (app id, code) pairs have distinct markers. */
  lemma CodeKeysDiffer(a: string, code: string, a2: string, code2: string)
    requires Plain(a) && Plain(code) && NoOpenBrace(a) && ':' !in a
    requires Plain(a2) && Plain(code2) && NoOpenBrace(a2) && ':' !in a2
    requires (a, code) != (a2, code2)
    ensures FormatKeySpec(WECHAT_CODE_KEY, [a, code]).Some?
    ensures FormatKeySpec(WECHAT_CODE_KEY, [a2, code2]).Some?
    ensures FormatKeySpec(WECHAT_CODE_KEY, [a, code]).value != FormatKeySpec(WECHAT_CODE_KEY, [a2, code2]).value
  {
    KeyTwo(WechatCode, a, code);
    KeyTwo(WechatCode, a2, code2);
    KeyTwoInjective(WechatCode, a, code, a2, code2);
  }

  /** An absent or non-Boolean marker reads as "not used". */
  lemma UnmarkedCodeIsUnused(m: Cache, a: Option<string>, code: Option<string>)
    requires FormatKeySpec(WECHAT_CODE_KEY, [NullableText(a), NullableText(code)]).Some?
    requires var k := FormatKeySpec(WECHAT_CODE_KEY, [NullableText(a), NullableText(code)]).value;
      k !in m || !m[k].FlagValue?
    ensures CodeUsedIn(m, a, code) == Ok(false)
  {
  }
}

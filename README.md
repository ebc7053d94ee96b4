# user-center: a verified model of the login and session engine

This project models the core of the user-center service in Dafny. The
service answers WeChat mini-program logins and the web QR-code login, keeps
users and their per-application accounts, and issues the tokens a request
filter checks. The model covers:

- **Result and UserErrorCode.** Every service answer is a `Result` value:
  `success` carries code 200, and `error` carries a code and a message.
  The codes the services throw are listed with the messages they carry.
- **Cache keys and lifetimes.** `CacheConstants.formatKey` fills the `{}`
  placeholders one at a time with `replaceFirst`, so the escaping rules of
  a Java replacement string are kept: `\` escapes and `$` refers to a group.
  Keys of different kinds never coincide. One-placeholder keys tell their
  parameters apart; two-placeholder keys do so only while the first
  parameter holds no ':'.
- **The two cache services.**
  - The Redis-backed `CacheService` is a store of values with lifetimes.
  - The in-memory `MemoryCacheService` is a class whose one map its
    methods update in place. Sessions are indexed from user and app to
    token, and from token back to `userId:appId`.
- **One-shot verification codes.** A code is stored under its key for five
  minutes and deleted after a passing check, so a code passes at most once;
  a failing check leaves it stored.
- **Accounts.** `UsersServiceImpl` and `AppsServiceImpl` run over tables of
  users, per-app accounts and apps. A call annotated `@Transactional` that
  throws leaves the tables it started from, but its cache writes stay.
- **WeChat.** `WeChatServiceImpl` fetches and caches access tokens, and
  exchanges a `code` for a session at most once per code, and asks for
  unlimited mini-program codes. WeChat's answers are parameters.
- **Authentication (`AuthServiceImpl`).**
  - The mini-program login exchanges the code, resolves or creates the
    user and the app account, then records the session and caches the
    token.
  - The web QR login: a code is generated pending (0) and then scanned (1)
    and confirmed (2), or read as expired (3) once its time is past.
    `checkQr` hands over the token only for a confirmed code.
  - `generateWxaCode` renders, and caches, the mini-program code image of
    a record that has not expired.
- **The token filter (`MiniAppTokenFilter`).** It lets excluded paths
  through and refuses a missing or bad token, or one whose session is
  gone, with 401 (500 when something throws). Otherwise it loads the user
  profile, through the cache, into the user context.
- **User context.** `UserContext` holds the current user, token and AppId
  of a request.
- **Controller and converters.** `UsersController` reads and updates the
  current user and uploads avatars under a dated, random name. The entity
  and DTO converters are modelled too.

Parameters stand for everything the core cannot compute itself: the clock
(epoch milliseconds, UTC), the id generator, UUIDs, random numbers, the
password hash, WeChat's answers and the JWT claims.

Each Java file of the core is one Dafny module:

| module | file |
|---|---|
| `ErrorCodes`, `ResultVo` | `UserErrorCode`, `Result` |
| `CacheConstants` | `CacheConstants` |
| `RedisCache`, `MemoryCache` | `CacheService`, `MemoryCacheService` |
| `VerificationCodes` | `VerificationCodeService` |
| `Database`, `Outcomes` | the mapper calls and `@Transactional` |
| `Users`, `Apps`, `WeChat`, `Auth` | the four service implementations |
| `Context`, `TokenFilter`, `Controller` | `UserContext`, `MiniAppTokenFilter`, `UsersController` |
| `Converters`, `Entities`, `Text`, `Wrappers` | the converters, the records and the `String` helpers the source calls |

## Model

| member | source | states |
|---|---|---|
| ErrorCodes.Group | user-center-api/src/main/java/com/ravey/ai/user/api/enums/UserErrorCode.java:13-45 | each constant belongs to one of the seven commented declaration groups |
| ErrorCodes.FromCode | user-center-api/src/main/java/com/ravey/ai/user/api/enums/UserErrorCode.java:14-45 | a constant found for a code carries that code |
| ErrorCodes.FromCodeRoundTrip | user-center-api/src/main/java/com/ravey/ai/user/api/enums/UserErrorCode.java:14-58 | every constant is found again from its getCode |
| ErrorCodes.CodesDistinct | user-center-api/src/main/java/com/ravey/ai/user/api/enums/UserErrorCode.java:14-45 | no two constants share a code |
| ErrorCodes.CodeInGroupRange | user-center-api/src/main/java/com/ravey/ai/user/api/enums/UserErrorCode.java:13-45 | every constant except SUCCESS lies in its group's block of a hundred, 1000-1099 through 1600-1699, as the group comments promise |
| ErrorCodes.OnlySuccessIsZero | user-center-api/src/main/java/com/ravey/ai/user/api/enums/UserErrorCode.java:14 | the code is 0 exactly for SUCCESS |
| ErrorCodes.MessagesDistinct | user-center-api/src/main/java/com/ravey/ai/user/api/enums/UserErrorCode.java:14-45 | distinct constants carry distinct messages |
| ResultVo.Success | user-center-api/src/main/java/com/ravey/ai/user/api/vo/Result.java:46-48 | success(data) is a well-formed success with message "操作成功" and the given data |
| ResultVo.SuccessWith | user-center-api/src/main/java/com/ravey/ai/user/api/vo/Result.java:53-55 | success(message, data) is a well-formed success with that message and data |
| ResultVo.Error | user-center-api/src/main/java/com/ravey/ai/user/api/vo/Result.java:60-62 | error(code, message) is a well-formed failure with that code and message and no data |
| ResultVo.ErrorMessage | user-center-api/src/main/java/com/ravey/ai/user/api/vo/Result.java:67-69 | error(message) is a well-formed failure with code 500 and no data |
| ResultVo.SuccessFlagNotCode | user-center-api/src/main/java/com/ravey/ai/user/api/vo/Result.java:46-62 | error(200, m) carries the success code yet differs from a success: only the flag tells them apart |
| Converters.UsersToDto | user-center-service/src/main/java/com/ravey/ai/user/service/converter/UsersConverter.java:21-33 | toDTO is null exactly for null |
| Converters.UsersToEntity | user-center-service/src/main/java/com/ravey/ai/user/service/converter/UsersConverter.java:41-53 | toEntity is null exactly for null |
| Converters.UserToDtoFields | user-center-service/src/main/java/com/ravey/ai/user/service/converter/UsersConverter.java:26-30 | toDTO copies id, nickname and status, maps avatarUrl to avatar, and leaves username, phone and email null |
| Converters.UserEntityRoundTrip | user-center-service/src/main/java/com/ravey/ai/user/service/converter/UsersConverter.java:21-53 | toEntity(toDTO(u)) is u with email and password null |
| Converters.UserDtoRoundTrip | user-center-service/src/main/java/com/ravey/ai/user/service/converter/UsersConverter.java:21-53 | toDTO(toEntity(d)) is d with username, phone and email null |
| Converters.AppsToDto | user-center-service/src/main/java/com/ravey/ai/user/service/converter/AppsConverter.java:21-35 | toDTO is null exactly for null |
| Converters.AppsToEntity | user-center-service/src/main/java/com/ravey/ai/user/service/converter/AppsConverter.java:43-57 | toEntity is null exactly for null |
| Converters.AppRoundTrips | user-center-service/src/main/java/com/ravey/ai/user/service/converter/AppsConverter.java:21-57 | the two app converters are mutually inverse on every field |
| Converters.AuthConvertersDropDescription | user-center-service/src/main/java/com/ravey/ai/user/service/api/impl/AuthServiceImpl.java:538-559 | the login service's private converters equal AppsConverter's except that the description becomes null, and their round trip loses only the description |
| CacheConstants.FindPlaceholder | user-center-api/src/main/java/com/ravey/ai/user/api/constants/CacheConstants.java:118 | a found index is where the regex \\{\\} matches: a '{' followed by '}' |
| CacheConstants.ExpandPlain | user-center-api/src/main/java/com/ravey/ai/user/api/constants/CacheConstants.java:118 | a parameter without '$' or '\\' is inserted literally by replaceFirst |
| CacheConstants.ReplaceAt | user-center-api/src/main/java/com/ravey/ai/user/api/constants/CacheConstants.java:118 | replaceFirst replaces the first "{}" behind brace-free text with a plain parameter |
| CacheConstants.FindPlaceholderAfter | user-center-api/src/main/java/com/ravey/ai/user/api/constants/CacheConstants.java:118 | the first "{}" of a + b lies in b when a holds no '{' |
| CacheConstants.NoPlaceholder | user-center-api/src/main/java/com/ravey/ai/user/api/constants/CacheConstants.java:118 | text without '{' holds no placeholder |
| CacheConstants.FormatKey | user-center-api/src/main/java/com/ravey/ai/user/api/constants/CacheConstants.java:115-121 | the loop replaces the first "{}" once per parameter, in order, and throws where replaceFirst does; it computes FormatKeySpec |
| CacheConstants.FormatKeyPlain | user-center-api/src/main/java/com/ravey/ai/user/api/constants/CacheConstants.java:115-121 | formatKey never throws when no parameter holds '$' or '\\' |
| CacheConstants.Key | user-center-api/src/main/java/com/ravey/ai/user/api/constants/CacheConstants.java:115-121 | the key built from plain parameters is what formatKey returns |
| CacheConstants.FormatKeyNoParams | user-center-api/src/main/java/com/ravey/ai/user/api/constants/CacheConstants.java:115-121 | with no parameters the template comes back unchanged |
| CacheConstants.FormatKeyStep | user-center-api/src/main/java/com/ravey/ai/user/api/constants/CacheConstants.java:117-119 | one loop iteration: the remaining parameters act on the replaced text |
| CacheConstants.FillAt | user-center-api/src/main/java/com/ravey/ai/user/api/constants/CacheConstants.java:117-119 | filling the first placeholder behind brace-free text with a plain parameter |
| CacheConstants.FillFrom | user-center-api/src/main/java/com/ravey/ai/user/api/constants/CacheConstants.java:115-121 | brace-free chunks around placeholders are filled left to right, one parameter each |
| CacheConstants.FillFromPlaceholder | user-center-api/src/main/java/com/ravey/ai/user/api/constants/CacheConstants.java:115-121 | the same, from a text that starts at a placeholder |
| CacheConstants.FormatKeyFills | user-center-api/src/main/java/com/ravey/ai/user/api/constants/CacheConstants.java:115-121 | formatKey fills the template's placeholders left to right, one parameter each; surplus placeholders stay and surplus parameters are ignored |
| CacheConstants.FormatKeyParamWithPlaceholder | user-center-api/src/main/java/com/ravey/ai/user/api/constants/CacheConstants.java:117-119 | a parameter holding "{}" is itself replaced by the next parameter: formatKey("{}:{}", x+"{}", y) is x+y+":{}" |
| CacheConstants.FormatKeyDollar | user-center-api/src/main/java/com/ravey/ai/user/api/constants/CacheConstants.java:118 | a '$' in a parameter that reaches a placeholder makes formatKey throw, but not once no placeholder is left |
| CacheConstants.Prefix | user-center-api/src/main/java/com/ravey/ai/user/api/constants/CacheConstants.java:15-69 | each template is its literal prefix followed by "{}" or "{}:{}" |
| CacheConstants.TagsDiffer | user-center-api/src/main/java/com/ravey/ai/user/api/constants/CacheConstants.java:15-69 | the first characters of distinct templates' prefixes (and the second word for the user: and wechat: families) differ |
| CacheConstants.StartsWithSameTag | user-center-api/src/main/java/com/ravey/ai/user/api/constants/CacheConstants.java:15-69 | a text starting with a prefix shares its distinguishing characters |
| CacheConstants.PrefixesDistinct | user-center-api/src/main/java/com/ravey/ai/user/api/constants/CacheConstants.java:15-69 | no template's prefix starts another's |
| CacheConstants.FormatKeyKeepsPrefix | user-center-api/src/main/java/com/ravey/ai/user/api/constants/CacheConstants.java:115-121 | formatKey keeps a brace-free prefix of the template |
| CacheConstants.KeyStartsWithPrefix | user-center-api/src/main/java/com/ravey/ai/user/api/constants/CacheConstants.java:15-121 | every key of a kind starts with that kind's prefix |
| CacheConstants.KeysOfDifferentKindsDiffer | user-center-api/src/main/java/com/ravey/ai/user/api/constants/CacheConstants.java:15-121 | keys built from different templates never coincide, whatever their parameters |
| CacheConstants.Lifetimes | user-center-api/src/main/java/com/ravey/ai/user/api/constants/CacheConstants.java:76-106 | the cache lifetimes in seconds: 6600, 604800, 3600, 7200, 1800, 300 and 300 |
| CacheConstants.KeyOne | user-center-api/src/main/java/com/ravey/ai/user/api/constants/CacheConstants.java:115-121 | a one-placeholder key is the prefix followed by the parameter |
| CacheConstants.FillTwo | user-center-api/src/main/java/com/ravey/ai/user/api/constants/CacheConstants.java:115-121 | a two-placeholder template filled with a '{'-free first parameter is prefix + a + ":" + b |
| CacheConstants.KeyOneInjective | user-center-api/src/main/java/com/ravey/ai/user/api/constants/CacheConstants.java:115-121 | one-placeholder keys of a kind tell their plain parameters apart |
| CacheConstants.KeyTwo | user-center-api/src/main/java/com/ravey/ai/user/api/constants/CacheConstants.java:115-121 | a two-placeholder key is prefix + a + ":" + b |
| CacheConstants.IndexOfAfter | user-center-api/src/main/java/com/ravey/ai/user/api/constants/CacheConstants.java:115-121 | the first ':' of a + ":" + b is at |a| when a holds none |
| CacheConstants.ColonSplitUnique | user-center-api/src/main/java/com/ravey/ai/user/api/constants/CacheConstants.java:115-121 | splitting at the first ':' recovers both halves |
| CacheConstants.KeyTwoInjective | user-center-api/src/main/java/com/ravey/ai/user/api/constants/CacheConstants.java:115-121 | two-placeholder keys tell parameter pairs apart when the first parameter holds no ':' |
| CacheConstants.PrefixedColonSplitUnique | user-center-api/src/main/java/com/ravey/ai/user/api/constants/CacheConstants.java:115-121 | the same behind a common prefix |
| CacheConstants.KeyTwoCollision | user-center-api/src/main/java/com/ravey/ai/user/api/constants/CacheConstants.java:39-121 | with a ':' in the first parameter, two different pairs share a key: ("x:y", "z") and ("x", "y:z") |
| MemoryCache.MemoryCacheService.constructor | user-center-service/src/main/java/com/ravey/ai/user/service/cache/MemoryCacheService.java:26 | the service starts with an empty map |
| MemoryCache.MemoryCacheService.CacheMiniAppAccessToken | user-center-service/src/main/java/com/ravey/ai/user/service/cache/MemoryCacheService.java:31-35 | stores the token under the app's access-token key; a null token (ConcurrentHashMap refuses null values) or a key formatKey cannot build throws and stores nothing |
| MemoryCache.MemoryCacheService.GetMiniAppAccessToken | user-center-service/src/main/java/com/ravey/ai/user/service/cache/MemoryCacheService.java:40-45 | answers the entry under the access-token key when it is text, null otherwise |
| MemoryCache.MemoryCacheService.CacheAppInfo | user-center-service/src/main/java/com/ravey/ai/user/service/cache/MemoryCacheService.java:50-54 | a null app throws a NullPointerException before any key is built; otherwise the DTO is stored under its appId's key |
| MemoryCache.MemoryCacheService.GetAppInfo | user-center-service/src/main/java/com/ravey/ai/user/service/cache/MemoryCacheService.java:59-64 | answers the entry under the app-info key when it is an app, null otherwise |
| MemoryCache.MemoryCacheService.CacheUserInfo | user-center-service/src/main/java/com/ravey/ai/user/service/cache/MemoryCacheService.java:69-73 | a null user throws; otherwise the DTO is stored under its id's key |
| MemoryCache.MemoryCacheService.GetUserInfo | user-center-service/src/main/java/com/ravey/ai/user/service/cache/MemoryCacheService.java:78-83 | answers the entry under the user-info key when it is a user, null otherwise |
| MemoryCache.MemoryCacheService.CacheUserSession | user-center-service/src/main/java/com/ravey/ai/user/service/cache/MemoryCacheService.java:88-96 | both keys are built first; then (userId, appId or "default") maps to the token and the token maps to "userId:appId", as CacheSession says |
| MemoryCache.MemoryCacheService.GetUserToken | user-center-service/src/main/java/com/ravey/ai/user/service/cache/MemoryCacheService.java:101-106 | answers the token stored for (userId, appId or "default"), null when absent or not text |
| MemoryCache.MemoryCacheService.GetUserSession | user-center-service/src/main/java/com/ravey/ai/user/service/cache/MemoryCacheService.java:111-116 | answers the "userId:appId" text stored under the token, null when absent or not text |
| MemoryCache.MemoryCacheService.RemoveUserSession | user-center-service/src/main/java/com/ravey/ai/user/service/cache/MemoryCacheService.java:121-134 | removes the token's entry, and the user entry named by the stored text when it splits on ':' into exactly two parts, as RemoveSession says |
| MemoryCache.MemoryCacheService.RemoveUserSessionByUserId | user-center-service/src/main/java/com/ravey/ai/user/service/cache/MemoryCacheService.java:139-149 | removes the user entry and the entry of the token it held, as RemoveSessionByUser says |
| MemoryCache.MemoryCacheService.CacheUserApp | user-center-service/src/main/java/com/ravey/ai/user/service/cache/MemoryCacheService.java:154-158 | stores the Boolean flag under the (userId, appId) key |
| MemoryCache.MemoryCacheService.GetUserApp | user-center-service/src/main/java/com/ravey/ai/user/service/cache/MemoryCacheService.java:163-168 | answers the stored flag, null when absent or not a Boolean |
| MemoryCache.MemoryCacheService.CacheWeChatSession | user-center-service/src/main/java/com/ravey/ai/user/service/cache/MemoryCacheService.java:173-177 | stores the used flag under the (appId, code) code key |
| MemoryCache.MemoryCacheService.IsWeChatCodeUsed | user-center-service/src/main/java/com/ravey/ai/user/service/cache/MemoryCacheService.java:182-188 | true exactly when a Boolean true is stored under the code key |
| MemoryCache.MemoryCacheService.Delete | user-center-service/src/main/java/com/ravey/ai/user/service/cache/MemoryCacheService.java:193-196 | removes exactly the given key; a null key throws and changes nothing |
| MemoryCache.MemoryCacheService.Exists | user-center-service/src/main/java/com/ravey/ai/user/service/cache/MemoryCacheService.java:201-205 | answers whether the key is present; a null key throws |
| MemoryCache.MemoryCacheService.Expire | user-center-service/src/main/java/com/ravey/ai/user/service/cache/MemoryCacheService.java:210-212 | changes nothing: the in-memory cache has no lifetimes |
| MemoryCache.MemoryCacheService.RefreshUserSession | user-center-service/src/main/java/com/ravey/ai/user/service/cache/MemoryCacheService.java:217-219 | changes nothing |
| MemoryCache.MemoryCacheService.SetExpiration | user-center-service/src/main/java/com/ravey/ai/user/service/cache/MemoryCacheService.java:224-226 | changes nothing |
| MemoryCache.CacheSessionRoundTrip | user-center-service/src/main/java/com/ravey/ai/user/service/cache/MemoryCacheService.java:88-116 | after cacheUserSession(u, a, t) the token reads back "u:a" and (u, a) reads back t |
| MemoryCache.SessionKeysDiffer | user-center-service/src/main/java/com/ravey/ai/user/service/cache/MemoryCacheService.java:89-90 | the user entry and the token entry never share a key |
| MemoryCache.NullAppIdIsDefault | user-center-service/src/main/java/com/ravey/ai/user/service/cache/MemoryCacheService.java:89-102 | a null appId is stored and read as the app "default" |
| MemoryCache.RecacheLeavesOldToken | user-center-service/src/main/java/com/ravey/ai/user/service/cache/MemoryCacheService.java:88-96 | caching (u, a) again with another token repoints the user entry but leaves the old token's entry in place |
| MemoryCache.TokenKeysDiffer | user-center-service/src/main/java/com/ravey/ai/user/service/cache/MemoryCacheService.java:90 | distinct plain tokens have distinct token entries |
| MemoryCache.RemoveSessionDropsToken | user-center-service/src/main/java/com/ravey/ai/user/service/cache/MemoryCacheService.java:121-134 | removeUserSession always drops the token's own entry |
| MemoryCache.RemoveByUserDropsBoth | user-center-service/src/main/java/com/ravey/ai/user/service/cache/MemoryCacheService.java:139-149 | removeUserSessionByUserId drops the user entry and the entry of the token it pointed to |
| MemoryCache.RemoveSessionAfterCache | user-center-service/src/main/java/com/ravey/ai/user/service/cache/MemoryCacheService.java:121-134 | right after caching (u, a, t) with a non-empty colon-free a, removeUserSession(t) drops both entries |
| MemoryCache.RemoveSessionLeavesStaleEntry | user-center-service/src/main/java/com/ravey/ai/user/service/cache/MemoryCacheService.java:126-130 | with an empty appId or one holding ':', removeUserSession(t) leaves the user entry behind, still naming t |
| MemoryCache.RemoveSessionKeeps | user-center-service/src/main/java/com/ravey/ai/user/service/cache/MemoryCacheService.java:121-134 | removeUserSession keeps every entry other than the token's and the one its stored text names |
| MemoryCache.StaleSplitOtherKey | user-center-service/src/main/java/com/ravey/ai/user/service/cache/MemoryCacheService.java:126-128 | with an empty or colon-holding appId, a two-part split of "u:a" names a key other than (u, a)'s |
| MemoryCache.StaleSplitTwoParts | user-center-service/src/main/java/com/ravey/ai/user/service/cache/MemoryCacheService.java:126-128 | the same, for the split in hand |
| MemoryCache.SplitPartsShape | user-center-service/src/main/java/com/ravey/ai/user/service/cache/MemoryCacheService.java:126 | a two-part split of "u:a" gives u and a colon-free rest |
| MemoryCache.UserIdTextColonFree | user-center-service/src/main/java/com/ravey/ai/user/service/cache/MemoryCacheService.java:93 | the text of a user id, or "null", is non-empty and colon-free |
| MemoryCache.MarkCodeUsed | user-center-service/src/main/java/com/ravey/ai/user/service/cache/MemoryCacheService.java:173-188 | marking (a, c) used makes isWeChatCodeUsed(a, c) true and leaves every other pair's answer alone, for colon-free app ids |
| MemoryCache.CodeKeysDiffer | user-center-service/src/main/java/com/ravey/ai/user/service/cache/MemoryCacheService.java:174 | distinct (appId, code) pairs have distinct code keys when the app id holds no ':' |
| MemoryCache.UnmarkedCodeIsUnused | user-center-service/src/main/java/com/ravey/ai/user/service/cache/MemoryCacheService.java:185 | an absent or non-Boolean marker reads as not used |
| RedisCache.Read | user-center-service/src/main/java/com/ravey/ai/user/service/cache/CacheService.java:50 | a null key throws, a missing key reads as null, otherwise the stored value |
| RedisCache.Write | user-center-service/src/main/java/com/ravey/ai/user/service/cache/CacheService.java:38 | set(key, value, ttl) stores the value with that lifetime under the key and keeps every other entry; a null key throws |
| RedisCache.Erase | user-center-service/src/main/java/com/ravey/ai/user/service/cache/CacheService.java:135 | delete removes exactly that key; a null key throws |
| RedisCache.Expired | user-center-service/src/main/java/com/ravey/ai/user/service/cache/CacheService.java:222 | expire never adds a key, and leaves the store alone for an absent key |
| RedisCache.Aged | user-center-service/src/main/java/com/ravey/ai/user/service/cache/CacheService.java:38 | after some seconds exactly the entries with more lifetime left remain, each with that much less |
| RedisCache.AccessTokenIn | user-center-service/src/main/java/com/ravey/ai/user/service/cache/CacheService.java:48-53 | fails exactly when formatKey fails for the app id |
| RedisCache.CacheService.constructor | user-center-service/src/main/java/com/ravey/ai/user/service/cache/CacheService.java:28 | the cache starts empty |
| RedisCache.CacheService.Get | user-center-service/src/main/java/com/ravey/ai/user/service/cache/CacheService.java:50 | answers Read on the current store |
| RedisCache.CacheService.Put | user-center-service/src/main/java/com/ravey/ai/user/service/cache/CacheService.java:38 | the store becomes Write's result; a failure changes nothing |
| RedisCache.CacheService.CacheMiniAppAccessToken | user-center-service/src/main/java/com/ravey/ai/user/service/cache/CacheService.java:36-40 | stores the token under the app's access-token key for 6600 seconds |
| RedisCache.CacheService.GetMiniAppAccessToken | user-center-service/src/main/java/com/ravey/ai/user/service/cache/CacheService.java:48-53 | answers toString of whatever is stored under the key, null when nothing is |
| RedisCache.CacheService.CacheAppInfo | user-center-service/src/main/java/com/ravey/ai/user/service/cache/CacheService.java:60-64 | a null app throws; otherwise the DTO is stored under its appId's key for seven days |
| RedisCache.CacheService.GetAppInfo | user-center-service/src/main/java/com/ravey/ai/user/service/cache/CacheService.java:72-77 | answers the stored app, null when absent or of another type |
| RedisCache.CacheService.CacheUserInfo | user-center-service/src/main/java/com/ravey/ai/user/service/cache/CacheService.java:84-88 | a null user throws; otherwise the DTO is stored under its id's key for an hour |
| RedisCache.CacheService.GetUserInfo | user-center-service/src/main/java/com/ravey/ai/user/service/cache/CacheService.java:96-101 | answers the stored user, null when absent or of another type |
| RedisCache.CacheService.CacheUserSession | user-center-service/src/main/java/com/ravey/ai/user/service/cache/CacheService.java:109-113 | stores the user id under the token's session key for two hours |
| RedisCache.CacheService.GetUserSession | user-center-service/src/main/java/com/ravey/ai/user/service/cache/CacheService.java:121-126 | answers the stored number, null when absent or not a number |
| RedisCache.CacheService.RemoveUserSession | user-center-service/src/main/java/com/ravey/ai/user/service/cache/CacheService.java:133-137 | deletes the token's session key |
| RedisCache.CacheService.CacheUserApp | user-center-service/src/main/java/com/ravey/ai/user/service/cache/CacheService.java:146-150 | stores the flag under the (userId, appId) key for 30 minutes |
| RedisCache.CacheService.GetUserApp | user-center-service/src/main/java/com/ravey/ai/user/service/cache/CacheService.java:159-164 | answers the stored Boolean, null when absent or not a Boolean |
| RedisCache.CacheService.CacheWeChatSession | user-center-service/src/main/java/com/ravey/ai/user/service/cache/CacheService.java:173-177 | stores the used flag under the session-template key of (appId, code) for five minutes |
| RedisCache.CacheService.IsWeChatCodeUsed | user-center-service/src/main/java/com/ravey/ai/user/service/cache/CacheService.java:186-191 | answers the stored Boolean, null when the code was never marked |
| RedisCache.CacheService.Delete | user-center-service/src/main/java/com/ravey/ai/user/service/cache/CacheService.java:198-201 | removes exactly the key; a null key throws and changes nothing |
| RedisCache.CacheService.Exists | user-center-service/src/main/java/com/ravey/ai/user/service/cache/CacheService.java:209-212 | true exactly when the key is present, even when its entry holds null |
| RedisCache.CacheService.Expire | user-center-service/src/main/java/com/ravey/ai/user/service/cache/CacheService.java:221-224 | the store becomes Expired's result |
| RedisCache.CacheService.Set | user-center-service/src/main/java/com/ravey/ai/user/service/component/VerificationCodeService.java:33 | stores the text under the key with the given lifetime; CacheService.set is not part of this model's sources and is modelled as a plain write |
| RedisCache.CacheService.GetText | user-center-service/src/main/java/com/ravey/ai/user/service/component/VerificationCodeService.java:47 | answers the text stored under the key, null otherwise |
| RedisCache.CacheService.CacheQrToken | user-center-service/src/main/java/com/ravey/ai/user/service/api/impl/AuthServiceImpl.java:253 | stores the token under the QR hand-off key for five minutes |
| RedisCache.CacheService.GetQrToken | user-center-service/src/main/java/com/ravey/ai/user/service/api/impl/AuthServiceImpl.java:182 | answers the text stored under the QR hand-off key |
| RedisCache.CacheService.CacheWxaCode | user-center-service/src/main/java/com/ravey/ai/user/service/api/impl/AuthServiceImpl.java:288 | stores the image bytes under the QR hand-off key for five minutes |
| RedisCache.CacheService.GetWxaCode | user-center-service/src/main/java/com/ravey/ai/user/service/api/impl/AuthServiceImpl.java:274 | answers the bytes stored under the QR hand-off key |
| RedisCache.ReadAfterWrite | user-center-service/src/main/java/com/ravey/ai/user/service/cache/CacheService.java:38-53 | a successful write is read back as written |
| RedisCache.WriteKeepsOthers | user-center-service/src/main/java/com/ravey/ai/user/service/cache/CacheService.java:38 | a write leaves every other key's read as it was |
| RedisCache.SessionRoundTrip | user-center-service/src/main/java/com/ravey/ai/user/service/cache/CacheService.java:109-137 | cacheUserSession(t, u) then getUserSession(t) gives u; after removeUserSession(t) it gives null |
| RedisCache.SessionIsNumberOnly | user-center-service/src/main/java/com/ravey/ai/user/service/cache/CacheService.java:121-126 | getUserSession answers n exactly when the number n is stored under the token's key |
| RedisCache.CodeMarkerIsNullUntilMarked | user-center-service/src/main/java/com/ravey/ai/user/service/cache/CacheService.java:173-191 | isWeChatCodeUsed answers null, not false, for an unmarked code, and true once it is marked |
| RedisCache.AppInfoRoundTrip | user-center-service/src/main/java/com/ravey/ai/user/service/cache/CacheService.java:60-77 | cacheAppInfo(d) then getAppInfo(d.appId) gives d |
| RedisCache.WriteLifetimes | user-center-service/src/main/java/com/ravey/ai/user/service/cache/CacheService.java:36-175 | each kind of write gives its entry that kind's lifetime: 6600, 604800, 3600, 7200, 1800 and 300 seconds |
| RedisCache.AccessTokenRendersAnyValue | user-center-service/src/main/java/com/ravey/ai/user/service/cache/CacheService.java:52 | getMiniAppAccessToken renders any stored value as text: a number stored under the key comes back as its digits although it is no token |
| RedisCache.UserKeyIsNotSessionKey | user-center-service/src/main/java/com/ravey/ai/user/service/cache/CacheService.java:85-122 | a user's profile key is never a session key |
| RedisCache.CodeKeyIsNoSessionOrUserKey | user-center-service/src/main/java/com/ravey/ai/user/service/cache/CacheService.java:110-187 | a code marker key is never a session key nor a profile key |
| RedisCache.NullSessionExists | user-center-service/src/main/java/com/ravey/ai/user/service/cache/CacheService.java:109-126 | a session cached with a null user id exists, yet reads back as null |
| RedisCache.KindsDoNotInterfere | user-center-service/src/main/java/com/ravey/ai/user/service/cache/CacheService.java:37-187 | writing a key of one template leaves every key of another template as it was |
| RedisCache.QrTokenAndImageShareKey | user-center-service/src/main/java/com/ravey/ai/user/service/api/impl/AuthServiceImpl.java:253-288 | the QR token and the code image share one key: caching either hides the other from its typed getter |
| RedisCache.EntryLivesForItsLifetime | user-center-service/src/main/java/com/ravey/ai/user/service/cache/CacheService.java:38 | an entry written with lifetime ttl reads back for fewer than ttl seconds and is gone afterwards |
| RedisCache.ExpireEffect | user-center-service/src/main/java/com/ravey/ai/user/service/cache/CacheService.java:221-224 | a non-positive timeout deletes the key, an absent key is left alone, and otherwise only the lifetime changes |
| VerificationCodes.VerificationCodeService.constructor | user-center-service/src/main/java/com/ravey/ai/user/service/component/VerificationCodeService.java:17-18 | the service works on the cache it is given |
| VerificationCodes.VerificationCodeService.GenerateCode | user-center-service/src/main/java/com/ravey/ai/user/service/component/VerificationCodeService.java:30-35 | returns the random number as six zero-padded digits and stores it under the (e-mail, scene) key for 300 seconds, the rest of the cache unchanged |
| VerificationCodes.VerificationCodeService.VerifyCode | user-center-service/src/main/java/com/ravey/ai/user/service/component/VerificationCodeService.java:45-53 | passes exactly when a non-null code equals the stored text, and then deletes the key; a failed check changes nothing |
| VerificationCodes.GeneratedCodeShape | user-center-service/src/main/java/com/ravey/ai/user/service/component/VerificationCodeService.java:31 | the code is six decimal digits whose value is the random number |
| VerificationCodes.GeneratedCodeStored | user-center-service/src/main/java/com/ravey/ai/user/service/component/VerificationCodeService.java:30-34 | after generateCode the key holds the code, with a lifetime of 300 seconds |
| VerificationCodes.VerifyPassesIff | user-center-service/src/main/java/com/ravey/ai/user/service/component/VerificationCodeService.java:48 | the check passes if and only if a code was submitted and equals the stored one |
| VerificationCodes.CodeIsConsumed | user-center-service/src/main/java/com/ravey/ai/user/service/component/VerificationCodeService.java:48-50 | after a passing check any further check of the same pair fails |
| VerificationCodes.FailedCheckKeepsCode | user-center-service/src/main/java/com/ravey/ai/user/service/component/VerificationCodeService.java:52 | a failing check leaves the cache unchanged |
| VerificationCodes.GenerateThenVerify | user-center-service/src/main/java/com/ravey/ai/user/service/component/VerificationCodeService.java:30-53 | the code just generated passes once and only once |
| VerificationCodes.LongTextColonFree | user-center-service/src/main/java/com/ravey/ai/user/service/component/VerificationCodeService.java:56 | the rendered scene never holds the separator ':' |
| VerificationCodes.LongTextInjective | user-center-service/src/main/java/com/ravey/ai/user/service/component/VerificationCodeService.java:56 | distinct scenes, null included, render differently |
| VerificationCodes.KeysSeparateScenesAndEmails | user-center-service/src/main/java/com/ravey/ai/user/service/component/VerificationCodeService.java:55-57 | different (e-mail, scene) pairs get different keys |
| VerificationCodes.CodeKeyIsNoTemplateKey | user-center-service/src/main/java/com/ravey/ai/user/service/component/VerificationCodeService.java:20 | a code key is never a key built from one of the cache templates |
| VerificationCodes.NullEmailCollides | user-center-service/src/main/java/com/ravey/ai/user/service/component/VerificationCodeService.java:56 | a null e-mail and the e-mail "null" share one key |
| VerificationCodes.PairsDoNotInterfere | user-center-service/src/main/java/com/ravey/ai/user/service/component/VerificationCodeService.java:30-53 | generating or consuming one pair's code leaves every other pair's check as it was |
| Database.One | user-center-service/src/main/java/com/ravey/ai/user/service/api/impl/UsersServiceImpl.java:134 | selectOne without a limit: nothing for no match, the row for exactly one, TooManyResults for more |
| Database.First | user-center-service/src/main/java/com/ravey/ai/user/service/api/impl/AuthServiceImpl.java:163-166 | selectOne with "LIMIT 1" and selectById: nothing exactly when no row matches, otherwise the first matching row |
| Database.UsersWithId | user-center-service/src/main/java/com/ravey/ai/user/service/api/impl/UsersServiceImpl.java:55 | selectById(id) matches exactly the users whose id equals a non-null id |
| Database.UsersWithEmail | user-center-service/src/main/java/com/ravey/ai/user/service/api/impl/UsersServiceImpl.java:134 | eq(email) matches exactly the users whose email equals a non-null e-mail |
| Database.UpdateUsers | user-center-service/src/main/java/com/ravey/ai/user/service/api/impl/UsersServiceImpl.java:99 | updateById keeps the row count and merges the non-null fields into the rows with that id, leaving the others |
| Database.LinksWithOpenid | user-center-service/src/main/java/com/ravey/ai/user/service/api/impl/AuthServiceImpl.java:400-405 | matches exactly the active links of that app and openid, null never matching |
| Database.LinksWithUnionid | user-center-service/src/main/java/com/ravey/ai/user/service/api/impl/AuthServiceImpl.java:416-421 | matches exactly the active links with that unionid, in any app |
| Database.UpdateLinks | user-center-service/src/main/java/com/ravey/ai/user/service/api/impl/AuthServiceImpl.java:463 | updateById on user_apps keeps the row count and merges into the rows with that id only |
| Database.AppsWithId | user-center-service/src/main/java/com/ravey/ai/user/service/api/impl/AuthServiceImpl.java:247 | selectById on apps matches exactly the apps with that id |
| Database.AppsWithAppId | user-center-service/src/main/java/com/ravey/ai/user/service/api/impl/AppsServiceImpl.java:32-34 | eq(appId) matches exactly the apps with that WeChat AppId, whatever their status |
| Database.ActiveApps | user-center-service/src/main/java/com/ravey/ai/user/service/api/impl/WeChatServiceImpl.java:167-171 | matches exactly the enabled apps with that WeChat AppId |
| Database.RecordsWithQrcodeId | user-center-service/src/main/java/com/ravey/ai/user/service/api/impl/AuthServiceImpl.java:163-166 | matches exactly the QR records carrying that QR code id |
| Database.UpdateRecords | user-center-service/src/main/java/com/ravey/ai/user/service/api/impl/AuthServiceImpl.java:177 | updateById on qr_login_records keeps the row count and merges into the rows with that id only |
| Database.UsersWithEmailAppend | user-center-service/src/main/java/com/ravey/ai/user/service/api/impl/UsersServiceImpl.java:134-145 | after insert, the e-mail query gives the earlier matches plus the new user exactly when it matches |
| Database.UsersWithIdAppend | user-center-service/src/main/java/com/ravey/ai/user/service/api/impl/AuthServiceImpl.java:436 | after insert, selectById gives the earlier matches plus the new user exactly when its id matches |
| Database.LinksWithOpenidAppend | user-center-service/src/main/java/com/ravey/ai/user/service/api/impl/AuthServiceImpl.java:452 | after insert, the openid query gives the earlier matches plus the new link exactly when it matches |
| Database.RecordsWithQrcodeIdAppend | user-center-service/src/main/java/com/ravey/ai/user/service/api/impl/AuthServiceImpl.java:152 | after insert, the QR code id query gives the earlier matches plus the new record exactly when it matches |
| Database.AppsWithAppIdAppend | user-center-service/src/main/java/com/ravey/ai/user/service/api/impl/AppsServiceImpl.java:45 | after insert, the AppId query gives the earlier matches plus the new app exactly when it matches |
| Database.RecordsWithQrcodeIdNone | user-center-service/src/main/java/com/ravey/ai/user/service/api/impl/AuthServiceImpl.java:163-166 | when no row carries the QR code id the query finds nothing |
| Database.RecordsWithQrcodeIdFirst | user-center-service/src/main/java/com/ravey/ai/user/service/api/impl/AuthServiceImpl.java:163-166 | the record found is the first row carrying the QR code id |
| Database.RecordsWithQrcodeIdFirstIndex | user-center-service/src/main/java/com/ravey/ai/user/service/api/impl/AuthServiceImpl.java:163-166 | conversely, a found record sits at the first row carrying the QR code id |
| Database.UpdateOneRecord | user-center-service/src/main/java/com/ravey/ai/user/service/api/impl/AuthServiceImpl.java:177 | with unique ids, updateById with a stored row's id changes that row alone |
| Database.Db.constructor | user-center-service/src/main/java/com/ravey/ai/user/service/api/impl/AuthServiceImpl.java:64-72 | the mappers work on the tables given |
| Database.Db.Restore | user-center-service/src/main/java/com/ravey/ai/user/service/api/impl/AuthServiceImpl.java:75 | a rolled-back transaction puts the tables back as they were |
| Database.Db.SelectUserById | user-center-service/src/main/java/com/ravey/ai/user/service/api/impl/UsersServiceImpl.java:55 | answers First of UsersWithId |
| Database.Db.SelectOneUserByEmail | user-center-service/src/main/java/com/ravey/ai/user/service/api/impl/UsersServiceImpl.java:134 | answers One of UsersWithEmail |
| Database.Db.InsertUser | user-center-service/src/main/java/com/ravey/ai/user/service/api/impl/UsersServiceImpl.java:145 | appends the user, given a fresh id when its id is null, and changes no other table |
| Database.Db.UpdateUserById | user-center-service/src/main/java/com/ravey/ai/user/service/api/impl/UsersServiceImpl.java:99 | the users table becomes UpdateUsers' result, the others unchanged |
| Database.Db.SelectOneLinkByOpenid | user-center-service/src/main/java/com/ravey/ai/user/service/api/impl/AuthServiceImpl.java:400-405 | answers One of LinksWithOpenid |
| Database.Db.SelectFirstLinkByUnionid | user-center-service/src/main/java/com/ravey/ai/user/service/api/impl/AuthServiceImpl.java:416-421 | answers First of LinksWithUnionid |
| Database.Db.InsertLink | user-center-service/src/main/java/com/ravey/ai/user/service/api/impl/AuthServiceImpl.java:452 | appends the link, given a fresh id when its id is null |
| Database.Db.UpdateLinkById | user-center-service/src/main/java/com/ravey/ai/user/service/api/impl/AuthServiceImpl.java:463 | the user_apps table becomes UpdateLinks' result |
| Database.Db.SelectAppById | user-center-service/src/main/java/com/ravey/ai/user/service/api/impl/AuthServiceImpl.java:247 | answers First of AppsWithId |
| Database.Db.SelectOneAppByAppId | user-center-service/src/main/java/com/ravey/ai/user/service/api/impl/AppsServiceImpl.java:34 | answers One of AppsWithAppId |
| Database.Db.SelectOneActiveApp | user-center-service/src/main/java/com/ravey/ai/user/service/api/impl/WeChatServiceImpl.java:167-171 | answers One of ActiveApps |
| Database.Db.SelectAllApps | user-center-service/src/main/java/com/ravey/ai/user/service/api/impl/AppsServiceImpl.java:56 | selectList(null) answers every app in store order |
| Database.Db.InsertApp | user-center-service/src/main/java/com/ravey/ai/user/service/api/impl/AppsServiceImpl.java:45 | appends the app, given a fresh id when its id is null |
| Database.Db.SelectFirstRecord | user-center-service/src/main/java/com/ravey/ai/user/service/api/impl/AuthServiceImpl.java:163-166 | answers First of RecordsWithQrcodeId |
| Database.Db.InsertRecord | user-center-service/src/main/java/com/ravey/ai/user/service/api/impl/AuthServiceImpl.java:152 | appends the record, given a fresh id when its id is null |
| Database.Db.UpdateRecordById | user-center-service/src/main/java/com/ravey/ai/user/service/api/impl/AuthServiceImpl.java:177 | the qr_login_records table becomes UpdateRecords' result |
| Database.Db.InsertSession | user-center-service/src/main/java/com/ravey/ai/user/service/api/impl/UsersServiceImpl.java:210 | appends the session, given a fresh id when its id is null |
| Apps.AppList | user-center-service/src/main/java/com/ravey/ai/user/service/api/impl/AppsServiceImpl.java:53-73 | one answer per stored app, in store order, each copied from its app, and the total is their number |
| Apps.AppsService.constructor | user-center-service/src/main/java/com/ravey/ai/user/service/api/impl/AppsServiceImpl.java:27 | the service works on the mapper it is given |
| Apps.AppsService.CreateApp | user-center-service/src/main/java/com/ravey/ai/user/service/api/impl/AppsServiceImpl.java:29-51 | the tables and the answer are those of Created: an AppId already taken is refused with nothing written, otherwise the enabled app is inserted and answered |
| Apps.AppsService.GetAppList | user-center-service/src/main/java/com/ravey/ai/user/service/api/impl/AppsServiceImpl.java:53-73 | answers AppList of every stored app |
| Apps.CreateRejectsTakenAppId | user-center-service/src/main/java/com/ravey/ai/user/service/api/impl/AppsServiceImpl.java:34-37 | an AppId already present, enabled or not, is refused with "应用AppId已存在" (or TooManyResults when stored twice) and nothing is written |
| Apps.CreatedApp | user-center-service/src/main/java/com/ravey/ai/user/service/api/impl/AppsServiceImpl.java:39-50 | a successful create means the AppId was free; the app is appended enabled with the request's fields and answered with them |
| Apps.AnswerHidesSecret | user-center-service/src/main/java/com/ravey/ai/user/service/api/impl/AppsServiceImpl.java:48-49 | the answer does not depend on the AppSecret |
| Apps.CreatedAppIsListed | user-center-service/src/main/java/com/ravey/ai/user/service/api/impl/AppsServiceImpl.java:45-70 | after a create the list is the old list plus the new app's answer, and the total grows by one |
| Apps.CreateKeepsAppIdsUnique | user-center-service/src/main/java/com/ravey/ai/user/service/api/impl/AppsServiceImpl.java:33-45 | createApp keeps the non-null AppIds of the stored apps unique |
| Users.UsersService.constructor | user-center-service/src/main/java/com/ravey/ai/user/service/api/impl/UsersServiceImpl.java:37-42 | the service works on the mappers, the cache and the code service it is given |
| Users.UsersService.GetById | user-center-service/src/main/java/com/ravey/ai/user/service/api/impl/UsersServiceImpl.java:44-72 | answers UserById: null for a null id or an unknown user, otherwise the user's DTO |
| Users.UsersService.Update | user-center-service/src/main/java/com/ravey/ai/user/service/api/impl/UsersServiceImpl.java:74-104 | the tables and the answer are those of ProfileUpdate |
| Users.UsersService.SendEmailCode | user-center-service/src/main/java/com/ravey/ai/user/service/api/impl/UsersServiceImpl.java:106-121 | a blank e-mail is refused with nothing stored; otherwise the code is generated and stored, and the call fails exactly when the mail fails |
| Users.UsersService.BuildLoginResponse | user-center-service/src/main/java/com/ravey/ai/user/service/api/impl/UsersServiceImpl.java:201-227 | inserts a seven-day session row, caches the session and the user, and answers the token, 604800 seconds and the user's info |
| Users.UsersService.RegisterByEmail | user-center-service/src/main/java/com/ravey/ai/user/service/api/impl/UsersServiceImpl.java:123-149 | the tables, the cache and the answer are those of Register, with the tables rolled back on failure |
| Users.UsersService.LoginByEmail | user-center-service/src/main/java/com/ravey/ai/user/service/api/impl/UsersServiceImpl.java:151-176 | the tables, the cache and the answer are those of Login, with the tables rolled back on failure |
| Users.UsersService.ResetPassword | user-center-service/src/main/java/com/ravey/ai/user/service/api/impl/UsersServiceImpl.java:178-195 | the tables, the cache and the completion are those of Reset |
| Users.UserByIdNullIff | user-center-service/src/main/java/com/ravey/ai/user/service/api/impl/UsersServiceImpl.java:48-66 | getById is null exactly for a null id or an id no row carries, and otherwise answers the user with that id |
| Users.UpdateChangesOnlyToNonBlankDifferent | user-center-service/src/main/java/com/ravey/ai/user/service/api/impl/UsersServiceImpl.java:78-103 | update fails exactly for a null id or an unknown user, writing nothing; a field of the answer differs from the stored one only when the request gave it non-blank |
| Users.UpdateWritesOnlyOnChange | user-center-service/src/main/java/com/ravey/ai/user/service/api/impl/UsersServiceImpl.java:87-101 | the row is written back only when a field changed |
| Users.FirstAfterUpdate | user-center-service/src/main/java/com/ravey/ai/user/service/api/impl/UsersServiceImpl.java:99 | after updateById the first row with the id is the merged row |
| Users.UpdateIsIdempotent | user-center-service/src/main/java/com/ravey/ai/user/service/api/impl/UsersServiceImpl.java:74-104 | repeating a successful update writes nothing and gives the same answer |
| Users.SendCodeGuard | user-center-service/src/main/java/com/ravey/ai/user/service/api/impl/UsersServiceImpl.java:112-120 | a blank e-mail is refused before a code exists; otherwise the code is stored even when the mail fails |
| Users.LoginResponseEffect | user-center-service/src/main/java/com/ravey/ai/user/service/api/impl/UsersServiceImpl.java:201-227 | one session row expiring in seven days is appended, users are untouched, and on success the session reads back the user id and the answer carries the token and the user |
| Users.RegisterNeedsCode | user-center-service/src/main/java/com/ravey/ai/user/service/api/impl/UsersServiceImpl.java:128-131 | a rejected code ends registration with nothing changed |
| Users.RegisterTakenEmailConsumesCode | user-center-service/src/main/java/com/ravey/ai/user/service/api/impl/UsersServiceImpl.java:128-137 | the code is consumed before the e-mail check, so registering a taken e-mail spends it and writes no row |
| Users.RegisteredUser | user-center-service/src/main/java/com/ravey/ai/user/service/api/impl/UsersServiceImpl.java:139-148 | a registration appends one active user with the hashed password and the nickname or "新用户", and caches its session |
| Users.RegisterThenPasswordLogin | user-center-service/src/main/java/com/ravey/ai/user/service/api/impl/UsersServiceImpl.java:123-176 | whoever registers with an e-mail and a password can then log in with them as that user |
| Users.LoginNeedsCredential | user-center-service/src/main/java/com/ravey/ai/user/service/api/impl/UsersServiceImpl.java:156-175 | a login succeeds only for the single user with the e-mail and only with a matching hash or an accepted scene-2 code |
| Users.LoginFailures | user-center-service/src/main/java/com/ravey/ai/user/service/api/impl/UsersServiceImpl.java:156-173 | unknown user, wrong password and unsupported type fail with their messages in that order, and no failure writes a row |
| Users.CodeLoginIsOneShot | user-center-service/src/main/java/com/ravey/ai/user/service/api/impl/UsersServiceImpl.java:166-170 | a code login consumes its code, so the same request cannot log in again |
| Users.WriteKeepsCode | user-center-service/src/main/java/com/ravey/ai/user/service/api/impl/UsersServiceImpl.java:213-214 | a cache write to any key but a code's leaves that code stored |
| Users.SessionWriteKeepsCodes | user-center-service/src/main/java/com/ravey/ai/user/service/api/impl/UsersServiceImpl.java:213 | caching a session leaves every verification code as it was |
| Users.SessionKeyIsNoCodeKey | user-center-service/src/main/java/com/ravey/ai/user/service/api/impl/UsersServiceImpl.java:213 | a session key is never a code key |
| Users.UserKeyIsNoCodeKey | user-center-service/src/main/java/com/ravey/ai/user/service/api/impl/UsersServiceImpl.java:214 | a user key is never a code key |
| Users.UserWriteKeepsCodes | user-center-service/src/main/java/com/ravey/ai/user/service/api/impl/UsersServiceImpl.java:214 | caching a user leaves every verification code as it was |
| Users.ResetChecksCodeFirst | user-center-service/src/main/java/com/ravey/ai/user/service/api/impl/UsersServiceImpl.java:183-191 | a rejected code changes nothing; an accepted code is consumed even when no user has the e-mail |
| Users.ResetStoresNewHash | user-center-service/src/main/java/com/ravey/ai/user/service/api/impl/UsersServiceImpl.java:193-194 | a reset stores the hash of the new password in the user's row |
| Text.LastIndexOf | user-center-web/src/main/java/com/ravey/ai/user/web/controller/front/UsersController.java:83 | lastIndexOf: -1 exactly when the character is absent, otherwise an index holding it with none after it |
| Text.ZeroPadded | user-center-web/src/main/java/com/ravey/ai/user/web/controller/front/UsersController.java:87 | zero-padded decimal text: only digits, as long as the width or the number's own digits, whichever is longer |
| Text.ZeroPaddedRoundTrip | user-center-web/src/main/java/com/ravey/ai/user/web/controller/front/UsersController.java:87 | the padded text reads back as the number |
| Text.Pad6 | user-center-service/src/main/java/com/ravey/ai/user/service/component/VerificationCodeService.java:31 | String.format("%06d", n) for n below a million: exactly six digits |
| Text.Pad6RoundTrip | user-center-service/src/main/java/com/ravey/ai/user/service/component/VerificationCodeService.java:31 | the six digits read back as the number |
| Text.Fields | user-center-service/src/main/java/com/ravey/ai/user/service/cache/MemoryCacheService.java:126 | the fields between separators hold no separator and only characters of the text, and a text without separator is one field |
| Text.StripTrailingEmpty | user-center-service/src/main/java/com/ravey/ai/user/service/cache/MemoryCacheService.java:126 | split drops trailing empty fields and nothing else, and leaves no empty field at the end |
| Text.SplitPair | user-center-service/src/main/java/com/ravey/ai/user/service/cache/MemoryCacheService.java:126-127 | splitting "u:a" on ':' gives exactly [u, a] if and only if a is non-empty and holds no ':' |
| Text.NatToString | user-center-api/src/main/java/com/ravey/ai/user/api/constants/CacheConstants.java:118 | the decimal text of a natural number: at least one character, all digits |
| Text.NatToStringRoundTrip | user-center-api/src/main/java/com/ravey/ai/user/api/constants/CacheConstants.java:118 | String.valueOf of a number reads back as the number |
| Text.NatToStringInjective | user-center-api/src/main/java/com/ravey/ai/user/api/constants/CacheConstants.java:118 | distinct numbers render differently |
| Text.IntToStringInjective | user-center-api/src/main/java/com/ravey/ai/user/api/constants/CacheConstants.java:118 | distinct longs, negative ones included, render differently |
| Text.IntToStringChars | user-center-api/src/main/java/com/ravey/ai/user/api/constants/CacheConstants.java:118 | a rendered long holds only digits and an optional leading '-' |
| Entities.LongText | user-center-service/src/main/java/com/ravey/ai/user/service/component/VerificationCodeService.java:56 | string concatenation renders a null Long as "null" |
| Entities.NullableText | user-center-service/src/main/java/com/ravey/ai/user/service/component/VerificationCodeService.java:56 | string concatenation renders a non-null String as itself |
| Context.UserIdOf | user-center-service/src/main/java/com/ravey/ai/user/service/context/UserContext.java:44-47 | getCurrentUserId: null without a current user, otherwise exactly that user's id |
| Context.UserContext.constructor | user-center-service/src/main/java/com/ravey/ai/user/service/context/UserContext.java:16-18 | a fresh context holds no user, token or AppId |
| Context.UserContext.SetCurrentUser | user-center-service/src/main/java/com/ravey/ai/user/service/context/UserContext.java:25-28 | replaces the user and keeps the token and AppId |
| Context.UserContext.GetCurrentUser | user-center-service/src/main/java/com/ravey/ai/user/service/context/UserContext.java:35-37 | answers the current user |
| Context.UserContext.GetCurrentUserId | user-center-service/src/main/java/com/ravey/ai/user/service/context/UserContext.java:44-47 | answers UserIdOf of the context |
| Context.UserContext.SetCurrentToken | user-center-service/src/main/java/com/ravey/ai/user/service/context/UserContext.java:54-57 | replaces the token and keeps the rest |
| Context.UserContext.GetCurrentToken | user-center-service/src/main/java/com/ravey/ai/user/service/context/UserContext.java:64-66 | answers the current token |
| Context.UserContext.SetCurrentAppId | user-center-service/src/main/java/com/ravey/ai/user/service/context/UserContext.java:73-76 | replaces the AppId and keeps the rest |
| Context.UserContext.GetCurrentAppId | user-center-service/src/main/java/com/ravey/ai/user/service/context/UserContext.java:83-85 | answers the current AppId |
| Context.UserContext.IsUserLoggedIn | user-center-service/src/main/java/com/ravey/ai/user/service/context/UserContext.java:92-94 | true if and only if a user is set |
| Context.UserContext.IsCurrentUser | user-center-service/src/main/java/com/ravey/ai/user/service/context/UserContext.java:102-105 | true if and only if the current user id is non-null and equals the given id |
| Context.UserContext.Clear | user-center-service/src/main/java/com/ravey/ai/user/service/context/UserContext.java:111-116 | empties all three values |
| Context.UserContext.GetContextSummary | user-center-service/src/main/java/com/ravey/ai/user/service/context/UserContext.java:123-129 | answers "userId=" and the id, then ", appId=" and the AppId, null rendered as "null" |
| Context.ClearedContextHasNoUser | user-center-service/src/main/java/com/ravey/ai/user/service/context/UserContext.java:111-129 | after clear() no user id is current and the summary reads "userId=null, appId=null" |
| WeChat.Failed | user-center-service/src/main/java/com/ravey/ai/user/service/api/impl/WeChatServiceImpl.java:109-111 | an error answer carries errcode -1, the message, and no openid, session key or unionid |
| WeChat.WxaSettings | user-center-service/src/main/java/com/ravey/ai/user/service/api/impl/WeChatServiceImpl.java:220-223 | the defaults give a positive width, a non-empty env version and autoColor on |
| WeChat.WeChatService.constructor | user-center-service/src/main/java/com/ravey/ai/user/service/api/impl/WeChatServiceImpl.java:36-37 | the service works on the mapper and the cache it is given |
| WeChat.WeChatService.GetAppByAppId | user-center-service/src/main/java/com/ravey/ai/user/service/api/impl/WeChatServiceImpl.java:157-180 | the cache and the answer are those of AppLookup |
| WeChat.WeChatService.GetWeChatSession | user-center-service/src/main/java/com/ravey/ai/user/service/api/impl/WeChatServiceImpl.java:103-149 | the cache and the answer are those of SessionExchange |
| WeChat.WeChatService.GetMiniAppAccessToken | user-center-service/src/main/java/com/ravey/ai/user/service/api/impl/WeChatServiceImpl.java:56-94 | the cache and the answer are those of AccessToken |
| WeChat.WeChatService.GetWxaCodeUnlimited | user-center-service/src/main/java/com/ravey/ai/user/service/api/impl/WeChatServiceImpl.java:199-245 | the cache and the answer are those of WxaCode for the request sent, the scene and page as given and the other settings with their defaults |
| WeChat.AppLookupCacheHit | user-center-service/src/main/java/com/ravey/ai/user/service/api/impl/WeChatServiceImpl.java:159-164 | a cached app is answered from the cache, converted back, with nothing written |
| WeChat.AppLookupCacheMiss | user-center-service/src/main/java/com/ravey/ai/user/service/api/impl/WeChatServiceImpl.java:166-179 | on a miss: no enabled app gives null, two give TooManyResults, one is answered and cached under its AppId |
| WeChat.AppLookupNoneWritesNothing | user-center-service/src/main/java/com/ravey/ai/user/service/api/impl/WeChatServiceImpl.java:173-177 | a failed or empty lookup writes nothing to the cache |
| WeChat.AppLookupWritesOnlyAppInfo | user-center-service/src/main/java/com/ravey/ai/user/service/api/impl/WeChatServiceImpl.java:175 | the lookup changes no key other than the app's own |
| WeChat.UsedCodeRefused | user-center-service/src/main/java/com/ravey/ai/user/service/api/impl/WeChatServiceImpl.java:106-113 | a code marked used is refused with "授权码已使用" before the app or the platform is consulted, and nothing is written |
| WeChat.CodeKeyIsNotAppKey | user-center-service/src/main/java/com/ravey/ai/user/service/api/impl/WeChatServiceImpl.java:139 | a code marker key is never an app key |
| WeChat.UnknownAppLeavesCodeUnmarked | user-center-service/src/main/java/com/ravey/ai/user/service/api/impl/WeChatServiceImpl.java:116-123 | an unknown or disabled app is answered "应用不存在或已禁用" and the code is not marked |
| WeChat.AcceptedCodeIsMarked | user-center-service/src/main/java/com/ravey/ai/user/service/api/impl/WeChatServiceImpl.java:131-140 | a code the platform accepts is answered with its openid, session key and unionid and errcode 0, and is marked used |
| WeChat.RejectedCodeIsNotMarked | user-center-service/src/main/java/com/ravey/ai/user/service/api/impl/WeChatServiceImpl.java:142-147 | when the platform throws, the answer carries the exception's message and the code's marker is unchanged |
| WeChat.ExchangeSuccessMarksCode | user-center-service/src/main/java/com/ravey/ai/user/service/api/impl/WeChatServiceImpl.java:131-140 | every successful exchange came from the platform and left the code marked used |
| WeChat.CodeIsOneShot | user-center-service/src/main/java/com/ravey/ai/user/service/api/impl/WeChatServiceImpl.java:106-139 | after a successful exchange the same code is refused as used |
| WeChat.CachedTokenAnswered | user-center-service/src/main/java/com/ravey/ai/user/service/api/impl/WeChatServiceImpl.java:59-63 | a non-blank cached token is answered as it is, with nothing written |
| WeChat.FetchedReply | user-center-service/src/main/java/com/ravey/ai/user/service/api/impl/WeChatServiceImpl.java:65-88 | past a blank cached token the answer is the fetched token, cached, exactly when the app is found, the platform answers non-blank and caching succeeds; otherwise null |
| WeChat.FetchedTokenCachedOnlyIfNonBlank | user-center-service/src/main/java/com/ravey/ai/user/service/api/impl/WeChatServiceImpl.java:80-88 | a fetched token is answered only when non-blank and then reads back from the cache; a null answer leaves the token key as it was |
| WeChat.WxaDefaults | user-center-service/src/main/java/com/ravey/ai/user/service/api/impl/WeChatServiceImpl.java:220-223 | width defaults to 430 unless positive, env version to "release" unless non-empty, checkPath to true, hyaline to false |
| WeChat.WxaCodeNeedsToken | user-center-service/src/main/java/com/ravey/ai/user/service/api/impl/WeChatServiceImpl.java:201-236 | an image is answered exactly when a non-blank access token was obtained, the app found and the platform made an image for that app and the request sent; the answer is that image |
| WeChat.JoinUrlOneSlash | user-center-service/src/main/java/com/ravey/ai/user/service/api/impl/WeChatServiceImpl.java:247-251 | joinUrl puts exactly one '/' between a base and a path, whether each came with its slash or not |
| WeChat.JoinUrlEdges | user-center-service/src/main/java/com/ravey/ai/user/service/api/impl/WeChatServiceImpl.java:247-251 | null parts become empty, and only one slash is trimmed from each side |
| Auth.Validated | user-center-service/src/main/java/com/ravey/ai/user/service/api/impl/AuthServiceImpl.java:316-322 | validateAndGetApp: the app when found, APP_NOT_FOUND when not, and a lookup failure passes through |
| Auth.AuthService.constructor | user-center-service/src/main/java/com/ravey/ai/user/service/api/impl/AuthServiceImpl.java:60-72 | the service works on the mappers, the cache and the WeChat service it is given |
| Auth.AuthService.GetAppByAppId | user-center-service/src/main/java/com/ravey/ai/user/service/api/impl/AuthServiceImpl.java:512-533 | the cache and the answer are those of AppLookup |
| Auth.AuthService.ValidateAndGetApp | user-center-service/src/main/java/com/ravey/ai/user/service/api/impl/AuthServiceImpl.java:316-322 | the cache is AppLookup's and the answer is Validated of its answer |
| Auth.AuthService.CreateAndCacheUserSession | user-center-service/src/main/java/com/ravey/ai/user/service/api/impl/AuthServiceImpl.java:334-346 | the tables, the cache and the completion are those of SessionCreated |
| Auth.AuthService.UpdateUserAppUnionId | user-center-service/src/main/java/com/ravey/ai/user/service/api/impl/AuthServiceImpl.java:460-466 | the tables become UnionidRefreshed's |
| Auth.AuthService.UpdateUserInfo | user-center-service/src/main/java/com/ravey/ai/user/service/api/impl/AuthServiceImpl.java:471-492 | the user becomes Refreshed's and the tables ProfileRefreshed's |
| Auth.AuthService.FindUserByUnionid | user-center-service/src/main/java/com/ravey/ai/user/service/api/impl/AuthServiceImpl.java:411-424 | answers UserByUnionid |
| Auth.AuthService.FindOrCreateUser | user-center-service/src/main/java/com/ravey/ai/user/service/api/impl/AuthServiceImpl.java:367-394 | the tables and the answer are those of FoundOrCreated |
| Auth.AuthService.Decrypt | user-center-service/src/main/java/com/ravey/ai/user/service/api/impl/AuthServiceImpl.java:84-114 | the session and the hint become those of Decrypted |
| Auth.AuthService.RunLoginSteps | user-center-service/src/main/java/com/ravey/ai/user/service/api/impl/AuthServiceImpl.java:79-132 | the tables, the cache and the answer are those of LoginSteps |
| Auth.AuthService.MiniProgramLogin | user-center-service/src/main/java/com/ravey/ai/user/service/api/impl/AuthServiceImpl.java:74-138 | the tables, the cache and the answer are those of ProgramLogin |
| Auth.AuthService.GenerateQr | user-center-service/src/main/java/com/ravey/ai/user/service/api/impl/AuthServiceImpl.java:140-159 | the tables, the cache and the answer are those of QrGenerated |
| Auth.AuthService.CheckQr | user-center-service/src/main/java/com/ravey/ai/user/service/api/impl/AuthServiceImpl.java:161-196 | the tables and the answer are those of QrChecked |
| Auth.AuthService.Claim | user-center-service/src/main/java/com/ravey/ai/user/service/api/impl/AuthServiceImpl.java:201-220 | the tables and the answer are those of QrClaimed |
| Auth.AuthService.ScanQr | user-center-service/src/main/java/com/ravey/ai/user/service/api/impl/AuthServiceImpl.java:198-221 | the tables and the completion are those of QrScanned |
| Auth.AuthService.ConfirmQr | user-center-service/src/main/java/com/ravey/ai/user/service/api/impl/AuthServiceImpl.java:223-254 | the tables, the cache and the completion are those of QrConfirmed |
| Auth.AuthService.RunConfirmSteps | user-center-service/src/main/java/com/ravey/ai/user/service/api/impl/AuthServiceImpl.java:226-253 | the tables, the cache and the completion are those of ConfirmSteps |
| Auth.AuthService.GetImage | user-center-service/src/main/java/com/ravey/ai/user/service/api/impl/AuthServiceImpl.java:274-283 | the cache and the image are those of WxaImage: the cached image, or the one WeChat makes for the record's QR code id as scene |
| Auth.AuthService.GenerateWxaCode | user-center-service/src/main/java/com/ravey/ai/user/service/api/impl/AuthServiceImpl.java:256-297 | the tables, the cache and the answer are those of WxaCodeGenerated |
| Auth.AppLookupAgreesWithWeChat | user-center-service/src/main/java/com/ravey/ai/user/service/api/impl/AuthServiceImpl.java:512-533 | the login service finds the same app as the WeChat service, except that a cached app lacks its description |
| Auth.AppCachedWithoutDescription | user-center-service/src/main/java/com/ravey/ai/user/service/api/impl/AuthServiceImpl.java:527-559 | an app found in the table is cached without its description |
| Auth.QrGeneratedEffect | user-center-service/src/main/java/com/ravey/ai/user/service/api/impl/AuthServiceImpl.java:142-158 | without an app it fails with APP_NOT_FOUND and writes no record; otherwise one pending record of the app, expiring in five minutes, is appended and the code's content answered |
| Auth.GenerateThenCheck | user-center-service/src/main/java/com/ravey/ai/user/service/api/impl/AuthServiceImpl.java:142-180 | a fresh code reads as pending until it expires, and the check writes nothing |
| Auth.CheckUnknownCode | user-center-service/src/main/java/com/ravey/ai/user/service/api/impl/AuthServiceImpl.java:170-173 | an unknown code reads as expired and nothing is written |
| Auth.CheckMarksExpiry | user-center-service/src/main/java/com/ravey/ai/user/service/api/impl/AuthServiceImpl.java:175-178 | a record past its expiry time is marked expired and the mark stays; a record without an expiry time is never marked |
| Auth.CheckHandsOverOnlyWhenConfirmed | user-center-service/src/main/java/com/ravey/ai/user/service/api/impl/AuthServiceImpl.java:180-194 | a token or a user is handed over only for a confirmed record, and the token is the one under the code's QR key |
| Auth.ScanOutcomes | user-center-service/src/main/java/com/ravey/ai/user/service/api/impl/AuthServiceImpl.java:200-221 | unknown code, expired code and no user fail in that order with the tables restored; otherwise the record becomes the user's and scanned, whatever its status was |
| Auth.SessionCreatedRow | user-center-service/src/main/java/com/ravey/ai/user/service/api/impl/AuthServiceImpl.java:497-506 | exactly one session row, expiring a day after now, is appended whatever the cache does |
| Auth.SessionCreatedCache | user-center-service/src/main/java/com/ravey/ai/user/service/api/impl/AuthServiceImpl.java:336-345 | when the session step succeeds the token leads to the user id in the cache |
| Auth.ConfirmFailures | user-center-service/src/main/java/com/ravey/ai/user/service/api/impl/AuthServiceImpl.java:226-250 | the three checks of scanQr, then APP_DISABLED for a missing app; every failure leaves the tables as they were |
| Auth.ConfirmSuccess | user-center-service/src/main/java/com/ravey/ai/user/service/api/impl/AuthServiceImpl.java:243-252 | a confirmation, with or without an earlier scan, confirms the record for the user and appends a one-day session in the record's app, and nothing else in the tables changes |
| Auth.ConfirmLeavesToken | user-center-service/src/main/java/com/ravey/ai/user/service/api/impl/AuthServiceImpl.java:253 | a successful confirmation leaves its token under the code's QR key |
| Auth.ClaimedRecordIsFound | user-center-service/src/main/java/com/ravey/ai/user/service/api/impl/AuthServiceImpl.java:218-220 | with ids unique, the claimed record is the one the code finds afterwards |
| Auth.ScanThenCheck | user-center-service/src/main/java/com/ravey/ai/user/service/api/impl/AuthServiceImpl.java:180 | after a scan the code reads as scanned until it expires and nothing is handed over |
| Auth.ConfirmThenCheck | user-center-service/src/main/java/com/ravey/ai/user/service/api/impl/AuthServiceImpl.java:181-193 | after a confirmation checkQr hands the token and the user's profile to the page until the code expires |
| Auth.OpenidLinkWins | user-center-service/src/main/java/com/ravey/ai/user/service/api/impl/AuthServiceImpl.java:369-377 | an active link of the app and openid decides the user and inserts no row; a link whose user is gone is a NullPointerException; two such links are TooManyResults with nothing written |
| Auth.UnionidReused | user-center-service/src/main/java/com/ravey/ai/user/service/api/impl/AuthServiceImpl.java:380-388 | without an openid link the user of an active link with the same non-blank unionid is reused and linked |
| Auth.NewUserCreated | user-center-service/src/main/java/com/ravey/ai/user/service/api/impl/AuthServiceImpl.java:382-388 | otherwise a new enabled user seeded from the hint is inserted with one active link carrying both WeChat ids |
| Auth.UserStillFound | user-center-service/src/main/java/com/ravey/ai/user/service/api/impl/AuthServiceImpl.java:489 | updateById keeps ids, so a user found by id is still found afterwards |
| Auth.FirstLoginLinks | user-center-service/src/main/java/com/ravey/ai/user/service/api/impl/AuthServiceImpl.java:367-394 | a first login of an app and openid leaves exactly one active link for them, to a stored user with the answered id |
| Auth.ReusedUserLinked | user-center-service/src/main/java/com/ravey/ai/user/service/api/impl/AuthServiceImpl.java:380-388 | when the unionid finds a user, the new link is the only active one for the app and openid and leads to that stored user |
| Auth.CreatedUserLinked | user-center-service/src/main/java/com/ravey/ai/user/service/api/impl/AuthServiceImpl.java:382-388 | when a user is created, the new link is the only active one for the app and openid and leads to the new stored user |
| Auth.SecondLoginReusesAccount | user-center-service/src/main/java/com/ravey/ai/user/service/api/impl/AuthServiceImpl.java:367-377 | logging in twice with the same app and openid gives the same account and inserts nothing the second time |
| Auth.RefreshedFields | user-center-service/src/main/java/com/ravey/ai/user/service/api/impl/AuthServiceImpl.java:471-487 | a hint field replaces the user's exactly when it is non-blank, and nothing else about the user changes |
| Auth.RefreshIdempotent | user-center-service/src/main/java/com/ravey/ai/user/service/api/impl/AuthServiceImpl.java:471-492 | refreshing never blanks a field, and refreshing twice is refreshing once, the second time without a write |
| Auth.UnionidRefreshedEffect | user-center-service/src/main/java/com/ravey/ai/user/service/api/impl/AuthServiceImpl.java:460-466 | a link's unionid is written only with a non-blank differing value, and only the links change |
| Auth.DecryptOnlyFillsBlanks | user-center-service/src/main/java/com/ravey/ai/user/service/api/impl/AuthServiceImpl.java:84-114 | decryption keeps the openid and a non-blank unionid, fills only blank hint fields, and a failed decryption changes nothing |
| Auth.LoginFailureIsUniform | user-center-service/src/main/java/com/ravey/ai/user/service/api/impl/AuthServiceImpl.java:134-137 | every failure of miniProgramLogin is WECHAT_LOGIN_FAILED with the tables as they were |
| Auth.LoginSuccess | user-center-service/src/main/java/com/ravey/ai/user/service/api/impl/AuthServiceImpl.java:79-132 | a login succeeds only after an accepted exchange and an enabled app, and answers the token and the found or created user, with one new one-day session row leading to that user |
| Auth.AppLookupKeepsOthers | user-center-service/src/main/java/com/ravey/ai/user/service/api/impl/AuthServiceImpl.java:527-530 | the lookup writes at most the app-info entry |
| Auth.SessionCreatedKeepsCodes | user-center-service/src/main/java/com/ravey/ai/user/service/api/impl/AuthServiceImpl.java:334-346 | opening a session writes no code marker |
| Auth.LoginMarksCode | user-center-service/src/main/java/com/ravey/ai/user/service/api/impl/AuthServiceImpl.java:81 | a successful login leaves its code marked used |
| Auth.LoginCodeIsSingleUse | user-center-service/src/main/java/com/ravey/ai/user/service/api/impl/AuthServiceImpl.java:76-137 | once a login succeeds, the same request fails, whatever the platform answers, and writes nothing |
| Auth.MarkKeepsWellFormed | user-center-service/src/main/java/com/ravey/ai/user/service/api/impl/AuthServiceImpl.java:175-177 | marking a record expired keeps every status one of the four and every confirmed record naming its user |
| Auth.ClaimKeepsWellFormed | user-center-service/src/main/java/com/ravey/ai/user/service/api/impl/AuthServiceImpl.java:218-220 | a claim keeps the records well formed |
| Auth.GenerateKeepsWellFormed | user-center-service/src/main/java/com/ravey/ai/user/service/api/impl/AuthServiceImpl.java:144-152 | generateQr keeps the records well formed |
| Auth.CheckKeepsWellFormed | user-center-service/src/main/java/com/ravey/ai/user/service/api/impl/AuthServiceImpl.java:175-178 | checkQr keeps the records well formed |
| Auth.ScanKeepsWellFormed | user-center-service/src/main/java/com/ravey/ai/user/service/api/impl/AuthServiceImpl.java:218-220 | scanQr keeps the records well formed |
| Auth.ConfirmKeepsWellFormed | user-center-service/src/main/java/com/ravey/ai/user/service/api/impl/AuthServiceImpl.java:243-245 | confirmQr keeps the records well formed |
| Auth.WxaCodeWritesOnlyExpiryMark | user-center-service/src/main/java/com/ravey/ai/user/service/api/impl/AuthServiceImpl.java:256-297 | generateWxaCode writes to the tables at most the expiry mark of an expired record, and then fails with QR_CODE_EXPIRED |
| Auth.WxaCodeKeepsWellFormed | user-center-service/src/main/java/com/ravey/ai/user/service/api/impl/AuthServiceImpl.java:268-271 | generateWxaCode keeps the records well formed |
| Auth.WxaCodeImage | user-center-service/src/main/java/com/ravey/ai/user/service/api/impl/AuthServiceImpl.java:260-296 | a successful generateWxaCode answers, with the live record's id and expiry time, a non-empty image that is the one cached under the QR key or else one the platform made for a request whose scene is the QR code id; the image is cached under that key afterwards |
| TokenFilter.MiniAppTokenFilter.constructor | user-center-web/src/main/java/com/ravey/ai/user/web/filter/MiniAppTokenFilter.java:37-40 | the filter works on the cache, the user service and the context it is given |
| TokenFilter.MiniAppTokenFilter.GetUserInfo | user-center-web/src/main/java/com/ravey/ai/user/web/filter/MiniAppTokenFilter.java:195-216 | the cache and the answer are those of UserInfoLookup |
| TokenFilter.MiniAppTokenFilter.DoFilter | user-center-web/src/main/java/com/ravey/ai/user/web/filter/MiniAppTokenFilter.java:66-144 | what reaches the chain, the error answered and the cache are those of Filter, and the context is cleared afterwards |
| TokenFilter.MiniAppTokenFilter.Authenticate | user-center-web/src/main/java/com/ravey/ai/user/web/filter/MiniAppTokenFilter.java:72-139 | the try block and its catch: what reaches the chain, the error and the cache are those of Filter |
| TokenFilter.MiniAppTokenFilter.RunChain | user-center-web/src/main/java/com/ravey/ai/user/web/filter/MiniAppTokenFilter.java:135 | the chain runs with the current context; an exception from it is answered 500 |
| TokenFilter.ExclusionIsByPrefix | user-center-web/src/main/java/com/ravey/ai/user/web/filter/MiniAppTokenFilter.java:157-159 | exclusion is by prefix: whatever extends an excluded path is excluded too |
| TokenFilter.ExcludedExamples | user-center-web/src/main/java/com/ravey/ai/user/web/filter/MiniAppTokenFilter.java:53 | "/healthz" and "/front/auth/qr/checkout" are served without a token |
| TokenFilter.ScanNeedsToken | user-center-web/src/main/java/com/ravey/ai/user/web/filter/MiniAppTokenFilter.java:45-58 | scanning a QR code needs a token |
| TokenFilter.ConfirmNeedsToken | user-center-web/src/main/java/com/ravey/ai/user/web/filter/MiniAppTokenFilter.java:45-58 | confirming a QR code needs a token |
| TokenFilter.TokenPrecedence | user-center-web/src/main/java/com/ravey/ai/user/web/filter/MiniAppTokenFilter.java:167-187 | the token comes from a "Bearer " header, else a non-blank token header, else a non-blank token parameter, else none |
| TokenFilter.BlankTokenOnlyFromBearer | user-center-web/src/main/java/com/ravey/ai/user/web/filter/MiniAppTokenFilter.java:167-187 | a blank token can only come from a blank-tailed Bearer header; no token means neither fallback has text |
| TokenFilter.BareBearerHidesTokenHeader | user-center-web/src/main/java/com/ravey/ai/user/web/filter/MiniAppTokenFilter.java:84-88 | a bare "Bearer " header hides a good token header and the request is refused for a missing token |
| TokenFilter.ClaimOutcomes | user-center-web/src/main/java/com/ravey/ai/user/web/filter/MiniAppTokenFilter.java:84-104 | the token checks pass exactly for a non-blank valid token with a userId claim, and a refusal is 500 exactly when the JWT library threw |
| TokenFilter.AdmissionOutcomes | user-center-web/src/main/java/com/ravey/ai/user/web/filter/MiniAppTokenFilter.java:106-120 | the session and user checks pass exactly when the token's session names the claimed user and the user is found; a refusal is 500 exactly when the session read failed |
| TokenFilter.ForwardedIff | user-center-web/src/main/java/com/ravey/ai/user/web/filter/MiniAppTokenFilter.java:84-135 | a protected request reaches the chain exactly when every check passes and the appId claim can be read, and then runs with that user, the token and the token's AppId when non-blank |
| TokenFilter.ExcludedPassesUntouched | user-center-web/src/main/java/com/ravey/ai/user/web/filter/MiniAppTokenFilter.java:77-80 | an excluded request reaches the chain with the same context and cache, whatever its token |
| TokenFilter.RefusalStatus | user-center-web/src/main/java/com/ravey/ai/user/web/filter/MiniAppTokenFilter.java:84-139 | a request that does not reach the chain is answered 401 or 500, and the only write is caching the claimed user's profile |
| TokenFilter.RemovedSessionRefused | user-center-web/src/main/java/com/ravey/ai/user/web/filter/MiniAppTokenFilter.java:107-111 | a token whose session was removed is refused, even while the JWT is still valid |
| TokenFilter.OtherUsersSessionRefused | user-center-web/src/main/java/com/ravey/ai/user/web/filter/MiniAppTokenFilter.java:108 | a session naming another user does not let the token through |
| TokenFilter.LookupCacheFirst | user-center-web/src/main/java/com/ravey/ai/user/web/filter/MiniAppTokenFilter.java:195-216 | a cached profile is answered with no database read or write, and a user not found is never cached |
| TokenFilter.LookupThenHit | user-center-web/src/main/java/com/ravey/ai/user/web/filter/MiniAppTokenFilter.java:195-216 | a profile loaded from the table carries the id asked for and is cached, so the next lookup hits with the same answer |
| Controller.YearText | user-center-web/src/main/java/com/ravey/ai/user/web/controller/front/UsersController.java:87 | the "yyyy" field of a year of the current era is at least two characters |
| Controller.AnonymousRefused | user-center-web/src/main/java/com/ravey/ai/user/web/controller/front/UsersController.java:54-57 | without a current user both endpoints refuse with "未登录" and write nothing, and that is the only case they answer it |
| Controller.CurrentUserIsStoredProfile | user-center-web/src/main/java/com/ravey/ai/user/web/controller/front/UsersController.java:51-60 | getCurrentUser answers the profile stored now under the context user's id, null when that row is gone |
| Controller.UpdateActsOnCurrentUser | user-center-web/src/main/java/com/ravey/ai/user/web/controller/front/UsersController.java:62-70 | updateUserInfo edits the context user's row: it fails only for a user without id or row, leaving the tables; a success changes only the users table and only rows carrying that id, and answers the user as the first row with the id now reads |
| Controller.ExtensionIsLastDotSuffix | user-center-web/src/main/java/com/ravey/ai/user/web/controller/front/UsersController.java:81-84 | the extension starts with its only '.', is the tail of the original name from its last '.', and is ".jpg" when the name has no '.' |
| Controller.YearTextRoundTrip | user-center-web/src/main/java/com/ravey/ai/user/web/controller/front/UsersController.java:87 | the year field reads back as the year: four digits up to 9999, a '+' and the digits beyond |
| Controller.DatePathRoundTrip | user-center-web/src/main/java/com/ravey/ai/user/web/controller/front/UsersController.java:87 | the date directories read back as the year, the two-digit month and the two-digit day |
| Controller.DatePathInjective | user-center-web/src/main/java/com/ravey/ai/user/web/controller/front/UsersController.java:87 | different days give different directories |
| Controller.DatePathHasNoDot | user-center-web/src/main/java/com/ravey/ai/user/web/controller/front/UsersController.java:87 | the date directories hold no '.' |
| Controller.AvatarNameHasSingleDot | user-center-web/src/main/java/com/ravey/ai/user/web/controller/front/UsersController.java:88 | an avatar name lies under "user-center/avatars/", ends with the extension, and its only '.' starts the extension right after the UUID |
| Controller.UrlNamesStoredObject | user-center-web/src/main/java/com/ravey/ai/user/web/controller/front/UsersController.java:95 | the URL is the domain, a '/' and the stored object's name |
| Controller.UploadOutcomes | user-center-web/src/main/java/com/ravey/ai/user/web/controller/front/UsersController.java:72-102 | an empty file is refused before anything is stored; otherwise the answer is the stored object's URL, an IOException becomes "文件上传失败: " with its message, and other exceptions pass through |

## Left out

- JWT signing and parsing: `JwtUtils` is not part of this model. The filter receives the token's validity, userId claim and appId claim as answers that may throw, and the services are given the token `generateToken` would return. `JwtUtils` declares `generateToken(Long userId, Long appId)` (JwtUtils.java:45) and `Long getAppIdFromToken` (JwtUtils.java:133), but its callers pass a String AppId (AuthServiceImpl.java:327-328, UsersServiceImpl.java:203) and read the claim back as a String (MiniAppTokenFilter.java:127). The model follows the callers: the appId claim is an optional String.
- WeChat platform calls: the `WxMaService` SDK (code-to-session, access tokens, unlimited QR codes) is an oracle. Its answers, or the exception it throws, are parameters.
- `decryptUserInfo`: the AES decryption of the encrypted profile is left out. Its decoded openid, unionid, nickname and avatar are inputs, as is any failure.
- File I/O: the temporary file that the QR image is read from and deleted from is not modelled.
- Password hashing: `DigestUtils.md5DigestAsHex` is an uninterpreted function `hash`. The model proves nothing about collisions.
- Base64 encoding of the QR image: `WxaCodeRes.image` holds the raw bytes that `generateWxaCode` would encode.
- `String.valueOf(byte[])`: when a byte array is read as an access token, its Java text (type and identity hash) is the parameter `arrayText`.
- External services: `MailService` (sending the code e-mail) and the OSS client are not part of this model. The upload is an answer: stored, an IOException with its message, or another exception.
- Randomness and identifiers: `UUID.randomUUID`, new row ids (`IdWorker` and auto-increment), `Random.nextInt` and the clock are parameters. `LocalDateTime` is epoch milliseconds in UTC.
- Concurrency: the thread-local fields of `UserContext`, `ConcurrentHashMap`, and the interleaving of concurrent requests on Redis are out of scope. This includes the non-atomic check-then-mark of a WeChat code. Each call is modelled as one step on a state it owns.
- Redis expiry: expiry is modelled only as entries aging by whole seconds (`RedisCache.Aged`). Eviction policies and persistence are left out.
- Apps.AppList: `AppRes` also has `createTime` and `updateTime` (AppRes.java:44-49), which `BeanUtils.copyProperties` copies from the app (AppsServiceImpl.java:59-64); the model's apps carry no timestamps, so the answers omit them.
- CacheConstants.FormatKeySpec: a group reference `$1`..`$9` in a parameter that reaches a placeholder ends in the same failure as any other invalid replacement; Java throws `IndexOutOfBoundsException` ("No group n") there rather than `IllegalArgumentException`, a difference no caller observes.
- RedisCache.CacheService.Expire: takes the timeout in seconds; the `TimeUnit` argument of `expire(key, timeout, unit)` (CacheService.java:221) is not modelled; no class of the core calls it.
- ResultVo: the code and the message of a `Result` are never null in the model; Java would allow a null `Integer` code or `String` message through the setters.
- Undefined cache methods: `CacheService.set`/`get` and the QR token and image methods that `AuthServiceImpl` and `VerificationCodeService` call are not defined in the `CacheService.java` shown. They are modelled as plain writes and reads under the `qr:token:{}` template and the verification-code key.
- Error response body: `writeErrorResponse`'s JSON body is reduced to its status and message. The rest of the servlet chain is an input that answers normally or throws.
- Logging: all log statements are omitted; they change no state.
- Plumbing code: controllers other than `UsersController`, configuration classes, mapper interfaces and DTO classes are represented only as the data they carry.
- Users.UsersService.GetById: the catch block that rewraps an exception as "获取用户信息失败: " (UsersServiceImpl.java:68-71) is not modelled, because the modelled `selectById` never throws.
- Controller.DatePath: requires a year from 1 to 999999999 and a month from 1 to 12, but lets the day run from 1 to 31 in every month. `LocalDate.now()` gives only real dates. The same precondition is on Controller.AvatarFileName, Controller.UploadAvatar and the lemmas about them.

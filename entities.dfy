/**
 * Records of the user centre: the five stored tables, the transfer objects
 * the services exchange, and the typed values the caches hold. A Java field
 * that may be null is an Option; a Long or LocalDateTime is an int (times
 * are epoch milliseconds).
 */
module Entities {
  import opened Wrappers
  import opened Text
  import ErrorCodes

  // ---------------------------------------------------------------------
  // Stored tables

  datatype User = User(
    id: Option<int>,
    nickname: Option<string>,
    email: Option<string>,
    password: Option<string>,
    avatarUrl: Option<string>,
    status: Option<int>)

  /** A user's link to one mini program: the app's numeric id and the
      WeChat identities of the user in it. */
  datatype UserApp = UserApp(
    id: Option<int>,
    userId: Option<int>,
    appId: Option<int>,
    openid: Option<string>,
    unionid: Option<string>,
    status: Option<int>)

  /** A registered mini program; appId is its WeChat AppId. */
  datatype App = App(
    id: Option<int>,
    appName: Option<string>,
    appId: Option<string>,
    appSecret: Option<string>,
    description: Option<string>,
    status: Option<int>)

  datatype QrLoginRecord = QrLoginRecord(
    id: Option<int>,
    qrcodeId: Option<string>,
    appId: Option<int>,
    userId: Option<int>,
    openid: Option<string>,
    status: Option<int>,
    expireTime: Option<int>)

  datatype UserSession = UserSession(
    id: Option<int>,
    userId: Option<int>,
    appId: Option<int>,
    sessionToken: Option<string>,
    loginIp: Option<string>,
    userAgent: Option<string>,
    expireTime: Option<int>)

  /** QR record states. */
  const QR_PENDING: int := 0
  const QR_SCANNED: int := 1
  const QR_CONFIRMED: int := 2
  const QR_EXPIRED: int := 3

  /** The status of enabled users, links and apps. */
  const ACTIVE: int := 1

  // ---------------------------------------------------------------------
  // Transfer objects

  datatype UsersDto = UsersDto(
    id: Option<int>,
    username: Option<string>,
    nickname: Option<string>,
    avatar: Option<string>,
    phone: Option<string>,
    email: Option<string>,
    status: Option<int>)

  datatype AppsDto = AppsDto(
    id: Option<int>,
    appId: Option<string>,
    appName: Option<string>,
    appSecret: Option<string>,
    description: Option<string>,
    status: Option<int>)

  /** What the WeChat code exchange reports; errcode 0 is success. */
  datatype WeChatSession = WeChatSession(
    openid: Option<string>,
    sessionKey: Option<string>,
    unionid: Option<string>,
    errcode: Option<int>,
    errmsg: Option<string>)

  /** The profile hint a mini program sends with its login. */
  datatype ProfileHint = ProfileHint(nickname: Option<string>, avatarUrl: Option<string>)

  /** The user summary of a mini-program login or a QR check. */
  datatype UserSummary = UserSummary(id: Option<int>, nickname: Option<string>, avatarUrl: Option<string>)

  datatype MiniProgramLoginRes = MiniProgramLoginRes(token: Option<string>, userInfo: Option<UserSummary>)

  datatype QrGenerateRes = QrGenerateRes(qrcodeId: string, expireAt: int, qrContent: string)

  datatype QrCheckRes = QrCheckRes(status: Option<int>, token: Option<string>, userInfo: Option<UserSummary>)

  datatype WxaCodeRes = WxaCodeRes(qrcodeId: Option<string>, expireAt: Option<int>, image: seq<Byte>)

  /** The user summary of an e-mail login. */
  datatype LoginUserInfo = LoginUserInfo(
    id: Option<int>, nickname: Option<string>, avatarUrl: Option<string>, email: Option<string>)

  datatype LoginRes = LoginRes(token: string, expiresIn: int, userInfo: LoginUserInfo)

  datatype AppRes = AppRes(
    id: Option<int>,
    appName: Option<string>,
    appId: Option<string>,
    description: Option<string>,
    status: Option<int>)

  datatype AppListRes = AppListRes(list: seq<AppRes>, total: int)

  newtype Byte = x: int | 0 <= x < 256

  // ---------------------------------------------------------------------
  // Failures

  /** Why an operation threw: a ServiceException with an error code, a
      RuntimeException with a message, or one of the unchecked exceptions
      the framework raises. */
  datatype Fault =
    | Service(code: ErrorCodes.UserErrorCode)
    | Runtime(message: string)
    | IllegalArgument     // formatKey with an invalid replacement
    | TooManyResults      // selectOne matched more than one row
    | NullPointer         // a method called on a null reference
    | External            // a call into WeChat, the mail server or the JWT library threw

  /** How a state-changing call ended: normally, or by throwing. */
  datatype Completion = Normal | Abrupt(fault: Fault)

  /** The completion of a call whose effect is r. */
  function CompletionOf<S>(r: Result<S, Fault>): (c: Completion)
    ensures c.Normal? <==> r.Ok?
  {
    match r
    case Ok(_) => Normal
    case Err(f) => Abrupt(f)
  }

  /** The state after a call whose effect is r: a call that throws leaves
      the state it started from. */
  function StateAfter<S>(before: S, r: Result<S, Fault>): (s: S)
    ensures r.Ok? ==> s == r.value
    ensures r.Err? ==> s == before
  {
    match r
    case Ok(v) => v
    case Err(_) => before
  }

  // ---------------------------------------------------------------------
  // Cache values

  /** The objects the caches hold, told apart by instanceof. */
  datatype CacheValue =
    | TextValue(text: string)
    | NumberValue(number: int)
    | FlagValue(flag: bool)
    | AppValue(app: AppsDto)
    | UserValue(user: UsersDto)
    | BytesValue(bytes: seq<Byte>)

  /** String.valueOf of a nullable Long. */
  function LongText(n: Option<int>): (r: string)
    ensures n.None? ==> r == "null"
  {
    match n
    case None => "null"
    case Some(v) => IntToString(v)
  }

  /** String.valueOf of a nullable String. */
  function NullableText(s: Option<string>): (r: string)
    ensures s.Some? ==> r == s.value
  {
    match s
    case None => "null"
    case Some(v) => v
  }

  // ---------------------------------------------------------------------
  // instanceof views of a cache value

  function AsText(v: Option<CacheValue>): Option<string> {
    if v.Some? && v.value.TextValue? then Some(v.value.text) else None
  }

  function AsApp(v: Option<CacheValue>): Option<AppsDto> {
    if v.Some? && v.value.AppValue? then Some(v.value.app) else None
  }

  function AsUser(v: Option<CacheValue>): Option<UsersDto> {
    if v.Some? && v.value.UserValue? then Some(v.value.user) else None
  }

  function AsFlag(v: Option<CacheValue>): Option<bool> {
    if v.Some? && v.value.FlagValue? then Some(v.value.flag) else None
  }

  /** instanceof Number, then longValue(). */
  function AsNumber(v: Option<CacheValue>): Option<int> {
    if v.Some? && v.value.NumberValue? then Some(v.value.number) else None
  }

  function AsBytes(v: Option<CacheValue>): Option<seq<Byte>> {
    if v.Some? && v.value.BytesValue? then Some(v.value.bytes) else None
  }

  /** The typed getters: null when the key is absent or holds another type. */
  function TextIn(r: Result<Option<CacheValue>, Fault>): Result<Option<string>, Fault> {
    if r.Err? then Err(r.error) else Ok(AsText(r.value))
  }

  function AppIn(r: Result<Option<CacheValue>, Fault>): Result<Option<AppsDto>, Fault> {
    if r.Err? then Err(r.error) else Ok(AsApp(r.value))
  }

  function UserIn(r: Result<Option<CacheValue>, Fault>): Result<Option<UsersDto>, Fault> {
    if r.Err? then Err(r.error) else Ok(AsUser(r.value))
  }

  function FlagIn(r: Result<Option<CacheValue>, Fault>): Result<Option<bool>, Fault> {
    if r.Err? then Err(r.error) else Ok(AsFlag(r.value))
  }

  function NumberIn(r: Result<Option<CacheValue>, Fault>): Result<Option<int>, Fault> {
    if r.Err? then Err(r.error) else Ok(AsNumber(r.value))
  }

  function BytesIn(r: Result<Option<CacheValue>, Fault>): Result<Option<seq<Byte>>, Fault> {
    if r.Err? then Err(r.error) else Ok(AsBytes(r.value))
  }

  /** A nullable String or Long as the value handed to the cache. */
  function TextOf(s: Option<string>): Option<CacheValue> {
    match s
    case None => None
    case Some(t) => Some(TextValue(t))
  }

  function NumberOf(n: Option<int>): Option<CacheValue> {
    match n
    case None => None
    case Some(v) => Some(NumberValue(v))
  }
}

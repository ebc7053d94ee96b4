/**
 * AuthServiceImpl: mini-program login and the QR-code login of a web page
 * by a logged-in mini-program user.
 *
 * A QR record moves through pending (0), scanned (1), confirmed (2) and
 * expired (3). Expiry is noticed lazily, by comparing the record's expiry
 * time with the clock when the record is next looked at. A mini-program
 * login resolves the WeChat identity to an account: first the active link
 * of the openid in the app, then any active link with the same unionid,
 * then a new user.
 *
 * The WeChat platform, the JWT, the clock (epoch milliseconds), the UUID of
 * a QR code and the ids of new rows are inputs. The current user of a scan
 * or a confirmation is given as the user id UserContext holds (None when no
 * user is logged in or it has no id).
 */
module Auth {
  import opened Wrappers
  import opened Text
  import opened Entities
  import opened Converters
  import opened RedisCache
  import opened Database
  import opened Outcomes
  import WeChat
  import ErrorCodes
  import CacheConstants

  /** The login request of a mini program; the encrypted user data and its
      IV are optional. */
  datatype MiniProgramLoginReq = MiniProgramLoginReq(
    appId: Option<string>, code: Option<string>, encryptedData: Option<string>, iv: Option<string>,
    userInfo: Option<ProfileHint>)

  /** What decrypting the user data yields. */
  datatype WxUserInfo = WxUserInfo(unionId: Option<string>, nickName: Option<string>, avatarUrl: Option<string>)

  datatype WxaCodeReq = WxaCodeReq(
    appId: Option<string>, qrcodeId: Option<string>, page: Option<string>, width: Option<int>,
    envVersion: Option<string>, checkPath: Option<bool>, hyaline: Option<bool>)

  /** A QR code lives five minutes, a mini-program session one day. */
  const QR_LIFETIME := 5 * 60 * 1000
  const SESSION_LIFETIME := 24 * 3600 * 1000
  const QR_CONTENT_PREFIX := "ravey-login://qr?qrcodeId="

  /** LocalDateTime.isBefore(now) of a non-null expiry time. */
  predicate ExpiredAt(q: QrLoginRecord, now: int) {
    q.expireTime.Some? && q.expireTime.value < now
  }

  function Summary(u: User): UserSummary {
    UserSummary(u.id, u.nickname, u.avatarUrl)
  }

  // ---------------------------------------------------------------------
  // getAppByAppId and validateAndGetApp

  /** getAppByAppId: the cached app first; on a miss the enabled app, which
      is then cached. The private converters drop the description. */
  function AppLookup(t: Tables, s: Store, appId: Option<string>): WeChat.Reply<Result<Option<App>, Fault>> {
    match AppIn(Read(s, AppInfoKey(appId)))
    case Err(f) => WeChat.Reply(s, Err(f))
    case Ok(Some(d)) => WeChat.Reply(s, Ok(Some(AuthAppFromDto(d))))
    case Ok(None) =>
      match One(ActiveApps(t.apps, appId))
      case Err(f) => WeChat.Reply(s, Err(f))
      case Ok(None) => WeChat.Reply(s, Ok(None))
      case Ok(Some(a)) =>
        match CacheAppIn(s, Some(AuthAppToDto(a)))
        case Err(f) => WeChat.Reply(s, Err(f))
        case Ok(s') => WeChat.Reply(s', Ok(Some(a)))
  }

  /** validateAndGetApp: no app is APP_NOT_FOUND. */
  function Validated(r: Result<Option<App>, Fault>): (v: Result<App, Fault>)
    ensures v.Ok? <==> r.Ok? && r.value.Some?
    ensures v.Ok? ==> v.value == r.value.value
    ensures r.Err? ==> v == Err(r.error)
    ensures r == Ok(None) ==> v == Err(Service(ErrorCodes.APP_NOT_FOUND))
  {
    match r
    case Err(f) => Err(f)
    case Ok(None) => Err(Service(ErrorCodes.APP_NOT_FOUND))
    case Ok(Some(a)) => Ok(a)
  }

  // ---------------------------------------------------------------------
  // findOrCreateUser and its helpers

  /** updateUserAppUnionId: a non-blank unionid that differs from the
      link's is written into it. */
  function UnionidRefreshed(t: Tables, link: UserApp, unionid: Option<string>): Tables {
    if HasText(unionid) && unionid != link.unionid then t.(userApps := UpdateLinks(t.userApps, link.(unionid := unionid)))
    else t
  }

  /** updateUserInfo on the user object: a hint field replaces the user's
      only when it is non-blank and differs. */
  function Refreshed(u: User, hint: Option<ProfileHint>): User {
    if hint.None? then u
    else
      var h := hint.value;
      u.(nickname := if HasText(h.nickname) && h.nickname != u.nickname then h.nickname else u.nickname,
         avatarUrl := if HasText(h.avatarUrl) && h.avatarUrl != u.avatarUrl then h.avatarUrl else u.avatarUrl)
  }

  /** updateUserInfo on the table: the user is written back only when a
      field changed. */
  function ProfileRefreshed(t: Tables, u: User, hint: Option<ProfileHint>): Tables {
    if Refreshed(u, hint) == u then t else t.(users := UpdateUsers(t.users, Refreshed(u, hint)))
  }

  /** findUserByUnionid: the user of the first active link with a
      non-blank unionid. */
  function UserByUnionid(t: Tables, unionid: Option<string>): Option<User> {
    if !HasText(unionid) then None
    else match First(LinksWithUnionid(t.userApps, unionid))
      case None => None
      case Some(l) => First(UsersWithId(t.users, l.userId))
  }

  /** createNewUser: enabled, seeded from the hint. */
  function CreatedUser(hint: Option<ProfileHint>, userId: int): User {
    User(Some(userId), if hint.Some? then hint.value.nickname else None, None, None,
      if hint.Some? then hint.value.avatarUrl else None, Some(ACTIVE))
  }

  /** createUserAppAssociation: an active link carrying both WeChat ids. */
  function NewLink(userId: Option<int>, appId: Option<int>, w: WeChatSession, linkId: int): UserApp {
    UserApp(Some(linkId), userId, appId, w.openid, w.unionid, Some(ACTIVE))
  }

  /** The user reused by unionid, or a new one, with the tables holding it. */
  function ReusedOrCreated(t: Tables, unionid: Option<string>, hint: Option<ProfileHint>, userId: int): (Tables, User) {
    var found := UserByUnionid(t, unionid);
    if found.Some? then (t, found.value)
    else (t.(users := t.users + [CreatedUser(hint, userId)]), CreatedUser(hint, userId))
  }

  /** findOrCreateUser: the tables afterwards and the user. A link whose user
      is gone ends in a NullPointerException, here or in the caller. */
  function FoundOrCreated(t: Tables, appId: Option<int>, w: WeChatSession, hint: Option<ProfileHint>,
                          userId: int, linkId: int): (Tables, Result<User, Fault>) {
    match One(LinksWithOpenid(t.userApps, appId, w.openid))
    case Err(f) => (t, Err(f))
    case Ok(Some(link)) =>
      var t1 := UnionidRefreshed(t, link, w.unionid);
      var found := First(UsersWithId(t.users, link.userId));
      if found.None? then (t1, Err(NullPointer))
      else (ProfileRefreshed(t1, found.value, hint), Ok(Refreshed(found.value, hint)))
    case Ok(None) =>
      var (t1, u) := ReusedOrCreated(t, w.unionid, hint, userId);
      var t2 := t1.(userApps := t1.userApps + [NewLink(u.id, appId, w, linkId)]);
      (ProfileRefreshed(t2, u, hint), Ok(Refreshed(u, hint)))
  }

  // ---------------------------------------------------------------------
  // createAndCacheUserSession

  function NewSession(userId: Option<int>, appId: Option<int>, token: string, now: int): UserSession {
    UserSession(None, userId, appId, Some(token), None, None, Some(now + SESSION_LIFETIME))
  }

  /** A session row expiring in a day, the token leading to the user id in
      the cache, and the user's profile cached when the user exists. */
  function SessionCreated(t: Tables, s: Store, userId: Option<int>, appId: Option<int>, token: string, now: int,
                          sessionId: int): Outcome<()> {
    var t1 := t.(sessions := t.sessions + [NewSession(userId, appId, token, now).(id := Some(sessionId))]);
    match CacheSessionIn(s, Some(token), userId)
    case Err(f) => Outcome(t1, s, Err(f))
    case Ok(s1) =>
      match First(UsersWithId(t1.users, userId))
      case None => Outcome(t1, s1, Ok(()))
      case Some(u) =>
        match CacheUserIn(s1, Some(UserToDto(u)))
        case Err(f) => Outcome(t1, s1, Err(f))
        case Ok(s2) => Outcome(t1, s2, Ok(()))
  }

  // ---------------------------------------------------------------------
  // miniProgramLogin

  /** The decryption step: tried only when the exchange gave no unionid and
      both the encrypted data and the IV are given. A decrypted unionid
      replaces the session's; a decrypted nickname or avatar fills a blank
      hint field. A failed decryption changes nothing. */
  function Decrypted(w: WeChatSession, req: MiniProgramLoginReq, decrypted: WeChat.Answer<Option<WxUserInfo>>)
    : (WeChatSession, Option<ProfileHint>)
  {
    if HasText(w.unionid) || !HasText(req.encryptedData) || !HasText(req.iv) then (w, req.userInfo)
    else match decrypted
      case Threw(_) => (w, req.userInfo)
      case Answered(None) => (w, req.userInfo)
      case Answered(Some(info)) =>
        var h := if req.userInfo.Some? then req.userInfo.value else ProfileHint(None, None);
        (if HasText(info.unionId) then w.(unionid := info.unionId) else w,
         Some(ProfileHint(
           if !HasText(h.nickname) && HasText(info.nickName) then info.nickName else h.nickname,
           if !HasText(h.avatarUrl) && HasText(info.avatarUrl) then info.avatarUrl else h.avatarUrl)))
  }

  /** getWeChatSession's guard: an answer with a non-zero errcode fails. */
  predicate ExchangeFailed(w: WeChatSession) {
    w.errcode.Some? && w.errcode.value != 0
  }

  /** The body of miniProgramLogin's try block. */
  function LoginSteps(t: Tables, s: Store, req: MiniProgramLoginReq, platform: WeChat.Answer<WeChat.SessionInfo>,
                      decrypted: WeChat.Answer<Option<WxUserInfo>>, token: string, now: int,
                      userId: int, linkId: int, sessionId: int): Outcome<MiniProgramLoginRes> {
    var x := WeChat.SessionExchange(t, s, req.appId, req.code, platform, None);
    if ExchangeFailed(x.value) then Outcome(t, x.store, Err(Service(ErrorCodes.WECHAT_LOGIN_FAILED)))
    else
      var (w, hint) := Decrypted(x.value, req, decrypted);
      var l := AppLookup(t, x.store, req.appId);
      match Validated(l.value)
      case Err(f) => Outcome(t, l.store, Err(f))
      case Ok(app) =>
        var (t1, found) := FoundOrCreated(t, app.id, w, hint, userId, linkId);
        if found.Err? then Outcome(t1, l.store, Err(found.error))
        else
          var c := SessionCreated(t1, l.store, found.value.id, app.id, token, now, sessionId);
          if c.result.Err? then Outcome(c.tables, c.store, Err(c.result.error))
          else Outcome(c.tables, c.store, Ok(MiniProgramLoginRes(Some(token), Some(Summary(found.value)))))
  }

  /** miniProgramLogin: every failure is reported as WECHAT_LOGIN_FAILED
      and rolls the tables back. */
  function ProgramLogin(t: Tables, s: Store, req: MiniProgramLoginReq, platform: WeChat.Answer<WeChat.SessionInfo>,
                            decrypted: WeChat.Answer<Option<WxUserInfo>>, token: string, now: int,
                            userId: int, linkId: int, sessionId: int): Outcome<MiniProgramLoginRes> {
    var o := LoginSteps(t, s, req, platform, decrypted, token, now, userId, linkId, sessionId);
    if o.result.Err? then Outcome(t, o.store, Err(Service(ErrorCodes.WECHAT_LOGIN_FAILED))) else o
  }

  // ---------------------------------------------------------------------
  // The QR login

  /** The record of a QR code: selectOne with "LIMIT 1". */
  function RecordOf(t: Tables, qrcodeId: Option<string>): Option<QrLoginRecord> {
    First(RecordsWithQrcodeId(t.qrRecords, qrcodeId))
  }

  /** The record, marked expired by updateById. */
  function MarkedExpired(t: Tables, q: QrLoginRecord): Tables {
    t.(qrRecords := UpdateRecords(t.qrRecords, q.(status := Some(QR_EXPIRED))))
  }

  function NewRecord(app: App, qrcodeId: string, recordId: int, now: int): QrLoginRecord {
    QrLoginRecord(Some(recordId), Some(qrcodeId), app.id, None, None, Some(QR_PENDING), Some(now + QR_LIFETIME))
  }

  /** generateQr: a pending record for the app, valid five minutes. It fails
      only before writing to the tables. */
  function QrGenerated(t: Tables, s: Store, appId: Option<string>, qrcodeId: string, recordId: int, now: int)
    : Outcome<QrGenerateRes>
  {
    var l := AppLookup(t, s, appId);
    match Validated(l.value)
    case Err(f) => Outcome(t, l.store, Err(f))
    case Ok(app) =>
      Outcome(t.(qrRecords := t.qrRecords + [NewRecord(app, qrcodeId, recordId, now)]), l.store,
        Ok(QrGenerateRes(qrcodeId, now + QR_LIFETIME, QR_CONTENT_PREFIX + qrcodeId)))
  }

  /** checkQr: an unknown code reads as expired; an expired record is marked
      so, and the mark stays; a confirmed record hands over the token and
      the user. */
  function QrChecked(t: Tables, s: Store, qrcodeId: Option<string>, now: int): (Tables, Result<QrCheckRes, Fault>) {
    match RecordOf(t, qrcodeId)
    case None => (t, Ok(QrCheckRes(Some(QR_EXPIRED), None, None)))
    case Some(q0) =>
      var q := if ExpiredAt(q0, now) then q0.(status := Some(QR_EXPIRED)) else q0;
      var t1 := if ExpiredAt(q0, now) then MarkedExpired(t, q0) else t;
      if q.status != Some(QR_CONFIRMED) then (t1, Ok(QrCheckRes(q.status, None, None)))
      else match QrTokenIn(s, q.qrcodeId)
        case Err(f) => (t1, Err(f))
        case Ok(token) =>
          var user := if q.userId.None? then None else First(UsersWithId(t1.users, q.userId));
          (t1, Ok(QrCheckRes(q.status, token, if user.Some? then Some(Summary(user.value)) else None)))
  }

  /** The checks scanQr and confirmQr share, then the record taken by the
      current user with the given status. An expired record is marked so
      before the failure. */
  function QrClaimed(t: Tables, qrcodeId: Option<string>, userId: Option<int>, now: int, status: int)
    : (Tables, Result<QrLoginRecord, Fault>)
  {
    match RecordOf(t, qrcodeId)
    case None => (t, Err(Service(ErrorCodes.QR_CODE_NOT_FOUND)))
    case Some(q) =>
      if ExpiredAt(q, now) then (MarkedExpired(t, q), Err(Service(ErrorCodes.QR_CODE_EXPIRED)))
      else if userId.None? then (t, Err(Service(ErrorCodes.NOT_LOGGED_IN)))
      else
        var q' := q.(userId := userId, status := Some(status));
        (t.(qrRecords := UpdateRecords(t.qrRecords, q')), Ok(q'))
  }

  /** scanQr: the transaction rolls back the expiry mark of a failure. */
  function QrScanned(t: Tables, qrcodeId: Option<string>, userId: Option<int>, now: int): (Tables, Result<(), Fault>) {
    var (t1, r) := QrClaimed(t, qrcodeId, userId, now, QR_SCANNED);
    if r.Err? then (t, Err(r.error)) else (t1, Ok(()))
  }

  /** The steps of confirmQr: the record confirmed, a session for the user
      in the record's app, and the token left for checkQr under the QR key. */
  function ConfirmSteps(t: Tables, s: Store, qrcodeId: Option<string>, userId: Option<int>, now: int,
                        token: string, sessionId: int): Outcome<()> {
    var (t1, r) := QrClaimed(t, qrcodeId, userId, now, QR_CONFIRMED);
    if r.Err? then Outcome(t1, s, Err(r.error))
    else match First(AppsWithId(t1.apps, r.value.appId))
      case None => Outcome(t1, s, Err(Service(ErrorCodes.APP_DISABLED)))
      case Some(app) =>
        var c := SessionCreated(t1, s, userId, app.id, token, now, sessionId);
        if c.result.Err? then c
        else match CacheQrTokenIn(c.store, r.value.qrcodeId, Some(token))
          case Err(f) => Outcome(c.tables, c.store, Err(f))
          case Ok(s') => Outcome(c.tables, s', Ok(()))
  }

  /** confirmQr: the steps, with the tables rolled back on failure. */
  function QrConfirmed(t: Tables, s: Store, qrcodeId: Option<string>, userId: Option<int>, now: int,
                       token: string, sessionId: int): Outcome<()> {
    Transactional(t, ConfirmSteps(t, s, qrcodeId, userId, now, token, sessionId))
  }

  /** The image of generateWxaCode: the cached one, or one asked of WeChat. */
  function WxaImage(t: Tables, s: Store, app: App, req: WxaCodeReq, cached: Option<seq<Byte>>, arrayText: string,
                    fetched: WeChat.Answer<Option<string>>, image: WeChat.WxaPlatform): WeChat.Reply<Option<seq<Byte>>> {
    if cached.Some? then WeChat.Reply(s, cached)
    else WeChat.WxaCode(t, s, app.appId,
      WeChat.WxaSettings(req.qrcodeId, req.page, req.width, req.envVersion, req.checkPath, req.hyaline),
      arrayText, fetched, image)
  }

  /** generateWxaCode: the mini-program code of a live QR record, cached
      under the record's QR key. Not transactional: an expiry mark stays. */
  function WxaCodeGenerated(t: Tables, s: Store, req: WxaCodeReq, now: int, arrayText: string,
                            fetched: WeChat.Answer<Option<string>>, image: WeChat.WxaPlatform): Outcome<WxaCodeRes> {
    var l := AppLookup(t, s, req.appId);
    match Validated(l.value)
    case Err(f) => Outcome(t, l.store, Err(f))
    case Ok(app) =>
      match RecordOf(t, req.qrcodeId)
      case None => Outcome(t, l.store, Err(Service(ErrorCodes.QR_CODE_NOT_FOUND)))
      case Some(q) =>
        if ExpiredAt(q, now) then Outcome(MarkedExpired(t, q), l.store, Err(Service(ErrorCodes.QR_CODE_EXPIRED)))
        else match WxaCodeIn(l.store, req.qrcodeId)
          case Err(f) => Outcome(t, l.store, Err(f))
          case Ok(cached) =>
            var got := WxaImage(t, l.store, app, req, cached, arrayText, fetched, image);
            if got.value.None? || |got.value.value| == 0 then Outcome(t, got.store, Err(Service(ErrorCodes.SYSTEM_ERROR)))
            else
              var res := WxaCodeRes(q.qrcodeId, q.expireTime, got.value.value);
              if cached.Some? then Outcome(t, got.store, Ok(res))
              else match CacheWxaCodeIn(got.store, req.qrcodeId, got.value.value)
                case Err(f) => Outcome(t, got.store, Err(f))
                case Ok(s') => Outcome(t, s', Ok(res))
  }

  // ---------------------------------------------------------------------
  // The service

  class AuthService {
    const db: Db
    const cache: CacheService
    const weChat: WeChat.WeChatService

    constructor(db: Db, cache: CacheService, weChat: WeChat.WeChatService)
      requires weChat.db == db && weChat.cache == cache
      ensures this.db == db && this.cache == cache && this.weChat == weChat
    {
      this.db := db;
      this.cache := cache;
      this.weChat := weChat;
    }

    method GetAppByAppId(appId: Option<string>) returns (r: Result<Option<App>, Fault>)
      modifies cache
      ensures var l := AppLookup(db.tables, old(cache.store), appId);
        cache.store == l.store && r == l.value
    {
      var appDto := cache.GetAppInfo(appId);
      if appDto.Err? {
        return Err(appDto.error);
      }
      if appDto.value.Some? {
        return Ok(Some(AuthAppFromDto(appDto.value.value)));
      }
      var app := db.SelectOneActiveApp(appId);
      if app.Err? {
        return Err(app.error);
      }
      if app.value.Some? {
        var c := cache.CacheAppInfo(Some(AuthAppToDto(app.value.value)));
        match c {
          case Abrupt(f) => return Err(f);
          case Normal =>
        }
      }
      r := app;
    }

    method ValidateAndGetApp(appId: Option<string>) returns (r: Result<App, Fault>)
      modifies cache
      ensures var l := AppLookup(db.tables, old(cache.store), appId);
        cache.store == l.store && r == Validated(l.value)
    {
      var app := GetAppByAppId(appId);
      if app.Err? {
        return Err(app.error);
      }
      if app.value.None? {
        return Err(Service(ErrorCodes.APP_NOT_FOUND));
      }
      r := Ok(app.value.value);
    }

    method CreateAndCacheUserSession(userId: Option<int>, appId: Option<int>, token: string, now: int, sessionId: int)
      returns (c: Completion)
      modifies db, cache
      ensures var o := SessionCreated(old(db.tables), old(cache.store), userId, appId, token, now, sessionId);
        db.tables == o.tables && cache.store == o.store && c == CompletionOf(o.result)
    {
      var _ := db.InsertSession(NewSession(userId, appId, token, now), sessionId);
      c := cache.CacheUserSession(Some(token), userId);
      if c.Abrupt? {
        return;
      }
      var user := db.SelectUserById(userId);
      if user.Some? {
        c := cache.CacheUserInfo(Some(UserToDto(user.value)));
      }
    }

    method UpdateUserAppUnionId(userApp: UserApp, newUnionid: Option<string>)
      modifies db
      ensures db.tables == UnionidRefreshed(old(db.tables), userApp, newUnionid)
    {
      if HasText(newUnionid) && newUnionid != userApp.unionid {
        db.UpdateLinkById(userApp.(unionid := newUnionid));
      }
    }

    method UpdateUserInfo(user: User, userInfo: Option<ProfileHint>) returns (u: User)
      modifies db
      ensures u == Refreshed(user, userInfo)
      ensures db.tables == ProfileRefreshed(old(db.tables), user, userInfo)
    {
      u := user;
      if userInfo.None? {
        return;
      }
      var needUpdate := false;
      if HasText(userInfo.value.nickname) && userInfo.value.nickname != u.nickname {
        u := u.(nickname := userInfo.value.nickname);
        needUpdate := true;
      }
      if HasText(userInfo.value.avatarUrl) && userInfo.value.avatarUrl != u.avatarUrl {
        u := u.(avatarUrl := userInfo.value.avatarUrl);
        needUpdate := true;
      }
      if needUpdate {
        db.UpdateUserById(u);
      }
    }

    method FindUserByUnionid(unionid: Option<string>) returns (u: Option<User>)
      ensures u == UserByUnionid(db.tables, unionid)
    {
      if !HasText(unionid) {
        return None;
      }
      var unionidUserApp := db.SelectFirstLinkByUnionid(unionid);
      if unionidUserApp.None? {
        return None;
      }
      u := db.SelectUserById(unionidUserApp.value.userId);
    }

    method FindOrCreateUser(appId: Option<int>, weChatSession: WeChatSession, userInfo: Option<ProfileHint>,
                            userId: int, linkId: int) returns (r: Result<User, Fault>)
      modifies db
      ensures (db.tables, r) == FoundOrCreated(old(db.tables), appId, weChatSession, userInfo, userId, linkId)
    {
      var existingUserApp := db.SelectOneLinkByOpenid(appId, weChatSession.openid);
      if existingUserApp.Err? {
        return Err(existingUserApp.error);
      }
      if existingUserApp.value.Some? {
        var link := existingUserApp.value.value;
        var found := db.SelectUserById(link.userId);
        UpdateUserAppUnionId(link, weChatSession.unionid);
        if found.None? {
          return Err(NullPointer);
        }
        var user := UpdateUserInfo(found.value, userInfo);
        return Ok(user);
      }
      var user := FindUserByUnionid(weChatSession.unionid);
      var u: User;
      if user.None? {
        u := db.InsertUser(CreatedUser(userInfo, userId).(id := None), userId);
      } else {
        u := user.value;
      }
      var _ := db.InsertLink(NewLink(u.id, appId, weChatSession, linkId).(id := None), linkId);
      var refreshed := UpdateUserInfo(u, userInfo);
      r := Ok(refreshed);
    }

    /** The decryption step of miniProgramLogin, which updates the WeChat
        session and the request's user info in place. */
    method Decrypt(session: WeChatSession, req: MiniProgramLoginReq, decrypted: WeChat.Answer<Option<WxUserInfo>>)
      returns (weChatSession: WeChatSession, userInfo: Option<ProfileHint>)
      ensures (weChatSession, userInfo) == Decrypted(session, req, decrypted)
    {
      weChatSession, userInfo := session, req.userInfo;
      if !HasText(weChatSession.unionid) && HasText(req.encryptedData) && HasText(req.iv) {
        if decrypted.Answered? && decrypted.value.Some? {
          var wxMaUserInfo := decrypted.value.value;
          if HasText(wxMaUserInfo.unionId) {
            weChatSession := weChatSession.(unionid := wxMaUserInfo.unionId);
          }
          var h := if userInfo.None? then ProfileHint(None, None) else userInfo.value;
          if !HasText(h.nickname) && HasText(wxMaUserInfo.nickName) {
            h := h.(nickname := wxMaUserInfo.nickName);
          }
          if !HasText(h.avatarUrl) && HasText(wxMaUserInfo.avatarUrl) {
            h := h.(avatarUrl := wxMaUserInfo.avatarUrl);
          }
          userInfo := Some(h);
        }
      }
    }

    /** The try block of miniProgramLogin. */
    method RunLoginSteps(req: MiniProgramLoginReq, platform: WeChat.Answer<WeChat.SessionInfo>,
                      decrypted: WeChat.Answer<Option<WxUserInfo>>, token: string, now: int,
                      userId: int, linkId: int, sessionId: int) returns (r: Result<MiniProgramLoginRes, Fault>)
      requires weChat.db == db && weChat.cache == cache
      modifies db, cache
      ensures var o := LoginSteps(old(db.tables), old(cache.store), req, platform, decrypted, token, now,
                                       userId, linkId, sessionId);
        db.tables == o.tables && cache.store == o.store && r == o.result
    {
      var weChatSession := weChat.GetWeChatSession(req.appId, req.code, platform, None);
      if ExchangeFailed(weChatSession) {
        return Err(Service(ErrorCodes.WECHAT_LOGIN_FAILED));
      }
      var userInfo;
      weChatSession, userInfo := Decrypt(weChatSession, req, decrypted);
      var app := ValidateAndGetApp(req.appId);
      if app.Err? {
        return Err(app.error);
      }
      var user := FindOrCreateUser(app.value.id, weChatSession, userInfo, userId, linkId);
      if user.Err? {
        return Err(user.error);
      }
      var c := CreateAndCacheUserSession(user.value.id, app.value.id, token, now, sessionId);
      if c.Abrupt? {
        return Err(c.fault);
      }
      r := Ok(MiniProgramLoginRes(Some(token), Some(Summary(user.value))));
    }

    method MiniProgramLogin(req: MiniProgramLoginReq, platform: WeChat.Answer<WeChat.SessionInfo>,
                            decrypted: WeChat.Answer<Option<WxUserInfo>>, token: string, now: int,
                            userId: int, linkId: int, sessionId: int) returns (r: Result<MiniProgramLoginRes, Fault>)
      requires weChat.db == db && weChat.cache == cache
      modifies db, cache
      ensures var o := ProgramLogin(old(db.tables), old(cache.store), req, platform, decrypted, token, now,
                                             userId, linkId, sessionId);
        db.tables == o.tables && cache.store == o.store && r == o.result
    {
      var saved := db.tables;
      r := RunLoginSteps(req, platform, decrypted, token, now, userId, linkId, sessionId);
      if r.Err? {
        db.Restore(saved);
        r := Err(Service(ErrorCodes.WECHAT_LOGIN_FAILED));
      }
    }

    /** `qrcodeId` is the dash-free text of a random UUID, `recordId` the
        IdWorker id of the record. */
    method GenerateQr(appId: Option<string>, qrcodeId: string, recordId: int, now: int)
      returns (r: Result<QrGenerateRes, Fault>)
      modifies db, cache
      ensures var o := QrGenerated(old(db.tables), old(cache.store), appId, qrcodeId, recordId, now);
        db.tables == o.tables && cache.store == o.store && r == o.result
    {
      var app := ValidateAndGetApp(appId);
      if app.Err? {
        return Err(app.error);
      }
      var expire := now + QR_LIFETIME;
      var record := QrLoginRecord(Some(recordId), Some(qrcodeId), app.value.id, None, None, Some(QR_PENDING), Some(expire));
      var _ := db.InsertRecord(record, recordId);
      r := Ok(QrGenerateRes(qrcodeId, expire, QR_CONTENT_PREFIX + qrcodeId));
    }

    method CheckQr(qrcodeId: Option<string>, now: int) returns (r: Result<QrCheckRes, Fault>)
      modifies db
      ensures (db.tables, r) == QrChecked(old(db.tables), cache.store, qrcodeId, now)
    {
      var found := db.SelectFirstRecord(qrcodeId);
      if found.None? {
        return Ok(QrCheckRes(Some(QR_EXPIRED), None, None));
      }
      var record := found.value;
      if ExpiredAt(record, now) {
        record := record.(status := Some(QR_EXPIRED));
        db.UpdateRecordById(record);
      }
      if record.status != Some(QR_CONFIRMED) {
        return Ok(QrCheckRes(record.status, None, None));
      }
      var token := cache.GetQrToken(record.qrcodeId);
      if token.Err? {
        return Err(token.error);
      }
      var userInfo: Option<UserSummary> := None;
      if record.userId.Some? {
        var user := db.SelectUserById(record.userId);
        if user.Some? {
          userInfo := Some(Summary(user.value));
        }
      }
      r := Ok(QrCheckRes(record.status, token.value, userInfo));
    }

    /** The checks of scanQr and confirmQr, and the claiming update. */
    method Claim(qrcodeId: Option<string>, userId: Option<int>, now: int, status: int) returns (r: Result<QrLoginRecord, Fault>)
      modifies db
      ensures (db.tables, r) == QrClaimed(old(db.tables), qrcodeId, userId, now, status)
    {
      var found := db.SelectFirstRecord(qrcodeId);
      if found.None? {
        return Err(Service(ErrorCodes.QR_CODE_NOT_FOUND));
      }
      var record := found.value;
      if ExpiredAt(record, now) {
        db.UpdateRecordById(record.(status := Some(QR_EXPIRED)));
        return Err(Service(ErrorCodes.QR_CODE_EXPIRED));
      }
      if userId.None? {
        return Err(Service(ErrorCodes.NOT_LOGGED_IN));
      }
      record := record.(userId := userId, status := Some(status));
      db.UpdateRecordById(record);
      r := Ok(record);
    }

    method ScanQr(qrcodeId: Option<string>, userId: Option<int>, now: int) returns (c: Completion)
      modifies db
      ensures var x := QrScanned(old(db.tables), qrcodeId, userId, now);
        db.tables == x.0 && c == CompletionOf(x.1)
    {
      var saved := db.tables;
      var record := Claim(qrcodeId, userId, now, QR_SCANNED);
      if record.Err? {
        db.Restore(saved);
        return Abrupt(record.error);
      }
      c := Normal;
    }

    method ConfirmQr(qrcodeId: Option<string>, userId: Option<int>, now: int, token: string, sessionId: int)
      returns (c: Completion)
      modifies db, cache
      ensures var o := QrConfirmed(old(db.tables), old(cache.store), qrcodeId, userId, now, token, sessionId);
        db.tables == o.tables && cache.store == o.store && c == CompletionOf(o.result)
    {
      var saved := db.tables;
      c := RunConfirmSteps(qrcodeId, userId, now, token, sessionId);
      if c.Abrupt? {
        db.Restore(saved);
      }
    }

    method RunConfirmSteps(qrcodeId: Option<string>, userId: Option<int>, now: int, token: string, sessionId: int)
      returns (c: Completion)
      modifies db, cache
      ensures var o := ConfirmSteps(old(db.tables), old(cache.store), qrcodeId, userId, now, token, sessionId);
        db.tables == o.tables && cache.store == o.store && c == CompletionOf(o.result)
    {
      var record := Claim(qrcodeId, userId, now, QR_CONFIRMED);
      if record.Err? {
        return Abrupt(record.error);
      }
      var targetApp := db.SelectAppById(record.value.appId);
      if targetApp.None? {
        return Abrupt(Service(ErrorCodes.APP_DISABLED));
      }
      c := CreateAndCacheUserSession(userId, targetApp.value.id, token, now, sessionId);
      if c.Abrupt? {
        return;
      }
      c := cache.CacheQrToken(record.value.qrcodeId, Some(token));
    }

    /** The cached image, or the one WeChat makes. */
    method GetImage(app: App, req: WxaCodeReq, cached: Option<seq<Byte>>, arrayText: string,
                    fetched: WeChat.Answer<Option<string>>, image: WeChat.WxaPlatform) returns (bytes: Option<seq<Byte>>)
      requires weChat.db == db && weChat.cache == cache
      modifies cache
      ensures var x := WxaImage(db.tables, old(cache.store), app, req, cached, arrayText, fetched, image);
        cache.store == x.store && bytes == x.value
    {
      bytes := cached;
      if cached.None? {
        bytes := weChat.GetWxaCodeUnlimited(app.appId, req.qrcodeId, req.page, req.width, req.envVersion,
                                            req.checkPath, req.hyaline, arrayText, fetched, image);
      }
    }

    method GenerateWxaCode(req: WxaCodeReq, now: int, arrayText: string, fetched: WeChat.Answer<Option<string>>,
                           image: WeChat.WxaPlatform) returns (r: Result<WxaCodeRes, Fault>)
      requires weChat.db == db && weChat.cache == cache
      modifies db, cache
      ensures var o := WxaCodeGenerated(old(db.tables), old(cache.store), req, now, arrayText, fetched, image);
        db.tables == o.tables && cache.store == o.store && r == o.result
    {
      var app := ValidateAndGetApp(req.appId);
      if app.Err? {
        return Err(app.error);
      }
      var found := db.SelectFirstRecord(req.qrcodeId);
      if found.None? {
        return Err(Service(ErrorCodes.QR_CODE_NOT_FOUND));
      }
      var record := found.value;
      if ExpiredAt(record, now) {
        db.UpdateRecordById(record.(status := Some(QR_EXPIRED)));
        return Err(Service(ErrorCodes.QR_CODE_EXPIRED));
      }
      var cached := cache.GetWxaCode(req.qrcodeId);
      if cached.Err? {
        return Err(cached.error);
      }
      var bytes := GetImage(app.value, req, cached.value, arrayText, fetched, image);
      if bytes.None? || |bytes.value| == 0 {
        return Err(Service(ErrorCodes.SYSTEM_ERROR));
      }
      if cached.value.None? {
        // The key was just read, so this write cannot throw.
        var _ := cache.CacheWxaCode(req.qrcodeId, bytes.value);
      }
      r := Ok(WxaCodeRes(record.qrcodeId, record.expireTime, bytes.value));
    }
  }

  // ---------------------------------------------------------------------
  // Properties of the app lookup

  /** The login service's lookup finds the same app as WeChatServiceImpl's,
      except that a cached app comes back without its description. */
  lemma AppLookupAgreesWithWeChat(t: Tables, s: Store, appId: Option<string>)
    ensures var a := AppLookup(t, s, appId); var w := WeChat.AppLookup(t, s, appId);
      (a.value.Ok? <==> w.value.Ok?) &&
      (a.value.Ok? ==> (a.value.value.Some? <==> w.value.value.Some?)) &&
      (a.value.Ok? && a.value.value.Some? ==>
        a.value.value.value.(description := None) == w.value.value.value.(description := None))
  {
  }

  /** An app found in the table is cached without its description, so the
      next lookup of any service reads it back so. */
  lemma AppCachedWithoutDescription(t: Tables, s: Store, appId: Option<string>)
    requires AppIn(Read(s, AppInfoKey(appId))) == Ok(None)
    requires One(ActiveApps(t.apps, appId)).Ok? && One(ActiveApps(t.apps, appId)).value.Some?
    ensures var a := One(ActiveApps(t.apps, appId)).value.value; var l := AppLookup(t, s, appId);
      l.value.Ok? ==> AppIn(Read(l.store, AppInfoKey(a.appId))) == Ok(Some(AppToDto(a).(description := None)))
  {
    var a := One(ActiveApps(t.apps, appId)).value.value;
    if CacheAppIn(s, Some(AuthAppToDto(a))).Ok? {
      AppInfoRoundTrip(s, AuthAppToDto(a));
    }
  }

  // ---------------------------------------------------------------------
  // Properties of the QR login

  /** generateQr: without an app it fails with APP_NOT_FOUND and writes no
      record; otherwise it appends one pending record of the app that
      expires in five minutes, and answers the code's content. */
  lemma QrGeneratedEffect(t: Tables, s: Store, appId: Option<string>, qrcodeId: string, recordId: int, now: int)
    ensures var o := QrGenerated(t, s, appId, qrcodeId, recordId, now); var l := AppLookup(t, s, appId);
      o.store == l.store &&
      (l.value == Ok(None) ==> o.result == Err(Service(ErrorCodes.APP_NOT_FOUND))) &&
      (o.result.Ok? <==> l.value.Ok? && l.value.value.Some?) &&
      (o.result.Err? ==> o.tables == t) &&
      (o.result.Ok? ==>
        o.tables == t.(qrRecords := t.qrRecords +
          [QrLoginRecord(Some(recordId), Some(qrcodeId), l.value.value.value.id, None, None, Some(0), Some(now + 300000))]) &&
        o.result.value == QrGenerateRes(qrcodeId, now + 300000, "ravey-login://qr?qrcodeId=" + qrcodeId))
  {
  }

  /** A fresh code with no earlier record reads as pending until it
      expires, and the check writes nothing. */
  lemma GenerateThenCheck(t: Tables, s: Store, appId: Option<string>, qrcodeId: string, recordId: int, now: int,
                          s': Store, later: int)
    requires QrGenerated(t, s, appId, qrcodeId, recordId, now).result.Ok?
    requires RecordsWithQrcodeId(t.qrRecords, Some(qrcodeId)) == []
    requires later <= now + QR_LIFETIME
    ensures var t' := QrGenerated(t, s, appId, qrcodeId, recordId, now).tables;
      QrChecked(t', s', Some(qrcodeId), later) == (t', Ok(QrCheckRes(Some(QR_PENDING), None, None)))
  {
    var l := AppLookup(t, s, appId);
    RecordsWithQrcodeIdAppend(t.qrRecords, NewRecord(l.value.value.value, qrcodeId, recordId, now), Some(qrcodeId));
  }

  /** checkQr of an unknown code answers "expired" and writes nothing. */
  lemma CheckUnknownCode(t: Tables, s: Store, qrcodeId: Option<string>, now: int)
    requires RecordOf(t, qrcodeId).None?
    ensures QrChecked(t, s, qrcodeId, now) == (t, Ok(QrCheckRes(Some(QR_EXPIRED), None, None)))
  {
  }

  /** checkQr marks a record past its expiry time expired, and the mark
      stays; a record without an expiry time is never marked. */
  lemma CheckMarksExpiry(t: Tables, s: Store, qrcodeId: Option<string>, now: int)
    requires RecordOf(t, qrcodeId).Some?
    ensures var q := RecordOf(t, qrcodeId).value; var (t', r) := QrChecked(t, s, qrcodeId, now);
      (ExpiredAt(q, now) ==> t' == MarkedExpired(t, q) && r == Ok(QrCheckRes(Some(QR_EXPIRED), None, None))) &&
      (!ExpiredAt(q, now) ==> t' == t) &&
      (q.expireTime.None? ==> t' == t)
  {
  }

  /** checkQr hands over a token or a user only for a confirmed record, and
      then the token is the one under the code's QR key. */
  lemma CheckHandsOverOnlyWhenConfirmed(t: Tables, s: Store, qrcodeId: Option<string>, now: int)
    ensures var r := QrChecked(t, s, qrcodeId, now).1;
      r.Ok? && (r.value.token.Some? || r.value.userInfo.Some?) ==> r.value.status == Some(QR_CONFIRMED)
    ensures var r := QrChecked(t, s, qrcodeId, now).1;
      r.Ok? && r.value.status == Some(QR_CONFIRMED) ==> QrTokenIn(s, qrcodeId) == Ok(r.value.token)
    ensures QrChecked(t, s, qrcodeId, now).1.Err? ==> QrTokenIn(s, qrcodeId).Err?
  {
  }

  /** scanQr: an unknown code, an expired one and a missing user fail, in
      that order, and leave the tables as they were (the expiry mark is
      rolled back); otherwise the record becomes the user's and is scanned,
      whatever its status was. */
  lemma ScanOutcomes(t: Tables, qrcodeId: Option<string>, userId: Option<int>, now: int)
    ensures var (t', r) := QrScanned(t, qrcodeId, userId, now); var q := RecordOf(t, qrcodeId);
      (q.None? ==> r == Err(Service(ErrorCodes.QR_CODE_NOT_FOUND))) &&
      (q.Some? && ExpiredAt(q.value, now) ==> r == Err(Service(ErrorCodes.QR_CODE_EXPIRED))) &&
      (q.Some? && !ExpiredAt(q.value, now) && userId.None? ==> r == Err(Service(ErrorCodes.NOT_LOGGED_IN))) &&
      (r.Err? ==> t' == t) &&
      (r.Ok? <==> q.Some? && !ExpiredAt(q.value, now) && userId.Some?) &&
      (r.Ok? ==> t' == t.(qrRecords := UpdateRecords(t.qrRecords, q.value.(userId := userId, status := Some(QR_SCANNED)))))
  {
  }

  /** createAndCacheUserSession inserts exactly one session row, expiring a
      day after now, whatever the cache does. */
  lemma SessionCreatedRow(t: Tables, s: Store, userId: Option<int>, appId: Option<int>, token: string, now: int,
                          sessionId: int)
    ensures SessionCreated(t, s, userId, appId, token, now, sessionId).tables ==
      t.(sessions := t.sessions + [UserSession(Some(sessionId), userId, appId, Some(token), None, None, Some(now + 86400000))])
  {
  }

  /** When createAndCacheUserSession succeeds, the token leads to the user
      id in the cache: caching the profile does not overwrite it. */
  lemma SessionCreatedCache(t: Tables, s: Store, userId: Option<int>, appId: Option<int>, token: string, now: int,
                            sessionId: int)
    requires SessionCreated(t, s, userId, appId, token, now, sessionId).result.Ok?
    ensures SessionIn(SessionCreated(t, s, userId, appId, token, now, sessionId).store, Some(token)) == Ok(userId)
  {
    var s1 := CacheSessionIn(s, Some(token), userId).value;
    SessionRoundTrip(s, Some(token), userId);
    var t1 := t.(sessions := t.sessions + [NewSession(userId, appId, token, now).(id := Some(sessionId))]);
    var u := First(UsersWithId(t1.users, userId));
    if u.Some? {
      var d := UserToDto(u.value);
      UserKeyIsNotSessionKey(d.id, token);
      WriteKeepsOthers(s1, UserInfoKey(d.id), Some(UserValue(d)), CacheConstants.USER_INFO_EXPIRE, SessionKey(Some(token)));
    }
  }

  /** confirmQr: the same three checks as scanQr; every failure, a missing
      app of the record (APP_DISABLED) included, leaves the tables as they
      were. */
  lemma ConfirmFailures(t: Tables, s: Store, qrcodeId: Option<string>, userId: Option<int>, now: int,
                        token: string, sessionId: int)
    ensures var o := QrConfirmed(t, s, qrcodeId, userId, now, token, sessionId); var q := RecordOf(t, qrcodeId);
      (q.None? ==> o.result == Err(Service(ErrorCodes.QR_CODE_NOT_FOUND))) &&
      (q.Some? && ExpiredAt(q.value, now) ==> o.result == Err(Service(ErrorCodes.QR_CODE_EXPIRED))) &&
      (q.Some? && !ExpiredAt(q.value, now) && userId.None? ==> o.result == Err(Service(ErrorCodes.NOT_LOGGED_IN))) &&
      (q.Some? && !ExpiredAt(q.value, now) && userId.Some? && First(AppsWithId(t.apps, q.value.appId)).None? ==>
        o.result == Err(Service(ErrorCodes.APP_DISABLED))) &&
      (o.result.Err? ==> o.tables == t)
  {
  }

  /** A successful confirmQr confirms the record for the user, without
      requiring a scan first, and opens a one-day session for the user in
      the record's app; nothing else in the tables changes. */
  lemma ConfirmSuccess(t: Tables, s: Store, qrcodeId: Option<string>, userId: Option<int>, now: int,
                       token: string, sessionId: int)
    requires QrConfirmed(t, s, qrcodeId, userId, now, token, sessionId).result.Ok?
    ensures RecordOf(t, qrcodeId).Some? && !ExpiredAt(RecordOf(t, qrcodeId).value, now) && userId.Some?
    ensures First(AppsWithId(t.apps, RecordOf(t, qrcodeId).value.appId)).Some?
    ensures var o := QrConfirmed(t, s, qrcodeId, userId, now, token, sessionId); var q := RecordOf(t, qrcodeId).value;
      var app := First(AppsWithId(t.apps, q.appId)).value;
      o.tables == t.(qrRecords := UpdateRecords(t.qrRecords, q.(userId := userId, status := Some(QR_CONFIRMED))),
                     sessions := t.sessions + [UserSession(Some(sessionId), userId, app.id, Some(token), None, None,
                                                           Some(now + 86400000))])
  {
    var o := ConfirmSteps(t, s, qrcodeId, userId, now, token, sessionId);
    assert QrConfirmed(t, s, qrcodeId, userId, now, token, sessionId) == o;
    var q := RecordOf(t, qrcodeId).value;
    var (t1, r) := QrClaimed(t, qrcodeId, userId, now, QR_CONFIRMED);
    assert r == Ok(q.(userId := userId, status := Some(QR_CONFIRMED)));
    var app := First(AppsWithId(t1.apps, q.appId)).value;
    var c := SessionCreated(t1, s, userId, app.id, token, now, sessionId);
    assert c.result.Ok? && o.tables == c.tables;
    SessionCreatedRow(t1, s, userId, app.id, token, now, sessionId);
  }

  /** A successful confirmQr leaves its token under the code's QR key, for
      checkQr to hand over. */
  lemma ConfirmLeavesToken(t: Tables, s: Store, qrcodeId: Option<string>, userId: Option<int>, now: int,
                           token: string, sessionId: int)
    requires QrConfirmed(t, s, qrcodeId, userId, now, token, sessionId).result.Ok?
    ensures QrTokenIn(QrConfirmed(t, s, qrcodeId, userId, now, token, sessionId).store, qrcodeId) == Ok(Some(token))
  {
    var o := ConfirmSteps(t, s, qrcodeId, userId, now, token, sessionId);
    assert QrConfirmed(t, s, qrcodeId, userId, now, token, sessionId) == o;
    var q := RecordOf(t, qrcodeId).value;
    var (t1, r) := QrClaimed(t, qrcodeId, userId, now, QR_CONFIRMED);
    assert r == Ok(q.(userId := userId, status := Some(QR_CONFIRMED)));
    var app := First(AppsWithId(t1.apps, q.appId)).value;
    var c := SessionCreated(t1, s, userId, app.id, token, now, sessionId);
    assert c.result.Ok? && CacheQrTokenIn(c.store, qrcodeId, Some(token)).Ok?;
    ReadAfterWrite(c.store, QrKey(qrcodeId), TextOf(Some(token)), CacheConstants.QR_TOKEN_EXPIRE);
  }

  /** QR records as the table keeps them: every record has an id, and no
      two share one. */
  predicate StoredRecords(rows: seq<QrLoginRecord>) {
    UniqueRecordIds(rows) && forall k :: 0 <= k < |rows| ==> rows[k].id.Some?
  }

  /** A claim through updateById changes the code's record alone, so the
      code's record afterwards is the claimed one. */
  lemma ClaimedRecordIsFound(t: Tables, qrcodeId: Option<string>, userId: Option<int>, now: int, status: int)
    requires StoredRecords(t.qrRecords)
    requires QrClaimed(t, qrcodeId, userId, now, status).1.Ok?
    ensures var (t', r) := QrClaimed(t, qrcodeId, userId, now, status);
      RecordOf(t', qrcodeId) == Some(r.value) && StoredRecords(t'.qrRecords) &&
      r.value == RecordOf(t, qrcodeId).value.(userId := userId, status := Some(status))
  {
    var rows := t.qrRecords;
    var i := RecordsWithQrcodeIdFirstIndex(rows, qrcodeId);
    var q' := rows[i].(userId := userId, status := Some(status));
    UpdateOneRecord(rows, i, q');
    assert MergeRecord(rows[i], q') == q';
    var rows' := rows[i := q'];
    forall j | 0 <= j < i
      ensures !SqlEq(rows'[j].qrcodeId, qrcodeId)
    {
      assert rows'[j] == rows[j];
    }
    RecordsWithQrcodeIdFirst(rows', qrcodeId, i);
  }

  /** After a successful scan, checkQr reads the code as scanned until it
      expires, and hands nothing over. */
  lemma ScanThenCheck(t: Tables, qrcodeId: Option<string>, userId: Option<int>, now: int, s: Store, later: int)
    requires StoredRecords(t.qrRecords)
    requires QrScanned(t, qrcodeId, userId, now).1.Ok?
    requires !ExpiredAt(RecordOf(t, qrcodeId).value, later)
    ensures var t' := QrScanned(t, qrcodeId, userId, now).0;
      QrChecked(t', s, qrcodeId, later) == (t', Ok(QrCheckRes(Some(QR_SCANNED), None, None)))
  {
    ClaimedRecordIsFound(t, qrcodeId, userId, now, QR_SCANNED);
  }

  /** After a successful confirmation, checkQr hands the confirming user's
      token and profile to the page until the code expires. */
  lemma ConfirmThenCheck(t: Tables, s: Store, qrcodeId: Option<string>, userId: Option<int>, now: int,
                         token: string, sessionId: int, later: int)
    requires StoredRecords(t.qrRecords)
    requires QrConfirmed(t, s, qrcodeId, userId, now, token, sessionId).result.Ok?
    requires !ExpiredAt(RecordOf(t, qrcodeId).value, later)
    ensures var o := QrConfirmed(t, s, qrcodeId, userId, now, token, sessionId);
      var u := First(UsersWithId(t.users, userId));
      QrChecked(o.tables, o.store, qrcodeId, later) ==
        (o.tables, Ok(QrCheckRes(Some(QR_CONFIRMED), Some(token), if u.Some? then Some(Summary(u.value)) else None)))
  {
    var o := QrConfirmed(t, s, qrcodeId, userId, now, token, sessionId);
    ConfirmSuccess(t, s, qrcodeId, userId, now, token, sessionId);
    ConfirmLeavesToken(t, s, qrcodeId, userId, now, token, sessionId);
    ClaimedRecordIsFound(t, qrcodeId, userId, now, QR_CONFIRMED);
    var t1 := QrClaimed(t, qrcodeId, userId, now, QR_CONFIRMED).0;
    assert RecordOf(o.tables, qrcodeId) == RecordOf(t1, qrcodeId);
  }

  // ---------------------------------------------------------------------
  // Properties of findOrCreateUser

  /** An active link of the app and openid decides the user: no link or
      user is inserted, and a link whose user is gone is a
      NullPointerException. More than one such link is TooManyResults with
      nothing written. */
  lemma OpenidLinkWins(t: Tables, appId: Option<int>, w: WeChatSession, hint: Option<ProfileHint>, userId: int, linkId: int)
    ensures var hits := LinksWithOpenid(t.userApps, appId, w.openid); var (t', r) := FoundOrCreated(t, appId, w, hint, userId, linkId);
      (|hits| > 1 ==> t' == t && r == Err(TooManyResults)) &&
      (|hits| == 1 ==>
        var found := First(UsersWithId(t.users, hits[0].userId));
        |t'.userApps| == |t.userApps| && |t'.users| == |t.users| &&
        t'.sessions == t.sessions && t'.qrRecords == t.qrRecords && t'.apps == t.apps &&
        (found.None? ==> r == Err(NullPointer)) &&
        (found.Some? ==> r == Ok(Refreshed(found.value, hint))))
  {
  }

  /** Without an openid link, the user of an active link with the same
      non-blank unionid is reused and linked to the app. */
  lemma UnionidReused(t: Tables, appId: Option<int>, w: WeChatSession, hint: Option<ProfileHint>, userId: int, linkId: int)
    requires LinksWithOpenid(t.userApps, appId, w.openid) == []
    requires UserByUnionid(t, w.unionid).Some?
    ensures HasText(w.unionid)
    ensures var u := UserByUnionid(t, w.unionid).value; var (t', r) := FoundOrCreated(t, appId, w, hint, userId, linkId);
      r == Ok(Refreshed(u, hint)) &&
      t'.userApps == t.userApps + [UserApp(Some(linkId), u.id, appId, w.openid, w.unionid, Some(1))] &&
      t'.users == ProfileRefreshed(t, u, hint).users && |t'.users| == |t.users|
  {
  }

  /** Otherwise a new enabled user seeded from the hint is created, with
      one active link carrying both WeChat ids. */
  lemma NewUserCreated(t: Tables, appId: Option<int>, w: WeChatSession, hint: Option<ProfileHint>, userId: int, linkId: int)
    requires LinksWithOpenid(t.userApps, appId, w.openid) == []
    requires UserByUnionid(t, w.unionid).None?
    ensures var u := CreatedUser(hint, userId);
      FoundOrCreated(t, appId, w, hint, userId, linkId) ==
        (t.(users := t.users + [u], userApps := t.userApps + [UserApp(Some(linkId), Some(userId), appId, w.openid, w.unionid, Some(1))]),
         Ok(u))
  {
    var u := CreatedUser(hint, userId);
    assert Refreshed(u, hint) == u;
  }

  /** updateById keeps every row's id, so a user found by id before is
      found by that id afterwards. */
  lemma UserStillFound(rows: seq<User>, x: User, id: Option<int>)
    requires UsersWithId(rows, id) != []
    ensures First(UsersWithId(UpdateUsers(rows, x), id)).Some?
  {
    var u := UsersWithId(rows, id)[0];
    assert u in UsersWithId(rows, id);
    var k :| 0 <= k < |rows| && rows[k] == u;
    var rows' := UpdateUsers(rows, x);
    assert rows'[k].id == rows[k].id;
    assert rows'[k] in UsersWithId(rows', id);
  }

  /** A first login of an app and openid leaves exactly one active link
      for them, to a stored user with the answered id. */
  lemma FirstLoginLinks(t: Tables, appId: Option<int>, w: WeChatSession, hint: Option<ProfileHint>, userId: int, linkId: int)
    requires appId.Some? && w.openid.Some?
    requires LinksWithOpenid(t.userApps, appId, w.openid) == []
    ensures var (t1, r1) := FoundOrCreated(t, appId, w, hint, userId, linkId);
      r1.Ok? && LinksWithOpenid(t1.userApps, appId, w.openid) == [NewLink(r1.value.id, appId, w, linkId)] &&
      First(UsersWithId(t1.users, r1.value.id)).Some?
  {
    if UserByUnionid(t, w.unionid).Some? {
      ReusedUserLinked(t, appId, w, hint, userId, linkId);
    } else {
      CreatedUserLinked(t, appId, w, hint, userId, linkId);
    }
  }

  lemma ReusedUserLinked(t: Tables, appId: Option<int>, w: WeChatSession, hint: Option<ProfileHint>, userId: int, linkId: int)
    requires appId.Some? && w.openid.Some?
    requires LinksWithOpenid(t.userApps, appId, w.openid) == []
    requires UserByUnionid(t, w.unionid).Some?
    ensures var (t1, r1) := FoundOrCreated(t, appId, w, hint, userId, linkId);
      r1.Ok? && LinksWithOpenid(t1.userApps, appId, w.openid) == [NewLink(r1.value.id, appId, w, linkId)] &&
      First(UsersWithId(t1.users, r1.value.id)).Some?
  {
    var u := UserByUnionid(t, w.unionid).value;
    UnionidReused(t, appId, w, hint, userId, linkId);
    RefreshedFields(u, hint);
    LinksWithOpenidAppend(t.userApps, NewLink(u.id, appId, w, linkId), appId, w.openid);
    var l := First(LinksWithUnionid(t.userApps, w.unionid)).value;
    assert u in UsersWithId(t.users, l.userId);
    if Refreshed(u, hint) != u {
      UserStillFound(t.users, Refreshed(u, hint), u.id);
    }
  }

  lemma CreatedUserLinked(t: Tables, appId: Option<int>, w: WeChatSession, hint: Option<ProfileHint>, userId: int, linkId: int)
    requires appId.Some? && w.openid.Some?
    requires LinksWithOpenid(t.userApps, appId, w.openid) == []
    requires UserByUnionid(t, w.unionid).None?
    ensures var (t1, r1) := FoundOrCreated(t, appId, w, hint, userId, linkId);
      r1.Ok? && LinksWithOpenid(t1.userApps, appId, w.openid) == [NewLink(r1.value.id, appId, w, linkId)] &&
      First(UsersWithId(t1.users, r1.value.id)).Some?
  {
    var u := CreatedUser(hint, userId);
    NewUserCreated(t, appId, w, hint, userId, linkId);
    LinksWithOpenidAppend(t.userApps, NewLink(u.id, appId, w, linkId), appId, w.openid);
    UsersWithIdAppend(t.users, u, u.id);
  }

  /** Logging in twice with the same app and openid gives the same account:
      the second time nothing is inserted. */
  lemma SecondLoginReusesAccount(t: Tables, appId: Option<int>, w: WeChatSession, hint: Option<ProfileHint>,
                                 userId: int, linkId: int, hint': Option<ProfileHint>, userId': int, linkId': int)
    requires appId.Some? && w.openid.Some?
    requires LinksWithOpenid(t.userApps, appId, w.openid) == []
    ensures var (t1, r1) := FoundOrCreated(t, appId, w, hint, userId, linkId);
      var (t2, r2) := FoundOrCreated(t1, appId, w, hint', userId', linkId');
      r1.Ok? && r2.Ok? && r2.value.id == r1.value.id &&
      |t2.users| == |t1.users| && |t2.userApps| == |t1.userApps|
  {
    FirstLoginLinks(t, appId, w, hint, userId, linkId);
    var (t1, r1) := FoundOrCreated(t, appId, w, hint, userId, linkId);
    OpenidLinkWins(t1, appId, w, hint', userId', linkId');
    var u := First(UsersWithId(t1.users, r1.value.id)).value;
    assert u in UsersWithId(t1.users, r1.value.id);
    RefreshedFields(u, hint');
  }

  // ---------------------------------------------------------------------
  // Properties of updateUserInfo and updateUserAppUnionId

  /** A field of the hint replaces the user's exactly when it is
      non-blank; nothing else about the user changes. */
  lemma RefreshedFields(u: User, hint: Option<ProfileHint>)
    ensures var r := Refreshed(u, hint);
      r.id == u.id && r.email == u.email && r.password == u.password && r.status == u.status &&
      r.nickname == (if hint.Some? && HasText(hint.value.nickname) then hint.value.nickname else u.nickname) &&
      r.avatarUrl == (if hint.Some? && HasText(hint.value.avatarUrl) then hint.value.avatarUrl else u.avatarUrl)
  {
  }

  /** Refreshing never blanks a field, and refreshing twice with the same
      hint is refreshing once, the second time without a write. */
  lemma RefreshIdempotent(t: Tables, u: User, hint: Option<ProfileHint>)
    ensures HasText(u.nickname) ==> HasText(Refreshed(u, hint).nickname)
    ensures HasText(u.avatarUrl) ==> HasText(Refreshed(u, hint).avatarUrl)
    ensures Refreshed(Refreshed(u, hint), hint) == Refreshed(u, hint)
    ensures ProfileRefreshed(t, Refreshed(u, hint), hint) == t
  {
    RefreshedFields(u, hint);
    RefreshedFields(Refreshed(u, hint), hint);
  }

  /** The unionid of a link is written only with a non-blank value, and
      only the links change. */
  lemma UnionidRefreshedEffect(t: Tables, link: UserApp, unionid: Option<string>)
    ensures var t' := UnionidRefreshed(t, link, unionid);
      t'.users == t.users && t'.apps == t.apps && t'.sessions == t.sessions && t'.qrRecords == t.qrRecords &&
      |t'.userApps| == |t.userApps| &&
      (!HasText(unionid) || unionid == link.unionid ==> t' == t) &&
      (forall k :: 0 <= k < |t.userApps| && t'.userApps[k].unionid != t.userApps[k].unionid ==>
        t'.userApps[k].unionid == unionid)
  {
  }

  // ---------------------------------------------------------------------
  // Properties of miniProgramLogin

  /** Decryption fills only blanks: the openid and a non-blank unionid of
      the exchange are kept, and a non-blank field of the hint is kept. */
  lemma DecryptOnlyFillsBlanks(w: WeChatSession, req: MiniProgramLoginReq, decrypted: WeChat.Answer<Option<WxUserInfo>>)
    ensures var (w', hint) := Decrypted(w, req, decrypted);
      w' == w.(unionid := w'.unionid) &&
      (HasText(w.unionid) ==> w' == w && hint == req.userInfo) &&
      (w'.unionid != w.unionid ==> HasText(w'.unionid)) &&
      (req.userInfo.Some? && HasText(req.userInfo.value.nickname) ==> hint.Some? && hint.value.nickname == req.userInfo.value.nickname) &&
      (req.userInfo.Some? && HasText(req.userInfo.value.avatarUrl) ==> hint.Some? && hint.value.avatarUrl == req.userInfo.value.avatarUrl) &&
      (decrypted.Threw? ==> (w', hint) == (w, req.userInfo))
  {
  }

  /** Every failure of miniProgramLogin is reported as WECHAT_LOGIN_FAILED
      with the tables as they were. */
  lemma LoginFailureIsUniform(t: Tables, s: Store, req: MiniProgramLoginReq, platform: WeChat.Answer<WeChat.SessionInfo>,
                              decrypted: WeChat.Answer<Option<WxUserInfo>>, token: string, now: int,
                              userId: int, linkId: int, sessionId: int)
    ensures var o := ProgramLogin(t, s, req, platform, decrypted, token, now, userId, linkId, sessionId);
      o.result.Err? ==> o.result == Err(Service(ErrorCodes.WECHAT_LOGIN_FAILED)) && o.tables == t
  {
  }

  /** A successful login went through an accepted exchange and an enabled
      app; it answers the token and the found or created user, whose one new
      session row expires in a day and whose id the token leads to. */
  lemma LoginSuccess(t: Tables, s: Store, req: MiniProgramLoginReq, platform: WeChat.Answer<WeChat.SessionInfo>,
                     decrypted: WeChat.Answer<Option<WxUserInfo>>, token: string, now: int,
                     userId: int, linkId: int, sessionId: int)
    requires ProgramLogin(t, s, req, platform, decrypted, token, now, userId, linkId, sessionId).result.Ok?
    ensures var x := WeChat.SessionExchange(t, s, req.appId, req.code, platform, None);
      var l := AppLookup(t, x.store, req.appId);
      !ExchangeFailed(x.value) && l.value.Ok? && l.value.value.Some?
    ensures var o := ProgramLogin(t, s, req, platform, decrypted, token, now, userId, linkId, sessionId);
      var x := WeChat.SessionExchange(t, s, req.appId, req.code, platform, None);
      var (w, hint) := Decrypted(x.value, req, decrypted);
      var app := AppLookup(t, x.store, req.appId).value.value.value;
      var (t1, found) := FoundOrCreated(t, app.id, w, hint, userId, linkId);
      found.Ok? &&
      o.tables == t1.(sessions := t1.sessions + [UserSession(Some(sessionId), found.value.id, app.id, Some(token), None, None,
                                                             Some(now + 86400000))]) &&
      SessionIn(o.store, Some(token)) == Ok(found.value.id) &&
      o.result.value == MiniProgramLoginRes(Some(token), Some(Summary(found.value)))
  {
    var x := WeChat.SessionExchange(t, s, req.appId, req.code, platform, None);
    var (w, hint) := Decrypted(x.value, req, decrypted);
    var l := AppLookup(t, x.store, req.appId);
    var app := l.value.value.value;
    var (t1, found) := FoundOrCreated(t, app.id, w, hint, userId, linkId);
    SessionCreatedRow(t1, l.store, found.value.id, app.id, token, now, sessionId);
    SessionCreatedCache(t1, l.store, found.value.id, app.id, token, now, sessionId);
  }

  /** The login service's lookup writes at most the app-info entry. */
  lemma AppLookupKeepsOthers(t: Tables, s: Store, appId: Option<string>, key: Option<string>)
    requires key != AppInfoKey(appId)
    ensures Read(AppLookup(t, s, appId).store, key) == Read(s, key)
  {
    match AppIn(Read(s, AppInfoKey(appId)))
    case Err(f) =>
    case Ok(Some(d)) =>
    case Ok(None) =>
      match One(ActiveApps(t.apps, appId))
      case Err(f) =>
      case Ok(None) =>
      case Ok(Some(a)) =>
        assert a in ActiveApps(t.apps, appId);
        if CacheAppIn(s, Some(AuthAppToDto(a))).Ok? {
          WriteKeepsOthers(s, AppInfoKey(a.appId), Some(AppValue(AuthAppToDto(a))), CacheConstants.APP_INFO_EXPIRE, key);
        }
  }

  /** Opening a session writes no code marker. */
  lemma SessionCreatedKeepsCodes(t: Tables, s: Store, userId: Option<int>, appId: Option<int>, token: string, now: int,
                                 sessionId: int, a: Option<string>, code: Option<string>)
    ensures Read(SessionCreated(t, s, userId, appId, token, now, sessionId).store, CodeKey(a, code)) == Read(s, CodeKey(a, code))
  {
    var key := CodeKey(a, code);
    if key.Some? && CacheSessionIn(s, Some(token), userId).Ok? {
      var s1 := CacheSessionIn(s, Some(token), userId).value;
      var t1 := t.(sessions := t.sessions + [NewSession(userId, appId, token, now).(id := Some(sessionId))]);
      var u := First(UsersWithId(t1.users, userId));
      CodeKeyIsNoSessionOrUserKey(a, code, token, if u.Some? then UserToDto(u.value).id else None);
      WriteKeepsOthers(s, SessionKey(Some(token)), NumberOf(userId), CacheConstants.USER_SESSION_EXPIRE, key);
      if u.Some? && CacheUserIn(s1, Some(UserToDto(u.value))).Ok? {
        var d := UserToDto(u.value);
        WriteKeepsOthers(s1, UserInfoKey(d.id), Some(UserValue(d)), CacheConstants.USER_INFO_EXPIRE, key);
      }
    }
  }

  /** A successful login leaves its code marked used. */
  lemma LoginMarksCode(t: Tables, s: Store, req: MiniProgramLoginReq, platform: WeChat.Answer<WeChat.SessionInfo>,
                       decrypted: WeChat.Answer<Option<WxUserInfo>>, token: string, now: int,
                       userId: int, linkId: int, sessionId: int)
    requires ProgramLogin(t, s, req, platform, decrypted, token, now, userId, linkId, sessionId).result.Ok?
    ensures CodeUsedIn(ProgramLogin(t, s, req, platform, decrypted, token, now, userId, linkId, sessionId).store,
                       req.appId, req.code) == Ok(Some(true))
  {
    var o := ProgramLogin(t, s, req, platform, decrypted, token, now, userId, linkId, sessionId);
    LoginSuccess(t, s, req, platform, decrypted, token, now, userId, linkId, sessionId);
    var x := WeChat.SessionExchange(t, s, req.appId, req.code, platform, None);
    WeChat.ExchangeSuccessMarksCode(t, s, req.appId, req.code, platform, None);
    var (w, hint) := Decrypted(x.value, req, decrypted);
    var l := AppLookup(t, x.store, req.appId);
    var app := l.value.value.value;
    WeChat.CodeKeyIsNotAppKey(req.appId, req.code, req.appId);
    AppLookupKeepsOthers(t, x.store, req.appId, CodeKey(req.appId, req.code));
    var (t1, found) := FoundOrCreated(t, app.id, w, hint, userId, linkId);
    SessionCreatedKeepsCodes(t1, l.store, found.value.id, app.id, token, now, sessionId, req.appId, req.code);
    assert o == LoginSteps(t, s, req, platform, decrypted, token, now, userId, linkId, sessionId);
    assert o.store == SessionCreated(t1, l.store, found.value.id, app.id, token, now, sessionId).store;
  }

  /** A login code is good for one login: once a login succeeds, logging in
      again with the same request fails, whatever the platform answers,
      and writes nothing. */
  lemma LoginCodeIsSingleUse(t: Tables, s: Store, req: MiniProgramLoginReq, platform: WeChat.Answer<WeChat.SessionInfo>,
                             decrypted: WeChat.Answer<Option<WxUserInfo>>, token: string, now: int,
                             userId: int, linkId: int, sessionId: int,
                             platform': WeChat.Answer<WeChat.SessionInfo>, decrypted': WeChat.Answer<Option<WxUserInfo>>,
                             token': string, now': int, userId': int, linkId': int, sessionId': int)
    requires ProgramLogin(t, s, req, platform, decrypted, token, now, userId, linkId, sessionId).result.Ok?
    ensures var o := ProgramLogin(t, s, req, platform, decrypted, token, now, userId, linkId, sessionId);
      ProgramLogin(o.tables, o.store, req, platform', decrypted', token', now', userId', linkId', sessionId') ==
        Outcome(o.tables, o.store, Err(Service(ErrorCodes.WECHAT_LOGIN_FAILED)))
  {
    var o := ProgramLogin(t, s, req, platform, decrypted, token, now, userId, linkId, sessionId);
    LoginMarksCode(t, s, req, platform, decrypted, token, now, userId, linkId, sessionId);
    WeChat.UsedCodeRefused(o.tables, o.store, req.appId, req.code, platform', None);
  }

  // ---------------------------------------------------------------------
  // The QR records stay well formed

  /** A record's status is one of the four, and a confirmed record names
      its user. */
  predicate WellFormedRecord(q: QrLoginRecord) {
    q.status.Some? && QR_PENDING <= q.status.value <= QR_EXPIRED &&
    (q.status == Some(QR_CONFIRMED) ==> q.userId.Some?)
  }

  predicate WellFormedRecords(rows: seq<QrLoginRecord>) {
    forall k :: 0 <= k < |rows| ==> WellFormedRecord(rows[k])
  }

  lemma MarkKeepsWellFormed(t: Tables, q: QrLoginRecord)
    requires WellFormedRecords(t.qrRecords)
    ensures WellFormedRecords(MarkedExpired(t, q).qrRecords)
  {
  }

  lemma ClaimKeepsWellFormed(t: Tables, qrcodeId: Option<string>, userId: Option<int>, now: int, status: int)
    requires WellFormedRecords(t.qrRecords)
    requires QR_PENDING <= status <= QR_EXPIRED
    ensures WellFormedRecords(QrClaimed(t, qrcodeId, userId, now, status).0.qrRecords)
  {
    if RecordOf(t, qrcodeId).Some? && ExpiredAt(RecordOf(t, qrcodeId).value, now) {
      MarkKeepsWellFormed(t, RecordOf(t, qrcodeId).value);
    }
  }

  lemma GenerateKeepsWellFormed(t: Tables, s: Store, appId: Option<string>, qrcodeId: string, recordId: int, now: int)
    requires WellFormedRecords(t.qrRecords)
    ensures WellFormedRecords(QrGenerated(t, s, appId, qrcodeId, recordId, now).tables.qrRecords)
  {
  }

  lemma CheckKeepsWellFormed(t: Tables, s: Store, qrcodeId: Option<string>, now: int)
    requires WellFormedRecords(t.qrRecords)
    ensures WellFormedRecords(QrChecked(t, s, qrcodeId, now).0.qrRecords)
  {
    if RecordOf(t, qrcodeId).Some? {
      MarkKeepsWellFormed(t, RecordOf(t, qrcodeId).value);
    }
  }

  lemma ScanKeepsWellFormed(t: Tables, qrcodeId: Option<string>, userId: Option<int>, now: int)
    requires WellFormedRecords(t.qrRecords)
    ensures WellFormedRecords(QrScanned(t, qrcodeId, userId, now).0.qrRecords)
  {
    ClaimKeepsWellFormed(t, qrcodeId, userId, now, QR_SCANNED);
  }

  lemma ConfirmKeepsWellFormed(t: Tables, s: Store, qrcodeId: Option<string>, userId: Option<int>, now: int,
                               token: string, sessionId: int)
    requires WellFormedRecords(t.qrRecords)
    ensures WellFormedRecords(QrConfirmed(t, s, qrcodeId, userId, now, token, sessionId).tables.qrRecords)
  {
    if QrConfirmed(t, s, qrcodeId, userId, now, token, sessionId).result.Ok? {
      ConfirmSuccess(t, s, qrcodeId, userId, now, token, sessionId);
      ClaimKeepsWellFormed(t, qrcodeId, userId, now, QR_CONFIRMED);
    }
  }

  /** generateWxaCode writes to the tables at most the expiry mark of an
      expired record, and then it fails with QR_CODE_EXPIRED. */
  lemma WxaCodeWritesOnlyExpiryMark(t: Tables, s: Store, req: WxaCodeReq, now: int, arrayText: string,
                                    fetched: WeChat.Answer<Option<string>>, image: WeChat.WxaPlatform)
    ensures var o := WxaCodeGenerated(t, s, req, now, arrayText, fetched, image);
      o.tables == t ||
      (RecordOf(t, req.qrcodeId).Some? && ExpiredAt(RecordOf(t, req.qrcodeId).value, now) &&
       o.tables == MarkedExpired(t, RecordOf(t, req.qrcodeId).value) && o.result == Err(Service(ErrorCodes.QR_CODE_EXPIRED)))
  {
  }

  /** The image generateWxaCode answers for a live record is the one cached
      under the record's QR key or, on a miss, one the platform made for a
      request whose scene is the QR code id and whose settings are the
      request's with their defaults; it comes with the record's id and
      expiry time, and is cached under the QR key afterwards. */
  lemma WxaCodeImage(t: Tables, s: Store, req: WxaCodeReq, now: int, arrayText: string,
                     fetched: WeChat.Answer<Option<string>>, image: WeChat.WxaPlatform)
    ensures var o := WxaCodeGenerated(t, s, req, now, arrayText, fetched, image);
      var l := AppLookup(t, s, req.appId);
      var q := WeChat.WxaSettings(req.qrcodeId, req.page, req.width, req.envVersion, req.checkPath, req.hyaline);
      o.result.Ok? ==>
        q.scene == req.qrcodeId && RecordOf(t, req.qrcodeId).Some? && !ExpiredAt(RecordOf(t, req.qrcodeId).value, now) &&
        o.result.value.qrcodeId == RecordOf(t, req.qrcodeId).value.qrcodeId &&
        o.result.value.expireAt == RecordOf(t, req.qrcodeId).value.expireTime &&
        |o.result.value.image| > 0 &&
        (WxaCodeIn(l.store, req.qrcodeId) == Ok(Some(o.result.value.image)) ||
         (WxaCodeIn(l.store, req.qrcodeId) == Ok(None) &&
          exists a: App :: image(a, q) == WeChat.Answered(o.result.value.image))) &&
        WxaCodeIn(o.store, req.qrcodeId) == Ok(Some(o.result.value.image))
  {
    var o := WxaCodeGenerated(t, s, req, now, arrayText, fetched, image);
    var l := AppLookup(t, s, req.appId);
    var q := WeChat.WxaSettings(req.qrcodeId, req.page, req.width, req.envVersion, req.checkPath, req.hyaline);
    if o.result.Ok? {
      var app := Validated(l.value).value;
      var cached := WxaCodeIn(l.store, req.qrcodeId).value;
      if cached.None? {
        WeChat.WxaCodeNeedsToken(t, l.store, app.appId, q, arrayText, fetched, image);
        var token := WeChat.AccessToken(t, l.store, app.appId, arrayText, fetched);
        var a := WeChat.AppLookup(t, token.store, app.appId).value.value.value;
        assert image(a, q) == WeChat.Answered(o.result.value.image);
        var got := WxaImage(t, l.store, app, req, cached, arrayText, fetched, image);
        QrTokenAndImageShareKey(got.store, req.qrcodeId, "", got.value.value);
      }
    }
  }

  lemma WxaCodeKeepsWellFormed(t: Tables, s: Store, req: WxaCodeReq, now: int, arrayText: string,
                               fetched: WeChat.Answer<Option<string>>, image: WeChat.WxaPlatform)
    requires WellFormedRecords(t.qrRecords)
    ensures WellFormedRecords(WxaCodeGenerated(t, s, req, now, arrayText, fetched, image).tables.qrRecords)
  {
    WxaCodeWritesOnlyExpiryMark(t, s, req, now, arrayText, fetched, image);
    if RecordOf(t, req.qrcodeId).Some? {
      MarkKeepsWellFormed(t, RecordOf(t, req.qrcodeId).value);
    }
  }
}

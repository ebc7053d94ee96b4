/**
 * UsersServiceImpl: profile reads and updates, and the e-mail account
 * operations (send a code, register, log in, reset the password). Register,
 * login and reset run in a database transaction: when they throw, the tables
 * return to where they started, while cache writes (a consumed code, a cached
 * session) stay. The password hash, the JWT, the clock, new row ids, the
 * random code and the outcome of sending the mail are inputs.
 */
module Users {
  import opened Wrappers
  import opened Text
  import opened Entities
  import opened Converters
  import opened RedisCache
  import opened Database
  import opened Outcomes
  import opened VerificationCodes
  import ErrorCodes
  import CacheConstants

  datatype UpdateReq = UpdateReq(nickname: Option<string>, avatarUrl: Option<string>)
  datatype RegisterReq = RegisterReq(email: Option<string>, password: Option<string>, code: Option<string>,
                                     nickname: Option<string>)
  datatype LoginReq = LoginReq(email: Option<string>, password: Option<string>, code: Option<string>,
                               loginType: Option<int>)
  datatype ResetReq = ResetReq(email: Option<string>, newPassword: Option<string>, code: Option<string>)

  const DEFAULT_NICKNAME := "新用户"
  const PASSWORD_LOGIN := 1
  const CODE_LOGIN := 2
  /** A web login lasts seven days (times are epoch milliseconds). */
  const SESSION_SECONDS := 7 * 24 * 3600

  const ID_REQUIRED := "用户ID不能为空"
  const USER_MISSING := "用户不存在"
  const EMAIL_REQUIRED := "邮箱不能为空"
  const CODE_REJECTED := "验证码错误或已过期"
  const EMAIL_TAKEN := "该邮箱已注册"
  const WRONG_PASSWORD := "密码错误"
  const UNSUPPORTED_LOGIN := "不支持的登录方式"

  // ---------------------------------------------------------------------
  // getById and update

  function UserById(t: Tables, userId: Option<int>): Option<UsersDto> {
    if userId.None? then None else UsersToDto(First(UsersWithId(t.users, userId)))
  }

  /** A field takes the requested value only when that is non-blank and
      differs from the stored one. */
  function Edited(u: User, req: UpdateReq): User {
    u.(nickname := if HasText(req.nickname) && req.nickname != u.nickname then req.nickname else u.nickname,
       avatarUrl := if HasText(req.avatarUrl) && req.avatarUrl != u.avatarUrl then req.avatarUrl else u.avatarUrl)
  }

  /** update: the tables afterwards and the answer. The row is written back
      only when a field changed. */
  function ProfileUpdate(t: Tables, userId: Option<int>, req: UpdateReq): (Tables, Result<UsersDto, Fault>) {
    if userId.None? then (t, Err(Runtime(ID_REQUIRED)))
    else match First(UsersWithId(t.users, userId))
      case None => (t, Err(Runtime(USER_MISSING)))
      case Some(u) =>
        var e := Edited(u, req);
        (if e == u then t else t.(users := UpdateUsers(t.users, e)), Ok(UserToDto(e)))
  }

  // ---------------------------------------------------------------------
  // sendEmailCode

  /** The cache after sendEmailCode, and how it ended. A code is generated
      only for a non-blank e-mail; it stays stored when the mail fails. */
  function SendCode(s: Store, email: Option<string>, scene: Option<int>, random: nat, mailed: bool)
    : (Store, Result<(), Fault>)
    requires random < 1000000
  {
    if !HasText(email) then (s, Err(Runtime(EMAIL_REQUIRED)))
    else (Generated(s, email, scene, random), if mailed then Ok(()) else Err(Service(ErrorCodes.EMAIL_SEND_FAILED)))
  }

  // ---------------------------------------------------------------------
  // buildLoginResponse

  function NewSession(user: User, token: string, now: int): UserSession {
    UserSession(None, user.id, None, Some(token), None, None, Some(now + SESSION_SECONDS * 1000))
  }

  function LoginReply(user: User, token: string): LoginRes {
    LoginRes(token, SESSION_SECONDS, LoginUserInfo(user.id, user.nickname, user.avatarUrl, user.email))
  }

  /** A session row expiring in seven days, then the token and the user in
      the cache. */
  function LoginResponse(t: Tables, s: Store, user: User, token: string, now: int, sessionId: int): Outcome<LoginRes> {
    var t' := t.(sessions := t.sessions + [NewSession(user, token, now).(id := Some(sessionId))]);
    match CacheSessionIn(s, Some(token), user.id)
    case Err(f) => Outcome(t', s, Err(f))
    case Ok(s1) =>
      match CacheUserIn(s1, Some(UserToDto(user)))
      case Err(f) => Outcome(t', s1, Err(f))
      case Ok(s2) => Outcome(t', s2, Ok(LoginReply(user, token)))
  }

  // ---------------------------------------------------------------------
  // registerByEmail, loginByEmail, resetPassword

  function NewUser(email: Option<string>, hashed: string, nickname: Option<string>): User {
    User(None, if HasText(nickname) then nickname else Some(DEFAULT_NICKNAME), email, Some(hashed), None, Some(ACTIVE))
  }

  /** registerByEmail: the scene-1 code is checked (and consumed) before the
      e-mail is looked up. */
  function Register(t: Tables, s: Store, req: RegisterReq, hash: string -> string, token: string, now: int,
                    userId: int, sessionId: int): Outcome<LoginRes> {
    var v := Verified(s, req.email, Some(SCENE_REGISTER), req.code);
    if !v.0 then Outcome(t, v.1, Err(Runtime(CODE_REJECTED)))
    else match One(UsersWithEmail(t.users, req.email))
      case Err(f) => Outcome(t, v.1, Err(f))
      case Ok(Some(_)) => Outcome(t, v.1, Err(Runtime(EMAIL_TAKEN)))
      case Ok(None) =>
        if req.password.None? then Outcome(t, v.1, Err(NullPointer))
        else
          var u := NewUser(req.email, hash(req.password.value), req.nickname).(id := Some(userId));
          Transactional(t, LoginResponse(t.(users := t.users + [u]), v.1, u, token, now, sessionId))
  }

  /** loginByEmail: the user is looked up first; type 1 compares password
      hashes, type 2 checks (and consumes) a scene-2 code. */
  function Login(t: Tables, s: Store, req: LoginReq, hash: string -> string, token: string, now: int,
                 sessionId: int): Outcome<LoginRes> {
    match One(UsersWithEmail(t.users, req.email))
    case Err(f) => Outcome(t, s, Err(f))
    case Ok(None) => Outcome(t, s, Err(Runtime(USER_MISSING)))
    case Ok(Some(u)) =>
      if req.loginType.None? then Outcome(t, s, Err(NullPointer))
      else if req.loginType.value == PASSWORD_LOGIN then
        if req.password.None? then Outcome(t, s, Err(NullPointer))
        else if Some(hash(req.password.value)) != u.password then Outcome(t, s, Err(Runtime(WRONG_PASSWORD)))
        else Transactional(t, LoginResponse(t, s, u, token, now, sessionId))
      else if req.loginType.value == CODE_LOGIN then
        var v := Verified(s, req.email, Some(SCENE_LOGIN), req.code);
        if !v.0 then Outcome(t, v.1, Err(Runtime(CODE_REJECTED)))
        else Transactional(t, LoginResponse(t, v.1, u, token, now, sessionId))
      else Outcome(t, s, Err(Runtime(UNSUPPORTED_LOGIN)))
  }

  /** resetPassword: the scene-3 code is checked (and consumed) before the
      user is looked up. */
  function Reset(t: Tables, s: Store, req: ResetReq, hash: string -> string): Outcome<()> {
    var v := Verified(s, req.email, Some(SCENE_RESET), req.code);
    if !v.0 then Outcome(t, v.1, Err(Runtime(CODE_REJECTED)))
    else match One(UsersWithEmail(t.users, req.email))
      case Err(f) => Outcome(t, v.1, Err(f))
      case Ok(None) => Outcome(t, v.1, Err(Runtime(USER_MISSING)))
      case Ok(Some(u)) =>
        if req.newPassword.None? then Outcome(t, v.1, Err(NullPointer))
        else Outcome(t.(users := UpdateUsers(t.users, u.(password := Some(hash(req.newPassword.value))))), v.1, Ok(()))
  }

  // ---------------------------------------------------------------------
  // The service

  class UsersService {
    const db: Db
    const cache: CacheService
    const codes: VerificationCodeService

    constructor(db: Db, cache: CacheService, codes: VerificationCodeService)
      requires codes.cache == cache
      ensures this.db == db && this.cache == cache && this.codes == codes
    {
      this.db := db;
      this.cache := cache;
      this.codes := codes;
    }

    method GetById(userId: Option<int>) returns (r: Option<UsersDto>)
      ensures r == UserById(db.tables, userId)
    {
      if userId.None? {
        return None;
      }
      var user := db.SelectUserById(userId);
      if user.None? {
        return None;
      }
      r := Some(UserToDto(user.value));
    }

    method Update(userId: Option<int>, req: UpdateReq) returns (r: Result<UsersDto, Fault>)
      modifies db
      ensures (db.tables, r) == ProfileUpdate(old(db.tables), userId, req)
    {
      if userId.None? {
        return Err(Runtime(ID_REQUIRED));
      }
      var found := db.SelectUserById(userId);
      if found.None? {
        return Err(Runtime(USER_MISSING));
      }
      var user := found.value;
      var needUpdate := false;
      if HasText(req.nickname) && req.nickname != user.nickname {
        user := user.(nickname := req.nickname);
        needUpdate := true;
      }
      if HasText(req.avatarUrl) && req.avatarUrl != user.avatarUrl {
        user := user.(avatarUrl := req.avatarUrl);
        needUpdate := true;
      }
      if needUpdate {
        db.UpdateUserById(user);
      }
      r := Ok(UserToDto(user));
    }

    /** `random` is the verification code's random number; `mailed` says
        whether the mail server took the message. */
    method SendEmailCode(email: Option<string>, scene: Option<int>, random: nat, mailed: bool) returns (c: Completion)
      requires codes.cache == cache && random < 1000000
      modifies cache
      ensures var x := SendCode(old(cache.store), email, scene, random, mailed);
        cache.store == x.0 && c == CompletionOf(x.1)
    {
      if !HasText(email) {
        return Abrupt(Runtime(EMAIL_REQUIRED));
      }
      var _ := codes.GenerateCode(email, scene, random);
      if !mailed {
        return Abrupt(Service(ErrorCodes.EMAIL_SEND_FAILED));
      }
      c := Normal;
    }

    method BuildLoginResponse(user: User, token: string, now: int, sessionId: int) returns (r: Result<LoginRes, Fault>)
      modifies db, cache
      ensures var o := LoginResponse(old(db.tables), old(cache.store), user, token, now, sessionId);
        db.tables == o.tables && cache.store == o.store && r == o.result
    {
      var _ := db.InsertSession(NewSession(user, token, now), sessionId);
      var c := cache.CacheUserSession(Some(token), user.id);
      if c.Abrupt? {
        return Err(c.fault);
      }
      c := cache.CacheUserInfo(Some(UserToDto(user)));
      if c.Abrupt? {
        return Err(c.fault);
      }
      r := Ok(LoginReply(user, token));
    }

    method RegisterByEmail(req: RegisterReq, hash: string -> string, token: string, now: int, userId: int, sessionId: int)
      returns (r: Result<LoginRes, Fault>)
      requires codes.cache == cache
      modifies db, cache
      ensures var o := Register(old(db.tables), old(cache.store), req, hash, token, now, userId, sessionId);
        db.tables == o.tables && cache.store == o.store && r == o.result
    {
      var saved := db.tables;
      var ok := codes.VerifyCode(req.email, Some(SCENE_REGISTER), req.code);
      if !ok {
        return Err(Runtime(CODE_REJECTED));
      }
      var existing := db.SelectOneUserByEmail(req.email);
      if existing.Err? {
        return Err(existing.error);
      }
      if existing.value.Some? {
        return Err(Runtime(EMAIL_TAKEN));
      }
      if req.password.None? {
        return Err(NullPointer);
      }
      var user := db.InsertUser(NewUser(req.email, hash(req.password.value), req.nickname), userId);
      r := BuildLoginResponse(user, token, now, sessionId);
      if r.Err? {
        db.Restore(saved);
      }
    }

    method LoginByEmail(req: LoginReq, hash: string -> string, token: string, now: int, sessionId: int)
      returns (r: Result<LoginRes, Fault>)
      requires codes.cache == cache
      modifies db, cache
      ensures var o := Login(old(db.tables), old(cache.store), req, hash, token, now, sessionId);
        db.tables == o.tables && cache.store == o.store && r == o.result
    {
      var saved := db.tables;
      var found := db.SelectOneUserByEmail(req.email);
      if found.Err? {
        return Err(found.error);
      }
      if found.value.None? {
        return Err(Runtime(USER_MISSING));
      }
      var user := found.value.value;
      if req.loginType.None? {
        return Err(NullPointer);
      } else if req.loginType.value == PASSWORD_LOGIN {
        if req.password.None? {
          return Err(NullPointer);
        }
        if Some(hash(req.password.value)) != user.password {
          return Err(Runtime(WRONG_PASSWORD));
        }
      } else if req.loginType.value == CODE_LOGIN {
        var ok := codes.VerifyCode(req.email, Some(SCENE_LOGIN), req.code);
        if !ok {
          return Err(Runtime(CODE_REJECTED));
        }
      } else {
        return Err(Runtime(UNSUPPORTED_LOGIN));
      }
      r := BuildLoginResponse(user, token, now, sessionId);
      if r.Err? {
        db.Restore(saved);
      }
    }

    method ResetPassword(req: ResetReq, hash: string -> string) returns (c: Completion)
      requires codes.cache == cache
      modifies db, cache
      ensures var o := Reset(old(db.tables), old(cache.store), req, hash);
        db.tables == o.tables && cache.store == o.store && c == CompletionOf(o.result)
    {
      var ok := codes.VerifyCode(req.email, Some(SCENE_RESET), req.code);
      if !ok {
        return Abrupt(Runtime(CODE_REJECTED));
      }
      var found := db.SelectOneUserByEmail(req.email);
      if found.Err? {
        return Abrupt(found.error);
      }
      if found.value.None? {
        return Abrupt(Runtime(USER_MISSING));
      }
      if req.newPassword.None? {
        return Abrupt(NullPointer);
      }
      db.UpdateUserById(found.value.value.(password := Some(hash(req.newPassword.value))));
      c := Normal;
    }
  }

  // ---------------------------------------------------------------------
  // Properties of getById and update

  /** getById is null exactly for a null id or an id no row carries; a user
      it finds carries the id asked for. */
  lemma UserByIdNullIff(t: Tables, userId: Option<int>)
    ensures UserById(t, userId).None? <==> userId.None? || UsersWithId(t.users, userId) == []
    ensures UserById(t, userId).Some? ==> UserById(t, userId).value.id == userId
  {
    if UserById(t, userId).Some? {
      assert UsersWithId(t.users, userId)[0] in UsersWithId(t.users, userId);
    }
  }

  /** update fails exactly for a null id or an unknown user, and then writes
      nothing. A field of the answer is either the stored value or the
      requested one, and it is the requested one only when that is non-blank
      and differs from the stored one. */
  lemma UpdateChangesOnlyToNonBlankDifferent(t: Tables, userId: Option<int>, req: UpdateReq)
    ensures var (t', r) := ProfileUpdate(t, userId, req);
      (r.Err? <==> userId.None? || UsersWithId(t.users, userId) == []) &&
      (r.Err? ==> t' == t) &&
      (r.Ok? ==>
        var u := UsersWithId(t.users, userId)[0];
        r.value.id == userId && r.value.status == u.status &&
        (r.value.nickname == u.nickname || (HasText(req.nickname) && r.value.nickname == req.nickname)) &&
        (r.value.nickname != u.nickname ==> HasText(req.nickname)) &&
        (r.value.avatar == u.avatarUrl || (HasText(req.avatarUrl) && r.value.avatar == req.avatarUrl)) &&
        (r.value.avatar != u.avatarUrl ==> HasText(req.avatarUrl)))
  {
    if userId.Some? && UsersWithId(t.users, userId) != [] {
      assert UsersWithId(t.users, userId)[0] in UsersWithId(t.users, userId);
    }
  }

  /** The row is written only when the request changes a field. */
  lemma UpdateWritesOnlyOnChange(t: Tables, userId: Option<int>, req: UpdateReq)
    requires userId.Some? && UsersWithId(t.users, userId) != []
    ensures var u := UsersWithId(t.users, userId)[0];
      ProfileUpdate(t, userId, req).0 ==
        if Edited(u, req) == u then t else t.(users := UpdateUsers(t.users, Edited(u, req)))
  {
  }

  /** updateById on the first row with an id: that row's image is the first
      row with the id afterwards. */
  lemma {:induction false} FirstAfterUpdate(rows: seq<User>, u: User, id: Option<int>)
    requires u.id == id
    ensures First(UsersWithId(UpdateUsers(rows, u), id)) ==
      if UsersWithId(rows, id) == [] then None else Some(MergeUser(UsersWithId(rows, id)[0], u))
  {
    if rows != [] {
      var init := rows[..|rows| - 1];
      var last := rows[|rows| - 1];
      var updated := UpdateUsers(rows, u);
      assert updated[..|rows| - 1] == UpdateUsers(init, u);
      assert updated == UpdateUsers(init, u) + [updated[|rows| - 1]];
      FirstAfterUpdate(init, u, id);
      assert UsersWithId(updated, id) ==
        UsersWithId(UpdateUsers(init, u), id) + (if SqlEq(updated[|rows| - 1].id, id) then [updated[|rows| - 1]] else []);
    }
  }

  /** Repeating an update that succeeded writes nothing and answers the
      same. */
  lemma UpdateIsIdempotent(t: Tables, userId: Option<int>, req: UpdateReq)
    requires ProfileUpdate(t, userId, req).1.Ok?
    ensures var first := ProfileUpdate(t, userId, req);
      ProfileUpdate(first.0, userId, req) == first
  {
    var u := UsersWithId(t.users, userId)[0];
    assert u in UsersWithId(t.users, userId);
    var e := Edited(u, req);
    if e != u {
      FirstAfterUpdate(t.users, e, userId);
      assert MergeUser(u, e) == e;
    }
  }

  // ---------------------------------------------------------------------
  // Properties of sendEmailCode

  /** A blank e-mail is refused before any code exists; otherwise the
      six-digit code is stored under the (e-mail, scene) key whether or not
      the mail goes out. */
  lemma SendCodeGuard(s: Store, email: Option<string>, scene: Option<int>, random: nat, mailed: bool)
    requires random < 1000000
    ensures !HasText(email) ==> SendCode(s, email, scene, random, mailed) == (s, Err(Runtime(EMAIL_REQUIRED)))
    ensures HasText(email) ==>
      StoredCode(SendCode(s, email, scene, random, mailed).0, email, scene) == Some(Pad6(random)) &&
      (SendCode(s, email, scene, random, mailed).1.Ok? <==> mailed)
  {
    GeneratedCodeStored(s, email, scene, random);
  }

  // ---------------------------------------------------------------------
  // Properties of buildLoginResponse

  /** The login response: a session row for the user expiring seven days
      from now, the token leading to the user id in the cache, and an
      answer valid for 604800 seconds carrying the user's fields. */
  lemma LoginResponseEffect(t: Tables, s: Store, user: User, token: string, now: int, sessionId: int)
    ensures var o := LoginResponse(t, s, user, token, now, sessionId);
      o.tables.sessions == t.sessions + [UserSession(Some(sessionId), user.id, None, Some(token), None, None, Some(now + 604800000))] &&
      o.tables.users == t.users &&
      (o.result.Ok? ==>
        SessionIn(o.store, Some(token)) == Ok(user.id) &&
        o.result.value.token == token && o.result.value.expiresIn == 604800 &&
        o.result.value.userInfo == LoginUserInfo(user.id, user.nickname, user.avatarUrl, user.email))
  {
    var o := LoginResponse(t, s, user, token, now, sessionId);
    if o.result.Ok? {
      var s1 := CacheSessionIn(s, Some(token), user.id).value;
      SessionRoundTrip(s, Some(token), user.id);
      UserKeyIsNotSessionKey(user.id, token);
      WriteKeepsOthers(s1, UserInfoKey(user.id), Some(UserValue(UserToDto(user))), CacheConstants.USER_INFO_EXPIRE, SessionKey(Some(token)));
    }
  }


  // ---------------------------------------------------------------------
  // Properties of registerByEmail

  /** A rejected code ends registration with nothing written. */
  lemma RegisterNeedsCode(t: Tables, s: Store, req: RegisterReq, hash: string -> string, token: string, now: int,
                          userId: int, sessionId: int)
    requires !Verified(s, req.email, Some(SCENE_REGISTER), req.code).0
    ensures Register(t, s, req, hash, token, now, userId, sessionId) == Outcome(t, s, Err(Runtime(CODE_REJECTED)))
  {
  }

  /** The code is consumed before the e-mail is checked: registering an
      address already in use fails, writes no row and still uses up the
      code. */
  lemma RegisterTakenEmailConsumesCode(t: Tables, s: Store, req: RegisterReq, hash: string -> string, token: string,
                                       now: int, userId: int, sessionId: int)
    requires Verified(s, req.email, Some(SCENE_REGISTER), req.code).0
    requires UsersWithEmail(t.users, req.email) != []
    ensures var o := Register(t, s, req, hash, token, now, userId, sessionId);
      o.result.Err? && o.tables == t && StoredCode(o.store, req.email, Some(SCENE_REGISTER)).None?
  {
  }

  /** A successful registration appends one active user with the hashed
      password and the given nickname, or "新用户" when none is given, and
      logs that user in. */
  lemma RegisteredUser(t: Tables, s: Store, req: RegisterReq, hash: string -> string, token: string, now: int,
                       userId: int, sessionId: int)
    requires Register(t, s, req, hash, token, now, userId, sessionId).result.Ok?
    ensures var o := Register(t, s, req, hash, token, now, userId, sessionId);
      var nick := if HasText(req.nickname) then req.nickname else Some(DEFAULT_NICKNAME);
      req.password.Some? && UsersWithEmail(t.users, req.email) == [] &&
      o.tables.users == t.users + [User(Some(userId), nick, req.email, Some(hash(req.password.value)), None, Some(1))] &&
      o.result.value.userInfo == LoginUserInfo(Some(userId), nick, None, req.email) &&
      SessionIn(o.store, Some(token)) == Ok(Some(userId))
  {
    var v := Verified(s, req.email, Some(SCENE_REGISTER), req.code);
    var u := NewUser(req.email, hash(req.password.value), req.nickname).(id := Some(userId));
    LoginResponseEffect(t.(users := t.users + [u]), v.1, u, token, now, sessionId);
  }

  /** Whoever registers with an e-mail and a password can then log in with
      them. */
  lemma RegisterThenPasswordLogin(t: Tables, s: Store, req: RegisterReq, hash: string -> string, token: string,
                                  now: int, userId: int, sessionId: int, code: Option<string>, token': string,
                                  later: int, sessionId': int)
    requires req.email.Some?
    requires Register(t, s, req, hash, token, now, userId, sessionId).result.Ok?
    requires SessionKey(Some(token')).Some?
    ensures var o := Register(t, s, req, hash, token, now, userId, sessionId);
      var l := Login(o.tables, o.store, LoginReq(req.email, req.password, code, Some(PASSWORD_LOGIN)), hash, token', later, sessionId');
      l.result.Ok? && l.result.value.userInfo.id == Some(userId)
  {
    var o := Register(t, s, req, hash, token, now, userId, sessionId);
    RegisteredUser(t, s, req, hash, token, now, userId, sessionId);
    var u := NewUser(req.email, hash(req.password.value), req.nickname).(id := Some(userId));
    UsersWithEmailAppend(t.users, u, req.email);
    assert UsersWithEmail(o.tables.users, req.email) == [u];
    var v := Verified(s, req.email, Some(SCENE_REGISTER), req.code);
    assert CacheUserIn(CacheSessionIn(v.1, Some(token), u.id).value, Some(UserToDto(u))).Ok?;
    assert UserInfoKey(u.id).Some?;
  }

  // ---------------------------------------------------------------------
  // Properties of loginByEmail

  /** A login succeeds only for the user the e-mail finds, and only with
      the matching password hash (type 1) or an accepted scene-2 code
      (type 2). */
  lemma LoginNeedsCredential(t: Tables, s: Store, req: LoginReq, hash: string -> string, token: string, now: int,
                             sessionId: int)
    requires Login(t, s, req, hash, token, now, sessionId).result.Ok?
    ensures |UsersWithEmail(t.users, req.email)| == 1
    ensures var u := UsersWithEmail(t.users, req.email)[0];
      var r := Login(t, s, req, hash, token, now, sessionId).result.value;
      r.userInfo.id == u.id && r.userInfo.email == u.email &&
      ((req.loginType == Some(PASSWORD_LOGIN) && req.password.Some? && u.password == Some(hash(req.password.value))) ||
       (req.loginType == Some(CODE_LOGIN) && Verified(s, req.email, Some(SCENE_LOGIN), req.code).0))
  {
    var o := Login(t, s, req, hash, token, now, sessionId);
    var u := UsersWithEmail(t.users, req.email)[0];
    var v := Verified(s, req.email, Some(SCENE_LOGIN), req.code);
    if req.loginType == Some(PASSWORD_LOGIN) {
      assert o == Transactional(t, LoginResponse(t, s, u, token, now, sessionId));
    } else {
      assert req.loginType == Some(CODE_LOGIN) && v.0;
      assert o == Transactional(t, LoginResponse(t, v.1, u, token, now, sessionId));
    }
  }

  /** The failures of a login, in the order the checks run; none of them
      writes a row. */
  lemma LoginFailures(t: Tables, s: Store, req: LoginReq, hash: string -> string, token: string, now: int,
                      sessionId: int)
    ensures var o := Login(t, s, req, hash, token, now, sessionId);
      (UsersWithEmail(t.users, req.email) == [] ==> o == Outcome(t, s, Err(Runtime(USER_MISSING)))) &&
      (|UsersWithEmail(t.users, req.email)| == 1 ==>
        var u := UsersWithEmail(t.users, req.email)[0];
        (req.loginType == Some(PASSWORD_LOGIN) && req.password.Some? && u.password != Some(hash(req.password.value)) ==>
          o == Outcome(t, s, Err(Runtime(WRONG_PASSWORD)))) &&
        (req.loginType.Some? && req.loginType.value != PASSWORD_LOGIN && req.loginType.value != CODE_LOGIN ==>
          o == Outcome(t, s, Err(Runtime(UNSUPPORTED_LOGIN))))) &&
      (o.result.Err? ==> o.tables == t)
  {
  }

  /** A code login consumes its code: the same code cannot log in twice. */
  lemma CodeLoginIsOneShot(t: Tables, s: Store, req: LoginReq, hash: string -> string, token: string, now: int,
                           sessionId: int, t2: Tables, token2: string, later: int, sessionId2: int)
    requires req.loginType == Some(CODE_LOGIN)
    requires Login(t, s, req, hash, token, now, sessionId).result.Ok?
    ensures var o := Login(t, s, req, hash, token, now, sessionId);
      !Login(t2, o.store, req, hash, token2, later, sessionId2).result.Ok?
  {
    var u := UsersWithEmail(t.users, req.email)[0];
    var v := Verified(s, req.email, Some(SCENE_LOGIN), req.code);
    var o := LoginResponse(t, v.1, u, token, now, sessionId);
    CodeIsConsumed(s, req.email, Some(SCENE_LOGIN), req.code, req.code);
    var s1 := CacheSessionIn(v.1, Some(token), u.id).value;
    SessionWriteKeepsCodes(v.1, token, u.id, req.email, Some(SCENE_LOGIN));
    UserWriteKeepsCodes(s1, UserToDto(u), req.email, Some(SCENE_LOGIN));
  }

  /** A write to any key other than a code's leaves that code stored. */
  lemma WriteKeepsCode(s: Store, key: Option<string>, v: Option<CacheValue>, ttl: int, email: Option<string>,
                       scene: Option<int>)
    requires Write(s, key, v, ttl).Ok? && key != Some(CacheKey(email, scene))
    ensures StoredCode(Write(s, key, v, ttl).value, email, scene) == StoredCode(s, email, scene)
  {
    WriteKeepsOthers(s, key, v, ttl, Some(CacheKey(email, scene)));
  }

  /** Caching a session leaves every verification code where it was. */
  lemma SessionWriteKeepsCodes(s: Store, token: string, userId: Option<int>, email: Option<string>, scene: Option<int>)
    requires CacheSessionIn(s, Some(token), userId).Ok?
    ensures StoredCode(CacheSessionIn(s, Some(token), userId).value, email, scene) == StoredCode(s, email, scene)
  {
    SessionKeyIsNoCodeKey(Some(token), email, scene);
    WriteKeepsCode(s, SessionKey(Some(token)), NumberOf(userId), CacheConstants.USER_SESSION_EXPIRE, email, scene);
  }

  lemma SessionKeyIsNoCodeKey(token: Option<string>, email: Option<string>, scene: Option<int>)
    ensures SessionKey(token) != Some(CacheKey(email, scene))
  {
    CodeKeyIsNoTemplateKey(CacheConstants.UserSession, [NullableText(token)], email, scene);
    assert CacheConstants.Template(CacheConstants.UserSession) == CacheConstants.USER_SESSION_KEY;
  }

  lemma UserKeyIsNoCodeKey(userId: Option<int>, email: Option<string>, scene: Option<int>)
    ensures UserInfoKey(userId) != Some(CacheKey(email, scene))
  {
    CodeKeyIsNoTemplateKey(CacheConstants.UserInfo, [LongText(userId)], email, scene);
    assert CacheConstants.Template(CacheConstants.UserInfo) == CacheConstants.USER_INFO_KEY;
  }

  /** Caching a user leaves every verification code where it was. */
  lemma UserWriteKeepsCodes(s: Store, d: UsersDto, email: Option<string>, scene: Option<int>)
    requires CacheUserIn(s, Some(d)).Ok?
    ensures StoredCode(CacheUserIn(s, Some(d)).value, email, scene) == StoredCode(s, email, scene)
  {
    UserKeyIsNoCodeKey(d.id, email, scene);
    WriteKeepsCode(s, UserInfoKey(d.id), Some(UserValue(d)), CacheConstants.USER_INFO_EXPIRE, email, scene);
  }

  // ---------------------------------------------------------------------
  // Properties of resetPassword

  /** The code is checked first: a rejected code changes nothing, and an
      accepted one is consumed even when no user has the e-mail. */
  lemma ResetChecksCodeFirst(t: Tables, s: Store, req: ResetReq, hash: string -> string)
    ensures var v := Verified(s, req.email, Some(SCENE_RESET), req.code);
      var o := Reset(t, s, req, hash);
      (!v.0 ==> o == Outcome(t, s, Err(Runtime(CODE_REJECTED)))) &&
      (v.0 && UsersWithEmail(t.users, req.email) == [] ==>
        o == Outcome(t, v.1, Err(Runtime(USER_MISSING))) && StoredCode(o.store, req.email, Some(SCENE_RESET)).None?)
  {
  }

  /** A reset stores the hash of the new password in the user's row and
      changes nothing else in it. */
  lemma ResetStoresNewHash(t: Tables, s: Store, req: ResetReq, hash: string -> string, i: int)
    requires Reset(t, s, req, hash).result.Ok?
    requires 0 <= i < |t.users| && t.users[i] == UsersWithEmail(t.users, req.email)[0] && t.users[i].id.Some?
    ensures req.newPassword.Some?
    ensures Reset(t, s, req, hash).tables.users[i] == t.users[i].(password := Some(hash(req.newPassword.value)))
  {
  }
}

/**
 * The user-centre error code table: each constant carries a numeric code
 * and a message, and the constants are declared in groups, each group
 * owning one block of a hundred codes.
 */
module ErrorCodes {
  import opened Wrappers

  datatype UserErrorCode =
    | SUCCESS | PARAM_ERROR | SYSTEM_ERROR
    | USER_NOT_FOUND | USER_DISABLED | EMAIL_ALREADY_REGISTERED | EMAIL_NOT_REGISTERED
    | INVALID_CREDENTIALS | PASSWORD_ERROR | INVALID_LOGIN_TYPE | NOT_LOGGED_IN
    | VERIFICATION_CODE_ERROR | VERIFICATION_CODE_EXPIRED | EMAIL_SEND_FAILED | EMAIL_EMPTY
    | QR_CODE_NOT_FOUND | QR_CODE_EXPIRED
    | APP_NOT_FOUND | APP_DISABLED
    | WECHAT_LOGIN_FAILED

  /** getCode. */
  function Code(e: UserErrorCode): int {
    match e
    case SUCCESS => 0
    case PARAM_ERROR => 1001
    case SYSTEM_ERROR => 1002
    case USER_NOT_FOUND => 1100
    case USER_DISABLED => 1101
    case EMAIL_ALREADY_REGISTERED => 1102
    case EMAIL_NOT_REGISTERED => 1103
    case INVALID_CREDENTIALS => 1200
    case PASSWORD_ERROR => 1201
    case INVALID_LOGIN_TYPE => 1202
    case NOT_LOGGED_IN => 1203
    case VERIFICATION_CODE_ERROR => 1300
    case VERIFICATION_CODE_EXPIRED => 1301
    case EMAIL_SEND_FAILED => 1302
    case EMAIL_EMPTY => 1303
    case QR_CODE_NOT_FOUND => 1400
    case QR_CODE_EXPIRED => 1401
    case APP_NOT_FOUND => 1500
    case APP_DISABLED => 1501
    case WECHAT_LOGIN_FAILED => 1600
  }

  /** getMessage. */
  function Message(e: UserErrorCode): string {
    match e
    case SUCCESS => "操作成功"
    case PARAM_ERROR => "参数错误"
    case SYSTEM_ERROR => "系统内部错误"
    case USER_NOT_FOUND => "用户不存在"
    case USER_DISABLED => "用户已被禁用"
    case EMAIL_ALREADY_REGISTERED => "该邮箱已注册"
    case EMAIL_NOT_REGISTERED => "该邮箱未注册"
    case INVALID_CREDENTIALS => "账号或密码错误"
    case PASSWORD_ERROR => "密码错误"
    case INVALID_LOGIN_TYPE => "不支持的登录方式"
    case NOT_LOGGED_IN => "未登录"
    case VERIFICATION_CODE_ERROR => "验证码错误或已过期"
    case VERIFICATION_CODE_EXPIRED => "验证码已过期"
    case EMAIL_SEND_FAILED => "邮件发送失败"
    case EMAIL_EMPTY => "邮箱不能为空"
    case QR_CODE_NOT_FOUND => "二维码不存在"
    case QR_CODE_EXPIRED => "二维码已过期"
    case APP_NOT_FOUND => "应用不存在"
    case APP_DISABLED => "应用已禁用"
    case WECHAT_LOGIN_FAILED => "微信登录失败"
  }

  /** The declaration group a constant sits in: general, user,
      authentication, verification code, QR login, application, WeChat. */
  function Group(e: UserErrorCode): (g: nat)
    ensures g <= 6
  {
    match e
    case SUCCESS | PARAM_ERROR | SYSTEM_ERROR => 0
    case USER_NOT_FOUND | USER_DISABLED | EMAIL_ALREADY_REGISTERED | EMAIL_NOT_REGISTERED => 1
    case INVALID_CREDENTIALS | PASSWORD_ERROR | INVALID_LOGIN_TYPE | NOT_LOGGED_IN => 2
    case VERIFICATION_CODE_ERROR | VERIFICATION_CODE_EXPIRED | EMAIL_SEND_FAILED | EMAIL_EMPTY => 3
    case QR_CODE_NOT_FOUND | QR_CODE_EXPIRED => 4
    case APP_NOT_FOUND | APP_DISABLED => 5
    case WECHAT_LOGIN_FAILED => 6
  }

  /** The constant with a given code, looked up in declaration order. */
  function FromCode(c: int): (r: Option<UserErrorCode>)
    ensures r.Some? ==> Code(r.value) == c
  {
    if c == 0 then Some(SUCCESS)
    else if c == 1001 then Some(PARAM_ERROR)
    else if c == 1002 then Some(SYSTEM_ERROR)
    else if c == 1100 then Some(USER_NOT_FOUND)
    else if c == 1101 then Some(USER_DISABLED)
    else if c == 1102 then Some(EMAIL_ALREADY_REGISTERED)
    else if c == 1103 then Some(EMAIL_NOT_REGISTERED)
    else if c == 1200 then Some(INVALID_CREDENTIALS)
    else if c == 1201 then Some(PASSWORD_ERROR)
    else if c == 1202 then Some(INVALID_LOGIN_TYPE)
    else if c == 1203 then Some(NOT_LOGGED_IN)
    else if c == 1300 then Some(VERIFICATION_CODE_ERROR)
    else if c == 1301 then Some(VERIFICATION_CODE_EXPIRED)
    else if c == 1302 then Some(EMAIL_SEND_FAILED)
    else if c == 1303 then Some(EMAIL_EMPTY)
    else if c == 1400 then Some(QR_CODE_NOT_FOUND)
    else if c == 1401 then Some(QR_CODE_EXPIRED)
    else if c == 1500 then Some(APP_NOT_FOUND)
    else if c == 1501 then Some(APP_DISABLED)
    else if c == 1600 then Some(WECHAT_LOGIN_FAILED)
    else None
  }

  /** Every constant is found again from its code, so no two share one. */
  lemma FromCodeRoundTrip(e: UserErrorCode)
    ensures FromCode(Code(e)) == Some(e)
  {
  }

  /** All codes are pairwise distinct. */
  lemma CodesDistinct(e1: UserErrorCode, e2: UserErrorCode)
    requires Code(e1) == Code(e2)
    ensures e1 == e2
  {
    FromCodeRoundTrip(e1);
    FromCodeRoundTrip(e2);
  }

  /** Every constant but SUCCESS lies in the block of its group:
      1000-1099 for the first group, up to 1600-1699 for the last. */
  lemma CodeInGroupRange(e: UserErrorCode)
    requires e != SUCCESS
    ensures 1000 + 100 * Group(e) <= Code(e) < 1100 + 100 * Group(e)
  {
  }

  /** SUCCESS is the only constant whose code is 0. */
  lemma OnlySuccessIsZero(e: UserErrorCode)
    ensures Code(e) == 0 <==> e == SUCCESS
  {
  }

  /** Distinct constants carry distinct messages. */
  lemma MessagesDistinct(e1: UserErrorCode, e2: UserErrorCode)
    requires e1 != e2
    ensures Message(e1) != Message(e2)
  {
  }
}

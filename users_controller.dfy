/**
 * UsersController: the current-user endpoints and the naming of uploaded
 * avatars. The current user comes from the request's UserContext, the
 * date, the UUID and the object store's answer are parameters.
 */
module Controller {
  import opened Wrappers
  import opened Text
  import opened Entities
  import opened Database
  import opened Converters
  import Context
  import Users

  const AVATAR_PATH_PREFIX := "user-center/avatars/"
  const DEFAULT_EXTENSION := ".jpg"

  const NOT_LOGGED_IN := "未登录"
  const EMPTY_FILE := "文件不能为空"
  const UPLOAD_FAILED := "文件上传失败: "

  // ---------------------------------------------------------------------
  // getCurrentUser and updateUserInfo

  /** getCurrentUser: the stored profile of the context's user, read from
      the table rather than from the context. */
  function CurrentUserReply(t: Tables, c: Context.Snapshot): Result<Option<UsersDto>, Fault> {
    if c.user.None? then Err(Runtime(NOT_LOGGED_IN))
    else Ok(Users.UserById(t, c.user.value.id))
  }

  /** updateUserInfo: update applied to the context's user. */
  function UpdateReply(t: Tables, c: Context.Snapshot, req: Users.UpdateReq): (Tables, Result<UsersDto, Fault>) {
    if c.user.None? then (t, Err(Runtime(NOT_LOGGED_IN)))
    else Users.ProfileUpdate(t, c.user.value.id, req)
  }

  // ---------------------------------------------------------------------
  // uploadAvatar

  /** The date LocalDate.now() gives: a year of the current era. */
  datatype Date = Date(year: int, month: int, day: int)

  predicate ValidDate(d: Date) {
    1 <= d.year <= 999999999 && 1 <= d.month <= 12 && 1 <= d.day <= 31
  }

  /** The "yyyy" field: at least four digits, and a '+' before a year
      that needs more than four. */
  function YearText(year: int): (r: string)
    requires year >= 1
    ensures |r| >= 2
  {
    NatToStringLength(year);
    if year > 9999 then "+" + NatToString(year) else ZeroPadded(year, 4)
  }

  /** DateTimeFormatter.ofPattern("yyyy/MM/dd"). */
  function DatePath(d: Date): (r: string)
    requires ValidDate(d)
  {
    NatToStringLength(d.month);
    NatToStringLength(d.day);
    YearText(d.year) + "/" + ZeroPadded(d.month, 2) + "/" + ZeroPadded(d.day, 2)
  }

  /** The extension: from the last '.' of the original name when it has
      one, ".jpg" otherwise. */
  function Extension(originalName: Option<string>): string {
    if originalName.Some? && '.' in originalName.value
    then originalName.value[LastIndexOf(originalName.value, '.')..]
    else DEFAULT_EXTENSION
  }

  /** The object name: prefix, date directories, UUID and extension. */
  function AvatarFileName(today: Date, uuid: string, ext: string): string
    requires ValidDate(today)
  {
    AVATAR_PATH_PREFIX + DatePath(today) + "/" + uuid + ext
  }

  function AccessUrl(domain: string, fileName: string): string {
    domain + "/" + fileName
  }

  /** An uploaded file as the controller sees it. */
  datatype AvatarFile = AvatarFile(isEmpty: bool, originalName: Option<string>)

  /** How reading the bytes and uploadFile ended: stored, an IOException
      with its message, or another exception, which is not caught. */
  datatype Upload = Stored | IOFailure(message: Option<string>) | Failed(fault: Fault)

  /** uploadAvatar: the access URL of the stored object, or the failure. */
  function UploadAvatar(file: AvatarFile, today: Date, uuid: string, domain: string, upload: string -> Upload)
    : Result<string, Fault>
    requires ValidDate(today)
  {
    if file.isEmpty then Err(Runtime(EMPTY_FILE))
    else
      var fileName := AvatarFileName(today, uuid, Extension(file.originalName));
      match upload(fileName)
      case Stored => Ok(AccessUrl(domain, fileName))
      case IOFailure(message) => Err(Runtime(UPLOAD_FAILED + NullableText(message)))
      case Failed(fault) => Err(fault)
  }

  // ---------------------------------------------------------------------
  // Properties of the current-user endpoints

  /** Without a current user both endpoints refuse with "未登录" and write
      nothing; that is the only way they answer it. */
  lemma AnonymousRefused(t: Tables, c: Context.Snapshot, req: Users.UpdateReq)
    ensures CurrentUserReply(t, c) == Err(Runtime("未登录")) <==> c.user.None?
    ensures c.user.None? ==> UpdateReply(t, c, req) == (t, Err(Runtime("未登录")))
    ensures UpdateReply(t, c, req).1 == Err(Runtime("未登录")) ==> c.user.None?
  {
  }

  /** getCurrentUser answers the profile stored now under the context
      user's id, null when that row is gone. */
  lemma CurrentUserIsStoredProfile(t: Tables, c: Context.Snapshot)
    requires c.user.Some?
    ensures CurrentUserReply(t, c).Ok?
    ensures var r := CurrentUserReply(t, c).value;
      (r.None? <==> Context.UserIdOf(c).None? || UsersWithId(t.users, Context.UserIdOf(c)) == []) &&
      (r.Some? ==> r.value.id == Context.UserIdOf(c) &&
                   r == Some(UserToDto(UsersWithId(t.users, Context.UserIdOf(c))[0])))
  {
    Users.UserByIdNullIff(t, Context.UserIdOf(c));
  }

  /** updateUserInfo edits the current user's row and no other: it fails
      only for a user without id or without row; a success changes only
      rows carrying the current user's id, and answers that user as the
      table now holds it. */
  lemma UpdateActsOnCurrentUser(t: Tables, c: Context.Snapshot, req: Users.UpdateReq)
    requires c.user.Some?
    ensures var (t', r) := UpdateReply(t, c, req);
      (r.Err? <==> Context.UserIdOf(c).None? || UsersWithId(t.users, Context.UserIdOf(c)) == []) &&
      (r.Err? ==> t' == t) &&
      (r.Ok? ==> r.value.id == Context.UserIdOf(c))
    ensures var (t', r) := UpdateReply(t, c, req);
      var id := Context.UserIdOf(c);
      r.Ok? ==>
        t'.(users := t.users) == t && |t'.users| == |t.users| &&
        (forall i :: 0 <= i < |t.users| && t.users[i].id != id ==> t'.users[i] == t.users[i]) &&
        First(UsersWithId(t'.users, id)).Some? && UserToDto(First(UsersWithId(t'.users, id)).value) == r.value
  {
    var id := c.user.value.id;
    Users.UpdateChangesOnlyToNonBlankDifferent(t, id, req);
    if id.Some? && UsersWithId(t.users, id) != [] {
      var u := UsersWithId(t.users, id)[0];
      assert u in UsersWithId(t.users, id);
      var e := Users.Edited(u, req);
      if e != u {
        Users.FirstAfterUpdate(t.users, e, id);
        assert MergeUser(u, e) == e;
      }
    }
  }

  // ---------------------------------------------------------------------
  // Properties of the avatar name

  /** The extension starts with its only '.', and it is the end of the
      original name when that has a '.'; ".jpg" otherwise. */
  lemma ExtensionIsLastDotSuffix(originalName: Option<string>)
    ensures var e := Extension(originalName);
      |e| >= 1 && e[0] == '.' && '.' !in e[1..]
    ensures originalName.Some? && '.' in originalName.value ==>
      EndsWith(originalName.value, Extension(originalName))
    ensures !(originalName.Some? && '.' in originalName.value) ==> Extension(originalName) == ".jpg"
  {
    var e := Extension(originalName);
    if originalName.Some? && '.' in originalName.value {
      var s := originalName.value;
      var k := LastIndexOf(s, '.');
      assert e[1..] == s[k + 1..];
    } else {
      assert e[1..] == "jpg";
    }
  }

  /** The year text reads back as the year. */
  lemma YearTextRoundTrip(year: int)
    requires year >= 1
    ensures var y := YearText(year);
      (year <= 9999 ==> |y| == 4 && AllDigits(y) && DigitsValue(y) == year) &&
      (year > 9999 ==> y[0] == '+' && AllDigits(y[1..]) && DigitsValue(y[1..]) == year)
  {
    NatToStringLength(year);
    ZeroPaddedRoundTrip(year, 4);
    NatToStringRoundTrip(year);
    if year > 9999 {
      assert YearText(year)[1..] == NatToString(year);
    }
  }

  /** The pieces of y + "/" + m + "/" + dd for two-character m and dd. */
  lemma DatePieces(y: string, m: string, dd: string)
    requires |m| == 2 && |dd| == 2
    ensures var p := y + "/" + m + "/" + dd; var n := |p|;
      n == |y| + 6 && p[n - 6] == '/' && p[n - 3] == '/' &&
      p[n - 5..n - 3] == m && p[n - 2..] == dd && p[..n - 6] == y
  {
    var p := y + "/" + m + "/" + dd;
    assert p == y + ("/" + m + "/" + dd);
  }

  /** The date directories read back as the date: year, then a '/', the
      two-digit month, a '/' and the two-digit day. */
  lemma DatePathRoundTrip(d: Date)
    requires ValidDate(d)
    ensures var p := DatePath(d); var n := |p|;
      n >= 8 && p[n - 6] == '/' && p[n - 3] == '/' &&
      AllDigits(p[n - 5..n - 3]) && DigitsValue(p[n - 5..n - 3]) == d.month &&
      AllDigits(p[n - 2..]) && DigitsValue(p[n - 2..]) == d.day &&
      p[..n - 6] == YearText(d.year)
  {
    NatToStringLength(d.month);
    NatToStringLength(d.day);
    ZeroPaddedRoundTrip(d.month, 2);
    ZeroPaddedRoundTrip(d.day, 2);
    DatePieces(YearText(d.year), ZeroPadded(d.month, 2), ZeroPadded(d.day, 2));
  }

  /** Different days give different directories. */
  lemma DatePathInjective(a: Date, b: Date)
    requires ValidDate(a) && ValidDate(b)
    requires DatePath(a) == DatePath(b)
    ensures a == b
  {
    DatePathRoundTrip(a);
    DatePathRoundTrip(b);
    YearTextRoundTrip(a.year);
    YearTextRoundTrip(b.year);
  }

  /** The date directories hold no '.'. */
  lemma DatePathHasNoDot(d: Date)
    requires ValidDate(d)
    ensures '.' !in DatePath(d)
  {
    NatToStringLength(d.year);
    NatToStringLength(d.month);
    NatToStringLength(d.day);
    var y := YearText(d.year);
    assert '.' !in y by {
      if d.year > 9999 {
        assert forall i :: 0 <= i < |y| ==> y[i] == '+' || IsDigit(y[i]);
      } else {
        assert AllDigits(y);
      }
    }
    var m := ZeroPadded(d.month, 2);
    var dd := ZeroPadded(d.day, 2);
    assert '.' !in m && '.' !in dd;
    assert DatePath(d) == y + "/" + m + "/" + dd;
  }

  /** An avatar name lies under the prefix and ends with the extension,
      and the extension's '.' is the only one in it, right after a UUID
      character: no segment of the name is "." or "..". */
  lemma AvatarNameHasSingleDot(today: Date, uuid: string, originalName: Option<string>)
    requires ValidDate(today)
    requires uuid != [] && '.' !in uuid && '/' !in uuid
    ensures var e := Extension(originalName); var name := AvatarFileName(today, uuid, e);
      StartsWith(name, AVATAR_PATH_PREFIX) && EndsWith(name, e) &&
      (forall i :: 0 <= i < |name| && name[i] == '.' ==> i == |name| - |e|) &&
      name[|name| - |e| - 1] == uuid[|uuid| - 1]
  {
    var e := Extension(originalName);
    ExtensionIsLastDotSuffix(originalName);
    DatePathHasNoDot(today);
    var head := AVATAR_PATH_PREFIX + DatePath(today) + "/" + uuid;
    assert '.' !in AVATAR_PATH_PREFIX;
    assert '.' !in head;
    var name := AvatarFileName(today, uuid, e);
    assert name == head + e;
    assert name[..|AVATAR_PATH_PREFIX|] == AVATAR_PATH_PREFIX;
    assert name[|name| - |e|..] == e;
    forall i | 0 <= i < |name| && i != |head|
      ensures name[i] != '.'
    {
      if i < |head| {
        assert name[i] == head[i];
      } else {
        assert name[i] == e[1..][i - |head| - 1];
      }
    }
  }

  /** The URL ends with "/" and the stored object's name, so it names the
      object that was uploaded; with no domain configured it is the bare
      path "/" + name. */
  lemma UrlNamesStoredObject(domain: string, fileName: string)
    ensures var url := AccessUrl(domain, fileName);
      StartsWith(url, domain) && url[|domain|] == '/' && url[|domain| + 1..] == fileName
    ensures AccessUrl("", fileName) == "/" + fileName
  {
    var url := AccessUrl(domain, fileName);
    assert url[..|domain|] == domain;
  }

  /** uploadAvatar refuses an empty file before naming or storing anything;
      otherwise it stores under the avatar name and answers that object's
      URL, turns an IOException into "文件上传失败: " and its message, and
      lets any other exception through. */
  lemma UploadOutcomes(file: AvatarFile, today: Date, uuid: string, domain: string, upload: string -> Upload)
    requires ValidDate(today)
    ensures file.isEmpty ==> UploadAvatar(file, today, uuid, domain, upload) == Err(Runtime("文件不能为空"))
    ensures !file.isEmpty ==>
      var name := AvatarFileName(today, uuid, Extension(file.originalName));
      var r := UploadAvatar(file, today, uuid, domain, upload);
      (r.Ok? <==> upload(name) == Stored) &&
      (r.Ok? ==> r.value == AccessUrl(domain, name)) &&
      (upload(name).IOFailure? ==>
        r == Err(Runtime(UPLOAD_FAILED + NullableText(upload(name).message))) && StartsWith(r.error.message, "文件上传失败: ")) &&
      (upload(name).Failed? ==> r == Err(upload(name).fault))
  {
    if !file.isEmpty {
      var name := AvatarFileName(today, uuid, Extension(file.originalName));
      var r := UploadAvatar(file, today, uuid, domain, upload);
      if upload(name).IOFailure? {
        assert r.error.message[..|UPLOAD_FAILED|] == UPLOAD_FAILED;
      }
    }
  }
}

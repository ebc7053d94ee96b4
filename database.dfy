/**
 * The five tables behind the MyBatis-Plus mappers, and the mapper calls the
 * services make. Rows are kept in store order. A query with eq(column, v)
 * uses SQL equality, so a null v matches no row; selectOne without
 * "LIMIT 1" throws when more than one row matches; updateById writes the
 * non-null fields of the entity into the row with its id.
 */
module Database {
  import opened Wrappers
  import opened Entities

  datatype Tables = Tables(
    users: seq<User>,
    userApps: seq<UserApp>,
    apps: seq<App>,
    qrRecords: seq<QrLoginRecord>,
    sessions: seq<UserSession>)

  /** eq(column, value) as SQL evaluates it. */
  predicate SqlEq<T(==)>(column: Option<T>, value: Option<T>) {
    value.Some? && column == value
  }

  /** selectOne without a limit: no row, the only row, or an exception. */
  function One<T>(hits: seq<T>): (r: Result<Option<T>, Fault>)
    ensures r == Ok(None) <==> hits == []
    ensures r.Ok? && r.value.Some? <==> |hits| == 1
    ensures r.Ok? && r.value.Some? ==> r.value.value == hits[0]
    ensures r.Err? <==> |hits| > 1
    ensures r.Err? ==> r.error == TooManyResults
  {
    if hits == [] then Ok(None)
    else if |hits| == 1 then Ok(Some(hits[0]))
    else Err(TooManyResults)
  }

  /** selectOne with "LIMIT 1", and selectById: the first matching row. */
  function First<T>(hits: seq<T>): (r: Option<T>)
    ensures r.None? <==> hits == []
    ensures r.Some? ==> r.value == hits[0]
  {
    if hits == [] then None else Some(hits[0])
  }

  /** Completes an entity being inserted: a null id is given a new one. */
  function WithId(id: Option<int>, newId: int): Option<int> {
    if id.Some? then id else Some(newId)
  }

  /** updateById: a non-null field of the entity replaces the stored one. */
  function Merge<T>(stored: Option<T>, given: Option<T>): Option<T> {
    if given.Some? then given else stored
  }

  // ---------------------------------------------------------------------
  // users

  function UsersWithId(rows: seq<User>, id: Option<int>): (r: seq<User>)
    ensures forall u :: u in r <==> u in rows && SqlEq(u.id, id)
  {
    if rows == [] then []
    else UsersWithId(rows[..|rows| - 1], id) + (if SqlEq(rows[|rows| - 1].id, id) then [rows[|rows| - 1]] else [])
  }

  function UsersWithEmail(rows: seq<User>, email: Option<string>): (r: seq<User>)
    ensures forall u :: u in r <==> u in rows && SqlEq(u.email, email)
  {
    if rows == [] then []
    else UsersWithEmail(rows[..|rows| - 1], email) + (if SqlEq(rows[|rows| - 1].email, email) then [rows[|rows| - 1]] else [])
  }

  function MergeUser(row: User, u: User): User {
    User(row.id, Merge(row.nickname, u.nickname), Merge(row.email, u.email), Merge(row.password, u.password),
      Merge(row.avatarUrl, u.avatarUrl), Merge(row.status, u.status))
  }

  function UpdateUsers(rows: seq<User>, u: User): (r: seq<User>)
    ensures |r| == |rows|
    ensures forall i :: 0 <= i < |rows| ==> r[i] == if SqlEq(rows[i].id, u.id) then MergeUser(rows[i], u) else rows[i]
  {
    seq(|rows|, i requires 0 <= i < |rows| => if SqlEq(rows[i].id, u.id) then MergeUser(rows[i], u) else rows[i])
  }

  // ---------------------------------------------------------------------
  // user_apps

  /** The active link of an openid in an app. */
  function LinksWithOpenid(rows: seq<UserApp>, appId: Option<int>, openid: Option<string>): (r: seq<UserApp>)
    ensures forall l :: l in r <==> l in rows && SqlEq(l.appId, appId) && SqlEq(l.openid, openid) && l.status == Some(ACTIVE)
  {
    if rows == [] then []
    else
      var l := rows[|rows| - 1];
      LinksWithOpenid(rows[..|rows| - 1], appId, openid)
        + (if SqlEq(l.appId, appId) && SqlEq(l.openid, openid) && l.status == Some(ACTIVE) then [l] else [])
  }

  /** The active links carrying a unionid, in any app. */
  function LinksWithUnionid(rows: seq<UserApp>, unionid: Option<string>): (r: seq<UserApp>)
    ensures forall l :: l in r <==> l in rows && SqlEq(l.unionid, unionid) && l.status == Some(ACTIVE)
  {
    if rows == [] then []
    else
      var l := rows[|rows| - 1];
      LinksWithUnionid(rows[..|rows| - 1], unionid) + (if SqlEq(l.unionid, unionid) && l.status == Some(ACTIVE) then [l] else [])
  }

  function MergeLink(row: UserApp, l: UserApp): UserApp {
    UserApp(row.id, Merge(row.userId, l.userId), Merge(row.appId, l.appId), Merge(row.openid, l.openid),
      Merge(row.unionid, l.unionid), Merge(row.status, l.status))
  }

  function UpdateLinks(rows: seq<UserApp>, l: UserApp): (r: seq<UserApp>)
    ensures |r| == |rows|
    ensures forall i :: 0 <= i < |rows| ==> r[i] == if SqlEq(rows[i].id, l.id) then MergeLink(rows[i], l) else rows[i]
  {
    seq(|rows|, i requires 0 <= i < |rows| => if SqlEq(rows[i].id, l.id) then MergeLink(rows[i], l) else rows[i])
  }

  // ---------------------------------------------------------------------
  // apps

  function AppsWithId(rows: seq<App>, id: Option<int>): (r: seq<App>)
    ensures forall a :: a in r <==> a in rows && SqlEq(a.id, id)
  {
    if rows == [] then []
    else AppsWithId(rows[..|rows| - 1], id) + (if SqlEq(rows[|rows| - 1].id, id) then [rows[|rows| - 1]] else [])
  }

  /** Apps with a WeChat AppId, whatever their status. */
  function AppsWithAppId(rows: seq<App>, appId: Option<string>): (r: seq<App>)
    ensures forall a :: a in r <==> a in rows && SqlEq(a.appId, appId)
  {
    if rows == [] then []
    else AppsWithAppId(rows[..|rows| - 1], appId) + (if SqlEq(rows[|rows| - 1].appId, appId) then [rows[|rows| - 1]] else [])
  }

  /** Enabled apps with a WeChat AppId. */
  function ActiveApps(rows: seq<App>, appId: Option<string>): (r: seq<App>)
    ensures forall a :: a in r <==> a in rows && SqlEq(a.appId, appId) && a.status == Some(ACTIVE)
  {
    if rows == [] then []
    else
      var a := rows[|rows| - 1];
      ActiveApps(rows[..|rows| - 1], appId) + (if SqlEq(a.appId, appId) && a.status == Some(ACTIVE) then [a] else [])
  }

  // ---------------------------------------------------------------------
  // qr_login_records

  function RecordsWithQrcodeId(rows: seq<QrLoginRecord>, qrcodeId: Option<string>): (r: seq<QrLoginRecord>)
    ensures forall q :: q in r <==> q in rows && SqlEq(q.qrcodeId, qrcodeId)
  {
    if rows == [] then []
    else
      RecordsWithQrcodeId(rows[..|rows| - 1], qrcodeId)
        + (if SqlEq(rows[|rows| - 1].qrcodeId, qrcodeId) then [rows[|rows| - 1]] else [])
  }

  function MergeRecord(row: QrLoginRecord, q: QrLoginRecord): QrLoginRecord {
    QrLoginRecord(row.id, Merge(row.qrcodeId, q.qrcodeId), Merge(row.appId, q.appId), Merge(row.userId, q.userId),
      Merge(row.openid, q.openid), Merge(row.status, q.status), Merge(row.expireTime, q.expireTime))
  }

  function UpdateRecords(rows: seq<QrLoginRecord>, q: QrLoginRecord): (r: seq<QrLoginRecord>)
    ensures |r| == |rows|
    ensures forall i :: 0 <= i < |rows| ==> r[i] == if SqlEq(rows[i].id, q.id) then MergeRecord(rows[i], q) else rows[i]
  {
    seq(|rows|, i requires 0 <= i < |rows| => if SqlEq(rows[i].id, q.id) then MergeRecord(rows[i], q) else rows[i])
  }

  // ---------------------------------------------------------------------
  // Properties of the queries

  /** A query over the rows plus one more is the query over the rows, plus
      the new row when it matches. */
  lemma UsersWithEmailAppend(rows: seq<User>, u: User, email: Option<string>)
    ensures UsersWithEmail(rows + [u], email) == UsersWithEmail(rows, email) + (if SqlEq(u.email, email) then [u] else [])
  {
    assert (rows + [u])[..|rows|] == rows;
  }

  lemma UsersWithIdAppend(rows: seq<User>, u: User, id: Option<int>)
    ensures UsersWithId(rows + [u], id) == UsersWithId(rows, id) + (if SqlEq(u.id, id) then [u] else [])
  {
    assert (rows + [u])[..|rows|] == rows;
  }

  lemma LinksWithOpenidAppend(rows: seq<UserApp>, l: UserApp, appId: Option<int>, openid: Option<string>)
    ensures LinksWithOpenid(rows + [l], appId, openid) == LinksWithOpenid(rows, appId, openid)
      + (if SqlEq(l.appId, appId) && SqlEq(l.openid, openid) && l.status == Some(ACTIVE) then [l] else [])
  {
    assert (rows + [l])[..|rows|] == rows;
  }

  lemma RecordsWithQrcodeIdAppend(rows: seq<QrLoginRecord>, q: QrLoginRecord, qrcodeId: Option<string>)
    ensures RecordsWithQrcodeId(rows + [q], qrcodeId) == RecordsWithQrcodeId(rows, qrcodeId)
      + (if SqlEq(q.qrcodeId, qrcodeId) then [q] else [])
  {
    assert (rows + [q])[..|rows|] == rows;
  }

  lemma AppsWithAppIdAppend(rows: seq<App>, a: App, appId: Option<string>)
    ensures AppsWithAppId(rows + [a], appId) == AppsWithAppId(rows, appId) + (if SqlEq(a.appId, appId) then [a] else [])
  {
    assert (rows + [a])[..|rows|] == rows;
  }

  /** No row carries the QR code id: the query finds nothing. */
  lemma {:induction false} RecordsWithQrcodeIdNone(rows: seq<QrLoginRecord>, qrcodeId: Option<string>)
    requires forall j :: 0 <= j < |rows| ==> !SqlEq(rows[j].qrcodeId, qrcodeId)
    ensures RecordsWithQrcodeId(rows, qrcodeId) == []
  {
    if rows != [] {
      RecordsWithQrcodeIdNone(rows[..|rows| - 1], qrcodeId);
    }
  }

  /** The first record found for a QR code id is the first row carrying it. */
  lemma {:induction false} RecordsWithQrcodeIdFirst(rows: seq<QrLoginRecord>, qrcodeId: Option<string>, i: int)
    requires 0 <= i < |rows| && SqlEq(rows[i].qrcodeId, qrcodeId)
    requires forall j :: 0 <= j < i ==> !SqlEq(rows[j].qrcodeId, qrcodeId)
    ensures First(RecordsWithQrcodeId(rows, qrcodeId)) == Some(rows[i])
  {
    var n := |rows| - 1;
    if i == n {
      RecordsWithQrcodeIdNone(rows[..n], qrcodeId);
    } else {
      RecordsWithQrcodeIdFirst(rows[..n], qrcodeId, i);
    }
  }

  /** Conversely, the first record found is at the first row carrying the
      QR code id. */
  lemma {:induction false} RecordsWithQrcodeIdFirstIndex(rows: seq<QrLoginRecord>, qrcodeId: Option<string>)
    returns (i: int)
    requires RecordsWithQrcodeId(rows, qrcodeId) != []
    ensures 0 <= i < |rows| && SqlEq(rows[i].qrcodeId, qrcodeId)
    ensures forall j :: 0 <= j < i ==> !SqlEq(rows[j].qrcodeId, qrcodeId)
    ensures First(RecordsWithQrcodeId(rows, qrcodeId)) == Some(rows[i])
  {
    var n := |rows| - 1;
    if RecordsWithQrcodeId(rows[..n], qrcodeId) != [] {
      i := RecordsWithQrcodeIdFirstIndex(rows[..n], qrcodeId);
      assert rows[..n][i] == rows[i];
      forall j | 0 <= j < i
        ensures !SqlEq(rows[j].qrcodeId, qrcodeId)
      {
        assert rows[..n][j] == rows[j];
      }
    } else {
      i := n;
      forall j | 0 <= j < n
        ensures !SqlEq(rows[j].qrcodeId, qrcodeId)
      {
        assert rows[j] == rows[..n][j] && rows[..n][j] in rows[..n];
        assert rows[j] !in RecordsWithQrcodeId(rows[..n], qrcodeId);
      }
    }
  }

  /** No two QR records share an id. */
  predicate UniqueRecordIds(rows: seq<QrLoginRecord>) {
    forall j, k :: 0 <= j < k < |rows| && rows[j].id.Some? ==> rows[j].id != rows[k].id
  }

  /** With unique ids, updateById with the id of a stored row changes that
      row alone. */
  lemma UpdateOneRecord(rows: seq<QrLoginRecord>, i: int, q: QrLoginRecord)
    requires UniqueRecordIds(rows) && 0 <= i < |rows| && rows[i].id.Some? && q.id == rows[i].id
    ensures UpdateRecords(rows, q) == rows[i := MergeRecord(rows[i], q)]
  {
    var r := UpdateRecords(rows, q);
    forall j | 0 <= j < |rows| && j != i
      ensures r[j] == rows[j]
    {
      assert rows[j].id != rows[i].id by {
        if j < i {
          assert !(rows[j].id.Some? && rows[j].id == rows[i].id);
        }
      }
    }
  }

  // ---------------------------------------------------------------------
  // The mappers

  class Db {
    var tables: Tables

    constructor(t: Tables)
      ensures tables == t
    {
      tables := t;
    }

    /** Rolling back a transaction. */
    method Restore(saved: Tables)
      modifies this
      ensures tables == saved
    {
      tables := saved;
    }

    method SelectUserById(id: Option<int>) returns (r: Option<User>)
      ensures r == First(UsersWithId(tables.users, id))
    {
      r := First(UsersWithId(tables.users, id));
    }

    method SelectOneUserByEmail(email: Option<string>) returns (r: Result<Option<User>, Fault>)
      ensures r == One(UsersWithEmail(tables.users, email))
    {
      r := One(UsersWithEmail(tables.users, email));
    }

    method InsertUser(u: User, newId: int) returns (stored: User)
      modifies this
      ensures stored == u.(id := WithId(u.id, newId))
      ensures tables == old(tables).(users := old(tables).users + [stored])
    {
      stored := u.(id := WithId(u.id, newId));
      tables := tables.(users := tables.users + [stored]);
    }

    method UpdateUserById(u: User)
      modifies this
      ensures tables == old(tables).(users := UpdateUsers(old(tables).users, u))
    {
      tables := tables.(users := UpdateUsers(tables.users, u));
    }

    method SelectOneLinkByOpenid(appId: Option<int>, openid: Option<string>) returns (r: Result<Option<UserApp>, Fault>)
      ensures r == One(LinksWithOpenid(tables.userApps, appId, openid))
    {
      r := One(LinksWithOpenid(tables.userApps, appId, openid));
    }

    method SelectFirstLinkByUnionid(unionid: Option<string>) returns (r: Option<UserApp>)
      ensures r == First(LinksWithUnionid(tables.userApps, unionid))
    {
      r := First(LinksWithUnionid(tables.userApps, unionid));
    }

    method InsertLink(l: UserApp, newId: int) returns (stored: UserApp)
      modifies this
      ensures stored == l.(id := WithId(l.id, newId))
      ensures tables == old(tables).(userApps := old(tables).userApps + [stored])
    {
      stored := l.(id := WithId(l.id, newId));
      tables := tables.(userApps := tables.userApps + [stored]);
    }

    method UpdateLinkById(l: UserApp)
      modifies this
      ensures tables == old(tables).(userApps := UpdateLinks(old(tables).userApps, l))
    {
      tables := tables.(userApps := UpdateLinks(tables.userApps, l));
    }

    method SelectAppById(id: Option<int>) returns (r: Option<App>)
      ensures r == First(AppsWithId(tables.apps, id))
    {
      r := First(AppsWithId(tables.apps, id));
    }

    method SelectOneAppByAppId(appId: Option<string>) returns (r: Result<Option<App>, Fault>)
      ensures r == One(AppsWithAppId(tables.apps, appId))
    {
      r := One(AppsWithAppId(tables.apps, appId));
    }

    method SelectOneActiveApp(appId: Option<string>) returns (r: Result<Option<App>, Fault>)
      ensures r == One(ActiveApps(tables.apps, appId))
    {
      r := One(ActiveApps(tables.apps, appId));
    }

    method SelectAllApps() returns (r: seq<App>)
      ensures r == tables.apps
    {
      r := tables.apps;
    }

    method InsertApp(a: App, newId: int) returns (stored: App)
      modifies this
      ensures stored == a.(id := WithId(a.id, newId))
      ensures tables == old(tables).(apps := old(tables).apps + [stored])
    {
      stored := a.(id := WithId(a.id, newId));
      tables := tables.(apps := tables.apps + [stored]);
    }

    method SelectFirstRecord(qrcodeId: Option<string>) returns (r: Option<QrLoginRecord>)
      ensures r == First(RecordsWithQrcodeId(tables.qrRecords, qrcodeId))
    {
      r := First(RecordsWithQrcodeId(tables.qrRecords, qrcodeId));
    }

    method InsertRecord(q: QrLoginRecord, newId: int) returns (stored: QrLoginRecord)
      modifies this
      ensures stored == q.(id := WithId(q.id, newId))
      ensures tables == old(tables).(qrRecords := old(tables).qrRecords + [stored])
    {
      stored := q.(id := WithId(q.id, newId));
      tables := tables.(qrRecords := tables.qrRecords + [stored]);
    }

    method UpdateRecordById(q: QrLoginRecord)
      modifies this
      ensures tables == old(tables).(qrRecords := UpdateRecords(old(tables).qrRecords, q))
    {
      tables := tables.(qrRecords := UpdateRecords(tables.qrRecords, q));
    }

    method InsertSession(s: UserSession, newId: int) returns (stored: UserSession)
      modifies this
      ensures stored == s.(id := WithId(s.id, newId))
      ensures tables == old(tables).(sessions := old(tables).sessions + [stored])
    {
      stored := s.(id := WithId(s.id, newId));
      tables := tables.(sessions := tables.sessions + [stored]);
    }
  }
}

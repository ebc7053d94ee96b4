/**
 * AppsServiceImpl: registering a mini program under a WeChat AppId no other
 * app uses, and listing the registered apps. The answers never carry the
 * AppSecret.
 */
module Apps {
  import opened Wrappers
  import opened Entities
  import opened Database

  datatype AppCreateReq = AppCreateReq(
    appName: Option<string>, appId: Option<string>, appSecret: Option<string>, description: Option<string>)

  const APP_ID_TAKEN := "应用AppId已存在"

  /** BeanUtils.copyProperties from an app to its answer: the fields the
      two share by name. */
  function AppResOf(a: App): AppRes {
    AppRes(a.id, a.appName, a.appId, a.description, a.status)
  }

  /** The app createApp builds from a request: the request's fields, enabled. */
  function NewApp(req: AppCreateReq): App {
    App(None, req.appName, req.appId, req.appSecret, req.description, Some(ACTIVE))
  }

  /** createApp: the tables afterwards and the answer. */
  function Created(t: Tables, req: AppCreateReq, newId: int): (Tables, Result<AppRes, Fault>) {
    match One(AppsWithAppId(t.apps, req.appId))
    case Err(f) => (t, Err(f))
    case Ok(Some(_)) => (t, Err(Runtime(APP_ID_TAKEN)))
    case Ok(None) =>
      var a := NewApp(req).(id := Some(newId));
      (t.(apps := t.apps + [a]), Ok(AppResOf(a)))
  }

  /** getAppList: one answer per stored app, in store order, and their
      number. */
  function AppList(apps: seq<App>): (r: AppListRes)
    ensures |r.list| == |apps| && r.total == |apps|
    ensures forall i :: 0 <= i < |apps| ==> r.list[i] == AppResOf(apps[i])
  {
    var list := seq(|apps|, i requires 0 <= i < |apps| => AppResOf(apps[i]));
    AppListRes(list, |list|)
  }

  class AppsService {
    const db: Db

    constructor(db: Db)
      ensures this.db == db
    {
      this.db := db;
    }

    method CreateApp(req: AppCreateReq, newId: int) returns (r: Result<AppRes, Fault>)
      modifies db
      ensures (db.tables, r) == Created(old(db.tables), req, newId)
    {
      var existingApp := db.SelectOneAppByAppId(req.appId);
      if existingApp.Err? {
        return Err(existingApp.error);
      }
      if existingApp.value.Some? {
        return Err(Runtime(APP_ID_TAKEN));
      }
      var app := db.InsertApp(NewApp(req), newId);
      r := Ok(AppResOf(app));
    }

    method GetAppList() returns (r: AppListRes)
      ensures r == AppList(db.tables.apps)
    {
      var appsList := db.SelectAllApps();
      r := AppList(appsList);
    }
  }

  // ---------------------------------------------------------------------
  // Properties

  /** An AppId already present, enabled or not, is refused and nothing is
      written. */
  lemma CreateRejectsTakenAppId(t: Tables, req: AppCreateReq, newId: int)
    requires AppsWithAppId(t.apps, req.appId) != []
    ensures Created(t, req, newId).0 == t
    ensures Created(t, req, newId).1 ==
      if |AppsWithAppId(t.apps, req.appId)| == 1 then Err(Runtime(APP_ID_TAKEN)) else Err(TooManyResults)
  {
  }

  /** A created app is appended enabled with the request's name, AppId,
      secret and description, and answered without the secret. */
  lemma CreatedApp(t: Tables, req: AppCreateReq, newId: int)
    requires Created(t, req, newId).1.Ok?
    ensures AppsWithAppId(t.apps, req.appId) == []
    ensures Created(t, req, newId).0.apps ==
      t.apps + [App(Some(newId), req.appName, req.appId, req.appSecret, req.description, Some(1))]
    ensures Created(t, req, newId).1.value == AppRes(Some(newId), req.appName, req.appId, req.description, Some(1))
  {
  }

  /** The answer does not depend on the secret. */
  lemma AnswerHidesSecret(a: App, secret: Option<string>)
    ensures AppResOf(a.(appSecret := secret)) == AppResOf(a)
  {
  }

  /** A created app shows up at the end of the list. */
  lemma CreatedAppIsListed(t: Tables, req: AppCreateReq, newId: int)
    requires Created(t, req, newId).1.Ok?
    ensures var (t', r) := Created(t, req, newId);
      AppList(t'.apps).list == AppList(t.apps).list + [r.value] && AppList(t'.apps).total == AppList(t.apps).total + 1
  {
    var (t', r) := Created(t, req, newId);
    assert AppList(t'.apps).list == AppList(t.apps).list + [r.value];
  }

  /** No two stored apps share a non-null AppId. */
  predicate UniqueAppIds(apps: seq<App>) {
    forall i, j :: 0 <= i < j < |apps| && apps[i].appId.Some? ==> apps[i].appId != apps[j].appId
  }

  /** createApp keeps AppIds unique. */
  lemma CreateKeepsAppIdsUnique(t: Tables, req: AppCreateReq, newId: int)
    requires UniqueAppIds(t.apps)
    ensures UniqueAppIds(Created(t, req, newId).0.apps)
  {
  }
}

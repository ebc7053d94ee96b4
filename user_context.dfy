/**
 * UserContext: the user, the token and the AppId of the request being
 * served. The source keeps each in a thread-local variable; one request is
 * one object here.
 */
module Context {
  import opened Wrappers
  import opened Entities

  /** The three values as they stand. */
  datatype Snapshot = Snapshot(user: Option<UsersDto>, token: Option<string>, appId: Option<string>)

  /** The context after clear(), or before anything was set. */
  const EMPTY := Snapshot(None, None, None)

  /** getCurrentUserId: the id of the current user, null without one. */
  function UserIdOf(c: Snapshot): (r: Option<int>)
    ensures c.user.None? ==> r.None?
    ensures c.user.Some? ==> r == c.user.value.id
  {
    if c.user.Some? then c.user.value.id else None
  }

  /** getContextSummary: String.format of "userId=%s, appId=%s". */
  function SummaryOf(c: Snapshot): string {
    "userId=" + LongText(UserIdOf(c)) + ", appId=" + NullableText(c.appId)
  }

  class UserContext {
    var user: Option<UsersDto>
    var token: Option<string>
    var appId: Option<string>

    constructor()
      ensures Current() == EMPTY
    {
      user := None;
      token := None;
      appId := None;
    }

    function Current(): Snapshot
      reads this
    {
      Snapshot(user, token, appId)
    }

    method SetCurrentUser(u: Option<UsersDto>)
      modifies this
      ensures Current() == old(Current()).(user := u)
    {
      user := u;
    }

    method GetCurrentUser() returns (u: Option<UsersDto>)
      ensures u == Current().user
    {
      u := user;
    }

    method GetCurrentUserId() returns (id: Option<int>)
      ensures id == UserIdOf(Current())
    {
      var u := GetCurrentUser();
      id := if u.Some? then u.value.id else None;
    }

    method SetCurrentToken(t: Option<string>)
      modifies this
      ensures Current() == old(Current()).(token := t)
    {
      token := t;
    }

    method GetCurrentToken() returns (t: Option<string>)
      ensures t == Current().token
    {
      t := token;
    }

    method SetCurrentAppId(a: Option<string>)
      modifies this
      ensures Current() == old(Current()).(appId := a)
    {
      appId := a;
    }

    method GetCurrentAppId() returns (a: Option<string>)
      ensures a == Current().appId
    {
      a := appId;
    }

    /** isUserLoggedIn: a current user is set. */
    method IsUserLoggedIn() returns (b: bool)
      ensures b <==> Current().user.Some?
    {
      var u := GetCurrentUser();
      b := u.Some?;
    }

    /** isCurrentUser: the current user's id is non-null and equals userId. */
    method IsCurrentUser(userId: Option<int>) returns (b: bool)
      ensures b <==> UserIdOf(Current()).Some? && UserIdOf(Current()) == userId
    {
      var currentUserId := GetCurrentUserId();
      b := currentUserId.Some? && currentUserId == userId;
    }

    method Clear()
      modifies this
      ensures Current() == EMPTY
    {
      user := None;
      token := None;
      appId := None;
    }

    method GetContextSummary() returns (r: string)
      ensures r == SummaryOf(Current())
    {
      var u := GetCurrentUser();
      var a := GetCurrentAppId();
      r := "userId=" + (if u.Some? then LongText(u.value.id) else "null") + ", appId=" + (if a.Some? then a.value else "null");
    }
  }

  // ---------------------------------------------------------------------
  // Properties

  /** After clear() no user is current, and the summary says so. */
  lemma ClearedContextHasNoUser()
    ensures UserIdOf(EMPTY).None?
    ensures SummaryOf(EMPTY) == "userId=null, appId=null"
  {
  }
}

/**
 * The demo session cookie of src/lib/auth.ts. The request's cookie jar is
 * a class holding a map from cookie name to cookie; `NODE_ENV` is a
 * parameter.
 */
module Session {
  import opened Wrappers
  import opened Fixtures

  const SessionCookieName := "collective-chat-session"
  /** `60 * 60 * 24 * 7` seconds: one week. */
  const OneWeek := 604800

  datatype Cookie = Cookie(value: string, httpOnly: bool, secure: bool, maxAge: nat, path: string)

  /** The session cookie `setAuthCookie` writes for a user id. */
  function SessionCookie(userId: string, nodeEnv: Option<string>): (c: Cookie)
    ensures c.value == userId && c.httpOnly && c.maxAge == 60 * 60 * 24 * 7 && c.path == "/"
    ensures c.secure <==> nodeEnv == Some("production")
  {
    Cookie(userId, true, nodeEnv == Some("production"), OneWeek, "/")
  }

  /** `getAuthUser` on a given jar: no user without a non-empty session
      cookie, otherwise the fixture user with that id, if any. */
  function SessionUser(jar: map<string, Cookie>): (r: Option<User>)
    ensures SessionCookieName !in jar || jar[SessionCookieName].value == "" ==> r == None
    ensures r.Some? ==> r.value in Users && r.value.id == jar[SessionCookieName].value
    ensures r.None? && SessionCookieName in jar ==>
      forall u :: u in Users ==> u.id != jar[SessionCookieName].value
  {
    if SessionCookieName !in jar then None
    else
      var userId := jar[SessionCookieName].value;
      if userId == "" then None else UserById(userId)
  }

  /** Setting the session cookie to a listed user's id signs that user in. */
  lemma SetThenGet(jar: map<string, Cookie>, u: User, nodeEnv: Option<string>)
    requires u in Users
    ensures SessionUser(jar[SessionCookieName := SessionCookie(u.id, nodeEnv)]) == Some(u)
  {
    UserByIdOfListed(u);
  }

  /** Clearing the session cookie signs everyone out. */
  lemma ClearThenGet(jar: map<string, Cookie>)
    ensures SessionUser(jar - {SessionCookieName}) == None
  {
  }

  /** Other cookies do not affect who is signed in. */
  lemma OtherCookiesIrrelevant(jar: map<string, Cookie>, name: string, c: Cookie)
    requires name != SessionCookieName
    ensures SessionUser(jar[name := c]) == SessionUser(jar)
  {
    if SessionCookieName in jar {
      assert jar[name := c][SessionCookieName] == jar[SessionCookieName];
    }
  }

  /** The cookies of the current request. */
  class CookieJar {
    var cookies: map<string, Cookie>

    constructor (initial: map<string, Cookie>)
      ensures cookies == initial
    {
      cookies := initial;
    }

    /** `setAuthCookie`. */
    method SetAuthCookie(userId: string, nodeEnv: Option<string>)
      modifies this
      ensures cookies == old(cookies)[SessionCookieName := SessionCookie(userId, nodeEnv)]
    {
      cookies := cookies[SessionCookieName := SessionCookie(userId, nodeEnv)];
    }

    /** `getAuthUser`. */
    function GetAuthUser(): (r: Option<User>)
      reads this
      ensures r == SessionUser(cookies)
    {
      SessionUser(cookies)
    }

    /** `clearAuthCookie`. */
    method ClearAuthCookie()
      modifies this
      ensures cookies == old(cookies) - {SessionCookieName}
      ensures GetAuthUser() == None
    {
      cookies := cookies - {SessionCookieName};
    }
  }
}

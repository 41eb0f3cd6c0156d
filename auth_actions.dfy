/**
 * The demo login, signup and logout server actions of
 * src/app/auth/actions.ts, over the fixed user list. The form is the map of
 * its string entries; zod's email-format check is an oracle (`isEmail`).
 * The cookie write and the redirect are returned as an outcome.
 */
module AuthActions {
  import opened Wrappers
  import opened Fixtures
  import opened Session

  const InvalidInput := "Invalid input."
  const UserNotFound := "User not found. Try signing up."
  const UserExists := "User already exists. Try logging in."
  const ChatPath := "/chat"
  const LoginPath := "/login"

  /** `{ error }`, or a session cookie set to a user id followed by a
      redirect, or the session cookie cleared followed by a redirect. */
  datatype Outcome =
    | Rejected(error: string)
    | SignedIn(userId: string, redirectTo: string)
    | SignedOut(redirectTo: string)

  /** `loginSchema.safeParse(Object.fromEntries(formData))`: the email when
      `email` is a well-formed address and `password` is non-empty. */
  function ParseCredentials(form: map<string, string>, isEmail: string -> bool): (r: Option<string>)
    ensures r.Some? <==> "email" in form && isEmail(form["email"]) && "password" in form && form["password"] != ""
    ensures r.Some? ==> r.value == form["email"]
  {
    if "email" in form && isEmail(form["email"]) && "password" in form && form["password"] != ""
    then Some(form["email"]) else None
  }

  /** `login`. The password is never compared. */
  function Login(form: map<string, string>, isEmail: string -> bool): (r: Outcome)
    ensures ParseCredentials(form, isEmail).None? ==> r == Rejected(InvalidInput)
    ensures ParseCredentials(form, isEmail).Some? ==>
      var email := ParseCredentials(form, isEmail).value;
      && (UserByEmail(email).None? ==> r == Rejected(UserNotFound))
      && (UserByEmail(email).Some? ==> r == SignedIn(UserByEmail(email).value.id, ChatPath))
  {
    match ParseCredentials(form, isEmail)
    case None => Rejected(InvalidInput)
    case Some(email) =>
      match UserByEmail(email)
      case None => Rejected(UserNotFound)
      case Some(user) => SignedIn(user.id, ChatPath)
  }

  /** `signup`. A new email signs in the first fixture user. */
  function Signup(form: map<string, string>, isEmail: string -> bool): (r: Outcome)
    ensures ParseCredentials(form, isEmail).None? ==> r == Rejected(InvalidInput)
    ensures ParseCredentials(form, isEmail).Some? ==>
      var email := ParseCredentials(form, isEmail).value;
      && (UserByEmail(email).Some? ==> r == Rejected(UserExists))
      && (UserByEmail(email).None? ==> r == SignedIn(Users[0].id, ChatPath))
  {
    match ParseCredentials(form, isEmail)
    case None => Rejected(InvalidInput)
    case Some(email) =>
      if UserByEmail(email).Some? then Rejected(UserExists) else SignedIn(Users[0].id, ChatPath)
  }

  /** `logout`. */
  function Logout(): (r: Outcome)
    ensures r.SignedOut? && r.redirectTo == LoginPath
  {
    SignedOut(LoginPath)
  }

  /** The cookie jar after an outcome's effect. */
  function Apply(o: Outcome, jar: map<string, Cookie>, nodeEnv: Option<string>): map<string, Cookie> {
    match o
    case Rejected(_) => jar
    case SignedIn(userId, _) => jar[SessionCookieName := SessionCookie(userId, nodeEnv)]
    case SignedOut(_) => jar - {SessionCookieName}
  }

  /** Logging in with a listed email signs in exactly the user with that
      email; any other outcome leaves the cookies untouched. */
  lemma LoginSignsInThatUser(form: map<string, string>, isEmail: string -> bool,
                             jar: map<string, Cookie>, nodeEnv: Option<string>)
    ensures Login(form, isEmail).SignedIn? ==>
      var u := SessionUser(Apply(Login(form, isEmail), jar, nodeEnv));
      u.Some? && u.value.email == form["email"]
    ensures Login(form, isEmail).Rejected? ==> Apply(Login(form, isEmail), jar, nodeEnv) == jar
  {
    if Login(form, isEmail).SignedIn? {
      var user := UserByEmail(form["email"]).value;
      SetThenGet(jar, user, nodeEnv);
    }
  }

  /** The password plays no part in logging in, once it is non-empty. */
  lemma LoginIgnoresPassword(form: map<string, string>, password: string, isEmail: string -> bool)
    requires "password" in form && form["password"] != "" && password != ""
    ensures Login(form["password" := password], isEmail) == Login(form, isEmail)
  {
    var other := form["password" := password];
    if "email" in form {
      assert other["email"] == form["email"];
    }
  }

  /** A successful signup always signs in Alex, whatever email was entered. */
  lemma SignupSignsInFirstUser(form: map<string, string>, isEmail: string -> bool,
                               jar: map<string, Cookie>, nodeEnv: Option<string>)
    requires Signup(form, isEmail).SignedIn?
    ensures SessionUser(Apply(Signup(form, isEmail), jar, nodeEnv)) == Some(Alex)
  {
    SetThenGet(jar, Alex, nodeEnv);
  }

  /** Login and signup never both succeed on the same form. */
  lemma LoginOrSignup(form: map<string, string>, isEmail: string -> bool)
    ensures ParseCredentials(form, isEmail).Some? ==>
      (Login(form, isEmail).SignedIn? <==> Signup(form, isEmail).Rejected?)
  {
  }

  /** After logging out, nobody is signed in. */
  lemma LogoutSignsOut(jar: map<string, Cookie>, nodeEnv: Option<string>)
    ensures SessionUser(Apply(Logout(), jar, nodeEnv)) == None
  {
    ClearThenGet(jar);
  }
}

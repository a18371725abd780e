/** The login page: its two form fields, the error and loading flags, and what
    `handleSubmit` does with each possible reply of the authentication endpoint. */
module Login {
  import opened Options
  import opened Text
  import opened Session
  import RouteGuard

  const TokenMissingError: string := "Token not received from server"
  const InvalidCredentialsError: string := "Invalid email or password"
  const ConnectionError: string := "Failed to connect to server. Please try again."
  /** `max-age=86400`: the cookie lives for 24 hours. */
  const CookieMaxAge: nat := 86400

  /** The `user` object of a successful reply. */
  datatype ReplyUser = ReplyUser(
    id: Option<string>, email: Option<string>, firstName: Option<string>, lastName: Option<string>)

  /** The parsed body of an OK reply. */
  datatype LoginResult = LoginResult(accessToken: Option<string>, token: Option<string>, user: Option<ReplyUser>)

  /** What `fetch` and `response.json()` yield: an OK reply with its body, a non-OK reply
      with the `message` of its body, or an exception (no connection, or a body that is not JSON). */
  datatype Reply = Ok(result: LoginResult) | NotOk(message: Option<string>) | Thrown

  /** The input a change event comes from: the form has `name="email"` and `name="password"`. */
  datatype Field = Email | Password

  /** `result.accessToken || result.token`, `None` when the outcome is falsy. */
  function ChosenToken(r: LoginResult): (t: Option<string>)
    ensures t.Some? ==> t.value != ""
    ensures Truthy(r.accessToken) ==> t == r.accessToken
    ensures !Truthy(r.accessToken) ==> t == (if Truthy(r.token) then r.token else None)
  {
    if Truthy(r.accessToken) then r.accessToken
    else if Truthy(r.token) then r.token
    else None
  }

  /** `result.user?.email || formData.email` */
  function StoredEmail(r: LoginResult, typed: string): string
  {
    if r.user.Some? then OrOpt(r.user.value.email, typed) else typed
  }

  /** The record written under `userData`: the four fields of the reply's user, nothing else. */
  function UserDataOf(u: ReplyUser): (rec: UserRecord)
    ensures rec.id == u.id && rec.email == u.email
    ensures rec.firstName == u.firstName && rec.lastName == u.lastName
  {
    UserRecord(u.id, u.email, u.firstName, u.lastName)
  }

  /** The browser writes of a successful login with token `t`, in program order. */
  function SessionWrites(r: LoginResult, typed: string, t: string): seq<Effect>
  {
    [SetItem(TokenKey, Plain(t)), SetItem(EmailKey, Plain(StoredEmail(r, typed)))]
    + (if r.user.Some? then [SetItem(UserDataKey, UserJson(UserDataOf(r.user.value)))] else [])
    + [WriteCookie(TokenKey, t, "/", CookieMaxAge), Navigate("/admin")]
  }

  /** The page state and browser writes a submit ends in. */
  datatype Outcome = Outcome(error: string, loading: bool, effects: seq<Effect>)

  /** `handleSubmit`: every submit first clears the error and sets loading; the branches
      then decide the rest. */
  function Submit(reply: Reply, typed: string): Outcome
  {
    match reply
    case Ok(r) =>
      var t := ChosenToken(r);
      if t.Some? then Outcome("", true, SessionWrites(r, typed, t.value))
      else Outcome(TokenMissingError, false, [])
    case NotOk(msg) => Outcome(OrOpt(msg, InvalidCredentialsError), false, [])
    case Thrown => Outcome(ConnectionError, false, [])
  }

  /** A successful login with a token stores it, stores the email, writes the session cookie
      and goes to the admin area; the page keeps showing no error and the loading state. */
  lemma SuccessWrites(r: LoginResult, typed: string)
    requires ChosenToken(r).Some?
    ensures var t := ChosenToken(r).value;
            var o := Submit(Ok(r), typed);
            && o.error == "" && o.loading
            && o.effects[0] == SetItem(TokenKey, Plain(t))
            && o.effects[1] == SetItem(EmailKey, Plain(StoredEmail(r, typed)))
            && o.effects[|o.effects| - 2] == WriteCookie(TokenKey, t, "/", 86400)
            && o.effects[|o.effects| - 1] == Navigate("/admin")
  {
  }

  /** `userData` is written exactly when the reply carries a user. */
  lemma {:induction false} UserDataOnlyWithUser(r: LoginResult, typed: string)
    requires ChosenToken(r).Some?
    ensures var es := Submit(Ok(r), typed).effects;
      (exists k :: 0 <= k < |es| && es[k].SetItem? && es[k].key == UserDataKey) <==> r.user.Some?
  {
    var es := Submit(Ok(r), typed).effects;
    if r.user.Some? {
      assert es[2].SetItem? && es[2].key == UserDataKey;
    } else {
      assert |es| == 4;
      assert TokenKey != UserDataKey && EmailKey != UserDataKey;
    }
  }

  /** Every failure shows an error, stops loading and writes nothing at all. */
  lemma FailuresStoreNothing(reply: Reply, typed: string)
    requires !(reply.Ok? && ChosenToken(reply.result).Some?)
    ensures var o := Submit(reply, typed);
            o.error != "" && !o.loading && o.effects == []
  {
  }

  /** The error of a rejected login is the server's message when it has one. */
  lemma RejectionMessage(msg: Option<string>, typed: string)
    ensures Submit(NotOk(msg), typed).error
         == (if Truthy(msg) then msg.value else InvalidCredentialsError)
  {
  }

  /** The stored email is the reply's when it is non-empty, otherwise the typed one. */
  lemma StoredEmailChoice(r: LoginResult, typed: string)
    ensures r.user.Some? && Truthy(r.user.value.email) ==> StoredEmail(r, typed) == r.user.value.email.value
    ensures !(r.user.Some? && Truthy(r.user.value.email)) ==> StoredEmail(r, typed) == typed
  {
  }

  /** After a successful login the middleware sees a session: the admin area opens,
      and the login page now sends the user on to it. */
  lemma {:induction false} LoginOpensSession(b: Browser, r: LoginResult, typed: string, path: string)
    requires ChosenToken(r).Some?
    requires RouteGuard.IsProtected(path)
    ensures var b' := ApplyAll(b, Submit(Ok(r), typed).effects);
            && SignedIn(b')
            && RouteGuard.Decide(path, CookieValue(b', TokenKey)) == RouteGuard.Next
            && RouteGuard.Decide(RouteGuard.LoginPath, CookieValue(b', TokenKey)) == RouteGuard.RedirectToAdmin
            && b'.location == "/admin"
  {
    var t := ChosenToken(r).value;
    var stores := [SetItem(TokenKey, Plain(t)), SetItem(EmailKey, Plain(StoredEmail(r, typed)))]
      + (if r.user.Some? then [SetItem(UserDataKey, UserJson(UserDataOf(r.user.value)))] else []);
    var es := Submit(Ok(r), typed).effects;
    assert es == stores + [WriteCookie(TokenKey, t, "/", CookieMaxAge)] + [Navigate("/admin")];
    ApplyAllAppend(b, stores + [WriteCookie(TokenKey, t, "/", CookieMaxAge)], [Navigate("/admin")]);
    ApplyAllAppend(b, stores, [WriteCookie(TokenKey, t, "/", CookieMaxAge)]);
    RouteGuard.LoginNotProtected();
  }

  /** The page's state: the two inputs, the error line, the loading flag and the browser. */
  class LoginPage {
    var email: string
    var password: string
    var error: string
    var loading: bool
    var browser: Browser

    constructor (b: Browser)
      ensures email == "" && password == "" && error == "" && !loading && browser == b
    {
      email, password, error, loading, browser := "", "", "", false, b;
    }

    /** `handleChange`: only the named field takes the new value. */
    method HandleChange(field: Field, value: string)
      modifies this
      ensures field == Email ==> email == value && password == old(password)
      ensures field == Password ==> password == value && email == old(email)
      ensures error == old(error) && loading == old(loading) && browser == old(browser)
    {
      match field
      case Email => email := value;
      case Password => password := value;
    }

    /** `handleSubmit`, with the reply as an input. */
    method HandleSubmit(reply: Reply)
      modifies this
      ensures error == Submit(reply, old(email)).error
      ensures loading == Submit(reply, old(email)).loading
      ensures browser == ApplyAll(old(browser), Submit(reply, old(email)).effects)
      ensures email == old(email) && password == old(password)
    {
      error := "";
      loading := true;
      match reply {
        case Ok(r) =>
          var t := ChosenToken(r);
          if t.Some? {
            ghost var b0 := browser;
            ghost var done: seq<Effect> := [];
            var e := SetItem(TokenKey, Plain(t.value));
            ApplyAllSnoc(b0, done, e);
            browser, done := Apply(browser, e), done + [e];
            e := SetItem(EmailKey, Plain(StoredEmail(r, email)));
            ApplyAllSnoc(b0, done, e);
            browser, done := Apply(browser, e), done + [e];
            if r.user.Some? {
              e := SetItem(UserDataKey, UserJson(UserDataOf(r.user.value)));
              ApplyAllSnoc(b0, done, e);
              browser, done := Apply(browser, e), done + [e];
            }
            e := WriteCookie(TokenKey, t.value, "/", CookieMaxAge);
            ApplyAllSnoc(b0, done, e);
            browser, done := Apply(browser, e), done + [e];
            e := Navigate("/admin");
            ApplyAllSnoc(b0, done, e);
            browser, done := Apply(browser, e), done + [e];
            assert done == SessionWrites(r, email, t.value);
          } else {
            error := TokenMissingError;
            loading := false;
          }
        case NotOk(msg) =>
          error := OrOpt(msg, InvalidCredentialsError);
          loading := false;
        case Thrown =>
          error := ConnectionError;
          loading := false;
      }
    }
  }
}

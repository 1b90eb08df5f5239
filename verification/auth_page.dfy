/** The login/signup form's submit handler (client/src/components/authpage.jsx,
    `handleSubmit`). The HTTP exchange is abstract: the handler is given how the request
    ended. Translated messages are kept as their i18n keys. */
module AuthPage {
  import opened JsText
  import opened UserCodec
  import opened AuthSession

  datatype FormData = FormData(name: string, email: string, password: string, confirmPassword: string)

  /** A message shown under the form: literal text, or an i18n key passed to `t`. */
  datatype Message = Plain(text: string) | Localized(key: string)

  /** The component state: `isLogin`, `formData` and `message`. */
  datatype PageState = PageState(isLogin: bool, form: FormData, message: Message)

  function InitialPage(): (p: PageState)
    ensures p.isLogin && p.message == Plain("")
    ensures p.form == FormData("", "", "", "")
  {
    PageState(true, FormData("", "", "", ""), Plain(""))
  }

  const LoginUrl: string := "http://127.0.0.1:8000/login"
  const SignupUrl: string := "http://127.0.0.1:8000/signup"

  datatype RequestBody =
    | LoginBody(email: string, password: string)
    | SignupBody(username: string, email: string, password: string)

  datatype Request = Request(url: string, body: RequestBody)

  /** How the request ended: `fetch` or `res.json()` threw, or a response arrived
      with its `ok` flag, its `detail` and its `access_token`. */
  datatype Outcome =
    | Threw
    | Responded(ok: bool, detail: Option<string>, accessToken: Option<string>)

  /** What one submit produces: the request sent, the next page state, the storage
      afterwards, and the route navigated to, if any. */
  datatype Submission = Submission(request: Request, page: PageState, storage: Storage, navigateTo: Option<string>)

  const SomethingWentWrong: string := "Something went wrong"
  const ServerError: string := "Server error. Please try again."

  /** The request for the current mode: login sends email and password; signup sends
      the name as `username` with email and password. */
  function BuildRequest(page: PageState): (r: Request)
    ensures page.isLogin ==> r == Request(LoginUrl, LoginBody(page.form.email, page.form.password))
    ensures !page.isLogin ==>
              r == Request(SignupUrl, SignupBody(page.form.name, page.form.email, page.form.password))
  {
    if page.isLogin then Request(LoginUrl, LoginBody(page.form.email, page.form.password))
    else Request(SignupUrl, SignupBody(page.form.name, page.form.email, page.form.password))
  }

  /** The first step of every submit: the message is cleared. */
  function StartSubmit(page: PageState): (p: PageState)
    ensures p.message == Plain("")
    ensures p.isLogin == page.isLogin && p.form == page.form
  {
    page.(message := Plain(""))
  }

  /** The text `localStorage.setItem` stores for `data.access_token`: a missing token
      is converted to the string `"undefined"`. */
  function StoredToken(accessToken: Option<string>): string {
    match accessToken
    case Some(t) => t
    case None => "undefined"
  }

  /** `handleSubmit`. */
  function Submit(page: PageState, storage: Storage, outcome: Outcome): (s: Submission)
    ensures s.request == BuildRequest(page)
    ensures s.page.form == page.form
    // a thrown request: generic message, nothing else changes
    ensures outcome.Threw? ==>
              s.page == page.(message := Plain(ServerError)) && s.storage == storage && s.navigateTo.None?
    // a non-ok response: the server's detail or the generic text; nothing else changes
    ensures outcome.Responded? && !outcome.ok ==>
              s.storage == storage && s.navigateTo.None? && s.page.isLogin == page.isLogin
              && s.page.message == Plain(if TruthyString(outcome.detail) then outcome.detail.value else SomethingWentWrong)
    // login success: only the token is written, then navigation home
    ensures outcome.Responded? && outcome.ok && page.isLogin ==>
              s.storage == storage[TokenKey := StoredToken(outcome.accessToken)]
              && s.navigateTo == Some("/") && s.page.isLogin
              && s.page.message == Localized("auth.loginSuccess")
    // signup success: switch to login mode, storage untouched
    ensures outcome.Responded? && outcome.ok && !page.isLogin ==>
              s.storage == storage && s.navigateTo.None? && s.page.isLogin
              && s.page.message == Localized("auth.signupSuccess")
  {
    var started := StartSubmit(page);
    var request := BuildRequest(started);
    match outcome
    case Threw => Submission(request, started.(message := Plain(ServerError)), storage, None)
    case Responded(ok, detail, accessToken) =>
      if !ok then
        var text := if TruthyString(detail) then detail.value else SomethingWentWrong;
        Submission(request, started.(message := Plain(text)), storage, None)
      else if started.isLogin then
        Submission(request, started.(message := Localized("auth.loginSuccess")),
                   storage[TokenKey := StoredToken(accessToken)], Some("/"))
      else
        Submission(request, started.(message := Localized("auth.signupSuccess"), isLogin := true), storage, None)
  }

  /** Submit never writes `"userData"`: its presence and text are as before. */
  lemma SubmitNeverWritesUserData(page: PageState, storage: Storage, outcome: Outcome)
    ensures GetItem(Submit(page, storage, outcome).storage, UserDataKey) == GetItem(storage, UserDataKey)
    ensures forall k :: k != TokenKey ==> GetItem(Submit(page, storage, outcome).storage, k) == GetItem(storage, k)
  {
  }

  /** `confirmPassword` is neither sent nor compared: changing it changes nothing but
      the form it is stored in. */
  lemma ConfirmPasswordIgnored(page: PageState, storage: Storage, outcome: Outcome, other: string)
    ensures var page' := page.(form := page.form.(confirmPassword := other));
            var s := Submit(page, storage, outcome);
            var s' := Submit(page', storage, outcome);
            s'.request == s.request && s'.storage == s.storage && s'.navigateTo == s.navigateTo
            && s'.page == s.page.(form := page'.form)
  {
  }

  /** The login path alone never authenticates the session: a successful login
      through this page writes only `"token"`, while `checkAuthStatus` also needs a
      parsable `"userData"`. Starting from storage without a user record, the re-check
      stays unauthenticated, even though the token-only helper reports a session
      whenever a non-empty token was stored. */
  lemma LoginPageAloneNeverAuthenticates(page: PageState, storage: Storage, outcome: Outcome, state: SessionState)
    requires UserDataKey !in storage
    ensures var s := Submit(page, storage, outcome);
            !CheckAuthStatus(Context(s.storage, state)).state.isAuthenticated
    ensures page.isLogin && outcome.Responded? && outcome.ok && StoredToken(outcome.accessToken) != "" ==>
              TokenPresent(Submit(page, storage, outcome).storage)
  {
    SubmitNeverWritesUserData(page, storage, outcome);
  }

  /** Conversely, a user record left by an earlier `login` makes the re-check after
      this page's login authenticate with that earlier user. */
  lemma LoginPageReusesStoredUser(page: PageState, storage: Storage, outcome: Outcome, state: SessionState, earlier: UserProfile)
    requires page.isLogin && outcome.Responded? && outcome.ok
    requires StoredToken(outcome.accessToken) != ""
    requires UserDataKey in storage && storage[UserDataKey] == Encode(earlier)
    ensures CheckAuthStatus(Context(Submit(page, storage, outcome).storage, state)).state
            == SessionState(true, Some(earlier), false)
  {
    DecodeEncode(earlier);
    assert Encode(earlier) != "";
  }
}

/** The login form's submit handler. The two awaited identity-service
    results are parameters: `deleted` for `deleteSession('current')` and
    `created` for `createEmailSession(email, password)`. */
module LoginPage {
  import opened Wrappers
  import opened Effects
  import Text

  datatype LoginForm = LoginForm(email: string, password: string)

  const MissingCredentials := Alert("Error", Some("Please enter email and password."))
  const LoginSuccessful := Alert("Login Successful!", None)

  /** The session the handler deletes before logging in. */
  const CurrentSession := "current"

  /** Where a successful login resets the stack to. */
  const PostLoginRoute := "FamilyIntroPage"

  /** Presence check only: a JavaScript string is falsy exactly when empty,
      so whitespace passes and there is no format check. */
  predicate Filled(form: LoginForm) {
    |form.email| > 0 && |form.password| > 0
  }

  /** Submit: presence validation before any call; then delete the current
      session (its failure is swallowed) strictly before creating the new
      one; success resets the stack to the post-login screen, failure shows
      the service's message verbatim and does not navigate. */
  function HandleLogin(form: LoginForm, deleted: Result<()>, created: Result<()>): (r: Reaction)
    ensures !Filled(form) ==> r == Reaction([], [MissingCredentials], [])
    ensures Filled(form) ==>
      r.calls == [DeleteSession(CurrentSession), CreateEmailSession(form.email, form.password)]
    ensures Filled(form) && created.Ok? ==>
      r.dialogs == [LoginSuccessful] && r.nav == [Reset(0, [PostLoginRoute])]
    ensures Filled(form) && created.Err? ==>
      r.dialogs == [Alert("Login Error", Some(created.message))] && r.nav == []
  {
    if form.email == "" || form.password == "" then
      Reaction([], [MissingCredentials], [])
    else
      // A rejected deleteSession is only logged; the login goes on.
      var calls := [DeleteSession(CurrentSession), CreateEmailSession(form.email, form.password)];
      match created
      case Ok(_) => Reaction(calls, [LoginSuccessful], [Reset(0, [PostLoginRoute])])
      case Err(message) => Reaction(calls, [Alert("Login Error", Some(message))], [])
  }

  /** The "Sign up" link under the form. */
  function GoToSignup(): (r: Reaction)
    ensures r.nav == [Navigate("SignupPage")] && r.calls == [] && r.dialogs == []
  {
    Reaction([], [], [Navigate("SignupPage")])
  }

  /** The service is contacted iff both fields are non-empty. */
  lemma CallsIffFilled(form: LoginForm, deleted: Result<()>, created: Result<()>)
    ensures HandleLogin(form, deleted, created).calls != [] <==> form.email != "" && form.password != ""
    ensures HandleLogin(form, deleted, created).calls == [] ==> HandleLogin(form, deleted, created).nav == []
  {
  }

  /** Ordering: the delete is issued strictly before the create, and there
      is exactly one create, with the credentials as typed. */
  lemma DeleteBeforeCreate(form: LoginForm, deleted: Result<()>, created: Result<()>)
    requires Filled(form)
    ensures var calls := HandleLogin(form, deleted, created).calls;
      exists i, j :: 0 <= i < j < |calls| &&
        calls[i] == DeleteSession(CurrentSession) &&
        calls[j] == CreateEmailSession(form.email, form.password)
    ensures var calls := HandleLogin(form, deleted, created).calls;
      forall i, j ::
        (0 <= i < |calls| && 0 <= j < |calls| && calls[i].CreateEmailSession? && calls[j].CreateEmailSession?)
        ==> i == j
  {
    var calls := HandleLogin(form, deleted, created).calls;
    assert calls[0] == DeleteSession(CurrentSession);
    assert calls[1] == CreateEmailSession(form.email, form.password);
  }

  /** The outcome of the delete never changes what the login does. */
  lemma DeleteFailureSwallowed(form: LoginForm, d1: Result<()>, d2: Result<()>, created: Result<()>)
    ensures HandleLogin(form, d1, created) == HandleLogin(form, d2, created)
  {
  }

  /** The presence check only rejects empty strings: credentials made of
      nothing but white space reach the service, unchanged. */
  lemma WhitespacePassesValidation(form: LoginForm, deleted: Result<()>, created: Result<()>)
    requires form.email != "" && form.password != ""
    requires Text.Blank(form.email) && Text.Blank(form.password)
    ensures HandleLogin(form, deleted, created).calls ==
      [DeleteSession(CurrentSession), CreateEmailSession(form.email, form.password)]
    ensures MissingCredentials !in HandleLogin(form, deleted, created).dialogs
  {
  }
}

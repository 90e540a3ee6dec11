/** The signup form's submit handler. `userId` stands for the opaque
    `ID.unique()` value and `created` for the result of `account.create`. */
module SignupPage {
  import opened Wrappers
  import opened Effects

  datatype SignupForm = SignupForm(email: string, password: string, confirmPassword: string)

  const FillAllFields := Alert("Error", Some("Please fill in all fields."))
  const PasswordsDiffer := Alert("Error", Some("Passwords do not match."))
  const AccountCreated := Alert("Success", Some("Account created successfully!"))

  predicate AnyEmpty(form: SignupForm) {
    |form.email| == 0 || |form.password| == 0 || |form.confirmPassword| == 0
  }

  /** The local validation, in the source's order: emptiness first, then
      exact inequality of the two passwords. */
  function ValidationError(form: SignupForm): (r: Option<Dialog>)
    ensures r == None <==> !AnyEmpty(form) && form.password == form.confirmPassword
    ensures AnyEmpty(form) ==> r == Some(FillAllFields)
    ensures !AnyEmpty(form) && form.password != form.confirmPassword ==> r == Some(PasswordsDiffer)
  {
    if form.email == "" || form.password == "" || form.confirmPassword == "" then Some(FillAllFields)
    else if form.password != form.confirmPassword then Some(PasswordsDiffer)
    else None
  }

  /** Submit: a validation error is shown with no call; otherwise one create
      call with the email and password unchanged (the confirmation is never
      sent); success pushes the login route, failure shows the message. */
  function HandleSignup(form: SignupForm, userId: string, created: Result<()>): (r: Reaction)
    ensures ValidationError(form).Some? ==> r == Reaction([], [ValidationError(form).value], [])
    ensures ValidationError(form).None? ==> r.calls == [CreateAccount(userId, form.email, form.password)]
    ensures ValidationError(form).None? && created.Ok? ==>
      r.dialogs == [AccountCreated] && r.nav == [Navigate("Login")]
    ensures ValidationError(form).None? && created.Err? ==>
      r.dialogs == [Alert("Signup Error", Some(created.message))] && r.nav == []
  {
    match ValidationError(form)
    case Some(dialog) => Reaction([], [dialog], [])
    case None =>
      var calls := [CreateAccount(userId, form.email, form.password)];
      match created
      case Ok(_) => Reaction(calls, [AccountCreated], [Navigate("Login")])
      case Err(message) => Reaction(calls, [Alert("Signup Error", Some(message))], [])
  }

  /** The "Log in" link under the form. */
  function GoToLogin(): (r: Reaction)
    ensures r.nav == [Navigate("Login")] && r.calls == [] && r.dialogs == []
  {
    Reaction([], [], [Navigate("Login")])
  }

  /** The service is contacted iff every field is non-empty and the two
      passwords are equal. */
  lemma CreateIffValid(form: SignupForm, userId: string, created: Result<()>)
    ensures HandleSignup(form, userId, created).calls != [] <==>
      form.email != "" && form.password != "" && form.confirmPassword != "" &&
      form.password == form.confirmPassword
  {
  }

  /** When fields are missing and the passwords also differ, only the
      fill-in error is shown. */
  lemma EmptinessCheckedFirst(form: SignupForm, userId: string, created: Result<()>)
    requires AnyEmpty(form) && form.password != form.confirmPassword
    ensures HandleSignup(form, userId, created).dialogs == [FillAllFields]
  {
  }

  /** Signing up never logs in: no session is created, the stack is never
      reset, and every push goes to the login route. */
  lemma SignupCreatesNoSession(form: SignupForm, userId: string, created: Result<()>)
    ensures var r := HandleSignup(form, userId, created);
      (forall c :: c in r.calls ==> c.CreateAccount? && c.password == form.password) &&
      (forall n :: n in r.nav ==> n == Navigate("Login"))
  {
  }
}

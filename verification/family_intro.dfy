/** The screen shown right after login: it fetches the account, greets the
    user by their preferred name, and offers "Get Started". */
module FamilyIntroPage {
  import opened Wrappers
  import opened Effects

  datatype Prefs = Prefs(username: Option<string>)

  /** The account record; `prefs` may be missing, in which case reading
      `prefs.username` throws. */
  datatype User = User(prefs: Option<Prefs>)

  datatype IntroState = IntroState(username: string, loading: bool)

  const Initial := IntroState("", true)

  const FallbackName := "there"

  /** The username the account carries, when it has a non-empty one. */
  predicate HasUsername(user: User, name: string) {
    user.prefs.Some? && user.prefs.value.username == Some(name) && name != ""
  }

  /** The mount-time account fetch: the greeting name is the account's
      username when it is present and non-empty, and 'there' otherwise; a
      missing `prefs` object throws into the catch branch, which also
      answers 'there'; `loading` is cleared either way. */
  function FetchUser(s: IntroState, fetched: Result<User>): (r: (IntroState, Reaction))
    ensures !r.0.loading
    ensures r.1 == Reaction([GetAccount], [], [])
    ensures (fetched.Ok? && HasUsername(fetched.value, r.0.username)) || r.0.username == FallbackName
    ensures forall name :: fetched.Ok? && HasUsername(fetched.value, name) ==> r.0.username == name
  {
    var name := match fetched
      case Err(_) => FallbackName
      case Ok(user) =>
        match user.prefs
        case None => FallbackName
        case Some(prefs) =>
          match prefs.username
          case Some(n) => if n == "" then FallbackName else n
          case None => FallbackName;
    (IntroState(name, false), Reaction([GetAccount], [], []))
  }

  datatype IntroView = LoadingView | GreetingView(name: string)

  /** The loading view is shown exactly while `loading` holds. */
  function Render(s: IntroState): (v: IntroView)
    ensures v.LoadingView? <==> s.loading
    ensures v.GreetingView? ==> v.name == s.username
  {
    if s.loading then LoadingView else GreetingView(s.username)
  }

  /** The "Get Started" button. */
  function GetStarted(): (r: Reaction)
    ensures r.nav == [Navigate("Home")] && r.calls == [] && r.dialogs == []
  {
    Reaction([], [], [Navigate("Home")])
  }

  /** After the fetch, whatever its outcome, the greeting is shown and the
      name in it is never empty. */
  lemma {:induction false} GreetingAfterFetch(fetched: Result<User>)
    ensures var s := FetchUser(Initial, fetched).0;
      Render(s).GreetingView? && |Render(s).name| > 0
  {
    var s := FetchUser(Initial, fetched).0;
    assert s.username == FallbackName || HasUsername(fetched.value, s.username);
  }

  /** A failed fetch and a user without preferences both fall back. */
  lemma FallbackCases(message: string)
    ensures FetchUser(Initial, Err(message)).0.username == FallbackName
    ensures FetchUser(Initial, Ok(User(None))).0.username == FallbackName
    ensures FetchUser(Initial, Ok(User(Some(Prefs(None))))).0.username == FallbackName
    ensures FetchUser(Initial, Ok(User(Some(Prefs(Some("")))))).0.username == FallbackName
  {
  }
}

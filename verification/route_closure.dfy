/** Whether every navigation the screens perform leads to a route the stack
    navigator registers. It does everywhere except at two call sites: a
    successful login resets to "FamilyIntroPage" and the dashboard's
    Safety card pushes "SafetyPage", and neither name is registered. */
module RouteClosure {
  import opened Wrappers
  import opened Effects
  import opened Routes
  import LoginPage
  import SignupPage
  import FamilyIntroPage
  import SettingsPage
  import FriendPage
  import HomePage
  import MapPage

  /** Every navigation of the auth, intro and settings screens, whatever
      the form contents and service results, stays inside the registered
      routes, except the post-login reset. */
  lemma AuthFlowTargets(login: LoginPage.LoginForm, deleted: Result<()>, created: Result<()>,
                        signup: SignupPage.SignupForm, userId: string,
                        settings: SettingsPage.SettingsState, choice: SettingsPage.Choice)
    requires settings.confirming
    ensures Targets(LoginPage.HandleLogin(login, deleted, created).nav) <= {LoginPage.PostLoginRoute}
    ensures Targets(LoginPage.GoToSignup().nav) <= Registered
    ensures Targets(SignupPage.HandleSignup(signup, userId, created).nav) <= Registered
    ensures Targets(SignupPage.GoToLogin().nav) <= Registered
    ensures Targets(FamilyIntroPage.GetStarted().nav) <= Registered
    ensures Targets(SettingsPage.Choose(settings, choice).1.nav) <= Registered
  {
  }

  /** The two menus that switch on their option push only registered
      routes, for every option string; the dashboard menu forwards its
      option, and each option it offers is registered. */
  lemma MenuTargets(friends: FriendPage.FriendsState, mapState: MapPage.MapState, home: HomePage.HomeState, option: string)
    ensures Targets(FriendPage.HandleMenuPress(friends, option).1.nav) <= Registered
    ensures Targets(MapPage.HandleMenuPress(mapState, option).1.nav) <= Registered
    ensures option in HomePage.MenuScreens ==> Targets(HomePage.HandleMenuPress(home, option).1.nav) <= Registered
  {
  }

  /** Every dashboard button except the Safety card pushes a registered
      route. */
  lemma DashboardTargets(b: HomePage.Button)
    ensures b != HomePage.SafetyCard ==> Targets(HomePage.PressButton(b).nav) <= Registered
    ensures Targets(HomePage.PressButton(HomePage.SafetyCard).nav) == {"SafetyPage"}
  {
  }

  /** The two unregistered targets are reachable and really unregistered. */
  lemma UnregisteredTargets(form: LoginPage.LoginForm, deleted: Result<()>)
    requires form.email != "" && form.password != ""
    ensures Targets(LoginPage.HandleLogin(form, deleted, Ok(())).nav) == {"FamilyIntroPage"}
    ensures Targets(HomePage.PressButton(HomePage.SafetyCard).nav) == {"SafetyPage"}
    ensures "FamilyIntroPage" !in Registered && "SafetyPage" !in Registered
  {
    var nav := LoginPage.HandleLogin(form, deleted, Ok(())).nav;
    assert nav[0] == Reset(0, ["FamilyIntroPage"]);
    assert "FamilyIntroPage" in nav[0].routes;
  }
}

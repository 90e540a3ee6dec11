/** The settings screen: a fixed placeholder profile and a logout button
    guarded by a two-choice confirmation. */
module SettingsPage {
  import opened Wrappers
  import opened Effects

  datatype Profile = Profile(name: string, email: string)

  /** The record the screen displays in place of real account data. */
  const PlaceholderUser := Profile("John Doe", "john.doe@example.com")

  /** `confirming` holds while the logout confirmation is open. */
  datatype SettingsState = SettingsState(user: Profile, confirming: bool)

  const Initial := SettingsState(PlaceholderUser, false)

  const LogoutPrompt := Confirm("Logout", "Are you sure you want to log out?", ["Cancel", "Logout"])

  datatype Choice = Cancel | Logout

  /** Pressing "Log Out" only opens the confirmation. */
  function HandleLogout(s: SettingsState): (r: (SettingsState, Reaction))
    ensures r.0.confirming && r.0.user == s.user
    ensures r.1.dialogs == [LogoutPrompt] && r.1.calls == [] && r.1.nav == []
  {
    (s.(confirming := true), Reaction([], [LogoutPrompt], []))
  }

  /** A button of the confirmation: Cancel does nothing, Logout resets the
      stack to the login route. Neither touches the session service. */
  function Choose(s: SettingsState, choice: Choice): (r: (SettingsState, Reaction))
    requires s.confirming
    ensures !r.0.confirming && r.0.user == s.user
    ensures r.1.calls == [] && r.1.dialogs == []
    ensures r.1.nav == (if choice == Logout then [Reset(0, ["Login"])] else [])
  {
    var nav := match choice
      case Cancel => []
      case Logout => [Reset(0, ["Login"])];
    (s.(confirming := false), Reaction([], [], nav))
  }

  /** The whole logout flow: the stack is reset to exactly `[Login]` iff
      the user confirms; no session call is made; the displayed user stays
      the placeholder. */
  lemma LogoutFlow(choice: Choice)
    ensures var (s1, r1) := HandleLogout(Initial);
      var (s2, r2) := Choose(s1, choice);
      && r1.nav == []
      && (r2.nav != [] <==> choice == Logout)
      && (choice == Logout ==> r2.nav == [Reset(0, ["Login"])])
      && r1.calls + r2.calls == []
      && s2.user == PlaceholderUser
  {
  }
}

# 78-Tracking screen logic in Dafny

78-Tracking is a React Native location-sharing and safety app. Nearly all of
it is layout and SDK calls. This project models the small pieces of
decision and state-transition logic inside its screens:

- the hold-to-help emergency button;
- the login and signup form handlers;
- the post-login greeting and the logout confirmation;
- the friends list with its name search;
- the chatbot's message list;
- the dashboard's greeting, location read and menus;
- the live map's permission and subscription lifecycle.

Each handler is a pure function over an immutable screen-state record. It
returns the new state together with a `Reaction`. A `Reaction` lists three
things, each in order:

- the SDK calls issued (`Effects.Call`);
- the dialogs opened (`Effects.Dialog`);
- the navigator actions performed (`Effects.Nav`).

In every handler modelled, all service calls come first, then the dialogs,
then the navigation. A successful login, for example, deletes the session,
creates one, shows "Login Successful!" and then resets the stack; a
successful signup alerts and then pushes `Login`. So reading the three
lists in the order calls, dialogs, navigation gives the source's order. An
alert does not block: the navigation that follows it runs at once.

Some inputs are parameters:

- clock readings (`Date.now()`, the current hour, the formatted time);
- generated IDs (`ID.unique()`, `Math.random()`);
- what each awaited SDK call settles to (`Wrappers.Result`).

`Routes.Registered` is the set of six route names the stack navigator
registers. `RouteClosure` checks every navigation against that set.

Modules follow the source files: `SafetyPage`, `LoginPage`, `SignupPage`,
`FamilyIntroPage`, `SettingsPage`, `FriendPage`, `JarvisPage`, `HomePage`,
`MapPage`. There are also the shared `Wrappers`, `Effects`, `Routes`,
`Location` and `Text` modules, and `RouteClosure`.

## Where the code and its documented intent differ (the model follows the code)

- The help button's threshold is strict. A hold of exactly 2000 ms does not
  send help, even though the comment beside the comparison says "2 seconds or
  more" (`SafetyPage.ThresholdIsStrict`).
- A release with no earlier press is not a safe no-op. `Date.now() - null`
  is just the clock reading, so help is sent whenever the clock reads more
  than 2000 ms (`SafetyPage.ReleaseWithoutPress`).
- Logging out deletes no session. The confirmed choice only resets the
  stack to `Login` (`SettingsPage.LogoutFlow`).
- A login is not blocked while another is in flight. Nothing in the login
  handler guards against a second submit.

## Observation: two navigation targets are not registered

`RouteClosure` proves the following:

- Every menu, link and button navigates to a registered route, with two
  exceptions.
- A successful login resets the stack to `FamilyIntroPage`
  (`screens/LoginPage.js:47-50`).
- The dashboard's Safety card pushes `SafetyPage`
  (`screens/HomePage.js:164-166`).
- Neither name is among the routes `App.js` registers
  (`RouteClosure.UnregisteredTargets`).

The model keeps both targets as written.

## Model

| member | source | states |
|---|---|---|
| SafetyPage.PressIn | screens/SafetyPage.js:10-13 | press-in stores the current time as the press start and marks the button pressed |
| SafetyPage.PressOut | screens/SafetyPage.js:15-32 | release always unpresses and keeps the stored start; it shows exactly one dialog, the help alert of `sendHelpAlert` iff held time > 2000 ms, the advisory iff ≤ 2000 ms; no call, no navigation |
| SafetyPage.CycleDecision | screens/SafetyPage.js:10-23 | after a press at t0 and a release at t1, help is sent iff t1 - t0 > 2000, otherwise the advisory, from any prior state |
| SafetyPage.ThresholdIsStrict | screens/SafetyPage.js:18-21 | a 2000 ms hold gives the advisory; a 2001 ms hold sends help |
| SafetyPage.CyclesIndependent | screens/SafetyPage.js:10-16 | press-in overwrites the start, so a cycle's outcome does not depend on earlier cycles |
| SafetyPage.ReleaseWithoutPress | screens/SafetyPage.js:7-19 | a release before any press measures from 0 (null coerced), sending help iff the clock reads > 2000 |
| SafetyPage.SecondReleaseMeasuresFromEarlierPress | screens/SafetyPage.js:15-23 | release does not clear the start, so a second release measures from the earlier press |
| SafetyPage.RunSendsOneHelpPerLongHold | screens/SafetyPage.js:15-28 | over any run of cycles there is one dialog per cycle: as many help alerts as long holds and as many advisories as short ones |
| SafetyPage.ShortAndLongScenarios | screens/SafetyPage.js:15-23 | holds of 1500 ms then 1000 ms give two advisories and no help; one 2500 ms hold gives one help alert |
| LoginPage.HandleLogin | screens/LoginPage.js:32-54 | empty field: the presence alert with no call and no navigation; otherwise the current-session delete, then one create with the typed credentials; success resets the stack to exactly [FamilyIntroPage] at index 0, failure shows "Login Error" with the message verbatim and does not navigate |
| LoginPage.GoToSignup | screens/LoginPage.js:114 | the sign-up link pushes SignupPage and does nothing else: no call, no dialog |
| LoginPage.CallsIffFilled | screens/LoginPage.js:33-36 | the service is contacted iff both fields are non-empty; without a call there is no navigation |
| LoginPage.DeleteBeforeCreate | screens/LoginPage.js:38-53 | the delete comes strictly before the create, and there is exactly one create (no retry) |
| LoginPage.DeleteFailureSwallowed | screens/LoginPage.js:38-42 | the delete's outcome never changes what the login does |
| LoginPage.WhitespacePassesValidation | screens/LoginPage.js:33 | whitespace-only credentials pass validation and reach the service unchanged |
| SignupPage.ValidationError | screens/SignupPage.js:49-56 | no error iff all three fields are non-empty and the passwords are equal; emptiness gives the fill-in error, otherwise a mismatch gives the mismatch error |
| SignupPage.HandleSignup | screens/SignupPage.js:48-65 | a validation error is shown with no call; otherwise one create with the email and password unchanged; success pushes Login, failure shows the message with no navigation |
| SignupPage.GoToLogin | screens/SignupPage.js:113 | the log-in link pushes Login and does nothing else: no call, no dialog |
| SignupPage.CreateIffValid | screens/SignupPage.js:49-59 | the create call is issued iff all fields are non-empty and the passwords are equal |
| SignupPage.EmptinessCheckedFirst | screens/SignupPage.js:49-56 | when a field is empty and the passwords also differ, only the fill-in error is shown |
| SignupPage.SignupCreatesNoSession | screens/SignupPage.js:58-64 | signup only ever creates an account with the typed password, creates no session, and can only push Login |
| FamilyIntroPage.FetchUser | screens/FamilyIntroPage.js:17-31 | loading is cleared in every outcome; the name is the user's non-empty username when there is one, otherwise 'there' (missing prefs, empty or missing username, failed fetch) |
| FamilyIntroPage.Render | screens/FamilyIntroPage.js:33-46 | the loading view is shown exactly while loading; otherwise the greeting uses the stored name |
| FamilyIntroPage.GetStarted | screens/FamilyIntroPage.js:68-71 | Get Started pushes Home |
| FamilyIntroPage.GreetingAfterFetch | screens/FamilyIntroPage.js:17-46 | after the fetch, whatever its outcome, the greeting is shown with a non-empty name |
| FamilyIntroPage.FallbackCases | screens/FamilyIntroPage.js:20-24 | a failed fetch, missing prefs, a missing username and an empty username all yield 'there' |
| SettingsPage.HandleLogout | screens/SettingsPage.js:14-35 | pressing Log Out only opens the Cancel/Logout confirmation; no call, no navigation |
| SettingsPage.Choose | screens/SettingsPage.js:20-33 | Cancel does nothing; Logout resets the stack to exactly [Login] at index 0; neither calls the session service |
| SettingsPage.LogoutFlow | screens/SettingsPage.js:9-35 | over the whole flow the stack is reset iff Logout is chosen, no session call is made, and the displayed user stays the placeholder |
| FriendPage.FilterPeople | screens/FriendPage.js:74-76 | the result is never longer than the tracked list, and every entry kept is a tracked person whose lower-cased name includes the lower-cased query |
| FriendPage.FilterCounts | screens/FriendPage.js:74-76 | each person occurs in the result as often as in the tracked list if their name matches, else not at all |
| FriendPage.FilterIsSubsequence | screens/FriendPage.js:74-76 | the result keeps the tracked list's order: it is a subsequence of it |
| FriendPage.FilterMembership | screens/FriendPage.js:74-76 | a person is shown iff tracked and matching (sound and complete) |
| FriendPage.EmptyQueryKeepsAll | screens/FriendPage.js:74-76 | an empty query keeps the whole list |
| FriendPage.QueryCaseInsensitive | screens/FriendPage.js:74-76 | lower-casing the query first changes nothing |
| FriendPage.FilterIdempotent | screens/FriendPage.js:74-76 | filtering the filtered list again changes nothing |
| FriendPage.HandleMenuPress | screens/FriendPage.js:29-44 | the menu always closes; Home, Map View and Settings push Home, MapPage and Settings; any other option only alerts "You pressed …" |
| FriendPage.FetchFriends | screens/FriendPage.js:56-72 | loading is cleared in every outcome; an ok, parsed response replaces the list; a non-ok status, a bad body or a rejection sets the load error and keeps the list; the query, the typed ID and both dialog flags are kept |
| FriendPage.FailedLoadLeavesListEmpty | screens/FriendPage.js:23-68 | a failed first load leaves the list empty and shows "Unable to load friends list." |
| FriendPage.Render | screens/FriendPage.js:95-117 | precedence is spinner while loading, then the error, then the filtered list |
| FriendPage.LoadedListShowsEveryone | screens/FriendPage.js:56-101 | after a successful first load, with no query yet, the list shows every fetched person |
| FriendPage.SetSearchQuery | screens/FriendPage.js:87-93 | typing replaces the query and keeps every other field: list, loading, error, dialog flags and typed ID |
| FriendPage.TypingRefilters | screens/FriendPage.js:74-117 | once the list is shown, the view after typing is the tracked list filtered by the new query, and clearing the query shows the whole list |
| FriendPage.OpenAddFriend | screens/FriendPage.js:119 | the Add Friend button opens the dialog and keeps every other field |
| FriendPage.ConfirmAddFriend | screens/FriendPage.js:170-176 | Add alerts with the typed ID, clears it and closes the dialog; nothing is sent |
| FriendPage.CancelAddFriend | screens/FriendPage.js:180-182 | Cancel closes the dialog and keeps every other field, the typed ID included |
| FriendPage.AddFriendDialogRoundTrip | screens/FriendPage.js:119-182 | from a closed dialog, opening then cancelling restores the state exactly; opening then confirming alerts with the typed ID and changes only that ID, which it clears |
| FriendPage.HandleEmergency | screens/FriendPage.js:46-48 | the emergency button shows exactly the "contacted." alert |
| Text.LowerChar | screens/FriendPage.js:75 | ASCII capitals are shifted to lower case, every other character is kept, and no capital remains |
| Text.Lower | screens/FriendPage.js:75 | lower-casing keeps the length, maps each character through the ASCII case fold, and leaves no ASCII capital |
| Text.LowerIdempotent | screens/FriendPage.js:75 | lower-casing twice equals lower-casing once |
| Text.Includes | screens/FriendPage.js:75 | the scan answers true iff the needle occurs at some index of the haystack |
| Text.IncludesEmpty | screens/FriendPage.js:75 | every string includes the empty string |
| Text.TrimStart | screens/JarvisPage.js:38 | the result is a suffix, everything dropped is white space, and it does not start with white space |
| Text.TrimEnd | screens/JarvisPage.js:38 | the result is a prefix, everything dropped is white space, and it does not end with white space |
| Text.Trim | screens/JarvisPage.js:38-42 | the result is an infix with only white space around it, and neither starts nor ends with white space |
| Text.TrimEmptyIffBlank | screens/JarvisPage.js:38 | a string trims to empty iff all of it is white space |
| Text.TrimIdempotent | screens/JarvisPage.js:42 | trimming a trimmed string changes nothing |
| Text.TrimFixesTrimmed | screens/JarvisPage.js:42 | trimming leaves a string unchanged iff it neither starts nor ends with white space |
| JarvisPage.SetInput | screens/JarvisPage.js:165-166 | typing replaces the input and touches nothing else |
| JarvisPage.CanSend | screens/JarvisPage.js:169-176 | the send button is enabled iff the input holds a character other than white space and no reply is pending (the same test guards the handler at line 38) |
| JarvisPage.Send | screens/JarvisPage.js:37-48 | a no-op with no call unless the trimmed input is non-empty and no reply is pending; otherwise one user message with the trimmed text goes on top, the input is cleared, loading is set and one request carries that text |
| JarvisPage.BotText | screens/JarvisPage.js:74-76 | the reply text is the trimmed candidate when that is non-empty, otherwise the fixed apology; never empty |
| JarvisPage.Receive | screens/JarvisPage.js:74-98 | exactly one bot message goes on top (reply text, or the fixed warning on error); the older list is unchanged; loading is cleared |
| JarvisPage.SendIsNoOpIff | screens/JarvisPage.js:38 | send changes nothing iff the input is all white space or a reply is pending |
| JarvisPage.InitialWellformed | screens/JarvisPage.js:17-25 | the initial chat is exactly the bot greeting, not loading, with an empty input, and it meets the chat invariant |
| JarvisPage.SendPreservesWellformed | screens/JarvisPage.js:37-48 | send keeps the chat invariant: greeting at the bottom, senders alternating, a user message on top iff loading, user texts trimmed and non-empty |
| JarvisPage.ReceivePreservesWellformed | screens/JarvisPage.js:74-98 | the reply to a pending send keeps the same chat invariant |
| JarvisPage.SetInputPreservesWellformed | screens/JarvisPage.js:165-166 | typing keeps the chat invariant |
| JarvisPage.MessagesOnlyGrow | screens/JarvisPage.js:46-95 | send and reply only prepend: the old list is an unchanged suffix of the new one |
| HomePage.Greeting | screens/HomePage.js:71-76 | the greeting is one of the three fixed strings |
| HomePage.GreetingBuckets | screens/HomePage.js:71-76 | for hours 0-23: morning iff 0-11, afternoon iff 12-17, evening iff 18-23 |
| HomePage.GreetingMonotone | screens/HomePage.js:71-76 | a later hour never gets an earlier greeting |
| HomePage.HandleMenuPress | screens/HomePage.js:78-81 | the menu closes and the given name is pushed unchanged |
| HomePage.PressButton | screens/HomePage.js:134-232 | each dashboard button pushes exactly one route and calls nothing: the Map View card, the fullscreen button and the map overlay push MapPage; Friends pushes Friends; Settings pushes Settings; Safety pushes SafetyPage |
| HomePage.HandleEmergency | screens/HomePage.js:67-69 | one tap always shows the "contacted!" alert, with no hold threshold |
| HomePage.UpdateTime | screens/HomePage.js:41-48 | the clock refresh only replaces the displayed time |
| HomePage.Locate | screens/HomePage.js:51-62 | a denial clears loading and leaves the location unset; a granted fix sets the location and clears loading; a rejected permission request or position read leaves the state as it was |
| HomePage.LoadingNeverReturns | screens/HomePage.js:36-62 | once loading is cleared it never returns, and a known location is never lost, over any sequence of events |
| HomePage.LocateOutcomes | screens/HomePage.js:52-61 | from mount, a denial ends loading with no location, a granted fix ends loading with that location, and a rejected request or read leaves it loading |
| HomePage.RenderPreview | screens/HomePage.js:190-221 | the preview shows a loader exactly while loading; otherwise a map with a marker iff the location is known, centred on the location when known and on 0,0 without one |
| HomePage.PreviewAfterLocate | screens/HomePage.js:51-221 | after the mount-time read, a granted fix shows a map centred on it with a marker there, a denial a map at 0,0 with no marker, a rejected request or read the loader |
| MapPage.OnPermission | screens/MapPage.js:24-42 | a denial shows the permission alert and subscribes to nothing; a grant starts the watch at 5000 ms / 5 m and stores its handle; a rejected request or watch shows nothing and stores nothing |
| MapPage.OnLocationUpdate | screens/MapPage.js:37-40 | each update stores the fix and clears loading |
| MapPage.Render | screens/MapPage.js:75-113 | the loader is shown iff loading or no fix is known; otherwise the map is centred on the fix with the marker on it |
| MapPage.Cleanup | screens/MapPage.js:44-48 | unmount removes the stored subscription iff there is one, at most once |
| MapPage.UpdatesKeepSubscription | screens/MapPage.js:37-40 | updates never change the stored handle; after at least one, the map is shown centred on the latest fix instead of the loader |
| MapPage.GrantedLifecycle | screens/MapPage.js:21-49 | after a grant and any updates, unmounting removes exactly the created subscription, once |
| MapPage.NoWatchNoUpdates | screens/MapPage.js:31-41 | updates arrive only through a started watch, so without a stored subscription loading and the location stay as they are over any run of events |
| MapPage.NoWatchKeepsLoader | screens/MapPage.js:21-82 | when permission is denied, the request rejects or the watch rejects, the loader stays for the whole run and unmounting removes nothing; only a denial shows the permission alert |
| MapPage.HandleMenuPress | screens/MapPage.js:51-69 | the menu always closes; FriendPage, Home, MapPage and Settings push Friends, Home, MapPage and Settings; any other option only alerts "You pressed …" |
| MapPage.HandleEmergency | screens/MapPage.js:71-73 | the emergency button shows exactly the "contacted!" alert |
| Routes.InitialRouteRegistered | App.js:16-25 | the initial route Login is one of the six registered routes |
| RouteClosure.AuthFlowTargets | App.js:16-25 | for every input, the signup, links, Get Started and logout navigate only to registered routes; login can reach only FamilyIntroPage |
| RouteClosure.MenuTargets | App.js:16-25 | for every option, the Friends and Map menus push only registered routes; the dashboard menu's offered options are registered |
| RouteClosure.DashboardTargets | screens/HomePage.js:133-166 | every dashboard button except Safety pushes a registered route; Safety pushes SafetyPage |
| RouteClosure.UnregisteredTargets | screens/LoginPage.js:47-50 | a successful login reaches FamilyIntroPage and the Safety card reaches SafetyPage, and neither is registered |

## Left out

- Text.Lower: folds only ASCII capitals, not the full Unicode `toLowerCase`, because the case mapping tables are outside this model.
- Styling, JSX layout and the `Animated` fade and spring effects: pure presentation.
- The responsive `wp`/`hp` helpers, tablet detection and the map region deltas: floating-point layout.
- The SDK internals of the identity service, location provider, maps and HTTP client: each call is an abstract success or failure input.
- The text-generation request body, system prompt and endpoint key: `GenerateContent` carries only the user's text, and no secret is copied.
- The failure branch of `sendHelpAlert` (`screens/SafetyPage.js:29-31`): it runs only if showing an alert throws.
- The race in `screens/MapPage.js:31,44-48`, where a subscription that resolves after unmount is never removed: it needs asynchronous interleaving.
- MapPage.Step: a position update is applied only once the watch handle is stored, because the window between the watch starting and its promise resolving needs asynchronous interleaving.
- `App.js` navigator wiring beyond the registered names and the initial route.
- `LandingPage.js`: a two-second splash timer on a screen the navigator does not register.
- `Date.now`, `getHours`, `toLocaleTimeString`, `Math.random` and `ID.unique`: these are parameters.
- Back buttons (`navigation.goBack()`) and the chatbot's `handleBack`: these pop the stack, and the model does not represent a stack.
- The buttons that only open a menu (`setModalVisible(true)` in the Friends and Map screens): single flag setters. The dashboard's `OpenMenu` event stands for the same.
- The shape of the friends response body: it is taken to be a list of people. A body of another shape would throw at render.
- Console logging in every catch branch: it has no effect on state or the UI.
- A session check at app launch: no screen in the source does one.

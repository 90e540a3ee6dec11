/** Option and Result: the two wrappers every screen handler uses. */
module Wrappers {

  /** A value that may be absent (JavaScript's `null` / `undefined`). */
  datatype Option<+T> = None | Some(value: T) {

    /** The wrapped value, or `default` when absent. */
    function GetOr(default: T): T {
      match this
      case Some(v) => v
      case None => default
    }
  }

  /** What an awaited SDK call settles to: the resolved value, or the
      `message` of the error it rejected with. */
  datatype Result<+T> = Ok(value: T) | Err(message: string)
}

/** The observable side of a screen handler: the service calls it issues,
    the dialogs it opens and the navigation actions it performs. */
module Effects {
  import opened Wrappers

  /** A call into an external SDK (identity service, HTTP, location, text generation). */
  datatype Call =
    | DeleteSession(sessionId: string)
    | CreateEmailSession(email: string, password: string)
    | CreateAccount(userId: string, email: string, password: string)
    | GetAccount
    | HttpGet(url: string)
    | GenerateContent(userText: string)
    | RequestLocationPermission
    | GetCurrentPosition
    | WatchPosition(timeIntervalMs: int, distanceIntervalM: int)
    | RemoveSubscription(handle: nat)

  /** A dialog: a plain alert (title with an optional message), or a
      confirmation offering a list of button labels. Opening one does not
      block; the handler carries on at once. */
  datatype Dialog =
    | Alert(title: string, message: Option<string>)
    | Confirm(heading: string, question: string, choices: seq<string>)

  /** A navigator action: push a route, or replace the whole stack. */
  datatype Nav =
    | Navigate(route: string)
    | Reset(index: nat, routes: seq<string>)

  /** Everything one handler invocation does outside its own state, each
      kind in the order issued. Every handler of this model issues all its
      service calls, then opens its dialogs, then navigates (a successful
      login alerts and then resets the stack, a successful signup alerts and
      then pushes Login), so reading the three lists in that order gives
      the source's order. */
  datatype Reaction = Reaction(calls: seq<Call>, dialogs: seq<Dialog>, nav: seq<Nav>)

  const Quiet := Reaction([], [], [])

  /** The route names a reaction's navigation actions lead to. */
  function Targets(nav: seq<Nav>): (r: set<string>)
    ensures forall name :: name in r <==>
      Navigate(name) in nav ||
      exists i :: 0 <= i < |nav| && nav[i].Reset? && name in nav[i].routes
  {
    if nav == [] then {}
    else
      var head := match nav[0]
        case Navigate(name) => {name}
        case Reset(_, routes) => set name | name in routes;
      assert forall i :: 1 <= i < |nav| ==> nav[i] == nav[1..][i - 1];
      head + Targets(nav[1..])
  }
}

/** The routes the stack navigator registers, and the one it starts on. */
module Routes {

  const Login := "Login"
  const SignupPage := "SignupPage"
  const Home := "Home"
  const MapPage := "MapPage"
  const Friends := "Friends"
  const Settings := "Settings"

  const Registered: set<string> := {Login, SignupPage, Home, MapPage, Friends, Settings}

  const InitialRoute := Login

  /** The initial route is one the navigator registers, and there are six. */
  lemma InitialRouteRegistered()
    ensures InitialRoute in Registered
    ensures |Registered| == 6
  {
  }
}

/** What the device location provider reports. */
module Location {

  /** A position fix; the model only carries it, so real numbers stand in
      for the provider's floating-point degrees. */
  datatype Coords = Coords(latitude: real, longitude: real)

  /** The permission request's answer; every status other than "granted"
      counts as a denial. A request that rejects has no status: the screens
      take an `Option<PermissionStatus>` and read `None` as that case. */
  datatype PermissionStatus = Granted | Denied
}

/** The live map: asks for location permission, subscribes to position
    updates, renders a loader until a fix arrives, and releases the
    subscription on unmount. The permission answer, the subscription handle
    and the position fixes are parameters. */
module MapPage {
  import opened Wrappers
  import opened Effects
  import opened Location

  /** `subscription` is the watch handle once one has been stored. */
  datatype MapState = MapState(
    location: Option<Coords>,
    loading: bool,
    modalVisible: bool,
    subscription: Option<nat>)

  const Initial := MapState(None, true, false, None)

  /** The watch asks for an update at most every 5000 ms or 5 m of movement. */
  const WatchTimeIntervalMs := 5000
  const WatchDistanceIntervalM := 5

  const PermissionDenied := Alert("Permission Denied", Some("Location permission is required to view the map."))
  const EmergencyContacted := Alert("Emergency", Some("Emergency services have been contacted!"))

  /** The mount effect. `status` is the permission answer, `None` when the
      request itself rejects; `watch` is the handle `watchPositionAsync`
      resolves to, `None` when it rejects. A denial shows an alert and
      subscribes to nothing. A grant starts the watch and stores its handle.
      A rejected request or watch escapes unhandled: no alert, nothing
      stored. */
  function OnPermission(s: MapState, status: Option<PermissionStatus>, watch: Option<nat>): (r: (MapState, Reaction))
    ensures status != Some(Granted) ==> r.0 == s
    ensures status == Some(Denied) ==> r.1 == Reaction([RequestLocationPermission], [PermissionDenied], [])
    ensures status == None ==> r.1 == Reaction([RequestLocationPermission], [], [])
    ensures status == Some(Granted) ==>
      r.1 == Reaction([RequestLocationPermission, WatchPosition(WatchTimeIntervalMs, WatchDistanceIntervalM)], [], [])
    ensures status == Some(Granted) && watch.Some? ==> r.0 == s.(subscription := watch)
    ensures status == Some(Granted) && watch.None? ==> r.0 == s
  {
    match status
    case None => (s, Reaction([RequestLocationPermission], [], []))
    case Some(Denied) => (s, Reaction([RequestLocationPermission], [PermissionDenied], []))
    case Some(Granted) =>
      var watching := Reaction([RequestLocationPermission, WatchPosition(WatchTimeIntervalMs, WatchDistanceIntervalM)], [], []);
      match watch
      case Some(_) => (s.(subscription := watch), watching)
      case None => (s, watching)
  }

  /** The watch callback: every update stores the fix and clears `loading`. */
  function OnLocationUpdate(s: MapState, fix: Coords): (r: MapState)
    ensures r.location == Some(fix) && !r.loading
    ensures r.subscription == s.subscription && r.modalVisible == s.modalVisible
  {
    s.(location := Some(fix), loading := false)
  }

  datatype MapView = Loader | LiveMap(center: Coords, marker: Coords)

  /** The screen: the loader while loading or while no fix is known,
      otherwise a map centred on the fix with the marker on it. */
  function Render(s: MapState): (v: MapView)
    ensures v.Loader? <==> s.loading || s.location.None?
    ensures v.LiveMap? ==> v.center == s.location.value && v.marker == s.location.value
  {
    if s.loading || s.location.None? then Loader
    else LiveMap(s.location.value, s.location.value)
  }

  /** The unmount cleanup: removes the stored subscription, if any, once. */
  function Cleanup(s: MapState): (r: Reaction)
    ensures |r.calls| <= 1 && r.dialogs == [] && r.nav == []
    ensures r.calls != [] <==> s.subscription.Some?
    ensures forall c :: c in r.calls ==> c == RemoveSubscription(s.subscription.value)
  {
    match s.subscription
    case Some(handle) => Reaction([RemoveSubscription(handle)], [], [])
    case None => Quiet
  }

  /** Delivers position fixes in order. */
  function ApplyUpdates(s: MapState, fixes: seq<Coords>): MapState
    decreases |fixes|
  {
    if fixes == [] then s else ApplyUpdates(OnLocationUpdate(s, fixes[0]), fixes[1..])
  }

  /** Updates never touch the stored handle; after at least one, the map
      shows the latest fix instead of the loader. */
  lemma {:induction false} UpdatesKeepSubscription(s: MapState, fixes: seq<Coords>)
    ensures ApplyUpdates(s, fixes).subscription == s.subscription
    ensures fixes != [] ==>
      ApplyUpdates(s, fixes).location == Some(fixes[|fixes| - 1]) &&
      Render(ApplyUpdates(s, fixes)) == LiveMap(fixes[|fixes| - 1], fixes[|fixes| - 1])
    decreases |fixes|
  {
    if fixes != [] {
      var s1 := OnLocationUpdate(s, fixes[0]);
      UpdatesKeepSubscription(s1, fixes[1..]);
      if |fixes| > 1 {
        assert fixes[1..][|fixes| - 2] == fixes[|fixes| - 1];
      }
    }
  }

  /** A granted screen's whole life: whatever updates arrive, unmounting
      removes exactly the subscription it created, once. */
  lemma GrantedLifecycle(handle: nat, fixes: seq<Coords>)
    ensures var s := ApplyUpdates(OnPermission(Initial, Some(Granted), Some(handle)).0, fixes);
      Cleanup(s).calls == [RemoveSubscription(handle)]
  {
    UpdatesKeepSubscription(OnPermission(Initial, Some(Granted), Some(handle)).0, fixes);
  }

  /** Everything that can happen to the map after its mount effect has
      settled. A position update arrives only through a started watch, so
      it has an effect only while a subscription is stored. */
  datatype MapEvent =
    | Update(fix: Coords)
    | OpenMenu
    | CloseMenu
    | MenuPress(option: string)
    | Emergency

  function Step(s: MapState, e: MapEvent): MapState {
    match e
    case Update(fix) => if s.subscription.Some? then OnLocationUpdate(s, fix) else s
    case OpenMenu => s.(modalVisible := true)
    case CloseMenu => s.(modalVisible := false)
    case MenuPress(option) => HandleMenuPress(s, option).0
    case Emergency => s
  }

  function Run(s: MapState, events: seq<MapEvent>): MapState
    decreases |events|
  {
    if events == [] then s else Run(Step(s, events[0]), events[1..])
  }

  /** Without a subscription nothing can deliver a fix: loading, location
      and the (absent) handle stay as they are over any run. */
  lemma {:induction false} NoWatchNoUpdates(s: MapState, events: seq<MapEvent>)
    requires s.subscription.None?
    ensures var t := Run(s, events);
      t.subscription.None? && t.loading == s.loading && t.location == s.location
    decreases |events|
  {
    if events != [] {
      NoWatchNoUpdates(Step(s, events[0]), events[1..]);
    }
  }

  /** When the mount effect stores no watch (permission denied, the request
      rejected, or the watch rejected) the loader stays up for the screen's
      whole life, and unmounting removes nothing. Only a denial shows the
      permission alert. */
  lemma {:induction false} NoWatchKeepsLoader(status: Option<PermissionStatus>, watch: Option<nat>, events: seq<MapEvent>)
    requires status != Some(Granted) || watch.None?
    ensures var m := OnPermission(Initial, status, watch);
      var s := Run(m.0, events);
      Render(s) == Loader && s.subscription.None? && Cleanup(s).calls == [] &&
      (m.1.dialogs == [PermissionDenied] <==> status == Some(Denied))
  {
    NoWatchNoUpdates(OnPermission(Initial, status, watch).0, events);
  }

  /** The side-menu options and the routes they push. */
  const MenuRoutes: map<string, string> :=
    map["FriendPage" := "Friends", "Home" := "Home", "MapPage" := "MapPage", "Settings" := "Settings"]

  /** A menu option: always closes the menu; a known option pushes its
      route, anything else only shows which option was pressed. */
  function HandleMenuPress(s: MapState, option: string): (r: (MapState, Reaction))
    ensures r.0 == s.(modalVisible := false)
    ensures r.1.calls == []
    ensures option in MenuRoutes ==> r.1.nav == [Navigate(MenuRoutes[option])] && r.1.dialogs == []
    ensures option !in MenuRoutes ==> r.1.nav == [] && r.1.dialogs == [Alert("You pressed " + option, None)]
  {
    var reaction :=
      if option == "FriendPage" then Reaction([], [], [Navigate("Friends")])
      else if option == "Home" then Reaction([], [], [Navigate("Home")])
      else if option == "MapPage" then Reaction([], [], [Navigate("MapPage")])
      else if option == "Settings" then Reaction([], [], [Navigate("Settings")])
      else Reaction([], [Alert("You pressed " + option, None)], []);
    (s.(modalVisible := false), reaction)
  }

  /** The emergency button: one tap, one alert. */
  function HandleEmergency(): (r: Reaction)
    ensures r.dialogs == [EmergencyContacted] && r.calls == [] && r.nav == []
  {
    Reaction([], [EmergencyContacted], [])
  }
}

/** The home dashboard: an hour-based greeting, a one-shot location read
    for the map preview, quick-action buttons, a side menu and a one-tap
    emergency button. The hour, the clock string and the location
    provider's answers are parameters. */
module HomePage {
  import opened Wrappers
  import opened Effects
  import opened Location

  datatype HomeState = HomeState(
    modalVisible: bool,
    location: Option<Coords>,
    loading: bool,
    currentTime: string)

  const Initial := HomeState(false, None, true, "")

  const Morning := "Good Morning!"
  const Afternoon := "Good Afternoon!"
  const Evening := "Good Evening!"

  const EmergencyContacted := Alert("Emergency", Some("Emergency services have been contacted!"))

  /** The greeting for the local hour of day the clock reports. */
  function Greeting(hour: int): (g: string)
    ensures g in {Morning, Afternoon, Evening}
  {
    if hour < 12 then Morning
    else if hour < 18 then Afternoon
    else Evening
  }

  /** Over the hours a clock can report, each gets exactly one greeting:
      morning for 0-11, afternoon for 12-17, evening for 18-23. */
  lemma GreetingBuckets(hour: int)
    requires 0 <= hour <= 23
    ensures Greeting(hour) == Morning <==> 0 <= hour <= 11
    ensures Greeting(hour) == Afternoon <==> 12 <= hour <= 17
    ensures Greeting(hour) == Evening <==> 18 <= hour <= 23
  {
  }

  /** Position of a greeting in the day. */
  function Rank(g: string): nat {
    if g == Morning then 0 else if g == Afternoon then 1 else 2
  }

  /** Greetings never go backwards as the hour advances. */
  lemma GreetingMonotone(h1: int, h2: int)
    requires h1 <= h2
    ensures Rank(Greeting(h1)) <= Rank(Greeting(h2))
  {
  }

  /** A side-menu entry: closes the menu, then pushes the given name as is. */
  function HandleMenuPress(s: HomeState, screen: string): (r: (HomeState, Reaction))
    ensures r.0 == s.(modalVisible := false)
    ensures r.1 == Reaction([], [], [Navigate(screen)])
  {
    (s.(modalVisible := false), Reaction([], [], [Navigate(screen)]))
  }

  /** The names the side menu passes to `HandleMenuPress`. */
  const MenuScreens: seq<string> := ["MapPage", "Friends", "Settings"]

  /** The dashboard's own buttons: the four quick-action cards, the
      fullscreen button above the map preview and the "Tap to expand"
      overlay on it. */
  datatype Button = MapViewCard | FriendsCard | SettingsCard | SafetyCard | FullscreenMap | ExpandMap

  /** Each button pushes one fixed route and does nothing else: the Map View
      card and both map-preview buttons open the live map, the Friends and
      Settings cards their screens, and the Safety card "SafetyPage". */
  function PressButton(b: Button): (r: Reaction)
    ensures r.calls == [] && r.dialogs == [] && |r.nav| == 1 && r.nav[0].Navigate?
    ensures b in {MapViewCard, FullscreenMap, ExpandMap} <==> r.nav == [Navigate("MapPage")]
    ensures b == FriendsCard <==> r.nav == [Navigate("Friends")]
    ensures b == SettingsCard <==> r.nav == [Navigate("Settings")]
    ensures b == SafetyCard <==> r.nav == [Navigate("SafetyPage")]
  {
    var route := match b
      case MapViewCard => "MapPage"
      case FriendsCard => "Friends"
      case SettingsCard => "Settings"
      case SafetyCard => "SafetyPage"
      case FullscreenMap => "MapPage"
      case ExpandMap => "MapPage";
    Reaction([], [], [Navigate(route)])
  }

  /** The emergency button: a single tap always shows the alert; there is
      no hold threshold and no clock involved. */
  function HandleEmergency(): (r: Reaction)
    ensures r.dialogs == [EmergencyContacted] && r.calls == [] && r.nav == []
  {
    Reaction([], [EmergencyContacted], [])
  }

  /** The once-a-minute clock refresh. */
  function UpdateTime(s: HomeState, timeString: string): (r: HomeState)
    ensures r == s.(currentTime := timeString)
  {
    s.(currentTime := timeString)
  }

  /** The mount-time location read. `status` is the permission answer,
      `None` when the request itself rejects; `position` is the one position
      read, `None` when that read rejects. A denial clears `loading` and
      leaves the location unset. A grant reads one position; a fix is
      stored and `loading` cleared. A rejected request or read escapes the
      handler unhandled: no alert, and the state stays as it was. */
  function Locate(s: HomeState, status: Option<PermissionStatus>, position: Option<Coords>): (r: (HomeState, Reaction))
    ensures status == Some(Denied) ==>
      r.0 == s.(loading := false) && r.1.calls == [RequestLocationPermission]
    ensures status == Some(Granted) ==> r.1.calls == [RequestLocationPermission, GetCurrentPosition]
    ensures status == Some(Granted) && position.Some? ==>
      r.0 == s.(location := position, loading := false)
    ensures status == Some(Granted) && position.None? ==> r.0 == s
    ensures status == None ==> r.0 == s && r.1.calls == [RequestLocationPermission]
    ensures r.1.dialogs == [] && r.1.nav == []
  {
    match status
    case None => (s, Reaction([RequestLocationPermission], [], []))
    case Some(Denied) => (s.(loading := false), Reaction([RequestLocationPermission], [], []))
    case Some(Granted) =>
      var calls := [RequestLocationPermission, GetCurrentPosition];
      match position
      case Some(_) => (s.(location := position, loading := false), Reaction(calls, [], []))
      case None => (s, Reaction(calls, [], []))
  }

  /** Everything that can happen to the dashboard after it mounts. */
  datatype HomeEvent =
    | MenuPress(screen: string)
    | OpenMenu
    | CloseMenu
    | Tick(timeString: string)
    | Emergency
    | LocationSettled(status: Option<PermissionStatus>, position: Option<Coords>)

  function Step(s: HomeState, e: HomeEvent): HomeState {
    match e
    case MenuPress(screen) => HandleMenuPress(s, screen).0
    case OpenMenu => s.(modalVisible := true)
    case CloseMenu => s.(modalVisible := false)
    case Tick(t) => UpdateTime(s, t)
    case Emergency => s
    case LocationSettled(status, position) => Locate(s, status, position).0
  }

  function Run(s: HomeState, events: seq<HomeEvent>): HomeState
    decreases |events|
  {
    if events == [] then s else Run(Step(s, events[0]), events[1..])
  }

  /** Once cleared, `loading` never comes back, and a known location is
      never forgotten, whatever happens afterwards. */
  lemma {:induction false} LoadingNeverReturns(s: HomeState, events: seq<HomeEvent>)
    ensures !s.loading ==> !Run(s, events).loading
    ensures s.location.Some? ==> Run(s, events).location.Some?
    decreases |events|
  {
    if events != [] {
      LoadingNeverReturns(Step(s, events[0]), events[1..]);
    }
  }

  /** After a denial the location stays unset; after a granted fix the
      dashboard has it and is no longer loading; after a rejected request
      or read it is still loading. */
  lemma LocateOutcomes(position: Coords)
    ensures var s := Locate(Initial, Some(Denied), None).0; !s.loading && s.location == None
    ensures var s := Locate(Initial, Some(Granted), Some(position)).0; !s.loading && s.location == Some(position)
    ensures Locate(Initial, None, None).0.loading && Locate(Initial, Some(Granted), None).0.loading
  {
  }

  datatype Preview = PreviewLoading | PreviewMap(center: Coords, marker: Option<Coords>)

  /** The map preview: a loader while loading, else a map centred on the
      location (or on 0,0 when there is none) with a marker only when the
      location is known. */
  function RenderPreview(s: HomeState): (v: Preview)
    ensures v.PreviewLoading? <==> s.loading
    ensures v.PreviewMap? ==> v.marker == s.location
    ensures v.PreviewMap? && s.location.Some? ==> v.center == s.location.value
    ensures v.PreviewMap? && s.location.None? ==> v.center == Coords(0.0, 0.0)
  {
    if s.loading then PreviewLoading
    else PreviewMap(s.location.GetOr(Coords(0.0, 0.0)), s.location)
  }

  /** What the preview shows once the mount-time read has settled: a
      granted fix gives a map centred on it with a marker there; a denial
      gives a map centred on 0,0 with no marker; a rejected request or read
      leaves the loader up. */
  lemma PreviewAfterLocate(p: Coords)
    ensures RenderPreview(Locate(Initial, Some(Granted), Some(p)).0) == PreviewMap(p, Some(p))
    ensures RenderPreview(Locate(Initial, Some(Denied), None).0) == PreviewMap(Coords(0.0, 0.0), None)
    ensures RenderPreview(Locate(Initial, None, None).0) == PreviewLoading
    ensures RenderPreview(Locate(Initial, Some(Granted), None).0) == PreviewLoading
  {
  }
}

/** The friends screen: a fetched list of tracked people, a case-insensitive
    name search, a navigation menu and an add-friend dialog. The HTTP
    response is a parameter. */
module FriendPage {
  import opened Wrappers
  import opened Effects
  import opened Text

  datatype Person = Person(name: string, image: string, statusColor: string,
                           activity: string, location: string, time: string)

  datatype FriendsState = FriendsState(
    modalVisible: bool,
    addFriendModalVisible: bool,
    searchQuery: string,
    newFriendId: string,
    peopleYouTrack: seq<Person>,
    loading: bool,
    error: Option<string>)

  const Initial := FriendsState(false, false, "", "", [], true, None)

  const ApiUrl := "https://your-backend-url.com/api/friends"
  const LoadError := "Unable to load friends list."
  const EmergencyContacted := Alert("Emergency", Some("Emergency services have been contacted."))

  /** `a` is `b` with some elements left out, the rest in their order. */
  predicate IsSubsequence<T(==)>(a: seq<T>, b: seq<T>)
    decreases |b|
  {
    if a == [] then true
    else if b == [] then false
    else (a[0] == b[0] && IsSubsequence(a[1..], b[1..])) || IsSubsequence(a, b[1..])
  }

  /** A person matches when the lower-cased query occurs somewhere in the
      lower-cased name. */
  predicate Matches(p: Person, query: string) {
    Includes(Lower(p.name), Lower(query))
  }

  /** `filteredPeople`: the tracked people whose name matches the query.
      Everything it keeps matches and it never adds anyone. */
  function FilterPeople(people: seq<Person>, query: string): (r: seq<Person>)
    ensures |r| <= |people|
    ensures forall i :: 0 <= i < |r| ==> Matches(r[i], query) && r[i] in people
    decreases |people|
  {
    if people == [] then []
    else
      var rest := FilterPeople(people[1..], query);
      if Matches(people[0], query) then [people[0]] + rest else rest
  }

  /** Exact counts: each matching person is kept as often as tracked, each
      other person not at all. */
  lemma {:induction false} FilterCounts(people: seq<Person>, query: string)
    ensures forall p ::
              multiset(FilterPeople(people, query))[p] == (if Matches(p, query) then multiset(people)[p] else 0)
    decreases |people|
  {
    if people != [] {
      FilterCounts(people[1..], query);
      assert people == [people[0]] + people[1..];
    }
  }

  /** The filter keeps the tracked order: its result is a subsequence of
      the tracked list. */
  lemma {:induction false} FilterIsSubsequence(people: seq<Person>, query: string)
    ensures IsSubsequence(FilterPeople(people, query), people)
    decreases |people|
  {
    if people != [] {
      FilterIsSubsequence(people[1..], query);
      var rest := FilterPeople(people[1..], query);
      if Matches(people[0], query) {
        assert ([people[0]] + rest)[1..] == rest;
      }
    }
  }

  /** Sound and complete membership: a person is listed iff tracked and
      matching. */
  lemma FilterMembership(people: seq<Person>, query: string, p: Person)
    ensures p in FilterPeople(people, query) <==> p in people && Matches(p, query)
  {
    var r := FilterPeople(people, query);
    FilterCounts(people, query);
    assert p in r <==> multiset(r)[p] > 0;
    assert p in people <==> multiset(people)[p] > 0;
  }

  /** An empty query keeps everyone. */
  lemma {:induction false} EmptyQueryKeepsAll(people: seq<Person>)
    ensures FilterPeople(people, "") == people
    decreases |people|
  {
    if people != [] {
      IncludesEmpty(Lower(people[0].name));
      EmptyQueryKeepsAll(people[1..]);
    }
  }

  /** Only the lower-cased query matters. */
  lemma {:induction false} QueryCaseInsensitive(people: seq<Person>, query: string)
    ensures FilterPeople(people, Lower(query)) == FilterPeople(people, query)
    decreases |people|
  {
    LowerIdempotent(query);
    if people != [] {
      QueryCaseInsensitive(people[1..], query);
    }
  }

  /** Filtering the filtered list again changes nothing. */
  lemma {:induction false} FilterIdempotent(people: seq<Person>, query: string)
    ensures FilterPeople(FilterPeople(people, query), query) == FilterPeople(people, query)
    decreases |people|
  {
    if people != [] {
      FilterIdempotent(people[1..], query);
      var rest := FilterPeople(people[1..], query);
      if Matches(people[0], query) {
        assert ([people[0]] + rest)[1..] == rest;
      }
    }
  }

  /** The side-menu options and the routes they push. */
  const MenuRoutes: map<string, string> := map["Home" := "Home", "Map View" := "MapPage", "Settings" := "Settings"]

  /** A menu option: always closes the menu; a known option pushes its
      route, anything else only shows which option was pressed. */
  function HandleMenuPress(s: FriendsState, option: string): (r: (FriendsState, Reaction))
    ensures r.0 == s.(modalVisible := false)
    ensures r.1.calls == []
    ensures option in MenuRoutes ==> r.1.nav == [Navigate(MenuRoutes[option])] && r.1.dialogs == []
    ensures option !in MenuRoutes ==> r.1.nav == [] && r.1.dialogs == [Alert("You pressed " + option, None)]
  {
    var reaction :=
      if option == "Home" then Reaction([], [], [Navigate("Home")])
      else if option == "Map View" then Reaction([], [], [Navigate("MapPage")])
      else if option == "Settings" then Reaction([], [], [Navigate("Settings")])
      else Reaction([], [Alert("You pressed " + option, None)], []);
    (s.(modalVisible := false), reaction)
  }

  /** What `fetch(API_URL)` settles to: a response with its `ok` flag and
      the outcome of parsing its body, or a rejection. */
  datatype FetchResult =
    | Responded(ok: bool, body: Result<seq<Person>>)
    | Rejected(message: string)

  predicate Loaded(result: FetchResult) {
    result.Responded? && result.ok && result.body.Ok?
  }

  /** The mount-time fetch: a good response replaces the list; a non-ok
      status, a bad body or a rejection records the load error and leaves
      the list alone; `loading` is cleared in every case. */
  function FetchFriends(s: FriendsState, result: FetchResult): (r: (FriendsState, Reaction))
    ensures !r.0.loading
    ensures r.1 == Reaction([HttpGet(ApiUrl)], [], [])
    ensures Loaded(result) ==> r.0.peopleYouTrack == result.body.value && r.0.error == s.error
    ensures !Loaded(result) ==> r.0.peopleYouTrack == s.peopleYouTrack && r.0.error == Some(LoadError)
    ensures r.0.searchQuery == s.searchQuery && r.0.newFriendId == s.newFriendId
    ensures r.0.modalVisible == s.modalVisible && r.0.addFriendModalVisible == s.addFriendModalVisible
  {
    var s' := match result
      case Responded(ok, body) =>
        if !ok then s.(error := Some(LoadError))
        else (match body
          case Ok(data) => s.(peopleYouTrack := data)
          case Err(_) => s.(error := Some(LoadError)))
      case Rejected(_) => s.(error := Some(LoadError));
    (s'.(loading := false), Reaction([HttpGet(ApiUrl)], [], []))
  }

  /** A failed first load shows the error and an empty list. */
  lemma FailedLoadLeavesListEmpty(result: FetchResult)
    requires !Loaded(result)
    ensures var s := FetchFriends(Initial, result).0;
      s.peopleYouTrack == [] && s.error == Some(LoadError) && !s.loading
  {
  }

  datatype FriendsView = Spinner | ErrorText(message: string) | PeopleList(people: seq<Person>)

  /** Render precedence: the spinner while loading, else the error, else
      the filtered list. */
  function Render(s: FriendsState): (v: FriendsView)
    ensures v.Spinner? <==> s.loading
    ensures v.ErrorText? <==> !s.loading && s.error.Some?
    ensures v.ErrorText? ==> v.message == s.error.value
    ensures v.PeopleList? ==> v.people == FilterPeople(s.peopleYouTrack, s.searchQuery)
  {
    if s.loading then Spinner
    else match s.error
      case Some(message) => ErrorText(message)
      case None => PeopleList(FilterPeople(s.peopleYouTrack, s.searchQuery))
  }

  /** After a successful first load the list shows every tracked person
      until a query is typed. */
  lemma LoadedListShowsEveryone(result: FetchResult)
    requires Loaded(result)
    ensures Render(FetchFriends(Initial, result).0) == PeopleList(result.body.value)
  {
    EmptyQueryKeepsAll(result.body.value);
  }

  /** Typing in the search box replaces the query and nothing else. */
  function SetSearchQuery(s: FriendsState, query: string): (r: FriendsState)
    ensures r.searchQuery == query && r.peopleYouTrack == s.peopleYouTrack
    ensures r.loading == s.loading && r.error == s.error
    ensures r.modalVisible == s.modalVisible && r.addFriendModalVisible == s.addFriendModalVisible
    ensures r.newFriendId == s.newFriendId
  {
    s.(searchQuery := query)
  }

  /** Once the list is shown, typing only re-filters it: the view is the
      tracked list filtered by the new query. */
  lemma TypingRefilters(s: FriendsState, query: string)
    requires !s.loading && s.error.None?
    ensures Render(SetSearchQuery(s, query)) == PeopleList(FilterPeople(s.peopleYouTrack, query))
    ensures Render(SetSearchQuery(s, "")) == PeopleList(s.peopleYouTrack)
  {
    EmptyQueryKeepsAll(s.peopleYouTrack);
  }

  /** The "Add Friend" button opens the dialog and changes nothing else. */
  function OpenAddFriend(s: FriendsState): (r: FriendsState)
    ensures r.addFriendModalVisible && r.newFriendId == s.newFriendId
    ensures r.modalVisible == s.modalVisible && r.searchQuery == s.searchQuery
    ensures r.peopleYouTrack == s.peopleYouTrack && r.loading == s.loading && r.error == s.error
  {
    s.(addFriendModalVisible := true)
  }

  /** The "Add" button: confirms with the typed ID, clears it and closes
      the dialog. Nothing is sent anywhere. */
  function ConfirmAddFriend(s: FriendsState): (r: (FriendsState, Reaction))
    ensures r.0 == s.(newFriendId := "", addFriendModalVisible := false)
    ensures r.1.dialogs == [Alert("Friend Added", Some("Tracking ID: " + s.newFriendId))]
    ensures r.1.calls == [] && r.1.nav == []
  {
    (s.(newFriendId := "", addFriendModalVisible := false),
     Reaction([], [Alert("Friend Added", Some("Tracking ID: " + s.newFriendId))], []))
  }

  /** The "Cancel" button closes the dialog and keeps the typed ID. */
  function CancelAddFriend(s: FriendsState): (r: FriendsState)
    ensures !r.addFriendModalVisible && r.newFriendId == s.newFriendId
    ensures r.modalVisible == s.modalVisible && r.searchQuery == s.searchQuery
    ensures r.peopleYouTrack == s.peopleYouTrack && r.loading == s.loading && r.error == s.error
  {
    s.(addFriendModalVisible := false)
  }

  /** Opening the add-friend dialog and cancelling it is no change at all;
      opening it and confirming alerts with the typed ID and only clears
      that ID. */
  lemma AddFriendDialogRoundTrip(s: FriendsState)
    requires !s.addFriendModalVisible
    ensures CancelAddFriend(OpenAddFriend(s)) == s
    ensures ConfirmAddFriend(OpenAddFriend(s)).0 == s.(newFriendId := "")
    ensures ConfirmAddFriend(OpenAddFriend(s)).1.dialogs == [Alert("Friend Added", Some("Tracking ID: " + s.newFriendId))]
  {
  }

  /** The emergency button: one tap, one alert. */
  function HandleEmergency(): (r: Reaction)
    ensures r == Reaction([], [EmergencyContacted], [])
  {
    Reaction([], [EmergencyContacted], [])
  }
}

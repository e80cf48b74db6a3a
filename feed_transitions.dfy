/** The feed view's state machine (src/components/Home.js): the new
    component state after each event, as pure functions, and what the
    events do to the displayed panel. The component class in home.dfy
    is proved to follow these functions. */
module FeedTransitions {

  import opened Wrappers
  import opened FeedModel
  import opened FeedPanel

  /** `componentDidMount`: with geolocation, the geo spinner starts and any
      error is cleared; without, the fixed error is set. */
  function Mount(v: ViewState, hasGeolocation: bool): ViewState
  {
    if hasGeolocation then v.(isLoadingGeoLocation := true, error := "")
    else v.(error := NO_GEO_ERROR)
  }

  /** `setState({isLoadingPosts: true, error: ""})` at the start of either search. */
  function StartSearch(v: ViewState): ViewState
  {
    v.(isLoadingPosts := true, error := "")
  }

  /** `onSuccessLoadGeoLocation`: geo loading ends and a nearby search starts. */
  function GeoSucceeded(v: ViewState): ViewState
  {
    StartSearch(v.(isLoadingGeoLocation := false))
  }

  /** `onFailedLoadGeoLocation`. */
  function GeoFailed(v: ViewState): ViewState
  {
    v.(isLoadingGeoLocation := false, error := GEO_FAILED_ERROR)
  }

  /** The posts a successful search installs: the parsed body, or `[]` when it is falsy. */
  function PostsOrEmpty(data: Option<seq<Post>>): (r: seq<Post>)
    ensures data.None? ==> r == []
    ensures data.Some? ==> r == data.value
  {
    data.GetOr([])
  }

  /** The success handler of both searches. */
  function SearchSucceeded(v: ViewState, data: Option<seq<Post>>): ViewState
  {
    v.(isLoadingPosts := false, posts := PostsOrEmpty(data))
  }

  /** The failure handler of both searches, with the message it sets. */
  function SearchFailed(v: ViewState, msg: string): ViewState
  {
    v.(isLoadingPosts := false, error := msg)
  }

  /** The message a failed nearby search shows: the one it throws itself on a
      non-ok response, or the message of whatever else threw. */
  function NearbyErrorMessage(f: FetchFailure): string
  {
    match f
    case NotOk(_) => POSTS_FAILED_ERROR
    case Thrown(m) => m
  }

  /** The falsy-radius default: `radius ? radius : 20`. */
  function RangeFor(radius: Option<real>): real
  {
    if radius.None? || radius.value == 0.0 then DEFAULT_RANGE else radius.value
  }

  /** The request `loadNearbyPosts(center, radius)` sends. Without a center
      the stored position is read; when there is none, parsing the missing
      entry yields `null` and the call throws before it changes any state:
      `None`. */
  function NearbyQuery(center: Option<Pos>, radius: Option<real>, store: map<string, Pos>): (r: Option<Request>)
    ensures r.Some? <==> center.Some? || POS_KEY in store
    ensures r.Some? ==> r.value.Search?
    ensures center.Some? ==> r == Some(Search(center.value.lat, center.value.lon, RangeFor(radius)))
    ensures center.None? && POS_KEY in store ==>
              r == Some(Search(store[POS_KEY].lat, store[POS_KEY].lon, RangeFor(radius)))
  {
    var c := if center.Some? then center else if POS_KEY in store then Some(store[POS_KEY]) else None;
    if c.None? then None else Some(Search(c.value.lat, c.value.lon, RangeFor(radius)))
  }

  /** The request `loadFacesAroundTheWorld` sends. */
  const FACES_REQUEST: Request := Cluster(FACE_TERM)

  /** The state after `loadNearbyPosts`: a search starts unless the call threw. */
  function StartNearby(v: ViewState, center: Option<Pos>, radius: Option<real>, store: map<string, Pos>): ViewState
  {
    if NearbyQuery(center, radius, store).Some? then StartSearch(v) else v
  }

  /** `onTopicChange`: the topic is set, then "around" starts a nearby search
      with no arguments and anything else starts the face search. */
  function TopicChanged(v: ViewState, topic: string, store: map<string, Pos>): ViewState
  {
    var v' := v.(topic := topic);
    if topic == AROUND then StartNearby(v', None, None, store) else StartSearch(v')
  }

  /** The request `onTopicChange` sends, if any. */
  function TopicRequest(topic: string, store: map<string, Pos>): Option<Request>
  {
    if topic == AROUND then NearbyQuery(None, None, store) else Some(FACES_REQUEST)
  }

  // ---------------------------------------------------------------------
  // Properties of single events.

  /** A falsy radius, absent or zero, gives range 20; any other radius is kept. */
  lemma FalsyRadiusDefaults(radius: Option<real>)
    ensures radius == None || radius == Some(0.0) ==> RangeFor(radius) == 20.0
    ensures radius.Some? && radius.value != 0.0 ==> RangeFor(radius) == radius.value
  {
  }

  /** Starting either search clears the error, starts the posts spinner and
      leaves posts, topic and geo flag alone. */
  lemma StartSearchEffect(v: ViewState)
    ensures StartSearch(v).isLoadingPosts && StartSearch(v).error == ""
    ensures StartSearch(v).posts == v.posts && StartSearch(v).topic == v.topic
    ensures StartSearch(v).isLoadingGeoLocation == v.isLoadingGeoLocation
  {
  }

  /** A geolocation fix ends geo loading, starts the posts spinner and
      clears the error; posts and topic are kept. */
  lemma GeoSucceededEffect(v: ViewState)
    ensures !GeoSucceeded(v).isLoadingGeoLocation
    ensures GeoSucceeded(v).isLoadingPosts && GeoSucceeded(v).error == ""
    ensures GeoSucceeded(v).posts == v.posts && GeoSucceeded(v).topic == v.topic
  {
  }

  /** After a search starts, a spinner is shown whatever the earlier error was. */
  lemma StartSearchShowsSpinner(v: ViewState, tab: string)
    ensures PanelContent(StartSearch(v), tab) == if v.isLoadingGeoLocation then GeoSpinner else PostsSpinner
  {
  }

  /** A successful search ends loading and installs the data (absent data as
      `[]`); the error stays as the start of the search left it. */
  lemma SearchSucceededEffect(v: ViewState, data: Option<seq<Post>>)
    ensures !SearchSucceeded(v, data).isLoadingPosts
    ensures SearchSucceeded(v, data).posts == (if data.Some? then data.value else [])
    ensures SearchSucceeded(v, data).error == v.error
    ensures SearchSucceeded(v, data).topic == v.topic
  {
  }

  /** A failed search ends loading, sets the message and leaves the posts as they were. */
  lemma SearchFailedKeepsPosts(v: ViewState, msg: string)
    ensures !SearchFailed(v, msg).isLoadingPosts
    ensures SearchFailed(v, msg).error == msg
    ensures SearchFailed(v, msg).posts == v.posts
  {
  }

  /** A failed nearby search shows "Failed to load posts" on a non-ok
      response and the thrown message otherwise; a non-empty message wins
      over every other display. */
  lemma NearbyFailureShown(v: ViewState, f: FetchFailure, tab: string)
    ensures f.NotOk? ==> PanelContent(SearchFailed(v, NearbyErrorMessage(f)), tab) == ErrorText("Failed to load posts")
    ensures f.Thrown? && f.message != "" ==>
              PanelContent(SearchFailed(v, NearbyErrorMessage(f)), tab) == ErrorText(f.message)
  {
  }

  /** A failed face search always shows its fixed message. */
  lemma FaceFailureShown(v: ViewState, tab: string)
    ensures PanelContent(SearchFailed(v, FACES_FAILED_ERROR), tab) == ErrorText("Loading face images failed.")
  {
  }

  /** Mounting without geolocation shows "No geo location available";
      a failed geolocation shows "Failed to load geolocation". */
  lemma GeoErrorsShown(v: ViewState, tab: string)
    ensures PanelContent(Mount(v, false), tab) == ErrorText("No geo location available")
    ensures PanelContent(GeoFailed(v), tab) == ErrorText("Failed to load geolocation")
    ensures !GeoFailed(v).isLoadingGeoLocation
  {
  }

  /** Mounting with geolocation clears the error and shows the geo spinner. */
  lemma MountWithGeolocationShowsSpinner(v: ViewState, tab: string)
    ensures Mount(v, true).error == "" && Mount(v, true).isLoadingGeoLocation
    ensures PanelContent(Mount(v, true), tab) == GeoSpinner
  {
  }

  /** A topic change records the chosen topic; "around" searches nearby
      with the stored position and range 20, anything else asks for faces. */
  lemma TopicChangeDispatch(v: ViewState, topic: string, store: map<string, Pos>)
    ensures TopicChanged(v, topic, store).topic == topic
    ensures topic == AROUND && POS_KEY in store ==>
              TopicRequest(topic, store) == Some(Search(store[POS_KEY].lat, store[POS_KEY].lon, 20.0))
    ensures topic == AROUND && POS_KEY in store ==> TopicChanged(v, topic, store) == StartSearch(v.(topic := topic))
    ensures topic != AROUND ==> TopicRequest(topic, store) == Some(Cluster("face"))
    ensures topic != AROUND ==> TopicChanged(v, topic, store) == StartSearch(v.(topic := topic))
  {
  }

  /** Choosing "around" before any position is stored throws: only the topic changes. */
  lemma TopicAroundWithoutPosition(v: ViewState, store: map<string, Pos>)
    requires POS_KEY !in store
    ensures TopicRequest(AROUND, store) == None
    ensures TopicChanged(v, AROUND, store) == v.(topic := AROUND)
  {
  }

  // ---------------------------------------------------------------------
  // Properties of event sequences.

  /** Whatever the server returns, a search that settles without error shows its posts. */
  lemma SettledSearchShowsData(v: ViewState, data: Option<seq<Post>>, tab: string)
    requires !v.isLoadingGeoLocation
    ensures var w := SearchSucceeded(StartSearch(v), data);
            PanelContent(w, tab) ==
              if PostsOrEmpty(data) == [] then NoPosts else TabContent(PostsOrEmpty(data), tab)
  {
  }

  /** The usual first load: from the initial state, mount with geolocation,
      receive a position, receive the nearby posts; the tab then shows
      exactly those posts. */
  lemma FirstLoadShowsServerPosts(data: Option<seq<Post>>, tab: string)
    ensures var w := SearchSucceeded(GeoSucceeded(Mount(INITIAL, true)), data);
            PanelContent(w, tab) ==
              if PostsOrEmpty(data) == [] then NoPosts else TabContent(PostsOrEmpty(data), tab)
  {
  }

  /** Nothing cancels a pending geolocation request: if the user switches to
      "face" while it is pending and it then fails, the geolocation error
      stays after the face search succeeds and hides the posts it loaded. */
  lemma LateGeoFailureHidesLoadedPosts(store: map<string, Pos>, data: seq<Post>, tab: string)
    ensures var w := SearchSucceeded(GeoFailed(TopicChanged(Mount(INITIAL, true), "face", store)), Some(data));
            w.posts == data && PanelContent(w, tab) == ErrorText(GEO_FAILED_ERROR)
  {
  }
}

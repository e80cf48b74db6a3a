/** The `Home` component of src/components/Home.js as an object: its state
    fields and the durable store are updated in place by one method per
    event. Each method's new state is the matching function of
    FeedTransitions applied to the old state. The asynchronous outcomes
    (geolocation, the two searches) arrive as separate calls carrying the
    outcome; each method that issues a request returns it. */
module Home {

  import opened Wrappers
  import opened FeedModel
  import opened FeedPanel
  import opened FeedTransitions

  class HomeComponent {
    var isLoadingGeoLocation: bool
    var error: string
    var isLoadingPosts: bool
    var posts: seq<Post>
    var topic: string
    /** The durable key-value store, as far as positions are concerned. */
    var store: map<string, Pos>

    /** The component state as a record. */
    function View(): ViewState
      reads this
    {
      ViewState(isLoadingGeoLocation, error, isLoadingPosts, posts, topic)
    }

    /** A fresh component over an existing store. */
    constructor (initialStore: map<string, Pos>)
      ensures View() == INITIAL && store == initialStore
    {
      isLoadingGeoLocation := false;
      error := "";
      isLoadingPosts := false;
      posts := [];
      topic := AROUND;
      store := initialStore;
    }

    /** `componentDidMount`; `geoRequested` says whether the position is asked for. */
    method ComponentDidMount(hasGeolocation: bool) returns (geoRequested: bool)
      modifies this
      ensures geoRequested == hasGeolocation
      ensures View() == Mount(old(View()), hasGeolocation) && store == old(store)
    {
      if hasGeolocation {
        isLoadingGeoLocation := true;
        error := "";
        geoRequested := true;
      } else {
        error := NO_GEO_ERROR;
        geoRequested := false;
      }
    }

    /** `onSuccessLoadGeoLocation`: store the reported position, then search around it. */
    method OnSuccessLoadGeoLocation(latitude: Coord, longitude: Coord) returns (req: Request)
      modifies this
      ensures store == old(store)[POS_KEY := Pos(latitude, longitude)]
      ensures req == Search(latitude, longitude, DEFAULT_RANGE)
      ensures View() == GeoSucceeded(old(View()))
    {
      store := store[POS_KEY := Pos(latitude, longitude)];
      isLoadingGeoLocation := false;
      var sent := LoadNearbyPosts(None, None);
      req := sent.value;
    }

    /** `onFailedLoadGeoLocation`. */
    method OnFailedLoadGeoLocation()
      modifies this
      ensures View() == GeoFailed(old(View())) && store == old(store)
    {
      isLoadingGeoLocation := false;
      error := GEO_FAILED_ERROR;
    }

    /** `loadNearbyPosts(center, radius)`: `None` when no position is known,
      in which case the call throws and nothing changes. */
    method LoadNearbyPosts(center: Option<Pos>, radius: Option<real>) returns (req: Option<Request>)
      modifies this
      ensures req == NearbyQuery(center, radius, store) && store == old(store)
      ensures View() == StartNearby(old(View()), center, radius, store)
    {
      var c: Option<Pos>;
      if center.Some? {
        c := center;
      } else if POS_KEY in store {
        c := Some(store[POS_KEY]);
      } else {
        return None;
      }
      isLoadingPosts := true;
      error := "";
      req := Some(Search(c.value.lat, c.value.lon, RangeFor(radius)));
    }

    /** The success handler of either search, with the parsed body (`None` when falsy). */
    method OnSearchSucceeded(data: Option<seq<Post>>)
      modifies this
      ensures View() == SearchSucceeded(old(View()), data) && store == old(store)
    {
      isLoadingPosts := false;
      posts := if data.Some? then data.value else [];
    }

    /** The failure handler of the nearby search. */
    method OnNearbySearchFailed(failure: FetchFailure)
      modifies this
      ensures View() == SearchFailed(old(View()), NearbyErrorMessage(failure)) && store == old(store)
    {
      isLoadingPosts := false;
      match failure {
        case NotOk(_) => error := POSTS_FAILED_ERROR;
        case Thrown(m) => error := m;
      }
    }

    /** `loadFacesAroundTheWorld`. */
    method LoadFacesAroundTheWorld() returns (req: Request)
      modifies this
      ensures req == Cluster(FACE_TERM)
      ensures View() == StartSearch(old(View())) && store == old(store)
    {
      isLoadingPosts := true;
      error := "";
      req := Cluster(FACE_TERM);
    }

    /** The failure handler of the face search: the cause is not shown. */
    method OnFaceSearchFailed()
      modifies this
      ensures View() == SearchFailed(old(View()), FACES_FAILED_ERROR) && store == old(store)
    {
      isLoadingPosts := false;
      error := FACES_FAILED_ERROR;
    }

    /** `onTopicChange`. */
    method OnTopicChange(value: string) returns (req: Option<Request>)
      modifies this
      ensures req == TopicRequest(value, store) && store == old(store)
      ensures View() == TopicChanged(old(View()), value, store)
    {
      topic := value;
      if value == AROUND {
        req := LoadNearbyPosts(None, None);
      } else {
        var faces := LoadFacesAroundTheWorld();
        req := Some(faces);
      }
    }
  }

  /** A first load from an empty store: mount with geolocation, receive the
      position (37, -122), and receive one image post from the search. The
      request uses that position and range 20, and the image tab shows one
      gallery entry made from the post. */
  method FirstLoadWithOneImage() returns (req: Request, panel: Panel)
    ensures req == Search(37.0, -122.0, 20.0)
    ensures panel == Gallery([ImageItem("bob", "u1", "u1", "hi", 400, 300)])
  {
    var home := new HomeComponent(map[]);
    var asked := home.ComponentDidMount(true);
    req := home.OnSuccessLoadGeoLocation(37.0, -122.0);
    var post := Post("image", "bob", "u1", "hi");
    home.OnSearchSucceeded(Some([post]));
    ImageItemsSingle(post);
    panel := PanelContent(home.View(), "image");
  }
}

/** The records of the feed view of the home screen (src/components/Home.js):
    posts as the backend returns them, gallery items, stored positions,
    the component state and the requests the view issues. */
module FeedModel {

  import opened Wrappers

  /** A latitude or longitude. The view never computes with coordinates: it
      stores them and copies them into a request. */
  type Coord = real

  /** A position as kept in durable storage: `{lat, lon}`. */
  datatype Pos = Pos(lat: Coord, lon: Coord)

  /** A post as the backend returns it. `kind` is the JSON field `type`
      ("image" or "video"); fields the view never reads are not modelled. */
  datatype Post = Post(kind: string, user: string, url: string, message: string)

  /** One entry handed to the gallery widget. */
  datatype ImageItem = ImageItem(
    user: string,
    src: string,
    thumbnail: string,
    caption: string,
    thumbnailWidth: int,
    thumbnailHeight: int)

  /** The component state: the five fields `Home` initialises. */
  datatype ViewState = ViewState(
    isLoadingGeoLocation: bool,
    error: string,
    isLoadingPosts: bool,
    posts: seq<Post>,
    topic: string)

  /** A request the view sends to the backend: the nearby search
      `/search?lat=..&lon=..&range=..` or the cluster search `/cluster?term=..`. */
  datatype Request = Search(lat: Coord, lon: Coord, range: real) | Cluster(term: string)

  /** How a nearby search can fail: the response was not ok, or something
      threw (the network call, or parsing the body) with a message. */
  datatype FetchFailure = NotOk(statusText: string) | Thrown(message: string)

  /** The storage key of the last known position. Its real value is defined
      in constant.js, which is not part of this model; any fixed key behaves
      the same here. */
  const POS_KEY: string := "POS_KEY"

  const IMAGE: string := "image"
  const VIDEO: string := "video"
  const AROUND: string := "around"
  const FACE_TERM: string := "face"

  /** The nearby-search range used when the caller gives a falsy radius. */
  const DEFAULT_RANGE: real := 20.0

  const THUMBNAIL_WIDTH: int := 400
  const THUMBNAIL_HEIGHT: int := 300

  const NO_GEO_ERROR: string := "No geo location available"
  const GEO_FAILED_ERROR: string := "Failed to load geolocation"
  const POSTS_FAILED_ERROR: string := "Failed to load posts"
  const FACES_FAILED_ERROR: string := "Loading face images failed."

  /** The state the component starts in. */
  const INITIAL: ViewState := ViewState(false, "", false, [], AROUND)
}

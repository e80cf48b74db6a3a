# Feed view of the home screen: state machine and render selection

This project models the feed view of the `Home` component (`src/components/Home.js`) of a
location-based photo and video sharing client, separated from React, `fetch` and the browser.

- **State.** The component state has five fields: `isLoadingGeoLocation`, `error`,
  `isLoadingPosts`, `posts` and `topic`. The durable key-value store is kept as a map from keys
  to position records.
- **Events.** Each event handler is a method of the class `Home.HomeComponent`, updating those
  fields in place:
  - mount;
  - geolocation success and failure;
  - start, success and failure of the nearby search;
  - start, success and failure of the face search;
  - topic change.
- **Outcomes as arguments.** The result of an asynchronous call is passed in as an argument of
  a separate method call: the reported coordinates, the parsed response body, or the failure.
  A method that would send a request returns that request (`Search(lat, lon, range)` or
  `Cluster("face")`).
- **Specification functions.** Each method is proved to produce the state that a pure function
  of module `FeedTransitions` computes from the old state.
- **Render selection.** `getPanelContent`, `getImagePosts` and `getVideoPosts` are the pure
  functions `PanelContent`, `ImageItems` and `VideoItems` of module `FeedPanel`.

Modules, one per file:

- `Wrappers` (`wrappers.dfy`): `Option`.
- `FeedModel` (`feed_model.dfy`): the records and constants.
- `FeedPanel` (`feed_panel.dfy`): the selectors and their lemmas.
- `FeedTransitions` (`feed_transitions.dfy`): the state after each event, and lemmas about
  single events and short event sequences.
- `Home` (`home.dfy`): the component class, and one verified first-load scenario.

Behaviour of the code that the model keeps as written:

- **Failed nearby search.** The code does not set a single generic message. It shows
  "Failed to load posts" for a non-ok response, and otherwise the message of whatever threw
  (the network call or parsing the body). So the error is non-empty only when that message is.
- **No stored position.** `loadNearbyPosts` called without a center before any position is
  stored parses a missing entry. It then throws before any `setState`, so the state does not
  change (`NearbyQuery` is `None`). A topic change to "around" in that situation still records
  the topic.
- **Falsy radius.** A radius of 0 is falsy, so it is replaced by the default range of 20, the
  same as a missing radius.
- **Stale geolocation error.** The view's display modes are not mutually exclusive. A
  geolocation failure that arrives while a face search is pending leaves an error that stays
  after the posts load, and the error keeps hiding them (`LateGeoFailureHidesLoadedPosts`).

## Model

| member | source | states |
|---|---|---|
| `FeedPanel.PanelContent` | src/components/Home.js:89-105 | `getPanelContent`: error, else geo spinner, else posts spinner, else the tab content when posts exist, else "No nearby posts"; its meaning is stated by `PanelIsHighestPriority` and `PanelContentCases` |
| `FeedPanel.TabContent` | src/components/Home.js:100-103 | the image tab gives the gallery of the posts, any other tab the video grid |
| `FeedPanel.ToImageItem` | src/components/Home.js:110-118 | the reshape of one post into a gallery entry; its fields are stated by `ImageItemsSingle` |
| `FeedPanel.VideoItems` | src/components/Home.js:124 | `getVideoPosts`' filter for type "video"; its contents and order are stated by `VideoItemsExactly` |
| `FeedTransitions.Mount` | src/components/Home.js:25-36 | the state after mount, with and without geolocation; stated by `MountWithGeolocationShowsSpinner` and `GeoErrorsShown` |
| `FeedTransitions.StartSearch` | src/components/Home.js:62 | the state at the start of either search; stated by `StartSearchEffect` and `StartSearchShowsSpinner` |
| `FeedTransitions.GeoSucceeded` | src/components/Home.js:45-46 | the state after a geolocation fix: geo loading ends and a nearby search starts; stated by `GeoSucceededEffect` |
| `FeedTransitions.GeoFailed` | src/components/Home.js:49-54 | the state after a geolocation failure; stated by `GeoErrorsShown` |
| `FeedTransitions.SearchSucceeded` | src/components/Home.js:76-82 | the state after either search succeeds; stated by `SearchSucceededEffect` |
| `FeedTransitions.SearchFailed` | src/components/Home.js:83-86 | the state after either search fails, with its message; stated by `SearchFailedKeepsPosts` |
| `FeedTransitions.NearbyErrorMessage` | src/components/Home.js:72-86 | the nearby search's error: "Failed to load posts" on a non-ok response, otherwise the thrown message; stated by `NearbyFailureShown` |
| `FeedTransitions.RangeFor` | src/components/Home.js:60 | `radius ? radius : 20`; stated by `FalsyRadiusDefaults` |
| `FeedTransitions.StartNearby` | src/components/Home.js:56-62 | the state after `loadNearbyPosts`: a search starts exactly when a request is sent; stated by `TopicChangeDispatch` and `TopicAroundWithoutPosition` |
| `FeedTransitions.TopicChanged` | src/components/Home.js:142-150 | the state after a topic change; stated by `TopicChangeDispatch` and `TopicAroundWithoutPosition` |
| `FeedTransitions.TopicRequest` | src/components/Home.js:145-149 | the request a topic change sends; stated by `TopicChangeDispatch` |
| `FeedTransitions.GeoSucceededEffect` | src/components/Home.js:45-46 | after a geolocation fix, geo loading is off, the posts spinner is on and the error is cleared; posts and topic are kept |
| `FeedPanel.OfType` | src/components/Home.js:124 | the filter keeps no more posts than it is given, and only posts of the requested kind taken from the input |
| `FeedPanel.ImageItems` | src/components/Home.js:107-119 | the gallery has no more entries than there are posts; every entry is 400 by 300 and uses the same URL for source and thumbnail |
| `FeedPanel.PanelIsHighestPriority` | src/components/Home.js:96-104 | the panel shown is an applicable display, and it ranks strictly before every other applicable display in the order error, geo spinner, posts spinner, tab content, "No nearby posts" |
| `FeedPanel.PanelContentCases` | src/components/Home.js:96-104 | for each of the six displays, both directions: it is shown exactly when the conditions of the precedence order select it (image tab gives the gallery, any other tab the video grid) |
| `FeedPanel.PanelIgnoresTabUnlessShowingPosts` | src/components/Home.js:96-104 | when an error, a spinner or the empty message is shown, both tabs show the same thing |
| `FeedPanel.OfTypeAppend` | src/components/Home.js:124 | filtering a concatenation gives the concatenation of the filtered parts |
| `FeedPanel.OfTypeMultiplicity` | src/components/Home.js:124 | a post occurs in the filtered list as often as in the input when it is of the kind, and never otherwise |
| `FeedPanel.OfTypeKeepsOrder` | src/components/Home.js:124 | the filtered list is a subsequence of the input, so the original order is kept |
| `FeedPanel.OfTypeDisjointBound` | src/components/Home.js:108-109 | the filters for two different kinds together keep at most as many posts as the input has |
| `FeedPanel.ImagesAndVideosBound` | src/components/Home.js:107-124 | the image tab and the video tab together hold at most as many items as there are posts |
| `FeedPanel.VideoItemsExactly` | src/components/Home.js:123-124 | the video tab holds exactly the posts of type "video", with their multiplicities, in their original order |
| `FeedPanel.ImageItemsSingle` | src/components/Home.js:108-119 | an image post becomes the single entry with user = post.user, src = thumbnail = post.url, caption = post.message, width 400 and height 300; any other post gives no entry |
| `FeedPanel.ImageItemsAppend` | src/components/Home.js:108-119 | the gallery of a concatenation is the concatenation of the galleries; together with the single-post case this determines the gallery and keeps post order |
| `FeedPanel.ImageItemsMembership` | src/components/Home.js:108-119 | an entry is in the gallery exactly when it is reshaped from some image post of the list |
| `FeedTransitions.PostsOrEmpty` | src/components/Home.js:80 | absent or falsy response data installs an empty post list; present data installs that data |
| `FeedTransitions.NearbyQuery` | src/components/Home.js:56-64 | a request is sent exactly when a center is given or a position is stored; it uses the given center, or otherwise the stored position, with the defaulted range |
| `FeedTransitions.FalsyRadiusDefaults` | src/components/Home.js:60 | a missing radius or radius 0 gives range 20; any other radius is used as given |
| `FeedTransitions.StartSearchEffect` | src/components/Home.js:62 | starting a search sets the posts spinner and clears the error; posts, topic and the geo flag are unchanged |
| `FeedTransitions.StartSearchShowsSpinner` | src/components/Home.js:154 | right after a search starts, the geo spinner or the posts spinner is shown, never an earlier error |
| `FeedTransitions.SearchSucceededEffect` | src/components/Home.js:76-82 | a successful search stops loading and installs the data, or [] when there is none; the error and topic are unchanged |
| `FeedTransitions.SearchFailedKeepsPosts` | src/components/Home.js:83-86 | a failed search stops loading, sets the error message and leaves the posts as they were |
| `FeedTransitions.NearbyFailureShown` | src/components/Home.js:72-86 | a non-ok response shows "Failed to load posts"; another failure with a non-empty message shows that message |
| `FeedTransitions.FaceFailureShown` | src/components/Home.js:174-179 | a failed face search always shows "Loading face images failed." |
| `FeedTransitions.GeoErrorsShown` | src/components/Home.js:33-54 | mounting without geolocation shows "No geo location available"; a geolocation failure stops geo loading and shows "Failed to load geolocation" |
| `FeedTransitions.MountWithGeolocationShowsSpinner` | src/components/Home.js:26-27 | mounting with geolocation sets geo loading, clears the error and shows the geo spinner |
| `FeedTransitions.TopicChangeDispatch` | src/components/Home.js:142-150 | a topic change records the topic; "around" sends a nearby search at the stored position with range 20, any other value sends the face-cluster search, and both start loading |
| `FeedTransitions.TopicAroundWithoutPosition` | src/components/Home.js:56-59 | choosing "around" with no stored position sends nothing and changes only the topic |
| `FeedTransitions.SettledSearchShowsData` | src/components/Home.js:76-104 | when geo loading is over, a search that starts and succeeds shows the tab content of the returned posts, or "No nearby posts" when there are none |
| `FeedTransitions.FirstLoadShowsServerPosts` | src/components/Home.js:25-82 | from the initial state, mount with geolocation, a position and a successful search show exactly the returned posts |
| `FeedTransitions.LateGeoFailureHidesLoadedPosts` | src/components/Home.js:49-54 | a geolocation failure that arrives during a face search leaves its error in place after the posts load, hiding them |
| `Home.HomeComponent.constructor` | src/components/Home.js:17-23 | the component starts with no loading, no error, no posts and topic "around" |
| `Home.HomeComponent.ComponentDidMount` | src/components/Home.js:25-36 | the position is requested exactly when geolocation exists; the new state is `Mount` of the old one; the store is untouched |
| `Home.HomeComponent.OnSuccessLoadGeoLocation` | src/components/Home.js:38-47 | stores `{lat: latitude, lon: longitude}` under the position key, stops geo loading, and sends a nearby search at that position with range 20 |
| `Home.HomeComponent.OnFailedLoadGeoLocation` | src/components/Home.js:49-54 | the new state is `GeoFailed` of the old one |
| `Home.HomeComponent.LoadNearbyPosts` | src/components/Home.js:56-71 | sends `NearbyQuery` of its arguments and the store; starts loading exactly when a request is sent; otherwise changes nothing |
| `Home.HomeComponent.OnSearchSucceeded` | src/components/Home.js:76-82 | the success handler shared by both searches (the face search's, lines 167-173, is identical); the new state is `SearchSucceeded` of the old one |
| `Home.HomeComponent.OnNearbySearchFailed` | src/components/Home.js:72-86 | the new state is `SearchFailed` with the nearby failure's message; the posts are kept |
| `Home.HomeComponent.LoadFacesAroundTheWorld` | src/components/Home.js:152-160 | sends the cluster search with term "face" and starts loading |
| `Home.HomeComponent.OnFaceSearchFailed` | src/components/Home.js:161-180 | the new state is `SearchFailed` with "Loading face images failed."; the posts are kept |
| `Home.HomeComponent.OnTopicChange` | src/components/Home.js:142-150 | records the topic, sends `TopicRequest` of it, and the new state is `TopicChanged` of the old one |
| `Home.FirstLoadWithOneImage` | src/components/Home.js:25-119 | mounting with geolocation at (37, -122) sends range 20; one returned image post ("u1", "bob", "hi") gives a single gallery entry with src "u1" and caption "hi" |

## Left out

- **Network I/O.** The model leaves out `fetch`, `response.json()`, URL and query-string
  construction, the token read and the Authorization header. Only the outcome is modelled: the
  request that is sent, and the success or failure that comes back.
- **Asynchrony and overlapping requests.** Each completion is one sequential method call. Which
  pending request a completion belongs to is not tracked, just as the source does not track it.
- **Face search failure cause.** The `statusText` thrown by the face search is not modelled. It
  is caught and replaced by a fixed message, so it cannot be observed.
- **Stored position encoding.** `JSON.stringify`/`JSON.parse` of the stored position are left
  out. The store holds position records directly.
- **Store key.** The value of `POS_KEY` is defined in constant.js, which is not part of this
  model. A fixed placeholder string is used instead.
- **Coordinates.** Coordinates are `real` values that are stored and copied but never computed
  with.
- **Radius values.** A `NaN` radius, which is also falsy, is not modelled. The radius is an
  optional real.
- **Post fields.** Post fields that the view never reads (id, location) are omitted. In the
  source they are carried through unchanged.
- **Presentation.** JSX, the tabs, radio group, spinners' markup, gallery, map and video
  widgets, `CreatePostButton`, `GEO_OPTIONS`, `console.log` and React's batching of `setState`
  are left out. Each handler's updates are applied in order, and the final state is the same
  either way.
- **Geolocation provider.** The geolocation provider is reduced to a flag (is it available?)
  and to which callback it calls.
- **Login screen.** `src/components/Login.js` is not part of this model. Its field validation
  lives in a form library that is not shown, and the rest is a network call and storage writes.

/** What a tab of the feed shows, as a function of the component state:
    `getPanelContent`, `getImagePosts` and `getVideoPosts` of
    src/components/Home.js. */
module FeedPanel {

  import opened FeedModel

  /** The content of one tab. `ErrorText` and `NoPosts` are the two plain
      strings the source returns; the spinners carry fixed tips. */
  datatype Panel =
    | ErrorText(msg: string)
    | GeoSpinner
    | PostsSpinner
    | Gallery(images: seq<ImageItem>)
    | VideoGrid(videos: seq<Post>)
    | NoPosts

  /** The posts of one kind, in their original order (`posts.filter(post => post.type === kind)`). */
  function OfType(posts: seq<Post>, kind: string): (r: seq<Post>)
    ensures |r| <= |posts|
    ensures forall i :: 0 <= i < |r| ==> r[i].kind == kind && r[i] in posts
  {
    if posts == [] then []
    else
      var rest := OfType(posts[1..], kind);
      if posts[0].kind == kind then [posts[0]] + rest else rest
  }

  /** The gallery entry for one image post. */
  function ToImageItem(post: Post): ImageItem
  {
    ImageItem(post.user, post.url, post.url, post.message, THUMBNAIL_WIDTH, THUMBNAIL_HEIGHT)
  }

  /** The gallery entries for the image posts (`getImagePosts`). */
  function ImageItems(posts: seq<Post>): (r: seq<ImageItem>)
    ensures |r| <= |posts|
    ensures forall k :: 0 <= k < |r| ==>
              r[k].thumbnailWidth == 400 && r[k].thumbnailHeight == 300 && r[k].src == r[k].thumbnail
  {
    var images := OfType(posts, IMAGE);
    seq(|images|, k requires 0 <= k < |images| => ToImageItem(images[k]))
  }

  /** The video posts (`getVideoPosts`). */
  function VideoItems(posts: seq<Post>): seq<Post>
  {
    OfType(posts, VIDEO)
  }

  /** The tab's content when posts exist and nothing else takes precedence. */
  function TabContent(posts: seq<Post>, tab: string): Panel
  {
    if tab == IMAGE then Gallery(ImageItems(posts)) else VideoGrid(VideoItems(posts))
  }

  /** `getPanelContent(tab)`: the first of error, geo spinner, posts spinner,
      tab content and the empty-state message that applies. */
  function PanelContent(v: ViewState, tab: string): Panel
  {
    if v.error != "" then ErrorText(v.error)
    else if v.isLoadingGeoLocation then GeoSpinner
    else if v.isLoadingPosts then PostsSpinner
    else if |v.posts| > 0 then TabContent(v.posts, tab)
    else NoPosts
  }

  /** No error and nothing loading: the posts decide what is shown. */
  predicate Settled(v: ViewState)
  {
    v.error == "" && !v.isLoadingGeoLocation && !v.isLoadingPosts
  }

  // ---------------------------------------------------------------------
  // Precedence, against an independent description: each display has a
  // rank and a condition under which it applies; the panel is the
  // applicable display of the least rank.

  function Rank(p: Panel): nat
  {
    match p
    case ErrorText(_) => 0
    case GeoSpinner => 1
    case PostsSpinner => 2
    case Gallery(_) => 3
    case VideoGrid(_) => 3
    case NoPosts => 4
  }

  predicate Applicable(v: ViewState, tab: string, p: Panel)
  {
    match p
    case ErrorText(m) => v.error != "" && m == v.error
    case GeoSpinner => v.isLoadingGeoLocation
    case PostsSpinner => v.isLoadingPosts
    case Gallery(items) => v.posts != [] && tab == IMAGE && items == ImageItems(v.posts)
    case VideoGrid(vs) => v.posts != [] && tab != IMAGE && vs == VideoItems(v.posts)
    case NoPosts => true
  }

  /** The panel applies, and every other applicable display ranks strictly lower. */
  lemma PanelIsHighestPriority(v: ViewState, tab: string, p: Panel)
    requires Applicable(v, tab, p)
    ensures Applicable(v, tab, PanelContent(v, tab))
    ensures p != PanelContent(v, tab) ==> Rank(PanelContent(v, tab)) < Rank(p)
  {
  }

  /** Each display, both directions: exactly when the precedence order selects it. */
  lemma PanelContentCases(v: ViewState, tab: string)
    ensures PanelContent(v, tab) == ErrorText(v.error) <==> v.error != ""
    ensures PanelContent(v, tab) == GeoSpinner <==> v.error == "" && v.isLoadingGeoLocation
    ensures PanelContent(v, tab) == PostsSpinner <==>
              v.error == "" && !v.isLoadingGeoLocation && v.isLoadingPosts
    ensures PanelContent(v, tab) == Gallery(ImageItems(v.posts)) <==>
              Settled(v) && v.posts != [] && tab == IMAGE
    ensures PanelContent(v, tab) == VideoGrid(VideoItems(v.posts)) <==>
              Settled(v) && v.posts != [] && tab != IMAGE
    ensures PanelContent(v, tab) == NoPosts <==> Settled(v) && v.posts == []
  {
  }

  /** Only the tab content depends on the tab. */
  lemma PanelIgnoresTabUnlessShowingPosts(v: ViewState, tab1: string, tab2: string)
    requires v.error != "" || v.isLoadingGeoLocation || v.isLoadingPosts || v.posts == []
    ensures PanelContent(v, tab1) == PanelContent(v, tab2)
  {
  }

  // ---------------------------------------------------------------------
  // The filters.

  /** Filtering distributes over concatenation. */
  lemma {:induction false} OfTypeAppend(a: seq<Post>, b: seq<Post>, kind: string)
    ensures OfType(a + b, kind) == OfType(a, kind) + OfType(b, kind)
  {
    if a == [] {
      assert a + b == b;
    } else {
      assert (a + b)[1..] == a[1..] + b;
      OfTypeAppend(a[1..], b, kind);
    }
  }

  /** A post occurs in the result exactly as often as in the input when it
      has the kind, and not at all otherwise. */
  lemma {:induction false} OfTypeMultiplicity(posts: seq<Post>, kind: string, p: Post)
    ensures multiset(OfType(posts, kind))[p] == if p.kind == kind then multiset(posts)[p] else 0
  {
    if posts != [] {
      assert posts == [posts[0]] + posts[1..];
      OfTypeMultiplicity(posts[1..], kind, p);
    }
  }

  /** `s` can be obtained from `t` by deleting elements: its order is `t`'s. */
  ghost predicate IsSubsequence(s: seq<Post>, t: seq<Post>)
    decreases |t|
  {
    if s == [] then true
    else if t == [] then false
    else if s[0] == t[0] then IsSubsequence(s[1..], t[1..])
    else IsSubsequence(s, t[1..])
  }

  /** Filtering keeps the original order. */
  lemma {:induction false} OfTypeKeepsOrder(posts: seq<Post>, kind: string)
    ensures IsSubsequence(OfType(posts, kind), posts)
  {
    if posts != [] {
      var rest := OfType(posts[1..], kind);
      OfTypeKeepsOrder(posts[1..], kind);
      if posts[0].kind == kind {
        assert ([posts[0]] + rest)[1..] == rest;
      } else if rest != [] {
        assert rest[0].kind == kind;
      }
    }
  }

  /** Posts of two different kinds are counted at most once between them. */
  lemma {:induction false} OfTypeDisjointBound(posts: seq<Post>, k1: string, k2: string)
    requires k1 != k2
    ensures |OfType(posts, k1)| + |OfType(posts, k2)| <= |posts|
  {
    if posts != [] {
      OfTypeDisjointBound(posts[1..], k1, k2);
    }
  }

  /** Together, the image tab and the video tab never hold more items than there are posts. */
  lemma ImagesAndVideosBound(posts: seq<Post>)
    ensures |ImageItems(posts)| + |VideoItems(posts)| <= |posts|
  {
    OfTypeDisjointBound(posts, IMAGE, VIDEO);
  }

  /** The video tab holds exactly the video posts, with their multiplicities, in order. */
  lemma VideoItemsExactly(posts: seq<Post>, p: Post)
    ensures multiset(VideoItems(posts))[p] == if p.kind == VIDEO then multiset(posts)[p] else 0
    ensures IsSubsequence(VideoItems(posts), posts)
  {
    OfTypeMultiplicity(posts, VIDEO, p);
    OfTypeKeepsOrder(posts, VIDEO);
  }

  /** The gallery of one post: one entry reshaped from an image post, none otherwise. */
  lemma ImageItemsSingle(p: Post)
    ensures p.kind == IMAGE ==>
              ImageItems([p]) == [ImageItem(p.user, p.url, p.url, p.message, 400, 300)]
    ensures p.kind != IMAGE ==> ImageItems([p]) == []
  {
    assert [p][1..] == [];
  }

  /** The gallery of a concatenation is the concatenation of the galleries:
      with `ImageItemsSingle` this fixes the gallery of every post list and
      shows that it follows the order of the posts. */
  lemma ImageItemsAppend(a: seq<Post>, b: seq<Post>)
    ensures ImageItems(a + b) == ImageItems(a) + ImageItems(b)
  {
    OfTypeAppend(a, b, IMAGE);
  }

  /** An entry is in the gallery exactly when it is reshaped from an image post. */
  lemma ImageItemsMembership(posts: seq<Post>, item: ImageItem)
    ensures item in ImageItems(posts) <==> exists p :: p in posts && p.kind == IMAGE && item == ToImageItem(p)
  {
    var images := OfType(posts, IMAGE);
    if item in ImageItems(posts) {
      var k :| 0 <= k < |images| && ImageItems(posts)[k] == item;
      assert images[k] in posts;
    }
    if exists p :: p in posts && p.kind == IMAGE && item == ToImageItem(p) {
      var p :| p in posts && p.kind == IMAGE && item == ToImageItem(p);
      OfTypeMultiplicity(posts, IMAGE, p);
      assert p in multiset(images);
      var k :| 0 <= k < |images| && images[k] == p;
      assert ImageItems(posts)[k] == item;
    }
  }
}

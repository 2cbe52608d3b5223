/**
 * The web social-feed page: the post list with its like and save toggles,
 * the connected accounts with their disconnect button and platform tabs,
 * and the filter panel that decides which posts are shown. The canned
 * posts and accounts are given to the constructor.
 */
module SocialFeedPage {
  import opened Shared
  import Lists

  /**
   * One post. `image` is the image URL, '' for a post without one; `video`
   * is the post's video flag.
   */
  datatype Post = Post(id: int, platform: string, author: string, content: string, image: string, video: bool,
                       likes: int, comments: int, saved: bool, liked: bool)

  datatype Account = Account(platform: string, connected: bool, username: Option<string>)

  /** The filter panel: one flag per platform and per content type, and the time range. */
  datatype Filters = Filters(platforms: map<string, bool>, contentType: map<string, bool>, timeRange: string)

  const InitialFilters := Filters(
    map["instagram" := true, "tiktok" := true, "pinterest" := true, "reddit" := true, "quora" := false],
    map["images" := true, "videos" := true, "text" := true, "links" := true],
    "all")

  /** `flags[key]`, where a missing key reads as `undefined`, which is falsy. */
  predicate On(flags: map<string, bool>, key: string) {
    key in flags && flags[key]
  }

  function HasId(id: int): Post -> bool {
    (p: Post) => p.id == id
  }

  /** `{ ...post, liked: !post.liked, likes: post.liked ? post.likes - 1 : post.likes + 1 }`. */
  function FlipLike(p: Post): (q: Post)
    ensures q.liked == !p.liked && q.likes == if p.liked then p.likes - 1 else p.likes + 1
    ensures q.(liked := p.liked, likes := p.likes) == p
  {
    p.(liked := !p.liked, likes := if p.liked then p.likes - 1 else p.likes + 1)
  }

  /** `{ ...post, saved: !post.saved }`. */
  function FlipSave(p: Post): Post {
    p.(saved := !p.saved)
  }

  /** Liking and unliking the same post restores the list: the count moves up and back down by one. */
  lemma LikeTwice(posts: seq<Post>, id: int)
    ensures Lists.MapWhere(Lists.MapWhere(posts, HasId(id), FlipLike), HasId(id), FlipLike) == posts
  {
    Lists.MapWhereTwice(posts, HasId(id), FlipLike);
  }

  /** Unlike the server, the page has no floor: unliking a liked post with no likes shows -1. */
  lemma UnlikeHasNoFloor(p: Post)
    requires p.liked && p.likes == 0
    ensures FlipLike(p).likes == -1
  {
  }

  lemma SaveTwice(posts: seq<Post>, id: int)
    ensures Lists.MapWhere(Lists.MapWhere(posts, HasId(id), FlipSave), HasId(id), FlipSave) == posts
  {
    Lists.MapWhereTwice(posts, HasId(id), FlipSave);
  }

  function OnPlatform(platform: string): Account -> bool {
    (a: Account) => a.platform == platform
  }

  /** `{ ...account, connected: false, username: null }`. */
  function Disconnected(a: Account): Account {
    a.(connected := false, username := None)
  }

  /**
   * `filteredPosts`' test: the tab is 'all' or the post's platform, the
   * post's platform is switched on, and every kind of content the post has
   * (video, image, or neither, which is text) is switched on.
   */
  predicate Shown(p: Post, activeTab: string, f: Filters) {
    (activeTab == "all" || p.platform == activeTab)
    && On(f.platforms, p.platform)
    && (p.video ==> On(f.contentType, "videos"))
    && (p.image != "" ==> On(f.contentType, "images"))
    && (p.image == "" && !p.video ==> On(f.contentType, "text"))
  }

  function ShownIn(activeTab: string, f: Filters): Post -> bool {
    (p: Post) => Shown(p, activeTab, f)
  }

  /** `filteredPosts`: the posts that pass, in list order. */
  function FilteredPosts(posts: seq<Post>, activeTab: string, f: Filters): (r: seq<Post>)
    ensures forall i :: 0 <= i < |r| ==> r[i] in posts && Shown(r[i], activeTab, f)
    ensures forall i :: 0 <= i < |posts| && Shown(posts[i], activeTab, f) ==> posts[i] in r
  {
    Lists.FilterMultiset(posts, ShownIn(activeTab, f));
    var r := Lists.Filter(posts, ShownIn(activeTab, f));
    assert forall i :: 0 <= i < |r| ==> r[i] in multiset(posts);
    r
  }

  /** The 'links' flag and the time range are never consulted: changing them shows exactly the same posts. */
  lemma LinksAndTimeIgnored(posts: seq<Post>, activeTab: string, f: Filters, links: bool, timeRange: string)
    ensures FilteredPosts(posts, activeTab, f.(contentType := f.contentType["links" := links], timeRange := timeRange))
         == FilteredPosts(posts, activeTab, f)
  {
    var g := f.(contentType := f.contentType["links" := links], timeRange := timeRange);
    assert forall p :: ShownIn(activeTab, g)(p) == ShownIn(activeTab, f)(p);
    SameFilter(posts, ShownIn(activeTab, g), ShownIn(activeTab, f));
  }

  /** Two tests that agree on every post keep the same posts. */
  lemma {:induction false} SameFilter(posts: seq<Post>, p: Post -> bool, q: Post -> bool)
    requires forall x :: p(x) == q(x)
    ensures Lists.Filter(posts, p) == Lists.Filter(posts, q)
  {
    if posts != [] {
      SameFilter(posts[1..], p, q);
    }
  }

  /** A platform switched off in the filter panel shows none of its posts, on any tab. */
  lemma PlatformOffHidesPosts(posts: seq<Post>, activeTab: string, f: Filters, platform: string)
    requires platform in f.platforms && !f.platforms[platform]
    ensures forall i :: 0 <= i < |FilteredPosts(posts, activeTab, f)| ==> FilteredPosts(posts, activeTab, f)[i].platform != platform
  {
  }

  /** The platform tabs after 'All': one per connected account, in account order. */
  function Tabs(accounts: seq<Account>): (r: seq<string>)
    ensures |r| <= |accounts|
    ensures forall t :: t in r <==> exists a :: a in accounts && a.connected && a.platform == t
  {
    if accounts == [] then []
    else
      var rest := Tabs(accounts[1..]);
      assert forall a :: a in accounts <==> a == accounts[0] || a in accounts[1..];
      if accounts[0].connected then [accounts[0].platform] + rest else rest
  }

  class SocialFeedView {
    var activeTab: string
    var filters: Filters
    var posts: seq<Post>
    var connectedAccounts: seq<Account>
    var showConnectModal: bool
    var selectedPlatform: Option<string>
    var showFilters: bool

    /** The 'all' tab, every filter but Quora on, the given posts and accounts, no modal and the filter panel hidden. */
    constructor (initialPosts: seq<Post>, accounts: seq<Account>)
      ensures activeTab == "all" && filters == InitialFilters && posts == initialPosts
      ensures connectedAccounts == accounts && !showConnectModal && selectedPlatform.None? && !showFilters
    {
      activeTab := "all";
      filters := InitialFilters;
      posts := initialPosts;
      connectedAccounts := accounts;
      showConnectModal := false;
      selectedPlatform := None;
      showFilters := false;
    }

    /** The filter button shows or hides the filter panel; nothing the feed shows changes. */
    method ToggleFilters()
      modifies this
      ensures showFilters == !old(showFilters)
      ensures activeTab == old(activeTab) && filters == old(filters) && posts == old(posts)
      ensures connectedAccounts == old(connectedAccounts)
      ensures showConnectModal == old(showConnectModal) && selectedPlatform == old(selectedPlatform)
    {
      showFilters := !showFilters;
    }

    /** `handleToggleLike`: the posts with the id flip `liked` and move `likes` by one; every other post is kept. */
    method ToggleLike(id: int)
      modifies this
      ensures showFilters == old(showFilters)
      ensures posts == Lists.MapWhere(old(posts), HasId(id), FlipLike)
      ensures forall i :: 0 <= i < |posts| ==>
        posts[i] == if old(posts)[i].id == id then FlipLike(old(posts)[i]) else old(posts)[i]
      ensures activeTab == old(activeTab) && filters == old(filters) && connectedAccounts == old(connectedAccounts)
      ensures showConnectModal == old(showConnectModal) && selectedPlatform == old(selectedPlatform)
    {
      posts := Lists.MapWhere(posts, HasId(id), FlipLike);
    }

    /** `handleToggleSave`: the posts with the id flip `saved`; nothing else changes. */
    method ToggleSave(id: int)
      modifies this
      ensures showFilters == old(showFilters)
      ensures posts == Lists.MapWhere(old(posts), HasId(id), FlipSave)
      ensures forall i :: 0 <= i < |posts| ==>
        posts[i] == if old(posts)[i].id == id then old(posts)[i].(saved := !old(posts)[i].saved) else old(posts)[i]
      ensures activeTab == old(activeTab) && filters == old(filters) && connectedAccounts == old(connectedAccounts)
      ensures showConnectModal == old(showConnectModal) && selectedPlatform == old(selectedPlatform)
    {
      posts := Lists.MapWhere(posts, HasId(id), FlipSave);
    }

    /** `handleConnect`: only opens the modal for the platform; no account changes. */
    method Connect(platform: string)
      modifies this
      ensures showFilters == old(showFilters)
      ensures selectedPlatform == Some(platform) && showConnectModal
      ensures activeTab == old(activeTab) && filters == old(filters) && posts == old(posts)
      ensures connectedAccounts == old(connectedAccounts)
    {
      selectedPlatform := Some(platform);
      showConnectModal := true;
    }

    /** The modal's Cancel and Continue buttons both only close it. */
    method CloseConnectModal()
      modifies this
      ensures showFilters == old(showFilters)
      ensures !showConnectModal
      ensures activeTab == old(activeTab) && filters == old(filters) && posts == old(posts)
      ensures connectedAccounts == old(connectedAccounts) && selectedPlatform == old(selectedPlatform)
    {
      showConnectModal := false;
    }

    /**
     * `handleDisconnect`: the platform's accounts become disconnected with
     * no username, every other account is kept, and the platform loses its
     * tab.
     */
    method Disconnect(platform: string)
      modifies this
      ensures showFilters == old(showFilters)
      ensures |connectedAccounts| == |old(connectedAccounts)|
      ensures forall i :: 0 <= i < |connectedAccounts| ==>
        connectedAccounts[i] == if old(connectedAccounts)[i].platform == platform
          then old(connectedAccounts)[i].(connected := false, username := None) else old(connectedAccounts)[i]
      ensures connectedAccounts == Lists.MapWhere(old(connectedAccounts), OnPlatform(platform), Disconnected)
      ensures platform !in Tabs(connectedAccounts)
      ensures forall t :: t != platform ==> (t in Tabs(connectedAccounts) <==> t in Tabs(old(connectedAccounts)))
      ensures activeTab == old(activeTab) && filters == old(filters) && posts == old(posts)
      ensures showConnectModal == old(showConnectModal) && selectedPlatform == old(selectedPlatform)
    {
      var before := connectedAccounts;
      connectedAccounts := Lists.MapWhere(before, OnPlatform(platform), Disconnected);
      forall t | t != platform
        ensures t in Tabs(connectedAccounts) <==> t in Tabs(before)
      {
        forall a | a in connectedAccounts && a.connected && a.platform == t
          ensures a in before
        {
          var i :| 0 <= i < |connectedAccounts| && connectedAccounts[i] == a;
        }
        forall a | a in before && a.connected && a.platform == t
          ensures a in connectedAccounts
        {
          var i :| 0 <= i < |before| && before[i] == a;
          assert connectedAccounts[i] == a;
        }
      }
    }

    /** A tab button: 'All' or a platform. */
    method SetActiveTab(tab: string)
      modifies this
      ensures showFilters == old(showFilters)
      ensures activeTab == tab
      ensures filters == old(filters) && posts == old(posts) && connectedAccounts == old(connectedAccounts)
      ensures showConnectModal == old(showConnectModal) && selectedPlatform == old(selectedPlatform)
    {
      activeTab := tab;
    }

    /** A platform checkbox, one per key of the platform flags: that flag flips, the others stay. */
    method TogglePlatform(platform: string)
      requires platform in filters.platforms
      modifies this
      ensures showFilters == old(showFilters)
      ensures filters == old(filters).(platforms := old(filters).platforms[platform := !old(filters).platforms[platform]])
      ensures activeTab == old(activeTab) && posts == old(posts) && connectedAccounts == old(connectedAccounts)
      ensures showConnectModal == old(showConnectModal) && selectedPlatform == old(selectedPlatform)
    {
      filters := filters.(platforms := filters.platforms[platform := !filters.platforms[platform]]);
    }

    /** A content-type checkbox, one per key of the content-type flags. */
    method ToggleContentType(kind: string)
      requires kind in filters.contentType
      modifies this
      ensures showFilters == old(showFilters)
      ensures filters == old(filters).(contentType := old(filters).contentType[kind := !old(filters).contentType[kind]])
      ensures activeTab == old(activeTab) && posts == old(posts) && connectedAccounts == old(connectedAccounts)
      ensures showConnectModal == old(showConnectModal) && selectedPlatform == old(selectedPlatform)
    {
      filters := filters.(contentType := filters.contentType[kind := !filters.contentType[kind]]);
    }

    method SetTimeRange(range: string)
      modifies this
      ensures showFilters == old(showFilters)
      ensures filters == old(filters).(timeRange := range)
      ensures activeTab == old(activeTab) && posts == old(posts) && connectedAccounts == old(connectedAccounts)
      ensures showConnectModal == old(showConnectModal) && selectedPlatform == old(selectedPlatform)
    {
      filters := filters.(timeRange := range);
    }
  }
}

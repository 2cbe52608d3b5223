/**
 * The social-media slice of the client store: three content lists (posts,
 * reels, threads), the current tab and the feed filters. Likes and comments
 * are applied to posts only; the reducers leave reels and threads alone.
 */
module SocialMediaSlice {
  import opened JsObject
  import Lists

  /** A feed item as the slice keeps it: the fields the reducers touch, and the rest of the object. */
  datatype Item = Item(id: Value, liked: Value, likeCount: int, comments: seq<Value>, commentCount: int, rest: Object)

  function ItemIs(id: Value): Item -> bool {
    (x: Item) => x.id == id
  }

  /** `likeContent` on one post: `liked` takes the payload's value and the count moves by one in its direction. */
  function SetLiked(liked: Value): Item -> Item {
    (x: Item) => x.(liked := liked, likeCount := if Truthy(liked) then x.likeCount + 1 else x.likeCount - 1)
  }

  /** `addComment` on one post: the comment is appended and the count grows by one. */
  function AppendComment(comment: Value): Item -> Item {
    (x: Item) => x.(comments := x.comments + [comment], commentCount := x.commentCount + 1)
  }

  /** Liking the same post `n` times in a row with `liked` true adds `n` likes: nothing stops a double like. */
  lemma RepeatedLikeCounts(posts: seq<Item>, id: Value, n: nat)
    requires Lists.FirstIndex(posts, ItemIs(id)) >= 0
    ensures var k := Lists.FirstIndex(posts, ItemIs(id));
      var r := LikeRepeatedly(posts, id, n);
      |r| == |posts| && r[k].likeCount == posts[k].likeCount + n && Lists.FirstIndex(r, ItemIs(id)) == k
  {
    var k := Lists.FirstIndex(posts, ItemIs(id));
    Lists.UpdateFirstTimesAt(posts, ItemIs(id), SetLiked(Bool(true)), n);
    LikesAdd(posts[k], n);
  }

  /** `n` likes of one post add `n` to its count. */
  lemma {:induction false} LikesAdd(x: Item, n: nat)
    ensures Lists.Iterate(SetLiked(Bool(true)), x, n).likeCount == x.likeCount + n
    decreases n
  {
    if n > 0 {
      LikesAdd(x, n - 1);
    }
  }

  /** `n` dispatches of `likeContent({contentType: 'posts', contentId: id, liked: true})`. */
  function LikeRepeatedly(posts: seq<Item>, id: Value, n: nat): (r: seq<Item>)
    ensures |r| == |posts|
  {
    Lists.UpdateFirstTimes(posts, ItemIs(id), SetLiked(Bool(true)), n)
  }

  /** A like followed by an unlike of the same post restores its count. */
  lemma LikeThenUnlike(posts: seq<Item>, id: Value)
    ensures var once := Lists.UpdateFirst(posts, ItemIs(id), SetLiked(Bool(true)));
      var k := Lists.FirstIndex(posts, ItemIs(id));
      k >= 0 ==> Lists.UpdateFirst(once, ItemIs(id), SetLiked(Bool(false)))[k].likeCount == posts[k].likeCount
  {
    var k := Lists.FirstIndex(posts, ItemIs(id));
    if k >= 0 {
      var once := Lists.UpdateFirst(posts, ItemIs(id), SetLiked(Bool(true)));
      Lists.FirstIndexAt(once, ItemIs(id), k);
    }
  }

  class SocialMediaState {
    var posts: seq<Item>
    var reels: seq<Item>
    var threads: seq<Item>
    var loading: bool
    var error: Value
    var currentTab: Value
    var filters: Object

    /** Empty lists, tab 'posts', all platforms, sorted by 'recent'. */
    constructor ()
      ensures posts == [] && reels == [] && threads == [] && !loading && error == Null
      ensures currentTab == Str("posts") && filters == map["platform" := Str("all"), "sortBy" := Str("recent")]
    {
      posts := [];
      reels := [];
      threads := [];
      loading := false;
      error := Null;
      currentTab := Str("posts");
      filters := map["platform" := Str("all"), "sortBy" := Str("recent")];
    }

    method FetchContentStart()
      modifies this
      ensures loading && error == Null
      ensures posts == old(posts) && reels == old(reels) && threads == old(threads)
      ensures currentTab == old(currentTab) && filters == old(filters)
    {
      loading := true;
      error := Null;
    }

    /** `fetchContentSuccess`: only the list the content type names is replaced; any other type replaces none. */
    method FetchContentSuccess(contentType: Value, data: seq<Item>)
      modifies this
      ensures !loading && error == old(error)
      ensures posts == (if contentType == Str("posts") then data else old(posts))
      ensures reels == (if contentType == Str("reels") then data else old(reels))
      ensures threads == (if contentType == Str("threads") then data else old(threads))
      ensures currentTab == old(currentTab) && filters == old(filters)
    {
      loading := false;
      if contentType == Str("posts") {
        posts := data;
      } else if contentType == Str("reels") {
        reels := data;
      } else if contentType == Str("threads") {
        threads := data;
      }
    }

    method FetchContentFailure(payload: Value)
      modifies this
      ensures !loading && error == payload
      ensures posts == old(posts) && reels == old(reels) && threads == old(threads)
      ensures currentTab == old(currentTab) && filters == old(filters)
    {
      loading := false;
      error := payload;
    }

    method ChangeTab(tab: Value)
      modifies this
      ensures currentTab == tab
      ensures posts == old(posts) && reels == old(reels) && threads == old(threads)
      ensures loading == old(loading) && error == old(error) && filters == old(filters)
    {
      currentTab := tab;
    }

    /** `updateFilters`: the keys given overwrite, the others stay. */
    method UpdateFilters(payload: Object)
      modifies this
      ensures filters == Spread(old(filters), payload)
      ensures posts == old(posts) && reels == old(reels) && threads == old(threads)
      ensures loading == old(loading) && error == old(error) && currentTab == old(currentTab)
    {
      filters := Spread(filters, payload);
    }

    /** `likeContent`: acts on the first post with the id; reels and threads are left as they are. */
    method LikeContent(contentType: Value, contentId: Value, liked: Value)
      modifies this
      ensures posts == (if contentType == Str("posts") then Lists.UpdateFirst(old(posts), ItemIs(contentId), SetLiked(liked))
                        else old(posts))
      ensures reels == old(reels) && threads == old(threads)
      ensures loading == old(loading) && error == old(error) && currentTab == old(currentTab) && filters == old(filters)
    {
      if contentType == Str("posts") {
        var i := Lists.FirstIndex(posts, ItemIs(contentId));
        if i != -1 {
          var likeCount := if Truthy(liked) then posts[i].likeCount + 1 else posts[i].likeCount - 1;
          posts := posts[i := posts[i].(liked := liked, likeCount := likeCount)];
        }
      }
    }

    /** `addComment`: acts on the first post with the id; reels and threads are left as they are. */
    method AddComment(contentType: Value, contentId: Value, comment: Value)
      modifies this
      ensures posts == (if contentType == Str("posts") then Lists.UpdateFirst(old(posts), ItemIs(contentId), AppendComment(comment))
                        else old(posts))
      ensures reels == old(reels) && threads == old(threads)
      ensures loading == old(loading) && error == old(error) && currentTab == old(currentTab) && filters == old(filters)
    {
      if contentType == Str("posts") {
        var i := Lists.FirstIndex(posts, ItemIs(contentId));
        if i != -1 {
          posts := posts[i := posts[i].(comments := posts[i].comments + [comment], commentCount := posts[i].commentCount + 1)];
        }
      }
    }
  }

  /** A comment keeps the gap between the stated count and the stored comments of every post. */
  lemma CommentKeepsCountsInStep(posts: seq<Item>, id: Value, comment: Value)
    requires forall i :: 0 <= i < |posts| ==> posts[i].commentCount == |posts[i].comments|
    ensures var r := Lists.UpdateFirst(posts, ItemIs(id), AppendComment(comment));
      forall i :: 0 <= i < |r| ==> r[i].commentCount == |r[i].comments|
  {
  }
}

/**
 * The social-feed controller: a user's imported posts from five platforms,
 * listed newest first a page at a time, with like, save and comment
 * interactions on the caller's own posts, and the per-user flags recording
 * which platform accounts are linked.
 */
module Social {
  import opened Shared
  import JsText
  import Lists
  import Paging

  // The error messages the handlers reply with.
  const CommentTextRequired := "Please provide comment text"
  const AccessTokenRequired := "Please provide an access token"

  type Id = string

  datatype Platform = Instagram | TikTok | Pinterest | Reddit | Quora

  datatype PostType = Post | Reel | Thread

  function PlatformName(p: Platform): string {
    match p
    case Instagram => "instagram"
    case TikTok => "tiktok"
    case Pinterest => "pinterest"
    case Reddit => "reddit"
    case Quora => "quora"
  }

  function ParsePlatform(s: string): Option<Platform> {
    match s
    case "instagram" => Some(Instagram)
    case "tiktok" => Some(TikTok)
    case "pinterest" => Some(Pinterest)
    case "reddit" => Some(Reddit)
    case "quora" => Some(Quora)
    case _ => None
  }

  function PostTypeName(t: PostType): string {
    match t
    case Post => "post"
    case Reel => "reel"
    case Thread => "thread"
  }

  function ParsePostType(s: string): Option<PostType> {
    match s
    case "post" => Some(Post)
    case "reel" => Some(Reel)
    case "thread" => Some(Thread)
    case _ => None
  }

  /** The whitelists accept exactly the five platform names and the three type names. */
  lemma WhitelistsAreTheNames(p: Platform, t: PostType, s: string)
    ensures ParsePlatform(PlatformName(p)) == Some(p) && ParsePostType(PostTypeName(t)) == Some(t)
    ensures ParsePlatform(s).Some? ==> PlatformName(ParsePlatform(s).value) == s
    ensures ParsePostType(s).Some? ==> PostTypeName(ParsePostType(s).value) == s
  {
  }

  function InvalidPlatform(s: string): string {
    "Invalid platform: " + s + ". Valid platforms are: instagram, tiktok, pinterest, reddit, quora"
  }

  function InvalidType(s: string): string {
    "Invalid type: " + s + ". Valid types are: post, reel, thread"
  }

  datatype Stats = Stats(likes: int, comments: int, shares: int)

  /** What the owner did with the post: one-way for `commented`, toggles for the other two. */
  datatype Interaction = Interaction(liked: bool, saved: bool, commented: bool)

  datatype Author = Author(originalId: string, username: string, profilePicture: string)

  datatype Comment = Comment(originalId: string, author: Author, text: string, createdAt: int)

  datatype SocialPost = SocialPost(
    id: Id, user: Id, platform: Platform, postType: PostType, stats: Stats,
    interaction: Interaction, comments: seq<Comment>, originalCreatedAt: int)

  /** The authenticated user as the request carries it. */
  datatype Caller = Caller(id: Id, username: string, profilePicture: string)

  /** Flipping `liked`: a like adds one, an unlike takes one away but never below zero. */
  function Like(p: SocialPost): (q: SocialPost)
    ensures q.interaction.liked == !p.interaction.liked
    ensures q.stats.likes >= 0 <== p.stats.likes >= 0
    ensures q.interaction.liked ==> q.stats.likes == p.stats.likes + 1
    ensures !q.interaction.liked ==> q.stats.likes == Max0(p.stats.likes - 1)
    ensures q == p.(stats := q.stats, interaction := q.interaction)
    ensures q.stats.comments == p.stats.comments && q.stats.shares == p.stats.shares
    ensures q.interaction.saved == p.interaction.saved && q.interaction.commented == p.interaction.commented
  {
    var liked := !p.interaction.liked;
    var likes := if liked then p.stats.likes + 1 else Max0(p.stats.likes - 1);
    p.(interaction := p.interaction.(liked := liked), stats := p.stats.(likes := likes))
  }

  /** `Math.max(0, n)`. */
  function Max0(n: int): (r: nat)
    ensures r >= n && (r == 0 || r == n)
  {
    if n < 0 then 0 else n
  }

  /** Liking and then unliking a post that was not liked restores it. */
  lemma LikeThenUnlike(p: SocialPost)
    requires !p.interaction.liked && p.stats.likes >= 0
    ensures Like(Like(p)) == p
  {
  }

  /** The floor at zero: unliking a liked post whose count is 0 leaves 0, and liking again gives 1. */
  lemma UnlikeAtZero(p: SocialPost)
    requires p.interaction.liked && p.stats.likes == 0
    ensures Like(p).stats.likes == 0 && Like(Like(p)).stats.likes == 1 && Like(Like(p)).interaction.liked
  {
  }

  /** Flipping `saved`, nothing else. */
  function Save(p: SocialPost): (q: SocialPost)
    ensures q.interaction.saved == !p.interaction.saved
    ensures q == p.(interaction := q.interaction)
    ensures q.interaction.liked == p.interaction.liked && q.interaction.commented == p.interaction.commented
  {
    p.(interaction := p.interaction.(saved := !p.interaction.saved))
  }

  lemma SaveTwice(p: SocialPost)
    ensures Save(Save(p)) == p
  {
  }

  /** The local comment the handler builds: id `local_<now>`, the caller as author. */
  function NewComment(caller: Caller, text: string, now: int): (c: Comment)
    ensures c.author.originalId == caller.id && c.text == text && c.createdAt == now
    ensures c.originalId == "local_" + JsText.IntToString(now)
  {
    Comment("local_" + JsText.IntToString(now), Author(caller.id, caller.username, caller.profilePicture), text, now)
  }

  /** Appending a comment: the count grows by one and `commented` becomes (and stays) true. */
  function AddComment(p: SocialPost, c: Comment): (q: SocialPost)
    ensures q.comments == p.comments + [c] && q.interaction.commented
    ensures q.stats.comments == p.stats.comments + 1
    ensures q.stats.comments - |q.comments| == p.stats.comments - |p.comments|
    ensures q == p.(comments := q.comments, stats := q.stats, interaction := q.interaction)
    ensures q.stats.likes == p.stats.likes && q.stats.shares == p.stats.shares
    ensures q.interaction.liked == p.interaction.liked && q.interaction.saved == p.interaction.saved
  {
    p.(comments := p.comments + [c], stats := p.stats.(comments := p.stats.comments + 1),
       interaction := p.interaction.(commented := true))
  }

  /** Like and save never touch the comments, and commenting never touches the toggles. */
  lemma InteractionsIndependent(p: SocialPost, c: Comment)
    ensures Like(AddComment(p, c)) == AddComment(Like(p), c)
    ensures Save(AddComment(p, c)) == AddComment(Save(p), c)
    ensures Like(Save(p)) == Save(Like(p))
  {
  }

  function HasId(id: Id): SocialPost -> bool {
    (p: SocialPost) => p.id == id
  }

  /**
   * `findById` and the ownership check shared by like, comment and save:
   * the position of the post (the first with that id), or 404 when there is
   * none, or 403 when it belongs to somebody else.
   */
  const PostNotFound := "Post not found"
  const NotAuthorized := "Not authorized to interact with this post"

  function Access(posts: seq<SocialPost>, caller: Id, id: Id): (r: Reply<nat>)
    ensures r.Success? ==> r.body < |posts| && posts[r.body].id == id && posts[r.body].user == caller
                           && forall j :: 0 <= j < r.body ==> posts[j].id != id
    ensures r.Failure? ==> r == Failure(404, PostNotFound) || r == Failure(403, NotAuthorized)
  {
    var k := Lists.FirstIndex(posts, HasId(id));
    FirstIdIndex(posts, id, k);
    if k < 0 then Failure(404, PostNotFound)
    else if posts[k].user != caller then Failure(403, NotAuthorized)
    else Success(200, k)
  }

  /** 404 exactly when no post has the id. */
  lemma AccessNotFound(posts: seq<SocialPost>, caller: Id, id: Id)
    ensures Access(posts, caller, id).Failure? && Access(posts, caller, id).status == 404
            <==> forall j :: 0 <= j < |posts| ==> posts[j].id != id
  {
    FirstIdIndex(posts, id, Lists.FirstIndex(posts, HasId(id)));
  }

  /** 403 exactly when the first post with the id belongs to somebody else. */
  lemma AccessForbidden(posts: seq<SocialPost>, caller: Id, id: Id)
    ensures Access(posts, caller, id).Failure? && Access(posts, caller, id).status == 403
            <==> exists k :: 0 <= k < |posts| && posts[k].id == id && posts[k].user != caller
                            && forall j :: 0 <= j < k ==> posts[j].id != id
  {
    var k := Lists.FirstIndex(posts, HasId(id));
    FirstIdIndex(posts, id, k);
  }

  /** The first index with a given id is the only index that has it with none before it. */
  lemma FirstIdIndex(posts: seq<SocialPost>, id: Id, k: int)
    requires k == Lists.FirstIndex(posts, HasId(id))
    ensures -1 <= k < |posts|
    ensures k < 0 <==> forall j :: 0 <= j < |posts| ==> posts[j].id != id
    ensures k >= 0 ==> posts[k].id == id && forall j :: 0 <= j < k ==> posts[j].id != id
    ensures forall i :: 0 <= i < |posts| && posts[i].id == id && (forall j :: 0 <= j < i ==> posts[j].id != id) ==> i == k
  {
    forall j | 0 <= j < |posts|
      ensures HasId(id)(posts[j]) <==> posts[j].id == id
    {
    }
    forall i | 0 <= i < |posts| && posts[i].id == id && (forall j :: 0 <= j < i ==> posts[j].id != id)
      ensures i == k
    {
    }
  }

  /** The posts a query `{user, platform?, type?}` selects; a filter that is absent or empty is not applied. */
  function Selects(caller: Id, platform: Option<string>, postType: Option<string>): SocialPost -> bool {
    (p: SocialPost) =>
      p.user == caller
      && (!Present(platform) || PlatformName(p.platform) == platform.value)
      && (!Present(postType) || PostTypeName(p.postType) == postType.value)
  }

  /** `sort({originalCreatedAt: -1})` as a sort on the negated date. */
  function NewestFirstKey(p: SocialPost): int {
    -p.originalCreatedAt
  }

  datatype Pagination = Pagination(page: int, limit: int, pages: Paging.PageCount)

  datatype FeedPage = FeedPage(count: nat, total: nat, pagination: Pagination, data: seq<SocialPost>)

  /** The selected posts, newest first: the order the feed is paged in. */
  function Selected(posts: seq<SocialPost>, caller: Id, platform: Option<string>, postType: Option<string>):
    (r: seq<SocialPost>)
    ensures Lists.SortedBy(r, NewestFirstKey)
    ensures multiset(r) == multiset(Lists.Filter(posts, Selects(caller, platform, postType)))
    ensures |r| == Lists.Count(posts, Selects(caller, platform, postType))
  {
    Lists.FilterLength(posts, Selects(caller, platform, postType));
    Lists.SortBy(Lists.Filter(posts, Selects(caller, platform, postType)), NewestFirstKey)
  }

  /**
   * `getFeed`: the caller's posts matching the optional filters, newest
   * first, skipping `(page - 1) * limit` and showing at most `limit`
   * (`page` defaults to 1 and `limit` to 20). A negative skip is refused by
   * the database, which the handler reports as a 500.
   */
  function Feed(posts: seq<SocialPost>, caller: Id, platform: Option<string>, postType: Option<string>,
                page: Option<int>, limit: Option<int>): (reply: Reply<FeedPage>)
    ensures var pg, lim := page.GetOr(1), limit.GetOr(20);
      var all := Selected(posts, caller, platform, postType);
      (Paging.Skip(pg, lim) < 0 ==> reply == ServerError())
      && (Paging.Skip(pg, lim) >= 0 ==>
            reply.Success? && reply.status == 200
            && reply.body.count == |reply.body.data| == Paging.Take(|all| - Paging.Skip(pg, lim), lim)
            && reply.body.total == |all|
            && reply.body.pagination == Pagination(pg, lim, Paging.Pages(|all|, lim))
            && (forall i :: 0 <= i < |reply.body.data| ==>
                  Paging.Skip(pg, lim) + i < |all| && reply.body.data[i] == all[Paging.Skip(pg, lim) + i]))
  {
    var pg, lim := page.GetOr(1), limit.GetOr(20);
    var all := Selected(posts, caller, platform, postType);
    var skip := Paging.Skip(pg, lim);
    if skip < 0 then ServerError()
    else
      var data := Paging.Window(all, skip, lim);
      Success(200, FeedPage(|data|, |all|, Pagination(pg, lim, Paging.Pages(|all|, lim)), data))
  }

  /** Every post on a feed page is the caller's, passes the filters, and the page is newest first. */
  lemma FeedPageSound(posts: seq<SocialPost>, caller: Id, platform: Option<string>, postType: Option<string>,
                      page: Option<int>, limit: Option<int>)
    requires Feed(posts, caller, platform, postType, page, limit).Success?
    ensures var data := Feed(posts, caller, platform, postType, page, limit).body.data;
      Lists.SortedBy(data, NewestFirstKey)
      && forall i :: 0 <= i < |data| ==> data[i] in posts && Selects(caller, platform, postType)(data[i])
  {
    var all := Selected(posts, caller, platform, postType);
    var skip := Paging.Skip(page.GetOr(1), limit.GetOr(20));
    assert skip >= 0;
    var data := Feed(posts, caller, platform, postType, page, limit).body.data;
    assert data == Paging.Window(all, skip, limit.GetOr(20));
    WindowOfSelected(posts, Selects(caller, platform, postType), all, skip, data);
  }

  /** A run of consecutive entries of the sorted selection is sorted, and holds only selected posts. */
  lemma WindowOfSelected(posts: seq<SocialPost>, p: SocialPost -> bool, all: seq<SocialPost>, skip: nat,
                         data: seq<SocialPost>)
    requires Lists.SortedBy(all, NewestFirstKey)
    requires multiset(all) == multiset(Lists.Filter(posts, p))
    requires forall i :: 0 <= i < |data| ==> skip + i < |all| && data[i] == all[skip + i]
    ensures Lists.SortedBy(data, NewestFirstKey)
    ensures forall i :: 0 <= i < |data| ==> data[i] in posts && p(data[i])
  {
    Lists.FilterMultiset(posts, p);
    forall i | 0 <= i < |data|
      ensures data[i] in posts && p(data[i])
    {
      assert data[i] in multiset(all);
      assert data[i] in Lists.Filter(posts, p);
    }
  }

  /** With `limit` 0 (no limit) the first page holds every selected post. */
  lemma NoLimitShowsAll(posts: seq<SocialPost>, caller: Id, platform: Option<string>, postType: Option<string>)
    ensures var r := Feed(posts, caller, platform, postType, Some(1), Some(0));
      r.Success? && multiset(r.body.data) == multiset(Lists.Filter(posts, Selects(caller, platform, postType)))
  {
    var all := Selected(posts, caller, platform, postType);
    var r := Feed(posts, caller, platform, postType, Some(1), Some(0));
    assert r.body.data == all;
  }

  /** `getPostsByPlatform`: an unknown platform is a 400; otherwise the feed filtered by platform. */
  function PostsByPlatform(posts: seq<SocialPost>, caller: Id, platform: string, page: Option<int>, limit: Option<int>):
    (reply: Reply<FeedPage>)
    ensures ParsePlatform(platform).None? ==> reply == Failure(400, InvalidPlatform(platform))
    ensures ParsePlatform(platform).Some? ==> reply == Feed(posts, caller, Some(platform), None, page, limit)
  {
    if ParsePlatform(platform).None? then Failure(400, InvalidPlatform(platform))
    else Feed(posts, caller, Some(platform), None, page, limit)
  }

  /** `getPostsByType`: an unknown type is a 400; otherwise the feed filtered by type. */
  function PostsByType(posts: seq<SocialPost>, caller: Id, postType: string, page: Option<int>, limit: Option<int>):
    (reply: Reply<FeedPage>)
    ensures ParsePostType(postType).None? ==> reply == Failure(400, InvalidType(postType))
    ensures ParsePostType(postType).Some? ==> reply == Feed(posts, caller, None, Some(postType), page, limit)
  {
    if ParsePostType(postType).None? then Failure(400, InvalidType(postType))
    else Feed(posts, caller, None, Some(postType), page, limit)
  }

  /** A platform-filtered page only ever shows posts from that platform. */
  lemma PlatformPageOnlyThatPlatform(posts: seq<SocialPost>, caller: Id, platform: Platform, page: Option<int>,
                                     limit: Option<int>)
    requires PostsByPlatform(posts, caller, PlatformName(platform), page, limit).Success?
    ensures var data := PostsByPlatform(posts, caller, PlatformName(platform), page, limit).body.data;
      forall i :: 0 <= i < |data| ==> data[i].platform == platform && data[i].user == caller
  {
    var name := PlatformName(platform);
    WhitelistsAreTheNames(platform, Post, name);
    var sel := Selects(caller, Some(name), None);
    FeedPageSound(posts, caller, Some(name), None, page, limit);
    var data := PostsByPlatform(posts, caller, name, page, limit).body.data;
    assert forall i :: 0 <= i < |data| ==> sel(data[i]);
    forall i | 0 <= i < |data|
      ensures data[i].platform == platform
    {
      PlatformNameInjective(data[i].platform, platform);
    }
  }

  /** Different platforms have different names. */
  lemma PlatformNameInjective(p: Platform, q: Platform)
    requires PlatformName(p) == PlatformName(q)
    ensures p == q
  {
    assert ParsePlatform(PlatformName(p)) == Some(p) && ParsePlatform(PlatformName(q)) == Some(q);
  }

  datatype LinkResult = LinkResult(platform: Platform, linked: bool)

  /** The imported posts and each user's linked-account flags. */
  class SocialDb {
    var posts: seq<SocialPost>
    var linkedAccounts: map<Id, map<Platform, bool>>

    /** No counter is ever negative. */
    ghost predicate Valid()
      reads this
    {
      forall i :: 0 <= i < |posts| ==> posts[i].stats.likes >= 0 && posts[i].stats.comments >= 0
    }

    constructor (posts: seq<SocialPost>, linkedAccounts: map<Id, map<Platform, bool>>)
      requires forall i :: 0 <= i < |posts| ==> posts[i].stats.likes >= 0 && posts[i].stats.comments >= 0
      ensures Valid() && this.posts == posts && this.linkedAccounts == linkedAccounts
    {
      this.posts := posts;
      this.linkedAccounts := linkedAccounts;
    }
  }

  /** POST /api/social/like/:id. */
  method LikePost(db: SocialDb, caller: Id, id: Id) returns (reply: Reply<SocialPost>)
    requires db.Valid()
    modifies db
    ensures db.Valid()
    ensures var a := Access(old(db.posts), caller, id);
      (a.Failure? ==> reply == Failure(a.status, a.error) && unchanged(db))
      && (a.Success? ==>
            db.posts == old(db.posts)[a.body := Like(old(db.posts)[a.body])]
            && db.linkedAccounts == old(db.linkedAccounts) && reply == Success(200, db.posts[a.body]))
  {
    var a := Access(db.posts, caller, id);
    if a.Failure? {
      return Failure(a.status, a.error);
    }
    var post := Like(db.posts[a.body]);
    db.posts := db.posts[a.body := post];
    return Success(200, post);
  }

  /** POST /api/social/comment/:id; the text is checked before the post is looked up. */
  method CommentOnPost(db: SocialDb, caller: Caller, id: Id, text: Option<string>, now: int)
    returns (reply: Reply<SocialPost>)
    requires db.Valid()
    modifies db
    ensures db.Valid()
    ensures !Present(text) ==> reply == Failure(400, CommentTextRequired) && unchanged(db)
    ensures var a := Access(old(db.posts), caller.id, id);
      (Present(text) && a.Failure? ==> reply == Failure(a.status, a.error) && unchanged(db))
      && (Present(text) && a.Success? ==>
            db.posts == old(db.posts)[a.body := AddComment(old(db.posts)[a.body], NewComment(caller, text.value, now))]
            && db.linkedAccounts == old(db.linkedAccounts) && reply == Success(200, db.posts[a.body]))
  {
    if !Present(text) {
      return Failure(400, CommentTextRequired);
    }
    var a := Access(db.posts, caller.id, id);
    if a.Failure? {
      return Failure(a.status, a.error);
    }
    var post := AddComment(db.posts[a.body], NewComment(caller, text.value, now));
    db.posts := db.posts[a.body := post];
    return Success(200, post);
  }

  /** POST /api/social/save/:id. */
  method SavePost(db: SocialDb, caller: Id, id: Id) returns (reply: Reply<SocialPost>)
    requires db.Valid()
    modifies db
    ensures db.Valid()
    ensures var a := Access(old(db.posts), caller, id);
      (a.Failure? ==> reply == Failure(a.status, a.error) && unchanged(db))
      && (a.Success? ==>
            db.posts == old(db.posts)[a.body := Save(old(db.posts)[a.body])]
            && db.linkedAccounts == old(db.linkedAccounts) && reply == Success(200, db.posts[a.body]))
  {
    var a := Access(db.posts, caller, id);
    if a.Failure? {
      return Failure(a.status, a.error);
    }
    var post := Save(db.posts[a.body]);
    db.posts := db.posts[a.body := post];
    return Success(200, post);
  }

  /**
   * POST /api/social/link/:platform: the platform must be whitelisted and an
   * access token given. A caller with no user document makes the handler
   * throw, which it reports as a 500.
   */
  method LinkSocialAccount(db: SocialDb, caller: Id, platform: string, accessToken: Option<string>)
    returns (reply: Reply<LinkResult>)
    modifies db
    ensures ParsePlatform(platform).None? ==> reply == Failure(400, InvalidPlatform(platform)) && unchanged(db)
    ensures ParsePlatform(platform).Some? && !Present(accessToken) ==>
      reply == Failure(400, AccessTokenRequired) && unchanged(db)
    ensures ParsePlatform(platform).Some? && Present(accessToken) && caller !in old(db.linkedAccounts) ==>
      reply == ServerError() && unchanged(db)
    ensures reply.Success? <==> ParsePlatform(platform).Some? && Present(accessToken) && caller in old(db.linkedAccounts)
    ensures reply.Success? ==>
      var p := ParsePlatform(platform).value;
      reply == Success(200, LinkResult(p, true)) && db.posts == old(db.posts)
      && db.linkedAccounts == old(db.linkedAccounts)[caller := SetLinked(old(db.linkedAccounts)[caller], p, true)]
  {
    var p := ParsePlatform(platform);
    if p.None? {
      return Failure(400, InvalidPlatform(platform));
    }
    if !Present(accessToken) {
      return Failure(400, AccessTokenRequired);
    }
    if caller !in db.linkedAccounts {
      return ServerError();
    }
    db.linkedAccounts := db.linkedAccounts[caller := SetLinked(db.linkedAccounts[caller], p.value, true)];
    return Success(200, LinkResult(p.value, true));
  }

  /** DELETE /api/social/unlink/:platform: no token is needed to unlink. */
  method UnlinkSocialAccount(db: SocialDb, caller: Id, platform: string) returns (reply: Reply<LinkResult>)
    modifies db
    ensures ParsePlatform(platform).None? ==> reply == Failure(400, InvalidPlatform(platform)) && unchanged(db)
    ensures ParsePlatform(platform).Some? && caller !in old(db.linkedAccounts) ==> reply == ServerError() && unchanged(db)
    ensures reply.Success? <==> ParsePlatform(platform).Some? && caller in old(db.linkedAccounts)
    ensures reply.Success? ==>
      var p := ParsePlatform(platform).value;
      reply == Success(200, LinkResult(p, false)) && db.posts == old(db.posts)
      && db.linkedAccounts == old(db.linkedAccounts)[caller := SetLinked(old(db.linkedAccounts)[caller], p, false)]
  {
    var p := ParsePlatform(platform);
    if p.None? {
      return Failure(400, InvalidPlatform(platform));
    }
    if caller !in db.linkedAccounts {
      return ServerError();
    }
    db.linkedAccounts := db.linkedAccounts[caller := SetLinked(db.linkedAccounts[caller], p.value, false)];
    return Success(200, LinkResult(p.value, false));
  }

  /** The account flags a link or unlink leaves behind: the platform's flag is set, every other flag kept. */
  function SetLinked(accounts: map<Platform, bool>, p: Platform, linked: bool): (r: map<Platform, bool>)
    ensures p in r && r[p] == linked
    ensures forall q :: q in accounts && q != p ==> q in r && r[q] == accounts[q]
  {
    accounts[p := linked]
  }

  /** Unlinking after linking leaves the platform unlinked; linking again relinks it. */
  lemma LinkUnlinkLastWins(accounts: map<Platform, bool>, p: Platform)
    ensures SetLinked(SetLinked(accounts, p, true), p, false) == SetLinked(accounts, p, false)
    ensures SetLinked(SetLinked(accounts, p, false), p, true) == SetLinked(accounts, p, true)
  {
  }
}

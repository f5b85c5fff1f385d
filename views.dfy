/** The read side of posts/views.py: the write rule of the post view set and
    the four listing filters (`get_queryset`) over a store of posts,
    comments, likes and follows. */
module Views {
  import opened Collections
  import opened Accounts
  import opened PostModels
  import opened Permissions

  /** `IsAuthorOrModeratorOrAdmin.has_object_permission` of the post view set.
      A mutating request reaches it only authenticated: the view set also
      carries `IsAuthenticatedOrReadOnly`, which turns the anonymous user
      away first (and would otherwise fail on `is_moderator()`). */
  predicate IsAuthorOrModeratorOrAdmin(v: Viewer, m: HttpMethod, p: Post)
    requires IsSafe(m) || v.Authenticated?
  {
    if IsSafe(m) then true
    else p.author == v.user.id || IsModerator(v.user) || IsAdmin(v.user)
  }

  /** Mutating a post is allowed exactly to its author and to every role but
      the plain user; reads always pass. The rule agrees with the generic
      owner rule of permissions.py on posts. */
  lemma PostWriteRule(v: Viewer, m: HttpMethod, p: Post)
    requires IsSafe(m) || v.Authenticated?
    ensures IsSafe(m) ==> IsAuthorOrModeratorOrAdmin(v, m, p)
    ensures !IsSafe(m) ==>
      (IsAuthorOrModeratorOrAdmin(v, m, p) <==> p.author == v.user.id || v.user.role != RoleUser)
    ensures IsAuthorOrModeratorOrAdmin(v, m, p) == IsOwnerOrModeratorOrAdmin(v, m, PostTarget(p))
  {
  }

  // ---- Newsfeed: PostViewSet.get_queryset ----

  /** `following_ids`: the users that `u` follows. */
  function FollowingIds(graph: seq<Follow>, u: UserId): set<UserId> {
    set f | f in graph && f.follower == u :: f.following
  }

  lemma FollowingIdsExact(graph: seq<Follow>, u: UserId, a: UserId)
    ensures a in FollowingIds(graph, u) <==> IsFollowing(graph, u, a)
  {
  }

  /** The newsfeed's post filter. */
  predicate NewsfeedFilter(v: Viewer, p: Post, graph: seq<Follow>) {
    match v
    case Anonymous => p.privacy == Public && !p.isDeleted
    case Authenticated(u) =>
      (p.privacy == Public
       || (p.privacy == Followers && p.author in FollowingIds(graph, u.id))
       || (p.privacy == Private && p.author == u.id))
      && !p.isDeleted
  }

  /** A newsfeed row: the post with its annotated counts. */
  datatype FeedItem = FeedItem(post: Post, likesCount: nat, commentsCount: nat)

  /** `Count('like', distinct=True)` for one post. */
  function LikesCount(likes: seq<Like>, pid: PostId): nat {
    |DistinctIdsIn(likes, LikeKey, LikePost, pid)|
  }

  /** `Count('comment', distinct=True)` for one post. */
  function CommentsCount(comments: seq<Comment>, pid: PostId): nat {
    |DistinctIdsIn(comments, CommentKey, CommentPost, pid)|
  }

  function Annotate(p: Post, comments: seq<Comment>, likes: seq<Like>): FeedItem {
    FeedItem(p, LikesCount(likes, p.id), CommentsCount(comments, p.id))
  }

  function AnnotateAll(ps: seq<Post>, comments: seq<Comment>, likes: seq<Like>): seq<FeedItem> {
    seq(|ps|, i requires 0 <= i < |ps| => Annotate(ps[i], comments, likes))
  }

  function ItemCreatedAt(it: FeedItem): int { it.post.createdAt }

  /** Annotating keeps multiplicities: a post's row occurs as often as the post. */
  lemma {:induction false} AnnotateAllCount(ps: seq<Post>, comments: seq<Comment>, likes: seq<Like>, p: Post)
    ensures multiset(AnnotateAll(ps, comments, likes))[Annotate(p, comments, likes)] == multiset(ps)[p]
  {
    if ps != [] {
      AnnotateAllCount(ps[1..], comments, likes, p);
      assert AnnotateAll(ps, comments, likes) == [Annotate(ps[0], comments, likes)] + AnnotateAll(ps[1..], comments, likes);
      assert ps == [ps[0]] + ps[1..];
    }
  }

  /** The stored posts that pass the newsfeed filter, in store order. */
  function NewsfeedPosts(v: Viewer, posts: seq<Post>, graph: seq<Follow>): seq<Post> {
    Filter(posts, (p: Post) => NewsfeedFilter(v, p, graph))
  }

  /** The newsfeed: filtered, annotated, most recent first. */
  function Newsfeed(v: Viewer, posts: seq<Post>, comments: seq<Comment>, likes: seq<Like>, graph: seq<Follow>): seq<FeedItem> {
    SortDesc(AnnotateAll(NewsfeedPosts(v, posts, graph), comments, likes), ItemCreatedAt)
  }

  /** A row is in the newsfeed exactly when its post is a stored post that
      passes the filter and its counts are that post's counts; the rows are
      ordered by creation time, most recent first, and are the annotated
      passing posts, each as often as it is stored. */
  lemma {:induction false} NewsfeedExact(v: Viewer, posts: seq<Post>, comments: seq<Comment>, likes: seq<Like>, graph: seq<Follow>)
    ensures forall it :: it in Newsfeed(v, posts, comments, likes, graph) <==>
      it.post in posts && NewsfeedFilter(v, it.post, graph) && it == Annotate(it.post, comments, likes)
    ensures NonIncreasing(Newsfeed(v, posts, comments, likes, graph), ItemCreatedAt)
    ensures |Newsfeed(v, posts, comments, likes, graph)| == |NewsfeedPosts(v, posts, graph)|
    ensures multiset(Newsfeed(v, posts, comments, likes, graph)) ==
      multiset(AnnotateAll(NewsfeedPosts(v, posts, graph), comments, likes))
    ensures forall p ::
      multiset(NewsfeedPosts(v, posts, graph))[p] ==
        if NewsfeedFilter(v, p, graph) then multiset(posts)[p] else 0
  {
    var kept := NewsfeedPosts(v, posts, graph);
    var rows := AnnotateAll(kept, comments, likes);
    SortDescCorrect(rows, ItemCreatedAt);
    SortDescMembers(rows, ItemCreatedAt);
    forall it ensures it in rows <==> it.post in posts && NewsfeedFilter(v, it.post, graph) && it == Annotate(it.post, comments, likes) {
      if it in rows {
        var i :| 0 <= i < |rows| && rows[i] == it;
        assert kept[i] in kept;
      }
      if it.post in posts && NewsfeedFilter(v, it.post, graph) && it == Annotate(it.post, comments, likes) {
        assert it.post in kept;
        var i :| 0 <= i < |kept| && kept[i] == it.post;
        assert rows[i] == it;
      }
    }
  }

  /** Each post's row occurs in the newsfeed exactly as often as the post is
      stored when it passes the filter, and not at all otherwise. */
  lemma NewsfeedRowMultiplicity(v: Viewer, posts: seq<Post>, comments: seq<Comment>, likes: seq<Like>, graph: seq<Follow>, p: Post)
    ensures multiset(Newsfeed(v, posts, comments, likes, graph))[Annotate(p, comments, likes)] ==
      if NewsfeedFilter(v, p, graph) then multiset(posts)[p] else 0
  {
    var kept := NewsfeedPosts(v, posts, graph);
    SortDescCorrect(AnnotateAll(kept, comments, likes), ItemCreatedAt);
    AnnotateAllCount(kept, comments, likes, p);
  }

  /** The anonymous newsfeed is exactly the non-deleted PUBLIC posts. */
  lemma AnonymousNewsfeed(posts: seq<Post>, comments: seq<Comment>, likes: seq<Like>, graph: seq<Follow>, p: Post)
    ensures Annotate(p, comments, likes) in Newsfeed(Anonymous, posts, comments, likes, graph)
        <==> p in posts && p.privacy == Public && !p.isDeleted
  {
    NewsfeedExact(Anonymous, posts, comments, likes, graph);
  }

  /** For an authenticated viewer a post is in the newsfeed exactly when it is
      not deleted and is PUBLIC, or FOLLOWERS by an author the viewer follows,
      or PRIVATE by the viewer. No deleted post appears for anyone. */
  lemma AuthenticatedNewsfeed(u: User, posts: seq<Post>, comments: seq<Comment>, likes: seq<Like>, graph: seq<Follow>, p: Post)
    ensures Annotate(p, comments, likes) in Newsfeed(Authenticated(u), posts, comments, likes, graph)
        <==> p in posts && !p.isDeleted &&
             (p.privacy == Public
              || (p.privacy == Followers && IsFollowing(graph, u.id, p.author))
              || (p.privacy == Private && p.author == u.id))
    ensures forall v: Viewer, it :: it in Newsfeed(v, posts, comments, likes, graph) ==> !it.post.isDeleted
  {
    NewsfeedExact(Authenticated(u), posts, comments, likes, graph);
    FollowingIdsExact(graph, u.id, p.author);
    forall v: Viewer, it | it in Newsfeed(v, posts, comments, likes, graph) ensures !it.post.isDeleted {
      NewsfeedExact(v, posts, comments, likes, graph);
    }
  }

  /** With unique primary keys, each row's counts are the numbers of like and
      comment rows on its post. */
  lemma NewsfeedCounts(v: Viewer, posts: seq<Post>, comments: seq<Comment>, likes: seq<Like>, graph: seq<Follow>, it: FeedItem)
    requires UniqueBy(likes, LikeKey) && UniqueBy(comments, CommentKey)
    requires it in Newsfeed(v, posts, comments, likes, graph)
    ensures it.likesCount == CountIn(likes, LikePost, it.post.id)
    ensures it.commentsCount == CountIn(comments, CommentPost, it.post.id)
  {
    NewsfeedExact(v, posts, comments, likes, graph);
    DistinctIdsCount(likes, LikeKey, LikePost, it.post.id);
    DistinctIdsCount(comments, CommentKey, CommentPost, it.post.id);
  }

  // ---- Comment, like and follow listings ----

  /** The `visible_posts` filter of the comment and like listings, written as
      the join on the author's followers. */
  predicate VisiblePostsFilter(v: Viewer, p: Post, graph: seq<Follow>) {
    match v
    case Anonymous => p.privacy == Public && !p.isDeleted
    case Authenticated(u) =>
      (p.privacy == Public
       || (p.privacy == Followers && IsFollowing(graph, u.id, p.author))
       || (p.privacy == Private && p.author == u.id))
      && !p.isDeleted
  }

  /** The join form and the `following_ids` form select the same posts. */
  lemma FilterFormsAgree(v: Viewer, p: Post, graph: seq<Follow>)
    ensures VisiblePostsFilter(v, p, graph) == NewsfeedFilter(v, p, graph)
  {
  }

  /** `post__in=visible_posts`: some stored post with this id is visible. */
  predicate InVisiblePosts(v: Viewer, posts: seq<Post>, graph: seq<Follow>, pid: PostId) {
    exists p :: p in posts && p.id == pid && VisiblePostsFilter(v, p, graph)
  }

  /** The optional `?post=` narrowing. */
  predicate MatchesPostParam(postParam: Option<PostId>, pid: PostId) {
    postParam.None? || postParam.value == pid
  }

  function CommentCreatedAt(c: Comment): int { c.createdAt }

  /** The comments that `CommentViewSet.get_queryset` keeps, in store order. */
  function ListedComments(v: Viewer, posts: seq<Post>, comments: seq<Comment>, graph: seq<Follow>, postParam: Option<PostId>): seq<Comment> {
    Filter(comments, (c: Comment) => InVisiblePosts(v, posts, graph, c.post) && MatchesPostParam(postParam, c.post))
  }

  /** `CommentViewSet.get_queryset`: the kept comments, most recent first. */
  function CommentListing(v: Viewer, posts: seq<Post>, comments: seq<Comment>, graph: seq<Follow>, postParam: Option<PostId>): seq<Comment> {
    SortDesc(ListedComments(v, posts, comments, graph, postParam), CommentCreatedAt)
  }

  /** `LikeViewSet.get_queryset`; the view set admits authenticated users only. */
  function LikeListing(u: User, posts: seq<Post>, likes: seq<Like>, graph: seq<Follow>, postParam: Option<PostId>): seq<Like> {
    Filter(likes, (l: Like) => InVisiblePosts(Authenticated(u), posts, graph, l.post) && MatchesPostParam(postParam, l.post))
  }

  /** `FollowViewSet.get_queryset`; authenticated users only. */
  function FollowListing(u: User, graph: seq<Follow>): seq<Follow> {
    Filter(graph, (f: Follow) => f.follower == u.id)
  }

  /** The comment listing holds exactly the comments on visible posts (on the
      requested post, when one is given), each as often as it is stored, most
      recent first. */
  lemma CommentListingExact(v: Viewer, posts: seq<Post>, comments: seq<Comment>, graph: seq<Follow>, postParam: Option<PostId>)
    ensures forall c :: c in CommentListing(v, posts, comments, graph, postParam) <==>
      c in comments && InVisiblePosts(v, posts, graph, c.post) && MatchesPostParam(postParam, c.post)
    ensures NonIncreasing(CommentListing(v, posts, comments, graph, postParam), CommentCreatedAt)
    ensures forall c ::
      multiset(CommentListing(v, posts, comments, graph, postParam))[c] ==
        if InVisiblePosts(v, posts, graph, c.post) && MatchesPostParam(postParam, c.post)
        then multiset(comments)[c] else 0
  {
    var kept := ListedComments(v, posts, comments, graph, postParam);
    SortDescCorrect(kept, CommentCreatedAt);
    SortDescMembers(kept, CommentCreatedAt);
  }

  /** The like listing holds exactly the likes on visible posts (on the
      requested post, when one is given), each as often as it is stored. */
  lemma LikeListingExact(u: User, posts: seq<Post>, likes: seq<Like>, graph: seq<Follow>, postParam: Option<PostId>, l: Like)
    ensures l in LikeListing(u, posts, likes, graph, postParam) <==>
      l in likes && InVisiblePosts(Authenticated(u), posts, graph, l.post) && MatchesPostParam(postParam, l.post)
    ensures multiset(LikeListing(u, posts, likes, graph, postParam))[l] ==
      if InVisiblePosts(Authenticated(u), posts, graph, l.post) && MatchesPostParam(postParam, l.post)
      then multiset(likes)[l] else 0
  {
  }

  /** The follow listing is exactly the caller's outgoing edges, each as often
      as it is stored. */
  lemma FollowListingExact(u: User, graph: seq<Follow>, f: Follow)
    ensures f in FollowListing(u, graph) <==> f in graph && f.follower == u.id
    ensures multiset(FollowListing(u, graph))[f] == if f.follower == u.id then multiset(graph)[f] else 0
  {
  }

  /** An anonymous request for the comments of a post that is not PUBLIC gets an
      empty listing, as if the post did not exist. */
  lemma AnonymousSeesNoCommentsOfHiddenPost(posts: seq<Post>, comments: seq<Comment>, graph: seq<Follow>, pid: PostId)
    requires forall p :: p in posts && p.id == pid ==> p.privacy != Public
    ensures CommentListing(Anonymous, posts, comments, graph, Some(pid)) == []
  {
    CommentListingExact(Anonymous, posts, comments, graph, Some(pid));
  }

  /** A plain viewer who does not follow the author of a PUBLIC, a FOLLOWERS
      and a PRIVATE post sees only the PUBLIC one; after following the author,
      the PUBLIC and the FOLLOWERS one. */
  lemma FollowingScenario(a: User, b: UserId, pub: Post, fol: Post, priv: Post, comments: seq<Comment>, likes: seq<Like>, graph: seq<Follow>)
    requires a.id != b
    requires pub.author == b && fol.author == b && priv.author == b
    requires pub.privacy == Public && fol.privacy == Followers && priv.privacy == Private
    requires !pub.isDeleted && !fol.isDeleted && !priv.isDeleted
    ensures !IsFollowing(graph, a.id, b) ==>
      forall it :: it in Newsfeed(Authenticated(a), [pub, fol, priv], comments, likes, graph)
        <==> it == Annotate(pub, comments, likes)
    ensures IsFollowing(graph, a.id, b) ==>
      forall it :: it in Newsfeed(Authenticated(a), [pub, fol, priv], comments, likes, graph)
        <==> it == Annotate(pub, comments, likes) || it == Annotate(fol, comments, likes)
  {
    NewsfeedExact(Authenticated(a), [pub, fol, priv], comments, likes, graph);
    FollowingIdsExact(graph, a.id, b);
  }
}

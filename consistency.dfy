/** How the two forms of the visibility rule relate: the per-object read check
    of posts/permissions.py and the bulk filters of posts/views.py. The
    filters are never wider than the check, but the check is wider: it has a
    moderator/admin override, lets an author read their own FOLLOWERS post,
    and ignores the soft-delete flag. */
module Consistency {
  import opened Collections
  import opened Accounts
  import opened PostModels
  import opened Permissions
  import opened Views

  /** Every post the newsfeed filter keeps passes the read check. */
  lemma NewsfeedFilterImpliesReadable(v: Viewer, p: Post, graph: seq<Follow>)
    requires NewsfeedFilter(v, p, graph)
    ensures PostPrivacyPermission(v, p, graph)
  {
  }

  /** Every row of the newsfeed, and the post of every listed comment and
      like, passes the read check. */
  lemma ListingsAreReadable(v: Viewer, u: User, posts: seq<Post>, comments: seq<Comment>, likes: seq<Like>,
                            graph: seq<Follow>, postParam: Option<PostId>)
    ensures forall it :: it in Newsfeed(v, posts, comments, likes, graph) ==>
      PostPrivacyPermission(v, it.post, graph)
    ensures forall c :: c in CommentListing(v, posts, comments, graph, postParam) ==>
      exists p :: p in posts && p.id == c.post && PostPrivacyPermission(v, p, graph)
    ensures forall l :: l in LikeListing(u, posts, likes, graph, postParam) ==>
      exists p :: p in posts && p.id == l.post && PostPrivacyPermission(Authenticated(u), p, graph)
  {
    NewsfeedExact(v, posts, comments, likes, graph);
    forall it | it in Newsfeed(v, posts, comments, likes, graph) ensures PostPrivacyPermission(v, it.post, graph) {
      NewsfeedFilterImpliesReadable(v, it.post, graph);
    }
    CommentListingExact(v, posts, comments, graph, postParam);
    forall c | c in CommentListing(v, posts, comments, graph, postParam)
      ensures exists p :: p in posts && p.id == c.post && PostPrivacyPermission(v, p, graph)
    {
      var p :| p in posts && p.id == c.post && VisiblePostsFilter(v, p, graph);
      FilterFormsAgree(v, p, graph);
      NewsfeedFilterImpliesReadable(v, p, graph);
    }
    forall l | l in LikeListing(u, posts, likes, graph, postParam)
      ensures exists p :: p in posts && p.id == l.post && PostPrivacyPermission(Authenticated(u), p, graph)
    {
      LikeListingExact(u, posts, likes, graph, postParam, l);
      var p :| p in posts && p.id == l.post && VisiblePostsFilter(Authenticated(u), p, graph);
      FilterFormsAgree(Authenticated(u), p, graph);
      NewsfeedFilterImpliesReadable(Authenticated(u), p, graph);
    }
  }

  /** The converse fails for a moderator or admin: someone else's PRIVATE post
      passes the read check but is not in their newsfeed. */
  lemma ElevatedReadsBeyondNewsfeed(u: User, p: Post, graph: seq<Follow>)
    requires IsModerator(u) || IsAdmin(u)
    requires p.privacy == Private && p.author != u.id
    ensures PostPrivacyPermission(Authenticated(u), p, graph)
    ensures !NewsfeedFilter(Authenticated(u), p, graph)
  {
  }

  /** The post view set looks objects up through the newsfeed, so a moderator
      or admin who passes the write rule on someone else's PRIVATE post can
      still not reach that post to change it. */
  lemma ElevatedWriteUnreachable(u: User, m: HttpMethod, p: Post, posts: seq<Post>, comments: seq<Comment>,
                                 likes: seq<Like>, graph: seq<Follow>)
    requires IsModerator(u) || IsAdmin(u)
    requires p.privacy == Private && p.author != u.id
    ensures IsAuthorOrModeratorOrAdmin(Authenticated(u), m, p)
    ensures forall it :: it in Newsfeed(Authenticated(u), posts, comments, likes, graph) ==> it.post != p
  {
    NewsfeedExact(Authenticated(u), posts, comments, likes, graph);
  }

  /** The converse fails for an author's own FOLLOWERS post: the read check
      lets the author in, but the newsfeed needs the author to follow
      themself, which the follow guard forbids. */
  lemma OwnFollowersPostMissingFromNewsfeed(u: User, p: Post, graph: seq<Follow>)
    requires NoSelfFollow(graph)
    requires p.privacy == Followers && p.author == u.id
    ensures PostPrivacyPermission(Authenticated(u), p, graph)
    ensures !NewsfeedFilter(Authenticated(u), p, graph)
  {
  }

  /** The converse fails for a soft-deleted post: a deleted PUBLIC post passes
      the read check for every viewer and is in nobody's newsfeed. */
  lemma DeletedPostReadableButNotListed(v: Viewer, p: Post, graph: seq<Follow>)
    requires p.isDeleted && p.privacy == Public
    ensures PostPrivacyPermission(v, p, graph)
    ensures !NewsfeedFilter(v, p, graph)
  {
  }

  /** Concrete instances of the two counterexamples: a moderator (user 1)
      reading a PRIVATE post of user 2, and user 3 reading their own FOLLOWERS
      post with an empty follow graph. */
  lemma ReadCheckStrictlyWiderThanNewsfeed()
    ensures var moderator := Authenticated(User(1, RoleModerator));
            var hidden := Post(10, 2, "", Private, false, 0);
            PostPrivacyPermission(moderator, hidden, []) && !NewsfeedFilter(moderator, hidden, [])
    ensures var author := Authenticated(User(3, RoleUser));
            var own := Post(11, 3, "", Followers, false, 0);
            PostPrivacyPermission(author, own, []) && !NewsfeedFilter(author, own, [])
  {
  }

  /** Exactly these differences separate the two forms for a plain user:
      the newsfeed keeps a post iff it is not deleted, passes the read check
      and is not the viewer's own FOLLOWERS post. */
  lemma PlainUserNewsfeedVersusReadCheck(u: User, p: Post, graph: seq<Follow>)
    requires u.role == RoleUser && NoSelfFollow(graph)
    ensures NewsfeedFilter(Authenticated(u), p, graph) <==>
      !p.isDeleted && PostPrivacyPermission(Authenticated(u), p, graph) &&
      !(p.privacy == Followers && p.author == u.id)
  {
  }

  /** For the anonymous viewer the two forms differ only by the soft-delete flag. */
  lemma AnonymousNewsfeedVersusReadCheck(p: Post, graph: seq<Follow>)
    ensures NewsfeedFilter(Anonymous, p, graph) <==> !p.isDeleted && PostPrivacyPermission(Anonymous, p, graph)
  {
  }
}

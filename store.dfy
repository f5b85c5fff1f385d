/** The write side of posts/views.py: the `perform_create` of the four view
    sets, as methods on the store they append rows to, with the guards that
    keep one Like per (user, post) and a follow graph without self-loops or
    repeated edges. */
module PostStore {
  import opened Collections
  import opened Accounts
  import opened PostModels

  /** Why a creation request is refused. */
  datatype CreateError =
    | PostNotFound      // no `post` in the request data, or no post with that id
    | AlreadyLiked      // "You have already liked this post."
    | SelfFollow        // "You cannot follow yourself."
    | AlreadyFollowing  // "You are already following this user."

  /** Some stored post has this id (`Post.objects.get(pk=...)` succeeds). */
  predicate PostExists(posts: seq<Post>, pid: PostId) {
    exists p :: p in posts && p.id == pid
  }

  /** The rows of the four tables. Primary keys come from `nextId`, which is
      larger than every key handed out so far. */
  class Store {
    var posts: seq<Post>
    var comments: seq<Comment>
    var likes: seq<Like>
    var follows: seq<Follow>
    var nextId: nat

    ghost predicate Valid()
      reads this
    {
      (forall p :: p in posts ==> p.id < nextId) &&
      (forall c :: c in comments ==> c.id < nextId) &&
      (forall l :: l in likes ==> l.id < nextId) &&
      (forall f :: f in follows ==> f.id < nextId) &&
      UniqueBy(posts, PostKey) && UniqueBy(comments, CommentKey) &&
      UniqueBy(likes, LikeKey) && UniqueBy(follows, FollowKey) &&
      OneLikePerUserAndPost(likes) &&
      NoSelfFollow(follows) && NoDuplicateFollow(follows)
    }

    constructor ()
      ensures Valid()
      ensures posts == [] && comments == [] && likes == [] && follows == []
    {
      posts, comments, likes, follows := [], [], [], [];
      nextId := 0;
    }

    /** `PostViewSet.perform_create`: the author is the caller; the new post is
        not deleted and is stamped with the current time. */
    method CreatePost(caller: User, content: string, privacy: Privacy, now: int) returns (p: Post)
      requires Valid()
      modifies this
      ensures Valid()
      ensures p.author == caller.id && p.content == content && p.privacy == privacy
      ensures !p.isDeleted && p.createdAt == now
      ensures forall q :: q in old(posts) ==> q.id != p.id
      ensures posts == old(posts) + [p]
      ensures comments == old(comments) && likes == old(likes) && follows == old(follows)
    {
      p := Post(nextId, caller.id, content, privacy, false, now);
      UniqueByAppend(posts, p, PostKey);
      posts := posts + [p];
      nextId := nextId + 1;
    }

    /** `CommentViewSet.perform_create`: the author is the caller and the post
        is the one named in the request; the post's visibility to the caller is
        not checked. */
    method CreateComment(caller: User, postParam: Option<PostId>, content: string, now: int)
      returns (r: Result<Comment, CreateError>)
      requires Valid()
      modifies this
      ensures Valid()
      ensures r.Err? <==> postParam.None? || !PostExists(old(posts), postParam.value)
      ensures r.Err? ==> r.error == PostNotFound && unchanged(this)
      ensures r.Ok? ==>
        r.value.author == caller.id && r.value.post == postParam.value &&
        r.value.content == content && r.value.createdAt == now &&
        (forall c :: c in old(comments) ==> c.id != r.value.id) &&
        comments == old(comments) + [r.value] &&
        posts == old(posts) && likes == old(likes) && follows == old(follows)
    {
      if postParam.None? || !PostExists(posts, postParam.value) {
        return Err(PostNotFound);
      }
      var c := Comment(nextId, postParam.value, caller.id, content, now);
      UniqueByAppend(comments, c, CommentKey);
      comments := comments + [c];
      nextId := nextId + 1;
      r := Ok(c);
    }

    /** `LikeViewSet.perform_create`: the post must exist and the caller must
        not have liked it yet; the post's visibility is not checked. */
    method CreateLike(caller: User, postParam: Option<PostId>, now: int)
      returns (r: Result<Like, CreateError>)
      requires Valid()
      modifies this
      ensures Valid()
      ensures r == Err(PostNotFound) <==> postParam.None? || !PostExists(old(posts), postParam.value)
      ensures r == Err(AlreadyLiked) <==>
        postParam.Some? && PostExists(old(posts), postParam.value) &&
        HasLiked(old(likes), postParam.value, caller.id)
      ensures r.Err? ==> (r.error == PostNotFound || r.error == AlreadyLiked) && unchanged(this)
      ensures r.Ok? ==>
        r.value.user == caller.id && r.value.post == postParam.value && r.value.createdAt == now &&
        (forall l :: l in old(likes) ==> l.id != r.value.id) &&
        likes == old(likes) + [r.value] &&
        posts == old(posts) && comments == old(comments) && follows == old(follows)
    {
      if postParam.None? || !PostExists(posts, postParam.value) {
        return Err(PostNotFound);
      }
      var pid := postParam.value;
      if HasLiked(likes, pid, caller.id) {
        return Err(AlreadyLiked);
      }
      var l := Like(nextId, pid, caller.id, now);
      UniqueByAppend(likes, l, LikeKey);
      AddLikeKeepsOnePerPair(likes, l);
      likes := likes + [l];
      nextId := nextId + 1;
      r := Ok(l);
    }

    /** `FollowViewSet.perform_create`: no self-follow and no repeated edge;
        the follower is the caller. */
    method CreateFollow(caller: User, target: UserId)
      returns (r: Result<Follow, CreateError>)
      requires Valid()
      modifies this
      ensures Valid()
      ensures r == Err(SelfFollow) <==> target == caller.id
      ensures r == Err(AlreadyFollowing) <==> target != caller.id && IsFollowing(old(follows), caller.id, target)
      ensures r.Err? ==> (r.error == SelfFollow || r.error == AlreadyFollowing) && unchanged(this)
      ensures r.Ok? ==>
        r.value.follower == caller.id && r.value.following == target &&
        (forall f :: f in old(follows) ==> f.id != r.value.id) &&
        follows == old(follows) + [r.value] &&
        posts == old(posts) && comments == old(comments) && likes == old(likes)
    {
      if target == caller.id {
        return Err(SelfFollow);
      }
      if IsFollowing(follows, caller.id, target) {
        return Err(AlreadyFollowing);
      }
      var f := Follow(nextId, caller.id, target);
      UniqueByAppend(follows, f, FollowKey);
      AddFollowKeepsGraphInvariants(follows, f);
      follows := follows + [f];
      nextId := nextId + 1;
      r := Ok(f);
    }
  }

  /** Liking the same post twice: the first request succeeds, the second is
      refused as a duplicate. */
  method LikeTwice(store: Store, caller: User, pid: PostId, now: int)
    returns (first: Result<Like, CreateError>, second: Result<Like, CreateError>)
    requires store.Valid()
    requires PostExists(store.posts, pid) && !HasLiked(store.likes, pid, caller.id)
    modifies store
    ensures store.Valid()
    ensures first.Ok? && second == Err(AlreadyLiked)
    ensures store.likes == old(store.likes) + [first.value]
    ensures store.posts == old(store.posts) && store.comments == old(store.comments) && store.follows == old(store.follows)
  {
    first := store.CreateLike(caller, Some(pid), now);
    assert first.value in store.likes;
    second := store.CreateLike(caller, Some(pid), now);
  }

  /** Following the same user twice: the first request succeeds, the second
      is refused as a duplicate; following oneself is always refused. */
  method FollowTwice(store: Store, caller: User, target: UserId)
    returns (first: Result<Follow, CreateError>, second: Result<Follow, CreateError>, selfFollow: Result<Follow, CreateError>)
    requires store.Valid()
    requires target != caller.id && !IsFollowing(store.follows, caller.id, target)
    modifies store
    ensures store.Valid()
    ensures first.Ok? && second == Err(AlreadyFollowing) && selfFollow == Err(SelfFollow)
    ensures store.follows == old(store.follows) + [first.value]
    ensures store.posts == old(store.posts) && store.comments == old(store.comments) && store.likes == old(store.likes)
  {
    first := store.CreateFollow(caller, target);
    assert first.value in store.follows;
    second := store.CreateFollow(caller, target);
    selfFollow := store.CreateFollow(caller, caller.id);
  }
}

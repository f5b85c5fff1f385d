/** The content entities of the posts app (Post, Comment, Like, Follow),
    reconstructed from how the views and permissions use them, and the
    follow-graph invariants the creation guards protect. */
module PostModels {
  import opened Accounts

  type PostId = nat

  /** `Post.privacy`. A stored value that is none of the three tiers is kept
      as `Unrecognised`, so that the checks' fall-through cases can be stated. */
  datatype Privacy = Public | Followers | Private | Unrecognised(raw: string)

  datatype Post = Post(
    id: PostId,
    author: UserId,
    content: string,
    privacy: Privacy,
    isDeleted: bool,
    createdAt: int)

  datatype Comment = Comment(id: nat, post: PostId, author: UserId, content: string, createdAt: int)

  datatype Like = Like(id: nat, post: PostId, user: UserId, createdAt: int)

  /** A directed edge: `follower` follows `following`. */
  datatype Follow = Follow(id: nat, follower: UserId, following: UserId)

  /** Primary keys and parent keys, as function values for the generic helpers. */
  function PostKey(p: Post): nat { p.id }
  function CommentKey(c: Comment): nat { c.id }
  function CommentPost(c: Comment): nat { c.post }
  function LikeKey(l: Like): nat { l.id }
  function LikePost(l: Like): nat { l.post }
  function FollowKey(f: Follow): nat { f.id }

  /** A Follow row with these endpoints exists
      (`Follow.objects.filter(follower=..., following=...).exists()`). */
  predicate IsFollowing(graph: seq<Follow>, follower: UserId, following: UserId) {
    exists f :: f in graph && f.follower == follower && f.following == following
  }

  /** A Like row for this (post, user) pair exists. */
  predicate HasLiked(likes: seq<Like>, post: PostId, user: UserId) {
    exists l :: l in likes && l.post == post && l.user == user
  }

  /** At most one Like per (user, post). */
  ghost predicate OneLikePerUserAndPost(likes: seq<Like>) {
    forall i, j :: 0 <= i < j < |likes| ==>
      !(likes[i].post == likes[j].post && likes[i].user == likes[j].user)
  }

  /** Nobody follows themself. */
  ghost predicate NoSelfFollow(graph: seq<Follow>) {
    forall f :: f in graph ==> f.follower != f.following
  }

  /** At most one edge per ordered pair. */
  ghost predicate NoDuplicateFollow(graph: seq<Follow>) {
    forall i, j :: 0 <= i < j < |graph| ==>
      !(graph[i].follower == graph[j].follower && graph[i].following == graph[j].following)
  }

  /** Adding a Like for a pair that has none keeps the pair unique. */
  lemma AddLikeKeepsOnePerPair(likes: seq<Like>, l: Like)
    requires OneLikePerUserAndPost(likes)
    requires !HasLiked(likes, l.post, l.user)
    ensures OneLikePerUserAndPost(likes + [l])
  {
  }

  /** Adding an edge that is no self-loop and not yet present keeps both
      follow-graph invariants. */
  lemma AddFollowKeepsGraphInvariants(graph: seq<Follow>, f: Follow)
    requires NoSelfFollow(graph) && NoDuplicateFollow(graph)
    requires f.follower != f.following
    requires !IsFollowing(graph, f.follower, f.following)
    ensures NoSelfFollow(graph + [f]) && NoDuplicateFollow(graph + [f])
  {
  }

  /** Under the no-self-loop invariant, nobody is found following themself. */
  lemma NoSelfFollowMeansNotFollowingSelf(graph: seq<Follow>, u: UserId)
    requires NoSelfFollow(graph)
    ensures !IsFollowing(graph, u, u)
  {
  }
}

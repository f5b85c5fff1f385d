/** The two object-level permission classes of posts/permissions.py: the write
    rule for owned objects and the privacy-tier read rule for posts. */
module Permissions {
  import opened Collections
  import opened Accounts
  import opened PostModels

  datatype HttpMethod = GET | HEAD | OPTIONS | POST | PUT | PATCH | DELETE

  /** DRF's `SAFE_METHODS`: the read-only methods. */
  predicate IsSafe(m: HttpMethod) {
    m == GET || m == HEAD || m == OPTIONS
  }

  /** `user.role in ('moderator', 'admin')`. */
  predicate HasElevatedRole(u: User) {
    u.role.Value() == ROLE_MOD || u.role.Value() == ROLE_ADMIN
  }

  /** The role test written inline here agrees with the model's
      `is_moderator()` / `is_admin()`. */
  lemma ElevatedIsModeratorOrAdmin(u: User)
    ensures HasElevatedRole(u) <==> IsModerator(u) || IsAdmin(u)
    ensures HasElevatedRole(u) <==> u.role != RoleUser
  {
  }

  /** An object the write rule may be asked about. Posts and comments carry
      an `author` attribute; likes and follows do not. */
  datatype Target =
    | PostTarget(post: Post)
    | CommentTarget(comment: Comment)
    | LikeTarget(like: Like)
    | FollowTarget(follow: Follow)

  /** `hasattr(obj, 'author')` and, when present, its value. */
  function AuthorOf(t: Target): Option<UserId> {
    match t
    case PostTarget(p) => Some(p.author)
    case CommentTarget(c) => Some(c.author)
    case LikeTarget(_) => None
    case FollowTarget(_) => None
  }

  /** `obj.author == user`: never true of the anonymous user. */
  predicate AuthorIs(t: Target, v: Viewer) {
    AuthorOf(t).Some? && v.Authenticated? && AuthorOf(t).value == v.user.id
  }

  /** `IsOwnerOrModeratorOrAdmin.has_object_permission`. */
  predicate IsOwnerOrModeratorOrAdmin(v: Viewer, m: HttpMethod, t: Target) {
    if IsSafe(m) then true
    else AuthorIs(t, v) || (v.Authenticated? && HasElevatedRole(v.user))
  }

  /** `PostPrivacyPermission.has_object_permission`. */
  predicate PostPrivacyPermission(v: Viewer, p: Post, graph: seq<Follow>) {
    if p.privacy == Public then true
    else if v.Anonymous? then false
    else if HasElevatedRole(v.user) then true
    else if p.privacy == Private then p.author == v.user.id
    else if p.privacy == Followers then
      if p.author == v.user.id then true
      else IsFollowing(graph, v.user.id, p.author)
    else false
  }

  // ---- The read rule, tier by tier ----

  /** A PUBLIC post is readable by every viewer, the anonymous one included. */
  lemma PublicReadableByAll(v: Viewer, p: Post, graph: seq<Follow>)
    requires p.privacy == Public
    ensures PostPrivacyPermission(v, p, graph)
  {
  }

  /** Nothing but PUBLIC is readable anonymously. */
  lemma AnonymousReadsOnlyPublic(p: Post, graph: seq<Follow>)
    ensures PostPrivacyPermission(Anonymous, p, graph) <==> p.privacy == Public
  {
  }

  /** Moderators and admins read every post, whatever its tier. */
  lemma ElevatedReadsAll(u: User, p: Post, graph: seq<Follow>)
    requires IsModerator(u) || IsAdmin(u)
    ensures PostPrivacyPermission(Authenticated(u), p, graph)
  {
  }

  /** For a plain user, a PRIVATE post is readable exactly by its author. */
  lemma PrivateReadableIffAuthor(u: User, p: Post, graph: seq<Follow>)
    requires u.role == RoleUser && p.privacy == Private
    ensures PostPrivacyPermission(Authenticated(u), p, graph) <==> p.author == u.id
  {
  }

  /** For a plain user, a FOLLOWERS post is readable exactly by its author
      and by the users who follow the author. */
  lemma FollowersReadableIffAuthorOrFollower(u: User, p: Post, graph: seq<Follow>)
    requires u.role == RoleUser && p.privacy == Followers
    ensures PostPrivacyPermission(Authenticated(u), p, graph)
        <==> p.author == u.id || IsFollowing(graph, u.id, p.author)
  {
  }

  /** An unrecognised tier is readable by moderators and admins only, and the
      soft-delete flag never changes the answer. */
  lemma ReadRuleFallThroughAndDeletion(v: Viewer, p: Post, graph: seq<Follow>, deleted: bool)
    ensures p.privacy.Unrecognised? ==>
      (PostPrivacyPermission(v, p, graph) <==> v.Authenticated? && HasElevatedRole(v.user))
    ensures PostPrivacyPermission(v, p.(isDeleted := deleted), graph) == PostPrivacyPermission(v, p, graph)
  {
  }

  /** The read rule in one statement: for a plain user the tiers, for an
      elevated one everything, for the anonymous one PUBLIC only. */
  lemma ReadRuleCharacterised(v: Viewer, p: Post, graph: seq<Follow>)
    ensures PostPrivacyPermission(v, p, graph) <==>
      p.privacy == Public ||
      (v.Authenticated? &&
        (HasElevatedRole(v.user) ||
         (p.privacy == Private && p.author == v.user.id) ||
         (p.privacy == Followers && (p.author == v.user.id || IsFollowing(graph, v.user.id, p.author)))))
  {
  }

  // ---- The write rule ----

  /** Safe methods always pass; otherwise exactly the author (when the
      object has one) and authenticated moderators and admins pass. */
  lemma WriteRuleCharacterised(v: Viewer, m: HttpMethod, t: Target)
    ensures IsSafe(m) ==> IsOwnerOrModeratorOrAdmin(v, m, t)
    ensures !IsSafe(m) ==>
      (IsOwnerOrModeratorOrAdmin(v, m, t) <==>
        v.Authenticated? &&
        ((AuthorOf(t).Some? && AuthorOf(t).value == v.user.id) || IsModerator(v.user) || IsAdmin(v.user)))
  {
  }

  /** The anonymous user never writes, and an object without an author is
      writable only by moderators and admins. */
  lemma WriteRuleExclusions(v: Viewer, m: HttpMethod, t: Target)
    requires !IsSafe(m)
    ensures !IsOwnerOrModeratorOrAdmin(Anonymous, m, t)
    ensures AuthorOf(t).None? ==>
      (IsOwnerOrModeratorOrAdmin(v, m, t) <==> v.Authenticated? && HasElevatedRole(v.user))
  {
  }
}

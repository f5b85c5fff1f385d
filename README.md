# Visibility and permission model of the Connectly posts app

This project models, in Dafny, the part of the Connectly social-network
backend that decides who may read and who may change posts, and what the
listing endpoints return to a caller, together with the user roles that those
decisions depend on.

- **Roles** (`Accounts`): a user has an id and a role whose stored value is
  `user`, `moderator` or `admin`, defaulting to `user`. The model has
  `is_moderator()`, `is_admin()` and validation of a stored role string.
  A request's caller (`Viewer`) is the anonymous user or an authenticated user.
- **Content** (`PostModels`): posts carry an author, a privacy tier
  (PUBLIC / FOLLOWERS / PRIVATE, or an unrecognised stored value), a
  soft-delete flag and a creation time. Comments and likes point at a post.
  Follow rows are directed edges. The module also holds the invariants the
  creation guards protect: one Like per (user, post), no self-follow, and no
  repeated edge.
- **Per-object rules** (`Permissions`): the read rule `PostPrivacyPermission`
  and the write rule `IsOwnerOrModeratorOrAdmin` of `posts/permissions.py`,
  both as pure predicates of the caller, the object and the follow graph.
- **Listings** (`Views`): the write rule of the post view set, and the four
  `get_queryset` filters. These are the newsfeed (filtered, annotated with
  distinct like and comment counts, newest first), the comment listing
  (newest first), the like listing and the follow listing. All of them are
  functions over the store's rows.
- **Creation** (`PostStore`): a `Store` class whose four tables are `seq`
  fields. Its methods model the `perform_create` of each view set: they check
  the guard, then append one row or leave the store unchanged and return the
  error.
- **The two forms of the rule** (`Consistency`): every post in a listing
  passes the per-object read check, but not the other way round.

`Collections` holds the generic helpers: `Filter`, an insertion sort by key
that puts the largest first, and distinct counting.

Behaviour of the code that the model keeps, and that a reader might not
expect:

- The per-object read check never looks at `is_deleted`. A soft-deleted
  PUBLIC post passes it for everyone (`Consistency.DeletedPostReadableButNotListed`).
- The bulk filters have no moderator/admin override. They also show a
  FOLLOWERS post only when its author is followed, and self-follow is
  refused, so authors never see their own FOLLOWERS posts in the newsfeed
  (`Consistency.OwnFollowersPostMissingFromNewsfeed`).
- Ordering is by `created_at` alone, with no secondary key.
- Comment and like creation do not check that the caller can see the post.

## Model

| member | source | states |
|---|---|---|
| `Accounts.ParseRole` | Backend/accounts/models.py:19-27 | an accepted role string is the stored value of the role returned |
| `Accounts.ParseRoleExact` | Backend/accounts/models.py:19-27 | every role round-trips through its stored value; only `user`, `moderator` and `admin` are accepted |
| `Accounts.NewUser` | Backend/accounts/models.py:27 | a new user's role is the default `user` |
| `Accounts.RolePredicatesExact` | Backend/accounts/models.py:72-76 | `is_moderator()` holds iff the role is moderator, `is_admin()` iff it is admin |
| `Accounts.RolesExclusive` | Backend/accounts/models.py:72-76 | no user is both moderator and admin; a plain or new user is neither |
| `Permissions.ElevatedIsModeratorOrAdmin` | Backend/posts/permissions.py:27 | `role in ('moderator', 'admin')` holds iff `is_moderator() or is_admin()`, i.e. iff the role is not `user` |
| `Permissions.PublicReadableByAll` | Backend/posts/permissions.py:20-22 | a PUBLIC post is readable by every viewer, the anonymous one included |
| `Permissions.AnonymousReadsOnlyPublic` | Backend/posts/permissions.py:20-24 | the anonymous viewer can read a post iff it is PUBLIC |
| `Permissions.ElevatedReadsAll` | Backend/posts/permissions.py:25-28 | a moderator or admin can read every post of every tier |
| `Permissions.PrivateReadableIffAuthor` | Backend/posts/permissions.py:29-30 | for a plain user a PRIVATE post is readable iff the user is its author |
| `Permissions.FollowersReadableIffAuthorOrFollower` | Backend/posts/permissions.py:31-35 | for a plain user a FOLLOWERS post is readable iff the user is its author or a Follow(follower = user, following = author) exists |
| `Permissions.ReadRuleFallThroughAndDeletion` | Backend/posts/permissions.py:20-36 | an unrecognised tier is readable only by authenticated moderators and admins; the soft-delete flag never changes the answer |
| `Permissions.ReadRuleCharacterised` | Backend/posts/permissions.py:20-36 | the whole read rule as one if-and-only-if over tier, authentication, role, authorship and the follow graph |
| `Permissions.WriteRuleCharacterised` | Backend/posts/permissions.py:7-11 | safe methods always pass; otherwise the rule passes iff the caller is authenticated and is the object's author or a moderator or admin |
| `Permissions.WriteRuleExclusions` | Backend/posts/permissions.py:7-11 | for a mutating method the anonymous user never passes, and an object without an author passes only for moderators and admins |
| `Views.PostWriteRule` | Backend/posts/views.py:8-16 | reads always pass; a mutation passes iff the caller is the post's author or has a role other than `user`; the rule agrees with the owner rule of permissions.py on posts |
| `Views.FollowingIdsExact` | Backend/posts/views.py:28-29 | a user is in `following_ids` iff the viewer follows them |
| `Views.NewsfeedExact` | Backend/posts/views.py:24-41 | a row is in the newsfeed iff its post is stored and passes the filter and its counts are the post's counts; rows are ordered by `created_at` non-increasing; its multiset is that of the annotated passing posts |
| `Views.NewsfeedRowMultiplicity` | Backend/posts/views.py:24-41 | each post's row occurs in the newsfeed exactly as often as the post is stored if it passes the filter, and not at all otherwise |
| `Views.AnonymousNewsfeed` | Backend/posts/views.py:32-33 | the anonymous newsfeed is exactly the non-deleted PUBLIC posts |
| `Views.AuthenticatedNewsfeed` | Backend/posts/views.py:26-31 | for an authenticated viewer a post is listed iff it is not deleted and is PUBLIC, or FOLLOWERS by a followed author, or PRIVATE by the viewer; no deleted post is ever listed |
| `Views.NewsfeedCounts` | Backend/posts/views.py:36-38 | with unique primary keys, `likes_count` and `comments_count` equal the numbers of like and comment rows on the post |
| `Views.FilterFormsAgree` | Backend/posts/views.py:57-62 | the join on the author's followers selects the same posts as the `following_ids` filter of the newsfeed |
| `Views.CommentListingExact` | Backend/posts/views.py:52-71 | the comment listing holds exactly the comments on a visible post, narrowed to the `post` parameter when given, each as often as it is stored, newest first |
| `Views.LikeListingExact` | Backend/posts/views.py:83-98 | the like listing holds exactly the likes on a visible post, narrowed to the `post` parameter when given, each as often as it is stored |
| `Views.FollowListingExact` | Backend/posts/views.py:113-114 | the follow listing is exactly the edges whose follower is the caller, each as often as it is stored |
| `Views.AnonymousSeesNoCommentsOfHiddenPost` | Backend/posts/views.py:63-69 | an anonymous request for the comments of a post that is not PUBLIC returns nothing |
| `Views.FollowingScenario` | Backend/posts/views.py:26-31 | a viewer not following an author sees that author's PUBLIC post only; after following, the PUBLIC and FOLLOWERS posts |
| `Collections.SortDescCorrect` | Backend/posts/views.py:39 | the `-created_at` ordering is a permutation of its input and is non-increasing in the key |
| `Collections.FilterAppend` | Backend/posts/views.py:93-98 | the model's filter keeps store order, the order the model chooses where `LikeViewSet.get_queryset` sets none: filtering a concatenation gives the concatenation of the filtered parts |
| `Collections.DistinctIdsCount` | Backend/posts/views.py:36-38 | with unique ids, the distinct-id count of a group equals the number of its rows |
| `PostModels.AddLikeKeepsOnePerPair` | Backend/posts/views.py:103-105 | appending a Like for a pair with no Like keeps at most one Like per (user, post) |
| `PostModels.AddFollowKeepsGraphInvariants` | Backend/posts/views.py:118-122 | appending an edge that is no self-loop and not present keeps both follow-graph invariants |
| `PostModels.NoSelfFollowMeansNotFollowingSelf` | Backend/posts/views.py:118-119 | with no self-loops, nobody is found following themself |
| `PostStore.Store.CreatePost` | Backend/posts/views.py:43-44 | exactly one post is appended, authored by the caller, not deleted, with a fresh id; other tables unchanged; store invariant kept |
| `PostStore.Store.CreateComment` | Backend/posts/views.py:73-75 | without an existing post it fails and changes nothing; otherwise it appends exactly one comment by the caller on that post, with no visibility check |
| `PostStore.Store.CreateLike` | Backend/posts/views.py:100-105 | post not found, or an existing Like for (post, caller), fails and changes nothing; otherwise exactly one Like by the caller is appended and one Like per (user, post) is kept |
| `PostStore.Store.CreateFollow` | Backend/posts/views.py:116-122 | self-follow and an existing (caller, target) edge fail and change nothing; otherwise exactly one edge from the caller is appended and both graph invariants are kept |
| `PostStore.LikeTwice` | Backend/posts/views.py:100-105 | liking a post twice: the first request succeeds and the second fails as already liked; only the one like is added, and the other tables are unchanged |
| `PostStore.FollowTwice` | Backend/posts/views.py:116-122 | following twice: the first request succeeds, the second fails as already following, and following oneself fails; only the one edge is added, and the other tables are unchanged |
| `Consistency.NewsfeedFilterImpliesReadable` | Backend/posts/views.py:26-33 | every post the newsfeed filter keeps passes the per-object read check |
| `Consistency.ListingsAreReadable` | Backend/posts/views.py:56-66 | every newsfeed row, and the post of every listed comment and like, passes the per-object read check |
| `Consistency.ElevatedReadsBeyondNewsfeed` | Backend/posts/permissions.py:25-28 | a moderator or admin can read someone else's PRIVATE post, but it is not in their newsfeed |
| `Consistency.ElevatedWriteUnreachable` | Backend/posts/views.py:20-41 | a moderator or admin passes the post write rule on another user's PRIVATE post, but the post is not in their newsfeed, through which the view set looks objects up |
| `Consistency.OwnFollowersPostMissingFromNewsfeed` | Backend/posts/permissions.py:31-33 | with no self-follow, an author can read their own FOLLOWERS post, but it is not in their newsfeed |
| `Consistency.DeletedPostReadableButNotListed` | Backend/posts/permissions.py:20-22 | a deleted PUBLIC post passes the read check for every viewer and is in nobody's newsfeed |
| `Consistency.ReadCheckStrictlyWiderThanNewsfeed` | Backend/posts/views.py:26-31 | concrete counterexamples to the converse: a moderator with a PRIVATE post, and an author with their own FOLLOWERS post |
| `Consistency.PlainUserNewsfeedVersusReadCheck` | Backend/posts/views.py:26-31 | for a plain user, the newsfeed keeps a post iff it is not deleted, passes the read check and is not the user's own FOLLOWERS post |
| `Consistency.AnonymousNewsfeedVersusReadCheck` | Backend/posts/views.py:32-33 | for the anonymous viewer, the newsfeed keeps a post iff it is not deleted and passes the read check |

## Left out

- The encrypted `phone` and `address` fields and `get_fernet` (accounts/models.py:8-70), and the Fernet wrapper with its key-file I/O. They depend on a foreign cipher library and on the environment.
- Configuration, URL routing and the encryption management command. They contain no visibility logic.
- The serializers' field declarations. The model takes the caller-set fields (author, user, follower) from the caller. It takes a post's content and privacy, and a follow's target, as parameters. As declared, `PostSerializer` marks every field read-only (serializers.py:54), and `FollowSerializer` marks `following` read-only (serializers.py:60). So neither of those values would reach `perform_create`. The model follows what the views intend instead.
- The class-level gates `IsAuthenticatedOrReadOnly` and `IsAuthenticated`. In the model they become the caller's type: `User` rather than `Viewer` for like, follow and every creation. For `Views.IsAuthorOrModeratorOrAdmin` they become a precondition that a mutating caller is authenticated.
- Update, partial update and destroy, the default view-set actions. Only their permission checks are modelled.
- Ordering ties. The source orders by `created_at` alone, so the database picks the order of equal timestamps. The model uses one fixed order and claims only sortedness and permutation. `LikeViewSet.get_queryset` adds no `order_by`, and the model keeps store order (`Collections.FilterAppend`). A default `Meta.ordering` on `Like` would live in posts/models.py, which is not part of this model.
- Clock and primary keys. The current time is a parameter. All ids come from one counter in the store, whereas the database keeps one sequence per table. Only uniqueness is relied on.
- A `post` id that is missing or names no post. For comments this is the database's integrity error, and for likes it is `Post.objects.get` failing. Both appear as one error, `PostNotFound`. A malformed (non-numeric) id is not modelled, because ids are natural numbers.
- Whether a follow target user exists. That check belongs to the serializer and the database, and users are represented by ids only.
- Storage-level uniqueness constraints and the race between two concurrent duplicate creates. This is concurrency, and the model's creations are atomic.
- `updated_at`, which is not consulted by any rule.
- A missing `request.user`, which is folded into the anonymous viewer.
- Soft deletion. views.py, permissions.py and serializers.py never set `is_deleted`. DELETE calls `instance.delete()`, and its definition in posts/models.py is not part of this model.
- Role values outside the three choices. Django does not enforce `choices` in the database, but `Role` has only the three declared values. Every modelled decision treats an unknown role like `user`: `is_moderator()`, `is_admin()` and `role in ('moderator', 'admin')` are all false for it. Still, the wording "a role other than `user`" in `Views.PostWriteRule` and `Permissions.ElevatedIsModeratorOrAdmin` is exact only because the type has three values. For an unknown stored role it should read "neither moderator nor admin".
- The `PostPrivacyPermission` class is attached to no view set. It is modelled on its own and related to the listings in `Consistency`.
- The `IsOwnerOrModeratorOrAdmin` class of permissions.py is attached to no view set either. `PostViewSet` uses its own `IsAuthorOrModeratorOrAdmin` (views.py:8-16). The generic rule is modelled on its own, and `Views.PostWriteRule` shows that the two agree on posts.
- `CommentViewSet` (views.py:50) and `LikeViewSet` (views.py:81) have no per-object write check. Any authenticated caller may update or delete any comment or like in their own listing. Update and destroy are not modelled, so the model states nothing about this.
- Object lookup for update and destroy goes through each view set's `get_queryset`. The model shows, in `Consistency.ElevatedWriteUnreachable`, only the consequence for a moderator and another user's PRIVATE post.

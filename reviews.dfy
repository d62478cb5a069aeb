/**
  `ProductSerializer.get_reviews`: the list of reviews nested in a product,
  each with an embedded user record, and the wire shape of such an entry
  (the fields of `ReviewSerializer` and `UserSerializer`).
 */
module Reviews {

  import opened Wrappers
  import opened Urls
  import opened Records
  import ProductImages

  /** The nested `user` record of a review entry: the avatar slot is always
      there, holding None when there is no avatar. */
  datatype ReviewUser = ReviewUser(id: nat, username: string, avatar: Option<string>)

  /** One serialized review. */
  datatype ReviewEntry = ReviewEntry(id: nat, user: ReviewUser, rating: int, comment: string, createdAt: DateTime)

  /** The avatar URL of a review's author, stated through the product-image
      rule: no profile gives None, otherwise the avatar file is resolved by
      the same rule `get_image` applies to a product image. */
  function AvatarUrl(user: User, storageUrl: string -> string, request: Option<Request>): (r: Option<string>)
    ensures r.None? <==> user.profile.None? || !user.profile.value.avatar.IsTruthy()
    ensures r.Some? && request.None? ==> r.value == storageUrl(user.profile.value.avatar.name)
    ensures r.Some? && StartsWithHttp(storageUrl(user.profile.value.avatar.name)) ==>
      r.value == storageUrl(user.profile.value.avatar.name)
    ensures r.Some? && request.Some? && !StartsWithHttp(storageUrl(user.profile.value.avatar.name)) ==>
      r.value == request.value.buildAbsoluteUri(storageUrl(user.profile.value.avatar.name))
  {
    match user.profile
    case None => None
    case Some(profile) => ProductImages.ResolveFileUrl(profile.avatar, storageUrl, request)
  }

  /** The entry for one review: its own fields copied, its author's id and
      username copied, and the avatar by the rule above. */
  function SerializeReview(review: Review, storageUrl: string -> string, request: Option<Request>): (e: ReviewEntry)
    ensures e.id == review.id && e.rating == review.rating
    ensures e.comment == review.comment && e.createdAt == review.createdAt
    ensures e.user.id == review.user.id && e.user.username == review.user.username
    ensures e.user.avatar.None? <==>
      review.user.profile.None? || !review.user.profile.value.avatar.IsTruthy()
  {
    ReviewEntry(
      review.id,
      ReviewUser(review.user.id, review.user.username, AvatarUrl(review.user, storageUrl, request)),
      review.rating,
      review.comment,
      review.createdAt)
  }

  /** The review list: one entry per review, in the order of the reviews. */
  function SerializeReviews(reviews: seq<Review>, storageUrl: string -> string, request: Option<Request>): (entries: seq<ReviewEntry>)
    ensures |entries| == |reviews|
    ensures forall k {:trigger entries[k]} :: 0 <= k < |reviews| ==> entries[k] == SerializeReview(reviews[k], storageUrl, request)
  {
    if reviews == [] then []
    else [SerializeReview(reviews[0], storageUrl, request)] + SerializeReviews(reviews[1..], storageUrl, request)
  }

  /** `get_reviews`: walks the reviews, computes each author's avatar URL step
      by step and appends one entry per review. */
  method GetReviews(reviews: seq<Review>, storageUrl: string -> string, request: Option<Request>)
    returns (serializedReviews: seq<ReviewEntry>)
    ensures serializedReviews == SerializeReviews(reviews, storageUrl, request)
  {
    serializedReviews := [];
    for i := 0 to |reviews|
      invariant |serializedReviews| == i
      invariant forall k :: 0 <= k < i ==>
        serializedReviews[k] == SerializeReview(reviews[k], storageUrl, request)
    {
      var r := reviews[i];
      var avatarUrl: Option<string> := None;
      if r.user.profile.Some? && r.user.profile.value.avatar.IsTruthy() {
        var url := storageUrl(r.user.profile.value.avatar.name);
        avatarUrl := Some(url);
        if !StartsWithHttp(url) {
          if request.Some? {
            avatarUrl := Some(request.value.buildAbsoluteUri(url));
          }
        }
      }
      serializedReviews := serializedReviews + [ReviewEntry(
        r.id,
        ReviewUser(r.user.id, r.user.username, avatarUrl),
        r.rating,
        r.comment,
        r.createdAt)];
    }
  }

  /** Serializing two runs of reviews one after the other gives the two
      lists one after the other: the order of the reviews is the order of
      the entries. */
  lemma {:induction false} SerializeReviewsAppend(a: seq<Review>, b: seq<Review>, storageUrl: string -> string, request: Option<Request>)
    ensures SerializeReviews(a + b, storageUrl, request) ==
      SerializeReviews(a, storageUrl, request) + SerializeReviews(b, storageUrl, request)
  {
    if a != [] {
      assert (a + b)[1..] == a[1..] + b;
      SerializeReviewsAppend(a[1..], b, storageUrl, request);
    }
  }

  /** An author whose avatar, if any, is already on a remote host. */
  predicate HasRemoteOrNoAvatar(user: User, storageUrl: string -> string)
  {
    user.profile.Some? && user.profile.value.avatar.IsTruthy() ==>
      StartsWithHttp(storageUrl(user.profile.value.avatar.name))
  }

  /** When every author's avatar is remote or absent, the review list does
      not depend on the request. */
  lemma {:induction false} RemoteAvatarsIgnoreRequest(reviews: seq<Review>, storageUrl: string -> string, r1: Option<Request>, r2: Option<Request>)
    requires forall k :: 0 <= k < |reviews| ==> HasRemoteOrNoAvatar(reviews[k].user, storageUrl)
    ensures SerializeReviews(reviews, storageUrl, r1) == SerializeReviews(reviews, storageUrl, r2)
  {
    if reviews != [] {
      assert HasRemoteOrNoAvatar(reviews[0].user, storageUrl);
      RemoteAvatarsIgnoreRequest(reviews[1..], storageUrl, r1, r2);
    }
  }

  /** A JSON-compatible value as handed to the response renderer. */
  datatype Value =
    | Null
    | Int(i: int)
    | Str(s: string)
    | Time(at: DateTime)
    | Object(fields: map<string, Value>)

  const ReviewKeys: set<string> := {"id", "user", "rating", "comment", "created_at"}
  const UserKeys: set<string> := {"id", "username", "avatar"}

  /** The dictionary built for one review. Its keys are those of
      `ReviewSerializer`, the nested user's keys those of `UserSerializer`, and
      the "avatar" key is present with a null value when there is no avatar. */
  function EntryToValue(e: ReviewEntry): (v: Value)
    ensures v.Object? && v.fields.Keys == ReviewKeys
    ensures v.fields["id"] == Int(e.id) && v.fields["rating"] == Int(e.rating)
    ensures v.fields["comment"] == Str(e.comment) && v.fields["created_at"] == Time(e.createdAt)
    ensures v.fields["user"].Object? && v.fields["user"].fields.Keys == UserKeys
    ensures v.fields["user"].fields["id"] == Int(e.user.id)
    ensures v.fields["user"].fields["username"] == Str(e.user.username)
    ensures e.user.avatar.Some? ==> v.fields["user"].fields["avatar"] == Str(e.user.avatar.value)
    ensures v.fields["user"].fields["avatar"] == Null <==> e.user.avatar.None?
  {
    var avatar := match e.user.avatar
      case None => Null
      case Some(url) => Str(url);
    Object(map[
      "id" := Int(e.id),
      "user" := Object(map["id" := Int(e.user.id), "username" := Str(e.user.username), "avatar" := avatar]),
      "rating" := Int(e.rating),
      "comment" := Str(e.comment),
      "created_at" := Time(e.createdAt)])
  }
}

# Catalog serializers: read-side representation rules

This project models the read-side rules of the catalog's REST serializers
(`backend/catalog/serializers.py`) of the Eleganza Home e-commerce backend:

- how `ProductImageSerializer.get_image` turns a stored image reference into
  the URL the client receives (no file gives null; a URL that starts with the
  four letters `http` is a remote host and is kept; otherwise the request, when
  there is one, makes it absolute; otherwise the relative URL is kept);
- how `ProductSerializer.get_reviews` builds the list of reviews nested in a
  product, one dictionary per review with a nested user record of `id`,
  `username` and `avatar`, the avatar resolved by the same rule as a product
  image;
- the fallback branch of `ProductSerializer.get_final_price`: without a
  discount the price is returned unchanged.

Modules: `Wrappers` (Option, for Python's `None`), `Urls` (the request and the
`"http"` prefix test), `Records` (the stored records read), `ProductImages`,
`Pricing` and `Reviews` (the three serializer methods). `get_image` and
`get_final_price` are conditional expressions and are functions here;
`get_reviews` builds its list in a loop and is the method `Reviews.GetReviews`,
proved equal to the specification function `Reviews.SerializeReviews`. That
specification states the avatar through `ProductImages.ResolveFileUrl`, the
rule `GetImage` applies to a product image, so the method's postcondition is
the proof that the step-by-step avatar code of `get_reviews` follows the image
rule.

What the framework supplies is a parameter: the storage backend's `url` of a
file name is `storageUrl: string -> string`, the request found in the
serializer context is an `Option<Request>`, and `Request.buildAbsoluteUri`
stands for `request.build_absolute_uri`. The ORM query for the reviews is the
input sequence `reviews`. A file field's truth value is that of its name, so a
`FieldFile` with the empty name stands for both a null and an empty reference;
a user without a profile row has `profile == None`.

The model follows the code in three places a reader might not expect: a
review whose author has no profile still carries the `avatar` key, with a
null value, rather than leaving the field out; the remote-URL test is the
literal prefix `http` on the URL the storage returns (so `HTTPS://...` is
treated as relative and a relative URL such as `httpd.png` as remote, see
`Urls.LiteralPrefixExamples`), not a scheme parser; and a relative URL is
handed to the request's `build_absolute_uri` rather than joined with a base
URL by the serializer. The product-image rule and the avatar rule are one
function, `ProductImages.ResolveFileUrl`, applied to the image file and to the
avatar file.

## Model

| member | source | states |
|---|---|---|
| Urls.StartsWithHttpChars | backend/catalog/serializers.py:82 | the remote-URL test holds exactly when the first four characters are `h`, `t`, `t`, `p`, case-sensitively |
| Urls.LiteralPrefixExamples | backend/catalog/serializers.py:170 | `http://` and `https://` URLs pass the test, an upper-case scheme and a media path do not, a relative name beginning with `http` does |
| ProductImages.ResolveFileUrl | backend/catalog/serializers.py:75-89 | the URL rule shared by images and avatars: no file gives None and only then; a URL starting with `http` is returned unchanged with or without a request; otherwise a request gives `build_absolute_uri(url)` and no request gives the relative URL; the result is always the stored URL or the builder's output |
| ProductImages.GetImage | backend/catalog/serializers.py:74-89 | no file gives None and only then; a URL starting with `http` is returned unchanged with or without a request; otherwise a request gives `build_absolute_uri(url)` and no request gives the relative URL |
| ProductImages.RemoteImageIgnoresRequest | backend/catalog/serializers.py:81-83 | for a remote (`http`) URL or no file, the result is the same under any two request contexts |
| ProductImages.NoRequestKeepsStoredUrl | backend/catalog/serializers.py:86-89 | without a request the result is exactly the stored URL, or None when there is no file |
| ProductImages.ResolvedUrlIsFixedPoint | backend/catalog/serializers.py:81-88 | when the request's builder yields `http` URLs, every URL handed out is remote, and any stored file whose storage URL is that URL resolves to it unchanged under any request |
| Pricing.FinalPrice | backend/catalog/serializers.py:156-160 | a null or zero `discount_percent` returns the price unchanged; only a truthy discount yields the discounted value |
| Pricing.UndiscountedIgnoresDiscountRule | backend/catalog/serializers.py:158-160 | with a falsy discount the final price is the price whatever the discount computation is |
| Reviews.AvatarUrl | backend/catalog/serializers.py:167-173 | the avatar is None exactly when the author has no profile or the profile has no avatar; without a request, or for an `http` URL, it is the stored avatar URL; otherwise it is `build_absolute_uri` of that URL; by definition it is `ResolveFileUrl`, the product-image rule, applied to the avatar file |
| Reviews.SerializeReview | backend/catalog/serializers.py:174-184 | the entry copies the review's id, rating, comment and created_at and the author's id and username; its avatar is None exactly when there is no profile or no avatar |
| Reviews.SerializeReviews | backend/catalog/serializers.py:164-185 | exactly one entry per review, the k-th entry being the k-th review's entry |
| Reviews.GetReviews | backend/catalog/serializers.py:162-185 | the loop that computes each avatar step by step and appends one dictionary per review returns exactly the specified review list (same length, same order, avatar by the image rule) |
| Reviews.SerializeReviewsAppend | backend/catalog/serializers.py:165-185 | the list for two runs of reviews is the concatenation of their lists, so entry order is review order |
| Reviews.RemoteAvatarsIgnoreRequest | backend/catalog/serializers.py:170-173 | when every author's avatar is remote or absent, the review list is the same under any two request contexts |
| Reviews.EntryToValue | backend/catalog/serializers.py:174-184 | each review dictionary has exactly the keys id, user, rating, comment, created_at, its user exactly id, username, avatar; the review's id, rating, comment, created_at and the user's id and username are copied, the avatar key holds the avatar URL when there is one and null exactly when there is none |

## Left out

- Pricing.FinalPrice: the discounted branch (`round(float(price) * (100 - discount_percent) / 100, 2)`) is floating-point arithmetic and is an opaque parameter; the conversion `float(price)` of the stored decimal is not modelled, the price is an exact `real`.
- The storage backend's `url`, the request's `build_absolute_uri` and the ORM query `obj.reviews.all().select_related('user')` are framework code: the first two are function parameters, the query is the input sequence.
- The library-driven serializers (`CategorySerializer`, `BrandSerializer`, `TagSerializer`, `WishlistSerializer`, the slug-related `category`, `brand` and `tags` fields, `seller`, the nesting of images with `many=True`, input validation): their behaviour is that of the REST framework, which is not part of this model. Of `ReviewSerializer` and `UserSerializer` only the field shapes are modelled, in `Reviews.EntryToValue`; `UserSerializer`'s own avatar `ImageField` (which does not apply the `http` test) is not used by `get_reviews` and is not modelled.
- The commented-out copy of `ProductImageSerializer` is dead code.
- `backend/catalog/upload_media_to_cloudinary.py` is a one-shot migration script whose work is file-system checks, a network upload, database saves and console output; it is not part of this model.
- The React pages under `frontend/src/pages` only compose UI and are not part of this model.
- Python's distinction between a null and an empty file reference is folded into the empty name, since both are falsy and take the same branch.

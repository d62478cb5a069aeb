/** The stored records the read-side serializers take as input. */
module Records {

  import opened Wrappers

  /** A file field value (`ImageField`). Its `name` is the stored reference: a
      local media path or, after migration, a remote URL. Python's truth test
      on a field file is the truth test on its name, so the empty name stands
      for both `None` and `""`. */
  datatype FieldFile = FieldFile(name: string)
  {
    predicate IsTruthy()
    {
      name != ""
    }
  }

  /** A timestamp, copied through the serializers untouched. */
  datatype DateTime = DateTime(microseconds: int)

  /** The per-user profile that holds the avatar. */
  datatype Profile = Profile(avatar: FieldFile)

  /** A user; `profile` is None when the user has no related profile row
      (`hasattr(user, "profile")` is false). */
  datatype User = User(id: nat, username: string, profile: Option<Profile>)

  datatype Review = Review(id: nat, user: User, rating: int, comment: string, createdAt: DateTime)

  datatype ProductImage = ProductImage(id: nat, image: FieldFile)
}

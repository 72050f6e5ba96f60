/**
 * The records the app keeps in its key-value store: accessibility reports
 * ("posts"), the registered user, and the shape of a stored value.
 */
module Records {
  import opened Wrappers

  /** A captured map position (copied verbatim, never computed with). */
  datatype Coordinates = Coordinates(latitude: real, longitude: real)

  /** The `accessibility` field as it may be found in storage: older records hold a bare string or nothing. */
  datatype RawTags = TagList(tags: seq<string>) | Single(tag: string) | Missing

  /** The `ratings` field: a dictionary from voter email to 1 ("useful") or 0, or no dictionary at all (missing or stored as an array). */
  datatype Ratings = Votes(votes: map<string, int>) | NoVotes

  /**
   * One accessibility report. `Tags` is the type of its `accessibility` field:
   * a plain list once loaded (`Post`), a `RawTags` as found in storage (`StoredPost`).
   * `date` is the creation time as a timestamp.
   */
  datatype PostRecord<Tags> = PostRecord(
    id: string,
    title: string,
    description: string,
    tags: Tags,
    image: Option<string>,
    location: Option<Coordinates>,
    locationName: string,
    streetName: string,
    date: int,
    positive: int,
    negative: int,
    ratings: Ratings)

  type Post = PostRecord<seq<string>>
  type StoredPost = PostRecord<RawTags>

  /** The single registered account, stored under `'user'`. */
  datatype User = User(name: string, email: string, password: string, disability: string)

  /**
   * A value held under one key. `PostList` and `UserRecord` are what the app
   * writes for `'posts'` and `'user'`; `Str(s)` is any other string, which
   * decodes to neither shape.
   */
  datatype Blob = Str(s: string) | PostList(posts: seq<StoredPost>) | UserRecord(user: User)
}

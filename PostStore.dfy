/**
 * The post list persisted under `'posts'`: decoding a stored value, the
 * load-time normalisation of the `accessibility` field (pages/Home.js,
 * `loadPosts`) and what a loaded list looks like once written back.
 */
module PostStore {
  import opened Wrappers
  import opened Records
  import opened Storage

  const PostsKey: string := "posts"

  /** `Array.isArray(a) ? a : a ? [a] : []` on the stored `accessibility` field. */
  function NormaliseTags(raw: RawTags): (tags: seq<string>)
    ensures raw.TagList? ==> tags == raw.tags
    ensures !raw.TagList? ==> |tags| <= 1
    ensures !raw.TagList? ==> (tags != [] <==> raw.Single? && raw.tag != "")
    ensures raw.Single? && raw.tag != "" ==> tags == [raw.tag]
  {
    match raw
    case TagList(ts) => ts
    case Single(t) => if t != "" then [t] else []
    case Missing => []
  }

  /** One loaded post: only the tag field changes shape, every other field is kept. */
  function Normalise(p: StoredPost): (q: Post)
    ensures q.tags == NormaliseTags(p.tags)
    ensures && q.id == p.id && q.title == p.title && q.description == p.description
            && q.image == p.image && q.location == p.location
            && q.locationName == p.locationName && q.streetName == p.streetName
            && q.date == p.date && q.positive == p.positive && q.negative == p.negative
            && q.ratings == p.ratings
  {
    PostRecord(p.id, p.title, p.description, NormaliseTags(p.tags), p.image, p.location,
               p.locationName, p.streetName, p.date, p.positive, p.negative, p.ratings)
  }

  /** A loaded post as `JSON.stringify` writes it back: its tags as a list. */
  function ToStored(p: Post): (s: StoredPost)
    ensures s.tags == TagList(p.tags)
  {
    PostRecord(p.id, p.title, p.description, TagList(p.tags), p.image, p.location,
               p.locationName, p.streetName, p.date, p.positive, p.negative, p.ratings)
  }

  function NormaliseAll(stored: seq<StoredPost>): (posts: seq<Post>)
    ensures |posts| == |stored|
    ensures forall i :: 0 <= i < |stored| ==> posts[i] == Normalise(stored[i])
  {
    seq(|stored|, i requires 0 <= i < |stored| => Normalise(stored[i]))
  }

  function ToStoredAll(posts: seq<Post>): (stored: seq<StoredPost>)
    ensures |stored| == |posts|
    ensures forall i :: 0 <= i < |posts| ==> stored[i] == ToStored(posts[i])
  {
    seq(|posts|, i requires 0 <= i < |posts| => ToStored(posts[i]))
  }

  /**
   * `storedPosts ? JSON.parse(storedPosts) : []`: an absent or empty value is
   * the empty list, a stored post list is itself, anything else fails to decode.
   */
  function DecodePosts(v: Option<Blob>): (r: Option<seq<StoredPost>>)
    ensures !IsTruthy(v) ==> r == Some([])
    ensures v.Some? && v.value.PostList? ==> r == Some(v.value.posts)
    ensures r.None? <==> IsTruthy(v) && !v.value.PostList?
  {
    match v
    case None => Some([])
    case Some(PostList(ps)) => Some(ps)
    case Some(Str(s)) => if s == "" then Some([]) else None
    case Some(UserRecord(_)) => None
  }

  /**
   * The list `loadPosts` leaves on screen: the normalised stored list, or the
   * previously loaded list when decoding fails (the error is only logged).
   */
  function LoadedPosts(items: map<string, Blob>, previous: seq<Post>): (posts: seq<Post>)
    ensures DecodePosts(Lookup(items, PostsKey)).None? ==> posts == previous
    ensures PostsKey !in items ==> posts == []
    ensures DecodePosts(Lookup(items, PostsKey)).Some? ==>
              var stored := DecodePosts(Lookup(items, PostsKey)).value;
              |posts| == |stored| && forall i :: 0 <= i < |posts| ==> posts[i] == Normalise(stored[i])
  {
    match DecodePosts(Lookup(items, PostsKey))
    case Some(stored) => NormaliseAll(stored)
    case None => previous
  }

  /** Writing a loaded post and loading it again gives the same post back. */
  lemma NormaliseAfterStore(p: Post)
    ensures Normalise(ToStored(p)) == p
  {
  }

  /** A legacy record whose tag field is a bare string loads with that string as its only tag. */
  lemma LegacySingleTagLoads(s: StoredPost, tag: string)
    requires s.tags == Single(tag) && tag != ""
    ensures Normalise(s).tags == [tag]
  {
  }

  /** The list written by `handleRating` reloads as exactly the list on screen. */
  lemma {:induction false} LoadAfterWrite(items: map<string, Blob>, posts: seq<Post>, previous: seq<Post>)
    ensures LoadedPosts(items[PostsKey := PostList(ToStoredAll(posts))], previous) == posts
  {
    var stored := ToStoredAll(posts);
    forall i | 0 <= i < |posts|
      ensures NormaliseAll(stored)[i] == posts[i]
    {
      NormaliseAfterStore(posts[i]);
    }
  }

  /** Appending a post to the stored list and loading gives the old loaded list followed by that post. */
  lemma {:induction false} LoadAfterAppend(stored: seq<StoredPost>, p: Post)
    ensures NormaliseAll(stored + [ToStored(p)]) == NormaliseAll(stored) + [p]
  {
    NormaliseAfterStore(p);
    var lhs := NormaliseAll(stored + [ToStored(p)]);
    var rhs := NormaliseAll(stored) + [p];
    forall i | 0 <= i < |lhs|
      ensures lhs[i] == rhs[i]
    {
      if i < |stored| {
        assert (stored + [ToStored(p)])[i] == stored[i];
      }
    }
  }

  /** After the `'posts'` key is removed, the next load shows no posts. */
  lemma LoadAfterRemove(items: map<string, Blob>, previous: seq<Post>)
    ensures LoadedPosts(items - {PostsKey}, previous) == []
  {
  }
}

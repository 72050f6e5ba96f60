/**
 * The home screen (pages/Home.js): the list of posts it loads from the store,
 * the vote handler that rewrites the whole list, and the filtered view.
 */
module Home {
  import opened Wrappers
  import opened Records
  import opened Storage
  import opened Rating
  import opened PostStore
  import opened PostView

  /** The signed-in voter: the stored `userEmail`, when it is a non-empty string. */
  function Voter(items: map<string, Blob>): (r: Option<string>)
    ensures r.Some? <==> UserEmailKey in items && items[UserEmailKey].Str? && items[UserEmailKey].s != ""
    ensures r.Some? ==> items[UserEmailKey] == Str(r.value)
  {
    match ReadString(items, UserEmailKey)
    case Some(e) => if e != "" then Some(e) else None
    case None => None
  }

  class HomeScreen {
    /** The posts last loaded (the `posts` state). */
    var posts: seq<Post>
    /** The tag filter; no handler of the screen changes it from `'todos'`. */
    var filter: string

    constructor ()
      ensures posts == [] && filter == AllTags
    {
      posts := [];
      filter := AllTags;
    }

    /**
     * `loadPosts`: replaces the list by the normalised stored list; an absent
     * value gives the empty list and a value that fails to decode leaves the
     * list as it was.
     */
    method LoadPosts(storage: Store)
      modifies this`posts
      ensures posts == LoadedPosts(storage.items, old(posts))
    {
      var stored := Lookup(storage.items, PostsKey);
      var decoded := DecodePosts(stored);
      if decoded.Some? {
        posts := NormaliseAll(decoded.value);
      }
    }

    /**
     * `handleRating`: without a signed-in voter nothing changes; otherwise the
     * post with `postId` takes the vote, the list on screen is replaced and the
     * whole list is written back under `'posts'`, even when the vote changed
     * nothing.
     */
    method HandleRating(storage: Store, postId: string, rating: string)
      modifies this`posts, storage
      ensures Voter(old(storage.items)).None? ==>
                posts == old(posts) && storage.items == old(storage.items)
      ensures Voter(old(storage.items)).Some? ==>
                && posts == RatePosts(old(posts), postId, Voter(old(storage.items)).value, rating)
                && storage.items == old(storage.items)[PostsKey := PostList(ToStoredAll(posts))]
    {
      var userEmail := Voter(storage.items);
      if userEmail.None? {
        return;
      }
      var updated := RatePosts(posts, postId, userEmail.value, rating);
      posts := updated;
      storage.SetItem(PostsKey, PostList(ToStoredAll(updated)));
    }

    /** `filteredPosts`: the list as displayed. */
    function FilteredPosts(): (r: seq<Post>)
      reads this
      ensures NewestFirst(r)
      ensures filter == AllTags ==> multiset(r) == multiset(posts)
    {
      var r := Select(posts, filter);
      assert filter == AllTags ==> multiset(r) == multiset(posts) by {
        if filter == AllTags {
          SelectAllIsPermutation(posts);
        }
      }
      r
    }
  }

  /**
   * A repeated vote writes back the list that was already on screen: when
   * every post with `postId` already holds the voter's vote, the rated list is
   * the input list.
   */
  lemma RepeatedVoteWritesSameList(posts: seq<Post>, postId: string, voter: string, rating: string)
    requires forall i :: 0 <= i < |posts| && posts[i].id == postId ==>
               voter in PriorVotes(posts[i]) && PriorVotes(posts[i])[voter] == VoteValue(rating)
    ensures RatePosts(posts, postId, voter, rating) == posts
  {
  }

  /** After a vote the store and the screen agree: reloading gives the rated list. */
  lemma RatingThenReload(items: map<string, Blob>, posts: seq<Post>, postId: string, voter: string, rating: string)
    ensures var rated := RatePosts(posts, postId, voter, rating);
            LoadedPosts(items[PostsKey := PostList(ToStoredAll(rated))], posts) == rated
  {
    LoadAfterWrite(items, RatePosts(posts, postId, voter, rating), posts);
  }
}

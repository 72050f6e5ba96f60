/**
 * `filteredPosts` (pages/Home.js): an optional tag filter, where `'todos'`
 * selects every post, followed by a stable sort by date, newest first.
 */
module PostView {
  import opened Records

  const AllTags: string := "todos"

  /** `posts.filter(post => post.accessibility.includes(tag))`. */
  function WithTag(posts: seq<Post>, tag: string): (r: seq<Post>)
    ensures |r| <= |posts|
    ensures forall p :: p in r <==> p in posts && tag in p.tags
  {
    if posts == [] then []
    else (if tag in posts[0].tags then [posts[0]] else []) + WithTag(posts[1..], tag)
  }

  /** The filter keeps every post carrying the tag, as often as it occurs, and no other. */
  lemma {:induction false} WithTagCounts(posts: seq<Post>, tag: string)
    ensures forall p :: multiset(WithTag(posts, tag))[p] == if tag in p.tags then multiset(posts)[p] else 0
  {
    if posts != [] {
      WithTagCounts(posts[1..], tag);
      assert posts == [posts[0]] + posts[1..];
    }
  }

  /** The posts created at time `d`, in their order in `s`. */
  function OnDate(s: seq<Post>, d: int): seq<Post> {
    if s == [] then []
    else (if s[0].date == d then [s[0]] else []) + OnDate(s[1..], d)
  }

  /** Newest first: dates never increase along the list. */
  predicate NewestFirst(s: seq<Post>) {
    forall i, j :: 0 <= i < j < |s| ==> s[i].date >= s[j].date
  }

  /** Places `x` before the first post that is not newer than it. */
  function InsertNewestFirst(x: Post, s: seq<Post>): (r: seq<Post>)
    ensures multiset(r) == multiset(s) + multiset{x}
    ensures |r| == |s| + 1 && (r[0] == x || (s != [] && r[0] == s[0]))
  {
    if s == [] || x.date >= s[0].date then
      [x] + s
    else
      var rest := InsertNewestFirst(x, s[1..]);
      assert s == [s[0]] + s[1..];
      [s[0]] + rest
  }

  /** Inserting into a newest-first list keeps it newest first. */
  lemma {:induction false} InsertKeepsNewestFirst(x: Post, s: seq<Post>)
    requires NewestFirst(s)
    ensures NewestFirst(InsertNewestFirst(x, s))
  {
    if s != [] && x.date < s[0].date {
      InsertKeepsNewestFirst(x, s[1..]);
      var rest := InsertNewestFirst(x, s[1..]);
      var r := [s[0]] + rest;
      assert r == InsertNewestFirst(x, s);
      assert s[0].date >= rest[0].date by {
        if rest[0] != x {
          assert rest[0] == s[1..][0] == s[1];
        }
      }
      forall i, j | 0 <= i < j < |r|
        ensures r[i].date >= r[j].date
      {
        assert r[j] == rest[j - 1];
        if i == 0 {
          assert rest[0].date >= rest[j - 1].date;
        } else {
          assert r[i] == rest[i - 1];
        }
      }
    }
  }

  /** Insertion keeps posts of one date in order, `x` ahead of the ones already placed. */
  lemma {:induction false} InsertOnDate(x: Post, s: seq<Post>, d: int)
    ensures OnDate(InsertNewestFirst(x, s), d) == (if x.date == d then [x] else []) + OnDate(s, d)
  {
    var mine := if x.date == d then [x] else [];
    if s == [] || x.date >= s[0].date {
      var r := [x] + s;
      assert r[0] == x && r[1..] == s;
    } else {
      var rest := InsertNewestFirst(x, s[1..]);
      var r := [s[0]] + rest;
      assert r[0] == s[0] && r[1..] == rest;
      InsertOnDate(x, s[1..], d);
      var head := if s[0].date == d then [s[0]] else [];
      var tail := OnDate(s[1..], d);
      assert OnDate(r, d) == head + (mine + tail);
      assert OnDate(s, d) == head + tail;
      // `x` is strictly older than `s[0]`, so at most one of them is on date `d`.
      if x.date == d {
        assert head == [];
        assert head + (mine + tail) == mine + tail;
      } else {
        assert mine == [];
        assert head + (mine + tail) == head + tail;
      }
    }
  }

  /** A stable sort by date, newest first: `.sort((a, b) => b.date - a.date)`. */
  function SortNewestFirst(s: seq<Post>): (r: seq<Post>)
    ensures multiset(r) == multiset(s)
    ensures NewestFirst(r)
  {
    if s == [] then []
    else
      assert s == [s[0]] + s[1..];
      InsertKeepsNewestFirst(s[0], SortNewestFirst(s[1..]));
      InsertNewestFirst(s[0], SortNewestFirst(s[1..]))
  }

  /** Sorting is stable: the posts of any one date keep their input order. */
  lemma {:induction false} SortOnDate(s: seq<Post>, d: int)
    ensures OnDate(SortNewestFirst(s), d) == OnDate(s, d)
  {
    if s != [] {
      SortOnDate(s[1..], d);
      InsertOnDate(s[0], SortNewestFirst(s[1..]), d);
    }
  }

  /** The posts a filter admits, in input order. */
  function Matching(posts: seq<Post>, filter: string): seq<Post> {
    if filter == AllTags then posts else WithTag(posts, filter)
  }

  lemma {:induction false} FiltersCommute(s: seq<Post>, tag: string, d: int)
    ensures OnDate(WithTag(s, tag), d) == WithTag(OnDate(s, d), tag)
  {
    if s != [] {
      FiltersCommute(s[1..], tag, d);
      var head := if s[0].date == d then [s[0]] else [];
      OnDateAppend(if tag in s[0].tags then [s[0]] else [], WithTag(s[1..], tag), d);
      WithTagAppend(head, OnDate(s[1..], d), tag);
    }
  }

  lemma {:induction false} OnDateAppend(a: seq<Post>, b: seq<Post>, d: int)
    ensures OnDate(a + b, d) == OnDate(a, d) + OnDate(b, d)
  {
    if a != [] {
      assert (a + b)[1..] == a[1..] + b;
      OnDateAppend(a[1..], b, d);
    } else {
      assert a + b == b;
    }
  }

  lemma {:induction false} WithTagAppend(a: seq<Post>, b: seq<Post>, tag: string)
    ensures WithTag(a + b, tag) == WithTag(a, tag) + WithTag(b, tag)
  {
    if a == [] {
      assert a + b == b;
    } else {
      var ab := a + b;
      assert ab[0] == a[0];
      assert ab[1..] == a[1..] + b;
      WithTagAppend(a[1..], b, tag);
      var head := if tag in a[0].tags then [a[0]] else [];
      assert WithTag(ab, tag) == head + WithTag(ab[1..], tag);
      assert WithTag(a, tag) == head + WithTag(a[1..], tag);
    }
  }

  /**
   * The list on screen: exactly the posts the filter admits (`'todos'`
   * admits all), each as often as in the input, newest first, and posts
   * with the same date in input order.
   */
  function Select(posts: seq<Post>, filter: string): (r: seq<Post>)
    ensures forall p :: multiset(r)[p] == if filter == AllTags || filter in p.tags then multiset(posts)[p] else 0
    ensures NewestFirst(r)
    ensures forall d :: OnDate(r, d) == Matching(OnDate(posts, d), filter)
  {
    var r := SortNewestFirst(Matching(posts, filter));
    WithTagCounts(posts, filter);
    forall d
      ensures OnDate(r, d) == Matching(OnDate(posts, d), filter)
    {
      SortOnDate(Matching(posts, filter), d);
      if filter != AllTags {
        FiltersCommute(posts, filter, d);
      }
    }
    r
  }

  /** With `'todos'` the view holds every post, and only reorders them. */
  lemma SelectAllIsPermutation(posts: seq<Post>)
    ensures multiset(Select(posts, AllTags)) == multiset(posts)
    ensures |Select(posts, AllTags)| == |posts|
  {
    var r := Select(posts, AllTags);
    assert multiset(r) == multiset(posts);
    assert |multiset(r)| == |multiset(posts)|;
  }

  /** A post is shown under a tag filter exactly when it is in the list and carries the tag. */
  lemma SelectMembership(posts: seq<Post>, tag: string, p: Post)
    requires tag != AllTags
    ensures p in Select(posts, tag) <==> p in posts && tag in p.tags
  {
    var r := Select(posts, tag);
    assert p in r <==> multiset(r)[p] > 0;
    assert p in posts <==> multiset(posts)[p] > 0;
  }

  /** A list that is already newest first, ties included, is shown as it is. */
  lemma {:induction false} SortKeepsNewestFirst(s: seq<Post>)
    requires NewestFirst(s)
    ensures SortNewestFirst(s) == s
  {
    if s != [] {
      SortKeepsNewestFirst(s[1..]);
      assert s == [s[0]] + s[1..];
    }
  }
}

/**
 * The vote and percentage update of `handleRating` (pages/Home.js): one vote
 * per voter email, `positive` recomputed from the votes and `negative` its
 * complement to 100.
 */
module Rating {
  import opened Records

  /** The voters whose stored vote is 1 ("useful"). */
  function UsefulVoters(votes: map<string, int>): (s: set<string>)
    ensures s <= votes.Keys
    ensures forall k :: k in s <==> k in votes && votes[k] == 1
  {
    set k | k in votes && votes[k] == 1
  }

  /** How many voters found the post useful; never more than there are voters. */
  function UsefulCount(votes: map<string, int>): (n: nat)
    ensures n <= |votes|
  {
    SubsetCardinality(UsefulVoters(votes), votes.Keys);
    |UsefulVoters(votes)|
  }

  lemma {:induction false} SubsetCardinality(a: set<string>, b: set<string>)
    requires a <= b
    ensures |a| <= |b|
  {
    if a != {} {
      var x :| x in a;
      SubsetCardinality(a - {x}, b - {x});
    }
  }

  /**
   * `100 * useful / total` rounded half up, computed exactly. The result is
   * the integer nearest to the ratio (ties upwards) and a percentage when
   * `useful <= total`.
   */
  function RoundedPercent(useful: nat, total: nat): (r: int)
    requires 0 < total
    ensures (2 * r - 1) * total <= 200 * useful < (2 * r + 1) * total
    ensures useful <= total ==> 0 <= r <= 100
  {
    HalfUpBounds(useful, total);
    (200 * useful + total) / (2 * total)
  }

  lemma HalfUpBounds(useful: nat, total: nat)
    requires 0 < total
    ensures var r := (200 * useful + total) / (2 * total);
            && (2 * r - 1) * total <= 200 * useful < (2 * r + 1) * total
            && (useful <= total ==> 0 <= r <= 100)
  {
    var r := (200 * useful + total) / (2 * total);
    DivisionBounds(200 * useful + total, 2 * total);
    assert (2 * r - 1) * total == 2 * total * r - total;
    assert (2 * r + 1) * total == 2 * total * r + total;
    if useful <= total {
      assert 200 * useful + total < 2 * total * 101;
      if r >= 101 {
        MonotonicProduct(2 * total, 101, r);
      }
    }
  }

  lemma DivisionBounds(a: nat, b: nat)
    requires 0 < b
    ensures b * (a / b) <= a < b * (a / b) + b
  {
  }

  lemma MonotonicProduct(c: nat, x: int, y: int)
    requires x <= y
    ensures c * x <= c * y
  {
  }

  /** The vote a rating button casts: 1 for "useful", 0 for anything else. */
  function VoteValue(rating: string): (v: int)
    ensures v == 1 <==> rating == "useful"
    ensures v == 0 || v == 1
  {
    if rating == "useful" then 1 else 0
  }

  /** The votes a post holds before a vote: a missing or array-shaped `ratings` counts as no votes. */
  function PriorVotes(p: Post): map<string, int> {
    if p.ratings.Votes? then p.ratings.votes else map[]
  }

  /**
   * The percentages agree with the votes: with at least one vote, `positive`
   * is the rounded share of useful votes and `negative` makes up the rest of 100.
   */
  predicate PercentagesAgree(p: Post) {
    p.ratings.Votes? && |p.ratings.votes| > 0 ==>
      && p.positive == RoundedPercent(UsefulCount(p.ratings.votes), |p.ratings.votes|)
      && p.negative == 100 - p.positive
  }

  /** `p` with its vote state replaced; every other field is p's. */
  predicate SameExceptVotes(p: Post, q: Post) {
    q == p.(ratings := q.ratings, positive := q.positive, negative := q.negative)
  }

  /**
   * One post's update in `handleRating`: record `voter`'s vote, unless the
   * voter already holds exactly that vote, in which case the post is returned
   * unchanged; otherwise the percentages are recomputed from all votes.
   */
  function CastVote(p: Post, voter: string, rating: string): (r: Post)
    ensures r.ratings == Votes(PriorVotes(p)[voter := VoteValue(rating)])
    ensures SameExceptVotes(p, r)
    ensures voter in PriorVotes(p) && PriorVotes(p)[voter] == VoteValue(rating) ==> r == p
    ensures !(voter in PriorVotes(p) && PriorVotes(p)[voter] == VoteValue(rating)) ==> PercentagesAgree(r)
    ensures PercentagesAgree(p) ==> PercentagesAgree(r)
  {
    var votes := PriorVotes(p);
    var v := VoteValue(rating);
    if voter in votes && votes[voter] == v then
      assert votes[voter := v] == votes;
      p
    else
      var updated := votes[voter := v];
      var positive := RoundedPercent(UsefulCount(updated), |updated|);
      p.(ratings := Votes(updated), positive := positive, negative := 100 - positive)
  }

  /**
   * The list `handleRating` writes: the post whose id matches gets the vote,
   * every other post is kept as it is, in place.
   */
  function RatePosts(posts: seq<Post>, postId: string, voter: string, rating: string): (r: seq<Post>)
    ensures |r| == |posts|
    ensures forall i :: 0 <= i < |posts| && posts[i].id != postId ==> r[i] == posts[i]
    ensures forall i :: 0 <= i < |posts| && posts[i].id == postId ==> r[i] == CastVote(posts[i], voter, rating)
  {
    seq(|posts|, i requires 0 <= i < |posts| =>
      if posts[i].id == postId then CastVote(posts[i], voter, rating) else posts[i])
  }

  /** A series of votes on one post, each a (voter, rating) pair, applied in order. */
  function CastAll(p: Post, ballots: seq<(string, string)>): Post
    decreases |ballots|
  {
    if ballots == [] then p
    else CastAll(CastVote(p, ballots[0].0, ballots[0].1), ballots[1..])
  }

  /** However many votes are cast, the percentages stay in agreement with the votes. */
  lemma {:induction false} CastAllKeepsPercentagesAgreed(p: Post, ballots: seq<(string, string)>)
    requires PercentagesAgree(p)
    ensures PercentagesAgree(CastAll(p, ballots))
    decreases |ballots|
  {
    if ballots != [] {
      CastAllKeepsPercentagesAgreed(CastVote(p, ballots[0].0, ballots[0].1), ballots[1..]);
    }
  }

  /** After at least one vote the post holds votes, so its percentages sum to 100. */
  lemma {:induction false} CastAllSumsTo100(p: Post, ballots: seq<(string, string)>)
    requires PercentagesAgree(p)
    requires ballots != []
    ensures var q := CastAll(p, ballots);
            && q.ratings.Votes? && |q.ratings.votes| > 0
            && 0 <= q.positive <= 100 && q.positive + q.negative == 100
    decreases |ballots|
  {
    var q1 := CastVote(p, ballots[0].0, ballots[0].1);
    assert ballots[0].0 in q1.ratings.votes;
    if |ballots| == 1 {
      assert CastAll(p, ballots) == CastAll(q1, []);
    } else {
      CastAllSumsTo100(q1, ballots[1..]);
    }
    CastAllKeepsPercentagesAgreed(p, ballots);
  }

  /** With at least one vote the two percentages lie in [0, 100] and sum to 100. */
  lemma PercentagesSumTo100(p: Post)
    requires PercentagesAgree(p)
    requires p.ratings.Votes? && |p.ratings.votes| > 0
    ensures 0 <= p.positive <= 100 && 0 <= p.negative <= 100
    ensures p.positive + p.negative == 100
  {
  }

  /** Casting the same vote again changes nothing. */
  lemma RepeatedVoteIsNoOp(p: Post, voter: string, rating: string)
    ensures CastVote(CastVote(p, voter, rating), voter, rating) == CastVote(p, voter, rating)
  {
  }

  /** Rating a list again with the same vote returns that list unchanged. */
  lemma RepeatedRatingKeepsList(posts: seq<Post>, postId: string, voter: string, rating: string)
    ensures RatePosts(RatePosts(posts, postId, voter, rating), postId, voter, rating)
            == RatePosts(posts, postId, voter, rating)
  {
    var once := RatePosts(posts, postId, voter, rating);
    var twice := RatePosts(once, postId, voter, rating);
    forall i | 0 <= i < |posts|
      ensures twice[i] == once[i]
    {
      if posts[i].id == postId {
        RepeatedVoteIsNoOp(posts[i], voter, rating);
      }
    }
  }

  /** Rating keeps the percentages of every post in agreement with its votes. */
  lemma RatingKeepsPercentagesAgreed(posts: seq<Post>, postId: string, voter: string, rating: string)
    requires forall i :: 0 <= i < |posts| ==> PercentagesAgree(posts[i])
    ensures forall p :: p in RatePosts(posts, postId, voter, rating) ==> PercentagesAgree(p)
  {
  }

  /**
   * How one vote moves the useful count: the voter's previous "useful"
   * (if any) is taken away and the new vote added.
   */
  lemma {:induction false} UsefulCountAfterVote(votes: map<string, int>, voter: string, v: int)
    ensures UsefulCount(votes[voter := v])
            == UsefulCount(votes)
               - (if voter in votes && votes[voter] == 1 then 1 else 0)
               + (if v == 1 then 1 else 0)
  {
    var before := UsefulVoters(votes);
    var after := UsefulVoters(votes[voter := v]);
    var rest := before - {voter};
    assert after == if v == 1 then rest + {voter} else rest;
    assert before == if voter in votes && votes[voter] == 1 then rest + {voter} else rest;
  }

  /** A voter who switches sides still holds exactly one vote, the latest. */
  lemma SwitchedVoteOverwrites(p: Post, voter: string)
    ensures var q := CastVote(CastVote(p, voter, "useful"), voter, "notUseful");
            && q.ratings.Votes?
            && q.ratings.votes == PriorVotes(p)[voter := 0]
            && |q.ratings.votes| == |PriorVotes(p)| + (if voter in PriorVotes(p) then 0 else 1)
            && UsefulCount(q.ratings.votes) == UsefulCount(PriorVotes(p)) - (if voter in PriorVotes(p) && PriorVotes(p)[voter] == 1 then 1 else 0)
  {
    var q := CastVote(CastVote(p, voter, "useful"), voter, "notUseful");
    assert PriorVotes(p)[voter := 1][voter := 0] == PriorVotes(p)[voter := 0];
    UsefulCountAfterVote(PriorVotes(p), voter, 0);
  }

  /** Three voters on a fresh post: useful, not useful, useful gives 67% / 33%. */
  lemma {:induction false} ThreeVotesExample(p: Post, a: string, b: string, c: string)
    requires p.ratings == Votes(map[])
    requires a != b && b != c && a != c
    ensures var q := CastVote(CastVote(CastVote(p, a, "useful"), b, "notUseful"), c, "useful");
            q.positive == 67 && q.negative == 33
  {
    var m0: map<string, int> := map[];
    var m1 := m0[a := 1];
    var m2 := m1[b := 0];
    var m3 := m2[c := 1];
    UsefulCountAfterVote(m0, a, 1);
    UsefulCountAfterVote(m1, b, 0);
    UsefulCountAfterVote(m2, c, 1);
    assert UsefulVoters(m0) == {};
    assert UsefulCount(m3) == 2;
    assert |m3| == 3;
    var q := CastVote(CastVote(CastVote(p, a, "useful"), b, "notUseful"), c, "useful");
    assert q.ratings.votes == m3;
    assert RoundedPercent(2, 3) == 67;
  }
}

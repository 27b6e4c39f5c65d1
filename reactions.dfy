/**
 * The reaction statistics: counts of upvotes and downvotes given and
 * received, the ratios built from them, the net score of a message, and
 * the rankings the `stats`, `haters`, `popularity`, `reactees`,
 * `reactors`, `topalltime` and `leaderboard` commands show. Every SQL
 * aggregate is a function over the rows of the reaction table; the
 * commands that loop and sort in Python are methods.
 */
module Reactions {
  import opened Wrappers
  import opened Config
  import opened ReactionTable
  import opened Ranking
  import opened Db
  import Ledger
  import Tokens

  const DefaultLeaderboardSize: int := 10
  const DefaultRankingSize: int := 5
  const DefaultTopPosts: int := 3

  const NoKarmaData: string := "No karma data available."
  const NoReactionData: string := "No reaction data available."
  const LinkNotFound: string := "Link not found"

  /** The column a query filters or groups by. */
  datatype Side = Reactor | Reactee | Message

  function Party(r: Row, side: Side): nat {
    match side
    case Reactor => r.reactorId
    case Reactee => r.reacteeId
    case Message => r.messageId
  }

  /** The row belongs to `user` on that side and carries that emoji. */
  predicate Counts(r: Row, side: Side, user: int, value: string) {
    Party(r, side) == user && r.value == value
  }

  /** `SUM(CASE WHEN <side> = user AND value = v THEN 1 ELSE 0 END)`, 0 for an empty table. */
  function CountOf(rows: seq<Row>, side: Side, user: int, value: string): (n: nat)
    ensures n <= |rows|
    ensures n == 0 <==> forall i :: 0 <= i < |rows| ==> !Counts(rows[i], side, user, value)
    decreases |rows|
  {
    if |rows| == 0 then 0
    else
      var init := rows[..|rows| - 1];
      assert forall i :: 0 <= i < |init| ==> init[i] == rows[i];
      CountOf(init, side, user, value) + if Counts(rows[|rows| - 1], side, user, value) then 1 else 0
  }

  /** Counting splits over the concatenation of two tables. */
  lemma {:induction false} CountAppend(a: seq<Row>, b: seq<Row>, side: Side, user: int, value: string)
    ensures CountOf(a + b, side, user, value) == CountOf(a, side, user, value) + CountOf(b, side, user, value)
    decreases |b|
  {
    if |b| == 0 {
      assert a + b == a;
    } else {
      var init := b[..|b| - 1];
      assert (a + b)[..|a + b| - 1] == a + init;
      CountAppend(a, init, side, user, value);
    }
  }

  /** A row with any other emoji counts towards neither the upvotes nor the downvotes. */
  lemma OtherEmojiCountsInNeither(rows: seq<Row>, r: Row, side: Side, user: int)
    requires r.value != UpvoteEmoji && r.value != DownvoteEmoji
    ensures CountOf(rows + [r], side, user, UpvoteEmoji) == CountOf(rows, side, user, UpvoteEmoji)
    ensures CountOf(rows + [r], side, user, DownvoteEmoji) == CountOf(rows, side, user, DownvoteEmoji)
  {
    CountAppend(rows, [r], side, user, UpvoteEmoji);
    CountAppend(rows, [r], side, user, DownvoteEmoji);
  }

  /** A reaction recorded under a key not yet in the table adds one to its reactor's and its reactee's counts. */
  lemma FreshReactionCounted(rows: seq<Row>, r: Row, side: Side)
    requires !HasKey(rows, KeyOf(r)) && side != Message
    ensures CountOf(Upsert(rows, r), side, Party(r, side), r.value) == CountOf(rows, side, Party(r, side), r.value) + 1
  {
    CountAppend(rows, [r], side, Party(r, side), r.value);
  }

  // ---------------------------------------------------------------------
  // Ratios and display
  // ---------------------------------------------------------------------

  /** `up / down if down > 0 else up`. */
  function Ratio(up: nat, down: nat): (r: real)
    ensures r >= 0.0 && r <= up as real
    ensures down > 0 ==> r * down as real == up as real
    ensures down == 0 ==> r == up as real
  {
    if down > 0 then
      var q := up as real / down as real;
      assert q * down as real == up as real;
      assert q * (down - 1) as real >= 0.0;
      q
    else up as real
  }

  /** `round(x, 2)` on the exact value: the nearest hundredth, ties to the even one. */
  function Hundredths(x: real): (r: real)
    ensures x - 0.005 <= r <= x + 0.005
  {
    Tokens.RoundHalfEven(x * 100.0) as real / 100.0
  }

  // ---------------------------------------------------------------------
  // stats
  // ---------------------------------------------------------------------

  /** `user_id or ctx.author.id`: no argument, or 0, means the caller. */
  function StatsTarget(author: nat, userId: Option<int>): (t: int)
    ensures userId.None? || userId == Some(0) ==> t == author
    ensures userId.Some? && userId.value != 0 ==> t == userId.value
  {
    if userId.None? || userId.value == 0 then author else userId.value
  }

  datatype Stats = Stats(upGiven: nat, downGiven: nat, upReceived: nat, downReceived: nat,
                         givenRatio: real, receivedRatio: real)

  /** The embed of `stats`: the four counts of the target and the two ratios, rounded to hundredths. */
  function StatsOf(rows: seq<Row>, author: nat, userId: Option<int>): (s: Stats)
  {
    var t := StatsTarget(author, userId);
    var upG := CountOf(rows, Reactor, t, UpvoteEmoji);
    var downG := CountOf(rows, Reactor, t, DownvoteEmoji);
    var upR := CountOf(rows, Reactee, t, UpvoteEmoji);
    var downR := CountOf(rows, Reactee, t, DownvoteEmoji);
    Stats(upG, downG, upR, downR, Hundredths(Ratio(upG, downG)), Hundredths(Ratio(upR, downR)))
  }

  /** Everything `stats` shows is zero for a user with no reactions given or received. */
  lemma StatsOfStranger(rows: seq<Row>, author: nat, userId: Option<int>)
    requires forall i :: 0 <= i < |rows| ==>
      rows[i].reactorId != StatsTarget(author, userId) && rows[i].reacteeId != StatsTarget(author, userId)
    ensures StatsOf(rows, author, userId) == Stats(0, 0, 0, 0, 0.0, 0.0)
  {
    Tokens.RoundWhole(0);
  }

  /** The ratios `stats` shows are those of its counts, to within half a hundredth. */
  lemma StatsRatios(rows: seq<Row>, author: nat, userId: Option<int>)
    ensures var s := StatsOf(rows, author, userId);
      && (s.downGiven > 0 ==> s.givenRatio - 0.005 <= s.upGiven as real / s.downGiven as real <= s.givenRatio + 0.005)
      && (s.downGiven == 0 ==> s.givenRatio == s.upGiven as real)
      && (s.downReceived > 0 ==>
            s.receivedRatio - 0.005 <= s.upReceived as real / s.downReceived as real <= s.receivedRatio + 0.005)
      && (s.downReceived == 0 ==> s.receivedRatio == s.upReceived as real)
  {
    var s := StatsOf(rows, author, userId);
    Tokens.RoundWhole(s.upGiven as int * 100);
    Tokens.RoundWhole(s.upReceived as int * 100);
  }

  // ---------------------------------------------------------------------
  // get_reaction_stats: GROUP BY
  // ---------------------------------------------------------------------

  predicate Distinct(ids: seq<nat>) {
    forall i, j :: 0 <= i < j < |ids| ==> ids[i] != ids[j]
  }

  /** The groups of `GROUP BY <side>`: every value of the column once, in order of first appearance. */
  function Parties(rows: seq<Row>, side: Side): (ps: seq<nat>)
    ensures Distinct(ps)
    ensures forall x :: x in ps <==> exists i :: 0 <= i < |rows| && Party(rows[i], side) == x
    decreases |rows|
  {
    if |rows| == 0 then []
    else
      var init := rows[..|rows| - 1];
      var p := Party(rows[|rows| - 1], side);
      var before := Parties(init, side);
      assert forall i :: 0 <= i < |init| ==> init[i] == rows[i];
      if p in before then before else before + [p]
  }

  /** One line of `get_reaction_stats`: a user and their upvote and downvote counts on that side. */
  datatype Tally = Tally(user: nat, up: nat, down: nat)

  /** `get_reaction_stats`: per reactor the votes given, per reactee the votes received. */
  function ReactionStats(rows: seq<Row>): (r: (seq<Tally>, seq<Tally>))
    ensures |r.0| == |Parties(rows, Reactor)| && |r.1| == |Parties(rows, Reactee)|
    ensures forall i :: 0 <= i < |r.0| ==> r.0[i] == TallyOf(rows, Reactor, Parties(rows, Reactor)[i])
    ensures forall i :: 0 <= i < |r.1| ==> r.1[i] == TallyOf(rows, Reactee, Parties(rows, Reactee)[i])
  {
    (Tallies(rows, Reactor, Parties(rows, Reactor)), Tallies(rows, Reactee, Parties(rows, Reactee)))
  }

  function TallyOf(rows: seq<Row>, side: Side, user: nat): Tally {
    Tally(user, CountOf(rows, side, user, UpvoteEmoji), CountOf(rows, side, user, DownvoteEmoji))
  }

  function Tallies(rows: seq<Row>, side: Side, groups: seq<nat>): (t: seq<Tally>)
    ensures |t| == |groups| && forall i :: 0 <= i < |groups| ==> t[i] == TallyOf(rows, side, groups[i])
  {
    seq(|groups|, i requires 0 <= i < |groups| => TallyOf(rows, side, groups[i]))
  }

  /** The number of rows in the table with that emoji, whoever's. */
  function CountValue(rows: seq<Row>, value: string): nat
    decreases |rows|
  {
    if |rows| == 0 then 0
    else CountValue(rows[..|rows| - 1], value) + if rows[|rows| - 1].value == value then 1 else 0
  }

  /** The per-group counts added up over a list of groups. */
  function SumCounts(rows: seq<Row>, side: Side, groups: seq<nat>, value: string): nat
    decreases |groups|
  {
    if |groups| == 0 then 0
    else SumCounts(rows, side, groups[..|groups| - 1], value) + CountOf(rows, side, groups[|groups| - 1], value)
  }

  /**
   * Grouping loses and duplicates nothing: over all groups the counts add
   * up to the number of rows with that emoji in the table.
   */
  lemma {:induction false} GroupsCoverTable(rows: seq<Row>, side: Side, value: string)
    ensures SumCounts(rows, side, Parties(rows, side), value) == CountValue(rows, value)
    decreases |rows|
  {
    if |rows| > 0 {
      var init := rows[..|rows| - 1];
      var r := rows[|rows| - 1];
      var ps := Parties(init, side);
      assert rows == init + [r];
      GroupsCoverTable(init, side, value);
      SumCountsSnoc(init, r, side, ps, value);
      if Party(r, side) !in ps {
        var ps' := ps + [Party(r, side)];
        assert ps'[..|ps|] == ps;
        assert CountOf(init, side, Party(r, side), value) == 0;
      }
    }
  }

  /** Adding a row to the table adds one to the sum exactly when its group is listed and its emoji matches. */
  lemma {:induction false} SumCountsSnoc(rows: seq<Row>, r: Row, side: Side, groups: seq<nat>, value: string)
    requires Distinct(groups)
    ensures SumCounts(rows + [r], side, groups, value) ==
      SumCounts(rows, side, groups, value) + if Party(r, side) in groups && r.value == value then 1 else 0
    decreases |groups|
  {
    if |groups| > 0 {
      var init := groups[..|groups| - 1];
      var g := groups[|groups| - 1];
      assert groups == init + [g];
      SumCountsSnoc(rows, r, side, init, value);
      assert (rows + [r])[..|rows|] == rows;
    }
  }

  // ---------------------------------------------------------------------
  // haters and popularity
  // ---------------------------------------------------------------------

  function RatioOf(rows: seq<Row>, side: Side, user: nat): real {
    Ratio(CountOf(rows, side, user, UpvoteEmoji), CountOf(rows, side, user, DownvoteEmoji))
  }

  /** The `ratios` list the loop builds: each group with its ratio, in query order. */
  function Ratios(rows: seq<Row>, side: Side, groups: seq<nat>): (r: seq<Entry>)
    ensures |r| == |groups|
    ensures forall i :: 0 <= i < |groups| ==> r[i] == Entry(groups[i], RatioOf(rows, side, groups[i]))
  {
    seq(|groups|, i requires 0 <= i < |groups| => Entry(groups[i], RatioOf(rows, side, groups[i])))
  }

  /** One field of a ranking embed: its rank (from 1), the id, and the number shown beside it. */
  datatype Place = Place(rank: nat, id: nat, shown: real)

  /** The fields of a ratio ranking: rank `i + 1` for the `i`-th entry, its ratio to hundredths. */
  function RatioPlaces(entries: seq<Entry>): (ps: seq<Place>)
    ensures |ps| == |entries|
    ensures forall i :: 0 <= i < |entries| ==> ps[i] == Place(i + 1, entries[i].id, Hundredths(entries[i].key))
  {
    seq(|entries|, i requires 0 <= i < |entries| => Place(i + 1, entries[i].id, Hundredths(entries[i].key)))
  }

  /** The ratio ranking of one side: sorted, the first `top_n` by Python slicing. */
  function RatioRanking(rows: seq<Row>, side: Side, desc: bool, topN: int): seq<Entry> {
    PySlice(Sort(Ratios(rows, side, Parties(rows, side)), desc), topN)
  }

  /**
   * The loops of `haters` and `popularity`: gather every group's ratio,
   * sort, then number the first `top_n`.
   */
  method RankByRatio(rows: seq<Row>, side: Side, desc: bool, topN: int) returns (places: seq<Place>)
    ensures places == RatioPlaces(RatioRanking(rows, side, desc, topN))
  {
    var groups := Parties(rows, side);
    var ratios: seq<Entry> := [];
    var i := 0;
    while i < |groups|
      invariant 0 <= i <= |groups| && |ratios| == i
      invariant forall k :: 0 <= k < i ==> ratios[k] == Entry(groups[k], RatioOf(rows, side, groups[k]))
    {
      var up := CountOf(rows, side, groups[i], UpvoteEmoji);
      var down := CountOf(rows, side, groups[i], DownvoteEmoji);
      ratios := ratios + [Entry(groups[i], Ratio(up, down))];
      i := i + 1;
    }
    assert ratios == Ratios(rows, side, groups);
    var ranked := PySlice(Sort(ratios, desc), topN);
    places := [];
    var rank := 1;
    while rank <= |ranked|
      invariant 1 <= rank <= |ranked| + 1 && |places| == rank - 1
      invariant forall k :: 0 <= k < rank - 1 ==> places[k] == Place(k + 1, ranked[k].id, Hundredths(ranked[k].key))
    {
      places := places + [Place(rank, ranked[rank - 1].id, Hundredths(ranked[rank - 1].key))];
      rank := rank + 1;
    }
    assert places == RatioPlaces(ranked);
  }

  /** `haters`: reactors by the ratio of the votes they give, lowest first. */
  method Haters(rows: seq<Row>, topN: int) returns (places: seq<Place>)
    ensures places == RatioPlaces(RatioRanking(rows, Reactor, false, topN))
  {
    places := RankByRatio(rows, Reactor, false, topN);
  }

  /** `popularity`: reactees by the ratio of the votes they receive, highest first. */
  method Popularity(rows: seq<Row>, topN: int) returns (places: seq<Place>)
    ensures places == RatioPlaces(RatioRanking(rows, Reactee, true, topN))
  {
    places := RankByRatio(rows, Reactee, true, topN);
  }

  /**
   * A ratio ranking lists distinct users of that side with their true ratios,
   * in order, as many as `top_n` allows; and every user it leaves out has a
   * ratio that may come after every listed one.
   */
  lemma RatioRankingListed(rows: seq<Row>, side: Side, desc: bool, topN: int)
    ensures var r := RatioRanking(rows, side, desc, topN);
      && Sorted(r, desc) && DistinctIds(r)
      && (forall i :: 0 <= i < |r| ==> r[i].key == RatioOf(rows, side, r[i].id) && r[i].id in Parties(rows, side))
      && (topN >= 0 ==> |r| == Min(topN, |Parties(rows, side)|))
  {
    var es := Ratios(rows, side, Parties(rows, side));
    var r := RatioRanking(rows, side, desc, topN);
    CutOfSortIn(es, desc, r);
    DistinctIdsKept(es, Sort(es, desc), |r|);
  }

  /**
   * A user of that side whom the ratio ranking leaves out has a ratio that
   * may come after every listed one.
   */
  lemma RatioRankingIsTop(rows: seq<Row>, side: Side, desc: bool, topN: int, user: nat)
    requires user in Parties(rows, side)
    ensures var e := Entry(user, RatioOf(rows, side, user));
      var r := RatioRanking(rows, side, desc, topN);
      e !in r ==> forall i :: 0 <= i < |r| ==> Before(r[i], e, desc)
  {
    var groups := Parties(rows, side);
    var es := Ratios(rows, side, groups);
    var e := Entry(user, RatioOf(rows, side, user));
    var sorted := Sort(es, desc);
    var r := PySlice(sorted, topN);
    var k :| 0 <= k < |groups| && groups[k] == user;
    assert es[k] == e;
    if e !in r {
      assert r == sorted[..|r|];
      TopOfSorted(es, |r|, e, desc);
    }
  }

  // ---------------------------------------------------------------------
  // topalltime
  // ---------------------------------------------------------------------

  /** `SUM(CASE WHEN value = up THEN 1 WHEN value = down THEN -1 ELSE 0 END)` over one message's rows. */
  function Score(rows: seq<Row>, message: nat): int
    decreases |rows|
  {
    if |rows| == 0 then 0
    else
      var r := rows[|rows| - 1];
      Score(rows[..|rows| - 1], message)
        + if r.messageId != message then 0
          else if r.value == UpvoteEmoji then 1
          else if r.value == DownvoteEmoji then -1
          else 0
  }

  /** A message's score is its number of upvotes less its number of downvotes. */
  lemma {:induction false} ScoreIsUpMinusDown(rows: seq<Row>, message: nat)
    ensures Score(rows, message) == CountOf(rows, Message, message, UpvoteEmoji) - CountOf(rows, Message, message, DownvoteEmoji)
    decreases |rows|
  {
    if |rows| > 0 {
      assert UpvoteEmoji != DownvoteEmoji by {
        assert UpvoteEmoji[0] != DownvoteEmoji[0];
      }
      ScoreIsUpMinusDown(rows[..|rows| - 1], message);
    }
  }

  function Scores(rows: seq<Row>, messages: seq<nat>): (r: seq<Entry>)
    ensures |r| == |messages|
    ensures forall i :: 0 <= i < |messages| ==> r[i] == Entry(messages[i], Score(rows, messages[i]) as real)
  {
    seq(|messages|, i requires 0 <= i < |messages| => Entry(messages[i], Score(rows, messages[i]) as real))
  }

  /** The query of `topalltime`: messages by score, highest first, `LIMIT top_n`. */
  function TopPosts(rows: seq<Row>, topN: int): seq<Entry> {
    SqlLimit(Sort(Scores(rows, Parties(rows, Message)), true), topN)
  }

  /**
   * The top posts are distinct messages of the table with their true
   * scores, highest first, as many as the limit allows; a message left out
   * scores no more than any listed one.
   */
  lemma TopPostsListed(rows: seq<Row>, topN: int)
    ensures var r := TopPosts(rows, topN);
      && Sorted(r, true) && DistinctIds(r)
      && (forall i :: 0 <= i < |r| ==> r[i].key == Score(rows, r[i].id) as real && r[i].id in Parties(rows, Message))
      && (topN >= 0 ==> |r| == Min(topN, |Parties(rows, Message)|))
      && (topN < 0 ==> |r| == |Parties(rows, Message)|)
  {
    var es := Scores(rows, Parties(rows, Message));
    var r := TopPosts(rows, topN);
    CutOfSortIn(es, true, r);
    DistinctIdsKept(es, Sort(es, true), |r|);
  }

  lemma TopPostsIsTop(rows: seq<Row>, topN: int, message: nat)
    requires message in Parties(rows, Message)
    ensures var r := TopPosts(rows, topN);
      (forall i :: 0 <= i < |r| ==> r[i].id != message) ==> forall i :: 0 <= i < |r| ==> r[i].key >= Score(rows, message) as real
  {
    var groups := Parties(rows, Message);
    var es := Scores(rows, groups);
    var e := Entry(message, Score(rows, message) as real);
    var sorted := Sort(es, true);
    var r := SqlLimit(sorted, topN);
    var k :| 0 <= k < |groups| && groups[k] == message;
    assert es[k] == e;
    if forall i :: 0 <= i < |r| ==> r[i].id != message {
      assert e !in r;
      assert r == sorted[..|r|];
      TopOfSorted(es, |r|, e, true);
    }
  }

  /**
   * The jump URL of a message from the first text channel whose fetch of it
   * succeeds; `found(c, m)` stands for `channel.fetch_message(m)` in channel
   * `c`, `None` when it raises. The embed shows "Link not found" for `None`.
   */
  function LinkOf(channels: seq<nat>, found: (nat, nat) -> Option<string>, message: nat): (l: Option<string>)
    ensures l.None? <==> forall c :: 0 <= c < |channels| ==> found(channels[c], message).None?
    ensures l.Some? ==> exists c :: 0 <= c < |channels| && FirstFound(channels, found, message, c) && found(channels[c], message) == l
    decreases |channels|
  {
    if |channels| == 0 then None
    else if found(channels[0], message).Some? then
      assert FirstFound(channels, found, message, 0);
      found(channels[0], message)
    else
      var rest := LinkOf(channels[1..], found, message);
      assert forall c :: 1 <= c < |channels| ==> channels[c] == channels[1..][c - 1];
      assert forall c :: 1 <= c < |channels| && FirstFound(channels[1..], found, message, c - 1) ==> FirstFound(channels, found, message, c);
      rest
  }

  /** Channel `c` is the first in which the message is found. */
  predicate FirstFound(channels: seq<nat>, found: (nat, nat) -> Option<string>, message: nat, c: nat)
    requires c < |channels|
  {
    found(channels[c], message).Some? && forall b :: 0 <= b < c ==> found(channels[b], message).None?
  }

  /** One field of the `topalltime` embed. */
  datatype Post = Post(rank: nat, score: int, link: string)

  datatype TopReply = NoPosts | Posts(topN: int, posts: seq<Post>)

  /** The embed of `topalltime` for the top posts `top`: ranks from 1, each score and link. */
  function PostsOf(rows: seq<Row>, top: seq<Entry>, channels: seq<nat>, found: (nat, nat) -> Option<string>): (ps: seq<Post>)
    ensures |ps| == |top|
    ensures forall i :: 0 <= i < |top| ==>
      ps[i] == Post(i + 1, Score(rows, top[i].id), LinkOf(channels, found, top[i].id).GetOr(LinkNotFound))
  {
    seq(|top|, i requires 0 <= i < |top| =>
      Post(i + 1, Score(rows, top[i].id), LinkOf(channels, found, top[i].id).GetOr(LinkNotFound)))
  }

  /**
   * `topalltime`: without rows the no-data message; otherwise the top posts,
   * each link looked up channel by channel until a fetch succeeds.
   */
  method TopAllTime(rows: seq<Row>, topN: int, channels: seq<nat>, found: (nat, nat) -> Option<string>)
    returns (reply: TopReply)
    ensures var top := TopPosts(rows, topN);
      reply == if |top| == 0 then NoPosts else Posts(topN, PostsOf(rows, top, channels, found))
  {
    var top := TopPosts(rows, topN);
    if |top| == 0 {
      return NoPosts;
    }
    TopPostsListed(rows, topN);
    var posts: seq<Post> := [];
    var rank := 1;
    while rank <= |top|
      invariant 1 <= rank <= |top| + 1 && |posts| == rank - 1
      invariant forall k :: 0 <= k < rank - 1 ==>
        posts[k] == Post(k + 1, Score(rows, top[k].id), LinkOf(channels, found, top[k].id).GetOr(LinkNotFound))
    {
      var link := FindLink(channels, found, top[rank - 1].id);
      posts := posts + [Post(rank, top[rank - 1].key.Floor, link)];
      rank := rank + 1;
    }
    reply := Posts(topN, posts);
  }

  /** The loop over the text channels: stop at the first that finds the message. */
  method FindLink(channels: seq<nat>, found: (nat, nat) -> Option<string>, message: nat) returns (link: string)
    ensures link == LinkOf(channels, found, message).GetOr(LinkNotFound)
  {
    link := LinkNotFound;
    var c := 0;
    while c < |channels|
      invariant 0 <= c <= |channels|
      invariant forall b :: 0 <= b < c ==> found(channels[b], message).None?
    {
      var msg := found(channels[c], message);
      if msg.Some? {
        link := msg.value;
        FirstFoundIsLink(channels, found, message, c);
        return;
      }
      c := c + 1;
    }
  }

  /** The first channel that finds the message gives its link. */
  lemma FirstFoundIsLink(channels: seq<nat>, found: (nat, nat) -> Option<string>, message: nat, c: nat)
    requires c < |channels| && FirstFound(channels, found, message, c)
    ensures LinkOf(channels, found, message) == found(channels[c], message)
  {
    var l := LinkOf(channels, found, message);
    var d :| 0 <= d < |channels| && FirstFound(channels, found, message, d) && found(channels[d], message) == l;
    assert !(d < c) && !(c < d);
  }

  // ---------------------------------------------------------------------
  // reactees and reactors
  // ---------------------------------------------------------------------

  /** `WHERE <side> = user`: the matching rows, in table order. */
  function Filter(rows: seq<Row>, side: Side, user: int): (r: seq<Row>)
    ensures |r| <= |rows|
    decreases |rows|
  {
    if |rows| == 0 then []
    else Filter(rows[..|rows| - 1], side, user) + if Party(rows[|rows| - 1], side) == user then [rows[|rows| - 1]] else []
  }

  /** The filtered rows are exactly the rows of the table with that value in the column. */
  lemma {:induction false} FilterMembers(rows: seq<Row>, side: Side, user: int, x: Row)
    ensures x in Filter(rows, side, user) <==> x in rows && Party(x, side) == user
    decreases |rows|
  {
    if |rows| > 0 {
      var init := rows[..|rows| - 1];
      assert rows == init + [rows[|rows| - 1]];
      FilterMembers(init, side, user, x);
    }
  }

  /** Filtering on two columns gives the same rows in either order. */
  lemma {:induction false} FilterCommutes(rows: seq<Row>, a: Side, x: int, b: Side, y: int)
    ensures Filter(Filter(rows, a, x), b, y) == Filter(Filter(rows, b, y), a, x)
    decreases |rows|
  {
    if |rows| > 0 {
      var init := rows[..|rows| - 1];
      var last := rows[|rows| - 1];
      FilterCommutes(init, a, x, b, y);
      var fa, fb := Filter(init, a, x), Filter(init, b, y);
      if Party(last, a) == x {
        FilterSnoc(fa, last, b, y);
      } else {
        assert Filter(rows, a, x) == fa;
      }
      if Party(last, b) == y {
        FilterSnoc(fb, last, a, x);
      } else {
        assert Filter(rows, b, y) == fb;
      }
    }
  }

  lemma FilterSnoc(rows: seq<Row>, r: Row, side: Side, user: int)
    ensures Filter(rows + [r], side, user) == Filter(rows, side, user) + if Party(r, side) == user then [r] else []
  {
    assert (rows + [r])[..|rows|] == rows;
  }

  /** The rows of `mine` grouped by `groupBy`, each group with its row count, `COUNT(*)`. */
  function CountEntries(mine: seq<Row>, groupBy: Side, groups: seq<nat>): (r: seq<Entry>)
    ensures |r| == |groups|
    ensures forall i :: 0 <= i < |groups| ==> r[i] == Entry(groups[i], |Filter(mine, groupBy, groups[i])| as real)
  {
    seq(|groups|, i requires 0 <= i < |groups| => Entry(groups[i], |Filter(mine, groupBy, groups[i])| as real))
  }

  /**
   * `WHERE <filterBy> = target GROUP BY <groupBy> ORDER BY count DESC LIMIT top_n`:
   * the users the target is paired with most often.
   */
  function Counterparts(rows: seq<Row>, filterBy: Side, target: int, groupBy: Side, topN: int): seq<Entry> {
    var mine := Filter(rows, filterBy, target);
    SqlLimit(Sort(CountEntries(mine, groupBy, Parties(mine, groupBy)), true), topN)
  }

  /** `reactees`: whom the caller reacted to, and how often. */
  function Reactees(rows: seq<Row>, author: nat, topN: int): seq<Entry> {
    Counterparts(rows, Reactor, author, Reactee, topN)
  }

  /** `reactors`: who reacted to the caller, and how often. */
  function Reactors(rows: seq<Row>, author: nat, topN: int): seq<Entry> {
    Counterparts(rows, Reactee, author, Reactor, topN)
  }

  /** The number of rows with that reactor and that reactee. */
  function Pairings(rows: seq<Row>, reactor: int, reactee: int): nat {
    |Filter(Filter(rows, Reactor, reactor), Reactee, reactee)|
  }

  /**
   * Every counterpart listed was paired with the target, with the true
   * number of pairings, most first, distinct, as many as the limit allows.
   */
  lemma CounterpartsListed(rows: seq<Row>, filterBy: Side, target: int, groupBy: Side, topN: int)
    ensures var mine := Filter(rows, filterBy, target);
      var r := Counterparts(rows, filterBy, target, groupBy, topN);
      && Sorted(r, true) && DistinctIds(r)
      && (forall i :: 0 <= i < |r| ==>
            r[i].key == |Filter(mine, groupBy, r[i].id)| as real && r[i].id in Parties(mine, groupBy))
      && (topN >= 0 ==> |r| == Min(topN, |Parties(mine, groupBy)|))
  {
    var mine := Filter(rows, filterBy, target);
    var es := CountEntries(mine, groupBy, Parties(mine, groupBy));
    var r := Counterparts(rows, filterBy, target, groupBy, topN);
    CutOfSortIn(es, true, r);
    DistinctIdsKept(es, Sort(es, true), |r|);
  }

  /** A counterpart the limit leaves out was paired no more often than any listed one. */
  lemma CounterpartsIsTop(rows: seq<Row>, filterBy: Side, target: int, groupBy: Side, topN: int, other: nat)
    requires other in Parties(Filter(rows, filterBy, target), groupBy)
    ensures var mine := Filter(rows, filterBy, target);
      var r := Counterparts(rows, filterBy, target, groupBy, topN);
      (forall i :: 0 <= i < |r| ==> r[i].id != other) ==>
        forall i :: 0 <= i < |r| ==> r[i].key >= |Filter(mine, groupBy, other)| as real
  {
    var mine := Filter(rows, filterBy, target);
    var groups := Parties(mine, groupBy);
    var es := CountEntries(mine, groupBy, groups);
    var e := Entry(other, |Filter(mine, groupBy, other)| as real);
    var sorted := Sort(es, true);
    var r := SqlLimit(sorted, topN);
    var k :| 0 <= k < |groups| && groups[k] == other;
    assert es[k] == e;
    if forall i :: 0 <= i < |r| ==> r[i].id != other {
      assert e !in r;
      assert r == sorted[..|r|];
      TopOfSorted(es, |r|, e, true);
    }
  }

  /** The count `reactees` shows A for B is the count `reactors` shows B for A. */
  lemma ReacteesMirrorReactors(rows: seq<Row>, a: nat, b: nat)
    ensures |Filter(Filter(rows, Reactor, a), Reactee, b)| == |Filter(Filter(rows, Reactee, b), Reactor, a)|
    ensures Pairings(rows, a, b) == |Filter(Filter(rows, Reactee, b), Reactor, a)|
  {
    FilterCommutes(rows, Reactor, a, Reactee, b);
  }

  /** The fields of a count ranking: rank `i + 1` for the `i`-th entry and its count. */
  function CountPlaces(entries: seq<Entry>): (ps: seq<Place>)
    ensures |ps| == |entries|
    ensures forall i :: 0 <= i < |entries| ==> ps[i] == Place(i + 1, entries[i].id, entries[i].key)
  {
    seq(|entries|, i requires 0 <= i < |entries| => Place(i + 1, entries[i].id, entries[i].key))
  }

  /** The loop that numbers the query's rows from 1 into embed fields. */
  method Number(entries: seq<Entry>) returns (places: seq<Place>)
    ensures places == CountPlaces(entries)
  {
    places := [];
    var rank := 1;
    while rank <= |entries|
      invariant 1 <= rank <= |entries| + 1 && |places| == rank - 1
      invariant forall k :: 0 <= k < rank - 1 ==> places[k] == Place(k + 1, entries[k].id, entries[k].key)
    {
      places := places + [Place(rank, entries[rank - 1].id, entries[rank - 1].key)];
      rank := rank + 1;
    }
  }

  /** `reactees` as the command shows it. */
  method ReacteesCommand(rows: seq<Row>, author: nat, topN: int) returns (places: seq<Place>)
    ensures places == CountPlaces(Reactees(rows, author, topN))
  {
    places := Number(Reactees(rows, author, topN));
  }

  /** `reactors` as the command shows it. */
  method ReactorsCommand(rows: seq<Row>, author: nat, topN: int) returns (places: seq<Place>)
    ensures places == CountPlaces(Reactors(rows, author, topN))
  {
    places := Number(Reactors(rows, author, topN));
  }

  // ---------------------------------------------------------------------
  // leaderboard
  // ---------------------------------------------------------------------

  /** The users with a karma row in the guild. */
  function GuildUsers(karma: map<(nat, nat), int>, guild: nat): set<nat> {
    set k | k in karma && k.0 == guild :: k.1
  }

  datatype Board = NoKarma | Leaders(places: seq<Place>)

  /** The ids of a list of entries. */
  function IdsOf(s: seq<Entry>): set<nat> {
    set i | 0 <= i < |s| :: s[i].id
  }

  /**
   * The numbered leaders of a guild: ranks from 1, each a guild user shown
   * with their karma, karma not increasing down the list, no user twice,
   * and nobody left out with more karma than anyone listed.
   */
  predicate Leading(karma: map<(nat, nat), int>, guild: nat, ps: seq<Place>) {
    var users := GuildUsers(karma, guild);
    && (forall i :: 0 <= i < |ps| ==>
          ps[i].rank == i + 1 && ps[i].id in users && ps[i].shown == karma[(guild, ps[i].id)] as real)
    && (forall i, j :: 0 <= i < j < |ps| ==> ps[i].shown >= ps[j].shown && ps[i].id != ps[j].id)
    && (forall u :: u in users && (forall i :: 0 <= i < |ps| ==> ps[i].id != u) ==>
          forall i :: 0 <= i < |ps| ==> ps[i].shown >= karma[(guild, u)] as real)
  }

  /**
   * `leaderboard`: the guild's karma rows by karma, highest first, at most
   * `top_n` of them (all of them for a negative `top_n`), numbered from 1;
   * the no-data message when there is no row to show.
   */
  method Leaderboard(db: Database, guild: nat, topN: int) returns (reply: Board)
    ensures var users := GuildUsers(db.karma, guild);
      reply.NoKarma? <==> topN == 0 || users == {}
    ensures reply.Leaders? ==>
      && Leading(db.karma, guild, reply.places)
      && (topN >= 0 ==> |reply.places| == Min(topN, |GuildUsers(db.karma, guild)|))
      && (topN < 0 ==> |reply.places| == |GuildUsers(db.karma, guild)|)
  {
    var entries := GuildEntries(db, guild);
    var top := SqlLimit(Sort(entries, true), topN);
    LeadersListed(db.karma, guild, entries, top);
    if |top| == 0 {
      return NoKarma;
    }
    var places := Number(top);
    LeaderPlaces(db.karma, guild, top, places);
    reply := Leaders(places);
  }

  /** The numbered fields carry over what holds of the entries they number. */
  lemma LeaderPlaces(karma: map<(nat, nat), int>, guild: nat, top: seq<Entry>, ps: seq<Place>)
    requires ps == CountPlaces(top) && Sorted(top, true) && DistinctIds(top)
    requires forall i :: 0 <= i < |top| ==>
      top[i].id in GuildUsers(karma, guild) && top[i].key == karma[(guild, top[i].id)] as real
    requires forall u :: u in GuildUsers(karma, guild) && (forall i :: 0 <= i < |top| ==> top[i].id != u) ==>
      forall i :: 0 <= i < |top| ==> top[i].key >= karma[(guild, u)] as real
    ensures Leading(karma, guild, ps)
  {
    forall u | u in GuildUsers(karma, guild) && (forall i :: 0 <= i < |ps| ==> ps[i].id != u)
      ensures forall i :: 0 <= i < |ps| ==> ps[i].shown >= karma[(guild, u)] as real
    {
      assert forall i :: 0 <= i < |top| ==> top[i].id == ps[i].id;
    }
  }

  /**
   * Part way through gathering a guild's karma rows: the users not yet
   * taken and those taken make up all of them, and each taken user has one
   * entry carrying their karma.
   */
  predicate Gathered(karma: map<(nat, nat), int>, guild: nat, entries: seq<Entry>, remaining: set<nat>, users: set<nat>) {
    && remaining !! IdsOf(entries) && remaining + IdsOf(entries) == users
    && DistinctIds(entries) && |entries| + |remaining| == |users|
    && forall i :: 0 <= i < |entries| ==>
      (guild, entries[i].id) in karma && entries[i].key == karma[(guild, entries[i].id)] as real
  }

  /** The karma rows of the guild, one entry per user, in whatever order the table yields them. */
  method GuildEntries(db: Database, guild: nat) returns (entries: seq<Entry>)
    ensures DistinctIds(entries) && IdsOf(entries) == GuildUsers(db.karma, guild)
    ensures |entries| == |GuildUsers(db.karma, guild)|
    ensures forall i :: 0 <= i < |entries| ==>
      (guild, entries[i].id) in db.karma && entries[i].key == db.karma[(guild, entries[i].id)] as real
  {
    var remaining := GuildUsers(db.karma, guild);
    ghost var users := remaining;
    entries := [];
    while remaining != {}
      invariant Gathered(db.karma, guild, entries, remaining, users)
      decreases |remaining|
    {
      var u :| u in remaining;
      assert (guild, u) in db.karma;
      var e := Entry(u, db.karma[(guild, u)] as real);
      GatherOne(db.karma, guild, entries, remaining, users, e);
      entries := entries + [e];
      remaining := remaining - {u};
    }
  }

  /** Taking one more user keeps the gathering consistent. */
  lemma GatherOne(karma: map<(nat, nat), int>, guild: nat, entries: seq<Entry>, remaining: set<nat>, users: set<nat>, e: Entry)
    requires Gathered(karma, guild, entries, remaining, users)
    requires e.id in remaining && (guild, e.id) in karma && e.key == karma[(guild, e.id)] as real
    ensures Gathered(karma, guild, entries + [e], remaining - {e.id}, users)
  {
    IdsSnoc(entries, e);
    RemoveOne(remaining, IdsOf(entries), e.id, users);
    DistinctSnoc(entries, e);
    KarmaSnoc(karma, guild, entries, e);
  }

  lemma DistinctSnoc(s: seq<Entry>, e: Entry)
    requires DistinctIds(s) && e.id !in IdsOf(s)
    ensures DistinctIds(s + [e])
  {
    var t := s + [e];
    forall i | 0 <= i < |s| ensures t[i] == s[i] && s[i].id != e.id {
      assert s[i].id in IdsOf(s);
    }
  }

  lemma KarmaSnoc(karma: map<(nat, nat), int>, guild: nat, s: seq<Entry>, e: Entry)
    requires forall i :: 0 <= i < |s| ==> (guild, s[i].id) in karma && s[i].key == karma[(guild, s[i].id)] as real
    requires (guild, e.id) in karma && e.key == karma[(guild, e.id)] as real
    ensures forall i :: 0 <= i < |s + [e]| ==>
      (guild, (s + [e])[i].id) in karma && (s + [e])[i].key == karma[(guild, (s + [e])[i].id)] as real
  {
    var t := s + [e];
    assert forall i :: 0 <= i < |s| ==> t[i] == s[i];
  }

  lemma RemoveOne(remaining: set<nat>, ids: set<nat>, u: nat, users: set<nat>)
    requires u in remaining && remaining !! ids && remaining + ids == users
    ensures (remaining - {u}) !! (ids + {u}) && (remaining - {u}) + (ids + {u}) == users
    ensures |remaining - {u}| == |remaining| - 1
  {
  }

  /** Appending an entry adds its id and no other. */
  lemma IdsSnoc(s: seq<Entry>, e: Entry)
    ensures IdsOf(s + [e]) == IdsOf(s) + {e.id}
  {
    var t := s + [e];
    forall x ensures x in IdsOf(t) <==> x in IdsOf(s) || x == e.id {
      if x in IdsOf(t) {
        var i :| 0 <= i < |t| && t[i].id == x;
        if i < |s| {
          assert s[i].id == x;
        }
      }
      if x in IdsOf(s) {
        var i :| 0 <= i < |s| && s[i].id == x;
        assert t[i].id == x;
      }
      if x == e.id {
        assert t[|s|].id == x;
      }
    }
  }

  /** What the leaderboard shows, stated of the cut of the sorted guild entries. */
  lemma LeadersListed(karma: map<(nat, nat), int>, guild: nat, entries: seq<Entry>, top: seq<Entry>)
    requires var users := GuildUsers(karma, guild);
      && DistinctIds(entries) && IdsOf(entries) == users && |entries| == |users|
      && (forall i :: 0 <= i < |entries| ==>
            (guild, entries[i].id) in karma && entries[i].key == karma[(guild, entries[i].id)] as real)
    requires |top| <= |entries| && top == Sort(entries, true)[..|top|]
    ensures forall i :: 0 <= i < |top| ==>
      top[i].id in GuildUsers(karma, guild) && top[i].key == karma[(guild, top[i].id)] as real
    ensures Sorted(top, true) && DistinctIds(top)
    ensures forall u :: u in GuildUsers(karma, guild) && (forall i :: 0 <= i < |top| ==> top[i].id != u) ==>
      forall i :: 0 <= i < |top| ==> top[i].key >= karma[(guild, u)] as real
  {
    CutOfSortIn(entries, true, top);
    DistinctIdsKept(entries, Sort(entries, true), |top|);
    forall i | 0 <= i < |top| ensures top[i].id in GuildUsers(karma, guild) {
      var a :| 0 <= a < |entries| && entries[a] == top[i];
      assert entries[a].id in IdsOf(entries);
    }
    forall u | u in GuildUsers(karma, guild) && (forall i :: 0 <= i < |top| ==> top[i].id != u)
      ensures forall i :: 0 <= i < |top| ==> top[i].key >= karma[(guild, u)] as real
    {
      assert u in IdsOf(entries);
      var a :| 0 <= a < |entries| && entries[a].id == u;
      assert entries[a] !in top;
      TopOfSorted(entries, |top|, entries[a], true);
    }
  }
}

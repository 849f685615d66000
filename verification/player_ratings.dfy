/** Player ratings over a game record (ComputePlayerRatings).
    Every player starts at 1500. The decisive games are replayed in order;
    after each one the winner gains a clamped integer `delta` and the loser
    loses the same amount. A player's score is the mean, with truncating
    integer division, of the ratings the player held after each of their
    games. The scores are listed best first.

    Reading the game database, dropping draws and ordering games by date come
    before this: the model takes the ordered sequence of decisive games. The
    maps stand for `std::unordered_map`, whose `operator[]` reads a missing
    key as 0 (`Get`). */
module PlayerRatings {
  import opened ShogiTypes
  import Sorting

  const INITIAL_RATING := 1500

  /** A decisive game: the two players and the winning side. */
  datatype Game = Game(black: string, white: string, winner: Color) {
    function Player(c: Color): string {
      if c == Black then black else white
    }
    function WinnerName(): string { Player(winner) }
    function LoserName(): string { Player(winner.Opponent()) }
  }

  // ---------------------------------------------------------------------
  // Integer arithmetic as C++ does it.

  /** C++ integer division, which truncates toward zero (Dafny's `/` is
      Euclidean). Only positive divisors occur in the program. */
  function TruncDiv(a: int, b: int): (q: int)
    requires b > 0
    ensures a >= 0 ==> 0 <= a - q * b < b
    ensures a < 0 ==> -b < a - q * b <= 0
  {
    if a >= 0 then a / b else -((-a) / b)
  }

  /** Truncation is symmetric about zero, which floor division is not. */
  lemma TruncDivNegate(a: int, b: int)
    requires b > 0
    ensures TruncDiv(-a, b) == -TruncDiv(a, b)
  {
  }

  lemma TruncDivMonotone(a1: int, a2: int, b: int)
    requires b > 0 && a1 <= a2
    ensures TruncDiv(a1, b) <= TruncDiv(a2, b)
  {
    var q1, q2 := TruncDiv(a1, b), TruncDiv(a2, b);
    if q1 > q2 {
      if a1 < 0 <= a2 {
        TruncDivSign(a1, b);
        TruncDivSign(a2, b);
      } else {
        MulMonotone(q2 + 1, q1, b);
        MulSucc(q2, b);
      }
      assert false;
    }
  }

  /** The quotient has the sign of the dividend (or is zero). */
  lemma TruncDivSign(a: int, b: int)
    requires b > 0
    ensures a >= 0 ==> TruncDiv(a, b) >= 0
    ensures a <= 0 ==> TruncDiv(a, b) <= 0
  {
    var q := TruncDiv(a, b);
    if a >= 0 && q < 0 {
      MulMonotone(q, -1, b);
      assert false;
    }
    if a <= 0 && q > 0 {
      MulMonotone(1, q, b);
      assert false;
    }
  }

  lemma MulMonotone(x: int, y: int, b: int)
    requires b > 0 && x <= y
    ensures x * b <= y * b
  {
  }

  lemma MulSucc(x: int, b: int)
    ensures (x + 1) * b == x * b + b
  {
  }

  function Min(x: int, y: int): int { if x <= y then x else y }
  function Max(x: int, y: int): int { if x >= y then x else y }

  // ---------------------------------------------------------------------
  // One game.

  /** The points the winner takes from the loser: 16 for equal ratings,
      one more for every full 25 points the loser is ahead (one fewer for
      every full 25 behind), kept within 1..31. */
  function Delta(winnerRating: int, loserRating: int): (d: int)
    ensures 1 <= d <= 31
    ensures winnerRating == loserRating ==> d == 16
    ensures loserRating - winnerRating >= 375 ==> d == 31
    ensures winnerRating - loserRating >= 375 ==> d == 1
  {
    Max(1, Min(16 + TruncDiv(loserRating - winnerRating, 25), 31))
  }

  /** The two players of a game trade the same amount whichever way it goes:
      the two possible deltas of a pairing always add up to 32. This rests on
      truncating division: with floor division a one-point difference would
      give 15 one way and 16 the other. */
  lemma DeltaSymmetric(r1: int, r2: int)
    ensures Delta(r1, r2) + Delta(r2, r1) == 32
  {
    TruncDivNegate(r2 - r1, 25);
    assert r1 - r2 == -(r2 - r1);
  }

  /** Beating a stronger player is worth at least as much as beating a weaker one. */
  lemma DeltaMonotone(winner1: int, loser1: int, winner2: int, loser2: int)
    requires loser1 - winner1 <= loser2 - winner2
    ensures Delta(winner1, loser1) <= Delta(winner2, loser2)
  {
    TruncDivMonotone(loser1 - winner1, loser2 - winner2, 25);
  }

  /** `operator[]` on an unordered_map: a missing key reads as 0. */
  function Get(m: map<string, int>, k: string): int {
    if k in m then m[k] else 0
  }

  /** The rating table after one game: the winner gains Delta, the loser loses
      it (a player recorded on both sides ends where they started). */
  function ApplyGame(ratings: map<string, int>, g: Game): (r: map<string, int>)
    ensures r.Keys == ratings.Keys + {g.WinnerName(), g.LoserName()}
    ensures g.WinnerName() != g.LoserName() ==>
      && r[g.WinnerName()] == Get(ratings, g.WinnerName()) + Delta(Get(ratings, g.WinnerName()), Get(ratings, g.LoserName()))
      && r[g.LoserName()] == Get(ratings, g.LoserName()) - Delta(Get(ratings, g.WinnerName()), Get(ratings, g.LoserName()))
    ensures g.WinnerName() == g.LoserName() ==> r[g.WinnerName()] == Get(ratings, g.WinnerName())
    ensures forall p :: p in ratings && p != g.WinnerName() && p != g.LoserName() ==> r[p] == ratings[p]
  {
    var w, l := g.WinnerName(), g.LoserName();
    var delta := Delta(Get(ratings, w), Get(ratings, l));
    var afterWin := ratings[w := Get(ratings, w) + delta];
    afterWin[l := Get(afterWin, l) - delta]
  }

  // ---------------------------------------------------------------------
  // The whole record, as specification.

  /** The rating table after the games, replayed first to last. */
  function Replay(ratings: map<string, int>, games: seq<Game>): map<string, int>
    decreases |games|
  {
    if games == [] then ratings
    else ApplyGame(Replay(ratings, games[..|games| - 1]), games[|games| - 1])
  }

  /** The ratings `p` held right after each of their games, in order; a game
      `p` plays on both sides contributes two entries. */
  function PostGameRatings(ratings: map<string, int>, games: seq<Game>, p: string): seq<int>
    decreases |games|
  {
    if games == [] then []
    else
      PostGameRatings(ratings, games[..|games| - 1], p)
        + SeatRatings(games[|games| - 1], Replay(ratings, games), p)
  }

  /** `p`'s rating after game `g`, once per side of `g` that `p` sat on. */
  function SeatRatings(g: Game, after: map<string, int>, p: string): seq<int> {
    (if p == g.WinnerName() then [Get(after, p)] else [])
      + (if p == g.LoserName() then [Get(after, p)] else [])
  }

  /** Everyone who played. */
  function Players(games: seq<Game>): set<string>
    decreases |games|
  {
    if games == [] then {}
    else Players(games[..|games| - 1]) + {games[|games| - 1].black, games[|games| - 1].white}
  }

  /** How many seats `p` took: one per game, two for a game against oneself. */
  function Appearances(games: seq<Game>, p: string): (n: nat)
    ensures n > 0 <==> p in Players(games)
    ensures n <= 2 * |games|
    decreases |games|
  {
    if games == [] then 0
    else
      var g := games[|games| - 1];
      Appearances(games[..|games| - 1], p) + (if g.black == p then 1 else 0) + (if g.white == p then 1 else 0)
  }

  function InitialRatings(games: seq<Game>): (r: map<string, int>)
    ensures r.Keys == Players(games)
  {
    map p | p in Players(games) :: INITIAL_RATING
  }

  function Sum(s: seq<int>): int
    decreases |s|
  {
    if s == [] then 0 else Sum(s[..|s| - 1]) + s[|s| - 1]
  }

  /** A player's score: the truncated mean of their post-game ratings. */
  function Score(games: seq<Game>, p: string): int
    requires p in Players(games)
  {
    TruncDiv(Sum(PostGameRatings(InitialRatings(games), games, p)), Appearances(games, p))
  }

  // ---------------------------------------------------------------------
  // Properties of the specification.

  lemma {:induction false} SumAppend(a: seq<int>, b: seq<int>)
    ensures Sum(a + b) == Sum(a) + Sum(b)
    decreases |b|
  {
    if b != [] {
      assert (a + b)[..|a + b| - 1] == a + b[..|b| - 1];
      SumAppend(a, b[..|b| - 1]);
    } else {
      assert a + b == a;
    }
  }

  /** One entry per seat taken. */
  lemma {:induction false} PostGameRatingsCount(ratings: map<string, int>, games: seq<Game>, p: string)
    ensures |PostGameRatings(ratings, games, p)| == Appearances(games, p)
    decreases |games|
  {
    if games != [] {
      PostGameRatingsCount(ratings, games[..|games| - 1], p);
      var g := games[|games| - 1];
      assert {g.WinnerName(), g.LoserName()} == {g.black, g.white};
      if g.winner == White {
        assert g.WinnerName() == g.white && g.LoserName() == g.black;
      }
    }
  }

  /** The sum of all ratings in a table. */
  ghost function Total(m: map<string, int>): int
    decreases |m|
  {
    if m == map[] then 0
    else
      var k :| k in m;
      m[k] + Total(m - {k})
  }

  lemma {:induction false} TotalRemove(m: map<string, int>, k: string)
    requires k in m
    ensures Total(m) == m[k] + Total(m - {k})
    decreases |m|
  {
    var j :| j in m && Total(m) == m[j] + Total(m - {j});
    if j != k {
      TotalRemove(m - {j}, k);
      TotalRemove(m - {k}, j);
      assert m - {j} - {k} == m - {k} - {j};
    }
  }

  lemma TotalUpdate(m: map<string, int>, k: string, v: int)
    ensures Total(m[k := v]) == Total(m) - Get(m, k) + v
  {
    TotalRemove(m[k := v], k);
    assert m[k := v] - {k} == m - {k};
    if k in m {
      TotalRemove(m, k);
    } else {
      assert m - {k} == m;
    }
  }

  /** Each game is zero-sum: the rating total does not change. */
  lemma GameIsZeroSum(ratings: map<string, int>, g: Game)
    ensures Total(ApplyGame(ratings, g)) == Total(ratings)
  {
    var w, l := g.WinnerName(), g.LoserName();
    var delta := Delta(Get(ratings, w), Get(ratings, l));
    var afterWin := ratings[w := Get(ratings, w) + delta];
    TotalUpdate(ratings, w, Get(ratings, w) + delta);
    TotalUpdate(afterWin, l, Get(afterWin, l) - delta);
  }

  /** So the whole record is zero-sum too. */
  lemma {:induction false} ReplayConservesTotal(ratings: map<string, int>, games: seq<Game>)
    ensures Total(Replay(ratings, games)) == Total(ratings)
    decreases |games|
  {
    if games != [] {
      ReplayConservesTotal(ratings, games[..|games| - 1]);
      GameIsZeroSum(Replay(ratings, games[..|games| - 1]), games[|games| - 1]);
    }
  }

  lemma {:induction false} TotalOfConstant(m: map<string, int>, v: int)
    requires forall p :: p in m ==> m[p] == v
    ensures Total(m) == v * |m|
    decreases |m|
  {
    if m != map[] {
      var k :| k in m;
      var rest := m - {k};
      TotalRemove(m, k);
      TotalOfConstant(rest, v);
      assert rest.Keys == m.Keys - {k};
      assert |rest| == |m| - 1;
      assert v * |m| == v * |rest| + v;
    }
  }

  /** The ratings of all players always add up to 1500 per player. */
  lemma FinalTotal(games: seq<Game>)
    ensures Total(Replay(InitialRatings(games), games)) == INITIAL_RATING * |Players(games)|
  {
    ReplayConservesTotal(InitialRatings(games), games);
    TotalOfConstant(InitialRatings(games), INITIAL_RATING);
  }

  /** The replay adds the players of the games and removes nobody. */
  lemma {:induction false} ReplayKeys(ratings: map<string, int>, games: seq<Game>)
    ensures Replay(ratings, games).Keys == ratings.Keys + Players(games)
    decreases |games|
  {
    if games != [] {
      ReplayKeys(ratings, games[..|games| - 1]);
      var g := games[|games| - 1];
      assert {g.WinnerName(), g.LoserName()} == {g.black, g.white};
    }
  }

  /** A rating moves by at most 31 per game; so over fewer than about
      69 million games it never leaves the 32-bit range the program reads
      it into. */
  lemma {:induction false} RatingDrift(ratings: map<string, int>, games: seq<Game>, p: string)
    ensures Get(ratings, p) - 31 * |games| <= Get(Replay(ratings, games), p) <= Get(ratings, p) + 31 * |games|
    decreases |games|
  {
    if games != [] {
      RatingDrift(ratings, games[..|games| - 1], p);
    }
  }

  lemma {:induction false} SumBounds(s: seq<int>, lo: int, hi: int)
    requires forall i :: 0 <= i < |s| ==> lo <= s[i] <= hi
    ensures lo * |s| <= Sum(s) <= hi * |s|
    decreases |s|
  {
    if s != [] {
      var prefix := s[..|s| - 1];
      SumBounds(prefix, lo, hi);
      assert lo * |s| == lo * |prefix| + lo;
      assert hi * |s| == hi * |prefix| + hi;
    }
  }

  /** The truncated mean of values within [lo, hi] is within [lo, hi]. */
  lemma MeanWithin(s: seq<int>, lo: int, hi: int)
    requires |s| > 0
    requires forall i :: 0 <= i < |s| ==> lo <= s[i] <= hi
    ensures lo <= TruncDiv(Sum(s), |s|) <= hi
  {
    SumBounds(s, lo, hi);
    TruncDivWithin(Sum(s), |s|, lo, hi);
  }

  lemma TruncDivWithin(a: int, n: int, lo: int, hi: int)
    requires n > 0 && lo * n <= a <= hi * n
    ensures lo <= TruncDiv(a, n) <= hi
  {
    var q := TruncDiv(a, n);
    if q > hi {
      MulMonotone(hi + 1, q, n);
      assert false;
    }
    if q < lo {
      MulMonotone(q + 1, lo, n);
      assert false;
    }
  }

  /** Every post-game rating of `p` lies within 31 points per game of where
      `p` started. */
  lemma {:induction false} PostGameRatingsDrift(ratings: map<string, int>, games: seq<Game>, p: string)
    ensures forall i :: 0 <= i < |PostGameRatings(ratings, games, p)| ==>
      Get(ratings, p) - 31 * |games| <= PostGameRatings(ratings, games, p)[i] <= Get(ratings, p) + 31 * |games|
    decreases |games|
  {
    if games != [] {
      var prefix := games[..|games| - 1];
      PostGameRatingsDrift(ratings, prefix, p);
      RatingDrift(ratings, games, p);
      ReplayKeys(ratings, games);
      var g := games[|games| - 1];
      assert {g.WinnerName(), g.LoserName()} == {g.black, g.white};
    }
  }

  /** A score is a mean of ratings: it stays within 31 points per game of 1500. */
  lemma ScoreBounds(games: seq<Game>, p: string)
    requires p in Players(games)
    ensures INITIAL_RATING - 31 * |games| <= Score(games, p) <= INITIAL_RATING + 31 * |games|
  {
    var initial := InitialRatings(games);
    PostGameRatingsCount(initial, games, p);
    PostGameRatingsDrift(initial, games, p);
    MeanWithin(PostGameRatings(initial, games, p), INITIAL_RATING - 31 * |games|, INITIAL_RATING + 31 * |games|);
  }

  // ---------------------------------------------------------------------
  // The computation, step by step.

  /** Step 3: every player at 1500, and their number of seats counted. */
  method InitializeRatings(games: seq<Game>) returns (ratings: map<string, int>, numPlayed: map<string, int>)
    ensures ratings == InitialRatings(games)
    ensures numPlayed.Keys == Players(games)
    ensures forall p :: p in numPlayed ==> numPlayed[p] == Appearances(games, p)
  {
    ratings, numPlayed := map[], map[];
    var i := 0;
    while i < |games|
      invariant 0 <= i <= |games|
      invariant ratings.Keys == Players(games[..i]) && numPlayed.Keys == Players(games[..i])
      invariant forall p :: p in ratings ==> ratings[p] == INITIAL_RATING
      invariant forall p :: Get(numPlayed, p) == Appearances(games[..i], p)
    {
      var g := games[i];
      assert games[..i + 1][..i] == games[..i];
      ratings := ratings[g.black := INITIAL_RATING];
      ratings := ratings[g.white := INITIAL_RATING];
      numPlayed := numPlayed[g.black := Get(numPlayed, g.black) + 1];
      numPlayed := numPlayed[g.white := Get(numPlayed, g.white) + 1];
      i := i + 1;
    }
    assert games[..|games|] == games;
  }

  /** Step 4: replay the games, accumulating each player's post-game ratings. */
  method ReplayGames(games: seq<Game>, initial: map<string, int>)
    returns (ratings: map<string, int>, sumRatings: map<string, int>)
    ensures ratings == Replay(initial, games)
    ensures forall p :: Get(sumRatings, p) == Sum(PostGameRatings(initial, games, p))
  {
    ratings, sumRatings := initial, map[];
    var i := 0;
    while i < |games|
      invariant 0 <= i <= |games|
      invariant ratings == Replay(initial, games[..i])
      invariant forall p :: Get(sumRatings, p) == Sum(PostGameRatings(initial, games[..i], p))
    {
      ratings, sumRatings := PlayGame(ratings, sumRatings, games[i]);
      ReplayStep(initial, games, i);
      forall p ensures Get(sumRatings, p) == Sum(PostGameRatings(initial, games[..i + 1], p)) {
        PostGameRatingsStep(initial, games[..i + 1], p);
        assert games[..i + 1][..i] == games[..i];
      }
      i := i + 1;
    }
    assert games[..|games|] == games;
  }

  /** One iteration of step 4: the winner takes Delta from the loser, then
      both add their new rating to their running sums. */
  method PlayGame(ratings: map<string, int>, sumRatings: map<string, int>, g: Game)
    returns (newRatings: map<string, int>, newSums: map<string, int>)
    ensures newRatings == ApplyGame(ratings, g)
    ensures forall p ::
      Get(newSums, p) == Get(sumRatings, p)
                         + (if p == g.WinnerName() then Get(newRatings, p) else 0)
                         + (if p == g.LoserName() then Get(newRatings, p) else 0)
  {
    var w, l := g.WinnerName(), g.LoserName();
    var winnerRating, loserRating := Get(ratings, w), Get(ratings, l);
    var delta := Delta(winnerRating, loserRating);
    newRatings := ratings[w := Get(ratings, w) + delta];
    newRatings := newRatings[l := Get(newRatings, l) - delta];
    newSums := sumRatings[w := Get(sumRatings, w) + newRatings[w]];
    newSums := newSums[l := Get(newSums, l) + newRatings[l]];
  }

  lemma ReplayStep(initial: map<string, int>, games: seq<Game>, i: nat)
    requires i < |games|
    ensures Replay(initial, games[..i + 1]) == ApplyGame(Replay(initial, games[..i]), games[i])
  {
    assert games[..i + 1][..i] == games[..i];
  }

  /** The running sum of a player's post-game ratings grows by their new
      rating once per seat in the latest game. */
  lemma PostGameRatingsStep(initial: map<string, int>, games: seq<Game>, p: string)
    requires games != []
    ensures var g := games[|games| - 1];
            var after := Replay(initial, games);
            Sum(PostGameRatings(initial, games, p))
              == Sum(PostGameRatings(initial, games[..|games| - 1], p))
                 + (if p == g.WinnerName() then Get(after, p) else 0)
                 + (if p == g.LoserName() then Get(after, p) else 0)
  {
    var g := games[|games| - 1];
    var after := Replay(initial, games);
    SumAppend(PostGameRatings(initial, games[..|games| - 1], p), SeatRatings(g, after, p));
    SumSeats(g, after, p);
  }

  lemma SumSeats(g: Game, after: map<string, int>, p: string)
    ensures Sum(SeatRatings(g, after, p))
      == (if p == g.WinnerName() then Get(after, p) else 0) + (if p == g.LoserName() then Get(after, p) else 0)
  {
    var x := Get(after, p);
    assert Sum([x]) == x by { assert [x][..0] == []; }
    if p == g.WinnerName() && p == g.LoserName() {
      assert SeatRatings(g, after, p) == [x, x];
      assert [x, x][..1] == [x];
    }
  }

  /** Step 5: replace each rating by sum / count, with C++ division. */
  method AverageRatings(ratings: map<string, int>, sumRatings: map<string, int>, numPlayed: map<string, int>)
    returns (scores: map<string, int>)
    requires forall p :: p in ratings ==> Get(numPlayed, p) > 0
    ensures scores.Keys == ratings.Keys
    ensures forall p :: p in scores ==> scores[p] == TruncDiv(Get(sumRatings, p), Get(numPlayed, p))
  {
    scores := ratings;
    var todo := ratings.Keys;
    while todo != {}
      invariant todo <= ratings.Keys && scores.Keys == ratings.Keys
      invariant forall p :: p in scores && p !in todo ==> scores[p] == TruncDiv(Get(sumRatings, p), Get(numPlayed, p))
      decreases todo
    {
      var p :| p in todo;
      scores := scores[p := TruncDiv(Get(sumRatings, p), Get(numPlayed, p))];
      todo := todo - {p};
    }
  }

  /** Step 6: the (player, score) pairs, highest score first. Ties come in
      no particular order, as with `std::sort`. */
  method RankPlayers(scores: map<string, int>) returns (results: seq<(string, int)>)
    ensures |results| == |scores|
    ensures forall e :: e in results <==> e.0 in scores && scores[e.0] == e.1
    ensures forall i, j :: 0 <= i < j < |results| ==> results[i].1 >= results[j].1
  {
    var pairs: seq<(string, int)> := [];
    var todo := scores.Keys;
    while todo != {}
      invariant todo <= scores.Keys
      invariant |pairs| + |todo| == |scores|
      invariant forall e :: e in pairs <==> e.0 in scores && e.0 !in todo && scores[e.0] == e.1
      decreases todo
    {
      var p :| p in todo;
      pairs := pairs + [(p, scores[p])];
      todo := todo - {p};
    }
    var a := new (string, int)[|pairs|](i requires 0 <= i < |pairs| => pairs[i]);
    assert a[..] == pairs;
    Sorting.SortBy(a, (e: (string, int)) => -e.1);
    results := a[..];
    assert forall e :: e in results <==> e in multiset(pairs);
  }

  /** The whole computation: the players with their scores, best first. */
  method ComputePlayerRatings(games: seq<Game>) returns (results: seq<(string, int)>)
    ensures |results| == |Players(games)|
    ensures forall e :: e in results <==> e.0 in Players(games) && e.1 == Score(games, e.0)
    ensures forall i, j :: 0 <= i < j < |results| ==> results[i].1 >= results[j].1
  {
    var initial, numPlayed := InitializeRatings(games);
    var ratings, sumRatings := ReplayGames(games, initial);
    ReplayKeys(initial, games);
    assert ratings.Keys == Players(games);
    var scores := AverageRatings(ratings, sumRatings, numPlayed);
    assert forall p :: p in scores ==> scores[p] == Score(games, p);
    results := RankPlayers(scores);
  }
}

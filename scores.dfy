/**
 * The leaderboard helpers of the original DOM version (js/functions.js):
 * the qualification test run when a game ends and the sort-and-cut applied
 * after a name is submitted. The board is the global list of scores, here
 * the field of a `Leaderboard` object.
 */
module Scores {
  import opened Constants

  /** A submitted score (js/vars.js). */
  datatype Score = Score(name: string, level: int, score: int)

  /** The value the minimum search of `isHighScore` starts from. */
  const SEED_MINIMUM: int := 9999999

  /** The running minimum of the scores, starting from `seed`. */
  function MinFrom(seed: int, s: seq<Score>): (m: int)
    ensures m <= seed
    ensures forall k :: 0 <= k < |s| ==> m <= s[k].score
    ensures m == seed || exists k :: 0 <= k < |s| && m == s[k].score
  {
    if s == [] then seed
    else
      var n := |s| - 1;
      var front := MinFrom(seed, s[..n]);
      assert forall k :: 0 <= k < n ==> s[..n][k] == s[k];
      Min(front, s[n].score)
  }

  /** The qualification rule as written: beat the minimum seeded with `SEED_MINIMUM`. */
  predicate QualifiesAsWritten(s: seq<Score>, score: int) {
    |s| != HIGH_SCORE_LIMIT || score > MinFrom(SEED_MINIMUM, s)
  }

  /** The qualification rule as intended: a full board must be beaten at its lowest score. */
  predicate Qualifies(s: seq<Score>, score: int) {
    |s| != HIGH_SCORE_LIMIT || score > MinFrom(s[0].score, s[1..])
  }

  /** A score qualifies for a full board exactly when it beats some stored score. */
  lemma QualifiesIffBeatsSome(s: seq<Score>, score: int)
    ensures Qualifies(s, score) <==>
            |s| != HIGH_SCORE_LIMIT || exists k :: 0 <= k < |s| && score > s[k].score
  {
    if |s| == HIGH_SCORE_LIMIT {
      var m := MinFrom(s[0].score, s[1..]);
      if score > m && m != s[0].score {
        var j :| 0 <= j < |s[1..]| && m == s[1..][j].score;
        assert s[1..][j] == s[j + 1];
      }
      if exists k :: 0 <= k < |s| && score > s[k].score {
        var k :| 0 <= k < |s| && score > s[k].score;
        if k > 0 {
          assert s[1..][k - 1] == s[k];
        }
      }
    }
  }

  /** The seeded rule agrees with the intended one once some stored score is at most the seed. */
  lemma AsWrittenAgreesBelowSeed(s: seq<Score>, score: int)
    requires exists k :: 0 <= k < |s| && s[k].score <= SEED_MINIMUM
    ensures QualifiesAsWritten(s, score) <==> Qualifies(s, score)
  {
    QualifiesIffBeatsSome(s, score);
    if |s| == HIGH_SCORE_LIMIT && score > MinFrom(SEED_MINIMUM, s) {
      var k :| 0 <= k < |s| && s[k].score <= SEED_MINIMUM;
      var seeded := MinFrom(SEED_MINIMUM, s);
      if seeded != SEED_MINIMUM {
        var j :| 0 <= j < |s| && seeded == s[j].score;
        assert score > s[j].score;
      } else {
        assert score > s[k].score;
      }
    }
  }

  /**
   * Ten stored scores of 10000000 and a new score of 10000000: the seeded
   * minimum stays at 9999999, so the rule as written lets in a score that
   * only ties the lowest stored one.
   */
  lemma SeedMinimumCounterexample()
    ensures var s := seq(HIGH_SCORE_LIMIT, _ => Score("", 1, 10000000));
            QualifiesAsWritten(s, 10000000) && !Qualifies(s, 10000000)
  {
    var s := seq(HIGH_SCORE_LIMIT, _ => Score("", 1, 10000000));
    QualifiesIffBeatsSome(s, 10000000);
    assert forall k :: 0 <= k < |s| ==> s[k].score == 10000000;
  }

  /** Stable insertion by descending score: `e` goes after every entry scoring at least as much. */
  function InsertByScore(e: Score, s: seq<Score>): (r: seq<Score>)
    ensures |r| == |s| + 1
    ensures multiset(r) == multiset(s) + multiset{e}
  {
    if s == [] then [e]
    else if e.score > s[0].score then [e] + s
    else
      assert s == [s[0]] + s[1..];
      [s[0]] + InsertByScore(e, s[1..])
  }

  /** Scores never increase along the list. */
  predicate Descending(s: seq<Score>) {
    forall i, j :: 0 <= i < j < |s| ==> s[i].score >= s[j].score
  }

  lemma {:induction false} InsertByScoreDescending(e: Score, s: seq<Score>)
    requires Descending(s)
    ensures Descending(InsertByScore(e, s))
  {
    if s != [] && e.score <= s[0].score {
      var tail := InsertByScore(e, s[1..]);
      InsertByScoreDescending(e, s[1..]);
      forall j | 0 <= j < |tail|
        ensures s[0].score >= tail[j].score
      {
        assert tail[j] in multiset(tail);
        if tail[j] != e {
          assert tail[j] in multiset(s[1..]);
          var k :| 0 <= k < |s[1..]| && s[1..][k] == tail[j];
          assert s[k + 1] == tail[j];
        }
      }
      assert InsertByScore(e, s) == [s[0]] + tail;
    }
  }

  /** The stable sort with the comparator `b.score - a.score`. */
  function SortByScore(s: seq<Score>): (r: seq<Score>)
    ensures |r| == |s|
    ensures multiset(r) == multiset(s)
    ensures Descending(r)
  {
    if s == [] then []
    else
      var n := |s| - 1;
      assert s == s[..n] + [s[n]];
      InsertByScoreDescending(s[n], SortByScore(s[..n]));
      InsertByScore(s[n], SortByScore(s[..n]))
  }

  /** The sorted list cut to its first ten entries. */
  function SortedAndSliced(s: seq<Score>): (r: seq<Score>)
    ensures Descending(r)
    ensures |r| == Min(HIGH_SCORE_LIMIT, |s|)
    ensures multiset(r) <= multiset(s)
  {
    var sorted := SortByScore(s);
    var top := sorted[..Min(HIGH_SCORE_LIMIT, |sorted|)];
    assert sorted == top + sorted[|top|..];
    top
  }

  /** The cut keeps the best: every dropped score is at most every kept one. */
  lemma SortedAndSlicedKeepsBest(s: seq<Score>)
    ensures var r := SortedAndSliced(s);
            forall y, k :: y in multiset(s) - multiset(r) && 0 <= k < |r| ==> y.score <= r[k].score
  {
    var sorted := SortByScore(s);
    var r := SortedAndSliced(s);
    var tail := sorted[|r|..];
    assert sorted == r + tail;
    assert multiset(s) - multiset(r) == multiset(tail);
    TailAtMost(r, tail);
  }

  /** In a descending list, nothing past a cut scores more than anything ahead of it. */
  lemma TailAtMost(head: seq<Score>, tail: seq<Score>)
    requires Descending(head + tail)
    ensures forall y, k :: y in multiset(tail) && 0 <= k < |head| ==> y.score <= head[k].score
  {
    forall y: Score, k | y in multiset(tail) && 0 <= k < |head|
      ensures y.score <= head[k].score
    {
      var j :| 0 <= j < |tail| && tail[j] == y;
      assert (head + tail)[|head| + j] == y && (head + tail)[k] == head[k];
    }
  }

  /** A board that is already descending and at most ten long is left as it is. */
  lemma {:induction false} SortedAndSlicedIdempotent(s: seq<Score>)
    requires Descending(s) && |s| <= HIGH_SCORE_LIMIT
    ensures SortedAndSliced(s) == s
  {
    SortByScoreSorted(s);
  }

  lemma {:induction false} SortByScoreSorted(s: seq<Score>)
    requires Descending(s)
    ensures SortByScore(s) == s
  {
    if s != [] {
      var n := |s| - 1;
      var front := s[..n];
      DescendingSplit(front, s[n]);
      assert s == front + [s[n]];
      SortByScoreSorted(front);
      InsertByScoreLast(s[n], front);
    }
  }

  /** A descending list ending in `e`: its front is descending and `e` is its least score. */
  lemma DescendingSplit(front: seq<Score>, e: Score)
    requires Descending(front + [e])
    ensures Descending(front)
    ensures forall k :: 0 <= k < |front| ==> e.score <= front[k].score
  {
    var s := front + [e];
    forall k | 0 <= k < |front| ensures e.score <= front[k].score {
      assert s[k] == front[k] && s[|front|] == e;
    }
    forall i, j | 0 <= i < j < |front| ensures front[i].score >= front[j].score {
      assert s[i] == front[i] && s[j] == front[j];
    }
  }

  lemma {:induction false} InsertByScoreLast(e: Score, s: seq<Score>)
    requires forall k :: 0 <= k < |s| ==> e.score <= s[k].score
    ensures InsertByScore(e, s) == s + [e]
  {
    if s != [] {
      InsertByScoreLast(e, s[1..]);
      assert s == [s[0]] + s[1..];
    }
  }

  class Leaderboard {
    var scores: seq<Score>

    constructor (scores: seq<Score>)
      ensures this.scores == scores
    {
      this.scores := scores;
    }

    /**
     * `isHighScore`: a board that does not hold exactly ten scores accepts
     * anything; a full one is searched for its minimum, seeded with
     * `SEED_MINIMUM`, which the score must beat.
     */
    method IsHighScore(score: int) returns (qualifies: bool)
      ensures qualifies <==> QualifiesAsWritten(scores, score)
      ensures |scores| != HIGH_SCORE_LIMIT ==> qualifies
      ensures |scores| == HIGH_SCORE_LIMIT && (exists k :: 0 <= k < |scores| && score > scores[k].score) ==> qualifies
      ensures |scores| == HIGH_SCORE_LIMIT && qualifies ==>
                score > SEED_MINIMUM || exists k :: 0 <= k < |scores| && score > scores[k].score
    {
      if |scores| == HIGH_SCORE_LIMIT {
        var minScore := SEED_MINIMUM;
        var i := 0;
        while i < |scores|
          invariant 0 <= i <= |scores|
          invariant minScore == MinFrom(SEED_MINIMUM, scores[..i])
        {
          assert scores[..i + 1][..i] == scores[..i];
          if scores[i].score < minScore {
            minScore := scores[i].score;
          }
          i := i + 1;
        }
        assert scores[..i] == scores;
        return score > minScore;
      } else {
        return true;
      }
    }

    /** `sortAndSliceScores`: the board becomes its ten best scores in descending order. */
    method SortAndSliceScores()
      modifies this
      ensures scores == SortedAndSliced(old(scores))
      ensures Descending(scores) && |scores| <= HIGH_SCORE_LIMIT
      ensures multiset(scores) <= multiset(old(scores))
    {
      scores := SortedAndSliced(scores);
    }
  }
}

/** What the four round games (shapes, numbers, sounds, colours) share: the
    rejection loop that collects distinct answer options, the shuffled
    option list, the values a deferred `nextRound` captured, and the result
    record `endGame` builds. */
module Rounds {
  import opened Types
  import opened Rounding
  import opened Shuffling

  function Elems(s: seq<int>): set<int>
  {
    set x | x in s
  }

  lemma {:induction false} DistinctCard(s: seq<int>)
    requires Distinct(s)
    ensures |Elems(s)| == |s|
  {
    if s != [] {
      var init := s[..|s| - 1];
      DistinctCard(init);
      assert Elems(s) == Elems(init) + {s[|s| - 1]};
    }
  }

  // ---------------------------------------------------------------------
  // The rejection loop
  // ---------------------------------------------------------------------

  /** One step of the loop: keep the draw `d` unless already present. */
  function Keep(acc: seq<int>, d: int): seq<int>
  {
    if d in acc then acc else acc + [d]
  }

  lemma KeepFacts(acc: seq<int>, d: int)
    requires Distinct(acc)
    ensures Distinct(Keep(acc, d)) && acc <= Keep(acc, d)
    ensures Elems(Keep(acc, d)) == Elems(acc) + {d}
  {
  }

  /** Taking one draw moves it from the values still to come to the values
      in hand, or drops it when already in hand. */
  lemma StepElems(acc: seq<int>, draws: seq<int>)
    requires draws != []
    ensures Elems(Keep(acc, draws[0])) + Elems(draws[1..]) == Elems(acc) + Elems(draws)
  {
    assert draws == [draws[0]] + draws[1..];
    assert Elems(draws) == {draws[0]} + Elems(draws[1..]);
    if draws[0] !in acc {
      assert Elems(acc + [draws[0]]) == Elems(acc) + {draws[0]};
    }
  }

  /** The options the rejection loop ends with: starting from `acc`, each
      draw is appended unless already present, until `size` are collected. */
  function Collect(acc: seq<int>, draws: seq<int>, size: int): seq<int>
    decreases |draws|
  {
    if |acc| >= size || draws == [] then acc
    else Collect(Keep(acc, draws[0]), draws[1..], size)
  }

  /** With at least `size` distinct values available, the loop collects
      exactly `size` distinct values, keeps what it started with in front,
      and takes nothing but draws. */
  lemma {:induction false} CollectFacts(acc: seq<int>, draws: seq<int>, size: int)
    requires Distinct(acc) && |acc| <= size
    requires |Elems(acc) + Elems(draws)| >= size
    ensures |Collect(acc, draws, size)| == size
    ensures Distinct(Collect(acc, draws, size))
    ensures acc <= Collect(acc, draws, size)
    ensures forall x :: x in Collect(acc, draws, size) ==> x in acc || x in draws
    decreases |draws|
  {
    if |acc| < size {
      DrawsRemain(acc, draws, size);
      var acc' := Keep(acc, draws[0]);
      KeepFacts(acc, draws[0]);
      StepElems(acc, draws);
      CollectFacts(acc', draws[1..], size);
      assert forall x :: x in acc' ==> x in acc || x == draws[0];
      assert forall x :: x in draws[1..] ==> x in draws;
    }
  }

  /** A rejection loop never runs dry while the values in hand plus those
      still to be drawn reach `size`. */
  lemma DrawsRemain(opts: seq<int>, rest: seq<int>, size: int)
    requires Distinct(opts) && |opts| < size
    requires |Elems(opts) + Elems(rest)| >= size
    ensures rest != []
  {
    DistinctCard(opts);
    assert rest == [] ==> Elems(opts) + Elems(rest) == Elems(opts);
  }

  /** The `while (newAvailable.length < size)` loop: start with the correct
      answer, draw values and keep each one not yet present. The draws are
      the values `Math.random` yields, in order; the loop needs enough
      distinct ones to finish. */
  method CollectOptions(first: int, draws: seq<int>, size: int) returns (opts: seq<int>)
    requires size >= 1
    requires |Elems([first] + draws)| >= size
    ensures opts == Collect([first], draws, size)
    ensures |opts| == size && Distinct(opts) && opts[0] == first
    ensures forall x :: x in opts ==> x == first || x in draws
  {
    opts := [first];
    var k := 0;
    assert Elems([first] + draws) == Elems(opts) + Elems(draws[k..]) by {
      assert draws[k..] == draws;
    }
    while |opts| < size
      invariant 0 <= k <= |draws|
      invariant Collect(opts, draws[k..], size) == Collect([first], draws, size)
      invariant Distinct(opts) && 1 <= |opts| <= size && opts[0] == first
      invariant |Elems(opts) + Elems(draws[k..])| >= size
      invariant forall x :: x in opts ==> x == first || x in draws
      decreases |draws| - k
    {
      DrawsRemain(opts, draws[k..], size);
      var d := draws[k];
      assert draws[k..][1..] == draws[k + 1..];
      StepElems(opts, draws[k..]);
      KeepFacts(opts, d);
      if d !in opts {
        opts := opts + [d];
      }
      k := k + 1;
    }
  }

  /** The options a round shows: the collected options, shuffled. They are
      `size` distinct values, the correct one exactly once among them. */
  method ShuffledOptions(first: int, draws: seq<int>, size: int, swaps: seq<int>) returns (opts: seq<int>)
    requires size >= 1
    requires |Elems([first] + draws)| >= size
    requires |swaps| + 1 >= size
    requires forall k :: 0 <= k < size - 1 ==> 0 <= swaps[k] <= size - 1 - k
    ensures multiset(opts) == multiset(Collect([first], draws, size))
    ensures |opts| == size && Distinct(opts)
    ensures multiset(opts)[first] == 1
    ensures forall x :: x in opts ==> x == first || x in draws
  {
    var collected := CollectOptions(first, draws, size);
    var a := new int[size](i requires 0 <= i < size => collected[i]);
    assert a[..] == collected;
    Shuffle(a, swaps);
    opts := a[..];
    PermutationDistinct(collected, opts);
    DistinctCounts(opts);
    assert first in multiset(collected);
    forall x | x in opts ensures x == first || x in draws {
      assert x in multiset(collected);
    }
  }

  // ---------------------------------------------------------------------
  // Captured values and the result record
  // ---------------------------------------------------------------------

  /** The values the render that scheduled a deferred `nextRound` held:
      `nextRound` checks this `round`, and the `endGame` it may call reports
      this `score` and these `errors`. */
  datatype Snapshot = Snapshot(round: int, score: int, errors: int)

  predicate SnapshotValid(c: Snapshot)
  {
    c.score >= 0 && c.score % 10 == 0 && c.errors >= 0
  }

  /** `Math.round((endTime - startTime) / 1000)`: milliseconds to seconds. */
  function Seconds(startTime: int, endTime: int): (s: int)
    ensures 2000 * s - 1000 <= 2 * (endTime - startTime) < 2000 * s + 1000
  {
    RoundDiv(endTime - startTime, 1000)
  }

  /** The record a round game's `endGame` builds from the captured score and
      errors: one correct answer per ten points, the errors as incorrect
      answers, and the good reaction for fewer than three errors. */
  function RoundResult(gameType: string, patterns: seq<string>, goodReaction: string, weakReaction: string,
                       captured: Snapshot, startTime: int, stamp: Stamp): (r: GameResult)
    requires SnapshotValid(captured)
    ensures r.gameType == gameType && r.score == captured.score && r.errors == captured.errors
    ensures r.details.correctAnswers * 10 == captured.score
    ensures r.details.incorrectAnswers == captured.errors
    ensures r.details.reactions == if captured.errors < 3 then [goodReaction] else [weakReaction]
    ensures r.details.patterns == patterns
    ensures r.id == stamp.id && r.date == stamp.now && r.timeSpent == Seconds(startTime, stamp.now)
  {
    GameResult(stamp.id, gameType, captured.score, captured.errors, Seconds(startTime, stamp.now), stamp.now,
               Details(captured.score / 10, captured.errors, patterns,
                       if captured.errors < 3 then [goodReaction] else [weakReaction]))
  }
}

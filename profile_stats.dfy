/** The profile screen: average score, total play time, the per-game-type
    statistics dictionary and the "recent games" list of one profile. None of
    these change the profile: they take its result list as a value. */
module ProfileStats {
  import opened Types
  import opened Rounding
  import opened Reports

  /** `getAverageScore`: 0 for no results, else the rounded mean score. It
      agrees with the report screen's `averageScore`. */
  function GetAverageScore(rs: seq<GameResult>): (r: int)
    ensures rs == [] ==> r == 0
    ensures rs != [] ==> r == GenerateReport(rs).value.averageScore
  {
    if |rs| == 0 then 0 else RoundDiv(SumScores(rs), |rs|)
  }

  /** `getTotalPlayTime`: the sum of all `timeSpent`. */
  function GetTotalPlayTime(rs: seq<GameResult>): int
  {
    SumTimes(rs)
  }

  /** The "Tempo Total" card: `Math.round(total / 60)` minutes. */
  function TotalMinutes(rs: seq<GameResult>): (m: int)
    ensures 120 * m - 60 <= 2 * GetTotalPlayTime(rs) < 120 * m + 60
  {
    RoundDiv(GetTotalPlayTime(rs), 60)
  }

  /** Play time is additive over the result list, so each completed game
      adds exactly its own `timeSpent`. */
  lemma {:induction false} PlayTimeAdditive(a: seq<GameResult>, b: seq<GameResult>)
    ensures GetTotalPlayTime(a + b) == GetTotalPlayTime(a) + GetTotalPlayTime(b)
  {
    if b == [] {
      assert a + b == a;
    } else {
      var b' := b[..|b| - 1];
      assert (a + b)[..|a + b| - 1] == a + b';
      PlayTimeAdditive(a, b');
    }
  }

  // ---------------------------------------------------------------------
  // getGameTypeStats
  // ---------------------------------------------------------------------

  datatype TypeStat = TypeStat(played: int, avgScore: int)

  /** Some result in `rs` is of type `t`. */
  predicate Played(rs: seq<GameResult>, t: string)
  {
    exists i :: 0 <= i < |rs| && rs[i].gameType == t
  }

  /** The game types present, in order of first appearance (the key order
      of the `stats` object, which `Object.entries` follows). */
  function DistinctTypes(rs: seq<GameResult>): (ts: seq<string>)
    ensures forall t :: t in ts <==> Played(rs, t)
    ensures forall i, j :: 0 <= i < j < |ts| ==> ts[i] != ts[j]
  {
    if rs == [] then []
    else
      var init := DistinctTypes(rs[..|rs| - 1]);
      var t := rs[|rs| - 1].gameType;
      if t in init then init else init + [t]
  }

  /** A game type absent from the results has no results to filter. */
  lemma {:induction false} AbsentTypeEmpty(rs: seq<GameResult>, t: string)
    requires forall i :: 0 <= i < |rs| ==> rs[i].gameType != t
    ensures OfType(rs, t) == []
  {
    if rs != [] {
      AbsentTypeEmpty(rs[..|rs| - 1], t);
    }
  }

  /** A game type present in the results has at least one result. */
  lemma PresentTypeNonEmpty(rs: seq<GameResult>, t: string)
    requires t in DistinctTypes(rs)
    ensures |OfType(rs, t)| >= 1
  {
    var k :| 0 <= k < |rs| && rs[k].gameType == t;
    PresentTypeNonEmptyAt(rs, t, k);
  }

  lemma {:induction false} PresentTypeNonEmptyAt(rs: seq<GameResult>, t: string, k: int)
    requires 0 <= k < |rs| && rs[k].gameType == t
    ensures |OfType(rs, t)| >= 1
  {
    if k < |rs| - 1 {
      PresentTypeNonEmptyAt(rs[..|rs| - 1], t, k);
    }
  }

  /** What the first pass has recorded for type t after the results rs. */
  function Tally(rs: seq<GameResult>, t: string): TypeStat
  {
    TypeStat(|OfType(rs, t)|, SumScores(OfType(rs, t)))
  }

  /** One more result adds one game and its score to its own type's tally
      and leaves every other tally alone. */
  lemma TallySnoc(rs: seq<GameResult>, x: GameResult, t: string)
    ensures Tally(rs + [x], t)
            == if x.gameType == t then TypeStat(Tally(rs, t).played + 1, Tally(rs, t).avgScore + x.score)
               else Tally(rs, t)
  {
    assert (rs + [x])[..|rs + [x]| - 1] == rs;
    if x.gameType == t {
      var f := OfType(rs, t) + [x];
      assert f[..|f| - 1] == OfType(rs, t);
    }
  }

  /** One iteration of the first pass: the result's type, at zero games and
      zero points when seen for the first time, gets one more game and the
      result's score. */
  function Record(stats: map<string, TypeStat>, r: GameResult): map<string, TypeStat>
  {
    var s := if r.gameType in stats then stats[r.gameType] else TypeStat(0, 0);
    stats[r.gameType := TypeStat(s.played + 1, s.avgScore + r.score)]
  }

  /** What the first pass has recorded after the results `done`. */
  function TallyMap(done: seq<GameResult>): map<string, TypeStat>
  {
    if done == [] then map[] else Record(TallyMap(done[..|done| - 1]), done[|done| - 1])
  }

  /** The key order the first pass builds: a type is appended when the
      tally does not hold it yet. */
  function TallyKeys(done: seq<GameResult>): seq<string>
  {
    if done == [] then []
    else
      var init, t := done[..|done| - 1], done[|done| - 1].gameType;
      if t in TallyMap(init) then TallyKeys(init) else TallyKeys(init) + [t]
  }

  /** The first pass holds one entry per type seen. */
  lemma {:induction false} TallyMapDomain(done: seq<GameResult>)
    ensures forall t :: t in TallyMap(done) <==> t in DistinctTypes(done)
  {
    if done != [] {
      TallyMapDomain(done[..|done| - 1]);
    }
  }

  /** Each entry of the first pass is its type's game count and score sum. */
  lemma {:induction false} TallyMapValues(done: seq<GameResult>)
    ensures forall t :: t in TallyMap(done) ==> TallyMap(done)[t] == Tally(done, t)
  {
    if done != [] {
      var init, r := done[..|done| - 1], done[|done| - 1];
      assert done == init + [r];
      TallyMapValues(init);
      if r.gameType !in TallyMap(init) {
        TallyMapDomain(init);
        AbsentTypeEmpty(init, r.gameType);
      }
      forall t | t in TallyMap(done) ensures TallyMap(done)[t] == Tally(done, t) {
        TallySnoc(init, r, t);
      }
    }
  }

  /** The keys come out in order of first appearance. */
  lemma {:induction false} TallyKeysInOrder(done: seq<GameResult>)
    ensures TallyKeys(done) == DistinctTypes(done)
  {
    if done != [] {
      var init := done[..|done| - 1];
      TallyKeysInOrder(init);
      TallyMapDomain(init);
    }
  }

  /** The first `forEach` of `getGameTypeStats`: per type, how often it was
      played and (in `avgScore`, for now) the sum of its scores. */
  method TallyTypes(rs: seq<GameResult>) returns (stats: map<string, TypeStat>, keys: seq<string>)
    ensures keys == TallyKeys(rs) && stats == TallyMap(rs)
  {
    stats := map[];
    keys := [];
    var i := 0;
    while i < |rs|
      invariant 0 <= i <= |rs|
      invariant keys == TallyKeys(rs[..i]) && stats == TallyMap(rs[..i])
    {
      var r := rs[i];
      assert rs[..i + 1][..i] == rs[..i];
      // A type seen for the first time starts at zero games and zero points.
      var s := if r.gameType in stats then stats[r.gameType] else TypeStat(0, 0);
      if r.gameType !in stats {
        keys := keys + [r.gameType];
      }
      stats := stats[r.gameType := TypeStat(s.played + 1, s.avgScore + r.score)];
      i := i + 1;
    }
    assert rs[..|rs|] == rs;
  }

  /** The second `forEach` of `getGameTypeStats`, over `Object.keys(stats)`:
      each entry's score sum becomes its rounded mean. */
  method AverageTypes(tally: map<string, TypeStat>, keys: seq<string>) returns (stats: map<string, TypeStat>)
    requires forall i, j :: 0 <= i < j < |keys| ==> keys[i] != keys[j]
    requires forall t :: t in tally <==> t in keys
    requires forall t :: t in tally ==> tally[t].played >= 1
    ensures forall t :: t in stats <==> t in tally
    ensures forall t :: t in stats ==>
              stats[t] == TypeStat(tally[t].played, RoundDiv(tally[t].avgScore, tally[t].played))
  {
    stats := tally;
    var j := 0;
    while j < |keys|
      invariant 0 <= j <= |keys|
      invariant forall t :: t in stats <==> t in tally
      invariant forall k :: 0 <= k < j ==>
                  stats[keys[k]] == TypeStat(tally[keys[k]].played, RoundDiv(tally[keys[k]].avgScore, tally[keys[k]].played))
      invariant forall k :: j <= k < |keys| ==> stats[keys[k]] == tally[keys[k]]
    {
      var t := keys[j];
      var s := stats[t];
      stats := stats[t := s.(avgScore := RoundDiv(s.avgScore, s.played))];
      j := j + 1;
    }
    forall t | t in stats
      ensures stats[t] == TypeStat(tally[t].played, RoundDiv(tally[t].avgScore, tally[t].played))
    {
      var k :| 0 <= k < |keys| && keys[k] == t;
    }
  }

  /** The dictionary `getGameTypeStats` returns: one entry per distinct game
      type, holding how often that type was played and its rounded mean
      score (the same figure the report screen computes per type). `keys` is
      the key insertion order. */
  method GetGameTypeStats(rs: seq<GameResult>) returns (stats: map<string, TypeStat>, keys: seq<string>)
    ensures keys == DistinctTypes(rs)
    ensures forall t :: t in stats <==> Played(rs, t)
    ensures forall t :: t in stats ==>
              stats[t].played == |OfType(rs, t)| >= 1 && stats[t].avgScore == TypeAverage(rs, t)
  {
    var tally;
    tally, keys := TallyTypes(rs);
    TallyMapDomain(rs);
    TallyMapValues(rs);
    TallyKeysInOrder(rs);
    forall t | t in tally ensures tally[t].played >= 1 {
      PresentTypeNonEmpty(rs, t);
    }
    stats := AverageTypes(tally, keys);
    forall t | t in stats
      ensures stats[t].played == |OfType(rs, t)| >= 1 && stats[t].avgScore == TypeAverage(rs, t)
    {
      PresentTypeNonEmpty(rs, t);
    }
  }

  /** Summed over the keys, the `played` counts add up to the number of
      results: every result is counted once, under its own type. */
  function SumPlayed(keys: seq<string>, rs: seq<GameResult>): int
  {
    if keys == [] then 0 else SumPlayed(keys[..|keys| - 1], rs) + |OfType(rs, keys[|keys| - 1])|
  }

  lemma {:induction false} SumPlayedAppend(keys: seq<string>, rs: seq<GameResult>, x: GameResult)
    requires forall i, j :: 0 <= i < j < |keys| ==> keys[i] != keys[j]
    ensures SumPlayed(keys, rs + [x]) == SumPlayed(keys, rs) + (if x.gameType in keys then 1 else 0)
  {
    var rs' := rs + [x];
    assert rs'[..|rs'| - 1] == rs;
    if keys != [] {
      var init := keys[..|keys| - 1];
      SumPlayedAppend(init, rs, x);
      assert x.gameType in keys <==> x.gameType in init || x.gameType == keys[|keys| - 1];
      assert x.gameType == keys[|keys| - 1] ==> x.gameType !in init;
    }
  }

  lemma {:induction false} SumPlayedAbsent(keys: seq<string>, rs: seq<GameResult>, t: string)
    requires forall i :: 0 <= i < |rs| ==> rs[i].gameType != t
    ensures SumPlayed(keys + [t], rs) == SumPlayed(keys, rs)
  {
    AbsentTypeEmpty(rs, t);
    assert (keys + [t])[..|keys + [t]| - 1] == keys;
  }

  lemma {:induction false} PlayedSumsToTotal(rs: seq<GameResult>)
    ensures SumPlayed(DistinctTypes(rs), rs) == |rs|
  {
    if rs != [] {
      var init := rs[..|rs| - 1];
      var x := rs[|rs| - 1];
      assert rs == init + [x];
      PlayedSumsToTotal(init);
      var keys := DistinctTypes(init);
      SumPlayedAppend(keys, init, x);
      if x.gameType !in keys {
        SumPlayedAppend(keys + [x.gameType], init, x);
        SumPlayedAbsent(keys, init, x.gameType);
        assert forall i, j :: 0 <= i < j < |keys + [x.gameType]| ==>
                 (keys + [x.gameType])[i] != (keys + [x.gameType])[j];
      }
    }
  }

  // ---------------------------------------------------------------------
  // Recent games
  // ---------------------------------------------------------------------

  function Reverse<T>(s: seq<T>): (r: seq<T>)
    ensures |r| == |s|
    ensures forall i :: 0 <= i < |s| ==> r[i] == s[|s| - 1 - i]
  {
    if s == [] then [] else [s[|s| - 1]] + Reverse(s[..|s| - 1])
  }

  /** `gameResults.slice(-5).reverse()`: the last five results (or all of
      them when there are fewer), newest first. */
  function RecentGames(rs: seq<GameResult>): (r: seq<GameResult>)
    ensures |r| == if |rs| < 5 then |rs| else 5
    ensures forall i :: 0 <= i < |r| ==> r[i] == rs[|rs| - 1 - i]
  {
    var start := if |rs| < 5 then 0 else |rs| - 5;
    Reverse(rs[start..])
  }
}

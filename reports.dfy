/** The report screen: the figures `generateReport` derives from a profile's
    results, and the rule tables that decide which observation lines are
    shown on screen and in the printed report. */
module Reports {
  import opened Types
  import opened Rounding

  // ---------------------------------------------------------------------
  // Folds over the result list (each is a left `reduce` starting at 0)
  // ---------------------------------------------------------------------

  function SumScores(rs: seq<GameResult>): int
  {
    if rs == [] then 0 else SumScores(rs[..|rs| - 1]) + rs[|rs| - 1].score
  }

  function SumErrors(rs: seq<GameResult>): int
  {
    if rs == [] then 0 else SumErrors(rs[..|rs| - 1]) + rs[|rs| - 1].errors
  }

  function SumTimes(rs: seq<GameResult>): int
  {
    if rs == [] then 0 else SumTimes(rs[..|rs| - 1]) + rs[|rs| - 1].timeSpent
  }

  /** `rs.filter(r => r.gameType === gameType)`. */
  function OfType(rs: seq<GameResult>, gameType: string): (f: seq<GameResult>)
    ensures |f| <= |rs|
  {
    if rs == [] then []
    else
      var init := OfType(rs[..|rs| - 1], gameType);
      if rs[|rs| - 1].gameType == gameType then init + [rs[|rs| - 1]] else init
  }

  /** The filter keeps exactly the results of the requested type. */
  lemma {:induction false} OfTypeMembers(rs: seq<GameResult>, gameType: string)
    ensures forall x :: x in OfType(rs, gameType) <==> x in rs && x.gameType == gameType
  {
    if rs != [] {
      var init := rs[..|rs| - 1];
      OfTypeMembers(init, gameType);
      assert rs == init + [rs[|rs| - 1]];
    }
  }

  /** The results that none of the three per-game cards counts. */
  function Untracked(rs: seq<GameResult>): seq<GameResult>
  {
    if rs == [] then []
    else
      var init := Untracked(rs[..|rs| - 1]);
      var t := rs[|rs| - 1].gameType;
      if t != MemoryLabel && t != PatternLabel && t != ColorLabel then init + [rs[|rs| - 1]] else init
  }

  /** The rounded mean score of the results of one game type, 0 when that
      type was never played. */
  function TypeAverage(rs: seq<GameResult>, gameType: string): int
  {
    var f := OfType(rs, gameType);
    if |f| > 0 then RoundDiv(SumScores(f), |f|) else 0
  }

  // ---------------------------------------------------------------------
  // generateReport
  // ---------------------------------------------------------------------

  datatype Report = Report(
    totalGames: int,
    averageScore: int,
    totalErrors: int,
    averageTime: int,
    memoryAvg: int,
    patternAvg: int,
    colorAvg: int,
    memoryGames: int,
    patternGames: int,
    colorGames: int)

  function GenerateReport(rs: seq<GameResult>): (r: Option<Report>)
    ensures r.None? <==> rs == []
    ensures r.Some? ==> r.value.totalGames == |rs| > 0
  {
    if |rs| == 0 then None
    else
      var n := |rs|;
      Some(Report(
        totalGames := n,
        averageScore := RoundDiv(SumScores(rs), n),
        totalErrors := SumErrors(rs),
        averageTime := RoundDiv(SumTimes(rs), n),
        memoryAvg := TypeAverage(rs, MemoryLabel),
        patternAvg := TypeAverage(rs, PatternLabel),
        colorAvg := TypeAverage(rs, ColorLabel),
        memoryGames := |OfType(rs, MemoryLabel)|,
        patternGames := |OfType(rs, PatternLabel)|,
        colorGames := |OfType(rs, ColorLabel)|))
  }

  // ---------------------------------------------------------------------
  // Properties of the figures
  // ---------------------------------------------------------------------

  /** If every score lies in [lo, hi], so does their sum over |rs| times. */
  lemma {:induction false} SumScoresBounds(rs: seq<GameResult>, lo: int, hi: int)
    requires forall i :: 0 <= i < |rs| ==> lo <= rs[i].score <= hi
    ensures |rs| * lo <= SumScores(rs) <= |rs| * hi
  {
    if rs != [] {
      var init := rs[..|rs| - 1];
      SumScoresBounds(init, lo, hi);
      assert |rs| * lo == |init| * lo + lo;
      assert |rs| * hi == |init| * hi + hi;
    }
  }

  lemma {:induction false} SumTimesBounds(rs: seq<GameResult>, lo: int, hi: int)
    requires forall i :: 0 <= i < |rs| ==> lo <= rs[i].timeSpent <= hi
    ensures |rs| * lo <= SumTimes(rs) <= |rs| * hi
  {
    if rs != [] {
      var init := rs[..|rs| - 1];
      SumTimesBounds(init, lo, hi);
      assert |rs| * lo == |init| * lo + lo;
      assert |rs| * hi == |init| * hi + hi;
    }
  }

  /** `averageScore` and `averageTime` lie between the smallest and the
      largest value they average. */
  lemma AveragesWithinRange(rs: seq<GameResult>, lo: int, hi: int, tlo: int, thi: int)
    requires rs != []
    requires forall i :: 0 <= i < |rs| ==> lo <= rs[i].score <= hi
    requires forall i :: 0 <= i < |rs| ==> tlo <= rs[i].timeSpent <= thi
    ensures lo <= GenerateReport(rs).value.averageScore <= hi
    ensures tlo <= GenerateReport(rs).value.averageTime <= thi
  {
    SumScoresBounds(rs, lo, hi);
    RoundDivWithin(SumScores(rs), |rs|, lo, hi);
    SumTimesBounds(rs, tlo, thi);
    RoundDivWithin(SumTimes(rs), |rs|, tlo, thi);
  }

  /** A per-type average is 0 for a type never played, and otherwise lies
      within the scores of that type only. */
  lemma TypeAverageWithin(rs: seq<GameResult>, gameType: string, lo: int, hi: int)
    requires forall i :: 0 <= i < |rs| && rs[i].gameType == gameType ==> lo <= rs[i].score <= hi
    ensures OfType(rs, gameType) == [] ==> TypeAverage(rs, gameType) == 0
    ensures OfType(rs, gameType) != [] ==> lo <= TypeAverage(rs, gameType) <= hi
  {
    var f := OfType(rs, gameType);
    if f != [] {
      OfTypeMembers(rs, gameType);
      forall i | 0 <= i < |f| ensures lo <= f[i].score <= hi {
        assert f[i] in rs;
      }
      SumScoresBounds(f, lo, hi);
      RoundDivWithin(SumScores(f), |f|, lo, hi);
    }
  }

  /** Every result is counted by at most one per-game card, and shape,
      number and sound results by none: the three cards and the untracked
      results together make up the total. */
  lemma {:induction false} TypeCountsPartition(rs: seq<GameResult>)
    ensures |OfType(rs, MemoryLabel)| + |OfType(rs, PatternLabel)| + |OfType(rs, ColorLabel)|
            + |Untracked(rs)| == |rs|
  {
    if rs != [] {
      TypeCountsPartition(rs[..|rs| - 1]);
    }
  }

  lemma TypeCountsWithinTotal(rs: seq<GameResult>)
    requires rs != []
    ensures var r := GenerateReport(rs).value;
            r.memoryGames + r.patternGames + r.colorGames <= r.totalGames
  {
    TypeCountsPartition(rs);
  }

  /** Completing one more game: the total grows by one, the error total by
      that game's errors, and only the card of its own type gains a game. */
  lemma {:induction false} ReportAfterAppend(rs: seq<GameResult>, x: GameResult)
    ensures var r := GenerateReport(rs + [x]).value;
            && r.totalGames == |rs| + 1
            && r.totalErrors == SumErrors(rs) + x.errors
            && r.memoryGames == |OfType(rs, MemoryLabel)| + (if x.gameType == MemoryLabel then 1 else 0)
            && r.patternGames == |OfType(rs, PatternLabel)| + (if x.gameType == PatternLabel then 1 else 0)
            && r.colorGames == |OfType(rs, ColorLabel)| + (if x.gameType == ColorLabel then 1 else 0)
  {
    assert (rs + [x])[..|rs + [x]| - 1] == rs;
  }

  // ---------------------------------------------------------------------
  // Observation rule tables
  // ---------------------------------------------------------------------

  /** The "Pontos Fortes" lines of the report screen, in display order. */
  datatype Strength = GoodOverall | VisualMemory | PatternSkill | ColorSkill | QuickResponse

  /** The "Áreas para Desenvolvimento" lines, in display order; the first
      three are also the printed report's "Pontos de Atenção". */
  datatype Area = LowScore | ManyErrors | SlowAnswers | TrainMemory | TrainSequences

  /** The "Habilidades Desenvolvidas" lines of the printed report. */
  datatype Skill = VisualMemorySkill | SequentialMemorySkill | ColorRecognitionSkill

  function StrengthHolds(s: Strength, r: Report): bool
  {
    match s
    case GoodOverall => r.averageScore >= 70
    case VisualMemory => r.memoryAvg >= 70
    case PatternSkill => r.patternAvg >= 70
    case ColorSkill => r.colorAvg >= 70
    case QuickResponse => r.averageTime <= 30
  }

  function AreaHolds(a: Area, r: Report): bool
  {
    match a
    case LowScore => r.averageScore < 50
    case ManyErrors => r.totalErrors > r.totalGames * 2
    case SlowAnswers => r.averageTime > 60
    case TrainMemory => r.memoryAvg < 50
    case TrainSequences => r.patternAvg < 50
  }

  function When<T>(c: bool, x: T): seq<T>
  {
    if c then [x] else []
  }

  /** The lines of `order` whose rule holds, in table order: a list of
      `condition && <li>` entries renders exactly these. */
  function Filter<T>(order: seq<T>, holds: T -> bool): seq<T>
  {
    if order == [] then [] else When(holds(order[0]), order[0]) + Filter(order[1..], holds)
  }

  lemma {:induction false} FilterMembers<T>(order: seq<T>, holds: T -> bool)
    ensures forall x :: x in Filter(order, holds) <==> x in order && holds(x)
  {
    if order != [] {
      FilterMembers(order[1..], holds);
      assert forall x :: x in order <==> x == order[0] || x in order[1..];
    }
  }

  lemma {:induction false} FilterDistinct<T>(order: seq<T>, holds: T -> bool)
    requires forall i, j :: 0 <= i < j < |order| ==> order[i] != order[j]
    ensures forall i, j :: 0 <= i < j < |Filter(order, holds)| ==> Filter(order, holds)[i] != Filter(order, holds)[j]
  {
    if order != [] {
      FilterDistinct(order[1..], holds);
      FilterMembers(order[1..], holds);
      assert order[0] !in order[1..];
    }
  }

  /** Filtering a longer table keeps the shorter table's lines in front. */
  lemma {:induction false} FilterPrefix<T>(a: seq<T>, b: seq<T>, holds: T -> bool)
    ensures Filter(a, holds) <= Filter(a + b, holds)
  {
    if a != [] {
      assert (a + b)[1..] == a[1..] + b;
      FilterPrefix(a[1..], b, holds);
    }
  }

  /** The "Pontos Fortes" table in display order. */
  const StrengthOrder: seq<Strength> := [GoodOverall, VisualMemory, PatternSkill, ColorSkill, QuickResponse]

  /** The "Áreas para Desenvolvimento" table in display order. */
  const AreaOrder: seq<Area> := [LowScore, ManyErrors, SlowAnswers, TrainMemory, TrainSequences]

  /** Every line appears in its table, and the printed attention list is
      the first three areas. */
  lemma StrengthOrderComplete()
    ensures forall s :: s in StrengthOrder
  {
    forall s: Strength ensures s in StrengthOrder {
      match s
      case GoodOverall => assert StrengthOrder[0] == s;
      case VisualMemory => assert StrengthOrder[1] == s;
      case PatternSkill => assert StrengthOrder[2] == s;
      case ColorSkill => assert StrengthOrder[3] == s;
      case QuickResponse => assert StrengthOrder[4] == s;
    }
  }

  lemma AreaOrderComplete()
    ensures forall a :: a in AreaOrder
  {
    forall a: Area ensures a in AreaOrder {
      match a
      case LowScore => assert AreaOrder[0] == a;
      case ManyErrors => assert AreaOrder[1] == a;
      case SlowAnswers => assert AreaOrder[2] == a;
      case TrainMemory => assert AreaOrder[3] == a;
      case TrainSequences => assert AreaOrder[4] == a;
    }
  }

  lemma AttentionOrder()
    ensures forall a :: a in AreaOrder[..3] <==> a != TrainMemory && a != TrainSequences
  {
    forall a: Area ensures a in AreaOrder[..3] <==> a != TrainMemory && a != TrainSequences {
      match a
      case LowScore => assert AreaOrder[..3][0] == a;
      case ManyErrors => assert AreaOrder[..3][1] == a;
      case SlowAnswers => assert AreaOrder[..3][2] == a;
      case TrainMemory =>
      case TrainSequences =>
    }
  }

  /** The strengths shown: exactly the lines whose rule holds, each once. */
  function Strengths(r: Report): (lines: seq<Strength>)
    ensures forall s :: s in lines <==> StrengthHolds(s, r)
    ensures forall i, j :: 0 <= i < j < |lines| ==> lines[i] != lines[j]
  {
    var holds := s => StrengthHolds(s, r);
    FilterMembers(StrengthOrder, holds);
    FilterDistinct(StrengthOrder, holds);
    StrengthOrderComplete();
    Filter(StrengthOrder, holds)
  }

  /** The development areas shown: exactly the lines whose rule holds, each
      once. */
  function Areas(r: Report): (lines: seq<Area>)
    ensures forall a :: a in lines <==> AreaHolds(a, r)
    ensures forall i, j :: 0 <= i < j < |lines| ==> lines[i] != lines[j]
  {
    var holds := a => AreaHolds(a, r);
    FilterMembers(AreaOrder, holds);
    FilterDistinct(AreaOrder, holds);
    AreaOrderComplete();
    Filter(AreaOrder, holds)
  }

  /** The printed report's "Pontos de Atenção": the first three areas of
      the table, under the same rules. */
  function PrintedAttention(r: Report): (lines: seq<Area>)
    ensures forall a :: a in lines <==> AreaHolds(a, r) && a != TrainMemory && a != TrainSequences
  {
    var holds := a => AreaHolds(a, r);
    FilterMembers(AreaOrder[..3], holds);
    AttentionOrder();
    Filter(AreaOrder[..3], holds)
  }

  /** The printed report's skill lines: one per game card with a game. */
  function PrintedSkills(r: Report): (lines: seq<Skill>)
    ensures VisualMemorySkill in lines <==> r.memoryGames > 0
    ensures SequentialMemorySkill in lines <==> r.patternGames > 0
    ensures ColorRecognitionSkill in lines <==> r.colorGames > 0
  {
    When(r.memoryGames > 0, VisualMemorySkill)
    + When(r.patternGames > 0, SequentialMemorySkill)
    + When(r.colorGames > 0, ColorRecognitionSkill)
  }

  /** The printed attention list is the screen's development list without
      its two per-game lines, in the same order. */
  lemma PrintedAttentionIsPrefix(r: Report)
    ensures PrintedAttention(r) <= Areas(r)
  {
    assert AreaOrder == AreaOrder[..3] + AreaOrder[3..];
    FilterPrefix(AreaOrder[..3], AreaOrder[3..], a => AreaHolds(a, r));
  }

  /** A game type never played averages 0, so its development line shows:
      a profile without memory games is told to train visual memory, and
      one without sequence games to train sequences. */
  lemma UnplayedTypeFlagged(rs: seq<GameResult>)
    requires rs != []
    ensures OfType(rs, MemoryLabel) == [] ==> TrainMemory in Areas(GenerateReport(rs).value)
    ensures OfType(rs, PatternLabel) == [] ==> TrainSequences in Areas(GenerateReport(rs).value)
    ensures OfType(rs, ColorLabel) == [] ==> ColorSkill !in Strengths(GenerateReport(rs).value)
  {
  }

  /** The screen texts of the rule tables. */
  function StrengthText(s: Strength): string
  {
    match s
    case GoodOverall => "Boa performance geral nos jogos"
    case VisualMemory => "Excelente memória visual"
    case PatternSkill => "Boa capacidade de reconhecimento de padrões"
    case ColorSkill => "Ótimo reconhecimento de cores"
    case QuickResponse => "Resposta rápida aos estímulos"
  }

  function AreaText(a: Area): string
  {
    match a
    case LowScore => "Pontuação pode melhorar com mais prática"
    case ManyErrors => "Reduzir erros com mais atenção"
    case SlowAnswers => "Pode trabalhar a velocidade de resposta"
    case TrainMemory => "Treinar mais a memória visual"
    case TrainSequences => "Desenvolver reconhecimento de sequências"
  }
}

/** The sequence game: a sequence of shapes (0..2) is shown, then the child
    repeats it. A level of length `level + 2` completed scores `level * 10`
    and moves up; a mistake restarts the level, and the mistake made with two
    errors already counted ends the session. */
module PatternGame {
  import opened Types
  import opened Rounding

  /** Three shapes, indexed 0..2. */
  predicate IsShape(x: int)
  {
    0 <= x < 3
  }

  predicate AllShapes(s: seq<int>)
  {
    forall i :: 0 <= i < |s| ==> IsShape(s[i])
  }

  /** `generateSequence`'s push loop: `length` draws of `Math.floor(Math.random() * 3)`. */
  method BuildSequence(length: int, draws: seq<int>) returns (s: seq<int>)
    requires 0 <= length <= |draws| && AllShapes(draws[..length])
    ensures |s| == length && AllShapes(s)
    ensures s == draws[..length]
  {
    s := [];
    var i := 0;
    while i < length
      invariant 0 <= i <= length
      invariant s == draws[..i]
    {
      s := s + [draws[i]];
      i := i + 1;
    }
  }

  /** The score after finishing levels 1 .. level - 1, ten points per level
      number. */
  function LadderScore(level: int): int
  {
    if level <= 1 then 0 else LadderScore(level - 1) + 10 * (level - 1)
  }

  lemma {:induction false} LadderScoreClosed(level: int)
    requires level >= 1
    ensures LadderScore(level) == 5 * level * (level - 1)
  {
    if level > 1 {
      LadderScoreClosed(level - 1);
    }
  }

  /** What a deferred call in this game captured from the render of the click
      that scheduled it. */
  datatype Snapshot = Snapshot(level: int, score: int, errors: int)

  /** The deferred calls a click may schedule. */
  datatype Deferred =
    | NoTimer
      /** After a mistake: end the game if two errors were already counted,
          otherwise generate a fresh sequence for the captured level. */
    | AfterMistake(captured: Snapshot)
      /** After finishing level 5 or above: end the game. */
    | EndAfterLevel(captured: Snapshot)

  /** `endGame`, from the captured values: one correct answer per finished
      level, and the good reaction from level 4 on. */
  function EndGame(captured: Snapshot, startTime: int, stamp: Stamp): (r: GameResult)
    ensures r.gameType == PatternLabel && r.score == captured.score && r.errors == captured.errors
    ensures r.details.correctAnswers == captured.level - 1 && r.details.incorrectAnswers == captured.errors
    ensures captured.level >= 4 ==> r.details.reactions == ["Ótima capacidade de sequenciamento"]
    ensures captured.level < 4 ==> r.details.reactions == ["Pode melhorar a atenção aos padrões"]
    ensures r.details.patterns == ["Memória sequencial", "Reconhecimento de padrões"]
    ensures r.timeSpent == RoundDiv(stamp.now - startTime, 1000)
  {
    GameResult(stamp.id, PatternLabel, captured.score, captured.errors, RoundDiv(stamp.now - startTime, 1000),
               stamp.now,
               Details(captured.level - 1, captured.errors, ["Memória sequencial", "Reconhecimento de padrões"],
                       if captured.level >= 4 then ["Ótima capacidade de sequenciamento"]
                       else ["Pode melhorar a atenção aos padrões"]))
  }

  /** The game that ends after finishing level 5 reports the score and level
      from before that last level: 100 points instead of 150, four correct
      answers. */
  lemma FinalLevelNotCounted(errors: int, startTime: int, stamp: Stamp)
    ensures var r := EndGame(Snapshot(5, LadderScore(5), errors), startTime, stamp);
            r.score == 100 && r.details.correctAnswers == 4
            && r.details.reactions == ["Ótima capacidade de sequenciamento"]
  {
    LadderScoreClosed(5);
  }

  class PatternGame {
    var sequence: seq<int>
    var userSequence: seq<int>
    var showingSequence: bool
    var currentStep: int
    var level: int
    var score: int
    var errors: int
    var gameStarted: bool
    const startTime: int

    /** The score is always the ladder score of the level reached. */
    ghost predicate Valid()
      reads this
    {
      level >= 1 && errors >= 0 && score == LadderScore(level) && AllShapes(sequence)
    }

    constructor (now: int)
      ensures Valid() && !gameStarted && startTime == now
      ensures sequence == [] && userSequence == [] && !showingSequence
      ensures level == 1 && score == 0 && errors == 0
    {
      sequence := [];
      userSequence := [];
      showingSequence := false;
      currentStep := 0;
      level := 1;
      score := 0;
      errors := 0;
      gameStarted := false;
      startTime := now;
    }

    /** `generateSequence` for a given level (the one its caller saw): a
        fresh sequence of `forLevel + 2` shapes, an empty answer, and the
        sequence starts being shown. */
    method GenerateSequence(forLevel: int, draws: seq<int>)
      requires Valid() && forLevel >= 1
      requires forLevel + 2 <= |draws| && AllShapes(draws[..forLevel + 2])
      modifies this
      ensures Valid()
      ensures sequence == draws[..forLevel + 2] && |sequence| == forLevel + 2
      ensures userSequence == [] && showingSequence
      ensures level == old(level) && score == old(score) && errors == old(errors)
      ensures gameStarted == old(gameStarted)
    {
      sequence := BuildSequence(forLevel + 2, draws);
      userSequence := [];
      showingSequence := true;
    }

    /** `startGame`; the effect watching `gameStarted` then generates the
        first sequence, for the current level. */
    method StartGame(draws: seq<int>)
      requires Valid() && !gameStarted
      requires level + 2 <= |draws| && AllShapes(draws[..level + 2])
      modifies this
      ensures Valid() && gameStarted
      ensures sequence == draws[..old(level) + 2] && userSequence == [] && showingSequence
      ensures level == old(level) && score == old(score) && errors == old(errors)
    {
      gameStarted := true;
      GenerateSequence(level, draws);
    }

    /** The interval that shows the sequence has run past its end. */
    method FinishShowing()
      requires Valid()
      modifies this
      ensures Valid() && !showingSequence && currentStep == -1
      ensures sequence == old(sequence) && userSequence == old(userSequence)
      ensures level == old(level) && score == old(score) && errors == old(errors)
      ensures gameStarted == old(gameStarted)
    {
      showingSequence := false;
      currentStep := -1;
    }

    /** `handleShapeClick`: ignored while the sequence is shown. Otherwise
        the shape is appended to the answer. If it differs from the sequence
        at that position (or the answer is already longer than the sequence)
        an error is counted and a deferred call is scheduled with the values
        from before the click. If instead the answer is now complete, the
        level's points are added and the level goes up (the level effect then
        generates the next sequence); from level 5 on an `endGame` is
        scheduled too, again with the values from before the click. */
    method Click(shape: int) returns (deferred: Deferred, levelUp: bool)
      requires Valid() && gameStarted && IsShape(shape)
      modifies this
      ensures Valid()
      ensures old(showingSequence) ==>
                deferred == NoTimer && !levelUp && userSequence == old(userSequence)
                && level == old(level) && score == old(score) && errors == old(errors)
      ensures !old(showingSequence) ==>
                var n := |old(userSequence)|;
                userSequence == old(userSequence) + [shape]
                && if n >= |old(sequence)| || shape != old(sequence)[n] then
                     errors == old(errors) + 1 && deferred == AfterMistake(Snapshot(old(level), old(score), old(errors)))
                     && !levelUp && level == old(level) && score == old(score)
                   else if n + 1 == |old(sequence)| then
                     levelUp && score == old(score) + 10 * old(level) && level == old(level) + 1
                     && errors == old(errors)
                     && deferred == (if old(level) >= 5 then EndAfterLevel(Snapshot(old(level), old(score), old(errors))) else NoTimer)
                   else
                     deferred == NoTimer && !levelUp
                     && level == old(level) && score == old(score) && errors == old(errors)
      ensures sequence == old(sequence) && showingSequence == old(showingSequence) && gameStarted
    {
      deferred := NoTimer;
      levelUp := false;
      if showingSequence {
        return;
      }
      var captured := Snapshot(level, score, errors);
      var n := |userSequence|;
      userSequence := userSequence + [shape];
      if n >= |sequence| || shape != sequence[n] {
        errors := errors + 1;
        deferred := AfterMistake(captured);
        return;
      }
      if n + 1 == |sequence| {
        score := score + level * 10;
        level := level + 1;
        levelUp := true;
        if captured.level >= 5 {
          deferred := EndAfterLevel(captured);
        }
      }
    }

    /** A deferred call fires. After a mistake with two errors already
        counted, or after level 5 or above, it reports the result built from
        the captured values; after an earlier mistake it regenerates the
        sequence for the captured level. */
    method Fire(d: Deferred, draws: seq<int>, stamp: Stamp) returns (result: Option<GameResult>)
      requires Valid() && d != NoTimer && d.captured.level >= 1
      requires d.AfterMistake? && d.captured.errors < 2 ==>
                 d.captured.level + 2 <= |draws| && AllShapes(draws[..d.captured.level + 2])
      modifies this
      ensures Valid()
      ensures d.EndAfterLevel? || d.captured.errors >= 2 ==>
                result == Some(EndGame(d.captured, startTime, stamp))
                && sequence == old(sequence) && userSequence == old(userSequence)
                && showingSequence == old(showingSequence)
      ensures d.AfterMistake? && d.captured.errors < 2 ==>
                result == None && sequence == draws[..d.captured.level + 2]
                && userSequence == [] && showingSequence
      ensures level == old(level) && score == old(score) && errors == old(errors)
    {
      if d.EndAfterLevel? || d.captured.errors >= 2 {
        return Some(EndGame(d.captured, startTime, stamp));
      }
      GenerateSequence(d.captured.level, draws);
      result := None;
    }
  }

  /** Ending on a mistake reports the errors from before it: the mistake
      that ends the session is not counted. */
  lemma EndingMistakeNotCounted(captured: Snapshot, startTime: int, stamp: Stamp)
    requires captured.errors == 2
    ensures EndGame(captured, startTime, stamp).errors == 2
    ensures EndGame(captured, startTime, stamp).details.incorrectAnswers == 2
  {
  }
}

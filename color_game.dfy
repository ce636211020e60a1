/** The colour game: name a colour, pick it among all six. Rounds run until
    `nextRound` sees `round >= 10`. */
module ColorGame {
  import opened Types
  import opened Rounds

  /** Six colours, indexed 0..5; every one is always offered. */
  predicate IsColor(x: int)
  {
    0 <= x < 6
  }

  const LastRound: int := 10

  /** `endGame`, from the values the scheduling render captured. */
  function EndGame(captured: Snapshot, startTime: int, stamp: Stamp): (r: GameResult)
    requires SnapshotValid(captured)
    ensures r.gameType == ColorLabel && r.score == captured.score && r.errors == captured.errors
    ensures r.details.correctAnswers * 10 == captured.score && r.details.incorrectAnswers == captured.errors
    ensures captured.errors < 3 ==> r.details.reactions == ["Excelente reconhecimento de cores"]
    ensures captured.errors >= 3 ==> r.details.reactions == ["Pode praticar mais o reconhecimento"]
    ensures r.details.patterns == ["Reconhecimento de cores", "Coordenação visual"]
  {
    RoundResult(ColorLabel, ["Reconhecimento de cores", "Coordenação visual"],
                "Excelente reconhecimento de cores", "Pode praticar mais o reconhecimento",
                captured, startTime, stamp)
  }

  class ColorGame {
    var currentColor: int
    var score: int
    var errors: int
    var round: int
    var gameStarted: bool
    const startTime: int

    ghost predicate Valid()
      reads this
    {
      IsColor(currentColor) && score >= 0 && score % 10 == 0 && errors >= 0 && round >= 1
      && (!gameStarted ==> round == 1 && score == 0 && errors == 0)
    }

    constructor (now: int)
      ensures Valid() && !gameStarted && startTime == now
      ensures currentColor == 0 && round == 1 && score == 0 && errors == 0
    {
      currentColor := 0;
      score := 0;
      errors := 0;
      round := 1;
      gameStarted := false;
      startTime := now;
    }

    /** `nextRound` as a click's deferred call runs it, with the values that
        click captured: at the round limit it only reports the result (with
        the captured score and errors); otherwise the target becomes the
        drawn colour and the round counter goes up by one. */
    method NextRound(captured: Snapshot, draw: int, stamp: Stamp) returns (result: Option<GameResult>)
      requires Valid() && gameStarted && SnapshotValid(captured)
      requires captured.round < LastRound ==> IsColor(draw)
      modifies this
      ensures Valid() && gameStarted
      ensures captured.round >= LastRound ==>
                result == Some(EndGame(captured, startTime, stamp))
                && currentColor == old(currentColor) && round == old(round)
      ensures captured.round < LastRound ==>
                result == None && currentColor == draw && round == old(round) + 1
      ensures score == old(score) && errors == old(errors)
    {
      if captured.round >= LastRound {
        return Some(EndGame(captured, startTime, stamp));
      }
      currentColor := draw;
      round := round + 1;
      result := None;
    }

    /** `startGame` draws the first colour but, unlike the other round
        games, does not run `nextRound`: the first prompt is round 1. */
    method StartGame(draw: int)
      requires Valid() && !gameStarted && IsColor(draw)
      modifies this
      ensures Valid() && gameStarted && round == 1 && score == 0 && errors == 0
      ensures currentColor == draw
    {
      gameStarted := true;
      currentColor := draw;
    }

    /** `handleColorClick` on one of the six colour buttons: the right colour
        scores 10 and schedules `nextRound`, which captures the values from
        before this click; a wrong one counts an error and keeps the target. */
    method Click(selected: int) returns (scheduled: Option<Snapshot>)
      requires Valid() && gameStarted && IsColor(selected)
      modifies this
      ensures Valid()
      ensures selected == old(currentColor) ==>
                score == old(score) + 10 && errors == old(errors)
                && scheduled == Some(Snapshot(old(round), old(score), old(errors)))
      ensures selected != old(currentColor) ==>
                errors == old(errors) + 1 && score == old(score) && scheduled == None
      ensures scheduled.Some? ==> SnapshotValid(scheduled.value)
      ensures currentColor == old(currentColor) && round == old(round) && gameStarted
    {
      if selected == currentColor {
        scheduled := Some(Snapshot(round, score, errors));
        score := score + 10;
      } else {
        errors := errors + 1;
        scheduled := None;
      }
    }
  }
}

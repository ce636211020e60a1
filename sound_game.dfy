/** The sound game: play an animal sound, pick the animal among three.
    Rounds run until `nextRound` sees `round >= 10`. */
module SoundGame {
  import opened Types
  import opened Shuffling
  import opened Rounds

  /** Six animal sounds, indexed 0..5. */
  predicate IsSound(x: int)
  {
    0 <= x < 6
  }

  const OptionCount: int := 3
  const LastRound: int := 10

  /** `endGame`, from the values the scheduling render captured. */
  function EndGame(captured: Snapshot, startTime: int, stamp: Stamp): (r: GameResult)
    requires SnapshotValid(captured)
    ensures r.gameType == SoundLabel && r.score == captured.score && r.errors == captured.errors
    ensures r.details.correctAnswers * 10 == captured.score && r.details.incorrectAnswers == captured.errors
    ensures captured.errors < 3 ==> r.details.reactions == ["Excelente reconhecimento auditivo"]
    ensures captured.errors >= 3 ==> r.details.reactions == ["Pode praticar mais a associação de sons"]
    ensures r.details.patterns == ["Reconhecimento auditivo", "Associação som-imagem"]
  {
    RoundResult(SoundLabel, ["Reconhecimento auditivo", "Associação som-imagem"],
                "Excelente reconhecimento auditivo", "Pode praticar mais a associação de sons",
                captured, startTime, stamp)
  }

  /** Options a round may show for target `t`: three distinct sounds, `t`
      exactly once among them. */
  predicate OptionsFor(opts: seq<int>, t: int)
  {
    |opts| == OptionCount && Distinct(opts) && multiset(opts)[t] == 1
    && forall x :: x in opts ==> IsSound(x)
  }

  class SoundGame {
    var currentSound: int
    var score: int
    var errors: int
    var round: int
    var gameStarted: bool
    var availableOptions: seq<int>
    const startTime: int

    /** The counters and the target are always in range. */
    ghost predicate Counters()
      reads this
    {
      IsSound(currentSound) && score >= 0 && score % 10 == 0 && errors >= 0 && round >= 1
    }

    ghost predicate Valid()
      reads this
    {
      Counters()
      && (gameStarted ==> round >= 2 && OptionsFor(availableOptions, currentSound))
      && (!gameStarted ==> round == 1 && score == 0 && errors == 0 && availableOptions == [])
    }

    constructor (now: int)
      ensures Valid() && !gameStarted && startTime == now
      ensures currentSound == 0 && round == 1 && score == 0 && errors == 0
    {
      currentSound := 0;
      score := 0;
      errors := 0;
      round := 1;
      gameStarted := false;
      availableOptions := [];
      startTime := now;
    }

    /** The part of `nextRound` below the round check: the target becomes
        `correct`, the options are the rejection loop's `draws` shuffled by
        `swaps`, and the round counter goes up by one. */
    method Advance(correct: int, draws: seq<int>, swaps: seq<int>)
      requires Counters()
      requires IsSound(correct) && forall k :: 0 <= k < |draws| ==> IsSound(draws[k])
      requires |Elems([correct] + draws)| >= OptionCount
      requires |swaps| >= OptionCount - 1 && forall k :: 0 <= k < OptionCount - 1 ==> 0 <= swaps[k] <= OptionCount - 1 - k
      modifies this
      ensures Counters()
      ensures currentSound == correct && round == old(round) + 1
      ensures OptionsFor(availableOptions, correct)
      ensures multiset(availableOptions) == multiset(Collect([correct], draws, OptionCount))
      ensures score == old(score) && errors == old(errors) && gameStarted == old(gameStarted)
    {
      var opts := ShuffledOptions(correct, draws, OptionCount, swaps);
      currentSound := correct;
      availableOptions := opts;
      round := round + 1;
    }

    /** `nextRound` as a click's deferred call runs it, with the values that
        click captured: at the round limit it only reports the result (with
        the captured score and errors); otherwise it advances. */
    method NextRound(captured: Snapshot, correct: int, draws: seq<int>, swaps: seq<int>, stamp: Stamp)
      returns (result: Option<GameResult>)
      requires Valid() && gameStarted && SnapshotValid(captured)
      requires captured.round < LastRound ==>
                 IsSound(correct) && (forall k :: 0 <= k < |draws| ==> IsSound(draws[k]))
                 && |Elems([correct] + draws)| >= OptionCount
                 && |swaps| >= OptionCount - 1
                 && (forall k :: 0 <= k < OptionCount - 1 ==> 0 <= swaps[k] <= OptionCount - 1 - k)
      modifies this
      ensures Valid() && gameStarted
      ensures captured.round >= LastRound ==>
                result == Some(EndGame(captured, startTime, stamp))
                && currentSound == old(currentSound) && availableOptions == old(availableOptions)
                && round == old(round)
      ensures captured.round < LastRound ==>
                result == None && currentSound == correct && round == old(round) + 1
                && multiset(availableOptions) == multiset(Collect([correct], draws, OptionCount))
      ensures score == old(score) && errors == old(errors)
    {
      if captured.round >= LastRound {
        return Some(EndGame(captured, startTime, stamp));
      }
      Advance(correct, draws, swaps);
      result := None;
    }

    /** `startGame`: show the board and run `nextRound` at once, with the
        current round 1, which is below the limit; so the first prompt
        already carries round 2. */
    method StartGame(correct: int, draws: seq<int>, swaps: seq<int>)
      requires Valid() && !gameStarted
      requires IsSound(correct) && forall k :: 0 <= k < |draws| ==> IsSound(draws[k])
      requires |Elems([correct] + draws)| >= OptionCount
      requires |swaps| >= OptionCount - 1 && forall k :: 0 <= k < OptionCount - 1 ==> 0 <= swaps[k] <= OptionCount - 1 - k
      modifies this
      ensures Valid() && gameStarted && round == 2 && score == 0 && errors == 0
      ensures currentSound == correct
      ensures multiset(availableOptions) == multiset(Collect([correct], draws, OptionCount))
    {
      gameStarted := true;
      Advance(correct, draws, swaps);
    }

    /** `handleSoundClick`: the right animal scores 10 and schedules
        `nextRound`, which captures the values from before this click; a
        wrong one counts an error and keeps the same prompt. */
    method Click(selected: int) returns (scheduled: Option<Snapshot>)
      requires Valid() && gameStarted && selected in availableOptions
      modifies this
      ensures Valid()
      ensures selected == old(currentSound) ==>
                score == old(score) + 10 && errors == old(errors)
                && scheduled == Some(Snapshot(old(round), old(score), old(errors)))
      ensures selected != old(currentSound) ==>
                errors == old(errors) + 1 && score == old(score) && scheduled == None
      ensures scheduled.Some? ==> SnapshotValid(scheduled.value)
      ensures currentSound == old(currentSound) && availableOptions == old(availableOptions)
      ensures round == old(round) && gameStarted
    {
      if selected == currentSound {
        scheduled := Some(Snapshot(round, score, errors));
        score := score + 10;
      } else {
        errors := errors + 1;
        scheduled := None;
      }
    }
  }
}

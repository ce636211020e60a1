/** The home screen: the stored list of child profiles, the selected
    profile, the running game and the result being shown, and the gate that
    decides whether a game may start. */
module Home {
  import opened Types
  import Auth

  datatype GameKind = MemoryGame | PatternGame | ColorGame | ShapeGame | NumberGame | SoundGame

  /** Where `handleStartGame` sends the browser, if anywhere. */
  datatype Navigation = Stay | ToLogin | ToPricing

  /** The outcome of the start gate, checked in order: user, premium, profile. */
  datatype Gate = NeedLogin | NeedPremium | NeedProfile | Play

  function StartGate(user: Option<Auth.User>, selected: Option<ChildProfile>): (g: Gate)
    ensures g == NeedLogin <==> user.None?
    ensures g == NeedPremium <==> user.Some? && !Auth.PremiumOf(user)
    ensures g == NeedProfile <==> Auth.PremiumOf(user) && selected.None?
    ensures g == Play <==> Auth.PremiumOf(user) && selected.Some?
  {
    if user.None? then NeedLogin
    else if !Auth.PremiumOf(user) then NeedPremium
    else if selected.None? then NeedProfile
    else Play
  }

  /** The profile list after a game: every profile whose id is `id` gets
      `result` appended to its results; all others are kept as they are. */
  function AppendResult(profiles: seq<ChildProfile>, id: string, result: GameResult): (r: seq<ChildProfile>)
    ensures |r| == |profiles|
    ensures forall i :: 0 <= i < |r| ==>
              r[i].id == profiles[i].id && r[i].name == profiles[i].name
              && r[i].age == profiles[i].age && r[i].createdAt == profiles[i].createdAt
    ensures forall i :: 0 <= i < |r| && profiles[i].id == id ==>
              r[i].gameResults == profiles[i].gameResults + [result]
    ensures forall i :: 0 <= i < |r| && profiles[i].id != id ==> r[i] == profiles[i]
  {
    if profiles == [] then []
    else
      var p := profiles[0];
      [if p.id == id then p.(gameResults := p.gameResults + [result]) else p]
      + AppendResult(profiles[1..], id, result)
  }

  function TotalResults(profiles: seq<ChildProfile>): int
  {
    if profiles == [] then 0 else |profiles[0].gameResults| + TotalResults(profiles[1..])
  }

  function CountId(profiles: seq<ChildProfile>, id: string): int
  {
    if profiles == [] then 0 else (if profiles[0].id == id then 1 else 0) + CountId(profiles[1..], id)
  }

  /** Completing a game stores exactly one new result per profile carrying
      the selected id (ids come from the clock and need not be unique). */
  lemma {:induction false} AppendResultCount(profiles: seq<ChildProfile>, id: string, result: GameResult)
    ensures TotalResults(AppendResult(profiles, id, result)) == TotalResults(profiles) + CountId(profiles, id)
  {
    if profiles != [] {
      AppendResultCount(profiles[1..], id, result);
      assert AppendResult(profiles, id, result)[1..] == AppendResult(profiles[1..], id, result);
    }
  }

  class HomeState {
    var currentGame: Option<GameKind>
    var gameResult: Option<GameResult>
    var profiles: seq<ChildProfile>
    /** A copy of the profile taken when it was selected or created; later
        appends to `profiles` do not refresh it, only its id is used. */
    var selected: Option<ChildProfile>
    var showNameInput: bool
    var childName: string

    /** The screen as first shown, with the profiles storage holds. */
    constructor (stored: seq<ChildProfile>)
      ensures currentGame == None && gameResult == None && profiles == stored
      ensures selected == None && !showNameInput && childName == ""
    {
      currentGame := None;
      gameResult := None;
      profiles := stored;
      selected := None;
      showNameInput := false;
      childName := "";
    }

    /** `handleGameComplete`: show the result, store it in the selected
        profile (if any), and leave the game. */
    method GameComplete(result: GameResult)
      modifies this
      ensures gameResult == Some(result) && currentGame == None
      ensures old(selected).Some? ==> profiles == AppendResult(old(profiles), old(selected).value.id, result)
      ensures old(selected).None? ==> profiles == old(profiles)
      ensures selected == old(selected) && showNameInput == old(showNameInput) && childName == old(childName)
    {
      gameResult := Some(result);
      if selected.Some? {
        profiles := AppendResult(profiles, selected.value.id, result);
      }
      currentGame := None;
    }

    /** `handlePlayAgain` clears only the shown result. Reached from the
        result screen, `currentGame` is already empty, so it lands on the
        menu just as `handleBackToMenu` does. */
    method PlayAgain()
      modifies this
      ensures gameResult == None && currentGame == old(currentGame)
      ensures profiles == old(profiles) && selected == old(selected)
      ensures showNameInput == old(showNameInput) && childName == old(childName)
    {
      gameResult := None;
    }

    method BackToMenu()
      modifies this
      ensures gameResult == None && currentGame == None
      ensures profiles == old(profiles) && selected == old(selected)
      ensures showNameInput == old(showNameInput) && childName == old(childName)
    {
      gameResult := None;
      currentGame := None;
    }

    /** `handleStartGame`: login first, then premium, then a profile; only
        then does the game start. */
    method StartGame(kind: GameKind, auth: Auth.AuthState) returns (nav: Navigation)
      modifies this
      ensures var g := StartGate(auth.user, old(selected));
              && (nav == ToLogin <==> g == NeedLogin)
              && (nav == ToPricing <==> g == NeedPremium)
              && (showNameInput == (old(showNameInput) || g == NeedProfile))
              && (currentGame == if g == Play then Some(kind) else old(currentGame))
      ensures gameResult == old(gameResult) && profiles == old(profiles)
      ensures selected == old(selected) && childName == old(childName)
    {
      if auth.user.None? {
        return ToLogin;
      }
      if !auth.HasPremiumAccess() {
        return ToPricing;
      }
      if selected.None? {
        showNameInput := true;
        return Stay;
      }
      currentGame := Some(kind);
      nav := Stay;
    }

    /** `handleCreateProfile`: a blank name changes nothing; otherwise the
        profile, named with the untrimmed input, is appended and selected, and
        the name input is closed and cleared. */
    method CreateProfile(stamp: Stamp)
      modifies this
      ensures IsBlank(old(childName)) ==>
                profiles == old(profiles) && selected == old(selected)
                && showNameInput == old(showNameInput) && childName == old(childName)
      ensures !IsBlank(old(childName)) ==>
                var p := ChildProfile(stamp.id, old(childName), 0, stamp.now, []);
                profiles == old(profiles) + [p] && selected == Some(p)
                && !showNameInput && childName == ""
      ensures currentGame == old(currentGame) && gameResult == old(gameResult)
    {
      if IsBlank(childName) {
        return;
      }
      var p := ChildProfile(stamp.id, childName, 0, stamp.now, []);
      profiles := profiles + [p];
      selected := Some(p);
      showNameInput := false;
      childName := "";
    }

    /** A click on one of the listed profiles. */
    method SelectProfile(p: ChildProfile)
      requires p in profiles
      modifies this
      ensures selected == Some(p)
      ensures profiles == old(profiles) && currentGame == old(currentGame) && gameResult == old(gameResult)
      ensures showNameInput == old(showNameInput) && childName == old(childName)
    {
      selected := Some(p);
    }

    /** The "new profile" buttons and the name field. */
    method OpenNameInput()
      modifies this
      ensures showNameInput
      ensures profiles == old(profiles) && selected == old(selected) && childName == old(childName)
      ensures currentGame == old(currentGame) && gameResult == old(gameResult)
    {
      showNameInput := true;
    }

    method TypeChildName(text: string)
      modifies this
      ensures childName == text
      ensures profiles == old(profiles) && selected == old(selected) && showNameInput == old(showNameInput)
      ensures currentGame == old(currentGame) && gameResult == old(gameResult)
    {
      childName := text;
    }

    method CancelNameInput()
      modifies this
      ensures !showNameInput && childName == ""
      ensures profiles == old(profiles) && selected == old(selected)
      ensures currentGame == old(currentGame) && gameResult == old(gameResult)
    {
      showNameInput := false;
      childName := "";
    }
  }
}

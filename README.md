# Children's games front-end, modelled in Dafny

This project models the front-end of a web platform where children play
six short games: memory, sequences, colours, shapes, numbers and sounds.
Each finished game becomes a `GameResult` stored in the selected child's
profile. The profile and report screens then summarise those results. A
mock authentication hook gates the games behind login and a premium flag.
A help chat ("Luna") answers questions by keyword.

The model has one Dafny module per screen or game:

- `Types`: the shared records, the six game-type labels and the whitespace
  set of JavaScript's `trim()`.
- `Rounding`: `Math.round(s / n)` as exact integer arithmetic.
- `Reports`: `generateReport` and the rule tables of the report screen and
  of the printed report.
- `ProfileStats`: the average score, the total play time, the per-type
  statistics dictionary and the recent-games list.
- `Auth`: the mock branch of `useAuth`, a class whose one field is the
  current user.
- `Home`: the home screen as a class, covering game completion, the start
  gate (login, then premium, then profile) and profile creation.
- `ResultScreen`: the score colour and the performance message.
- `Chat`: the keyword classifier behind `generateResponse`, and the message
  list as a class.
- `Shuffling` and `Rounds`: the in-place swap shuffle on an array, the
  rejection loop that collects distinct answer options, and the result
  record that the round games share.
- `MemoryGame`, `PatternGame`, `ColorGame`, `ShapeGame`, `NumberGame` and
  `SoundGame`: one class per game, with its state fields and one method per
  event handler.

React state updates are modelled as field assignments. A `setTimeout`
callback runs with the values of the render that scheduled it, not with the
latest state. The model makes this explicit. The click method returns what
the callback captured: a `Snapshot` in the round games and the sequence
game, the input text in the chat. A second method (`NextRound`, `Fire`,
`DeliverReply`, `Resolve`) runs the callback later from those captured
values. Clock readings come in as a `Stamp` parameter (milliseconds and
the id string derived from them). Each `Math.random` draw comes in as an
integer parameter whose range is stated in `requires`.

## Model

| member | source | states |
|---|---|---|
| Rounding.RoundDiv | Reports.tsx:16-22 | `Math.round(s / n)`: the result r satisfies 2nr − n ≤ 2s < 2nr + n, i.e. it is the nearest integer with ties going up |
| Rounding.RoundDivUnique | Profile.tsx:25 | the rounding bounds determine the result: any r within them equals `RoundDiv(s, n)` |
| Rounding.RoundDivWithin | Reports.tsx:16-18 | a rounded mean of n values that all lie in [lo, hi] lies in [lo, hi] |
| Rounding.RoundDivExact | Profile.tsx:44 | rounding an exact quotient gives the quotient back |
| Reports.OfType | Reports.tsx:25-27 | the type filter never yields more results than it is given |
| Reports.OfTypeMembers | Reports.tsx:25-27 | the filter keeps exactly the results whose `gameType` is the requested label |
| Reports.GenerateReport | Reports.tsx:12-51 | no report exactly when there are no results; otherwise `totalGames` is the positive number of results |
| Reports.SumScoresBounds | Reports.tsx:17 | if every score lies in [lo, hi], the sum of n scores lies in [n·lo, n·hi] |
| Reports.SumTimesBounds | Reports.tsx:21 | the same bounds for the sum of `timeSpent` |
| Reports.AveragesWithinRange | Reports.tsx:16-22 | `averageScore` and `averageTime` each lie between the smallest and the largest value they average |
| Reports.TypeAverageWithin | Reports.tsx:29-37 | a per-type average is 0 for a type never played, and otherwise lies within the scores of that type alone |
| Reports.TypeCountsPartition | Reports.tsx:25-27 | memory, sequence and colour counts plus the shape, number and sound results add up to the total number of results |
| Reports.TypeCountsWithinTotal | Reports.tsx:47-49 | the three per-game counts together never exceed `totalGames` |
| Reports.ReportAfterAppend | Reports.tsx:15-49 | one more result raises `totalGames` by one and `totalErrors` by its errors, and adds one game only to the counter of its own type |
| Reports.FilterMembers | Reports.tsx:340-344 | a rule table renders exactly the entries whose condition holds |
| Reports.FilterDistinct | Reports.tsx:340-344 | a rule table without repeated entries renders each line at most once |
| Reports.FilterPrefix | Reports.tsx:351-355 | the lines rendered from a table's leading part come first, in the same order, when the whole table is rendered |
| Reports.StrengthOrderComplete | Reports.tsx:340-344 | every strength line is in the "Pontos Fortes" table |
| Reports.AreaOrderComplete | Reports.tsx:351-355 | every development line is in the "Áreas para Desenvolvimento" table |
| Reports.AttentionOrder | Reports.tsx:143-145 | the printed attention table holds the three general areas and neither per-game area |
| Reports.Strengths | Reports.tsx:340-344 | a strength line is shown if and only if its threshold holds (score ≥ 70, memory/pattern/colour average ≥ 70, time ≤ 30); no line is shown twice |
| Reports.Areas | Reports.tsx:351-355 | a development line is shown if and only if its threshold holds (score < 50, errors > 2·games, time > 60, memory/pattern average < 50); no line is shown twice |
| Reports.PrintedAttention | Reports.tsx:143-145 | a printed attention line appears if and only if its area's threshold holds and it is not one of the two per-game areas |
| Reports.PrintedSkills | Reports.tsx:135-137 | each printed skill line appears if and only if its game was played at least once |
| Reports.PrintedAttentionIsPrefix | Reports.tsx:143-145 | the printed attention list is a prefix of the screen's development list |
| Reports.UnplayedTypeFlagged | Reports.tsx:29-37 | a type never played averages 0, so "train memory" and "train sequences" are shown for unplayed games, and the colour strength never is |
| ProfileStats.GetAverageScore | Profile.tsx:22-26 | 0 for no results; otherwise the same figure as the report screen's `averageScore` |
| ProfileStats.TotalMinutes | Profile.tsx:107 | the minutes shown are the total play time in seconds divided by 60, rounded half up |
| ProfileStats.PlayTimeAdditive | Profile.tsx:28-30 | play time adds up over concatenated result lists, so each game adds exactly its own `timeSpent` |
| ProfileStats.DistinctTypes | Profile.tsx:32-43 | the key list holds a type if and only if some result has that type, and holds no type twice |
| ProfileStats.AbsentTypeEmpty | Profile.tsx:36 | a type that no result carries selects no results |
| ProfileStats.PresentTypeNonEmpty | Profile.tsx:36-39 | a type that some result carries selects at least one result |
| ProfileStats.TallySnoc | Profile.tsx:35-41 | one more result adds one game and its score to the tally of its own type and leaves every other tally unchanged |
| ProfileStats.TallyMapDomain | Profile.tsx:35-41 | after the first pass the dictionary has a key exactly for each type played |
| ProfileStats.TallyMapValues | Profile.tsx:35-41 | after the first pass each entry holds that type's number of games and score sum |
| ProfileStats.TallyKeysInOrder | Profile.tsx:35-38 | keys are inserted in order of first appearance |
| ProfileStats.TallyTypes | Profile.tsx:35-41 | the first `forEach` loop builds exactly the fold `TallyMap` and the key order `TallyKeys` |
| ProfileStats.AverageTypes | Profile.tsx:43-45 | the second loop keeps the keys and replaces each score sum by its rounded mean over `played` |
| ProfileStats.GetGameTypeStats | Profile.tsx:32-48 | keys in order of first appearance; an entry exists if and only if that type was played; `played` is the number of results of that type (≥ 1) and `avgScore` equals the report screen's per-type average |
| ProfileStats.SumPlayedAppend | Profile.tsx:39 | one more result adds one to the summed `played` counts exactly when its type is a key |
| ProfileStats.SumPlayedAbsent | Profile.tsx:36-37 | a key for a type no result carries adds nothing to the sum |
| ProfileStats.PlayedSumsToTotal | Profile.tsx:32-48 | summed over all keys, `played` equals the number of results: each result is counted once |
| ProfileStats.Reverse | Profile.tsx:155 | the reversal has the same length, and entry i is entry n − 1 − i of the input |
| ProfileStats.RecentGames | Profile.tsx:153-155 | the last five results (all of them when fewer), newest first |
| Auth.NameFromEmail | useAuth.ts:35 | the name is a prefix of the address that contains no '@', and it stops exactly at the first '@' (or at the end) |
| Auth.LoginUser | useAuth.ts:33-39 | the mock user keeps the e-mail, is named after its local part and has no premium |
| Auth.RegisteredUser | useAuth.ts:45-51 | the registered user keeps the given name and e-mail and has no premium |
| Auth.PremiumOf | useAuth.ts:58-60 | premium access if and only if there is a user and that user's flag is set; the hook's `hasPremiumAccess` reads it for the current user |
| Auth.AuthState.constructor | useAuth.ts:27 | the hook starts from the stored user record |
| Auth.AuthState.Login | useAuth.ts:31-42 | always succeeds and replaces the user by the mock user for that e-mail; the password is ignored |
| Auth.AuthState.Register | useAuth.ts:43-54 | always succeeds and replaces the user by the new non-premium user |
| Auth.AuthState.Logout | useAuth.ts:55-57 | no user is left, so premium access is off |
| Auth.AuthState.ActivatePremium | useAuth.ts:61-65 | without a user nothing changes; otherwise only the premium flag changes, to true; premium access then holds if and only if there was a user |
| Home.StartGate | Home.tsx:68-84 | the four outcomes are checked in order: no user means login, a user without premium means pricing, premium without a profile means the name prompt, otherwise play |
| Home.AppendResult | Home.tsx:48-52 | same length and the same profiles in the same order; each profile with the selected id gains the result at the end of its list, and every other profile is unchanged |
| Home.AppendResultCount | Home.tsx:44-54 | the stored results grow by exactly one per profile carrying the selected id |
| Home.HomeState.constructor | Home.tsx:21-26 | no game and no result shown, no profile selected, the name prompt closed and empty |
| Home.HomeState.GameComplete | Home.tsx:44-57 | the result is shown, appended to the selected profile's results (if a profile is selected), and the game is left |
| Home.HomeState.PlayAgain | Home.tsx:59-61 | only the shown result is cleared |
| Home.HomeState.BackToMenu | Home.tsx:63-66 | the shown result and the running game are both cleared |
| Home.HomeState.StartGame | Home.tsx:68-84 | redirects to login or pricing exactly as the gate says, opens the name prompt when no profile is selected, and starts the game only when the gate allows play |
| Home.HomeState.CreateProfile | Home.tsx:86-101 | a blank name changes nothing; otherwise a profile with the untrimmed name, age 0 and no results is appended and selected, and the prompt is closed and cleared |
| Home.HomeState.SelectProfile | Home.tsx:348 | the clicked profile becomes the selected one |
| Home.HomeState.OpenNameInput | Home.tsx:337 | the name prompt opens |
| Home.HomeState.TypeChildName | Home.tsx:400 | the prompt holds the typed text |
| Home.HomeState.CancelNameInput | Home.tsx:413-416 | the prompt closes and its text is cleared |
| ResultScreen.ScoreColorOf | GameResults.tsx:12-16 | green if and only if score ≥ 80, yellow if and only if 60 ≤ score < 80, red if and only if score < 60 |
| ResultScreen.PerformanceTier | GameResults.tsx:18-23 | the first tier whose condition holds, each stated as an if-and-only-if |
| ResultScreen.PerformanceMessage | GameResults.tsx:18-23 | always one of the four messages, each shown if and only if its tier's condition holds |
| ResultScreen.TierMonotoneInScore | GameResults.tsx:18-23 | with the errors fixed, a higher score never gives a lower message tier |
| ResultScreen.TierMonotoneInErrors | GameResults.tsx:18-23 | with the score fixed, fewer errors never give a lower message tier |
| ResultScreen.ColorMonotone | GameResults.tsx:12-16 | a higher score never gives a colour further down the scale |
| Chat.LowerChar | AIChat.tsx:40 | each capital maps to its lower-case letter 32 code points above it, other characters are kept, and the result is never upper case |
| Chat.Lower | AIChat.tsx:40 | lower-casing keeps the length and maps every character |
| Chat.LowerIdempotent | AIChat.tsx:40 | lower-casing twice is the same as lower-casing once |
| Chat.AbsentChar | AIChat.tsx:42-74 | a keyword containing a character that the message lacks does not occur in the message |
| Chat.ContainsPiece | AIChat.tsx:42-74 | a message containing a keyword also contains every piece of that keyword |
| Chat.FirstMatch | AIChat.tsx:42-74 | the index of the first rule that fires, and no earlier rule fires |
| Chat.Classify | AIChat.tsx:40-74 | the fallback answer is used if and only if no rule fires on the lower-cased message |
| Chat.FirstFiringRuleDecides | AIChat.tsx:42-74 | the first rule that fires decides the answer, whatever later rules say |
| Chat.ClassifyIgnoresCase | AIChat.tsx:40 | a message and its lower-cased form get the same answer |
| Chat.IdadeIsDevelopment | AIChat.tsx:42-47 | a message containing "idade" is answered by the signs or the development rule |
| Chat.AgeOnlyViaPhrases | AIChat.tsx:60-62 | the age answer is reached only through "quantos anos" or "criança pequena", never through "que idade" |
| Chat.AtividadesIsShadowed | AIChat.tsx:48 | "atividades" contains "idade", so a message containing it never reaches the games rule |
| Chat.QuickReplyLowered | AIChat.tsx:238 | the quick reply, lower-cased, is "como usar os jogos?" |
| Chat.QuickReplyNoMarcos | AIChat.tsx:45 | the lower-cased quick reply does not contain "marcos" |
| Chat.QuickReplySkipsSigns | AIChat.tsx:42 | the signs rule does not fire on the quick reply |
| Chat.QuickReplySkipsDevelopment | AIChat.tsx:45 | the development rule does not fire on the quick reply |
| Chat.QuickReplyIsGames | AIChat.tsx:238 | the quick reply "Como usar os jogos?" also fires the how-to-use rule, but is answered by the games rule |
| Chat.GenerateResponse | AIChat.tsx:39-85 | the answer of the first rule that fires; when none fires, a fallback that quotes the message as typed, not lower-cased |
| Chat.ChatState.constructor | AIChat.tsx:17-26 | the chat opens with the welcome message, id "1", an empty input and no reply pending |
| Chat.ChatState.SetInput | AIChat.tsx:217 | the input holds the text and nothing else changes |
| Chat.ChatState.Send | AIChat.tsx:87-99 | a blank input sends nothing; otherwise the message is appended as typed, the input is cleared, the typing flag is raised, and a reply to that same text is scheduled; an enabled send button (AIChat.tsx:224) always sends, and after a send the button is disabled |
| Chat.ChatState.DeliverReply | AIChat.tsx:102-111 | the answer to the captured text is appended and the typing flag drops, so the send button (AIChat.tsx:224) is enabled again exactly when the input is not blank |
| Shuffling.DistinctCounts | ShapeGame.tsx:35-40 | a sequence without repeats holds each value at most once |
| Shuffling.PermutationDistinct | ShapeGame.tsx:43-46 | rearranging a sequence without repeats gives a sequence without repeats |
| Shuffling.Shuffle | MemoryGame.tsx:38-41 | the in-place swap loop leaves the array a permutation of what it held |
| Rounds.DistinctCard | ShapeGame.tsx:35-40 | a sequence without repeats has as many distinct values as entries |
| Rounds.KeepFacts | ShapeGame.tsx:36-39 | one step of the rejection loop keeps the options distinct, keeps them in front, and adds the draw |
| Rounds.StepElems | ShapeGame.tsx:36-39 | one step moves the draw from the values still to come to the values in hand |
| Rounds.CollectFacts | ShapeGame.tsx:31-40 | with enough distinct values available, the loop collects exactly `size` distinct values, the correct one first, and takes nothing but draws |
| Rounds.DrawsRemain | ShapeGame.tsx:35 | the loop never runs out of draws while enough distinct values remain |
| Rounds.CollectOptions | ShapeGame.tsx:31-40 | the `while` loop computes `Collect`: `size` distinct options, the correct answer first, every other option a draw |
| Rounds.ShuffledOptions | ShapeGame.tsx:31-46 | the options shown are a permutation of the collected ones: `size` distinct values, the correct answer exactly once |
| Rounds.Seconds | ShapeGame.tsx:68 | milliseconds to seconds, rounded half up |
| Rounds.RoundResult | ShapeGame.tsx:66-86 | the result carries the captured score and errors, one correct answer per ten points, and the good reaction exactly when there are fewer than three errors |
| MemoryGame.Deal | MemoryGame.tsx:29-35 | twelve cards; card k has id k and icon k / 2, face down and unmatched |
| MemoryGame.DealtPairs | MemoryGame.tsx:30-34 | each icon is on exactly two dealt cards, ids 2i and 2i + 1 |
| MemoryGame.IndexOf | MemoryGame.tsx:51 | `cards.find` by id: the first position with that id, or −1 when no card has it |
| MemoryGame.MatchedCountUpdate | MemoryGame.tsx:71-75 | changing one card changes the matched count only by that card's own flag change |
| MemoryGame.MatchedCountFull | MemoryGame.tsx:92 | the matched count lies in [0, 12] and equals 12 exactly when every card is matched |
| MemoryGame.FlagsOnly | MemoryGame.tsx:57-59 | changing only one card's flags keeps the deck's shape and the position of every id |
| MemoryGame.FlipStep | MemoryGame.tsx:54-59 | turning up a face-down unmatched card and recording its id keeps the board invariant |
| MemoryGame.RevealedPair | MemoryGame.tsx:62-64 | the two recorded cards are two distinct cards, face up and unmatched, and they are the only such cards |
| MemoryGame.MatchFlags | MemoryGame.tsx:69-76 | after a match, the flags agree with an empty reveal list |
| MemoryGame.MatchStep | MemoryGame.tsx:69-76 | a match keeps the board invariant with one more matched pair |
| MemoryGame.MismatchFlags | MemoryGame.tsx:77-84 | after a mismatch, the flags agree with an empty reveal list |
| MemoryGame.MismatchStep | MemoryGame.tsx:77-86 | a mismatch keeps the board invariant with the same matched pairs |
| MemoryGame.CompleteIffAllMatched | MemoryGame.tsx:92 | on a valid board, six matches means every card is matched, and the other way round |
| MemoryGame.ShuffledDeckValid | MemoryGame.tsx:28-44 | any permutation of the dealt deck is a valid starting board |
| MemoryGame.MatchedZero | MemoryGame.tsx:32-33 | a deck with no matched card has matched count 0 |
| MemoryGame.MemoryScore | MemoryGame.tsx:99 | `Math.max(100 − 10·errors, 0)` for every integer: never negative, 100 − 10·errors below ten errors, 0 from ten errors on, and at most 100 (exactly 100 without errors) for any error count of zero or more |
| MemoryGame.MemoryScoreMonotone | MemoryGame.tsx:99 | more errors never give a higher score, for any two error counts |
| MemoryGame.PairClosed | MemoryGame.tsx:71-75 | marking two distinct cards with the same icon as matched closes their pair: both cards of every pair stay matched or unmatched together |
| MemoryGame.MemoryGame.constructor | MemoryGame.tsx:16-44 | counters at zero, and the deck is the dealt deck shuffled in place, so every dealt card is on the board |
| MemoryGame.MemoryGame.Click | MemoryGame.tsx:46-89 | ignored while two cards are revealed or when the card is absent, face up or matched; otherwise the card turns face up, its id is recorded, and a second card counts an attempt |
| MemoryGame.MemoryGame.MarkStarted | MemoryGame.tsx:47 | the first click marks the game started and changes nothing else |
| MemoryGame.MemoryGame.Reveal | MemoryGame.tsx:54-66 | the card turns face up, its id is recorded, and revealing the second card counts an attempt |
| MemoryGame.MemoryGame.Resolve | MemoryGame.tsx:68-87 | equal icons mark both cards matched and count a match; different icons turn both back and count an error; the reveal list empties and attempts equal matches plus errors |
| MemoryGame.MemoryGame.Completion | MemoryGame.tsx:91-113 | a result exists if and only if six pairs are matched: memory label, `max(100 − 10·errors, 0)` points, six correct answers, the good reaction for fewer than three errors |
| PatternGame.BuildSequence | PatternGame.tsx:29-32 | the push loop yields `length` draws, each a shape index 0..2 |
| PatternGame.LadderScoreClosed | PatternGame.tsx:75-76 | reaching level L scores 10·1 + … + 10·(L − 1) = 5·L·(L − 1) |
| PatternGame.EndGame | PatternGame.tsx:84-104 | the captured score and errors; correct answers = level − 1; the good reaction from level 4 on |
| PatternGame.FinalLevelNotCounted | PatternGame.tsx:78-79 | the game that ends after level 5 reports 100 points and 4 correct answers, not 150 and 5 |
| PatternGame.EndingMistakeNotCounted | PatternGame.tsx:63-65 | the mistake that ends the game is not counted: the result reports 2 errors |
| PatternGame.PatternGame.constructor | PatternGame.tsx:12-20 | level 1, score 0, no errors, no sequence, not started |
| PatternGame.PatternGame.GenerateSequence | PatternGame.tsx:28-36 | a fresh sequence of `forLevel + 2` shapes, an empty answer, and the sequence starts being shown; the counters are kept |
| PatternGame.PatternGame.StartGame | PatternGame.tsx:22-26 | the game starts, and the effect generates a sequence for the current level |
| PatternGame.PatternGame.FinishShowing | PatternGame.tsx:46-50 | the showing phase ends with step −1; nothing else changes |
| PatternGame.PatternGame.Click | PatternGame.tsx:54-82 | ignored while the sequence is shown; a wrong shape counts an error and schedules a callback with the pre-click values; finishing the sequence adds 10·level points and moves up a level, and from level 5 on also schedules the end; the score always equals the ladder score of the level |
| PatternGame.PatternGame.Fire | PatternGame.tsx:63-69 | after level 5, or after a mistake with two errors already counted, it reports the result built from the captured values; after an earlier mistake it regenerates the sequence for the captured level |
| ShapeGame.EndGame | ShapeGame.tsx:66-86 | the shape label, the captured score and errors, and the shape reactions and patterns |
| ShapeGame.ShapeGame.constructor | ShapeGame.tsx:15-22 | shape 0, round 1, score and errors 0, not started |
| ShapeGame.ShapeGame.Advance | ShapeGame.tsx:31-51 | the target becomes the drawn shape; the four options are distinct shapes, a permutation of the collected ones, with the target once; the round goes up by one |
| ShapeGame.ShapeGame.NextRound | ShapeGame.tsx:24-52 | at captured round ≥ 12 it only reports the result from the captured values; otherwise it advances |
| ShapeGame.ShapeGame.StartGame | ShapeGame.tsx:88-91 | the game starts and runs `nextRound` at once, so the first prompt carries round 2 |
| ShapeGame.ShapeGame.Click | ShapeGame.tsx:54-64 | the right shape scores 10 and schedules `nextRound` with the pre-click values; a wrong one counts an error and keeps the prompt |
| NumberGame.EndGame | NumberGame.tsx:54-74 | the number label, the captured score and errors, and the number reactions and patterns |
| NumberGame.NumberGame.constructor | NumberGame.tsx:5-12 | number 1, round 1, score and errors 0, not started |
| NumberGame.NumberGame.Advance | NumberGame.tsx:19-39 | the target becomes the drawn number 1..10; the four options are distinct numbers, a permutation of the collected ones, with the target once; the round goes up by one |
| NumberGame.NumberGame.NextRound | NumberGame.tsx:14-40 | at captured round ≥ 10 it only reports the result from the captured values; otherwise it advances |
| NumberGame.NumberGame.StartGame | NumberGame.tsx:76-79 | the game starts and runs `nextRound` at once, so the first prompt carries round 2 |
| NumberGame.NumberGame.Click | NumberGame.tsx:42-52 | the right number scores 10 and schedules `nextRound` with the pre-click values; a wrong one counts an error |
| SoundGame.EndGame | SoundGame.tsx:74-94 | the sound label, the captured score and errors, and the sound reactions and patterns |
| SoundGame.SoundGame.constructor | SoundGame.tsx:15-23 | sound 0, round 1, score and errors 0, not started |
| SoundGame.SoundGame.Advance | SoundGame.tsx:30-50 | the target becomes the drawn sound; the three options are distinct sounds, a permutation of the collected ones, with the target once; the round goes up by one |
| SoundGame.SoundGame.NextRound | SoundGame.tsx:25-54 | at captured round ≥ 10 it only reports the result from the captured values; otherwise it advances |
| SoundGame.SoundGame.StartGame | SoundGame.tsx:96-99 | the game starts and runs `nextRound` at once, so the first prompt carries round 2 |
| SoundGame.SoundGame.Click | SoundGame.tsx:62-72 | the right sound scores 10 and schedules `nextRound` with the pre-click values; a wrong one counts an error |
| ColorGame.EndGame | ColorGame.tsx:45-65 | the colour label, the captured score and errors, and the colour reactions and patterns |
| ColorGame.ColorGame.constructor | ColorGame.tsx:14-20 | colour 0, round 1, score and errors 0, not started |
| ColorGame.ColorGame.NextRound | ColorGame.tsx:22-31 | at captured round ≥ 10 it only reports the result from the captured values; otherwise the target becomes the drawn colour and the round goes up by one |
| ColorGame.ColorGame.StartGame | ColorGame.tsx:67-70 | the game starts with a drawn colour and without running `nextRound`, so the first prompt is round 1 |
| ColorGame.ColorGame.Click | ColorGame.tsx:33-43 | the right colour scores 10 and schedules `nextRound` with the pre-click values; a wrong one counts an error |

Behaviour of the code that the model keeps as written:

- A deferred call sees the values captured at click time. So the score of
  the last correct answer in a round game is never reported: `endGame`
  runs from the render before that `+10`.
- The sequence game reports the score and level from before its final
  level (see `PatternGame.FinalLevelNotCounted`).
- The sequence game's third mistake reports 2 errors (see
  `PatternGame.EndingMistakeNotCounted`).
- After level 5, the level effect still generates a level-6 sequence
  before the deferred end arrives.
- The shape, number and sound games call `nextRound` from `startGame`, so
  their first prompt is already round 2. The colour game does not call it
  and starts at round 1.
- The chat keywords "atividades" and "que idade" contain "idade", so an
  earlier rule always answers them first.
- The Enter key sends the chat message without the `isTyping` check that
  disables the button.

## Left out

- Rendering, styling, icons, feedback strings and sound playback (`playSound`, `isPlaying`) are not modelled; they change no state the other screens read.
- The per-step `currentStep` animation of the sequence game is reduced to `FinishShowing`; the 800 ms interval ticks are not modelled.
- Timer durations (800, 1000, 1500, 2000 ms) are not modelled. A deferred call is a separate method that the caller invokes later. Interleavings of several pending timers are not explored.
- The feedback-clearing timeouts of the round games are not modelled; they only reset a display string.
- `localStorage` persistence (`useLocalStorage`, the disclaimer flag) is not modelled. Stored values come in as constructor parameters.
- The disclaimer modal and the AI chat's open and close state on the home screen are not modelled.
- The printed report's HTML, the print window and the report's recommendation lines with no conditions are not modelled.
- `Date.now()` and `new Date()` come in as a `Stamp` parameter. `Math.random()` comes in as draws whose range is stated in `requires`; its distribution is not modelled.
- Chat.LowerChar: lower-cases only the ASCII and Latin-1 capitals, one character to one character; JavaScript's `toLowerCase` uses the full Unicode case mapping, which also lowers capitals outside Latin-1 and can lengthen the string (U+0130 becomes "i" plus U+0307, the Kelvin sign U+212A becomes "k"). A message with such capitals, for example "Oİ", can therefore be classified differently: JavaScript answers it with the greeting because its lower-cased form contains "oi", while the model gives the fallback.
- Chat.Lower: keeps the length of the message, with the same Latin-1 limit as `Chat.LowerChar`; under the full Unicode mapping the lower-cased message can be longer than the one typed.
- Rounds.ShuffledOptions: states that the shown options are a permutation of the collected ones, not which permutation the swap draws produce.
- MemoryGame.MemoryGame.Click: the card update goes through `IndexOf` on the current array rather than mapping over React's `prev` state. The two agree because the ids on the board are distinct, which the board invariant states.
- Home.HomeState.StartGame: the redirect to `/login` or `/pricing` is returned as a `Navigation` value instead of assigning `window.location.href`.
- The React component lifecycle (mounting, unmounting while a timer is pending) is not modelled.

# Wordway Racers — a Dafny model of the race and practice logic

Wordway Racers is a browser vocabulary game written in plain JavaScript (`script.js`). The player races
a rival over 20 steps across at most 20 rounds. Each round one word (Chinese with its English meaning)
falls down the screen, and the player picks its translation from three buttons:
- a correct answer moves the player two steps;
- the first wrong answer of a round moves the player back one step and the rival forward one;
- a word that reaches the bottom lets the rival move one step.

Before the race a practice screen asks the player to match every Chinese button with its English button.

This project models the game's logic in Dafny and proves properties about it:

- `config.dfy` (module `Config`): the constants, `clamp`, and the fall-speed formula of `spawnRound`.
- `shuffling.dfy` (module `Shuffling`): the Fisher-Yates `shuffle`, as a loop over an array proved
  equal to a recursive specification `Shuffled`, which is proved to be a permutation that keeps
  distinctness.
- `vocabulary.dfy` (module `Vocabulary`): the six-word list, `pickNextWord` and its bounded retry
  loop, and `buildChoices3`'s three-button choice list.
- `race.dfy` (module `Race`): the round and race state machine, covering `resetGame`, `spawnRound`,
  `handleChoice`, `miss`, `endRound`, the two setTimeout callbacks and `endGame`.
  - `State` holds the script's module variables.
  - One `After…` function per entry point gives the new state.
  - `Inv` is the invariant satisfied by every state reachable with the corrected reset (see
    "## Findings"); lemmas prove each operation keeps it.
  - The class `Game` keeps the variables as fields and updates them in place. Each method is proved to
    move `Snap()` exactly as its `After…` function says.
- `practice.dfy` (module `Practice`): `buildPracticePairs`, and `handlePick` with its set of matched
  words, both as a pure transition and as the class `Matcher`.

Modelling choices:

- **Randomness is an input.** Every `Math.random()` call is replaced by a value the caller supplies.
  A shuffle takes `draws[i]`, the index drawn at step `i`. `pickNextWord` takes the successive word
  indices it draws, and a spawn takes all its draws in one `Draws` value.
- **Words are indices.** A word is its index into the word list, so the source's `===` on word objects
  is equality of indices. The `seen` counter stored on each word object is the entry `seen[i]` of
  one sequence.
- **The pacing delay is state.** The 200 ms or 120 ms `setTimeout` before `endRound` is the field
  `pending`. It records whether an `endRound` call is waiting and whether that call moves the rival.
  Running its callback is the event `FireTimer` / `AfterTimer`.
- **The animation is an event.** The falling-word animation (`tick`) is reduced to the event it
  raises: `miss()`.
- **Endings are data.** The end screen is the `ending` field: the reason (`player_finish`,
  `rival_finish` or `distance`) and the announced winner.

## Model

| member | source | states |
|---|---|---|
| Config.Clamp | script.js:77-79 | the result lies between `min` and `max`, equals `n` inside the range, `max` above it and `min` below it, and is never below `min` |
| Config.FallSpeed | script.js:380-384 | the fall speed is between 30 and 580 px/s, is 30 px/s times the number of showings up to 19 showings, and is capped at 580 from the 20th showing on |
| Config.FallSpeedMonotone | script.js:380-384 | a word shown more often never falls more slowly |
| Shuffling.SwapPermutes | script.js:85 | the swap of two positions keeps the multiset of elements and keeps a duplicate-free sequence duplicate-free |
| Shuffling.ShuffleDownPermutes | script.js:83-86 | the swaps for steps i down to 1 keep the multiset of elements and distinctness |
| Shuffling.ShuffledPermutes | script.js:81-88 | `shuffle` returns a permutation of its input, duplicate-free when the input is |
| Shuffling.Shuffle | script.js:81-88 | the in-place loop over a copy of the input returns exactly the specified Fisher-Yates result `Shuffled(arr, draws)` |
| Vocabulary.FirstDifferent | script.js:359-362 | the retry loop stops at a draw between the starting one and the 20th retry |
| Vocabulary.FirstDifferentStops | script.js:359-362 | every draw before the stopping draw repeated the previous word, and the stopping draw differs from it unless the 20 retries ran out |
| Vocabulary.PickIndex | script.js:355-365 | the word is taken from one of the first 21 draws, and from the first draw when there is no previous word or only one word |
| Vocabulary.PickIndexRetries | script.js:357-363 | with a previous word and more than one word, every rejected draw repeated the previous word, and the taken draw differs from it unless the retry budget ran out |
| Vocabulary.PickNextWord | script.js:355-365 | the loop returns the draw the specification names and uses 1 to 21 draws; the previous word comes back only after all 21 draws repeated it |
| Vocabulary.Others | script.js:402 | the pool has one entry fewer than the list when the current word is in it |
| Vocabulary.OthersProperties | script.js:402 | the pool holds exactly the words other than the current one, each once, in list order |
| Vocabulary.Choices | script.js:399-408 | the choice list always has three entries |
| Vocabulary.DistractorsProperties | script.js:402-406 | the two wrong answers are words of the list; a wrong answer is the current word exactly when the pool is too short to supply it; with three or more words the two differ |
| Vocabulary.ChoicesProperties | script.js:399-408 | the three choices are words of the list and include the current word: once when there are at least three words, in which case all three differ; otherwise padded with it |
| Vocabulary.FixedWordsChoicesDistinct | script.js:4-11 | with the game's six words the three buttons always show three different words, one of them the current word |
| Vocabulary.BuildChoices3 | script.js:399-408 | the method builds exactly the specified choice list: filter, shuffle, take two distractors, shuffle the three |
| Race.Decide | script.js:519-527 | a player finish announces the player, a rival finish the rival, and a distance ending the player if ahead, the rival if ahead, a tie if level |
| Race.DistanceDecisionSymmetric | script.js:523-527 | exchanging the two positions exchanges the winner of a distance decision and keeps a tie |
| Race.PickedWord | script.js:377 | the spawned word is a word of the list |
| Race.InitialInv | script.js:29-44 | the variables as initialised on load satisfy the invariant |
| Race.SpawnInv | script.js:367-397 | starting a round keeps the invariant: one more word shown, exactly as many showings as rounds begun |
| Race.ResetInv | script.js:336-353 | the corrected reset from any state yields a state satisfying the invariant |
| Race.ChoiceInv | script.js:443-476 | an answer keeps the invariant: positions stay on the track, at most one point per round |
| Race.MissInv | script.js:478-486 | a miss keeps the invariant |
| Race.EndRoundInv | script.js:419-441 | ending a round keeps the invariant: round counter at most 21, every live round is started by a spawn |
| Race.TimerInv | script.js:454-457 | the pacing-delay callback keeps the invariant |
| Race.StoppedIgnoresInput | script.js:368 | while the game is not running, answers, misses and spawns change nothing |
| Race.SpawnShowsWord | script.js:375-384 | a spawned round shows the picked word one more time and no other word; it shows the previous word again only after 21 draws of it; it clears the wrong-answer flag, sets the speed from the new count (30 px/s on a first showing) and leaves round, score and positions alone |
| Race.SpawnOffersChoices | script.js:391 | the round's three buttons are words of the list and include the shown word; with three or more words they are distinct and show it once |
| Race.SpawnAfterLastRound | script.js:370-373 | past round 20 a spawn ends the race by distance without showing a word |
| Race.CorrectAnswer | script.js:446-461 | a correct answer scores one point, moves the player two steps (capped at the finish), leaves the rival, stops the round and schedules `endRound` without a rival move |
| Race.WrongAnswer | script.js:466-475 | the first wrong answer moves the player back one step (not below 0) and the rival forward one; the race ends with a rival win exactly when the rival reaches step 20 |
| Race.WrongAnswerOncePerRound | script.js:466 | a second wrong answer in the same round changes nothing |
| Race.MissRules | script.js:478-486 | a miss moves nobody yet; it stops the round and schedules `endRound` with a rival move |
| Race.EndRoundRules | script.js:419-441 | the rival moves on a miss; a player at the finish wins first, then a rival at the finish; otherwise the round advances and the race either ends by distance after round 20 or spawns the next round |
| Race.ResetRules | script.js:336-353 | the corrected reset (see "## Findings") starts round 1 with score 0, both racers at the start, no ending and no pending timer; exactly one word has been shown, once, falling at 30 px/s |
| Race.ResetIdempotent | script.js:336-353 | resetting twice with the same draws is the same as resetting once, both for the corrected reset and for the reset as written |
| Race.FirstRoundCorrect | script.js:446-461 | answering the first word of a new race correctly leaves, after the pause, round 2 with score 1, the player at step 2 and the rival at the start |
| Race.CorrectAnswerAtEighteenWins | script.js:428 | a correct answer at step 18 wins the race by finish once the pause ends |
| Race.LastRoundMissLosesOnDistance | script.js:433-435 | a miss in round 20 with the player at 14 and the rival at 16 moves the rival to 17 and ends the race with a rival win by distance |
| Race.StaleTimerAsWritten | script.js:549-552 | under the reset as written, a timer still pending from the previous race fires into the new race, advancing it to round 2 and moving its rival |
| Race.ResetCancelsTimer | script.js:336-353 | after the corrected reset no timer is pending, and a timer firing changes nothing |
| Race.ZeroCounters | script.js:343 | every exposure counter is set back to zero and the list keeps its length |
| Race.Game.constructor | script.js:29-44 | the fields start as the script initialises them, and the invariant holds |
| Race.Game.ResetGame | script.js:336-353 | the fields change exactly as `AfterReset` (the corrected reset) says, and the invariant holds afterwards whatever the state before |
| Race.Game.SpawnRound | script.js:367-397 | the fields change exactly as `AfterSpawn` says |
| Race.Game.StartNextRound | script.js:375-391 | past the guards the fields change exactly as `StartRound` says for the picked word |
| Race.Game.HandleChoice | script.js:443-476 | the fields change exactly as `AfterChoice` says, and the invariant is kept |
| Race.Game.Miss | script.js:478-486 | the fields change exactly as `AfterMiss` says, and the invariant is kept |
| Race.Game.FireTimer | script.js:454-457 | the fields change exactly as `AfterTimer` says, and the invariant is kept |
| Race.Game.EndRound | script.js:419-441 | the fields change exactly as `AfterEndRound` says |
| Race.Game.EndGame | script.js:512-527 | only `running` and the announced ending change, as `AfterEndGame` says |
| Practice.Items | script.js:191-195 | one item per word |
| Practice.ShuffledColumn | script.js:197-198 | each shuffled column has one button per word, showing that word's text for the column, with no word twice |
| Practice.BuildPracticePairs | script.js:189-201 | both columns are shuffles of the word list, each a complete column, and `total` is the number of words |
| Practice.RangeSet | script.js:234 | the set holds exactly the ids below `n` |
| Practice.PickRules | script.js:251-295 | the matched set only grows, and only by the tapped word, exactly when the same word is held in the other column; afterwards nothing is held, or the tapped button, or (a tap on a matched word) nothing changes |
| Practice.PickInv | script.js:251-295 | matched words and the held button stay within the list, and the held button is never a matched word |
| Practice.IgnoreMatched | script.js:252 | a tap on a word that is already matched changes nothing |
| Practice.SwitchInColumn | script.js:266-271 | a tap in the column of the held button, on another unmatched word, makes that button the held one and matches nothing |
| Practice.ToggleOff | script.js:254-258 | tapping the held button again releases it, however it came to be held, and changes nothing else |
| Practice.TapTwiceRestores | script.js:254-264 | from an empty selection, tapping a button twice leaves everything as it was |
| Practice.MatchPair | script.js:277-292 | a word tapped in both columns becomes matched and the selection clears |
| Practice.Mismatch | script.js:293-294 | with a button held, a tap on a different unmatched word in the other column matches nothing and clears the selection |
| Practice.MismatchRestores | script.js:260-294 | from an empty selection, two different words tapped in different columns leave everything as it was |
| Practice.ContinueMeansAllMatched | script.js:232-235 | the matched count reaches `total` exactly when every word is matched |
| Practice.CompleteIsFinal | script.js:252 | once every word is matched, no tap changes anything |
| Practice.PickPairsMatchesAll | script.js:277-292 | matching each word in turn from a fresh practice step matches all of them |
| Practice.Matcher.constructor | script.js:205-206 | a fresh practice step has nothing matched and nothing held |
| Practice.Matcher.HandlePick | script.js:251-295 | the fields change exactly as `AfterPick` says, and the invariant is kept |
| Practice.Matcher.ContinueEnabled | script.js:232-235 | Continue is enabled exactly when every word is matched |

## Left out

- DOM rendering is not modelled: the text of labels and buttons, CSS classes, `updateTopUI`,
  `updateRaceUI`, `setTokenPosition`, `computeImpactY`, `flashWrong`, the overlays' HTML and the
  JP/romaji labelling (`modeJP`).
- The falling animation (`tick`, `y`, `IMPACT_Y`, `lastT`, `requestAnimationFrame`) uses floating
  point and wall-clock time. It appears only as the `Miss` event it raises when the word reaches
  the impact line.
- Real timers are not modelled. A pacing delay is the `pending` field, and its callback runs when
  `FireTimer` is called. The model holds at most one pending call. With the reset as written the
  source can hold two: a mode toggle during a pause keeps the old callback (script.js:454 or :482),
  and a correct answer or a miss in the new race schedules another. The model's `pending` field then
  keeps only the newer one, so it does not capture two callbacks running in turn.
- `Math.random` is replaced by caller-supplied draws. Valid draws are stated by `ValidDraws` and
  `DrawsFor`.
- Car selection (`renderCarSelectStep`, `applyCarChoice`), `showStartOverlay` and the resize handler
  only change what is displayed or which screen is shown, so they are not modelled.
- Race.Game.ResetGame: states the reset corrected to cancel the pending timer (`Race.ResetFields`),
  not the reset as written at script.js:336-353. The rows Race.ResetRules, Race.ResetInv and
  Race.ResetCancelsTimer are also statements about the corrected reset (Race.ResetIdempotent covers both).
  `Inv` is an invariant of the states reachable with the corrected reset only. The reset as written
  is `Race.ResetFieldsAsWritten`. `Race.StaleTimerAsWritten` shows the state it can reach: a running
  round with an `endRound` still pending, which `Inv` excludes.
- Practice.Matcher.HandlePick: a button is identified by its column and word id rather than by its
  DOM element. Each column has exactly one button per word (`ShuffledColumn`), so the two
  identifications agree.

## Findings

| source | as written | input that shows it | evidently intended | confidence | as-written member | corrected member |
|---|---|---|---|---|---|---|
| script.js:336-353 | `resetGame` does not cancel an `endRound` timer still pending from `handleChoice` or `miss` | toggle the mode (script.js:549-552) within 200 ms of a correct answer or 120 ms of a miss: the old callback runs in the new race, which jumps to round 2, and after a miss its rival starts at step 1 | a reset starts a clean race, with no callback of the previous race left to run | not executed | Race.StaleTimerAsWritten | Race.ResetCancelsTimer |

The rest of the model, including `Race.Game.ResetGame`, uses the corrected reset `Race.ResetFields`,
which clears the pending timer. `Race.ResetFieldsAsWritten` keeps the source's behaviour for the
finding.

/**
 * The round/race state machine of script.js (GAME FLOW, ENDING / WIN CHECKS, END SCREEN).
 *
 * `State` is the value of the module-level variables the rules read and write; the `After…` functions
 * say what each entry point does to it, `Inv` is what holds in every state reachable with the corrected
 * reset (`ResetFields`), and the class `Game` holds the same variables as fields and updates them in
 * place, each method proved to move
 * `Snap()` exactly as its `After…` function says.
 *
 * The setTimeout pacing delay of 200 ms (correct answer) or 120 ms (miss) is the field `pending`: the
 * endRound call waiting to run while `running` is false. `FireTimer` is the timer callback.
 * Math.random is replaced by draws the caller supplies (`Draws`), the falling-word animation by the
 * `Miss` event it raises when the word reaches the impact line.
 */
module Race {
  import opened Wrappers
  import opened Config
  import opened Shuffling
  import opened Vocabulary

  /** Why the race ended: the reason string passed to `endGame`. */
  datatype Reason = PlayerFinish | RivalFinish | Distance

  /** Who the end screen says won. */
  datatype Winner = Player | Rival | Tie

  /** What the end screen announces. */
  datatype Ending = Ending(reason: Reason, winner: Winner)

  /** The deferred `endRound({ rivalMoves })` call scheduled during the pacing delay, if any. */
  datatype Pending = NoTimer | EndRoundScheduled(rivalMoves: bool)

  /** The random draws one `spawnRound` consumes: the word picks, then the two shuffles of `buildChoices3`. */
  datatype Draws = Draws(pick: seq<nat>, pool: seq<nat>, order: seq<nat>)

  /** Draws that Math.random could produce for a list of `n` words. */
  predicate DrawsFor(n: nat, d: Draws) {
    && 0 < n
    && MAX_RETRIES < |d.pick|
    && (forall i :: 0 <= i < |d.pick| ==> d.pick[i] < n)
    && ValidDraws(n - 1, d.pool)
    && ValidDraws(3, d.order)
  }

  /** The game variables of script.js; `seen[i]` is the exposure counter of word i, `choices` the answer buttons. */
  datatype State = State(
    round: int,
    score: int,
    playerPos: int,
    rivalPos: int,
    currentWord: Option<nat>,
    seen: seq<nat>,
    fallSpeed: int,
    running: bool,
    wrongPenaltyUsed: bool,
    choices: seq<nat>,
    pending: Pending,
    ending: Option<Ending>)

  function Sum(s: seq<nat>): nat {
    if s == [] then 0 else s[0] + Sum(s[1..])
  }

  /** Showing a word once more adds exactly one to the total of the exposure counters. */
  lemma {:induction false} SumIncrement(s: seq<nat>, i: nat)
    requires i < |s|
    ensures Sum(s[i := s[i] + 1]) == Sum(s) + 1
  {
    if i == 0 {
      assert s[i := s[i] + 1][1..] == s[1..];
    } else {
      assert s[i := s[i] + 1][1..] == s[1..][i - 1 := s[i] + 1];
      SumIncrement(s[1..], i - 1);
    }
  }

  /** Counters that are all zero total zero. */
  lemma {:induction false} SumAllZero(s: seq<nat>)
    requires forall i :: 0 <= i < |s| ==> s[i] == 0
    ensures Sum(s) == 0
  {
    if s != [] {
      SumAllZero(s[1..]);
    }
  }

  // ----- endGame -----

  /** The outcome `endGame(reason)` announces: the finisher, or for a distance ending whoever is further ahead. */
  function Decide(reason: Reason, playerPos: int, rivalPos: int): (w: Winner)
    ensures reason == PlayerFinish ==> w == Player
    ensures reason == RivalFinish ==> w == Rival
    ensures reason == Distance ==>
              (w == Player <==> playerPos > rivalPos) &&
              (w == Rival <==> playerPos < rivalPos) &&
              (w == Tie <==> playerPos == rivalPos)
  {
    match reason
    case PlayerFinish => Player
    case RivalFinish => Rival
    case Distance =>
      if playerPos > rivalPos then Player
      else if playerPos < rivalPos then Rival
      else Tie
  }

  /** The distance decision treats the two racers alike: exchanging their positions exchanges the winner. */
  lemma DistanceDecisionSymmetric(p: int, q: int)
    ensures Decide(Distance, p, q) == Player <==> Decide(Distance, q, p) == Rival
    ensures Decide(Distance, p, q) == Tie <==> Decide(Distance, q, p) == Tie
  {
  }

  /** `endGame(reason)`: stops the game and records the announced outcome. */
  function AfterEndGame(s: State, reason: Reason): State {
    s.(running := false, ending := Some(Ending(reason, Decide(reason, s.playerPos, s.rivalPos))))
  }

  // ----- resetGame and spawnRound -----

  /** The module variables as initialised when the script loads, for a list of `n` words. */
  function Initial(n: nat): State {
    State(1, 0, 0, 0, None, seq(n, _ => 0), BASE_FALL_SPEED, false, false, [], NoTimer, None)
  }

  /** The state part of `resetGame` as written: it leaves a pending endRound timer in place. */
  function ResetFieldsAsWritten(s: State): State {
    s.(round := 1, score := 0, playerPos := 0, rivalPos := 0, currentWord := None,
       seen := seq(|s.seen|, _ => 0), ending := None, running := true)
  }

  /** The state part of `resetGame`, corrected to cancel a pending endRound timer as well. */
  function ResetFields(s: State): State {
    ResetFieldsAsWritten(s).(pending := NoTimer)
  }

  /** `spawnRound`: starts the next round, or ends the race by distance once the rounds are used up. */
  function AfterSpawn(s: State, d: Draws): State
    requires DrawsFor(|s.seen|, d)
  {
    if !s.running then s
    else if s.round > TOTAL_ROUNDS then AfterEndGame(s, Distance)
    else StartRound(s, PickedWord(s, d), d)
  }

  /** The word `pickNextWord` returns for these draws. */
  function PickedWord(s: State, d: Draws): (w: nat)
    requires DrawsFor(|s.seen|, d)
    ensures w < |s.seen|
  {
    d.pick[PickIndex(s.currentWord, |s.seen|, d.pick)]
  }

  /** The rest of `spawnRound` once word `w` is picked: count the showing, set the speed, build the buttons. */
  function StartRound(s: State, w: nat, d: Draws): State
    requires w < |s.seen| && DrawsFor(|s.seen|, d)
  {
    var seen := s.seen[w := s.seen[w] + 1];
    s.(wrongPenaltyUsed := false, currentWord := Some(w), seen := seen,
       fallSpeed := FallSpeed(seen[w]), choices := Choices(|s.seen|, w, d.pool, d.order))
  }

  /** `resetGame`: the reset followed by the first `spawnRound`. */
  function AfterReset(s: State, d: Draws): State
    requires DrawsFor(|s.seen|, d)
  {
    AfterSpawn(ResetFields(s), d)
  }

  // ----- handleChoice, miss, endRound and the timer -----

  /** `handleChoice(chosenWord)`. */
  function AfterChoice(s: State, chosen: nat): State {
    if !s.running then s
    else if s.currentWord == Some(chosen) then
      s.(score := s.score + 1, playerPos := Clamp(s.playerPos + 2, 0, STEPS),
         running := false, pending := EndRoundScheduled(false))
    else if !s.wrongPenaltyUsed then
      var t := s.(wrongPenaltyUsed := true, playerPos := Clamp(s.playerPos - 1, 0, STEPS),
                  rivalPos := Clamp(s.rivalPos + 1, 0, STEPS));
      if t.rivalPos >= STEPS then AfterEndGame(t, RivalFinish) else t
    else s
  }

  /** `miss()`: the falling word reached the impact line. */
  function AfterMiss(s: State): State {
    if !s.running then s else s.(running := false, pending := EndRoundScheduled(true))
  }

  /** `endRound({ rivalMoves })`. */
  function AfterEndRound(s: State, rivalMoves: bool, d: Draws): State
    requires DrawsFor(|s.seen|, d)
  {
    var t := if rivalMoves then s.(rivalPos := Clamp(s.rivalPos + 1, 0, STEPS)) else s;
    if t.playerPos >= STEPS then AfterEndGame(t, PlayerFinish)
    else if t.rivalPos >= STEPS then AfterEndGame(t, RivalFinish)
    else
      var u := t.(round := t.round + 1);
      if u.round > TOTAL_ROUNDS then AfterEndGame(u, Distance)
      else AfterSpawn(u, d)
  }

  /** The setTimeout callback: `running = true; endRound({ rivalMoves })`. */
  function AfterTimer(s: State, d: Draws): State
    requires DrawsFor(|s.seen|, d)
  {
    match s.pending
    case NoTimer => s
    case EndRoundScheduled(rivalMoves) =>
      AfterEndRound(s.(running := true, pending := NoTimer), rivalMoves, d)
  }

  // ----- the invariant -----

  /** Both racers on the track and the current word, if any, in the word list. */
  ghost predicate Placed(s: State) {
    && |s.seen| > 0
    && 0 <= s.playerPos <= STEPS
    && 0 <= s.rivalPos <= STEPS
    && (s.currentWord.Some? ==> s.currentWord.value < |s.seen|)
  }

  /** Facts that hold in every state, in whatever phase. */
  ghost predicate Shape(s: State) {
    Placed(s) && BASE_FALL_SPEED <= s.fallSpeed <= MAX_FALL_SPEED
  }

  /**
   * Every state reachable when a reset clears the pending timer (`ResetFields`; the reset as written
   * can reach a running round with a stale timer, see `StaleTimerAsWritten`): positions within the track, round within [1, TOTAL_ROUNDS + 1], score and
   * words shown within TOTAL_ROUNDS; while a round is live (running, or its endRound pending) nobody has
   * finished, exactly one word has been shown per round so far, and at most one correct answer per
   * round has been scored.
   */
  ghost predicate Inv(s: State) {
    && Shape(s)
    && 1 <= s.round <= TOTAL_ROUNDS + 1
    && 0 <= s.score <= TOTAL_ROUNDS
    && Sum(s.seen) <= TOTAL_ROUNDS
    && (s.running ==>
          && s.pending == NoTimer && s.ending == None && s.currentWord.Some?
          && s.round <= TOTAL_ROUNDS && s.playerPos < STEPS && s.rivalPos < STEPS
          && Sum(s.seen) == s.round && s.score < s.round)
    && (s.pending.EndRoundScheduled? ==>
          && !s.running && s.ending == None && s.currentWord.Some?
          && s.round <= TOTAL_ROUNDS && s.rivalPos < STEPS
          && (s.pending.rivalMoves ==> s.playerPos < STEPS)
          && Sum(s.seen) == s.round && s.score <= s.round)
  }

  lemma InitialInv(n: nat)
    requires 0 < n
    ensures Inv(Initial(n))
  {
    SumAllZero(Initial(n).seen);
  }

  /** A spawn from a state that is about to start a round leaves a live round satisfying the invariant. */
  lemma SpawnInv(s: State, d: Draws)
    requires DrawsFor(|s.seen|, d) && 0 <= s.playerPos && 0 <= s.rivalPos
    requires s.currentWord.Some? ==> s.currentWord.value < |s.seen|
    requires s.running && s.pending == NoTimer && s.ending == None
    requires 1 <= s.round <= TOTAL_ROUNDS && s.playerPos < STEPS && s.rivalPos < STEPS
    requires Sum(s.seen) == s.round - 1 && 0 <= s.score < s.round
    ensures Inv(AfterSpawn(s, d))
  {
    SumIncrement(s.seen, PickedWord(s, d));
  }

  lemma ResetInv(s: State, d: Draws)
    requires |s.seen| > 0 && DrawsFor(|s.seen|, d)
    ensures Inv(AfterReset(s, d))
  {
    SumAllZero(ResetFields(s).seen);
    SpawnInv(ResetFields(s), d);
  }

  lemma ChoiceInv(s: State, chosen: nat)
    requires Inv(s)
    ensures Inv(AfterChoice(s, chosen))
  {
  }

  lemma MissInv(s: State)
    requires Inv(s)
    ensures Inv(AfterMiss(s))
  {
  }

  /** The endRound the timer runs, from a round whose pacing delay is over, keeps the invariant. */
  lemma EndRoundInv(s: State, rivalMoves: bool, d: Draws)
    requires Shape(s) && DrawsFor(|s.seen|, d)
    requires s.running && s.pending == NoTimer && s.ending == None && s.currentWord.Some?
    requires 1 <= s.round <= TOTAL_ROUNDS && s.rivalPos < STEPS && (rivalMoves ==> s.playerPos < STEPS)
    requires Sum(s.seen) == s.round && 0 <= s.score <= s.round
    ensures Inv(AfterEndRound(s, rivalMoves, d))
  {
    var t := if rivalMoves then s.(rivalPos := Clamp(s.rivalPos + 1, 0, STEPS)) else s;
    var u := t.(round := t.round + 1);
    if t.playerPos < STEPS && t.rivalPos < STEPS && u.round <= TOTAL_ROUNDS {
      assert AfterEndRound(s, rivalMoves, d) == AfterSpawn(u, d);
      SpawnInv(u, d);
    }
  }

  lemma TimerInv(s: State, d: Draws)
    requires Inv(s) && DrawsFor(|s.seen|, d)
    ensures Inv(AfterTimer(s, d))
  {
    if s.pending.EndRoundScheduled? {
      EndRoundInv(s.(running := true, pending := NoTimer), s.pending.rivalMoves, d);
    }
  }

  // ----- the rules, stated outright -----

  /** Outside a live round (before a reset, during the pacing delay, after the end) answers, misses and spawns do nothing. */
  lemma StoppedIgnoresInput(s: State, chosen: nat, d: Draws)
    requires DrawsFor(|s.seen|, d) && !s.running
    ensures AfterChoice(s, chosen) == s && AfterMiss(s) == s && AfterSpawn(s, d) == s
  {
  }

  /**
   * A spawned round shows the picked word once more, and never the previous word when another one was
   * drawn within the retry limit; it clears the wrong-answer flag and sets the fall speed from the word's
   * new exposure count, leaving round, score and positions as they were.
   */
  lemma SpawnShowsWord(s: State, d: Draws)
    requires Placed(s) && DrawsFor(|s.seen|, d) && s.running && s.round <= TOTAL_ROUNDS
    ensures var r := AfterSpawn(s, d);
      && r.currentWord == Some(PickedWord(s, d))
      && var w := PickedWord(s, d);
      && |r.seen| == |s.seen|
      && r.seen[w] == s.seen[w] + 1
      && (forall i :: 0 <= i < |s.seen| && i != w ==> r.seen[i] == s.seen[i])
      && Sum(r.seen) == Sum(s.seen) + 1
      && (s.currentWord.Some? && |s.seen| > 1 && w == s.currentWord.value ==>
            forall k :: 0 <= k <= MAX_RETRIES ==> d.pick[k] == w)
      && !r.wrongPenaltyUsed
      && r.fallSpeed == FallSpeed(r.seen[w])
      && (s.seen[w] == 0 ==> r.fallSpeed == BASE_FALL_SPEED)
      && r.round == s.round && r.score == s.score
      && r.playerPos == s.playerPos && r.rivalPos == s.rivalPos && r.running
  {
    SumIncrement(s.seen, PickedWord(s, d));
    if s.currentWord.Some? && |s.seen| > 1 {
      PickIndexRetries(s.currentWord, |s.seen|, d.pick);
    }
  }

  /** The three answer buttons of a spawned round include the shown word; with three or more words they are distinct. */
  lemma SpawnOffersChoices(s: State, d: Draws)
    requires Placed(s) && DrawsFor(|s.seen|, d) && s.running && s.round <= TOTAL_ROUNDS
    ensures var r := AfterSpawn(s, d);
      && var w := PickedWord(s, d);
      && |r.choices| == 3 && w in r.choices
      && (forall c :: c in r.choices ==> c < |s.seen|)
      && (|s.seen| >= 3 ==> Distinct(r.choices) && multiset(r.choices)[w] == 1)
  {
    ChoicesProperties(|s.seen|, PickedWord(s, d), d.pool, d.order);
  }

  /** Once the rounds are used up, a spawn ends the race by distance instead. */
  lemma SpawnAfterLastRound(s: State, d: Draws)
    requires DrawsFor(|s.seen|, d) && s.running && s.round > TOTAL_ROUNDS
    ensures var r := AfterSpawn(s, d);
      && !r.running
      && r.ending == Some(Ending(Distance, Decide(Distance, s.playerPos, s.rivalPos)))
      && r.seen == s.seen && r.currentWord == s.currentWord && r.round == s.round
  {
  }

  /** A correct answer scores, moves the player two steps (stopping at the finish) and schedules endRound without a rival move. */
  lemma CorrectAnswer(s: State, chosen: nat)
    requires s.running && s.currentWord == Some(chosen) && 0 <= s.playerPos
    ensures var r := AfterChoice(s, chosen);
      && r.score == s.score + 1
      && r.playerPos == (if s.playerPos + 2 <= STEPS then s.playerPos + 2 else STEPS)
      && r.rivalPos == s.rivalPos && r.round == s.round && r.ending == s.ending
      && !r.running && r.pending == EndRoundScheduled(false)
  {
  }

  /**
   * The first wrong answer of a round moves the player back a step (not below the start) and the rival
   * forward a step, ending the race at once if that brings the rival to the finish; the round goes on.
   */
  lemma WrongAnswer(s: State, chosen: nat)
    requires Placed(s) && s.running && s.ending == None && s.currentWord != Some(chosen) && !s.wrongPenaltyUsed
    ensures var r := AfterChoice(s, chosen);
      && r.wrongPenaltyUsed
      && r.playerPos == (if s.playerPos >= 1 then s.playerPos - 1 else 0)
      && r.rivalPos == (if s.rivalPos + 1 <= STEPS then s.rivalPos + 1 else STEPS)
      && r.score == s.score && r.round == s.round && r.pending == s.pending
      && (r.running <==> s.rivalPos + 1 < STEPS)
      && (r.ending == Some(Ending(RivalFinish, Rival)) <==> s.rivalPos + 1 >= STEPS)
      && (s.rivalPos + 1 < STEPS ==> r.ending == None)
  {
  }

  /** Only the first wrong answer of a round is penalised: a second one changes nothing. */
  lemma WrongAnswerOncePerRound(s: State, first: nat, second: nat)
    requires s.currentWord != Some(first) && s.currentWord != Some(second)
    ensures AfterChoice(AfterChoice(s, first), second) == AfterChoice(s, first)
  {
  }

  /** A miss neither scores nor moves anybody yet; it schedules endRound with a rival move. */
  lemma MissRules(s: State)
    requires s.running
    ensures var r := AfterMiss(s);
      && r == s.(running := false, pending := EndRoundScheduled(true))
      && r.score == s.score && r.playerPos == s.playerPos && r.rivalPos == s.rivalPos
  {
  }

  /**
   * The end of a round: the rival moves a step if the round was missed; a player at the finish wins
   * first, then a rival at the finish; otherwise the round counter advances and either the rounds are
   * used up (distance decides) or the next round is spawned.
   */
  lemma EndRoundRules(s: State, rivalMoves: bool, d: Draws)
    requires Placed(s) && DrawsFor(|s.seen|, d) && s.running
    ensures var rival := if rivalMoves then Clamp(s.rivalPos + 1, 0, STEPS) else s.rivalPos;
      var r := AfterEndRound(s, rivalMoves, d);
      && r.rivalPos == rival && r.playerPos == s.playerPos && r.score == s.score
      && (s.playerPos >= STEPS ==> !r.running && r.ending == Some(Ending(PlayerFinish, Player)) && r.round == s.round)
      && (s.playerPos < STEPS && rival >= STEPS ==>
            !r.running && r.ending == Some(Ending(RivalFinish, Rival)) && r.round == s.round)
      && (s.playerPos < STEPS && rival < STEPS && s.round + 1 > TOTAL_ROUNDS ==>
            !r.running && r.round == s.round + 1 && r.seen == s.seen &&
            r.ending == Some(Ending(Distance, Decide(Distance, s.playerPos, rival))))
      && (s.playerPos < STEPS && rival < STEPS && s.round + 1 <= TOTAL_ROUNDS ==>
            r.running && r.round == s.round + 1 && r.ending == s.ending && Sum(r.seen) == Sum(s.seen) + 1)
  {
    var t := if rivalMoves then s.(rivalPos := Clamp(s.rivalPos + 1, 0, STEPS)) else s;
    var r := AfterEndRound(s, rivalMoves, d);
    if t.playerPos >= STEPS {
      assert r == AfterEndGame(t, PlayerFinish);
    } else if t.rivalPos >= STEPS {
      assert r == AfterEndGame(t, RivalFinish);
    } else if t.round + 1 > TOTAL_ROUNDS {
      assert r == AfterEndGame(t.(round := t.round + 1), Distance);
    } else {
      assert r == AfterSpawn(t.(round := t.round + 1), d);
      SpawnShowsWord(t.(round := t.round + 1), d);
    }
  }

  /** A reset starts round 1 of a fresh race at the start line, with one word shown once and no timer pending. */
  lemma ResetRules(s: State, d: Draws)
    requires |s.seen| > 0 && DrawsFor(|s.seen|, d)
    ensures var r := AfterReset(s, d);
      && r.round == 1 && r.score == 0 && r.playerPos == 0 && r.rivalPos == 0
      && r.running && r.ending == None && r.pending == NoTimer
      && |r.seen| == |s.seen| && Sum(r.seen) == 1
      && r.currentWord.Some? && r.seen[r.currentWord.value] == 1
      && r.fallSpeed == BASE_FALL_SPEED
  {
    var z := ResetFields(s);
    SumAllZero(z.seen);
    SpawnShowsWord(z, d);
  }

  /** Resetting twice with the same draws is resetting once, for the corrected reset and for the reset as written. */
  lemma ResetIdempotent(s: State, d: Draws)
    requires DrawsFor(|s.seen|, d)
    ensures ResetFields(ResetFields(s)) == ResetFields(s)
    ensures AfterReset(AfterReset(s, d), d) == AfterReset(s, d)
    ensures AfterSpawn(ResetFieldsAsWritten(AfterSpawn(ResetFieldsAsWritten(s), d)), d)
         == AfterSpawn(ResetFieldsAsWritten(s), d)
  {
    var z := ResetFields(s);
    var a := ResetFields(AfterReset(s, d));
    assert a == z.(fallSpeed := a.fallSpeed, choices := a.choices, wrongPenaltyUsed := a.wrongPenaltyUsed);
  }

  // ----- worked races -----

  /** Answering the first word of a fresh race correctly: after the pause the player is two steps ahead in round 2. */
  lemma FirstRoundCorrect(s: State, d1: Draws, d2: Draws)
    requires |s.seen| > 0 && DrawsFor(|s.seen|, d1) && DrawsFor(|s.seen|, d2)
    ensures var r0 := AfterReset(s, d1);
      r0.currentWord.Some? &&
      var r1 := AfterTimer(AfterChoice(r0, r0.currentWord.value), d2);
      && r1.score == 1 && r1.playerPos == 2 && r1.rivalPos == 0 && r1.round == 2
      && r1.running && r1.ending == None
  {
    ResetRules(s, d1);
    var r0 := AfterReset(s, d1);
    var c := AfterChoice(r0, r0.currentWord.value);
    EndRoundRules(c.(running := true, pending := NoTimer), false, d2);
  }

  /** A correct answer two steps from the finish wins the race when the pause ends. */
  lemma CorrectAnswerAtEighteenWins(s: State, chosen: nat, d: Draws)
    requires Inv(s) && DrawsFor(|s.seen|, d)
    requires s.running && s.playerPos == STEPS - 2 && s.currentWord == Some(chosen)
    ensures AfterTimer(AfterChoice(s, chosen), d).ending == Some(Ending(PlayerFinish, Player))
  {
  }

  /** A miss in the last round, with the player at 14 and the rival at 16, ends the race by distance for the rival. */
  lemma LastRoundMissLosesOnDistance(s: State, d: Draws)
    requires DrawsFor(|s.seen|, d)
    requires s.running && s.round == TOTAL_ROUNDS && s.playerPos == 14 && s.rivalPos == 16
    ensures AfterTimer(AfterMiss(s), d).ending == Some(Ending(Distance, Rival))
    ensures AfterTimer(AfterMiss(s), d).rivalPos == 17
  {
  }

  // ----- the pending timer across a reset -----

  /**
   * resetGame as written keeps the endRound timer of the previous race: if the mode is toggled during
   * the pacing delay after a correct answer, the old timer fires into the new race, skipping its first
   * round (round 2 with one word shown); after a miss it also moves the new race's rival a step.
   */
  lemma StaleTimerAsWritten(s: State, d1: Draws, d2: Draws)
    requires |s.seen| > 0 && DrawsFor(|s.seen|, d1) && DrawsFor(|s.seen|, d2)
    requires s.pending == EndRoundScheduled(true)
    ensures var r0 := AfterSpawn(ResetFieldsAsWritten(s), d1);
      && r0.round == 1 && r0.rivalPos == 0 && r0.pending == EndRoundScheduled(true)
      && var r1 := AfterTimer(r0, d2);
      && r1.round == 2 && r1.rivalPos == 1 && r1.running && Sum(r1.seen) == 2
  {
    var z := ResetFieldsAsWritten(s);
    SumAllZero(z.seen);
    SpawnShowsWord(z, d1);
    var r0 := AfterSpawn(z, d1);
    EndRoundRules(r0.(running := true, pending := NoTimer), true, d2);
  }

  /** With the corrected reset nothing is pending in the new race, so the timer does nothing. */
  lemma ResetCancelsTimer(s: State, d1: Draws, d2: Draws)
    requires |s.seen| > 0 && DrawsFor(|s.seen|, d1) && DrawsFor(|s.seen|, d2)
    ensures AfterReset(s, d1).pending == NoTimer
    ensures AfterTimer(AfterReset(s, d1), d2) == AfterReset(s, d1)
  {
    ResetRules(s, d1);
  }

  /** `WORDS.forEach(w => (w.seen = 0))`: every exposure counter back to zero. */
  method ZeroCounters(counters: seq<nat>) returns (r: seq<nat>)
    ensures |r| == |counters| && forall k :: 0 <= k < |r| ==> r[k] == 0
  {
    r := counters;
    var i := 0;
    while i < |r|
      invariant 0 <= i <= |r| == |counters|
      invariant forall k :: 0 <= k < i ==> r[k] == 0
    {
      r := r[i := 0];
      i := i + 1;
    }
  }

  // ----- the game variables, updated in place -----

  /** The module-level variables of script.js; `words` is the word list, `seen[i]` the counter of `words[i]`. */
  class Game {
    const words: seq<Word>
    var round: int
    var score: int
    var playerPos: int
    var rivalPos: int
    var currentWord: Option<nat>
    var seen: seq<nat>
    var fallSpeed: int
    var running: bool
    var wrongPenaltyUsed: bool
    var choices: seq<nat>
    var pending: Pending
    var ending: Option<Ending>

    /** The current values of the variables. */
    ghost function Snap(): State
      reads this
    {
      State(round, score, playerPos, rivalPos, currentWord, seen, fallSpeed, running,
            wrongPenaltyUsed, choices, pending, ending)
    }

    ghost predicate Valid()
      reads this
    {
      |seen| == |words| && Inv(Snap())
    }

    /** The variables as the script initialises them on load, before the first race. */
    constructor (words: seq<Word>)
      requires 0 < |words|
      ensures this.words == words
      ensures Valid() && Snap() == Initial(|words|)
    {
      this.words := words;
      round, score, playerPos, rivalPos := 1, 0, 0, 0;
      currentWord := None;
      seen := seq(|words|, _ => 0);
      fallSpeed := BASE_FALL_SPEED;
      running, wrongPenaltyUsed := false, false;
      choices := [];
      pending := NoTimer;
      ending := None;
      new;
      InitialInv(|words|);
    }

    /** `resetGame()`: a fresh race from any state, its first round spawned. */
    method ResetGame(d: Draws)
      requires |seen| == |words| && DrawsFor(|words|, d)
      modifies this
      ensures Valid()
      ensures Snap() == AfterReset(old(Snap()), d)
    {
      ResetInv(Snap(), d);
      round := 1;
      score := 0;
      playerPos := 0;
      rivalPos := 0;
      currentWord := None;
      seen := ZeroCounters(seen);
      ending := None;
      running := true;
      pending := NoTimer;
      ghost var cleared := ResetFields(old(Snap()));
      assert seen == cleared.seen;
      assert Snap() == cleared;
      SpawnRound(d);
    }

    /** `spawnRound()`. */
    method SpawnRound(d: Draws)
      requires |seen| == |words| && DrawsFor(|words|, d)
      modifies this
      ensures |seen| == |words|
      ensures Snap() == AfterSpawn(old(Snap()), d)
    {
      if !running {
        return;
      }
      if round > TOTAL_ROUNDS {
        EndGame(Distance);
        return;
      }
      StartNextRound(d);
    }

    /** The part of `spawnRound` past its two guards: pick the word, count it, set the speed, build the buttons. */
    method StartNextRound(d: Draws)
      requires |seen| == |words| && DrawsFor(|words|, d)
      modifies this
      ensures |seen| == |words|
      ensures Snap() == StartRound(old(Snap()), PickedWord(old(Snap()), d), d)
    {
      ghost var before := Snap();
      var n := |seen|;
      wrongPenaltyUsed := false;
      var w, _ := PickNextWord(currentWord, n, d.pick);
      assert w == PickedWord(before, d);
      currentWord := Some(w);
      seen := seen[w := seen[w] + 1];
      fallSpeed := FallSpeed(seen[w]);
      choices := BuildChoices3(n, w, d.pool, d.order);
      assert Snap() == StartRound(before, w, d);
    }

    /** `handleChoice(chosenWord)`: the answer button for word `chosen` was pressed. */
    method HandleChoice(chosen: nat)
      requires Valid()
      modifies this
      ensures Valid()
      ensures Snap() == AfterChoice(old(Snap()), chosen)
    {
      ChoiceInv(Snap(), chosen);
      if !running {
        return;
      }
      if currentWord == Some(chosen) {
        score := score + 1;
        playerPos := Clamp(playerPos + 2, 0, STEPS);
        running := false;
        pending := EndRoundScheduled(false);
        return;
      }
      if !wrongPenaltyUsed {
        wrongPenaltyUsed := true;
        playerPos := Clamp(playerPos - 1, 0, STEPS);
        rivalPos := Clamp(rivalPos + 1, 0, STEPS);
        if rivalPos >= STEPS {
          EndGame(RivalFinish);
        }
      }
    }

    /** `miss()`: the falling word reached the impact line. */
    method Miss()
      requires Valid()
      modifies this
      ensures Valid()
      ensures Snap() == AfterMiss(old(Snap()))
    {
      MissInv(Snap());
      if !running {
        return;
      }
      running := false;
      pending := EndRoundScheduled(true);
    }

    /** The pacing-delay callback: `running = true; endRound({ rivalMoves })`, if a delay is pending. */
    method FireTimer(d: Draws)
      requires Valid() && DrawsFor(|words|, d)
      modifies this
      ensures Valid()
      ensures Snap() == AfterTimer(old(Snap()), d)
    {
      TimerInv(Snap(), d);
      match pending
      case NoTimer =>
      case EndRoundScheduled(rivalMoves) =>
        running := true;
        pending := NoTimer;
        EndRound(rivalMoves, d);
    }

    /** `endRound({ rivalMoves })`. */
    method EndRound(rivalMoves: bool, d: Draws)
      requires |seen| == |words| && DrawsFor(|words|, d)
      modifies this
      ensures |seen| == |words|
      ensures Snap() == AfterEndRound(old(Snap()), rivalMoves, d)
    {
      if rivalMoves {
        rivalPos := Clamp(rivalPos + 1, 0, STEPS);
      }
      if playerPos >= STEPS {
        EndGame(PlayerFinish);
        return;
      }
      if rivalPos >= STEPS {
        EndGame(RivalFinish);
        return;
      }
      round := round + 1;
      if round > TOTAL_ROUNDS {
        EndGame(Distance);
        return;
      }
      SpawnRound(d);
    }

    /** `endGame(reason)`, reached through declareWinnerByFinish / declareWinnerByDistance. */
    method EndGame(reason: Reason)
      modifies this
      ensures Snap() == AfterEndGame(old(Snap()), reason)
    {
      running := false;
      ending := Some(Ending(reason, Decide(reason, playerPos, rivalPos)));
    }
  }
}

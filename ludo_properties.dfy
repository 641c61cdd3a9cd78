/** Properties of the Ludo rules: the position advance across the three
    domains, the single capture by landing, the effect and reward of one turn,
    the legality mask and the game-over test. */
module LudoProperties {
  import opened LudoRules

  // ---------------------------------------------------------------------------
  // Position advance

  /** The loop cell just before a player's start square, taken round the loop. */
  function EntryWindowStart(player: PlayerIndex): int {
    (StartPositions[player] + LoopLength - 1) % LoopLength
  }

  /** Each row of the entry table is the six consecutive values that begin on
      the cell before the player's start square. For Red that cell is 51, so
      five of its six values are not loop cells at all. */
  lemma HomeStretchesAreWindows(player: PlayerIndex, c: int)
    ensures |HomeStretches[player]| == 6 && HomeStretches[player][0] == EntryWindowStart(player)
    ensures c in HomeStretches[player] <==> EntryWindowStart(player) <= c < EntryWindowStart(player) + 6
  {
    var w := HomeStretches[player];
    assert forall i :: 0 <= i < |w| ==> w[i] == w[0] + i;
  }

  /** On the loop the token wraps modulo 52; landing in its own entry window
      takes it to the matching home-stretch cell, 52 for the window's first cell. */
  lemma AdvanceOnLoop(player: PlayerIndex, pos: int, steps: int)
    requires pos < LoopLength
    ensures var c := (pos + steps) % LoopLength;
      var w := EntryWindowStart(player);
      0 <= c < LoopLength &&
      CalculateNewPosition(player, pos, steps) == (if w <= c < w + 6 then LoopLength + (c - w) else c)
  {
    HomeStretchesAreWindows(player, (pos + steps) % LoopLength);
  }

  /** Inside the home stretch a token moves forward and stops at the final square. */
  lemma AdvanceInHomeStretch(player: PlayerIndex, pos: int, steps: int)
    requires LoopLength <= pos < HomeStretchEnd
    ensures var r := CalculateNewPosition(player, pos, steps);
      r <= FinalSquare &&
      (pos + steps <= FinalSquare ==> r == pos + steps) &&
      (pos + steps >= FinalSquare ==> r == FinalSquare)
  {
  }

  /** Values 57 and above never change: 58 is final, and 57 is stuck below it. */
  lemma AdvanceFixedPoints(player: PlayerIndex, pos: int, steps: int)
    requires pos >= HomeStretchEnd
    ensures CalculateNewPosition(player, pos, steps) == pos
  {
  }

  /** With a die roll, a token in play stays on the board, and it moves unless it is at 57 or 58. */
  lemma AdvanceStaysOnBoard(player: PlayerIndex, pos: int, steps: int)
    requires StartSquare <= pos <= FinalSquare && 1 <= steps <= 6
    ensures var r := CalculateNewPosition(player, pos, steps);
      StartSquare <= r <= FinalSquare && (r == pos <==> pos >= HomeStretchEnd)
  {
    if pos < LoopLength {
      AdvanceOnLoop(player, pos, steps);
      var c := (pos + steps) % LoopLength;
      assert c == pos + steps || c == pos + steps - LoopLength;
    }
  }

  /** Red's window meets the loop only in cell 51: a Red token on the loop
      leaves it only by landing exactly there, and then goes to 52. */
  lemma RedEntersHomeOnlyFromFiftyOne(pos: int, steps: int)
    requires 0 <= pos < LoopLength
    ensures var r := CalculateNewPosition(0, pos, steps);
      (r >= LoopLength <==> (pos + steps) % LoopLength == 51) &&
      (r >= LoopLength ==> r == LoopLength)
  {
    AdvanceOnLoop(0, pos, steps);
  }

  /** Red at 49 with a 4 wraps to cell 1; 53 mod 52 is outside Red's window. */
  lemma RedWrapsFromFortyNine()
    ensures CalculateNewPosition(0, 49, 4) == 1
  {
    AdvanceOnLoop(0, 49, 4);
  }

  /** Green on its own start square 13 with a 1 lands on 14, inside its window, and goes to 54. */
  lemma GreenEntersFromItsStart()
    ensures CalculateNewPosition(1, 13, 1) == 54
  {
    AdvanceOnLoop(1, 13, 1);
  }

  /** From 55 a roll of 3 reaches 58 exactly; a larger roll clamps there. */
  lemma HomeStretchReachesFinal(player: PlayerIndex, steps: int)
    requires 3 <= steps
    ensures CalculateNewPosition(player, 55, steps) == FinalSquare
  {
    AdvanceInHomeStretch(player, 55, steps);
  }

  // ---------------------------------------------------------------------------
  // Capture

  /** s is a token of an opponent of `mover` at `position`, and no opponent token
      before it, player by player and token by token, is there. */
  predicate IsFirstOpponentAt(b: Board, mover: PlayerIndex, position: int, s: Slot)
    requires IsBoard(b)
  {
    s.player != mover && b[s.player][s.token] == position &&
    forall q, u :: 0 <= q < NumPlayers && 0 <= u < NumTokens && q != mover && ScannedBefore(q, u, s)
      ==> b[q][u] != position
  }

  /** No opponent of `mover` has a token whose raw value is `position`. */
  predicate NoOpponentAt(b: Board, mover: PlayerIndex, position: int)
    requires IsBoard(b)
  {
    forall q, u :: 0 <= q < NumPlayers && 0 <= u < NumTokens && q != mover ==> b[q][u] != position
  }

  /** The captured token is exactly the first opponent token at the landing value,
      provided the landing is not a start square. Home-stretch values count too. */
  lemma CaptureIsFirstOpponent(b: Board, mover: PlayerIndex, position: int, s: Slot)
    requires IsBoard(b)
    ensures CaptureTarget(b, mover, position) == Some(s) <==>
      position !in StartPositions && IsFirstOpponentAt(b, mover, position, s)
  {
    FirstOpponentFromSpec(b, mover, position, 0);
    if position !in StartPositions && IsFirstOpponentAt(b, mover, position, s) {
      var r := FirstOpponentFrom(b, mover, position, 0);
      assert r.Some?;
      var s' := r.value;
      assert s' == s || ScannedBefore(s'.player, s'.token, s) || ScannedBefore(s.player, s.token, s');
    }
  }

  /** Nothing is captured exactly when the landing is a start square or no opponent is there. */
  lemma NoCaptureCases(b: Board, mover: PlayerIndex, position: int)
    requires IsBoard(b)
    ensures CaptureTarget(b, mover, position) == None <==>
      position in StartPositions || NoOpponentAt(b, mover, position)
  {
    FirstOpponentFromSpec(b, mover, position, 0);
    if position !in StartPositions && CaptureTarget(b, mover, position).Some? {
      var s := CaptureTarget(b, mover, position).value;
      assert b[s.player][s.token] == position;
    }
  }

  /** A token never captures on a start square, whoever is there. */
  lemma StartSquaresAreSafe(b: Board, mover: PlayerIndex, player: PlayerIndex)
    requires IsBoard(b)
    ensures CaptureTarget(b, mover, StartPositions[player]) == None
  {
  }

  // ---------------------------------------------------------------------------
  // One turn

  /** Action 0 with a 6 moves the lowest-index bench token to the start square and nothing else. */
  lemma EnterMovesFirstBenchToken(b: Board, player: PlayerIndex, t: TokenIndex)
    requires IsBoard(b)
    requires b[player][t] == OutOfBounds
    requires forall u :: 0 <= u < t ==> b[player][u] != OutOfBounds
    ensures Turn(b, player, 0, 6) == TurnResult(SetToken(b, player, t, StartPositions[player]), 0, None)
  {
    var f := FirstIndexFrom(b[player], OutOfBounds, 0);
    assert f.Some?;
    assert f.value == t;
  }

  /** Action 0 without a 6, or with no token on the bench, is a pass. */
  lemma EnterWithoutEffect(b: Board, player: PlayerIndex, roll: int)
    requires IsBoard(b)
    requires roll != 6 || forall u :: 0 <= u < NumTokens ==> b[player][u] != OutOfBounds
    ensures Turn(b, player, 0, roll) == TurnResult(b, 0, None)
  {
  }

  /** An action outside 0..4, or a move of a bench token, leaves the board as it is. */
  lemma IdleActionsChangeNothing(b: Board, player: PlayerIndex, action: int, roll: int)
    requires IsBoard(b)
    requires action < 0 || action > 4 || (1 <= action <= 4 && b[player][action - 1] == OutOfBounds)
    ensures Turn(b, player, action, roll) == TurnResult(b, 0, None)
  {
  }

  /** A real move writes the advanced position into the mover's token, sends
      back at most the first opponent token at that value (never on a start
      square, never one of the mover's own), changes nothing else, and pays
      1 for the capture plus 2 for reaching 58. */
  lemma MoveOutcome(b: Board, player: PlayerIndex, token: TokenIndex, roll: int)
    requires IsBoard(b) && b[player][token] != OutOfBounds
    ensures var r := Turn(b, player, token + 1, roll);
      var newPos := CalculateNewPosition(player, b[player][token], roll);
      r.board[player][token] == newPos &&
      (r.captured.None? ==> newPos in StartPositions || NoOpponentAt(b, player, newPos)) &&
      (r.captured.Some? ==>
        newPos !in StartPositions && IsFirstOpponentAt(b, player, newPos, r.captured.value) &&
        r.board[r.captured.value.player][r.captured.value.token] == OutOfBounds) &&
      (forall q, u ::
        (0 <= q < NumPlayers && 0 <= u < NumTokens && !(q == player && u == token) &&
         r.captured != Some(Slot(q, u))) ==> r.board[q][u] == b[q][u]) &&
      r.reward == (if r.captured.Some? then 1 else 0) + (if newPos == FinalSquare then 2 else 0)
  {
    var newPos := CalculateNewPosition(player, b[player][token], roll);
    var moved := SetToken(b, player, token, newPos);
    var c := CaptureTarget(moved, player, newPos);
    NoCaptureCases(moved, player, newPos);
    if c.Some? {
      CaptureIsFirstOpponent(moved, player, newPos, c.value);
      assert IsFirstOpponentAt(b, player, newPos, c.value);
    }
  }

  /** A turn pays between 0 and 3, and only a real move pays anything. */
  lemma TurnRewardBounds(b: Board, player: PlayerIndex, action: int, roll: int)
    requires IsBoard(b)
    ensures var r := Turn(b, player, action, roll);
      0 <= r.reward <= 3 &&
      (r.reward != 0 ==> 1 <= action <= 4 && b[player][action - 1] != OutOfBounds)
  {
  }

  /** Every token value stays in the bench, loop or home-stretch domain. */
  lemma TurnPreservesValidBoard(b: Board, player: PlayerIndex, action: int, roll: int)
    requires ValidBoard(b) && 1 <= roll <= 6
    ensures ValidBoard(Turn(b, player, action, roll).board)
  {
    if !(action == 0 && roll == 6) && 1 <= action <= 4 && b[player][action - 1] != OutOfBounds {
      AdvanceStaysOnBoard(player, b[player][action - 1], roll);
    }
  }

  /** Moving a token that has already finished leaves it at 58 and pays the 2 again. */
  lemma FinishedTokenPaysAgain(b: Board, player: PlayerIndex, token: TokenIndex, roll: int)
    requires IsBoard(b) && b[player][token] == FinalSquare
    ensures var r := Turn(b, player, token + 1, roll);
      r.board[player][token] == FinalSquare && 2 <= r.reward <= 3
  {
    MoveOutcome(b, player, token, roll);
  }

  /** A token at 57 is marked movable for a roll of 1, yet no move ever takes it further. */
  lemma TokenAtFiftySevenIsStuck(b: Board, player: PlayerIndex, token: TokenIndex, roll: int)
    requires IsBoard(b) && b[player][token] == HomeStretchEnd
    ensures Mask(b, player, 1)[token + 1] == 1
    ensures var r := Turn(b, player, token + 1, roll);
      r.board[player][token] == HomeStretchEnd && r.reward <= 1
  {
    MoveOutcome(b, player, token, roll);
  }

  /** A landing compares raw values, so an opponent's home-stretch token is
      captured too: Green moves from 52 to 55 and sends Blue's token at 55 back. */
  lemma CaptureInsideHomeStretch()
    ensures var b := [[-1, -1, -1, -1], [52, -1, -1, -1], [55, -1, -1, -1], [-1, -1, -1, -1]];
      var r := Turn(b, 1, 1, 3);
      r.captured == Some(Slot(2, 0)) && r.reward == 1 &&
      r.board == [[-1, -1, -1, -1], [55, -1, -1, -1], [-1, -1, -1, -1], [-1, -1, -1, -1]]
  {
    var b := [[-1, -1, -1, -1], [52, -1, -1, -1], [55, -1, -1, -1], [-1, -1, -1, -1]];
    AdvanceInHomeStretch(1, 52, 3);
    var moved := SetToken(b, 1, 0, 55);
    CaptureIsFirstOpponent(moved, 1, 55, Slot(2, 0));
    BoardExtensionality(Turn(b, 1, 1, 3).board,
      [[-1, -1, -1, -1], [55, -1, -1, -1], [-1, -1, -1, -1], [-1, -1, -1, -1]]);
  }

  /** Only one token is captured per landing: Red lands on 20, where Green has
      two tokens and Blue one; only Green's token 0 goes back to the bench. */
  lemma OneCapturePerLanding()
    ensures var b := [[17, -1, -1, -1], [20, 20, -1, -1], [20, -1, -1, -1], [-1, -1, -1, -1]];
      var r := Turn(b, 0, 1, 3);
      r.captured == Some(Slot(1, 0)) && r.reward == 1 &&
      r.board == [[20, -1, -1, -1], [-1, 20, -1, -1], [20, -1, -1, -1], [-1, -1, -1, -1]]
  {
    var b := [[17, -1, -1, -1], [20, 20, -1, -1], [20, -1, -1, -1], [-1, -1, -1, -1]];
    AdvanceOnLoop(0, 17, 3);
    var moved := SetToken(b, 0, 0, 20);
    CaptureIsFirstOpponent(moved, 0, 20, Slot(1, 0));
    BoardExtensionality(Turn(b, 0, 1, 3).board,
      [[20, -1, -1, -1], [-1, 20, -1, -1], [20, -1, -1, -1], [-1, -1, -1, -1]]);
  }

  /** Capture and finish add up: Green reaches 58 where Blue's finished token
      stands, captures it and is paid 3. */
  lemma CaptureAndFinishPayThree()
    ensures var b := [[-1, -1, -1, -1], [55, -1, -1, -1], [58, -1, -1, -1], [-1, -1, -1, -1]];
      var r := Turn(b, 1, 1, 3);
      r.captured == Some(Slot(2, 0)) && r.reward == 3
  {
    var b := [[-1, -1, -1, -1], [55, -1, -1, -1], [58, -1, -1, -1], [-1, -1, -1, -1]];
    AdvanceInHomeStretch(1, 55, 3);
    var moved := SetToken(b, 1, 0, 58);
    CaptureIsFirstOpponent(moved, 1, 58, Slot(2, 0));
  }

  // ---------------------------------------------------------------------------
  // Legality mask

  /** The mask has five 0/1 entries: entry 0 is set iff the roll is 6 and a token
      is on the bench, entry k + 1 iff token k is in play and at most 58 - roll. */
  lemma MaskEntries(b: Board, player: PlayerIndex, roll: int)
    requires IsBoard(b)
    ensures var m := Mask(b, player, roll);
      |m| == NumActions &&
      (forall a :: 0 <= a < NumActions ==> m[a] == 0 || m[a] == 1) &&
      (m[0] == 1 <==> roll == 6 && exists t :: 0 <= t < NumTokens && b[player][t] == OutOfBounds) &&
      (forall k :: 0 <= k < NumTokens ==> (m[k + 1] == 1 <==> StartSquare <= b[player][k] <= FinalSquare - roll))
  {
    var m := Mask(b, player, roll);
    if m[0] == 1 {
      var t :| 0 <= t < |b[player]| && b[player][t] == OutOfBounds;
    }
  }

  /** Bench tokens are never movable, and neither is a finished token for any positive roll. */
  lemma MaskExcludesBenchAndFinished(b: Board, player: PlayerIndex, token: TokenIndex, roll: int)
    requires IsBoard(b)
    requires b[player][token] == OutOfBounds || (b[player][token] == FinalSquare && roll >= 1)
    ensures Mask(b, player, roll)[token + 1] == 0
  {
  }

  /** A move the mask allows never needs the clamp at 58. */
  lemma AllowedMoveNeverClamps(b: Board, player: PlayerIndex, token: TokenIndex, roll: int)
    requires IsBoard(b) && 1 <= roll <= 6
    requires Mask(b, player, roll)[token + 1] == 1
    requires LoopLength <= b[player][token] < HomeStretchEnd
    ensures CalculateNewPosition(player, b[player][token], roll) == b[player][token] + roll
  {
    AdvanceInHomeStretch(player, b[player][token], roll);
  }

  /** The turn does not consult the mask: a masked move from 56 with a 6 still finishes the token. */
  lemma MaskIsAdvisory(b: Board, player: PlayerIndex, token: TokenIndex)
    requires IsBoard(b) && b[player][token] == 56
    ensures Mask(b, player, 6)[token + 1] == 0
    ensures Turn(b, player, token + 1, 6).board[player][token] == FinalSquare
  {
    MoveOutcome(b, player, token, 6);
  }

  // ---------------------------------------------------------------------------
  // Reset and game over

  /** After reset no player has finished, no token may move and only a 6 lets a token enter. */
  lemma InitialBoardState(player: PlayerIndex, roll: int)
    ensures !GameOver(InitialBoard())
    ensures Mask(InitialBoard(), player, roll) == [if roll == 6 then 1 else 0, 0, 0, 0, 0]
  {
    var b := InitialBoard();
    forall p | 0 <= p < NumPlayers ensures !AllFinished(b[p]) {
      assert b[p][0] == OutOfBounds;
    }
    assert b[player][0] == OutOfBounds;
  }

  /** From reset, Red's first 6 with action 0 puts Red's token 0 on cell 0. */
  lemma FirstEntryFromReset()
    ensures var r := Turn(InitialBoard(), 0, 0, 6);
      r.reward == 0 &&
      r.board == [[0, -1, -1, -1], [-1, -1, -1, -1], [-1, -1, -1, -1], [-1, -1, -1, -1]]
  {
    var b := InitialBoard();
    EnterMovesFirstBenchToken(b, 0, 0);
    BoardExtensionality(Turn(b, 0, 0, 6).board,
      [[0, -1, -1, -1], [-1, -1, -1, -1], [-1, -1, -1, -1], [-1, -1, -1, -1]]);
  }

  /** A token whose value a turn changes is the entering token, now on the
      start square, or the moved token, or a captured token, now on the bench. */
  lemma TurnChangedCell(b: Board, player: PlayerIndex, action: int, roll: int, q: PlayerIndex, u: TokenIndex)
    requires IsBoard(b)
    ensures var r := Turn(b, player, action, roll);
      r.board[q][u] != b[q][u] ==>
        r.board[q][u] == OutOfBounds ||
        (action == 0 && roll == 6 && q == player && r.board[q][u] == StartPositions[player]) ||
        (1 <= action <= 4 && q == player && u == action - 1 &&
         r.board[q][u] == CalculateNewPosition(player, b[player][u], roll))
  {
  }

  /** A turn that ends the game is a move by the player to move that puts one of
      its tokens on 58 and leaves all four of its tokens there. */
  lemma OnlyTheMoverEndsTheGame(b: Board, player: PlayerIndex, action: int, roll: int)
    requires IsBoard(b) && !GameOver(b)
    requires GameOver(Turn(b, player, action, roll).board)
    ensures var r := Turn(b, player, action, roll);
      1 <= action <= 4 && r.board[player][action - 1] == FinalSquare &&
      AllFinished(r.board[player]) && r.reward >= 2
  {
    var r := Turn(b, player, action, roll);
    var q :| 0 <= q < |r.board| && AllFinished(r.board[q]);
    assert !AllFinished(b[q]);
    var u :| 0 <= u < NumTokens && b[q][u] != FinalSquare;
    assert r.board[q][u] == FinalSquare;
    TurnChangedCell(b, player, action, roll, q, u);
    if 1 <= action <= 4 && b[player][action - 1] != OutOfBounds {
      MoveOutcome(b, player, action - 1, roll);
    }
  }

  // ---------------------------------------------------------------------------
  // Whole steps

  /** A step with a die roll keeps the state invariant. */
  lemma StepPreservesValidity(e: Env, action: int, roll: int)
    requires ValidEnv(e) && 1 <= roll <= 6
    ensures ValidEnv(StepEnv(e, action, roll))
  {
    if !e.dones[e.turn] {
      TurnPreservesValidBoard(e.board, e.turn, action, roll);
    }
  }

  /** A step for a player already marked done leaves the whole state as it was. */
  lemma DoneStepChangesNothing(e: Env, action: int, roll: int)
    requires WellShaped(e) && e.dones[e.turn]
    ensures StepEnv(e, action, roll) == e
  {
  }

  /** What one step of a player that is not done does: the board moves as Turn
      says, the roll is kept, only the mover's reward entries change, and then
      the game ends (done flags set, turn unchanged) or the next player moves. */
  lemma StepOutcome(e: Env, action: int, roll: int)
    requires WellShaped(e) && !e.dones[e.turn]
    ensures var s, r := StepEnv(e, action, roll), Turn(e.board, e.turn, action, roll);
      && s.board == r.board && s.diceRoll == roll
      && |s.rewards| == |s.cumulativeRewards| == |s.dones| == NumPlayers
      && s.rewards[e.turn] == r.reward
      && s.cumulativeRewards[e.turn] == e.cumulativeRewards[e.turn] + r.reward
      && (forall q :: 0 <= q < NumPlayers && q != e.turn ==>
            s.rewards[q] == e.rewards[q] && s.cumulativeRewards[q] == e.cumulativeRewards[q])
      && (GameOver(r.board) ==> s.turn == e.turn && forall q :: 0 <= q < NumPlayers ==> s.dones[q])
      && (!GameOver(r.board) ==> s.turn == NextPlayer(e.turn) && s.dones == e.dones)
  {
  }

  /** Once a step ends the game, every later step changes nothing. */
  lemma GameOverIsFinal(e: Env, action: int, roll: int, action2: int, roll2: int)
    requires WellShaped(e) && !e.dones[e.turn]
    requires GameOver(Turn(e.board, e.turn, action, roll).board)
    ensures var s := StepEnv(e, action, roll); StepEnv(s, action2, roll2) == s
  {
    var s := StepEnv(e, action, roll);
    assert s.dones == [true, true, true, true];
  }

  /** Running totals never go down, and a step adds at most 3 to one of them. */
  lemma CumulativeRewardsGrow(e: Env, action: int, roll: int, q: PlayerIndex)
    requires ValidEnv(e) && 1 <= roll <= 6
    ensures var s := StepEnv(e, action, roll);
      e.cumulativeRewards[q] <= s.cumulativeRewards[q] <= e.cumulativeRewards[q] + 3
  {
    if !e.dones[e.turn] {
      TurnRewardBounds(e.board, e.turn, action, roll);
    }
  }

  /** Steps in order, each with its action and roll. */
  function Run(e: Env, moves: seq<(int, int)>): Env
    requires ValidEnv(e)
    requires forall i :: 0 <= i < |moves| ==> 1 <= moves[i].1 <= 6
    decreases |moves|
  {
    if moves == [] then e
    else
      StepPreservesValidity(e, moves[0].0, moves[0].1);
      Run(StepEnv(e, moves[0].0, moves[0].1), moves[1..])
  }

  /** Any run from a valid state, with die rolls, ends in a valid state whose
      running totals are at least the starting ones. */
  lemma {:induction false} RunPreservesValidity(e: Env, moves: seq<(int, int)>)
    requires ValidEnv(e)
    requires forall i :: 0 <= i < |moves| ==> 1 <= moves[i].1 <= 6
    ensures ValidEnv(Run(e, moves))
    ensures forall q :: 0 <= q < NumPlayers ==> e.cumulativeRewards[q] <= Run(e, moves).cumulativeRewards[q]
    decreases |moves|
  {
    if moves != [] {
      var s := StepEnv(e, moves[0].0, moves[0].1);
      StepPreservesValidity(e, moves[0].0, moves[0].1);
      forall q: PlayerIndex {
        CumulativeRewardsGrow(e, moves[0].0, moves[0].1, q);
      }
      RunPreservesValidity(s, moves[1..]);
    }
  }

  /** The state after reset is valid, no player is done and Red is to move. */
  lemma InitialEnvIsValid()
    ensures ValidEnv(InitialEnv()) && InitialEnv().turn == 0
    ensures forall q :: 0 <= q < NumPlayers ==> !InitialEnv().dones[q]
  {
  }
}

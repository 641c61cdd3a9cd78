/** The Ludo environment object: a 4 x 4 board array that the engine updates in
    place, the player to move, the last roll, per-player rewards and done flags.
    Each method is proved against the definitions in LudoRules. */
module LudoEnvironment {
  import opened LudoRules
  import LudoProperties

  class LudoEnv {
    /** state[p, t] is the value of token t of player p. */
    var state: array2<int>
    /** The player to move (the agent selection), in turn order. */
    var turn: PlayerIndex
    /** The last roll; 0 until the first turn. */
    var diceRoll: int
    /** Per player: the reward of its last turn, the running total, the done flag. */
    var rewards: seq<int>
    var cumulativeRewards: seq<int>
    var dones: seq<bool>

    /** The array has the board's shape and the state is valid. */
    ghost predicate Valid()
      reads this, state
    {
      state.Length0 == NumPlayers && state.Length1 == NumTokens && ValidEnv(Model())
    }

    /** The row of player p as a sequence. */
    function Row(p: PlayerIndex): (row: seq<int>)
      reads this`state, state
      requires state.Length0 == NumPlayers && state.Length1 == NumTokens
      ensures |row| == NumTokens && forall t :: 0 <= t < NumTokens ==> row[t] == state[p, t]
    {
      [state[p, 0], state[p, 1], state[p, 2], state[p, 3]]
    }

    /** The board array as a value. */
    function Snapshot(): (b: Board)
      reads this`state, state
      requires state.Length0 == NumPlayers && state.Length1 == NumTokens
      ensures IsBoard(b)
      ensures forall p, t :: 0 <= p < NumPlayers && 0 <= t < NumTokens ==> b[p][t] == state[p, t]
    {
      [Row(0), Row(1), Row(2), Row(3)]
    }

    /** The environment as a value. */
    function Model(): (e: Env)
      reads this, state
      requires state.Length0 == NumPlayers && state.Length1 == NumTokens
      ensures e.board == Snapshot() && e.turn == turn && e.diceRoll == diceRoll
      ensures e.rewards == rewards && e.cumulativeRewards == cumulativeRewards && e.dones == dones
    {
      Env(Snapshot(), turn, diceRoll, rewards, cumulativeRewards, dones)
    }

    /** A new environment is in the state that reset leaves. */
    constructor ()
      ensures Valid() && fresh(state)
      ensures Model() == InitialEnv()
    {
      state := new int[NumPlayers, NumTokens]((p, t) => OutOfBounds);
      turn := 0;
      diceRoll := 0;
      rewards := [0, 0, 0, 0];
      cumulativeRewards := [0, 0, 0, 0];
      dones := [false, false, false, false];
      new;
      BoardExtensionality(Snapshot(), InitialBoard());
    }

    /** Every token back on the bench, Red to move, no roll, no rewards, no player done. */
    method Reset()
      modifies this
      ensures Valid() && fresh(state)
      ensures Model() == InitialEnv()
    {
      state := new int[NumPlayers, NumTokens]((p, t) => OutOfBounds);
      turn := 0;
      diceRoll := 0;
      cumulativeRewards := [0, 0, 0, 0];
      rewards := [0, 0, 0, 0];
      dones := [false, false, false, false];
      BoardExtensionality(Snapshot(), InitialBoard());
    }

    /** Whether some player has every token on the final square. */
    function CheckGameOver(): (over: bool)
      reads this`state, state
      requires state.Length0 == NumPlayers && state.Length1 == NumTokens
      ensures over <==> GameOver(Snapshot())
    {
      exists p :: 0 <= p < NumPlayers && AllFinished(Row(p))
    }

    /** The legality mask of `agent` for the stored roll; it changes nothing. */
    method MaskActions(agent: PlayerIndex) returns (mask: seq<int>)
      requires state.Length0 == NumPlayers && state.Length1 == NumTokens
      ensures mask == Mask(Snapshot(), agent, diceRoll)
    {
      ghost var row := Row(agent);
      var m := new int[NumActions](_ => 0);
      var anyOnBench := exists t :: 0 <= t < NumTokens && state[agent, t] == OutOfBounds;
      assert anyOnBench <==> OutOfBounds in row;
      if anyOnBench && diceRoll == 6 {
        m[0] := 1;
      }
      for token := 0 to NumTokens
        invariant m[0] == EnterBit(row, diceRoll)
        invariant forall j :: 1 <= j <= token ==> m[j] == MoveBit(row[j - 1], diceRoll)
        invariant forall j :: token < j < NumActions ==> m[j] == 0
      {
        if StartSquare <= state[agent, token] <= FinalSquare - diceRoll {
          m[token + 1] := 1;
        }
      }
      mask := m[..];
      ghost var expected := Mask(Snapshot(), agent, diceRoll);
      assert Snapshot()[agent] == row;
      assert |mask| == |expected| == NumActions;
      assert forall j :: 0 <= j < NumActions ==> mask[j] == expected[j];
    }

    /** Sends back the first opponent token of the player to move whose value is
        `position`, unless `position` is a start square, and reports which. */
    method CheckCapture(position: int) returns (captured: Option<Slot>)
      requires state.Length0 == NumPlayers && state.Length1 == NumTokens
      modifies state
      ensures captured == CaptureTarget(old(Snapshot()), turn, position)
      ensures Snapshot() == ApplyCapture(old(Snapshot()), captured)
    {
      if position in StartPositions {
        return None;
      }
      ghost var b := Snapshot();
      for player := 0 to NumPlayers
        invariant Snapshot() == b
        invariant FirstOpponentFrom(b, turn, position, 0) == FirstOpponentFrom(b, turn, position, player)
      {
        if player != turn {
          for piece := 0 to NumTokens
            invariant Snapshot() == b
            invariant FirstIndexFrom(b[player], position, 0) == FirstIndexFrom(b[player], position, piece)
          {
            if state[player, piece] == position {
              state[player, piece] := OutOfBounds;
              BoardExtensionality(Snapshot(), SetToken(b, player, piece, OutOfBounds));
              return Some(Slot(player, piece));
            }
          }
        }
      }
      return None;
    }

    /** Puts the lowest-index bench token of the player to move on its start square. */
    method EnterToken()
      requires state.Length0 == NumPlayers && state.Length1 == NumTokens
      modifies state
      ensures Snapshot() == EnterResult(old(Snapshot()), turn).board
    {
      ghost var b := Snapshot();
      for token := 0 to NumTokens
        invariant Snapshot() == b
        invariant FirstIndexFrom(b[turn], OutOfBounds, 0) == FirstIndexFrom(b[turn], OutOfBounds, token)
      {
        if state[turn, token] == OutOfBounds {
          state[turn, token] := StartPositions[turn];
          BoardExtensionality(Snapshot(), SetToken(b, turn, token, StartPositions[turn]));
          return;
        }
      }
    }

    /** Advances token `token` of the player to move, captures at the landing
        value and returns the reward. */
    method MoveToken(token: TokenIndex, roll: int) returns (reward: int)
      requires state.Length0 == NumPlayers && state.Length1 == NumTokens
      modifies state
      ensures var r := MoveResult(old(Snapshot()), turn, token, roll);
        Snapshot() == r.board && reward == r.reward
    {
      ghost var b := Snapshot();
      var newPos := CalculateNewPosition(turn, state[turn, token], roll);
      state[turn, token] := newPos;
      BoardExtensionality(Snapshot(), SetToken(b, turn, token, newPos));
      var captured := CheckCapture(newPos);
      reward := 0;
      if captured.Some? {
        reward := reward + 1;
      }
      if newPos == FinalSquare {
        reward := reward + 2;
      }
    }

    /** The player to move rolls `roll` and plays `action`; its reward for the
        turn is recorded and added to its running total. */
    method ApplyAction(action: int, roll: int) returns (reward: int)
      requires state.Length0 == NumPlayers && state.Length1 == NumTokens && WellShaped(Model())
      modifies state, this`diceRoll, this`rewards, this`cumulativeRewards
      ensures Model() == ApplyEnv(old(Model()), action, roll)
    {
      diceRoll := roll;
      reward := 0;
      if action == 0 && diceRoll == 6 {
        EnterToken();
      } else if 1 <= action <= 4 {
        if state[turn, action - 1] != OutOfBounds {
          reward := MoveToken(action - 1, diceRoll);
        }
      }
      rewards := rewards[turn := reward];
      cumulativeRewards := cumulativeRewards[turn := cumulativeRewards[turn] + reward];
    }

    /** Ends the game for everybody if some player has finished, and otherwise
        passes the turn on. */
    method FinishTurn()
      requires state.Length0 == NumPlayers && state.Length1 == NumTokens && WellShaped(Model())
      modifies this`dones, this`turn
      ensures Model() == FinishEnv(old(Model()))
    {
      if CheckGameOver() {
        dones := [true, true, true, true];
      } else {
        turn := NextPlayer(turn);
      }
    }

    /** One step of the player to move with die roll `roll`. */
    method Step(action: int, roll: int)
      requires Valid() && 1 <= roll <= 6
      modifies this, state
      ensures Valid() && state == old(state)
      ensures Model() == StepEnv(old(Model()), action, roll)
    {
      LudoProperties.StepPreservesValidity(Model(), action, roll);
      if dones[turn] {
        return;
      }
      var _ := ApplyAction(action, roll);
      FinishTurn();
    }
  }
}

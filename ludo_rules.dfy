/** The rules of the four-player Ludo engine as values: the board, the constant
    tables, the position advance, the capture search, the legality mask, the
    game-over test and the effect of one turn on the board. The class in
    LudoEnvironment is proved against these definitions. */
module LudoRules {

  datatype Option<T> = None | Some(value: T)

  const NumPlayers: nat := 4
  const NumTokens: nat := 4
  /** Action 0 enters a token from the bench; action k + 1 moves token k. */
  const NumActions: nat := 5
  /** The value of a token still on the bench. */
  const OutOfBounds: int := -1
  const StartSquare: int := 0
  /** The value of a finished token. */
  const FinalSquare: int := 58
  /** Cells 0..51 form the shared loop; 52 and above are home-stretch cells. */
  const LoopLength: int := 52
  /** From this value on, the advance leaves a token where it is. */
  const HomeStretchEnd: int := 57

  /** Players in turn order: Red, Green, Blue, Yellow. */
  type PlayerIndex = p: int | 0 <= p < 4
  type TokenIndex = t: int | 0 <= t < 4

  /** The cell on which each player's tokens enter the loop; these cells are safe. */
  const StartPositions: seq<int> := [0, 13, 26, 39]

  /** For each player, the loop cells that send its token into the home stretch.
      Literal data: Red's window starts at 51 and so lies mostly beyond the loop. */
  const HomeStretches: seq<seq<int>> := [
    [51, 52, 53, 54, 55, 56],
    [12, 13, 14, 15, 16, 17],
    [25, 26, 27, 28, 29, 30],
    [38, 39, 40, 41, 42, 43]
  ]

  /** Board[p][t] is the value of token t of player p. */
  type Board = seq<seq<int>>

  predicate IsBoard(b: Board) {
    |b| == NumPlayers && forall p :: 0 <= p < |b| ==> |b[p]| == NumTokens
  }

  /** A value lies in one of the three domains: bench, loop or home stretch. */
  predicate ValidPosition(v: int) {
    v == OutOfBounds || StartSquare <= v <= FinalSquare
  }

  predicate ValidRow(row: seq<int>) {
    forall t :: 0 <= t < |row| ==> ValidPosition(row[t])
  }

  /** Every token value lies in one of the three domains. */
  predicate ValidBoard(b: Board) {
    IsBoard(b) && forall p :: 0 <= p < NumPlayers ==> ValidRow(b[p])
  }

  /** The board after reset: every token on the bench. */
  function InitialBoard(): (b: Board)
    ensures ValidBoard(b)
    ensures forall p, t :: 0 <= p < NumPlayers && 0 <= t < NumTokens ==> b[p][t] == OutOfBounds
  {
    seq(NumPlayers, p => seq(NumTokens, t => OutOfBounds))
  }

  /** Two boards that agree on every token are equal. */
  lemma BoardExtensionality(a: Board, b: Board)
    requires IsBoard(a) && IsBoard(b)
    requires forall p, t :: 0 <= p < NumPlayers && 0 <= t < NumTokens ==> a[p][t] == b[p][t]
    ensures a == b
  {
    forall p | 0 <= p < NumPlayers ensures a[p] == b[p] {
      assert forall t :: 0 <= t < NumTokens ==> a[p][t] == b[p][t];
    }
  }

  /** The board with token t of player p set to v and every other token as before. */
  function SetToken(b: Board, p: PlayerIndex, t: TokenIndex, v: int): (r: Board)
    requires IsBoard(b)
    ensures IsBoard(r)
    ensures forall q, u :: 0 <= q < NumPlayers && 0 <= u < NumTokens ==>
      r[q][u] == (if q == p && u == t then v else b[q][u])
  {
    b[p := b[p][t := v]]
  }

  function Min(a: int, b: int): int {
    if a <= b then a else b
  }

  /** Where a token of `player` at `currentPos` ends up after `steps` cells.
      Python's `%` with a positive divisor agrees with Dafny's. */
  function CalculateNewPosition(player: PlayerIndex, currentPos: int, steps: int): int {
    if currentPos < LoopLength then
      var newPos := (currentPos + steps) % LoopLength;
      if newPos in HomeStretches[player] then
        LoopLength + (newPos - HomeStretches[player][0])
      else
        newPos
    else if currentPos < HomeStretchEnd then
      Min(currentPos + steps, FinalSquare)
    else
      currentPos
  }

  /** The first index at or after i at which `row` holds v. */
  function FirstIndexFrom(row: seq<int>, v: int, i: nat): (r: Option<nat>)
    requires i <= |row|
    decreases |row| - i
    ensures r.Some? ==> i <= r.value < |row| && row[r.value] == v
    ensures r.Some? ==> forall j :: i <= j < r.value ==> row[j] != v
    ensures r.None? ==> forall j :: i <= j < |row| ==> row[j] != v
  {
    if i == |row| then None
    else if row[i] == v then Some(i)
    else FirstIndexFrom(row, v, i + 1)
  }

  /** A board cell, named by player and token. */
  datatype Slot = Slot(player: PlayerIndex, token: TokenIndex)

  /** The cell (q, u) comes before s in the order player by player, token by token. */
  predicate ScannedBefore(q: int, u: int, s: Slot) {
    q < s.player || (q == s.player && u < s.token)
  }

  /** The first opponent token of `mover`, scanning players from p on, whose
      value is `position`; FirstOpponentFromSpec states what it finds. */
  function FirstOpponentFrom(b: Board, mover: PlayerIndex, position: int, p: nat): Option<Slot>
    requires IsBoard(b) && p <= NumPlayers
    decreases NumPlayers - p
  {
    if p == NumPlayers then None
    else if p != mover && FirstIndexFrom(b[p], position, 0).Some? then
      Some(Slot(p, FirstIndexFrom(b[p], position, 0).value))
    else
      FirstOpponentFrom(b, mover, position, p + 1)
  }

  /** The search finds an opponent token at `position` that no earlier opponent
      token (from player p on) matches, or reports that none matches. */
  lemma {:induction false} FirstOpponentFromSpec(b: Board, mover: PlayerIndex, position: int, p: nat)
    requires IsBoard(b) && p <= NumPlayers
    decreases NumPlayers - p
    ensures var r := FirstOpponentFrom(b, mover, position, p);
      (r.Some? ==> p <= r.value.player && r.value.player != mover) &&
      (r.Some? ==> b[r.value.player][r.value.token] == position) &&
      (r.Some? ==> forall q, u ::
        p <= q < NumPlayers && 0 <= u < NumTokens && q != mover && ScannedBefore(q, u, r.value)
        ==> b[q][u] != position) &&
      (r.None? ==> forall q, u :: p <= q < NumPlayers && 0 <= u < NumTokens && q != mover ==>
        b[q][u] != position)
  {
    if p < NumPlayers {
      FirstOpponentFromSpec(b, mover, position, p + 1);
    }
  }

  /** The token a landing of `mover` on `position` sends back to the bench, if any. */
  function CaptureTarget(b: Board, mover: PlayerIndex, position: int): Option<Slot>
    requires IsBoard(b)
  {
    if position in StartPositions then None
    else FirstOpponentFrom(b, mover, position, 0)
  }

  /** The board after the captured token, if any, has gone back to the bench. */
  function ApplyCapture(b: Board, captured: Option<Slot>): (r: Board)
    requires IsBoard(b)
    ensures IsBoard(r)
  {
    match captured
    case None => b
    case Some(s) => SetToken(b, s.player, s.token, OutOfBounds)
  }

  /** Action 0 is allowed when some token of the player is on the bench and the roll is 6. */
  function EnterBit(row: seq<int>, roll: int): int {
    if OutOfBounds in row && roll == 6 then 1 else 0
  }

  /** A move of a token at `pos` is allowed when it is in play and would not pass the final square. */
  function MoveBit(pos: int, roll: int): int {
    if StartSquare <= pos <= FinalSquare - roll then 1 else 0
  }

  /** The five-entry legality mask of `player` for the stored roll. */
  function Mask(b: Board, player: PlayerIndex, roll: int): seq<int>
    requires IsBoard(b)
  {
    [EnterBit(b[player], roll),
     MoveBit(b[player][0], roll), MoveBit(b[player][1], roll),
     MoveBit(b[player][2], roll), MoveBit(b[player][3], roll)]
  }

  predicate AllFinished(row: seq<int>) {
    forall t :: 0 <= t < |row| ==> row[t] == FinalSquare
  }

  /** The game is over as soon as one player has all tokens on the final square. */
  predicate GameOver(b: Board) {
    exists p :: 0 <= p < |b| && AllFinished(b[p])
  }

  /** What one turn does: the new board, the mover's reward and the captured token. */
  datatype TurnResult = TurnResult(board: Board, reward: int, captured: Option<Slot>)

  /** Action 0 with a 6: the lowest-index bench token, if any, goes to the start square. */
  function EnterResult(b: Board, player: PlayerIndex): (r: TurnResult)
    requires IsBoard(b)
    ensures IsBoard(r.board)
  {
    match FirstIndexFrom(b[player], OutOfBounds, 0)
    case Some(t) => TurnResult(SetToken(b, player, t, StartPositions[player]), 0, None)
    case None => TurnResult(b, 0, None)
  }

  /** Action token + 1: the token advances, the landing may capture, and the
      reward is 1 for a capture plus 2 for standing on the final square. */
  function MoveResult(b: Board, player: PlayerIndex, token: TokenIndex, roll: int): (r: TurnResult)
    requires IsBoard(b)
    ensures IsBoard(r.board)
  {
    var newPos := CalculateNewPosition(player, b[player][token], roll);
    var moved := SetToken(b, player, token, newPos);
    var captured := CaptureTarget(moved, player, newPos);
    var reward := (if captured.Some? then 1 else 0) + (if newPos == FinalSquare then 2 else 0);
    TurnResult(ApplyCapture(moved, captured), reward, captured)
  }

  /** The effect on the board of `player` choosing `action` after rolling `roll`.
      An action that cannot be carried out is a pass. */
  function Turn(b: Board, player: PlayerIndex, action: int, roll: int): (r: TurnResult)
    requires IsBoard(b)
    ensures IsBoard(r.board)
  {
    if action == 0 && roll == 6 then EnterResult(b, player)
    else if 1 <= action <= 4 && b[player][action - 1] != OutOfBounds then
      MoveResult(b, player, action - 1, roll)
    else TurnResult(b, 0, None)
  }

  /** The next player in the fixed round-robin order. */
  function NextPlayer(p: PlayerIndex): (q: PlayerIndex)
    ensures q == if p == NumPlayers - 1 then 0 else p + 1
  {
    (p + 1) % NumPlayers
  }

  /** The whole environment state: the board, the player to move, the last
      roll, and per player the last reward, the running total and the done flag. */
  datatype Env = Env(board: Board, turn: PlayerIndex, diceRoll: int,
                     rewards: seq<int>, cumulativeRewards: seq<int>, dones: seq<bool>)

  predicate WellShaped(e: Env) {
    IsBoard(e.board) &&
    |e.rewards| == NumPlayers && |e.cumulativeRewards| == NumPlayers && |e.dones| == NumPlayers
  }

  /** The state invariant: valid token values and a roll in 0..6. */
  predicate ValidEnv(e: Env) {
    WellShaped(e) && ValidBoard(e.board) && 0 <= e.diceRoll <= 6
  }

  /** The state after reset: all tokens on the bench, Red to move, no roll,
      no rewards and no player done. */
  function InitialEnv(): Env {
    Env(InitialBoard(), 0, 0, [0, 0, 0, 0], [0, 0, 0, 0], [false, false, false, false])
  }

  /** The player to move rolls `roll` and plays `action`: the board changes as
      Turn says, the roll is kept, and the reward is stored and added to its total. */
  function ApplyEnv(e: Env, action: int, roll: int): Env
    requires WellShaped(e)
  {
    var r := Turn(e.board, e.turn, action, roll);
    e.(board := r.board, diceRoll := roll,
       rewards := e.rewards[e.turn := r.reward],
       cumulativeRewards := e.cumulativeRewards[e.turn := e.cumulativeRewards[e.turn] + r.reward])
  }

  /** After the move: on game over every done flag is set and the turn stays
      put; otherwise the turn passes to the next player. */
  function FinishEnv(e: Env): Env
    requires WellShaped(e)
  {
    if GameOver(e.board) then e.(dones := [true, true, true, true])
    else e.(turn := NextPlayer(e.turn))
  }

  /** One step with roll `roll`. A step for a player that is already done
      changes nothing here; otherwise the move is applied and the turn finished. */
  function StepEnv(e: Env, action: int, roll: int): Env
    requires WellShaped(e)
  {
    if e.dones[e.turn] then e
    else FinishEnv(ApplyEnv(e, action, roll))
  }
}

# Ludo rules engine in Dafny

A model of the rules engine inside `LudoEnv`, a four-player Ludo environment.
Each player (Red, Green, Blue, Yellow, in turn order) has four tokens. A token's
value is -1 while it is on the bench, 0..51 on the shared loop, and 52..58 in the
player's home stretch, where 58 means finished. Each turn the player to move
rolls a die and picks one of five actions:
- Action 0 brings the lowest-index bench token onto the player's start square,
  and works only with a 6.
- Action k + 1 advances token k. The landing may send one opponent token back
  to the bench.

A capture pays 1 and reaching 58 pays 2. The game ends as soon as one player
has all four tokens on 58. Every done flag is then set.

The project has three modules:

- `LudoRules` (`ludo_rules.dfy`) holds the rules as values:
  - the constants and tables;
  - the position advance `CalculateNewPosition`;
  - the capture search `CaptureTarget`;
  - the legality mask `Mask`;
  - the game-over test `GameOver`;
  - the effect of a turn on the board, `Turn`;
  - the whole environment as an `Env` value, with one step as `StepEnv`.
- `LudoProperties` (`ludo_properties.dfy`) proves what the rules promise:
  - where an advance ends in each position domain;
  - that a capture takes exactly the first opponent token found at the landing value;
  - the outcome and reward of each kind of turn;
  - the meaning of each mask entry;
  - that a step keeps the state valid and that the end of the game is final;
  - several concrete scenarios.
- `LudoEnvironment` (`ludo_env.dfy`) holds the class `LudoEnv`. The class keeps
  the 4 x 4 board in an `array2<int>` and updates it in place, as the source
  does. Its loops are the source's loops. Every method is proved against
  `LudoRules` through `Snapshot()`, the board array as a `Board` value, or
  `Model()`, the whole environment state as an `Env` value.

The source's own quirks are reproduced, not repaired:
- Red's entry window is 51..56. Only landing exactly on 51 takes a Red token
  into its home stretch, and it always arrives at 52.
- A token at 57 never moves again, although the mask allows it for a roll of 1.
- The capture compares raw values. So home-stretch tokens (52..58) of different
  players can capture each other.
- Moving a finished token pays the 2 again.
- The mask uses the roll stored by the previous step, and `step` never consults
  the mask.
- When the game ends, the turn does not advance.

Unlike common Ludo rules, home-stretch tokens can be captured
(`CaptureInsideHomeStretch`), and the turn does not pass on after the game ends
(`StepOutcome`).

## Model

| member | source | states |
|---|---|---|
| LudoRules.InitialBoard | MultiAgentLudoEnv.py:56 | the reset board holds -1 for every token and is a valid board |
| LudoRules.FirstIndexFrom | MultiAgentLudoEnv.py:78-81 | the scan finds the first index at or after i holding the value, or reports that none does |
| LudoRules.FirstOpponentFromSpec | MultiAgentLudoEnv.py:136-144 | the player-by-player, token-by-token scan finds an opponent token at the position with no earlier opponent token there, or reports none |
| LudoRules.NextPlayer | MultiAgentLudoEnv.py:101 | the turn passes to the next player in the fixed cyclic order Red, Green, Blue, Yellow |
| LudoRules.CalculateNewPosition | MultiAgentLudoEnv.py:118-129 | the position advance; its contract is stated by AdvanceOnLoop, AdvanceInHomeStretch, AdvanceFixedPoints and AdvanceStaysOnBoard |
| LudoRules.FirstOpponentFrom | MultiAgentLudoEnv.py:135-144 | the nested scan for an opponent token at the position; its contract is FirstOpponentFromSpec |
| LudoRules.CaptureTarget | MultiAgentLudoEnv.py:131-144 | the token a landing captures; characterised in both directions by CaptureIsFirstOpponent and NoCaptureCases, with StartSquaresAreSafe |
| LudoRules.EnterBit | MultiAgentLudoEnv.py:151-152 | mask entry 0; its meaning is stated by MaskEntries |
| LudoRules.MoveBit | MultiAgentLudoEnv.py:155-157 | mask entry token + 1; its meaning is stated by MaskEntries and MaskExcludesBenchAndFinished |
| LudoRules.Mask | MultiAgentLudoEnv.py:146-159 | the five-entry legality mask; stated by MaskEntries, and computed by LudoEnv.MaskActions |
| LudoRules.GameOver | MultiAgentLudoEnv.py:161-162 | some player has all four tokens on 58; computed by LudoEnv.CheckGameOver, and related to turns by OnlyTheMoverEndsTheGame |
| LudoRules.EnterResult | MultiAgentLudoEnv.py:77-81 | the entering turn keeps the board shape; its outcome is stated by EnterMovesFirstBenchToken and EnterWithoutEffect |
| LudoRules.MoveResult | MultiAgentLudoEnv.py:82-93 | the moving turn keeps the board shape; its outcome and reward are stated by MoveOutcome |
| LudoRules.Turn | MultiAgentLudoEnv.py:77-93 | one turn keeps the board shape; its effects are stated by MoveOutcome, TurnRewardBounds, TurnPreservesValidBoard and TurnChangedCell |
| LudoRules.InitialEnv | MultiAgentLudoEnv.py:55-65 | the reset state; stated by InitialEnvIsValid and InitialBoardState, and produced by LudoEnv.Reset |
| LudoRules.ApplyEnv | MultiAgentLudoEnv.py:71-96 | the move half of a step; stated by StepOutcome, and carried out by LudoEnv.ApplyAction |
| LudoRules.FinishEnv | MultiAgentLudoEnv.py:98-101 | the end-of-turn half of a step; stated by StepOutcome and GameOverIsFinal, and carried out by LudoEnv.FinishTurn |
| LudoRules.StepEnv | MultiAgentLudoEnv.py:67-101 | one whole step; stated by StepOutcome, DoneStepChangesNothing, StepPreservesValidity and CumulativeRewardsGrow, and carried out by LudoEnv.Step |
| LudoProperties.HomeStretchesAreWindows | MultiAgentLudoEnv.py:48-53 | each entry table row is the six consecutive values starting at the cell before the player's start square, taken mod 52; membership equals lying in that window |
| LudoProperties.AdvanceOnLoop | MultiAgentLudoEnv.py:119-125 | from the loop a token goes to (pos + steps) mod 52, or to 52 + offset when that cell is in its own entry window |
| LudoProperties.AdvanceInHomeStretch | MultiAgentLudoEnv.py:126-128 | from 52..56 a token moves forward by the roll and is clamped at 58 |
| LudoProperties.AdvanceFixedPoints | MultiAgentLudoEnv.py:129 | values 57 and above never change |
| LudoProperties.AdvanceStaysOnBoard | MultiAgentLudoEnv.py:118-129 | with a roll of 1..6 a token in play stays in 0..58, and it stays put exactly when it is at 57 or 58 |
| LudoProperties.RedEntersHomeOnlyFromFiftyOne | MultiAgentLudoEnv.py:49 | a Red token leaves the loop exactly when it lands on 51, and then goes to 52 |
| LudoProperties.RedWrapsFromFortyNine | MultiAgentLudoEnv.py:120 | Red at 49 with a 4 wraps round to cell 1 |
| LudoProperties.GreenEntersFromItsStart | MultiAgentLudoEnv.py:122-124 | Green at 13 with a 1 lands on 14 in its window and goes to 54 |
| LudoProperties.HomeStretchReachesFinal | MultiAgentLudoEnv.py:127-128 | from 55 any roll of 3 or more reaches 58 |
| LudoProperties.CaptureIsFirstOpponent | MultiAgentLudoEnv.py:131-144 | the captured slot is s if and only if the landing is not a start square and s is the first opponent token at the landing value |
| LudoProperties.NoCaptureCases | MultiAgentLudoEnv.py:131-144 | nothing is captured if and only if the landing is a start square or no opponent token has that value |
| LudoProperties.StartSquaresAreSafe | MultiAgentLudoEnv.py:132-133 | a landing on any start square captures nothing |
| LudoProperties.EnterMovesFirstBenchToken | MultiAgentLudoEnv.py:77-81 | action 0 with a 6 puts the lowest-index bench token on the start square, pays nothing and changes nothing else |
| LudoProperties.EnterWithoutEffect | MultiAgentLudoEnv.py:77 | action 0 without a 6 or without a bench token is a pass |
| LudoProperties.IdleActionsChangeNothing | MultiAgentLudoEnv.py:82-84 | an action outside 0..4, or the move of a bench token, leaves the board unchanged and pays nothing |
| LudoProperties.MoveOutcome | MultiAgentLudoEnv.py:82-93 | a move writes the advanced value, captures at most the first opponent token there, changes no other token, and pays 1 per capture plus 2 for landing on 58 |
| LudoProperties.TurnRewardBounds | MultiAgentLudoEnv.py:75-93 | a turn pays 0..3, and only a real move pays anything |
| LudoProperties.TurnPreservesValidBoard | MultiAgentLudoEnv.py:77-93 | with a roll of 1..6 every token value stays -1 or in 0..58 |
| LudoProperties.FinishedTokenPaysAgain | MultiAgentLudoEnv.py:92-93 | moving a token already at 58 leaves it there and pays at least 2 again |
| LudoProperties.TokenAtFiftySevenIsStuck | MultiAgentLudoEnv.py:126-129 | a token at 57 is movable for a roll of 1, yet every move leaves it at 57 and finishing is never paid |
| LudoProperties.CaptureInsideHomeStretch | MultiAgentLudoEnv.py:139-141 | Green moving 52 to 55 sends Blue's token at 55 back to the bench |
| LudoProperties.OneCapturePerLanding | MultiAgentLudoEnv.py:136-142 | a landing among three opponent tokens captures only the first one scanned |
| LudoProperties.CaptureAndFinishPayThree | MultiAgentLudoEnv.py:88-93 | a move that both captures and reaches 58 pays 3 |
| LudoProperties.MaskEntries | MultiAgentLudoEnv.py:146-159 | five 0/1 entries: entry 0 is set if and only if the roll is 6 and a token is on the bench, and entry k + 1 if and only if 0 <= token k <= 58 - roll |
| LudoProperties.MaskExcludesBenchAndFinished | MultiAgentLudoEnv.py:156 | bench tokens, and finished tokens under a positive roll, are never movable |
| LudoProperties.AllowedMoveNeverClamps | MultiAgentLudoEnv.py:126-128 | a home-stretch move the mask allows lands on exactly value + roll |
| LudoProperties.MaskIsAdvisory | MultiAgentLudoEnv.py:82-86 | a move from 56 with a 6 is masked, yet the turn still carries it out and finishes the token |
| LudoProperties.InitialBoardState | MultiAgentLudoEnv.py:55-65 | after reset the game is not over and the mask is [1 if roll is 6 else 0, 0, 0, 0, 0] |
| LudoProperties.FirstEntryFromReset | MultiAgentLudoEnv.py:77-81 | from reset, Red's first 6 with action 0 puts Red's token 0 on cell 0 |
| LudoProperties.TurnChangedCell | MultiAgentLudoEnv.py:77-93 | a token whose value a turn changes was entered, moved, or captured |
| LudoProperties.OnlyTheMoverEndsTheGame | MultiAgentLudoEnv.py:161-162 | a turn that ends the game is a move of the player to move onto 58 that leaves all four of its tokens on 58 |
| LudoProperties.StepPreservesValidity | MultiAgentLudoEnv.py:67-101 | a step with a roll of 1..6 keeps every token value valid and the roll within 0..6 |
| LudoProperties.DoneStepChangesNothing | MultiAgentLudoEnv.py:68-69 | a step for a player that is done changes nothing |
| LudoProperties.StepOutcome | MultiAgentLudoEnv.py:71-101 | a step moves the board as the turn says, stores the roll, sets and accumulates only the mover's reward, and then either sets every done flag and keeps the turn, or passes the turn and keeps the flags |
| LudoProperties.GameOverIsFinal | MultiAgentLudoEnv.py:98-99 | after the step that ends the game, every further step changes nothing |
| LudoProperties.CumulativeRewardsGrow | MultiAgentLudoEnv.py:96 | a step raises a running total by at most 3 and never lowers it |
| LudoProperties.RunPreservesValidity | MultiAgentLudoEnv.py:67-101 | any sequence of steps with rolls in 1..6 keeps the state valid and never lowers a running total |
| LudoProperties.InitialEnvIsValid | MultiAgentLudoEnv.py:55-65 | the reset state is valid, Red is to move and no player is done |
| LudoEnvironment.LudoEnv.constructor | MultiAgentLudoEnv.py:42-45 | a new environment has a fresh board array in the reset state |
| LudoEnvironment.LudoEnv.Reset | MultiAgentLudoEnv.py:55-65 | the state becomes the reset state: a fresh all -1 board, Red to move, roll 0, zero rewards and totals, no player done |
| LudoEnvironment.LudoEnv.CheckGameOver | MultiAgentLudoEnv.py:161-162 | true if and only if some player has all four tokens on 58 |
| LudoEnvironment.LudoEnv.MaskActions | MultiAgentLudoEnv.py:146-159 | the array loop yields exactly the mask of the agent for the stored roll, and nothing changes |
| LudoEnvironment.LudoEnv.CheckCapture | MultiAgentLudoEnv.py:131-144 | the nested scan returns the capture target and clears exactly that token in the array |
| LudoEnvironment.LudoEnv.EnterToken | MultiAgentLudoEnv.py:78-81 | the scan with early exit enters the first bench token, as the entering turn does |
| LudoEnvironment.LudoEnv.MoveToken | MultiAgentLudoEnv.py:83-93 | the array and the reward after a move are those of the moving turn |
| LudoEnvironment.LudoEnv.ApplyAction | MultiAgentLudoEnv.py:71-96 | the board, the stored roll, and the mover's reward and total change as one applied turn says, and nothing else changes |
| LudoEnvironment.LudoEnv.FinishTurn | MultiAgentLudoEnv.py:98-101 | on game over all done flags are set and the turn stays; otherwise the turn passes on |
| LudoEnvironment.LudoEnv.Step | MultiAgentLudoEnv.py:67-101 | the state after a step is the step function applied to the state before it, the same board array is kept, and the state stays valid |

## Left out

- The die roll (`np.random.randint`, MultiAgentLudoEnv.py:74) is a parameter of `Step` in 1..6, so the model is deterministic. Seeding is not modelled.
- `agent_selector` (MultiAgentLudoEnv.py:62, :101) is a library class. It is not part of this model. The turn is assumed to pass cyclically from the player who just moved (`NextPlayer`). If the selector's first `next()` after reset returned Red again, Red would move twice at the start, and the model does not capture that.
- `_was_done_step` (MultiAgentLudoEnv.py:69) is a library method. It is not part of this model. A step for a done player changes nothing here.
- Agent names, `possible_agents`, `agents` and `infos` (MultiAgentLudoEnv.py:25, :57, :65) are not modelled. The rules read `possible_agents` only to turn an agent name into a player index (MultiAgentLudoEnv.py:72, :121, :135, :148); the model keeps that index directly, as `turn: PlayerIndex` and as the `agent` parameter of `MaskActions`. Players are the indices 0..3 in the order of the `Player` enumeration. The reward and done dictionaries become sequences indexed by player.
- The action and observation spaces, `metadata` and `observe` (MultiAgentLudoEnv.py:21, :27-40, :103-109) are not modelled. They only format data that `Model()` and `MaskActions` already expose.
- `render`, `close` and the driver loop (MultiAgentLudoEnv.py:111-116, :164-179) are left out: they are output and a random driver.
- LudoEnvironment.LudoEnv.constructor: it also gives the rewards, running totals and done flags their reset values. In the source those exist only once `reset` has run.
- Integer width: numpy's fixed-width integers are modelled as unbounded. Token values stay within -1..58 and rewards grow by at most 3 per step, so wrap-around would need astronomically many steps.

# Ship-Captain-Crew dice engine, modelled in Dafny

This project models `DiceGame`, the game-state engine of a Ship-Captain-Crew
dice game: a roster of players, a list of six-sided dice, a cap on rolls per
turn and a pointer to the player whose turn it is. The engine is a small
sequential state machine, and the model keeps that form:

- `die.dfy` (module `Dice`): class `Die` with its label, side count, face and
  held flag.
- `player.dfy` (module `Players`): class `Player` with its number, score, rolls
  used this turn, wins and losses.
- `dice_game.dfy` (module `Game`): class `DiceGame`, with the roster and the dice
  as constant sequences of object references and `currentPlayer` as a mutable
  field. The read-only queries are functions. The updating operations are
  methods with `modifies` clauses, and their contracts tie the new state to the
  old one. Each stream pipeline of the source (`allMatch`, `filter`,
  `findFirst`) and the `List.indexOf` lookup is a recursive function whose contract gives its
  meaning.

The `Die` and `Player` classes are not part of this model. Their methods are
given bodies that match the contracts stated for them. Those contracts are
assumptions about the unseen code, not verified facts:

- a free die lands on some face in 1..6 when rolled, and a held die keeps its face;
- holding a die sets only its held flag;
- resetting a die frees it and leaves it showing some face in 1..sides;
- `roll` adds one to the rolls used this turn;
- `resetPlayer` clears the score and the rolls used, and keeps wins and losses;
- the labels and the player numbers are set by the constructors, and their
  values are not known;
- `List.indexOf` compares players by identity, because `Player` is assumed not
  to override `equals`.

Behaviour of the code as written, which the model keeps and proves:

- The roster is `Collections.nCopies(countPlayers, new Player())`, so every
  slot holds the same player object. `DiceGame.Valid()` records this sharing.
  A roll counted through one slot is seen through every slot
  (`RollDice`, `SecondSlotSeesFirstSlotsRoll`). Every slot reports the same
  number and score (`GetCurrentPlayerNumber`, `GetCurrentPlayerScore`).
- `nextPlayer` computes `players.size() - indexOf(current)`. That value is
  always at least 1, so the `false` branch can never run. With the shared
  roster, `indexOf` finds slot 0, or -1 before any game has started. The next
  slot therefore always exists, and the call always returns `true` and lands
  on the same shared player (`NextPlayer`, `SharedRosterIndex`). Before any
  game has started, the call makes slot 0 current.
- Construction throws `IllegalArgumentException` for fewer than two players.
  `Collections.nCopies` already throws it for a negative count, with a
  different message. Both cases are modelled as `Failure` results of `Create`.
  A negative dice count gives no dice.

In three places the code does not do what a reader of the game would
expect, and the model follows the code:

- One would expect each player to be a distinct object; the code shares one.
- One would expect `nextPlayer` to return `false` once the last player has
  played; the code never returns `false`.
- The driver calls an `autoHold` operation; in the engine it is only a
  commented-out draft.

## Model

| member | source | states |
|---|---|---|
| `Game.Create` | src/edu/wctc/DiceGame.java:16-28 | construction fails exactly when there are fewer than two players (a negative count and a count of 0 or 1 are told apart); otherwise the engine is fresh and valid, holds `countPlayers` slots and `max(countDice, 0)` fresh dice, stores `maxRolls` unchanged and has no current player yet; every die is free, and the shared player's score, rolls used, wins and losses are all 0 |
| `Game.DiceGame.constructor` | src/edu/wctc/DiceGame.java:16-23 | every roster slot is one fresh player with zeroed tallies; the dice are `max(countDice, 0)` distinct, fresh, free six-sided dice; `maxRolls` is stored as given |
| `Game.SharedRosterIndex` | src/edu/wctc/DiceGame.java:18 | in a roster whose slots all hold one object, `indexOf` of any member is 0 and the slot after it exists and holds the same object |
| `Game.SecondSlotSeesFirstSlotsRoll` | src/edu/wctc/DiceGame.java:18 | for every valid configuration (at least two players, any dice count, any cap): after the first player rolls once and play passes on, the player in slot 1 already has one roll used, and the current player and every slot are the first player's object |
| `Game.AllHeld` | src/edu/wctc/DiceGame.java:31 | the `allMatch` traversal: true iff every die in the list is held; vacuously true for no dice |
| `Game.DiceGame.AllDiceHeld` | src/edu/wctc/DiceGame.java:30-32 | true iff every die of the game is held; true when there are no dice |
| `Game.DiceGame.CurrentPlayerCanRoll` | src/edu/wctc/DiceGame.java:44-46 | false exactly when the current player has used at least `maxRolls` rolls and every die is held; true whenever some die is free, whatever the roll count; with no dice, only the cap decides |
| `Game.DiceGame.GetCurrentPlayerNumber` | src/edu/wctc/DiceGame.java:48-50 | the number returned is the number of every roster slot, since they are one player |
| `Game.DiceGame.GetCurrentPlayerScore` | src/edu/wctc/DiceGame.java:52-54 | the score returned is the score of every roster slot |
| `Game.HeldWithFace` | src/edu/wctc/DiceGame.java:92-95 | the filtered list holds exactly the dice of the input that show the face and are held |
| `Game.DiceGame.IsHoldingDie` | src/edu/wctc/DiceGame.java:90-97 | true iff some die both shows the face and is held; it is a function of the state and changes nothing |
| `Game.IndexOf` | src/edu/wctc/DiceGame.java:101 | the first slot that holds the object, or -1 exactly when no slot does; always in -1 .. size-1, so `size - indexOf` is at least 1 |
| `Game.DiceGame.NextPlayer` | src/edu/wctc/DiceGame.java:99-109 | the current player becomes the player in the slot after the old current player's first slot; the call always returns true; with the shared roster the result is the player in slot 0; roster and dice are unchanged |
| `Game.FirstWithLabel` | src/edu/wctc/DiceGame.java:112-114 | the position of the first die in list order whose label is the given character, or the list length when none has it |
| `Game.DiceGame.PlayerHold` | src/edu/wctc/DiceGame.java:111-116 | only the first die in list order with the given label becomes held; no face and no other held flag changes; nothing changes when no label matches |
| `Game.DiceGame.ResetDice` | src/edu/wctc/DiceGame.java:118-121 | every die is free afterwards and still shows a face in 1..6 |
| `Game.DiceGame.ResetPlayers` | src/edu/wctc/DiceGame.java:123-126 | every slot's score and rolls used are 0; wins and losses are unchanged |
| `Game.DiceGame.RollDice` | src/edu/wctc/DiceGame.java:128-132 | the current player stays current and has one more roll used (seen through every slot), with the score, wins and losses unchanged; every die keeps its held flag; a held die keeps its face; all faces stay in 1..6 |
| `Game.DiceGame.StartNewGame` | src/edu/wctc/DiceGame.java:160-165 | slot 0's player becomes current; every slot's score and rolls used are 0, with wins and losses kept; no die changes |
| `Dice.Die.constructor` | src/edu/wctc/DiceGame.java:21 | assumed: a new die has the requested side count, is free and shows a face in range |
| `Dice.Die.HoldDie` | src/edu/wctc/DiceGame.java:115 | assumed: holding sets the held flag and keeps the face |
| `Dice.Die.RollDie` | src/edu/wctc/DiceGame.java:131 | assumed: a roll keeps the held flag, keeps a held die's face, and leaves every face in 1..sides |
| `Dice.Die.ResetDie` | src/edu/wctc/DiceGame.java:120 | assumed: a reset frees the die and leaves its face in range |
| `Players.Player.constructor` | src/edu/wctc/DiceGame.java:18 | assumed: a new player has score, rolls used, wins and losses all 0 |
| `Players.Player.Roll` | src/edu/wctc/DiceGame.java:129 | assumed: one more roll used; score, wins and losses unchanged |
| `Players.Player.ResetPlayer` | src/edu/wctc/DiceGame.java:164 | assumed: score and rolls used become 0; wins and losses unchanged |

## Left out

- `getGameResults` (DiceGame.java:66-88): it ranks players, awards a win and losses, and builds text. It consumes one `Stream` twice, so it throws `IllegalStateException` at the second use; `addWin` and `addLoss`, used only there, are left out with it.
- `getFinalWinner` and `getDiceResults` (DiceGame.java:56-64): string formatting only.
- The commented-out `autoHold` and `scoreCurrentPlayer` drafts (DiceGame.java:34-42, 134-158): they are not live code, so no scoring rule is modelled.
- src/edu/wctc/Main.java: console input and output and a process-wide game counter. It calls `autoHold`, which the engine does not define.
- `Die.java` and `Player.java` are not part of this model. Their effects are the stated assumptions above, including the random source behind a roll, which is a nondeterministic face.
- Game.DiceGame.RollDice: states the per-die effect of one `rollDie` call and the `+1` of one `roll` call. It does not count the calls themselves.
- Game.DiceGame.CurrentPlayerCanRoll: requires a current player. Before `startNewGame` or `nextPlayer` has run, the current player is null and the Java code throws `NullPointerException` (DiceGame.java:45). The model does not include that error path.
- Game.DiceGame.GetCurrentPlayerNumber: requires a current player. Before any game the Java code throws `NullPointerException` (DiceGame.java:49), and this error path is not modelled.
- Game.DiceGame.GetCurrentPlayerScore: requires a current player. Before any game the Java code throws `NullPointerException` (DiceGame.java:53), and this error path is not modelled.
- Game.DiceGame.RollDice: requires a current player. Before any game the Java code throws `NullPointerException` (DiceGame.java:129), and this error path is not modelled.
- Counters and the cap are unbounded integers. The Java `int` wrap-around of `rollsUsed` (and of `score`, `wins` and `losses`) is not modelled, nor is its effect on the comparison with `maxRolls`.
- Game.DiceGame.NextPlayer: the out-of-range access on the last slot of a roster of distinct players cannot arise from the shared roster, so it is not modelled. The precondition `Valid()` carries the sharing that rules it out.

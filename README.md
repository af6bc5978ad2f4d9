# ShipDit: boards and ship placement

ShipDit is a two-player sea battle game built in Unity. This project models
two of its scripts: the game manager and the placing manager.

The **game manager** (`Game.GameManager`, file `game_manager.dfy`) holds two
players. Each player (`Game.Player`) owns:

- a 10 x 10 array of tiles (`myGrid`);
- a 10 x 10 array of "revealed" flags (`revealedGrid`);
- the list of ships placed so far (`placedShipList`).

Every operation works on the board of the active player. The operations are:

- writing a ship over the tiles under its parts (`UpdateGrid`);
- recording a ship in the list (`AddShipToList`);
- querying a tile (`CheckIfOccupied`);
- emptying the grid (`InitGrid`);
- deleting every ship (`DeleteAllShips`);
- building the debug dump of the grid (`DebugGrid`).

Each player's arrays are tied by `Player.Valid()` to a value, `BoardView`.
The operations are proved against pure functions on that value:

- `Placed` writes one ship over a footprint;
- `Cleared` deletes every ship;
- `NewBoard` is the board a new player starts with;
- `Render` is the debug dump, with `RenderChar` as its character-by-character layout.

The **placing manager** (`Placing.PlacingManager`, file `placing_manager.dfy`)
keeps the list of ship kinds to place. Each entry has:

- a configured part (`ShipConfig`): its kind, the cells its ghost covers, and its quota `amountToPlace`;
- a changing part: the placed count, whether its ghost preview is shown, the
  ghost's rotation and the cell the ghost stands on.

It also keeps the selected kind and the flags "placing", "can place" and
"ready" (the ready button being interactable). Its operations are:

- the manual placement steps: `ShipButton`, `RotateGhost`, `PlaceGhost` and `PlaceShip`;
- the ghost bookkeeping: `ActivateShipGhost` and `Start`;
- the readiness check: `CheckEveryShipPlaced`;
- resetting: `ClearAllShips`;
- handing over to a player: `SetPlayer`;
- the randomised automatic placement of a computer player: `AutoPlace`.

`AutoPlace`'s three nested loops are split into:

- `PlaceKind`: one search per ship of a kind's quota;
- `SearchPosition`: draw base positions until one attempt places a ship;
- `TryBasePosition` and `TryRotation`: the four rotation tries at one base position.

Each loop is proved against a pure function of the draws:

- `TryTurns` is one attempt at a base position (the four tries);
- `PlaceCopies` is the searches for n ships of one kind; with n = 1 it is
  the search for one ship;
- `PlaceAll` is the searches for every kind in list order.

`AutoPlace` ends with exactly the board and counts that `PlaceAll` gives,
starting from the cleared board with every count 0. Lemmas about these
functions give the facts a caller relies on: counts only go up, other kinds'
counts stay, the revealed flags and consistency are kept, a failed search
changes nothing, and every kind reaches its quota when the draws suffice.

As in the game, the tries do not stop after a success.
`OneBasePositionCanPlaceFour` shows that one attempt can then place four
ships of the same kind, even with a tile test that rejects occupied tiles.
So the counts reach their quotas but need not meet them exactly.

Three kinds of input the game takes from the engine are parameters here:

- The footprint of a ghost (the board cells under its parts) is computed by
  `Footprint` from the kind's shape, a base cell and a number of quarter turns.
  For manual placement the base cell is where `PlaceGhost` last moved the
  ghost and the turns are those `RotateGhost` made (`GhostFootprint`).
- The test `GhostBehavior.OverTile` is an oracle on the current grid and a cell.
  `OracleSound` is assumed: the test passes only for cells on the board.
- Random numbers come as a sequence of `Attempt` records. Each record gives
  the base cell, the four drawn rotations and the identities of the ships
  that would be instantiated.

## Model

| member | source | states |
|---|---|---|
| Game.Player.constructor | ShipDit/Assets/Scripts/GameManager.cs:26-37 | a new player has every tile empty with no ship, no cell revealed and an empty ship list (`NewBoard`) |
| Game.NewBoard | ShipDit/Assets/Scripts/GameManager.cs:26-38 | the starting board is well shaped, every tile is `EmptyTile`, every flag is false, the ship list is empty and (vacuously) every ship on the grid is recorded |
| Game.GameManager.constructor | ShipDit/Assets/Scripts/GameManager.cs:40-41 | two distinct fresh players, both with a new board, and the first one is active |
| Game.GameManager.AddShipToList | ShipDit/Assets/Scripts/GameManager.cs:42-45 | the active player's ship list gains the ship at its end; grid and revealed flags are unchanged |
| Game.Stamp | ShipDit/Assets/Scripts/GameManager.cs:49-53 | after writing tile t over a footprint, a cell holds t exactly when it is in the footprint, and otherwise keeps its old tile |
| Game.Placed | ShipDit/Assets/Scripts/GameManager.cs:47-56 | after a placement, every footprint cell holds the ship's kind and identity, every other cell is unchanged, the flags are unchanged, the list gains the ship, and "every ship on the grid is listed" is preserved |
| Game.GameManager.UpdateGrid | ShipDit/Assets/Scripts/GameManager.cs:47-56 | the active board becomes `Placed(old board, footprint, kind, ship)` and the other player's board is unchanged |
| Game.GameManager.CheckIfOccupied | ShipDit/Assets/Scripts/GameManager.cs:57-60 | the answer is true exactly when the tile at (x, z) of the active grid has a kind other than Empty |
| Game.CellLetter | ShipDit/Assets/Scripts/GameManager.cs:70-90 | the dump shows '0' exactly for an empty tile; each ship kind has its own letter |
| Game.RowPrefixLayout | ShipDit/Assets/Scripts/GameManager.cs:68-98 | the text of the first n cells of a row has 2n characters (one more after the tenth cell) and matches the reference row layout |
| Game.RowTextLayout | ShipDit/Assets/Scripts/GameManager.cs:67-98 | one row of the dump is 22 characters long and equals the reference layout `RowChar` |
| Game.GridPrefixLayout | ShipDit/Assets/Scripts/GameManager.cs:65-100 | the text of the first m rows has 22m characters, and character p is `RenderChar(g, p)` |
| Game.RenderLayout | ShipDit/Assets/Scripts/GameManager.cs:61-101 | the whole dump has 220 characters and follows the reference layout |
| Game.RenderCell | ShipDit/Assets/Scripts/GameManager.cs:61-101 | in row i of the dump, the letter of cell (i, j) is at offset 1 + 2j. A bar opens the row. A line break follows each letter, and the last letter is followed by a bar and then a line break |
| Game.GameManager.DebugGrid | ShipDit/Assets/Scripts/GameManager.cs:61-101 | the string built by the two nested loops is `Render` of the active grid |
| Game.GameManager.InitGrid | ShipDit/Assets/Scripts/GameManager.cs:112-122 | every tile of the active grid becomes empty; the active list and flags and the other board are unchanged |
| Game.Cleared | ShipDit/Assets/Scripts/GameManager.cs:103-122 | after deleting all ships no tile is occupied and the list is empty. Every ship on the grid is listed (trivially: there is none). The revealed flags are kept |
| Game.GameManager.DeleteAllShips | ShipDit/Assets/Scripts/GameManager.cs:103-111 | the active board becomes `Cleared(old board)` and the other player's board is unchanged |
| Game.ClearedIdempotent | ShipDit/Assets/Scripts/GameManager.cs:103-122 | deleting all ships twice leaves the same board as deleting them once |
| Game.ClearedForgetsPlacement | ShipDit/Assets/Scripts/GameManager.cs:103-122 | deleting all ships after a placement gives the same board as deleting them before it |
| Placing.PlacingManager.constructor | ShipDit/Assets/Scripts/PlacingManager.cs:11-29 | the configured ship list with every count 0, every ghost unturned and standing where the scene puts it; nothing selected, not placing, not ready. The quota invariant holds exactly when no quota is negative |
| Placing.ShowGhost | ShipDit/Assets/Scripts/PlacingManager.cs:86-98 | the ghost flags after showing only entry index: flag k is set exactly when k is index (none for -1), so at most one ghost is shown |
| Placing.PlacingManager.ActivateShipGhost | ShipDit/Assets/Scripts/PlacingManager.cs:86-98 | when the requested ghost is already shown nothing changes; otherwise only the requested ghost is shown (none for -1) |
| Placing.PlacingManager.Start | ShipDit/Assets/Scripts/PlacingManager.cs:39-43 | after start no ghost is shown |
| Placing.PlacingManager.ShipButton | ShipDit/Assets/Scripts/PlacingManager.cs:161-175 | a kind whose quota is placed cannot be selected and nothing changes. Otherwise the kind is selected and placing starts. Its ghost is shown, and it is the only one if at most one was shown before. The quota invariant is preserved |
| Placing.PlacingManager.CheckIfAllShipsPlaced | ShipDit/Assets/Scripts/PlacingManager.cs:172-175 | once every kind has its quota the answer is true; while no kind is over its quota, it is true exactly when kind index has no room for another ship |
| Placing.PlacingManager.CheckEveryShipPlaced | ShipDit/Assets/Scripts/PlacingManager.cs:151-159 | the result is true exactly when every kind has exactly its quota placed; the ready flag is then set and is never cleared |
| Placing.AllPlacedIffTotalsMeet | ShipDit/Assets/Scripts/PlacingManager.cs:151-159 | while no kind exceeds its quota, the total placed is at most the total required, and every kind is complete exactly when the totals are equal |
| Placing.TotalPlacedDelta | ShipDit/Assets/Scripts/PlacingManager.cs:122 | changing one kind's count changes the total number placed by the same amount |
| Placing.PlacementKeepsQuotas | ShipDit/Assets/Scripts/PlacingManager.cs:113-130 | placing a ship of a kind that still has room moves only that kind's count, by one. The total grows by one and every kind stays within its quota |
| Placing.PlacingManager.PlaceShip | ShipDit/Assets/Scripts/PlacingManager.cs:113-130 | the ship is written over the cells the selected ghost covers (its base cell turned by its rotation) and recorded, and the selected kind's count grows by one. Placing ends, every ghost is hidden, and ready is set if every quota is now met. The quota invariant is kept and the total grows by one. Board and counts stay consistent, and the other board is untouched |
| Placing.TurnsCompose | ShipDit/Assets/Scripts/PlacingManager.cs:132-135 | turning by t quarter turns and then by u is turning by (t + u) mod 4, so four rotations bring a ghost back |
| Placing.PlacingManager.RotateGhost | ShipDit/Assets/Scripts/PlacingManager.cs:132-135 | the selected ghost turns by one more quarter turn (mod 4); no other ghost turns |
| Placing.Footprint | ShipDit/Assets/Scripts/PlacingManager.cs:219-228 | the footprint has one cell per part of the shape: the base cell plus the part's offset turned by the drawn rotation |
| Placing.CheckForOtherShips | ShipDit/Assets/Scripts/PlacingManager.cs:246-257 | the answer is true exactly when every part of the footprint passes the tile test; with a sound test, a passing footprint lies on the board |
| Placing.PlacingManager.PlaceGhost | ShipDit/Assets/Scripts/PlacingManager.cs:100-111 | while placing, "can place" becomes whether the cells the selected ghost covers pass the test on the active grid, and then that ghost moves to (x, z); otherwise every ghost is hidden |
| Placing.TotalPlacedZero | ShipDit/Assets/Scripts/PlacingManager.cs:185-195 | once every count is reset, the total placed is 0 |
| Placing.PlacingManager.ClearAllShips | ShipDit/Assets/Scripts/PlacingManager.cs:185-195 | the active board is `Cleared`, every count is 0, ready is off, the board and counts are consistent, and the other board is untouched |
| Placing.PlacementKeepsConsistent | ShipDit/Assets/Scripts/PlacingManager.cs:259-264 | after a counted placement the active board still lists one ship per counted placement, and every ship on its grid is still listed |
| Placing.PlacingManager.PlaceAutoShip | ShipDit/Assets/Scripts/PlacingManager.cs:259-267 | the ship is written over the footprint and recorded, the current kind's count grows by one, and the other board is untouched |
| Placing.PlacingManager.TryRotation | ShipDit/Assets/Scripts/PlacingManager.cs:225-238 | a try places a ship exactly when its rotated footprint passes the test on the grid as it stands; otherwise nothing changes |
| Placing.TryTurns | ShipDit/Assets/Scripts/PlacingManager.cs:223-239 | the first n tries of an attempt, each placing a ship when its turned footprint passes the test, without stopping after a success; the board stays well shaped with one count per kind (what an attempt does is stated by `TryTurnsEffect`) |
| Placing.PlacingManager.TryBasePosition | ShipDit/Assets/Scripts/PlacingManager.cs:211-239 | the board, the counts and "position found" after the four tries at one base position are those given by `TryTurns` |
| Placing.TryTurnsEffect | ShipDit/Assets/Scripts/PlacingManager.cs:223-239 | one attempt changes only the current kind's count, raising it by at most one per try. The attempt succeeds exactly when the count went up. The revealed flags are kept, and so is consistency between board and counts |
| Placing.SingleCellTry | ShipDit/Assets/Scripts/PlacingManager.cs:223-239 | a try whose footprint is one free cell places a ship there, adds one to the count and leaves every other cell as it was |
| Placing.SingleCellTries | ShipDit/Assets/Scripts/PlacingManager.cs:223-239 | when n tries put a one-part ship on n different free cells, each try places a ship, and the cells of later tries stay free |
| Placing.OneBasePositionCanPlaceFour | ShipDit/Assets/Scripts/PlacingManager.cs:223-239 | because the tries go on after a success, a single base position can add four ships of one kind, whatever its quota |
| Placing.PlaceCopies | ShipDit/Assets/Scripts/PlacingManager.cs:205-240 | the searches for n ships of one kind, one attempt per draw, until n are placed or the draws run out; the board stays well shaped, and the next draw number lies between the first and the end of the draws |
| Placing.PlaceCopiesCounts | ShipDit/Assets/Scripts/PlacingManager.cs:205-240 | the searches fail only when the draws run out; the kind's count never goes down, and on success it rises by at least n |
| Placing.PlaceCopiesKeepsOthers | ShipDit/Assets/Scripts/PlacingManager.cs:211-239 | the searches move no count but the current kind's |
| Placing.PlaceCopiesKeepsRevealed | ShipDit/Assets/Scripts/PlacingManager.cs:209-240 | the searches keep the revealed flags |
| Placing.PlaceCopiesKeepsConsistent | ShipDit/Assets/Scripts/PlacingManager.cs:209-240 | the searches keep one listed ship per counted placement and every ship on the grid listed |
| Placing.FailedSearchChangesNothing | ShipDit/Assets/Scripts/PlacingManager.cs:209-240 | a search for one ship that fails has changed nothing and has used up every draw |
| Placing.SearchStep | ShipDit/Assets/Scripts/PlacingManager.cs:209-240 | the search for one ship stops after the first attempt that places a ship, with the next draw number one past it; otherwise it goes on with the next draw from the board that attempt left |
| Placing.PlaceCopiesSplit | ShipDit/Assets/Scripts/PlacingManager.cs:205-241 | searching for m ships is searching for one and then, if found, for the other m - 1 with the draws left; if not found, the whole fails there |
| Placing.PlaceCopiesStep | ShipDit/Assets/Scripts/PlacingManager.cs:205-241 | after the search for one ship, the searches still to make for the kind are those for one fewer ship from the board and draw it left; a failed search ends the kind's searches with its result |
| Placing.PlaceAll | ShipDit/Assets/Scripts/PlacingManager.cs:203-242 | the searches for every kind from entry i on, in list order, each continuing with the draws the one before left and stopping at the first kind that runs out; the board stays well shaped |
| Placing.PlaceAllKeepsEarlier | ShipDit/Assets/Scripts/PlacingManager.cs:203-242 | when the placement succeeds, the kinds before entry i keep their counts |
| Placing.PlaceAllMeetsQuotas | ShipDit/Assets/Scripts/PlacingManager.cs:203-242 | when the placement succeeds, every kind from entry i on has its count raised by at least its quota |
| Placing.PlaceAllFailsOnlyWhenDrawsRunOut | ShipDit/Assets/Scripts/PlacingManager.cs:203-242 | the placement fails only when every draw has been used |
| Placing.PlaceAllKeepsRevealed | ShipDit/Assets/Scripts/PlacingManager.cs:203-242 | the placement keeps the revealed flags |
| Placing.PlaceAllKeepsConsistent | ShipDit/Assets/Scripts/PlacingManager.cs:203-242 | the placement keeps board and counts consistent |
| Placing.PlacingManager.SearchPosition | ShipDit/Assets/Scripts/PlacingManager.cs:209-240 | the board, counts, "position found" and next draw number are those of `PlaceCopies` for one ship: the search stops at the first attempt that places a ship. When the draws run out nothing has changed. Only the current kind's count moves, up by at least one on success; flags, consistency and the other board are kept |
| Placing.PlacingManager.PlaceKind | ShipDit/Assets/Scripts/PlacingManager.cs:205-241 | the board, counts, success and next draw number are those of `PlaceCopies` for the kind's quota; it fails only when the draws run out. On success the kind's count rises by at least its quota; other counts, flags, consistency and the other board are kept |
| Placing.PlacingManager.AutoPlace | ShipDit/Assets/Scripts/PlacingManager.cs:197-245 | the board and counts are those `PlaceAll` gives from the cleared board with every count 0, and ready is set exactly when that succeeds. Then every kind has at least its quota. In every case board and counts are consistent, the revealed flags are kept and the other board is untouched |
| Placing.PlacingManager.SetPlayer | ShipDit/Assets/Scripts/PlacingManager.cs:45-57 | a human player gets a cleared board with every count 0 and ready off; for a computer player the board and counts are those `PlaceAll` gives from the cleared board, with ready set exactly when it succeeds |

## Left out

- Input handling in `Update` (PlacingManager.cs:59-84) is left out: ray casts, mouse buttons and `Playfield.RequestTile`. The operations it calls are modelled one by one.
- Positions and rotations are not floating-point vectors or quaternions. A ghost's pose is a base cell plus a number of quarter turns. Rounding the hit point to a cell is left out.
- Instantiating and destroying scene objects is left out. An instantiated ship is a `ShipId` that stands for both its game object and its ship behaviour.
- `UpdateAmountText` (PlacingManager.cs:177-183) is left out: it only writes counts into UI text.
- The ready button's state is the `ready` flag.
- The colours that `CheckForOtherShips()` (PlacingManager.cs:136-149) gives the ghost's parts are left out. The Dafny `CheckForOtherShips` models both overloads, which decide the same way.
- `GameManager.PlacingReady`, which `SetPlayer` calls for a computer player, is not part of this model.
- The `Instance` singletons, `Awake`, the `playfield` assignment, `layerToCheck`, the player type and `Playfield` are left out.
- `print` in `DebugGrid` is left out; `DebugGrid` returns the string instead.
- DebugGrid: the string is printed after every row; the model only states the final string.
- The tile type is not part of this model. `IsOccupied` is taken to be "kind is not Empty".
- The ghost-part script is not part of this model. `GhostBehavior.OverTile` and `GetTileInfo` become the `overTile` oracle and `Footprint`, and the oracle is assumed to pass only on-board cells (`OracleSound`).
- `UnityEngine.Random.Range` is replaced by caller-supplied `Attempt` draws. `indexList` is rebuilt as [0, 1, 2, 3] before every try, so the rotation index read from it is the raw draw; the model keeps only that draw. The `Remove` on the list is left out: the list is rebuilt before it is read again.
- AutoPlace: the source's `while (!posFound)` loop has no bound. The model bounds it by the supply of draws and returns false when they run out. The source would keep drawing forever.
- AutoPlace, PlaceKind, SearchPosition: the quota facts are lower bounds ("at least its quota"); the exact counts are those of `PlaceAll` and `PlaceCopies`. In the source a base position can place up to four ships, because the rotation loop does not stop after a success (`OneBasePositionCanPlaceFour`).
- CheckIfOccupied: requires an on-board cell. Out-of-range indices raise an exception in the source, and that exception is not modelled.
- PlaceShip, PlaceAutoShip, UpdateGrid: require the footprint to lie on the board. It is made of the tiles under the ghost's parts, so in the source it always does.
- ShipButton, ActivateShipGhost: require `index` to be an entry of the ship list (or -1 for `ActivateShipGhost`). The list indexer at PlacingManager.cs:174, 90 and 97 throws otherwise, and that exception is not modelled.
- RotateGhost, PlaceShip: require the selected kind `currentShip` to be an entry of the ship list. The list indexer at PlacingManager.cs:134 and 116 throws otherwise, and that exception is not modelled.
- PlaceShip: `Update` calls it only when "can place" is set (PlacingManager.cs:73), and that flag was computed by `PlaceGhost` before the ghost last moved. The model does not require the flag, so a placement over occupied tiles is not excluded.
- Ship identities: the `ids` of an `Attempt` and the `newShip` of `PlaceShip` are not required to be new or distinct, although each `Instantiate` in the source makes a new object. So the model does not state that the ship list holds distinct ships.
- Placing.PlacingManager.constructor: starts with the ready button off. The source never sets `readyButton.interactable` before `SetPlayer` turns it off, so this is an assumption about the scene.
- A ghost's shown state is the `ghostActive` flag, standing for `activeInHierarchy` and `SetActive`.
- Shots, turn switching, the AI opponent and the win check live in other scripts and are not part of this model.

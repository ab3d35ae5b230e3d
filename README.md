# A verified model of the PhysicsGame simulation core

PhysicsGame is a browser platformer in one script, `game.js`. This project
models its simulation core in Dafny and proves properties of that model. The
core consists of:

- the tile grid (`snapToGrid`) and the box overlap test (`isColliding`);
- the block-type table (colour, rigidity, collisions, collectables) and the
  player's inventory, an ordered map from block type to count;
- the player (`PhysicsObject`): keyboard velocity and jumps, the horizontal
  and vertical collision sweeps, the fall with respawn, the screen-edge scroll;
- blocks (`InteractableObject`): construction, `returnData`, coin and gem
  collection, and gravity with stacking on other blocks;
- sheep (`Sheep`): the wander state machine, the sweeps with the automatic
  hop, the turn at the screen edges, `damage`, `kill` and `returnData`;
- world generation: the random walk of column heights, biomes, the tile
  columns and the trees;
- the place, break and number-key select handlers;
- the data side of `saveData`, `copyData`, `loadWorldData` and `loadData`.

Layout, one module per file:

- `grid.dfy`: `Grid`, the tile size, `SnapToGrid` and `IsColliding`.
- `materials.dfy`: `Materials`, the `blocks` table and the inventory.
- `sweeps.dfy`: `Sweeps`, pure functions for one frame of the player, of a
  sheep and of block stacking. Each works over a value snapshot of the block
  list.
- `persistence.dfy`: `Persistence`, the saved records, keeping live entries,
  and the block the loaders rebuild from a record.
- `entities.dfy`: `Entities`, the classes `Block` and `Player`, plus
  `isSupported`.
- `animals.dfy`: `Animals`, the state machine and the class `Sheep`.
- `terrain.dfy`: `Terrain`, `generateHillyTerrain` and `generateTrees`.
- `game.dfy`: `Game`, the class `World` (the globals `objects` and `animals`
  and the player), the click handlers, save, export and both loaders.

Classes with loops are proved against the pure functions:

- Each frame method (`Player.Update`, `Sheep.Update`, `Block.Fall`) ends in
  exactly the state that `PlayerStep`, `SheepStep` or `StackStep` gives.
- The first-match loops are proved to stop at the index that `FirstStopX`,
  `FirstLanding`, `FirstSupport`, `FirstBreakable` or `FirstUnder` defines.

The properties proved are about those functions. They cover:

- flush stops;
- landing resets;
- the jump bound;
- staying on screen;
- grid alignment of everything generated;
- the save and load round trips, and where they fail;
- place then break.

Modelling choices:

- Positions and velocities are `real`.
- Every `Math.random()` draw is a parameter in [0, 1).
- The canvas width and height are parameters.
- Key presses are a `Keys` value.
- `localStorage` and world files are `Storage` and `WorldFile` values. A
  missing entry is `None`.

Behaviour of the code as written, modelled as such:

- Both loaders pass the saved `destroyed` into the constructor's `image`
  slot (game.js:1216, 1263). Reloaded blocks are therefore never destroyed,
  and they are snapped to the grid again (`Reloaded`).
- A missing `animals` entry makes the last loop of either loader throw. By
  then the player and the blocks were already replaced and the sheep list
  cleared (`FailedAfterLoad`).
- A missing `player` in a world file throws before anything changes
  (`Failed`).
- `copyData` writes neither the score nor the gems (`ExportThenLoadPlayer`).
- `loadData` ignores a saved score of 0 (`SaveThenLoadPlayer`).
- The tree chance comes from the biome current after the last column
  (game.js:944).
- The horizontal sweep takes the first qualifying block in list order, not
  the nearest one. A body can then end inside a nearer block
  (`FirstMatchIsNotNearest`).
- The strict overlap test keeps only pairs of flat boxes apart. A zero-size
  box inside another still collides with it (`PointInsideBoxCollides`).
- A right click places the tile in the cell that holds the point half a
  tile above the pointer. That is the pointer's own cell when the pointer is
  in its lower half, and the cell above otherwise (`PlacedCell`). The new
  tile can therefore miss the pointer (`PlaceCanMissPointer`).
- A tree's centre leaf sits on the same tile as its top trunk block
  (`TreeShape`).
- A click breaks the first breakable block in list order, and a placed
  block is appended last. A click on an edge the new tile shares with an
  older block therefore breaks the older one
  (`BreakHitsNeighbourOnSharedEdge`).

## Model

| member | source | states |
|---|---|---|
| Grid.SnapToGrid | game.js:1079-1081 | the result is a multiple of the tile size, at most the input and less than one tile below it |
| Grid.SnapIsGreatestGridPoint | game.js:1079-1081 | every grid point at or below the input is at or below the snapped value: snapping picks the greatest one |
| Grid.SnapUnique | game.js:1079-1081 | a grid point at or below the input by less than one tile is the snapped value: there is only one such point |
| Grid.SnapFixesGridPoints | game.js:1079-1081 | a value already on the grid is left unchanged |
| Grid.SnapIdempotent | game.js:1079-1081 | snapping twice is snapping once |
| Grid.SnapMonotone | game.js:1079-1081 | snapping preserves order |
| Grid.OnGridShift | game.js:10 | moving a grid point by a whole number of tiles keeps it on the grid |
| Grid.IsColliding | game.js:775-782 | two boxes whose spans meet in an interval of positive length along both axes collide; for boxes of positive size that is exactly when they collide |
| Grid.CollidingIffInteriorsMeet | game.js:775-782 | for boxes of positive size, `isColliding` holds exactly when their open interiors share a point (both directions) |
| Grid.CollidingSymmetric | game.js:775-782 | `isColliding(a, b)` equals `isColliding(b, a)` |
| Grid.PointInsideBoxCollides | game.js:775-782 | a zero-size box strictly inside another box collides with it |
| Grid.FlatBoxesNeverCollide | game.js:775-782 | two boxes both of zero width, or both of zero height, never collide |
| Materials.AllTypesComplete | game.js:25-39 | every block type is in the table, exactly once, in the table's order |
| Materials.Inventory.Take | game.js:992-995 | taking one of a type with a positive count lowers only that count, by one, keeps it non-negative, keeps the key order, and preserves well-formedness |
| Materials.Inventory.Give | game.js:1012 | giving one of a present type raises only that count, by one, keeps the key order and preserves well-formedness and non-negativity |
| Materials.GiveUndoesTake | game.js:992-1012 | giving back a block just taken restores the inventory exactly: counts and key order |
| Materials.Inventory.SlotFor | game.js:1035-1041 | number key d selects the key at position d-1 exactly when the inventory has more than d-1 keys, and that key is an inventory key |
| Materials.StartingInventory | game.js:78-82 | a new inventory has every type of the table in table order, ten dirt and zero of everything else |
| Sweeps.FirstStopX | game.js:116-150 | the index found is the first from the start that stops the body horizontally; no earlier block does |
| Sweeps.SweepX | game.js:116-155 | stopped: flush with the near edge of the first stopping block (drawn at x - scrollX), horizontal velocity zeroed; not stopped: the full move; the body never moves backwards or past its tentative position, and y, vy and the jump counter are untouched |
| Sweeps.SweepXStopsFlush | game.js:116-150 | after a stop the body does not overlap the block that stopped it |
| Sweeps.FirstMatchIsNotNearest | game.js:116-150 | with a far block listed before a nearer one, the sweep stops at the far one and the body ends inside the nearer one |
| Sweeps.SweepExample | game.js:124-135 | right edge at 100, a block's left edge at 103, velocity 5: the right edge ends at 103 with the horizontal velocity zeroed |
| Sweeps.FirstLanding | game.js:158-177 | the index found is the first block the falling body lands on; no earlier block qualifies |
| Sweeps.SweepY | game.js:158-177 | grounded exactly when some block is landed on; then the bottom rests on that block's top, vy and the jump counter are 0, and the body is neither lifted nor carried past nextY; otherwise the body is unchanged |
| Sweeps.PlayerFall | game.js:179-195 | without landing, y advances by vy; more than 10 below the canvas the player respawns at (100, 100) with vy and jumps reset; vx is kept |
| Sweeps.ClampToScreen | game.js:196-205 | a player at or past the left edge moving left is held at 0, and one at or past the right edge moving right is held at width - w; in both cases scrollX takes the velocity; otherwise nothing changes |
| Sweeps.PlayerStep | game.js:102-205 | one player frame scrolls the world by the final horizontal velocity or not at all, and keeps the jump counter or resets it to 0 |
| Sweeps.PlayerLandingGrounds | game.js:102-205 | when the landing sweep finds a block, the frame ends with vy = 0, jump counter 0 and the player's bottom on that block's top |
| Sweeps.PlayerFallsOrRespawns | game.js:102-205 | without a landing the player moves down by vy + gravity and keeps its jumps, or respawns at y = 100 at rest with jumps 0 (x = 100 when 100 is on screen) |
| Sweeps.PlayerStepKeepsJumpBound | game.js:102-205 | a frame either keeps the jump counter or resets it to 0, so the maxJumps bound survives every frame |
| Sweeps.PlayerMovesFreely | game.js:116-155 | with no stopping block, no respawn and no edge clamp, x advances by exactly vx |
| Sweeps.FirstSupport | game.js:411-446 | the index found is the first other live block that the falling block would overlap at nextY while no more than 5 below its top; no earlier block qualifies |
| Sweeps.StackStep | game.js:404-460 | a block never ends below the floor; it rests on the first supporting block at rest, is stopped at the floor at rest, or moves by its velocity (plus gravity unless rigid), case by case |
| Persistence.Constructed | game.js:332-360 | a constructed block is snapped to the grid (below the given position by less than a tile), keeps size, type and `destroyed`, and takes its colour from the table whatever colour was passed |
| Persistence.Reloaded | game.js:1214-1218 | a block rebuilt by a loader is never destroyed and keeps the saved type and size |
| Persistence.ReloadRoundTrip | game.js:1261-1265 | a saved live, grid-aligned record with its table colour is rebuilt exactly |
| Persistence.ReloadIdempotent | game.js:1261-1265 | rebuilding a rebuilt record changes nothing |
| Persistence.Kept | game.js:1086-1095 | the entries kept are no more than the list and all come from it |
| Persistence.KeptLength | game.js:1086-1095 | the number kept is the number of entries not dropped |
| Persistence.KeptContainsLive | game.js:1086-1095 | every entry not dropped is kept |
| Persistence.KeptAppend | game.js:1086-1095 | keeping distributes over concatenation, so the kept entries keep their order |
| Persistence.KeptAllLive | game.js:1086-1095 | with nothing dropped, everything is kept |
| Persistence.KeptPrefix | game.js:1086-1090 | one more loop pass adds exactly the next entry if it is live |
| Persistence.LiveRecords | game.js:1086-1090 | every saved block record comes from the list and is not destroyed |
| Persistence.LiveRecordsAreLive | game.js:1086-1090 | no kept record is destroyed |
| Persistence.LiveRecordsIdempotent | game.js:1086-1090 | saving an already compacted list changes nothing |
| Persistence.ReloadAllWellFormed | game.js:1261-1265 | whatever was saved, every rebuilt block is live, on the grid and coloured by the type table, and keeps its record's type, width and height |
| Persistence.SaveReloadRoundTrip | game.js:1083-1101 | save then load of a world whose live blocks lie on grid lines gives back exactly the live blocks, in order |
| Persistence.ReloadAllLive | game.js:1261-1265 | reloading never yields a destroyed block, whatever was saved |
| Entities.Block.constructor | game.js:332-360 | the new block's record is `Constructed` of the arguments; colour, rigidity and collisions come from the table; it starts at rest |
| Entities.Block.Destroy | game.js:390-392 | the block is marked destroyed |
| Entities.Block.OnInteract | game.js:382-388 | a coin or gem is destroyed and adds one to the score or to the gems respectively; other types change nothing |
| Entities.Block.CheckCollision | game.js:367-380 | a live coin or gem touched by the player is destroyed; a coin adds one to the score and leaves the gems, a gem adds one to the gems and leaves the score; anything else changes neither |
| Entities.Block.Fall | game.js:404-460 | the block's new y and vertical velocity are `StackStep` of the list as it was, so it never ends below the floor |
| Entities.Block.GroundOrFall | game.js:447-460 | a block that would pass the floor rests on it at rest, any other block falls by its velocity, as `OntoFloor` |
| Entities.Block.ReturnData | game.js:362-364 | a block that keeps the type table's invariant saves a record in its type's colour at a grid column |
| Entities.RecordsOfValid | game.js:362-364 | blocks that keep the type table's invariant save grid-aligned records in their types' colours |
| Entities.Block.StackOnto | game.js:411-446 | the stacking loop leaves the block on the first supporting block, at rest, or where it was |
| Entities.IsSupportedFromMeaning | game.js:762-773 | the scan from an index succeeds exactly when a later other live block is directly underneath, or the block stands on the floor |
| Entities.IsSupported | game.js:762-773 | `isSupported` holds exactly when some other live block is directly underneath, overlapping horizontally, or the block's bottom is the canvas bottom |
| Entities.InputVelocity | game.js:88-92 | left gives a negative velocity and wins over right, right alone a positive one, neither gives 0; the speed is 6.4, or 9.6 with shift |
| Entities.Player.constructor | game.js:56-85 | a new player is at rest at the given position, with no jumps used, maxJumps 1, score and gems 0, the starting inventory and dirt selected |
| Entities.Player.HandleInput | game.js:87-100 | vx follows the keys; a jump key below the jump cap sets vy to -jumpStrength, counts the jump and clears both jump keys; otherwise vy, the counter and the keys are unchanged |
| Entities.Player.Update | game.js:102-205 | the new position, velocities, jump counter and scrollX are `PlayerStep` of the old state and the block list; the jump bound is kept |
| Entities.Player.MoveX | game.js:104-155 | gravity then the horizontal sweep, as `PlayerAfterX` |
| Entities.Player.Settle | game.js:157-195 | the landing sweep then the fall, as `PlayerSettle`; the jump bound is kept |
| Entities.Player.FallOrRespawn | game.js:179-195 | the player falls by vy, or respawns at (100, 100) at rest, as `PlayerFall` |
| Entities.Player.KeepOnScreen | game.js:196-205 | the screen-edge clamp, as `ClampToScreen` |
| Entities.Player.ResolveX | game.js:113-155 | the side-collision loop ends in `SweepX` of the old state |
| Entities.Player.ResolveY | game.js:157-177 | the landing loop ends in `SweepY` of the old state; grounded resets the jump counter, otherwise it is unchanged |
| Animals.Speed | game.js:630-636 | idle means velocity 0; left means -2; right means 2 |
| Animals.Countdown | game.js:610-627 | while the countdown runs it only goes down by one; when it has run out it restarts at the drawn duration less one, an idle sheep walks in the drawn direction and a walking sheep stops, and the flags match the new state |
| Animals.SheepFall | game.js:712-722 | without a landing the sheep falls by vy; more than 10 below the canvas it reappears at x = 100 just above the top, keeping its velocities |
| Animals.EdgeTurn | game.js:725-740 | a sheep past the left edge is put at 0, faces right for 100 frames; past the right edge it is put against it, faces left; on screen nothing changes; on a wide enough canvas the sheep ends on screen |
| Animals.SheepMoveVelocity | game.js:603-710 | the state follows the countdown; vx is the state's speed unless a block stops the sheep, then 0; a grounded sheep that is stopped hops (jump counter 1, vy = -jumpStrength) |
| Animals.SheepStaysOnScreen | game.js:603-740 | on a canvas at least as wide as the sheep, a frame leaves it on screen, and one that left by the left edge faces right for 100 frames |
| Animals.Sheep.constructor | game.js:508-531 | a new sheep is 80 by 60 at the given position, at rest, health 3, not killed, idle with an expired countdown |
| Animals.Sheep.Kill | game.js:591-601 | the sheep is marked killed (it stays in the list) |
| Animals.Sheep.Damage | game.js:580-585 | health goes down by the damage; the sheep is killed exactly when it was already killed or health is now at most 0 |
| Animals.Sheep.Update | game.js:603-740 | the new position, velocities, jump counter and `moving` record are `SheepStep` of the old state, the block list and the two draws |
| Animals.SheepStep | game.js:603-740 | one sheep frame never raises the jump counter by more than the one hop, and the idle flag always follows `Countdown` |
| Animals.Sheep.ReturnData | game.js:587-589 | the saved record is the position alone; the constructor's contract gives back `SheepRecord(x, y)` for a sheep built at (x, y) |
| Animals.Sheep.Move | game.js:603-722 | everything before the edge checks, as `SheepMove` |
| Animals.Sheep.MoveX | game.js:604-690 | gravity, the countdown and the side loop with the hop, as `SheepMoveX` |
| Animals.Sheep.MoveY | game.js:692-722 | the landing loop and the fall, as `SheepMoveY` |
| Animals.Sheep.StartFrame | game.js:604-636 | gravity, then `Countdown`, then the velocity of the new state |
| Animals.Sheep.FallOrRespawn | game.js:712-722 | as `SheepFall` |
| Animals.Sheep.ResolveX | game.js:638-690 | the side loop ends in `SweepX` of the old body, followed by the hop when a block stopped it; `moving` is untouched |
| Animals.Sheep.ResolveY | game.js:692-710 | the landing loop (touching counts) ends in `SweepY` of the old body; `moving` is untouched |
| Animals.Sheep.TurnAtEdges | game.js:725-740 | as `EdgeTurn` |
| Terrain.StartHeight | game.js:856 | the first height is on the grid |
| Terrain.StartHeightInBand | game.js:856 | the first height lies between the grid line at or below minHeight and maxHeight |
| Terrain.NextHeight | game.js:859-863 | each new height is on the grid |
| Terrain.NextHeightInBand | game.js:858-867 | with a smoothness between 0 and 1, a height in the band yields one in the band |
| Terrain.WalkInBand | game.js:858-867 | every height of the walk is on the grid, and in the band when the start is |
| Terrain.GenerateHeights | game.js:853-867 | the height loop produces the walk `Walk` of the draws |
| Terrain.RandomBiome | game.js:838-841 | biome i of the five is returned exactly when the draw lies in [i/5, (i+1)/5) |
| Terrain.BiomeKeptWithoutSwitch | game.js:902-904 | with no switch draw below 0.1 every column keeps the first biome |
| Terrain.RowCount | game.js:907 | the row loop visits exactly the rows above the bottom of the canvas |
| Terrain.TileKind | game.js:908-919 | the surface row gets the biome's surface type, more than 8 tiles below it stone, and every tile is the surface type, stone or the underground type |
| Terrain.Column | game.js:907-940 | a column has one block per row visited; its shape is `ColumnShape` |
| Terrain.ColumnShape | game.js:907-940 | a column has one tile per row from the surface down to the canvas bottom, at the column's x; the top tile has the biome's surface type; deeper than 8 tiles, or in the bottom two rows, stone; else the underground type |
| Terrain.FillColumn | game.js:907-940 | the row loop produces `Column`, and records a surface tile exactly when the surface is above the canvas bottom |
| Terrain.SurfaceTiles | game.js:912 | at most one surface tile per column |
| Terrain.SurfaceTilesOnePerColumn | game.js:869-941 | with every surface above the canvas bottom and on the grid, column i gives exactly one surface tile, at (i * 32, height i) |
| Terrain.GenerateColumns | game.js:869-941 | the column loop produces `Columns`, `SurfaceTiles` and the biome after the last switch |
| Terrain.TreeHeight | game.js:798 | the tree height is between 4 and 10, and is 4 + floor(7 r) |
| Terrain.TreeShape | game.js:795-831 | a tree of height h is h wood blocks straight up from its tile then nine leaves; the centre leaf lies on the top trunk block; on a grid tile every block is on the grid |
| Terrain.PlantTree | game.js:800-831 | the trunk and leaf loops produce `TreeBlocks` |
| Terrain.MaybePlantTree | game.js:795-832 | one loop pass extends the trees of the tiles before to those including this tile |
| Terrain.TreeAt | game.js:795-831 | the tree of one tile is made of wood and leaf blocks only |
| Terrain.Trees | game.js:795-833 | the trees of the first n tiles are made of wood and leaf blocks only |
| Terrain.TreeAtSize | game.js:795-832 | one tile gets at most 19 blocks, and none with a chance of 0 or less |
| Terrain.TreesSize | game.js:795-833 | n tiles get at most 19 n blocks, and none with a chance of 0 or less |
| Terrain.GenerateTrees | game.js:788-834 | the loop produces `Trees` of the tiles and draws |
| Terrain.GenerateHillyTerrain | game.js:843-945 | all blocks in creation order: the columns left to right, then the trees with the chance of the biome current at the end |
| Terrain.HillyTerrain | game.js:843-945 | every block of the terrain, in creation order: the columns left to right, then the trees with the chance of the biome current at the end; `TerrainOnGrid` and `TerrainSurface` state its properties |
| Terrain.ColumnsOnGrid | game.js:869-941 | every column block is on the grid |
| Terrain.SurfaceTilesOnGrid | game.js:912 | every surface tile is on the grid |
| Terrain.TreesOnGrid | game.js:795-833 | trees on grid tiles are on the grid |
| Terrain.TerrainOnGrid | game.js:843-957 | every generated block is on the grid |
| Terrain.TerrainSurface | game.js:843-957 | on a canvas at least four tiles high, all 150 heights lie in the band and column i gives exactly one surface tile, at its top |
| Game.FirstBreakable | game.js:1005-1014 | the index found is the first live block under the pointer whose type is an inventory key; no earlier one qualifies |
| Game.FirstUnder | game.js:1016-1024 | the index found is the first sheep under the pointer; no earlier one is |
| Game.PlacedRecord | game.js:987-996 | the placed block is a live grid tile of the selected type whose column holds the pointer's x and whose top is half a tile to a tile and a half above the pointer's y |
| Game.PlaceThenBreak | game.js:987-1014 | after a placement, a click at the same point breaks the placed block and the inventory comes back to what it was when no earlier breakable block is under the pointer; otherwise it breaks that earlier block, the same one as before the placement |
| Game.PlacedUnderPointer | game.js:987-996 | a tile placed at a pointer not below its bottom edge is breakable at that pointer while its type is in the inventory |
| Game.FirstBreakableAppend | game.js:1005-1014 | appending a record never changes which earlier block a click breaks; the appended one is found only when none before it qualifies |
| Game.BreakHitsNeighbourOnSharedEdge | game.js:987-1014 | a dirt tile placed at (32, 90) beside a stone tile at (0, 64) lands at (32, 64), and a click at (32, 90) breaks the stone |
| Game.PlacedCell | game.js:987-996 | with the pointer in the lower half of its cell the tile lands in that cell; in the upper half, in the cell above |
| Game.PlaceCanMissPointer | game.js:987-996 | a tile placed with the pointer at y = 100 spans 64 to 96 and does not contain the pointer |
| Game.StoredPlayer | game.js:1241-1257 | without saved player, gems or inventory the defaults (100, 100), 0 and `{}` are used, and the current score is kept |
| Game.FilePlayer | game.js:1201-1210 | the score and gems are unchanged; a missing position means (100, 100), a missing inventory `{}` |
| Game.SaveThenLoadPlayer | game.js:1241-1257 | saving then loading restores the player, except that a saved score of 0 leaves the current score |
| Game.ExportThenLoadPlayer | game.js:1116-1126 | exporting then loading restores position and inventory only; score and gems stay |
| Game.SaveThenLoadWorld | game.js:1083-1272 | a full save and load of a world whose live blocks lie on grid lines loads fully and gives back every live block and every live sheep, in order |
| Game.BuiltTiles | game.js:924-931 | every generated block is a live tile of its placement's type, snapped to the grid cell holding the placement, coloured by the type table |
| Game.BuiltAppend | game.js:924-939 | building a list one more placement long appends that placement's block |
| Game.TerrainSurvivesReload | game.js:1261-1265 | generated terrain is saved and reloaded unchanged |
| Game.World.constructor | game.js:49 | the game starts with no blocks and no sheep |
| Game.World.Place | game.js:987-996 | with a positive count of the selected type a new block `PlacedRecord` is appended and that count drops by one; otherwise nothing changes |
| Game.World.Break | game.js:1000-1025 | the first breakable block under the pointer is destroyed and its type's count rises by one; the first sheep under the pointer loses one health and dies at 0 or less; nothing else changes |
| Game.World.BreakBlock | game.js:1005-1015 | the block loop destroys exactly the first breakable block and credits its type; the sheep are untouched |
| Game.World.HitSheep | game.js:1016-1024 | the sheep loop damages exactly the first sheep under the pointer; the blocks are untouched |
| Game.World.SelectSlot | game.js:1035-1041 | key d selects the inventory's key d - 1 when it exists; otherwise the selection stays |
| Game.World.LiveObjectData | game.js:1086-1090 | the records of the blocks not destroyed, in order |
| Game.World.LiveAnimalData | game.js:1091-1095 | the records of the sheep not killed, in order |
| Game.World.SaveData | game.js:1083-1101 | the five autosave entries: live blocks, live sheep, position and score, inventory, gems |
| Game.World.CopyData | game.js:1103-1128 | the exported file: live blocks, live sheep, position and inventory, without score or gems |
| Game.World.RebuildObjects | game.js:1212-1218 | `objects` becomes one fresh, never destroyed block per record, in order |
| Game.World.RebuildBlock | game.js:1212-1218 | one pass of the loop appends one fresh block, extending the records by the next record reloaded |
| Game.World.RebuildAnimals | game.js:1219-1223 | `animals` becomes one fresh sheep per record, in order, each with full health |
| Game.WorldFileOutcome | game.js:1184-1225 | a world file loads fully exactly when it is there, confirmed, and has blocks, player and sheep; it is skipped exactly when absent, declined or without blocks; it fails after loading only with a player and no sheep |
| Game.StorageOutcome | game.js:1227-1272 | saved data loads fully exactly when blocks and sheep are stored, is skipped exactly when no blocks are, and never fails before the blocks load |
| Game.World.LoadWorldData | game.js:1184-1225 | the outcome follows the data and the confirmation; skipped or failed loads change nothing; otherwise the player takes the file's position and inventory and the blocks are rebuilt; sheep are rebuilt only when the file has them, else left empty |
| Game.World.LoadData | game.js:1227-1272 | with no saved blocks nothing changes; otherwise the player is restored with defaults and the blocks are rebuilt; without saved sheep the list is left empty |
| Game.World.RestorePlayer | game.js:1241-1257 | the player part of `loadData`, as `StoredPlayer` |
| Game.World.GenerateHillyTerrain | game.js:843-957 | one fresh block per generated placement is appended to `objects`, in order; the blocks already there stay |
| Game.World.AddBlocks | game.js:924-939 | the block loop appends one fresh block per placement, in order |
| Game.World.AppendBlock | game.js:924-939 | one pass of the loop appends one fresh block, extending the records by the built tile of the next placement |

## Left out

- Drawing, limb animation, the hotbar, images, the mouse-wheel handler and
  the clipboard are left out: they produce no game state.
- Setting the key flags in `keydown` and `keyup`, `resetData` and the "new
  object" form are left out. Key state is a parameter of `HandleInput`.
- JSON, `localStorage` and file reading are left out. Their contents are
  modelled as `Storage` and `WorldFile` values, with a missing entry as
  `None`.
- The frame loop's order of calls (game.js:1277-1308) is not modelled; each
  step is modelled on its own.
- `spawnAnimals` is left out: its count is random and it only builds sheep
  with the modelled constructor.
- `scroll.horizontal`, `scroll.vertical` and `scroll.horizontalAbs` are only
  ever 0. They are dropped, so `100 - scroll.horizontalAbs` is 100.
- Integer widths do not apply: the script uses JavaScript numbers, which
  are modelled as unbounded `real`s. Rounding of floating point is not
  modelled.
- Entities.Block.Fall: models lines 404-460 as if the block update reached them and
  ran to its end. As written, line 396 reads the implicit global `obj` that
  `saveData`'s loop last assigned, which is the last block of the list.
  Line 397 then skips every block when that block is off screen. Line 464
  assigns to the `const` `drawX`, which throws a `TypeError`; the top-level
  `catch` alerts it and rethrows, so the frame loop stops.
- The off-screen cull (game.js:396-397) and the push (game.js:463-490) are
  left out. No block type is `"object"`, so `movable` is never true and the
  push never applies.
- Entities.Block.CheckCollision: takes the block's screen x as a parameter rather
  than computing it from the global `obj`.
- The block fields `collected`, `velocityX`, `accelerationY`, `movable` and
  `image` are not modelled. None of them changes the modelled behaviour:
  `accelerationY` always equals gravity.
- Entities.Player.Update: the scroll-reset test at game.js:208-210 only writes a field
  that is always 0, and is left out.
- Animals.Sheep.Kill: `delete animals[this]` deletes a property named after the
  object's string form, which no sheep list has, so it changes nothing and is
  left out.
- Game.World.LoadData: `Number(gems)` of a malformed saved string gives
  `NaN`. The model treats the saved gems as a well-formed integer.
- Game.World.LoadWorldData: the confirmation prompt's answer and the file
  name are parameters or left out. The JSON parse error path of the file
  reader is not modelled.
- An inventory loaded from a file is taken as given;
  its well-formedness is not checked, as in the source.
- Persistence.Constructed: saved and inventory types are assumed to come
  from the `blocks` table, because records and inventory keys are typed
  `BlockType`. The constructor's other two cases (game.js:356-359) are not
  modelled. A record with no `type` keeps its saved colour and is not
  rigid. A record with a type outside the table throws a `TypeError` at
  `blocks[this.type].color`.
- Game.World.LoadWorldData: a record with a type outside the table would
  throw partway through the block loop, after `objects` and `animals` were
  cleared (game.js:1212-1213). That partial load is not modelled.
- Game.World.LoadData: the same partial load on a foreign type
  (game.js:1259-1260) is not modelled.
- Game.WorldFileOutcome: the "exactly when" of its outcomes holds for files
  whose block types all come from the table.
- Game.StorageOutcome: the "exactly when" of its outcomes holds for saved
  data whose block types all come from the table.

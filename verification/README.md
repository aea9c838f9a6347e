# Grid simulation engine of a tile-based digging game

This project models the core of the game's `GameLoop`:

- **Data.** Two tile arrays, the foreground and the background.
- **World generation.** Stone, ore or dirt is chosen per ground cell by depth tier. Then upgrade pickups are scattered, the stone footing of the fuel station is laid, and the player is placed at the spawn column.
- **Per-frame state machine.** Each frame runs in order:
  1. input axes reduced to one direction;
  2. the drilling gate, drill timer and tile break, with upgrade effects;
  3. one-cell movement;
  4. gravity;
  5. fuel consumption and refuelling;
  6. the timers.

The model is written in Dafny in three modules:

- `Tiles` (`tiles.dfy`): the tile vocabulary, the tile catalog, the settings, the fuel-bar and fuel-station collaborators, and grid directions.
- `WorldGeneration` (`generation.dfy`): a value-level specification of every cell once generation is done, as a function of the settings and of the random draws.
- `Game` (`game_loop.dfy`):
  - the class `GameLoop`, holding both tile arrays as `array2<ObjectType>` and the player and drill state as fields;
  - one method per step of the frame;
  - pure specification functions that the methods are proved against:
    - `DrillGateStep` for the drilling gate (Game/GameLoop.cs:130-161);
    - `MinedTileEffect` for upgrade pickups (Game/GameLoop.cs:180-200);
    - `GeneratedTile` for generation (Game/GameLoop.cs:306-356), built from `FilledTile`, the per-cell stone, ore or dirt choice (Game/GameLoop.cs:313-332);
    - `HasGroundUnder`, the ground-under test (Game/GameLoop.cs:136);
    - `FuelAfterConsumption`, the three stacked consumptions of one frame (Game/GameLoop.cs:254-256).

The central invariant is `GameLoop.Valid()`: exactly one foreground cell holds the player, and it is the player's own cell. The constructor establishes it, and every step of the frame preserves it.

Random draws and the weighted ore randomizer are inputs (`WorldDraws`). The fuel bar's `ChangeFuel` and `Refuel` and the fuel station's refill-point test are given functions (`Collaborators`). Rendering, sound, camera, HUD and animation states are not modelled.

Two behaviours of the code that the model keeps:

- **No dirt fallback for ore.** When no ore type has a bracket at a depth, the ore randomizer is empty. `GenerateWorld` (Game/GameLoop.cs:328-329) still samples it and places the hardness variant of whatever it returns. The model therefore leaves the ore pick unconstrained when the randomizer has no entries (`OrePicksFit`, `GroundCellMaterial`).
- **Drill switched off mid-drill.** `UpdateDrilling` returns before the gate when the drill is off (Game/GameLoop.cs:128), so `startedDrilling` stays set. While it stays set, the drill timer keeps running (`UpdateTimers`) and drilling fuel keeps being charged (`UpdateFuel`).

## Model

| member | source | states |
|---|---|---|
| Tiles.ConstrainToOneAxis | Game/GameLoop.cs:59-66 | the result has at most one non-zero component and is zero exactly when the input is; a pressed vertical component wins, otherwise the input is kept |
| WorldGeneration.HardnessTier | Game/GameLoop.cs:310 | tier 2 exactly when the ground depth exceeds the hard threshold, 1 exactly when it exceeds the medium threshold but not the hard one, 0 otherwise |
| WorldGeneration.HardnessTierMonotone | Game/GameLoop.cs:310 | the tier never decreases with depth, for any thresholds |
| WorldGeneration.FirstBracketIndex | Game/GameLoop.cs:320 | the index found is the first bracket holding the depth; none exactly when no bracket holds it |
| WorldGeneration.OreCandidates | Game/GameLoop.cs:317-326 | the randomizer gets no more entries than there are ore rules |
| WorldGeneration.OreCandidatesExact | Game/GameLoop.cs:317-326 | every randomizer entry comes from an ore rule's first matching bracket, and every ore with a matching bracket has its entry |
| WorldGeneration.OreCandidatesDistinct | Game/GameLoop.cs:318-325 | when the ore types are distinct, as the keys of the ore dictionary are, the randomizer holds at most one entry per ore type |
| WorldGeneration.LastUpgradeIndex | Game/GameLoop.cs:344-347 | the index found is the last pickup landing on the cell; none exactly when no pickup lands there |
| WorldGeneration.LastUpgradeAt | Game/GameLoop.cs:336-347 | a pickup type on a cell is one of the configured upgrade types; none exactly when no pickup lands there |
| WorldGeneration.GeneratedWorldHasOnePlayer | Game/GameLoop.cs:306-356 | after generation the spawn cell above the surface holds the player and no other cell does |
| WorldGeneration.UpgradesLieBelowSurface | Game/GameLoop.cs:337-340 | a sanity check that follows directly from the assumed draw ranges: pickups land only inside the grid and strictly below the surface row |
| WorldGeneration.GroundCellMaterial | Game/GameLoop.cs:307-353 | a ground cell that is neither a pickup nor footing holds, in its tier's variant, stone, dirt, or an ore whose configured brackets hold its depth; only when no ore has such a bracket can it hold the unconstrained pick |
| Game.MinedTileEffect | Game/GameLoop.cs:180-200 | an error exactly for a configured upgrade type without an effect; a non-upgrade changes nothing; each known upgrade applies its one multiplier; the room left in the tank is kept |
| Game.DrillGateStep | Game/GameLoop.cs:130-161 | drilling continues exactly when permission (kept or granted by movement) holds, the target is not stone, the direction is non-zero and not up, the player has ground under it and the target is drillable; permission is lost whenever drilling stops; the timer restarts on a new direction or a fresh start |
| Game.GameLoop.constructor | Game/GameLoop.cs:42-50 | both grids are fresh, every foreground cell holds its generated tile, the background holds `Background` from the surface row down and `Empty` above, the invariant holds, the player is at the spawn cell, and drill, timers, score and refills start from their initial values |
| Game.GameLoop.OreRandomizerEntries | Game/GameLoop.cs:317-326 | the loop adds exactly the randomizer entries of the specification, in configuration order |
| Game.GameLoop.GenerateWorld | Game/GameLoop.cs:306-356 | every foreground cell ends as its generated tile and the background is filled below the surface |
| Game.GameLoop.FillGround | Game/GameLoop.cs:307-334 | every ground cell gets its filled tile and the background fill; the air rows are untouched |
| Game.GameLoop.FillColumn | Game/GameLoop.cs:308-333 | one column's ground cells get their filled tiles and background; other columns are untouched |
| Game.GameLoop.PlaceUpgrades | Game/GameLoop.cs:344-347 | each cell holds the type of the last pickup written to it, or what it held before |
| Game.GameLoop.LayFooting | Game/GameLoop.cs:349-352 | the first four surface cells become stone and nothing else changes |
| Game.GameLoop.Update | Game/GameLoop.cs:52-79 | the frame keeps the one-player invariant, and it fails only on a configured upgrade type without an effect |
| Game.GameLoop.UpdateDrilling | Game/GameLoop.cs:122-209 | the drill toggles; with the drill off or the movement target out of range nothing else changes; otherwise the drilling step holds |
| Game.GameLoop.DrillStep | Game/GameLoop.cs:130-208 | the session follows the gate step; once the timer is out, the target's score and fuel are collected, the player steps into it, drilling stops and the pickup takes effect; otherwise grid, score and upgrades are unchanged |
| Game.GameLoop.UpdateDrillGate | Game/GameLoop.cs:130-161 | the drill session becomes exactly what the gate step gives for the target cell |
| Game.GameLoop.FinishDrilling | Game/GameLoop.cs:164-208 | a break happens exactly when drilling is on and the timer is out; the drill direction is recorded unless the pickup failed |
| Game.GameLoop.BreakTile | Game/GameLoop.cs:164-206 | score and fuel grow by the tile's catalog amounts, the player steps into the target, both drilling flags clear, the pickup effect applies or the step fails |
| Game.GameLoop.ApplyPickup | Game/GameLoop.cs:179-200 | the upgrade fields become the pickup effect, or stay as they were when the step fails |
| Game.GameLoop.MovePlayerTo | Game/GameLoop.cs:167-170 | the old player cell becomes empty, the target holds the player, no other cell changes and the invariant is kept |
| Game.GameLoop.UpdateMovement | Game/GameLoop.cs:211-229 | a move happens exactly when the direction is non-zero, the target is in range and empty and nothing was broken this frame; any non-zero attempt resets the idle time and the gravity countdown |
| Game.GameLoop.UpdateGravity | Game/GameLoop.cs:231-246 | once idle past the threshold with the countdown out, the player falls exactly when the cell below is in the grid and empty, and the countdown restarts |
| Game.GameLoop.UpdateFuel | Game/GameLoop.cs:248-261 | a refill is used exactly when the player is on the refill point, pressed refuel and has one left; the three consumptions are charged in order; play stops once the fuel is gone and never restarts |
| Game.GameLoop.UpdateTimers | Game/GameLoop.cs:263-273 | the idle time advances by the frame time; the gravity countdown runs only once the idle time is past the threshold; the drill timer runs only while drilling |

## Left out

- Rendering, HUD, camera, sound, animation states and the drill progress indicator: these are output only. They are `DrawHud`, `UpdateCamera`, `InitializeSceneObjects`, the render methods and the sound and animation calls in the steps.
- Input polling and `Time.deltaTime`: they become parameters of `Update`. The movement axis, drill axis, drill and refuel presses and the elapsed time are given per frame.
- Player position as a float sprite position converted to the grid: the model keeps the grid cell itself. Each move is exactly one cell, so the conversion returns the cell moved to.
- Floating-point arithmetic: modelled as exact `real`, with no rounding.
- The weighted randomizer, `Rand.Value` and `Rand.Range`: modelled as the draw inputs in `WorldDraws`. Every `Rand.Range` draw lies in the range the code asks for, and an ore pick is one of the randomizer's entries whenever the randomizer has any. The spawn-type draw (`Rand.Value`, Game/GameLoop.cs:313) is left unbounded, which only makes the model more general.
- Sampling from an empty randomizer: its result is unconstrained. The randomizer's code is not part of this model.
- `FuelBar.ChangeFuel` and `FuelBar.Refuel`: modelled as given functions, because their code is not part of this model. So is the fuel station's refill-point test. Its refill counter is the field `refillsLeft`.
- `FuelStation.CanPlayerRefill` and `FuelStation.ReduceRefillsLeft` (Game/GameLoop.cs:249-251): their code is not part of this model. They are read as `refillsLeft > 0` and as decrementing `refillsLeft` by one. `UpdateFuel`'s "has one left" and its refill count rest on that reading.
- The visibility system: modelled only as its scale factor.
- Dictionary lookups in the tile catalog that could throw for a missing key: the catalog is modelled as total functions.
- The default contents of a new C# enum array: assumed to be `Empty`. The declaration of the tile enumeration is not part of this model, so this is an assumption that `Empty` is its default (zero) value.
- `UpgradeTypes` empty while `UpgradeCount` is positive: the code would index an empty list. The draws' type indices must lie in range (`UpgradeDrawsFit`), so this case is outside the model.
- Game/GameOver.cs and Game/World.cs: not part of the core.
- Game.GameLoop.Update: after an unknown upgrade type, the code throws out of the frame. The model returns `Fail` with the state as it was at the throw, and states only the invariant and the failure condition. The effects of each step are stated by the contracts of the step methods, which `Update` calls in the order Game/GameLoop.cs:73-77 calls them. Composing all five into one postcondition is left to those contracts, to keep each proof small.
- Game.GameLoop.UpdateDrilling: the precondition `DrillTargetInRange` requires the drill target to be inside the grid whenever the code would index it. The code does not check this bound, so an out-of-grid target is a crash the model excludes rather than models.
- Game.GameLoop.UpdateDrilling: the drill toggle is stored after the drilling step rather than before it. Nothing in between reads it, so the resulting state is the same.
- `FuelBar.FuelAmount` and `FuelBar.FuelCapacity`: read and written as plain fields (`fuelAmount`, `fuelCapacity`) by the catalog fuel gain and the capacity upgrade (Game/GameLoop.cs:166, 192-194). Their property code is not part of this model, so any clamping of the amount to the capacity in their setters is not modelled. `MinedTileEffect`'s "room left in the tank is kept" rests on this plain-field reading.
- `Settings.WellFormed`: the model requires at least one air row (`topOffset >= 1`) and at least one ground row (`depth >= 1`). Otherwise the spawn write and the footing writes (Game/GameLoop.cs:351, 355) index outside the grid; that crash is excluded, not modelled.
- `DrawsFit`: the spawn column must satisfy `6 <= spawn < width - 1`, the range `Rand.Range(6, TilesHorizontal - 1)` asks for (Game/GameLoop.cs:354). It therefore needs a grid at least 8 columns wide. What `Rand.Range` returns for an empty range is not part of this model, so narrower grids are excluded.
- Game.GameLoop.constructor: it requires `CatalogAvoidsPlayer`, meaning no hardness variant is `Player` and `Player` is not an upgrade type. Without that, generation could place a second player cell, and the one-player invariant would not hold from the start. The catalog's contents are not part of this model.
- `BetweenInclusive`: the bracket test `y.BetweenInclusive(FromY, ToY)` (Game/GameLoop.cs:320) is read as `FromY <= y <= ToY`. The extension's code is not part of this model.
- Game.GameLoop.BreakTile: `Score` is modelled as an unbounded integer. The source's `int Score` (Game/GameLoop.cs:12, 165) wraps around at 32 bits on overflow, and the model does not capture that wrap.
- `OreDepthSpawning` is a dictionary whose keys are distinct ore types (Game/GameLoop.cs:318). The model holds it as a sequence of rules in the order the keys are enumerated, and distinct keys are assumed only where `OreCandidatesDistinct` states it (`DistinctOres`).
- `UpgradeDrawsFit`: pickup rows are drawn by `Rand.Range(TopOffset + 1, TilesVertical)` (Game/GameLoop.cs:339). With a single ground row (`depth == 1`) and a positive `upgradeCount`, that range is empty. No draws then satisfy `DrawsFit`, so this configuration is excluded rather than modelled. What `Rand.Range` returns for an empty range is not part of this model.

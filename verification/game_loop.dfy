/** The grid simulation: world generation into the two tile arrays, and the
    per-frame state machine (drilling, movement, gravity, fuel, timers) that
    works on the foreground array and the player's scalar state. */
module Game {
  import opened Tiles
  import opened WorldGeneration

  datatype GameError = UnknownUpgradeType(tile: ObjectType)

  datatype Outcome = Pass | Fail(error: GameError)

  datatype Result<T> = Ok(value: T) | Err(error: GameError)

  /** The four quantities an upgrade pickup can change. */
  datatype Upgradeables = Upgradeables(drillSpeed: real, visibilityScale: real, fuelCapacity: real, fuelAmount: real)

  /** The effect of having mined `mined`: a configured upgrade type applies
      exactly one multiplier, a capacity upgrade also adds the capacity gained
      to the fuel held, an upgrade type the game does not know is an error,
      and any other tile changes nothing. */
  function MinedTileEffect(s: Settings, mined: ObjectType, u: Upgradeables): (r: Result<Upgradeables>)
    ensures r.Err? <==> mined in s.upgradeTypes && !IsKnownUpgrade(mined)
    ensures r.Err? ==> r.error == UnknownUpgradeType(mined)
    ensures mined !in s.upgradeTypes ==> r == Ok(u)
    ensures r.Ok? && mined == DrillingSpeedUpgrade && mined in s.upgradeTypes ==>
              r.value == u.(drillSpeed := u.drillSpeed * s.drillSpeedUpgradeMultiplier)
    ensures r.Ok? && mined == ViewDistanceUpgrade && mined in s.upgradeTypes ==>
              r.value == u.(visibilityScale := u.visibilityScale * s.viewDistanceUpgradeMultiplier)
    ensures r.Ok? && mined == FuelCapacityUpgrade && mined in s.upgradeTypes ==>
              && r.value.drillSpeed == u.drillSpeed && r.value.visibilityScale == u.visibilityScale
              && r.value.fuelCapacity == u.fuelCapacity * s.fuelCapacityUpgradeMultiplier
    // the room left in the tank is the same before and after any upgrade
    ensures r.Ok? ==> r.value.fuelCapacity - r.value.fuelAmount == u.fuelCapacity - u.fuelAmount
  {
    if mined !in s.upgradeTypes then Ok(u)
    else match mined
      case DrillingSpeedUpgrade => Ok(u.(drillSpeed := u.drillSpeed * s.drillSpeedUpgradeMultiplier))
      case ViewDistanceUpgrade => Ok(u.(visibilityScale := u.visibilityScale * s.viewDistanceUpgradeMultiplier))
      case FuelCapacityUpgrade =>
        var capacity := u.fuelCapacity * s.fuelCapacityUpgradeMultiplier;
        Ok(u.(fuelCapacity := capacity, fuelAmount := u.fuelAmount + (capacity - u.fuelCapacity)))
      case _ => Err(UnknownUpgradeType(mined))
  }

  /** Whether drilling may go on this frame: drilling is allowed, a
      direction other than up is held, the player stands on something, and
      the catalog says the target can be drilled. */
  predicate DrillGateOpen(s: Settings, canStart: bool, drillDirection: Vec, hasGroundUnder: bool, target: ObjectType)
  {
    canStart && drillDirection != Zero && drillDirection.y != -1 && hasGroundUnder && s.typeToTile(target).drillable
  }

  /** The drill state the drilling step keeps from one frame to the next. */
  datatype DrillSession = DrillSession(canStartDrilling: bool, startedDrilling: bool, drillTimeLeft: real,
                                       drillTimeOriginal: real, lastDrillDirection: Vec)

  /** The drilling gate with the drill on and the movement target in range:
      movement input grants permission to drill, a stone target takes it
      away, and drilling goes on only when every condition of the gate holds;
      otherwise drilling stops and permission is lost. */
  function DrillGateStep(s: Settings, d: DrillSession, drillSpeed: real, movementDirection: Vec, drillDirection: Vec,
                         hasGroundUnder: bool, target: ObjectType): (r: DrillSession)
    ensures r.lastDrillDirection == d.lastDrillDirection
    ensures r.startedDrilling <==>
              && (d.canStartDrilling || movementDirection != Zero) && target != Stone
              && drillDirection != Zero && drillDirection.y != -1 && hasGroundUnder && s.typeToTile(target).drillable
    ensures r.canStartDrilling <==> r.startedDrilling
    // the timer restarts on a new direction or a fresh start, and is kept otherwise
    ensures r.startedDrilling && (d.lastDrillDirection != drillDirection || !d.startedDrilling) ==>
              r.drillTimeOriginal == drillSpeed * s.typeToTile(target).timeToDrill && r.drillTimeLeft == r.drillTimeOriginal
    ensures !(r.startedDrilling && (d.lastDrillDirection != drillDirection || !d.startedDrilling)) ==>
              r.drillTimeLeft == d.drillTimeLeft && r.drillTimeOriginal == d.drillTimeOriginal
  {
    var canStart := (d.canStartDrilling || movementDirection != Zero) && target != Stone;
    if DrillGateOpen(s, canStart, drillDirection, hasGroundUnder, target) then
      if d.lastDrillDirection != drillDirection || !d.startedDrilling then
        var time := drillSpeed * s.typeToTile(target).timeToDrill;
        d.(canStartDrilling := true, startedDrilling := true, drillTimeLeft := time, drillTimeOriginal := time)
      else
        d.(canStartDrilling := true, startedDrilling := true)
    else
      d.(canStartDrilling := false, startedDrilling := false)
  }

  class GameLoop {
    const settings: Settings
    const collaborators: Collaborators
    const tilesHorizontal: int
    const tilesVertical: int
    const tiles: array2<ObjectType>
    const tilesBackground: array2<ObjectType>

    var score: int
    var gravityTimeLeft: real
    var timeSinceLastMovement: real
    var drillTimeLeft: real
    var drillTimeOriginal: real
    var drillSpeed: real
    var startedDrilling: bool
    var canStartDrilling: bool
    var isDrillOn: bool
    var lastDrillDirection: Vec

    // the player's grid cell
    var playerX: int
    var playerY: int

    // fuel bar, fuel station, visibility system and game manager state
    var fuelAmount: real
    var fuelCapacity: real
    var refillsLeft: int
    var visibilityScale: real
    var shouldStopPlaying: bool

    predicate InGrid(x: int, y: int)
    {
      0 <= x < tilesHorizontal && 0 <= y < tilesVertical
    }

    predicate GridShaped()
    {
      && tiles.Length0 == tilesHorizontal && tiles.Length1 == tilesVertical
      && tilesBackground.Length0 == tilesHorizontal && tilesBackground.Length1 == tilesVertical
      && tiles != tilesBackground
      && tilesVertical == settings.TilesVertical()
    }

    /** The grid invariant: exactly one cell holds the player, and it is the
        player's position. */
    ghost predicate Valid()
      reads this`playerX, this`playerY, tiles
    {
      && GridShaped()
      && InGrid(playerX, playerY)
      && tiles[playerX, playerY] == Player
      && forall x, y :: InGrid(x, y) && tiles[x, y] == Player ==> x == playerX && y == playerY
    }

    function Upgrades(): (u: Upgradeables)
      reads this`drillSpeed, this`visibilityScale, this`fuelCapacity, this`fuelAmount
    {
      Upgradeables(drillSpeed, visibilityScale, fuelCapacity, fuelAmount)
    }

    function Session(): (d: DrillSession)
      reads this`canStartDrilling, this`startedDrilling, this`drillTimeLeft, this`drillTimeOriginal, this`lastDrillDirection
    {
      DrillSession(canStartDrilling, startedDrilling, drillTimeLeft, drillTimeOriginal, lastDrillDirection)
    }

    /** The contents of cell (x, y), or `Empty` outside the grid. */
    function TileOrEmpty(x: int, y: int): (t: ObjectType)
      reads tiles
      requires GridShaped()
    {
      if InGrid(x, y) then tiles[x, y] else Empty
    }

    /** The cell below the player is the bottom edge of the grid or is not
        empty. */
    function HasGroundUnder(): (b: bool)
      reads this`playerX, this`playerY, tiles
      requires Valid()
    {
      playerY + 1 == tilesVertical || tiles[playerX, playerY + 1] != Empty
    }

    /** The player moved from its old cell to (nx, ny): the old cell is
        empty, the new one holds the player, and no other cell changed. */
    twostate predicate SteppedTo(nx: int, ny: int)
      reads this`playerX, this`playerY, tiles
    {
      && GridShaped()
      && playerX == nx && playerY == ny
      && InGrid(old(playerX), old(playerY)) && InGrid(nx, ny)
      && tiles[old(playerX), old(playerY)] == Empty
      && tiles[nx, ny] == Player
      && forall x, y :: InGrid(x, y) && !(x == old(playerX) && y == old(playerY)) && !(x == nx && y == ny) ==>
           tiles[x, y] == old(tiles[x, y])
    }

    /** Neither the player nor any cell changed. */
    twostate predicate StayedPut()
      reads this`playerX, this`playerY, tiles
    {
      playerX == old(playerX) && playerY == old(playerY) && unchanged(tiles)
    }

    /** The drill target is inside the grid whenever the drilling step reads
        it: the drill is on after the toggle, the movement target is in
        range, and drilling is allowed after this frame's movement input. */
    predicate DrillTargetInRange(drillPressed: bool, movementDirection: Vec, drillDirection: Vec, rangeCheck: bool)
      reads this`isDrillOn, this`canStartDrilling, this`playerX, this`playerY
    {
      var drillOn := if drillPressed then !isDrillOn else isDrillOn;
      drillOn && rangeCheck && (canStartDrilling || movementDirection != Zero) ==>
        InGrid(playerX + drillDirection.x, playerY + drillDirection.y)
    }

    /** The drilling step with the drill on and the movement target in
        range: the gate step decides the session; once the timer has run
        out, the target breaks, its score and fuel are collected, the player
        steps into it and a mined pickup takes effect; otherwise neither the
        grid nor the score nor the upgrades change. The drill direction is
        recorded unless the mined tile was an unknown upgrade. */
    twostate predicate DrillStepped(movementDirection: Vec, drillDirection: Vec, movedThisFrame: bool, outcome: Outcome)
      requires old(Valid())
      reads this`canStartDrilling, this`startedDrilling, this`drillTimeLeft, this`drillTimeOriginal,
            this`lastDrillDirection, this`score, this`playerX, this`playerY,
            this`drillSpeed, this`visibilityScale, this`fuelCapacity, this`fuelAmount, tiles
    {
      var tx, ty := old(playerX) + drillDirection.x, old(playerY) + drillDirection.y;
      var mined := old(TileOrEmpty(tx, ty));
      var gate := DrillGateStep(settings, old(Session()), old(drillSpeed), movementDirection, drillDirection,
                                old(HasGroundUnder()), mined);
      var breaks := gate.startedDrilling && gate.drillTimeLeft <= 0.0;
      && movedThisFrame == breaks
      && (!breaks ==>
            && Session() == gate.(lastDrillDirection := drillDirection)
            && StayedPut() && outcome == Pass && score == old(score) && Upgrades() == old(Upgrades()))
      && (breaks ==>
            var tile := settings.typeToTile(mined);
            var fed := old(Upgrades()).(fuelAmount := old(fuelAmount) + tile.fuelAmount);
            var effect := MinedTileEffect(settings, mined, fed);
            && Session() == gate.(startedDrilling := false, canStartDrilling := false,
                                  lastDrillDirection := if effect.Ok? then drillDirection else old(lastDrillDirection))
            && score == old(score) + tile.scoreAmount
            && SteppedTo(tx, ty)
            && (effect.Ok? ==> outcome == Pass && Upgrades() == effect.value)
            && (effect.Err? ==> outcome == Fail(effect.error) && Upgrades() == fed))
    }

    /** Allocates the grids, generates the world and places the player at
        the spawn cell with a fresh drill, full timers and no score. */
    constructor (settings: Settings, collaborators: Collaborators, tilesHorizontal: int, draws: WorldDraws,
                 initialFuel: real, initialFuelCapacity: real)
      requires DrawsFit(settings, tilesHorizontal, draws) && CatalogAvoidsPlayer(settings)
      ensures Valid() && fresh(tiles) && fresh(tilesBackground)
      ensures this.settings == settings && this.collaborators == collaborators && this.tilesHorizontal == tilesHorizontal
      ensures forall x, y :: InGrid(x, y) ==> tiles[x, y] == GeneratedTile(settings, tilesHorizontal, draws, x, y, Empty)
      ensures forall x, y :: InGrid(x, y) ==>
                tilesBackground[x, y] == if settings.topOffset <= y then Background else Empty
      ensures playerX == draws.spawn && playerY == settings.topOffset - 1
      ensures score == 0 && gravityTimeLeft == settings.gravityFrequency && timeSinceLastMovement == 0.0
      ensures drillTimeLeft == 0.0 && drillTimeOriginal == 0.0 && drillSpeed == 1.0
      ensures !startedDrilling && !canStartDrilling && !isDrillOn && lastDrillDirection == Zero
      ensures fuelAmount == initialFuel && fuelCapacity == initialFuelCapacity
      ensures refillsLeft == settings.initialFuelRefills && visibilityScale == 1.0 && !shouldStopPlaying
    {
      this.settings := settings;
      this.collaborators := collaborators;
      this.tilesHorizontal := tilesHorizontal;
      tilesVertical := settings.TilesVertical();
      tiles := new ObjectType[tilesHorizontal, settings.TilesVertical()]((_, _) => Empty);
      tilesBackground := new ObjectType[tilesHorizontal, settings.TilesVertical()]((_, _) => Empty);
      score := 0;
      gravityTimeLeft := settings.gravityFrequency;
      timeSinceLastMovement := 0.0;
      drillTimeLeft, drillTimeOriginal, drillSpeed := 0.0, 0.0, 1.0;
      startedDrilling, canStartDrilling, isDrillOn := false, false, false;
      lastDrillDirection := Zero;
      fuelAmount, fuelCapacity := initialFuel, initialFuelCapacity;
      refillsLeft := settings.initialFuelRefills;
      visibilityScale := 1.0;
      shouldStopPlaying := false;
      new;
      var spawn := GenerateWorld(draws);
      playerX, playerY := spawn, settings.topOffset - 1;
      GeneratedWorldHasOnePlayer(settings, tilesHorizontal, draws, Empty);
    }

    /** The entries the ore randomizer receives at depth row y, one ore type
        at a time in configuration order. */
    method OreRandomizerEntries(y: int) returns (entries: seq<Chance>)
      ensures entries == OreCandidates(settings.oreDepthSpawning, y)
    {
      var rules := settings.oreDepthSpawning;
      entries := [];
      var i := 0;
      while i < |rules|
        invariant 0 <= i <= |rules|
        invariant entries == OreCandidates(rules[..i], y)
      {
        assert rules[..i + 1][..i] == rules[..i];
        match FirstBracketIndex(rules[i].brackets, y) {
          case Some(k) =>
            entries := entries + [Chance(rules[i].ore, rules[i].brackets[k].chance)];
          case None =>
        }
        i := i + 1;
      }
      assert rules[..|rules|] == rules;
    }

    /** Fills every ground row column by column (stone, ore or dirt of the
        row's hardness tier, over a background fill), scatters the upgrade
        pickups, lays the stone footing of the fuel station and writes the
        player at the spawn column of the row above the surface. */
    method GenerateWorld(draws: WorldDraws) returns (playerSpawnLocation: int)
      requires GridShaped() && DrawsFit(settings, tilesHorizontal, draws)
      modifies tiles, tilesBackground
      ensures playerSpawnLocation == draws.spawn
      ensures forall x, y :: InGrid(x, y) ==>
                tiles[x, y] == GeneratedTile(settings, tilesHorizontal, draws, x, y, old(tiles[x, y]))
      ensures forall x, y :: InGrid(x, y) ==>
                tilesBackground[x, y] == if settings.topOffset <= y then Background else old(tilesBackground[x, y])
    {
      FillGround(draws);
      PlaceUpgrades(draws);
      LayFooting();
      playerSpawnLocation := draws.spawn;
      tiles[playerSpawnLocation, settings.topOffset - 1] := Player;
    }

    /** The fill of every ground row, column by column. */
    method FillGround(draws: WorldDraws)
      requires GridShaped() && settings.WellFormed() && CellDrawsShaped(settings, tilesHorizontal, draws)
      modifies tiles, tilesBackground
      ensures forall x, y :: InGrid(x, y) ==>
                tiles[x, y] == AfterFill(settings, tilesHorizontal, draws, x, y, old(tiles[x, y]))
      ensures forall x, y :: InGrid(x, y) ==>
                tilesBackground[x, y] == if settings.topOffset <= y then Background else old(tilesBackground[x, y])
    {
      var x := 0;
      while x < tilesHorizontal
        invariant 0 <= x <= tilesHorizontal
        invariant forall i, j :: InGrid(i, j) ==>
                    tiles[i, j] == if i < x then AfterFill(settings, tilesHorizontal, draws, i, j, old(tiles[i, j]))
                                   else old(tiles[i, j])
        invariant forall i, j :: InGrid(i, j) ==>
                    tilesBackground[i, j] == if i < x && settings.topOffset <= j then Background else old(tilesBackground[i, j])
      {
        FillColumn(x, draws);
        x := x + 1;
      }
    }

    /** The stone footing beside the fuel station: the first four cells of
        the surface row. */
    method LayFooting()
      requires GridShaped() && settings.WellFormed() && 4 <= tilesHorizontal
      modifies tiles
      ensures forall x, y :: InGrid(x, y) ==>
                tiles[x, y] == if x < 4 && y == settings.topOffset then Stone else old(tiles[x, y])
    {
      var k := 0;
      while k < 4
        invariant 0 <= k <= 4
        invariant forall i, j :: InGrid(i, j) ==>
                    tiles[i, j] == if i < k && j == settings.topOffset then Stone else old(tiles[i, j])
      {
        tiles[k, settings.topOffset] := Stone;
        k := k + 1;
      }
    }

    /** The fill of one column: every ground row gets the background fill and
        the stone, ore or dirt variant its draws select. */
    method FillColumn(x: int, draws: WorldDraws)
      requires GridShaped() && settings.WellFormed() && CellDrawsShaped(settings, tilesHorizontal, draws)
      requires 0 <= x < tilesHorizontal
      modifies tiles, tilesBackground
      ensures forall i, j :: InGrid(i, j) ==>
                tiles[i, j] == if i == x then AfterFill(settings, tilesHorizontal, draws, i, j, old(tiles[i, j]))
                               else old(tiles[i, j])
      ensures forall i, j :: InGrid(i, j) ==>
                tilesBackground[i, j] == if i == x && settings.topOffset <= j then Background else old(tilesBackground[i, j])
    {
      var top := settings.topOffset;
      var y := 0;
      while y < settings.depth
        invariant 0 <= y <= settings.depth
        invariant forall i, j :: InGrid(i, j) ==>
                    tiles[i, j] == if i == x && top <= j < top + y
                                   then FilledTile(settings, j - top, draws.cells[i][j - top])
                                   else old(tiles[i, j])
        invariant forall i, j :: InGrid(i, j) ==>
                    tilesBackground[i, j] == if i == x && top <= j < top + y then Background else old(tilesBackground[i, j])
      {
        var gridY := y + top;
        var hardness := HardnessTier(y, settings.mediumDirtStartDepth, settings.hardDirtStartDepth);
        tilesBackground[x, gridY] := Background;
        var draw := draws.cells[x][y];
        var tile;
        if draw.spawnChance <= settings.stoneChance {
          tile := settings.tileToHardness(Stone, hardness);
        } else if draw.spawnChance <= settings.stoneChance + settings.oreChance {
          // The randomizer is filled as the game fills it; sampling it is the
          // draw `draw.orePick`, which the draws' `OrePicksFit` ties to these
          // entries whenever there are any. The entries are built here so
          // that the loop over the ore rules is modelled where it runs.
          var entries := OreRandomizerEntries(y);
          tile := settings.tileToHardness(draw.orePick, hardness);
        } else {
          tile := settings.tileToHardness(Dirt, hardness);
        }
        assert tile == FilledTile(settings, y, draw);
        tiles[x, gridY] := tile;
        y := y + 1;
      }
    }

    /** The upgrade pickups, written in draw order: a later pickup on the
        same cell overwrites an earlier one. */
    method PlaceUpgrades(draws: WorldDraws)
      requires GridShaped() && settings.WellFormed() && UpgradeDrawsFit(settings, tilesHorizontal, draws.upgrades)
      modifies tiles
      ensures forall i, j :: InGrid(i, j) ==>
                tiles[i, j] == match LastUpgradeAt(draws.upgrades, settings.upgradeTypes, i, j)
                               case Some(t) => t
                               case None => old(tiles[i, j])
    {
      var ups := draws.upgrades;
      var n := 0;
      assert ups[..0] == [];
      while n < |ups|
        invariant 0 <= n <= |ups|
        invariant forall i, j :: InGrid(i, j) ==>
                    tiles[i, j] == match LastUpgradeAt(ups[..n], settings.upgradeTypes, i, j)
                                   case Some(t) => t
                                   case None => old(tiles[i, j])
      {
        assert ups[..n + 1][..n] == ups[..n];
        tiles[ups[n].x, ups[n].y] := settings.upgradeTypes[ups[n].typeIndex];
        n := n + 1;
      }
      assert ups[..n] == ups;
    }

    /** One frame: both axes are reduced to one direction, then drilling,
        movement, gravity, fuel and timers run in that order. An unknown
        upgrade type ends the frame at once. */
    method Update(movementAxis: Vec, drillAxis: Vec, drillPressed: bool, refuelPressed: bool, deltaTime: real)
      returns (outcome: Outcome)
      requires Valid()
      requires IsAxisValue(movementAxis.x) && IsAxisValue(movementAxis.y)
      requires IsAxisValue(drillAxis.x) && IsAxisValue(drillAxis.y)
      requires var m := ConstrainToOneAxis(movementAxis);
               DrillTargetInRange(drillPressed, m, ConstrainToOneAxis(drillAxis), InGrid(playerX + m.x, playerY + m.y))
      modifies this, tiles
      ensures Valid()
      ensures outcome.Fail? ==> outcome.error.tile in settings.upgradeTypes && !IsKnownUpgrade(outcome.error.tile)
    {
      var movementDirection := ConstrainToOneAxis(movementAxis);
      var drillDirection := ConstrainToOneAxis(drillAxis);
      var rangeCheck := InGrid(playerX + movementDirection.x, playerY + movementDirection.y);

      var movedThisFrame;
      movedThisFrame, rangeCheck, outcome := UpdateDrilling(drillPressed, movementDirection, drillDirection, rangeCheck);
      if outcome.Fail? {
        return;
      }
      rangeCheck := UpdateMovement(movementDirection, movedThisFrame, rangeCheck);
      rangeCheck := UpdateGravity(movementDirection, rangeCheck);
      UpdateFuel(refuelPressed, deltaTime);
      UpdateTimers(deltaTime);
    }

    /** The drilling step: toggles the drill; with the drill on and the
        movement target in range, opens or closes the drilling gate and
        (re)starts the drill timer as the gate step says, then breaks the
        target once the timer has run out. */
    method UpdateDrilling(drillPressed: bool, movementDirection: Vec, drillDirection: Vec, rangeCheck: bool)
      returns (movedThisFrame: bool, rangeCheckAfter: bool, outcome: Outcome)
      requires Valid()
      requires rangeCheck == InGrid(playerX + movementDirection.x, playerY + movementDirection.y)
      requires DrillTargetInRange(drillPressed, movementDirection, drillDirection, rangeCheck)
      modifies this`isDrillOn, this`canStartDrilling, this`startedDrilling, this`drillTimeLeft,
               this`drillTimeOriginal, this`lastDrillDirection, this`score, this`playerX, this`playerY,
               this`drillSpeed, this`visibilityScale, this`fuelCapacity, this`fuelAmount, tiles
      ensures Valid()
      ensures isDrillOn == if drillPressed then !old(isDrillOn) else old(isDrillOn)
      ensures outcome.Pass? ==> rangeCheckAfter == InGrid(playerX + movementDirection.x, playerY + movementDirection.y)
      // drill off or movement target out of range: only the toggle happens
      ensures !isDrillOn || !rangeCheck ==>
                && Session() == old(Session()) && StayedPut() && !movedThisFrame && outcome == Pass
                && score == old(score) && Upgrades() == old(Upgrades())
      ensures isDrillOn && rangeCheck ==> DrillStepped(movementDirection, drillDirection, movedThisFrame, outcome)
    {
      movedThisFrame, rangeCheckAfter, outcome := false, rangeCheck, Pass;
      // the toggled value is stored once the step is done: nothing in between reads it
      var drillOn := if drillPressed then !isDrillOn else isDrillOn;
      if drillOn && rangeCheck {
        movedThisFrame, rangeCheckAfter, outcome := DrillStep(movementDirection, drillDirection, rangeCheck);
      }
      isDrillOn := drillOn;
    }

    /** The drilling step with the drill on and the movement target in range. */
    method DrillStep(movementDirection: Vec, drillDirection: Vec, rangeCheck: bool)
      returns (movedThisFrame: bool, rangeCheckAfter: bool, outcome: Outcome)
      requires Valid()
      requires rangeCheck == InGrid(playerX + movementDirection.x, playerY + movementDirection.y)
      requires canStartDrilling || movementDirection != Zero ==> InGrid(playerX + drillDirection.x, playerY + drillDirection.y)
      modifies this`canStartDrilling, this`startedDrilling, this`drillTimeLeft,
               this`drillTimeOriginal, this`lastDrillDirection, this`score, this`playerX, this`playerY,
               this`drillSpeed, this`visibilityScale, this`fuelCapacity, this`fuelAmount, tiles
      ensures Valid()
      ensures outcome.Pass? ==> rangeCheckAfter == InGrid(playerX + movementDirection.x, playerY + movementDirection.y)
      ensures DrillStepped(movementDirection, drillDirection, movedThisFrame, outcome)
    {
      movedThisFrame, rangeCheckAfter, outcome := false, rangeCheck, Pass;
      var hasGroundUnder := HasGroundUnder();
      var tx, ty := playerX + drillDirection.x, playerY + drillDirection.y;
      UpdateDrillGate(movementDirection, drillDirection, hasGroundUnder, tx, ty);

      movedThisFrame, rangeCheckAfter, outcome := FinishDrilling(tx, ty, movementDirection, drillDirection, rangeCheck);
    }

    /** The rest of the drilling step once the gate has run: the target
        breaks when drilling is on and its timer has run out, and the drill
        direction is recorded unless the mined tile was an unknown upgrade. */
    method FinishDrilling(tx: int, ty: int, movementDirection: Vec, drillDirection: Vec, rangeCheck: bool)
      returns (movedThisFrame: bool, rangeCheckAfter: bool, outcome: Outcome)
      requires Valid()
      requires rangeCheck == InGrid(playerX + movementDirection.x, playerY + movementDirection.y)
      requires startedDrilling && drillTimeLeft <= 0.0 ==> InGrid(tx, ty) && !(tx == playerX && ty == playerY)
      modifies this`canStartDrilling, this`startedDrilling, this`lastDrillDirection, this`score, this`playerX, this`playerY,
               this`drillSpeed, this`visibilityScale, this`fuelCapacity, this`fuelAmount, tiles
      ensures Valid()
      ensures outcome.Pass? ==> rangeCheckAfter == InGrid(playerX + movementDirection.x, playerY + movementDirection.y)
      ensures movedThisFrame == (old(startedDrilling) && old(drillTimeLeft) <= 0.0)
      ensures !movedThisFrame ==>
                && Session() == old(Session()).(lastDrillDirection := drillDirection)
                && StayedPut() && outcome == Pass && score == old(score) && Upgrades() == old(Upgrades())
      ensures movedThisFrame ==>
                var mined := old(tiles[tx, ty]);
                var tile := settings.typeToTile(mined);
                var fed := old(Upgrades()).(fuelAmount := old(fuelAmount) + tile.fuelAmount);
                var effect := MinedTileEffect(settings, mined, fed);
                && Session() == old(Session()).(startedDrilling := false, canStartDrilling := false,
                                      lastDrillDirection := if effect.Ok? then drillDirection else old(lastDrillDirection))
                && score == old(score) + tile.scoreAmount
                && SteppedTo(tx, ty)
                && (effect.Ok? ==> outcome == Pass && Upgrades() == effect.value)
                && (effect.Err? ==> outcome == Fail(effect.error) && Upgrades() == fed)
    {
      movedThisFrame, rangeCheckAfter, outcome := false, rangeCheck, Pass;
      if startedDrilling && drillTimeLeft <= 0.0 {
        movedThisFrame := true;
        rangeCheckAfter, outcome := BreakTile(tx, ty, movementDirection);
        if outcome.Fail? {
          return;
        }
      }
      lastDrillDirection := drillDirection;
    }

    /** The gate part of the drilling step, in place: the session becomes
        what the gate step gives for the target cell. */
    method UpdateDrillGate(movementDirection: Vec, drillDirection: Vec, hasGroundUnder: bool, tx: int, ty: int)
      requires GridShaped()
      requires canStartDrilling || movementDirection != Zero ==> InGrid(tx, ty)
      modifies this`canStartDrilling, this`startedDrilling, this`drillTimeLeft, this`drillTimeOriginal
      ensures Session() == DrillGateStep(settings, old(Session()), drillSpeed, movementDirection, drillDirection,
                                         hasGroundUnder, TileOrEmpty(tx, ty))
    {
      if !canStartDrilling && movementDirection != Zero {
        canStartDrilling := true;
      }

      if canStartDrilling && tiles[tx, ty] == Stone {
        canStartDrilling := false;
      }

      if canStartDrilling && DrillGateOpen(settings, canStartDrilling, drillDirection, hasGroundUnder, tiles[tx, ty]) {
        if lastDrillDirection != drillDirection || !startedDrilling {
          drillTimeOriginal := drillSpeed * settings.typeToTile(tiles[tx, ty]).timeToDrill;
          drillTimeLeft := drillTimeOriginal;
        }
        startedDrilling := true;
      } else {
        startedDrilling := false;
        canStartDrilling := false;
      }
    }

    /** The player leaves its cell, which becomes empty, and takes the cell
        (nx, ny). */
    method MovePlayerTo(nx: int, ny: int)
      requires Valid() && InGrid(nx, ny) && !(nx == playerX && ny == playerY)
      modifies this`playerX, this`playerY, tiles
      ensures Valid() && SteppedTo(nx, ny)
    {
      tiles[playerX, playerY] := Empty;
      tiles[nx, ny] := Player;
      playerX, playerY := nx, ny;
    }

    /** Breaking the drill target: the tile's score and fuel are collected,
        the player moves into the target cell, drilling stops and has to be
        re-enabled by movement, and a mined upgrade takes effect. An unknown
        upgrade type fails after everything else has happened. */
    method BreakTile(tx: int, ty: int, movementDirection: Vec) returns (rangeCheckAfter: bool, outcome: Outcome)
      requires Valid() && InGrid(tx, ty) && !(tx == playerX && ty == playerY)
      modifies this`score, this`fuelAmount, this`playerX, this`playerY, this`startedDrilling, this`canStartDrilling,
               this`drillSpeed, this`visibilityScale, this`fuelCapacity, tiles
      ensures Valid()
      ensures var mined := old(tiles[tx, ty]);
              var tile := settings.typeToTile(mined);
              var fed := old(Upgrades()).(fuelAmount := old(fuelAmount) + tile.fuelAmount);
              var effect := MinedTileEffect(settings, mined, fed);
              && score == old(score) + tile.scoreAmount
              && SteppedTo(tx, ty) && !startedDrilling && !canStartDrilling
              && (effect.Ok? ==> outcome == Pass && Upgrades() == effect.value)
              && (effect.Err? ==> outcome == Fail(effect.error) && Upgrades() == fed)
      ensures outcome.Pass? ==> rangeCheckAfter == InGrid(playerX + movementDirection.x, playerY + movementDirection.y)
    {
      rangeCheckAfter, outcome := false, Pass;
      var minedTile := tiles[tx, ty];
      var tile := settings.typeToTile(minedTile);
      score := score + tile.scoreAmount;
      fuelAmount := fuelAmount + tile.fuelAmount;
      MovePlayerTo(tx, ty);
      startedDrilling := false;
      canStartDrilling := false;

      outcome := ApplyPickup(minedTile);
      if outcome.Fail? {
        return;
      }
      rangeCheckAfter := InGrid(playerX + movementDirection.x, playerY + movementDirection.y);
    }

    /** A mined pickup takes effect: the multiplier of a configured upgrade
        type is applied in place, and an upgrade type without an effect
        fails. */
    method ApplyPickup(mined: ObjectType) returns (outcome: Outcome)
      modifies this`drillSpeed, this`visibilityScale, this`fuelCapacity, this`fuelAmount
      ensures var effect := MinedTileEffect(settings, mined, old(Upgrades()));
              && (effect.Ok? ==> outcome == Pass && Upgrades() == effect.value)
              && (effect.Err? ==> outcome == Fail(effect.error) && Upgrades() == old(Upgrades()))
    {
      outcome := Pass;
      if mined in settings.upgradeTypes {
        match mined {
          case DrillingSpeedUpgrade =>
            drillSpeed := drillSpeed * settings.drillSpeedUpgradeMultiplier;
          case ViewDistanceUpgrade =>
            visibilityScale := visibilityScale * settings.viewDistanceUpgradeMultiplier;
          case FuelCapacityUpgrade =>
            var oldFuelCapacity := fuelCapacity;
            fuelCapacity := fuelCapacity * settings.fuelCapacityUpgradeMultiplier;
            fuelAmount := fuelAmount + (fuelCapacity - oldFuelCapacity);
            assert Upgrades() == MinedTileEffect(settings, mined, old(Upgrades())).value;
          case _ =>
            outcome := Fail(UnknownUpgradeType(mined));
        }
      }
    }

    /** The movement step: a non-zero direction moves the player one cell
        when the target is in range and empty and no tile was broken this
        frame; any non-zero attempt, blocked or not, resets the idle time and
        the gravity countdown. */
    method UpdateMovement(movementDirection: Vec, movedThisFrame: bool, rangeCheck: bool) returns (rangeCheckAfter: bool)
      requires Valid()
      requires rangeCheck == InGrid(playerX + movementDirection.x, playerY + movementDirection.y)
      modifies this`playerX, this`playerY, this`timeSinceLastMovement, this`gravityTimeLeft, tiles
      ensures Valid()
      ensures rangeCheckAfter == InGrid(playerX + movementDirection.x, playerY + movementDirection.y)
      ensures movementDirection == Zero ==>
                StayedPut() && timeSinceLastMovement == old(timeSinceLastMovement) && gravityTimeLeft == old(gravityTimeLeft)
      ensures movementDirection != Zero ==>
                timeSinceLastMovement == 0.0 && gravityTimeLeft == settings.gravityFrequency
      ensures var moves := movementDirection != Zero && rangeCheck &&
                           old(tiles[playerX + movementDirection.x, playerY + movementDirection.y]) == Empty && !movedThisFrame;
              && (moves ==> SteppedTo(old(playerX) + movementDirection.x, old(playerY) + movementDirection.y))
              && (!moves ==> StayedPut())
    {
      rangeCheckAfter := rangeCheck;
      if movementDirection == Zero {
        return;
      }

      if rangeCheck && tiles[playerX + movementDirection.x, playerY + movementDirection.y] == Empty && !movedThisFrame {
        MovePlayerTo(playerX + movementDirection.x, playerY + movementDirection.y);
        rangeCheckAfter := InGrid(playerX + movementDirection.x, playerY + movementDirection.y);
      }

      timeSinceLastMovement := 0.0;
      gravityTimeLeft := settings.gravityFrequency;
    }

    /** The gravity step: once the player has been idle past the threshold
        and the gravity countdown has run out, the player falls one cell if
        the cell below is inside the grid and empty, and the countdown
        restarts either way. */
    method UpdateGravity(movementDirection: Vec, rangeCheck: bool) returns (rangeCheckAfter: bool)
      requires Valid()
      requires rangeCheck == InGrid(playerX + movementDirection.x, playerY + movementDirection.y)
      modifies this`playerX, this`playerY, this`gravityTimeLeft, tiles
      ensures Valid()
      ensures rangeCheckAfter == InGrid(playerX + movementDirection.x, playerY + movementDirection.y)
      ensures var fires := timeSinceLastMovement > settings.playerMovementThreshold && old(gravityTimeLeft) <= 0.0;
              var falls := fires && old(playerY) + 1 < tilesVertical && old(tiles[playerX, playerY + 1]) == Empty;
              && gravityTimeLeft == (if fires then settings.gravityFrequency else old(gravityTimeLeft))
              && (falls ==> SteppedTo(old(playerX), old(playerY) + 1))
              && (!falls ==> StayedPut())
    {
      rangeCheckAfter := rangeCheck;
      if !(timeSinceLastMovement > settings.playerMovementThreshold) || !(gravityTimeLeft <= 0.0) {
        return;
      }
      if playerY + 1 < tilesVertical && tiles[playerX, playerY + 1] == Empty {
        MovePlayerTo(playerX, playerY + 1);
        rangeCheckAfter := InGrid(playerX + movementDirection.x, playerY + movementDirection.y);
      }
      gravityTimeLeft := settings.gravityFrequency;
    }

    /** The fuel left after one frame's consumption from `fuel`: the idle
        rate always, the drill-on rate while the drill is on, and the drilling
        rate while drilling, applied one after the other. */
    function FuelAfterConsumption(fuel: real, deltaTime: real): (r: real)
      reads this`isDrillOn, this`startedDrilling
    {
      var change := collaborators.changeFuel;
      var idle := change(fuel, settings.idleFuelConsumption * deltaTime);
      var drillOn := if isDrillOn then change(idle, settings.drillOnFuelConsumption * deltaTime) else idle;
      if startedDrilling then change(drillOn, settings.drillingFuelConsumption * deltaTime) else drillOn
    }

    /** The fuel step: refuels and uses up one refill when the player is on
        the refill point, pressed refuel and a refill is left; then charges
        the frame's consumption and signals the end of play once the fuel is
        gone. */
    method UpdateFuel(refuelPressed: bool, deltaTime: real)
      modifies this`fuelAmount, this`refillsLeft, this`shouldStopPlaying
      ensures var refuels := collaborators.isPlayerOnRefillPoint(playerX, playerY) && refuelPressed && old(refillsLeft) > 0;
              && refillsLeft == (if refuels then old(refillsLeft) - 1 else old(refillsLeft))
              && fuelAmount == FuelAfterConsumption(
                                 if refuels then collaborators.refuel(old(fuelAmount), fuelCapacity) else old(fuelAmount),
                                 deltaTime)
      ensures shouldStopPlaying == (old(shouldStopPlaying) || fuelAmount <= 0.0)
    {
      if collaborators.isPlayerOnRefillPoint(playerX, playerY) && refuelPressed && refillsLeft > 0 {
        fuelAmount := collaborators.refuel(fuelAmount, fuelCapacity);
        refillsLeft := refillsLeft - 1;
      }

      fuelAmount := collaborators.changeFuel(fuelAmount, settings.idleFuelConsumption * deltaTime);
      if isDrillOn {
        fuelAmount := collaborators.changeFuel(fuelAmount, settings.drillOnFuelConsumption * deltaTime);
      }
      if startedDrilling {
        fuelAmount := collaborators.changeFuel(fuelAmount, settings.drillingFuelConsumption * deltaTime);
      }

      if fuelAmount <= 0.0 {
        shouldStopPlaying := true;
      }
    }

    /** The timer step: the idle time always grows, the gravity countdown
        runs only once the idle time is past the threshold, and the drill
        timer runs only while drilling. */
    method UpdateTimers(deltaTime: real)
      modifies this`timeSinceLastMovement, this`gravityTimeLeft, this`drillTimeLeft
      ensures timeSinceLastMovement == old(timeSinceLastMovement) + deltaTime
      ensures gravityTimeLeft == if timeSinceLastMovement > settings.playerMovementThreshold
                                 then old(gravityTimeLeft) - deltaTime else old(gravityTimeLeft)
      ensures drillTimeLeft == if startedDrilling then old(drillTimeLeft) - deltaTime else old(drillTimeLeft)
    {
      timeSinceLastMovement := timeSinceLastMovement + deltaTime;
      if timeSinceLastMovement > settings.playerMovementThreshold {
        gravityTimeLeft := gravityTimeLeft - deltaTime;
      }
      if startedDrilling {
        drillTimeLeft := drillTimeLeft - deltaTime;
      }
    }
  }
}

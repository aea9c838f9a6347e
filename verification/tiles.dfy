/** The tile vocabulary of the digging game: cell contents, the read-only tile
    catalog, the game settings, grid directions, and the behaviour of the
    collaborating objects (fuel bar, fuel station) whose code is not part of
    this model. */
module Tiles {

  /** Cell contents. The members the game loop names explicitly are listed;
      every other member of the game's tile enumeration (ores and the
      harder variants of stone, dirt and ore) is `Other(id)`. */
  datatype ObjectType =
    | Empty
    | Player
    | Background
    | Stone
    | Dirt
    | DrillingSpeedUpgrade
    | ViewDistanceUpgrade
    | FuelCapacityUpgrade
    | Other(id: nat)

  /** Hardness tier 0, 1 or 2: increasing hardness with depth. */
  type Tier = t: int | 0 <= t <= 2

  /** One catalog entry, as the game loop reads it. */
  datatype Tile = Tile(drillable: bool, timeToDrill: real, scoreAmount: int, fuelAmount: real)

  /** An inclusive depth range in which an ore spawns with a given weight. */
  datatype Bracket = Bracket(fromY: int, toY: int, chance: real)

  /** The depth brackets configured for one ore type, in configuration order. */
  datatype OreRule = OreRule(ore: ObjectType, brackets: seq<Bracket>)

  /** The game's configuration constants and its tile catalog. */
  datatype Settings = Settings(
    depth: int,
    topOffset: int,
    hardDirtStartDepth: int,
    mediumDirtStartDepth: int,
    stoneChance: real,
    oreChance: real,
    oreDepthSpawning: seq<OreRule>,
    upgradeCount: int,
    upgradeTypes: seq<ObjectType>,
    drillSpeedUpgradeMultiplier: real,
    viewDistanceUpgradeMultiplier: real,
    fuelCapacityUpgradeMultiplier: real,
    idleFuelConsumption: real,
    drillOnFuelConsumption: real,
    drillingFuelConsumption: real,
    gravityFrequency: real,
    playerMovementThreshold: real,
    initialFuelRefills: int,
    typeToTile: ObjectType -> Tile,
    tileToHardness: (ObjectType, Tier) -> ObjectType)
  {
    /** Number of grid rows: the air rows above ground plus the dug depth. */
    function TilesVertical(): int { depth + topOffset }

    /** The shape the grid code relies on: at least one air row above the
        surface (the spawn row) and at least one row of ground (the
        fuel-station footing). */
    predicate WellFormed() { topOffset >= 1 && depth >= 1 }
  }

  /** The fuel bar and fuel station operations the game loop calls: each is
      a given function of the values it works on. */
  datatype Collaborators = Collaborators(
    changeFuel: (real, real) -> real,       // (fuel amount, change) -> new fuel amount
    refuel: (real, real) -> real,           // (fuel amount, capacity) -> refilled amount
    isPlayerOnRefillPoint: (int, int) -> bool)

  /** An integer grid vector: a direction or a cell. */
  datatype Vec = Vec(x: int, y: int)

  const Zero := Vec(0, 0)

  /** Whether an axis component is one of the values an input axis can give. */
  predicate IsAxisValue(a: int) { -1 <= a <= 1 }

  /** Input reduction applied to both the movement and the drill axes: when
      both components are pressed, the horizontal one is dropped, so vertical
      input has priority. */
  function ConstrainToOneAxis(v: Vec): (r: Vec)
    ensures r.x == 0 || r.y == 0
    ensures r == Zero <==> v == Zero
    ensures v.y != 0 ==> r == Vec(0, v.y)
    ensures v.y == 0 ==> r == v
  {
    if v.x != 0 && v.y != 0 then Vec(0, v.y) else v
  }

  /** The three upgrade kinds whose effect the game loop knows. */
  predicate IsKnownUpgrade(t: ObjectType)
  {
    t == DrillingSpeedUpgrade || t == ViewDistanceUpgrade || t == FuelCapacityUpgrade
  }
}

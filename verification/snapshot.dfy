/**
 * One frame's snapshot of a match, as the rules layer of `Game` reads it:
 * points, the static catalog records (unit, weapon, tech and upgrade types),
 * unit and player records, and the per-frame terrain and oracle view.
 *
 * Everything the core only reads through a foreign object (the engine's
 * per-tile grids, `Unit.hasPath`, `Unit.getDistance`,
 * `Player.hasUnitTypeRequirement`, ...) is an uninterpreted field here.
 */
module Snapshot {

  import opened Wrappers
  import UnitSizeTypes
  import DamageTypes

  // ---------------------------------------------------------------------
  // Points

  /** A point in pixels (32 per tile). */
  datatype Position = Position(x: int, y: int)

  /** A point in build tiles. */
  datatype TilePosition = TilePosition(x: int, y: int)

  /** Pixels per build tile. */
  const TileSize: int := 32

  /** Walk tiles per build tile. */
  const WalkPerTile: int := 4

  function ToPosition(t: TilePosition): Position {
    Position(t.x * TileSize, t.y * TileSize)
  }

  /** Half a build tile, in pixels. */
  const HalfTile: int := 16

  /** The pixel centre of a footprint `tileWidth` by `tileHeight` tiles whose top-left tile is `lt`. */
  function FootprintCentre(lt: TilePosition, tileWidth: int, tileHeight: int): Position {
    Position(lt.x * TileSize + tileWidth * HalfTile, lt.y * TileSize + tileHeight * HalfTile)
  }

  /** The pixel centre of a type's footprint placed at `lt`. */
  function Centre(lt: TilePosition, t: UnitType): Position {
    FootprintCentre(lt, t.tileWidth, t.tileHeight)
  }

  /** Java's `Math.abs` on unbounded integers. */
  function Abs(v: int): (r: nat)
    ensures r == v || r == -v
  {
    if v < 0 then -v else v
  }

  // ---------------------------------------------------------------------
  // Enumerations and catalog records

  datatype Race = Zerg | Terran | Protoss | OtherRace(id: int)

  datatype WeaponType = WeaponType(id: int, damageAmount: int, damageFactor: int, damageType: DamageTypes.DamageType)

  /** One entry of a unit type's required-units map: `count` units of type `unitType`. */
  datatype Requirement = Requirement(unitType: int, count: int)

  /**
   * A unit type's catalog entry. References to other unit types (`whatBuilds`,
   * required units) are by id and resolved through `Frame.types`.
   * `requiredUnits` lists the required-units map in its iteration order.
   */
  datatype UnitType = UnitType(
    id: int,
    race: Race,
    tileWidth: int,
    tileHeight: int,
    dimensionLeft: int,
    dimensionUp: int,
    dimensionRight: int,
    dimensionDown: int,
    mineralPrice: int,
    gasPrice: int,
    supplyRequired: int,
    isTwoUnitsInOneEgg: bool,
    isAddon: bool,
    isBuilding: bool,
    isFlyingBuilding: bool,
    isFlagBeacon: bool,
    isRefinery: bool,
    isResourceDepot: bool,
    isMineralField: bool,
    requiresPsi: bool,
    requiresCreep: bool,
    canMove: bool,
    producesLarva: bool,
    isFlyer: bool,
    whatBuilds: int,
    requiredUnits: seq<Requirement>,
    requiredTech: int,
    groundWeapon: WeaponType,
    airWeapon: WeaponType,
    size: UnitSizeTypes.UnitSizeType)

  // Ids of the named enumerants the core compares against (BWAPI's numbering).
  const ZergLarva: int := 35
  const ProtossCarrier: int := 72
  const HeroWarbringer: int := 81
  const HeroGantrithor: int := 82
  const ProtossReaver: int := 83
  const ZergNydusCanal: int := 134
  const ProtossPylon: int := 156
  const ResourceVespeneGeyser: int := 188
  const SpecialStartLocation: int := 214
  const UnitTypeNone: int := 228
  const UnitTypeUnknown: int := 229

  const WeaponNone: int := 130
  const WeaponUnknown: int := 131

  const TechNone: int := 44

  const ReaverCapacity: int := 36
  const CarrierCapacity: int := 43

  /** The weapon record of `WeaponType.None`. */
  const NoWeapon: WeaponType := WeaponType(WeaponNone, 0, 0, DamageTypes.DamageType.None)

  /**
   * The unit-type record standing for `UnitType.None` or `UnitType.Unknown`
   * where only its id is read.
   */
  function Placeholder(id: int): (t: UnitType)
    ensures t.id == id
  {
    UnitType(id, OtherRace(7), 0, 0, 0, 0, 0, 0, 0, 0, 0,
      false, false, false, false, false, false, false, false, false, false, false, false, false,
      id, [], TechNone, NoWeapon, NoWeapon, UnitSizeTypes.UnitSizeType.None)
  }

  datatype TechType = TechType(id: int, mineralPrice: int, gasPrice: int, whatResearches: int, requiredUnit: int)

  /** An upgrade type; its requirement and prices depend on the level. */
  datatype UpgradeType = UpgradeType(
    id: int,
    whatUpgrades: int,
    whatsRequired: int -> int,
    mineralPrice: int -> int,
    gasPrice: int -> int)

  // ---------------------------------------------------------------------
  // Units and players

  /** One unit as the snapshot shows it. */
  datatype Unit = Unit(
    id: int,
    playerId: int,
    unitType: UnitType,
    position: Position,
    tilePosition: TilePosition,
    initialTilePosition: TilePosition,
    left: int,
    top: int,
    right: int,
    bottom: int,
    present: bool,   // Unit.exists()
    completed: bool,
    visible: bool,
    flying: bool,
    loaded: bool,
    lifted: bool,
    idle: bool,
    larvaCount: nat,
    interceptorCount: int,
    scarabCount: int,
    trainingQueueSize: nat,
    nydusExit: Option<int>,
    addonType: Option<int>)

  /**
   * A player's resources, tech state and owned units. `hasRequirement(t, n)`
   * is `Player.hasUnitTypeRequirement(t, n)`; `damage` and `armor` are the
   * player's upgraded weapon damage and armour.
   */
  datatype Player = Player(
    id: int,
    minerals: int,
    gas: int,
    supplyTotal: Race -> int,
    supplyUsed: Race -> int,
    upgradeLevel: int -> int,
    maxUpgradeLevel: int -> int,
    hasResearched: int -> bool,
    isResearching: int -> bool,
    isUpgrading: int -> bool,
    isUnitAvailable: int -> bool,
    isResearchAvailable: int -> bool,
    hasRequirement: (int, int) -> bool,
    units: set<Unit>,
    damage: WeaponType -> int,
    armor: UnitType -> int)

  /** The same player with other stock of minerals and gas. */
  function WithResources(p: Player, minerals: int, gas: int): (q: Player)
    ensures q.minerals == minerals && q.gas == gas
  {
    p.(minerals := minerals, gas := gas)
  }

  datatype Region = Region(id: int, groupId: int)

  // ---------------------------------------------------------------------
  // The frame

  /**
   * The per-frame view the rules read. Grids are indexed by tile (walk tile
   * for `walkable`); `regionIdAt` is the engine's region-id lookup at a
   * position; `types` is the static unit-type catalog by id. The last four
   * fields are the foreign helpers the core calls on units and types.
   */
  datatype Frame = Frame(
    mapWidth: int,
    mapHeight: int,
    walkable: (int, int) -> bool,
    groundHeight: (int, int) -> int,
    buildable: (int, int) -> bool,
    occupied: (int, int) -> bool,
    visible: (int, int) -> bool,
    explored: (int, int) -> bool,
    creep: (int, int) -> bool,
    regionIdAt: (int, int) -> int,
    regions: map<int, Region>,
    self: Option<Player>,
    staticMinerals: set<Unit>,
    staticGeysers: set<Unit>,
    types: int -> UnitType,
    isSuccessorOf: (int, int) -> bool,
    unitHasPath: (Unit, Position) -> bool,
    unitDistance: (Unit, Position) -> int,
    approxDistance: (Position, Position) -> int)

  /** A position lies on the map (pixel bounds). */
  predicate PositionValid(f: Frame, p: Position) {
    0 <= p.x < f.mapWidth * TileSize && 0 <= p.y < f.mapHeight * TileSize
  }

  /** A tile lies on the map. */
  predicate TileValid(f: Frame, x: int, y: int) {
    0 <= x < f.mapWidth && 0 <= y < f.mapHeight
  }

  /** A walk tile lies on the map. */
  predicate WalkValid(f: Frame, x: int, y: int) {
    0 <= x < f.mapWidth * WalkPerTile && 0 <= y < f.mapHeight * WalkPerTile
  }

  // ---------------------------------------------------------------------
  // Java integer division

  /** Java's `/` on `int`: the quotient is truncated toward zero. */
  function JavaDiv(a: int, b: int): (q: int)
    requires b > 0
    ensures a >= 0 ==> 0 <= q && q * b <= a < (q + 1) * b
    ensures a < 0 ==> q <= 0 && (q - 1) * b < a <= q * b
  {
    if a >= 0 then
      DivModParts(a, b);
      assert (a / b + 1) * b == (a / b) * b + b;
      a / b
    else
      DivModParts(-a, b);
      var q := (-a) / b;
      assert (-q) * b == -(q * b) && (-q - 1) * b == -(q * b) - b;
      -q
  }

  /** Dafny's `/` on a non-negative dividend: the quotient times the divisor is within one divisor below it. */
  lemma DivModParts(a: int, b: int)
    requires a >= 0 && b > 0
    ensures 0 <= a / b && (a / b) * b <= a < (a / b) * b + b
  {
    var q, r := a / b, a % b;
    assert a == q * b + r && 0 <= r < b;
  }
}

/**
 * The build-placement validator `Game.canBuildHere`: ordered checks with
 * early returns, and one redirection for an addon built by a building.
 *
 * Two steps of the source read differently from what they evidently mean
 * (the occupancy filter and the power check); `Reading` selects between
 * the code as written and the intended rule, and `CanBuildHere` follows the
 * code as written.
 */
module Placement {

  import opened Wrappers
  import opened Snapshot
  import opened Terrain
  import opened SpatialQueries
  import opened PowerField
  import opened Readings

  /** An addon's footprint sits 4 tiles right of and 1 tile below its building's. */
  const AddonDX: int := 4
  const AddonDY: int := 1

  /** The footprint's top-left tile: shifted by the addon offset when a builder places an addon. */
  function LeftTop(position: TilePosition, t: UnitType, builder: Option<Unit>): (lt: TilePosition)
    ensures builder.Some? && t.isAddon ==> lt == TilePosition(position.x + AddonDX, position.y + AddonDY)
    ensures !(builder.Some? && t.isAddon) ==> lt == position
  {
    if builder.Some? && t.isAddon then TilePosition(position.x + AddonDX, position.y + AddonDY) else position
  }

  /** The first tile past the footprint on both axes. */
  function RightBottom(lt: TilePosition, t: UnitType): TilePosition {
    TilePosition(lt.x + t.tileWidth, lt.y + t.tileHeight)
  }

  /** The top-left tile and the last pixel of the footprint are on the map. */
  predicate InBounds(f: Frame, lt: TilePosition, rb: TilePosition) {
    TileValid(f, lt.x, lt.y) && PositionValid(f, Position(rb.x * TileSize - 1, rb.y * TileSize - 1))
  }

  /** A known geyser stands on `lt`, and it is unseen now or still a geyser. */
  predicate RefinerySite(all: set<Unit>, lt: TilePosition) {
    exists g :: g in Geysers(all) && g.tilePosition == lt && (!g.visible || g.unitType.id == ResourceVespeneGeyser)
  }

  predicate TileReady(f: Frame, x: int, y: int, checkExplored: bool) {
    IsBuildable(f, x, y, false) && (!checkExplored || IsExplored(f, x, y))
  }

  /** Every footprint tile is buildable, and explored when that is asked for. */
  predicate TilesReady(f: Frame, lt: TilePosition, rb: TilePosition, checkExplored: bool) {
    forall x, y :: lt.x <= x < rb.x && lt.y <= y < rb.y ==> TileReady(f, x, y, checkExplored)
  }

  /**
   * A mobile builder must have a path to the centre; a building may only be
   * the builder if it flies, or for a Nydus canal or a flag beacon.
   */
  predicate BuilderCanReach(f: Frame, lt: TilePosition, t: UnitType, builder: Option<Unit>) {
    builder.None? ||
    if !builder.value.unitType.isBuilding then f.unitHasPath(builder.value, Centre(lt, t))
    else builder.value.unitType.isFlyingBuilding || t.id == ZergNydusCanal || t.isFlagBeacon
  }

  /**
   * The occupancy filter as the source's operators group it:
   * (ground && not loaded && builder given) || (Nydus canal && four edge comparisons).
   */
  predicate BlocksAsWritten(t: UnitType, builder: Option<Unit>, targ: Position, u: Unit) {
    || (!u.flying && !u.loaded && builder.Some?)
    || (&& t.id == ZergNydusCanal
        && u.left <= targ.x + t.dimensionRight
        && u.top <= targ.y + t.dimensionDown
        && u.right <= targ.x + t.dimensionLeft
        && u.bottom <= targ.y + t.dimensionUp)
  }

  /**
   * The intended filter: a unit on the ground and not loaded, other than the
   * builder itself (which does count for a Nydus canal), whose box overlaps
   * the type's dimensions around the footprint's centre.
   */
  predicate BlocksIntended(t: UnitType, builder: Option<Unit>, targ: Position, u: Unit) {
    && !u.flying && !u.loaded
    && (builder.None? || u != builder.value || t.id == ZergNydusCanal)
    && u.left <= targ.x + t.dimensionRight
    && u.top <= targ.y + t.dimensionDown
    && u.right >= targ.x - t.dimensionLeft
    && u.bottom >= targ.y - t.dimensionUp
  }

  function OccupancyFilter(t: UnitType, builder: Option<Unit>, targ: Position, reading: Reading): Unit -> bool {
    if reading == AsWritten then u => BlocksAsWritten(t, builder, targ, u) else u => BlocksIntended(t, builder, targ, u)
  }

  /** The units in the footprint's pixel rectangle that pass the occupancy filter. */
  function Blockers(all: set<Unit>, lt: TilePosition, t: UnitType, builder: Option<Unit>, reading: Reading): (r: set<Unit>)
    ensures r <= all
  {
    var rb := RightBottom(lt, t);
    UnitsInRectangle(all, lt.x * TileSize, lt.y * TileSize, rb.x * TileSize, rb.y * TileSize,
      OccupancyFilter(t, builder, Centre(lt, t), reading))
  }

  /** Only an addon may be placed over units, and only over units that can move away. */
  predicate SiteClear(blockers: set<Unit>, t: UnitType) {
    forall u :: u in blockers ==> t.isAddon && u.unitType.canMove
  }

  /** Every footprint tile has creep exactly when `needsCreep`. */
  predicate CreepIs(f: Frame, lt: TilePosition, rb: TilePosition, needsCreep: bool) {
    forall x, y :: lt.x <= x < rb.x && lt.y <= y < rb.y ==> needsCreep == HasCreep(f, x, y)
  }

  /** Non-Zerg types, and Zerg types that need creep, must match creep on every tile. */
  predicate CreepMatches(f: Frame, lt: TilePosition, rb: TilePosition, t: UnitType) {
    t.race != Zerg || t.requiresCreep ==> CreepIs(f, lt, rb, t.requiresCreep)
  }

  /**
   * The power step. As written it rejects a psi type whose site IS powered;
   * the intended rule rejects one whose site is not.
   */
  predicate PowerPasses(f: Frame, lt: TilePosition, t: UnitType, reading: Reading)
    requires f.self.Some? || !t.requiresPsi
  {
    if reading == AsWritten then !(t.requiresPsi && PoweredTile(f, lt, t))
    else !(t.requiresPsi && !PoweredTile(f, lt, t))
  }

  /** The mineral's tile (or the one to its right) is seen but the mineral is not: it is gone. */
  predicate MineralGone(f: Frame, m: Unit) {
    var tp := m.initialTilePosition;
    (IsVisible(f, tp.x, tp.y) || IsVisible(f, tp.x + 1, tp.y)) && !m.visible
  }

  /** The open exclusion box around a depot's top-left tile for mineral fields. */
  predicate InMineralBox(tp: TilePosition, lt: TilePosition) {
    tp.x > lt.x - 5 && tp.y > lt.y - 4 && tp.x < lt.x + 7 && tp.y < lt.y + 6
  }

  /** The open exclusion box around a depot's top-left tile for geysers. */
  predicate InGeyserBox(tp: TilePosition, lt: TilePosition) {
    tp.x > lt.x - 7 && tp.y > lt.y - 5 && tp.x < lt.x + 7 && tp.y < lt.y + 6
  }

  /** No static mineral (unless known gone) and no static geyser starts inside the boxes. */
  predicate ResourcesClear(f: Frame, lt: TilePosition) {
    && (forall m :: m in f.staticMinerals ==> MineralGone(f, m) || !InMineralBox(m.initialTilePosition, lt))
    && (forall g :: g in f.staticGeysers ==> !InGeyserBox(g.initialTilePosition, lt))
  }

  /** A building that is not an addon places an addon: it must first fit where it lands. */
  predicate Relocates(t: UnitType, builder: Option<Unit>) {
    builder.Some? && !builder.value.unitType.isAddon && t.isAddon
  }

  /** The power step reads the local player; every psi type it may reach needs one. */
  predicate SelfKnown(f: Frame, t: UnitType, builder: Option<Unit>) {
    f.self.Some? || (!t.requiresPsi && (builder.Some? ==> !builder.value.unitType.requiresPsi))
  }

  /** The occupancy, creep and power steps, which the start-location type skips. */
  predicate SiteChecks(f: Frame, all: set<Unit>, lt: TilePosition, t: UnitType, builder: Option<Unit>, reading: Reading)
    requires f.self.Some? || !t.requiresPsi
  {
    t.id == SpecialStartLocation ||
    (SiteClear(Blockers(all, lt, t, builder, reading), t)
     && CreepMatches(f, lt, RightBottom(lt, t), t)
     && PowerPasses(f, lt, t, reading))
  }

  /** The steps between the refinery case and the addon redirection, in the source's order. */
  predicate LocalChecks(f: Frame, all: set<Unit>, lt: TilePosition, t: UnitType, builder: Option<Unit>,
                        checkExplored: bool, reading: Reading)
    requires f.self.Some? || !t.requiresPsi
  {
    && TilesReady(f, lt, RightBottom(lt, t), checkExplored)
    && BuilderCanReach(f, lt, t, builder)
    && SiteChecks(f, all, lt, t, builder, reading)
    && (t.isResourceDepot ==> ResourcesClear(f, lt))
  }

  /** The placement decision, step by step in the source's order. */
  predicate CanBuild(f: Frame, all: set<Unit>, position: TilePosition, t: UnitType, builder: Option<Unit>,
                     checkExplored: bool, reading: Reading)
    requires SelfKnown(f, t, builder)
    decreases if t.isAddon then 1 else 0
  {
    var lt := LeftTop(position, t, builder);
    var rb := RightBottom(lt, t);
    if !InBounds(f, lt, rb) then false
    else if t.isRefinery then RefinerySite(all, lt)
    else if !LocalChecks(f, all, lt, t, builder, checkExplored, reading) then false
    else if Relocates(t, builder) then
      CanBuild(f, all, TilePosition(lt.x - AddonDX, lt.y - AddonDY), builder.value.unitType, builder, checkExplored, reading)
    else true
  }

  // ---------------------------------------------------------------------
  // The scans of the source, each proved against its predicate

  /** The refinery step: the first geyser on `lt` decides. */
  method FindRefinerySite(all: set<Unit>, lt: TilePosition) returns (ok: bool)
    ensures ok == RefinerySite(all, lt)
  {
    var rest := Geysers(all);
    while rest != {}
      invariant rest <= Geysers(all)
      invariant forall g :: g in Geysers(all) - rest ==> g.tilePosition != lt
      decreases rest
    {
      var g :| g in rest;
      rest := rest - {g};
      if g.tilePosition == lt {
        return !g.visible || g.unitType.id == ResourceVespeneGeyser;
      }
    }
    return false;
  }

  /** The tile loop: every footprint tile buildable (and explored if asked). */
  method ScanTiles(f: Frame, lt: TilePosition, rb: TilePosition, checkExplored: bool) returns (ok: bool)
    ensures ok == TilesReady(f, lt, rb, checkExplored)
  {
    var x := lt.x;
    while x < rb.x
      invariant lt.x <= x || rb.x <= lt.x
      invariant forall i, j :: lt.x <= i < x && i < rb.x && lt.y <= j < rb.y ==> TileReady(f, i, j, checkExplored)
      decreases rb.x - x
    {
      var y := lt.y;
      while y < rb.y
        invariant lt.y <= y || rb.y <= lt.y
        invariant forall j :: lt.y <= j < y && j < rb.y ==> TileReady(f, x, j, checkExplored)
        decreases rb.y - y
      {
        if !IsBuildable(f, x, y, false) || (checkExplored && !IsExplored(f, x, y)) {
          assert !TileReady(f, x, y, checkExplored);
          return false;
        }
        y := y + 1;
      }
      x := x + 1;
    }
    return true;
  }

  /** The occupancy loop over the units in the rectangle. */
  method ScanBlockers(blockers: set<Unit>, t: UnitType) returns (ok: bool)
    ensures ok == SiteClear(blockers, t)
  {
    var rest := blockers;
    while rest != {}
      invariant rest <= blockers
      invariant SiteClear(blockers - rest, t)
      decreases rest
    {
      var u :| u in rest;
      rest := rest - {u};
      if !(t.isAddon && u.unitType.canMove) {
        return false;
      }
    }
    assert blockers - rest == blockers;
    return true;
  }

  /** The creep loop: every tile's creep must equal `needsCreep`. */
  method ScanCreep(f: Frame, lt: TilePosition, rb: TilePosition, needsCreep: bool) returns (ok: bool)
    ensures ok == CreepIs(f, lt, rb, needsCreep)
  {
    var x := lt.x;
    while x < rb.x
      invariant lt.x <= x || rb.x <= lt.x
      invariant forall i, j :: lt.x <= i < x && i < rb.x && lt.y <= j < rb.y ==> needsCreep == HasCreep(f, i, j)
      decreases rb.x - x
    {
      var y := lt.y;
      while y < rb.y
        invariant lt.y <= y || rb.y <= lt.y
        invariant forall j :: lt.y <= j < y && j < rb.y ==> needsCreep == HasCreep(f, x, j)
        decreases rb.y - y
      {
        if needsCreep != HasCreep(f, x, y) {
          return false;
        }
        y := y + 1;
      }
      x := x + 1;
    }
    return true;
  }

  /** The resource-depot loops over the static minerals, then the static geysers. */
  method ScanResources(f: Frame, lt: TilePosition) returns (ok: bool)
    ensures ok == ResourcesClear(f, lt)
  {
    var minerals := f.staticMinerals;
    while minerals != {}
      invariant minerals <= f.staticMinerals
      invariant forall m :: m in f.staticMinerals - minerals ==> MineralGone(f, m) || !InMineralBox(m.initialTilePosition, lt)
      decreases minerals
    {
      var m :| m in minerals;
      minerals := minerals - {m};
      var tp := m.initialTilePosition;
      if (IsVisible(f, tp.x, tp.y) || IsVisible(f, tp.x + 1, tp.y)) && !m.visible {
        continue;
      }
      if tp.x > lt.x - 5 && tp.y > lt.y - 4 && tp.x < lt.x + 7 && tp.y < lt.y + 6 {
        return false;
      }
    }
    var geysers := f.staticGeysers;
    while geysers != {}
      invariant geysers <= f.staticGeysers
      invariant forall g :: g in f.staticGeysers - geysers ==> !InGeyserBox(g.initialTilePosition, lt)
      decreases geysers
    {
      var g :| g in geysers;
      geysers := geysers - {g};
      var tp := g.initialTilePosition;
      if tp.x > lt.x - 7 && tp.y > lt.y - 5 && tp.x < lt.x + 7 && tp.y < lt.y + 6 {
        return false;
      }
    }
    return true;
  }

  /** The builder step. */
  method CheckBuilder(f: Frame, lt: TilePosition, t: UnitType, builder: Option<Unit>) returns (ok: bool)
    ensures ok == BuilderCanReach(f, lt, t, builder)
  {
    if builder.Some? {
      var b := builder.value;
      if !b.unitType.isBuilding {
        if !f.unitHasPath(b, Centre(lt, t)) {
          return false;
        }
      } else if !b.unitType.isFlyingBuilding && t.id != ZergNydusCanal && !t.isFlagBeacon {
        return false;
      }
    }
    return true;
  }

  /** The occupancy, creep and power steps for a type other than the start location, as written. */
  method CheckSite(f: Frame, all: set<Unit>, lt: TilePosition, t: UnitType, builder: Option<Unit>) returns (ok: bool)
    requires f.self.Some? || !t.requiresPsi
    requires t.id != SpecialStartLocation
    ensures ok == SiteChecks(f, all, lt, t, builder, AsWritten)
  {
    var rb := TilePosition(lt.x + t.tileWidth, lt.y + t.tileHeight);
    var targ := Centre(lt, t);
    var unitsInRect := UnitsInRectangle(all, lt.x * TileSize, lt.y * TileSize, rb.x * TileSize, rb.y * TileSize,
      OccupancyFilter(t, builder, targ, AsWritten));
    ok := ScanBlockers(unitsInRect, t);
    if !ok {
      return;
    }

    var needsCreep := t.requiresCreep;
    if t.race != Zerg || needsCreep {
      ok := ScanCreep(f, lt, rb, needsCreep);
      if !ok {
        return;
      }
    }

    if t.requiresPsi {
      var powered := HasPowerTile(f, lt, t);
      if powered {
        return false;
      }
    }
    return true;
  }

  /** Tiles, builder, site and resource steps, as written. */
  method CheckLocal(f: Frame, all: set<Unit>, lt: TilePosition, t: UnitType, builder: Option<Unit>, checkExplored: bool)
    returns (ok: bool)
    requires f.self.Some? || !t.requiresPsi
    ensures ok == LocalChecks(f, all, lt, t, builder, checkExplored, AsWritten)
  {
    var rb := TilePosition(lt.x + t.tileWidth, lt.y + t.tileHeight);
    ok := ScanTiles(f, lt, rb, checkExplored);
    if !ok {
      return;
    }

    ok := CheckBuilder(f, lt, t, builder);
    if !ok {
      return;
    }

    if t.id != SpecialStartLocation {
      ok := CheckSite(f, all, lt, t, builder);
      if !ok {
        return;
      }
    }

    if t.isResourceDepot {
      ok := ScanResources(f, lt);
      if !ok {
        return;
      }
    }

    return true;
  }

  /** `canBuildHere(position, type, builder, checkExplored)`, as written. */
  method CanBuildHere(f: Frame, all: set<Unit>, position: TilePosition, t: UnitType, builder: Option<Unit>, checkExplored: bool)
    returns (ok: bool)
    requires SelfKnown(f, t, builder)
    ensures ok == CanBuild(f, all, position, t, builder, checkExplored, AsWritten)
    decreases if t.isAddon then 1 else 0
  {
    var lt := if builder.Some? && t.isAddon then TilePosition(position.x + AddonDX, position.y + AddonDY) else position;
    var rb := TilePosition(lt.x + t.tileWidth, lt.y + t.tileHeight);

    if !TileValid(f, lt.x, lt.y) || !PositionValid(f, Position(rb.x * TileSize - 1, rb.y * TileSize - 1)) {
      return false;
    }

    if t.isRefinery {
      ok := FindRefinerySite(all, lt);
      return;
    }

    ok := CheckLocal(f, all, lt, t, builder, checkExplored);
    if !ok {
      return;
    }

    if builder.Some? && !builder.value.unitType.isAddon && t.isAddon {
      ok := CanBuildHere(f, all, TilePosition(lt.x - AddonDX, lt.y - AddonDY), builder.value.unitType, builder, checkExplored);
      return;
    }

    return true;
  }

  // ---------------------------------------------------------------------
  // Properties

  /** A footprint that leaves the map is refused, whatever else holds. */
  lemma OffMapRefused(f: Frame, all: set<Unit>, position: TilePosition, t: UnitType, builder: Option<Unit>,
                      checkExplored: bool, reading: Reading)
    requires SelfKnown(f, t, builder)
    requires CanBuild(f, all, position, t, builder, checkExplored, reading)
    ensures InBounds(f, LeftTop(position, t, builder), RightBottom(LeftTop(position, t, builder), t))
  {
  }

  /**
   * A refinery fits exactly where a geyser of `Game.getGeysers` stands: that
   * set holds only geysers, so the visibility clause never refuses.
   */
  lemma RefineryIffGeyser(f: Frame, all: set<Unit>, position: TilePosition, t: UnitType, builder: Option<Unit>,
                          checkExplored: bool, reading: Reading)
    requires SelfKnown(f, t, builder)
    requires t.isRefinery
    ensures var lt := LeftTop(position, t, builder);
            CanBuild(f, all, position, t, builder, checkExplored, reading)
            <==> InBounds(f, lt, RightBottom(lt, t)) && exists g :: g in Geysers(all) && g.tilePosition == lt
  {
    var lt := LeftTop(position, t, builder);
    if g :| g in Geysers(all) && g.tilePosition == lt {
      assert g.unitType.id == ResourceVespeneGeyser;
      assert RefinerySite(all, lt);
    }
  }

  /**
   * The addon redirection fires at most once: it lands back on the given
   * position with the builder's own type, for which it does not fire again.
   */
  lemma RedirectionFiresOnce(position: TilePosition, t: UnitType, builder: Option<Unit>)
    requires Relocates(t, builder)
    ensures var lt := LeftTop(position, t, builder);
            var back := TilePosition(lt.x - AddonDX, lt.y - AddonDY);
            back == position
            && LeftTop(back, builder.value.unitType, builder) == position
            && !Relocates(builder.value.unitType, builder)
  {
  }

  /** An addon placed by a building is allowed only where the building itself fits at the given position. */
  lemma AddonNeedsBuilderSite(f: Frame, all: set<Unit>, position: TilePosition, t: UnitType, builder: Option<Unit>,
                              checkExplored: bool, reading: Reading)
    requires SelfKnown(f, t, builder) && Relocates(t, builder) && !t.isRefinery
    requires CanBuild(f, all, position, t, builder, checkExplored, reading)
    ensures CanBuild(f, all, position, builder.value.unitType, builder, checkExplored, reading)
  {
    RedirectionFiresOnce(position, t, builder);
  }

  /**
   * A resource depot is refused when a static geyser starts in the geyser box,
   * or a static mineral not known to be gone starts in the mineral box.
   */
  lemma DepotKeepsClearOfResources(f: Frame, all: set<Unit>, position: TilePosition, t: UnitType, builder: Option<Unit>,
                                   checkExplored: bool, reading: Reading)
    requires SelfKnown(f, t, builder) && t.isResourceDepot && !t.isRefinery
    requires CanBuild(f, all, position, t, builder, checkExplored, reading)
    ensures forall g :: g in f.staticGeysers ==> !InGeyserBox(g.initialTilePosition, LeftTop(position, t, builder))
    ensures forall m :: m in f.staticMinerals && !MineralGone(f, m) ==> !InMineralBox(m.initialTilePosition, LeftTop(position, t, builder))
  {
  }

  /** For the start-location type the units on the map play no part (no refinery, no addon). */
  lemma StartLocationIgnoresUnits(f: Frame, all1: set<Unit>, all2: set<Unit>, position: TilePosition, t: UnitType,
                                  builder: Option<Unit>, checkExplored: bool, reading: Reading)
    requires SelfKnown(f, t, builder) && t.id == SpecialStartLocation && !t.isRefinery && !t.isAddon
    ensures CanBuild(f, all1, position, t, builder, checkExplored, reading) == CanBuild(f, all2, position, t, builder, checkExplored, reading)
  {
  }

  // ---------------------------------------------------------------------
  // Findings: each as written, and the intended rule with its property

  /** As written, a psi type that passes the site checks is accepted only where it is NOT powered. */
  lemma PowerCheckInverted(f: Frame, all: set<Unit>, position: TilePosition, t: UnitType, builder: Option<Unit>, checkExplored: bool)
    requires SelfKnown(f, t, builder) && t.requiresPsi && !t.isRefinery && t.id != SpecialStartLocation
    requires CanBuild(f, all, position, t, builder, checkExplored, AsWritten)
    ensures !PoweredTile(f, LeftTop(position, t, builder), t)
  {
  }

  /** Read as intended, an accepted psi type always stands on a powered site. */
  lemma IntendedSiteIsPowered(f: Frame, all: set<Unit>, position: TilePosition, t: UnitType, builder: Option<Unit>, checkExplored: bool)
    requires SelfKnown(f, t, builder) && t.requiresPsi && !t.isRefinery && t.id != SpecialStartLocation
    requires CanBuild(f, all, position, t, builder, checkExplored, Intended)
    ensures PoweredTile(f, LeftTop(position, t, builder), t)
  {
  }

  /** As written, with no builder and a type other than the Nydus canal, no unit ever blocks the site. */
  lemma NoBuilderNothingBlocks(all: set<Unit>, lt: TilePosition, t: UnitType)
    requires t.id != ZergNydusCanal
    ensures Blockers(all, lt, t, None, AsWritten) == {}
  {
    var rb := RightBottom(lt, t);
    var filter := OccupancyFilter(t, None, Centre(lt, t), AsWritten);
    forall u | u in all
      ensures !filter(u)
    {
    }
  }

  /** As written, a ground builder standing on its own site is counted among the blockers. */
  lemma BuilderBlocksItself(all: set<Unit>, lt: TilePosition, t: UnitType, b: Unit)
    requires b in all && !b.flying && !b.loaded
    requires var rb := RightBottom(lt, t);
             InRectangle(b.position, lt.x * TileSize, lt.y * TileSize, rb.x * TileSize, rb.y * TileSize)
    ensures b in Blockers(all, lt, t, Some(b), AsWritten)
  {
  }

  /** Read as intended, the builder never blocks its own site, except when a Nydus canal is placed. */
  lemma IntendedBuilderNeverBlocks(all: set<Unit>, lt: TilePosition, t: UnitType, b: Unit)
    requires t.id != ZergNydusCanal
    ensures b !in Blockers(all, lt, t, Some(b), Intended)
  {
  }

  /**
   * Read as intended, a ground unit that is not loaded, is not the builder
   * and stands inside the footprint and within the type's dimensions refuses
   * the site, unless an addon is placed over a unit that can move.
   */
  lemma IntendedGroundUnitsBlock(f: Frame, all: set<Unit>, position: TilePosition, t: UnitType, builder: Option<Unit>,
                                 checkExplored: bool, u: Unit)
    requires SelfKnown(f, t, builder) && !t.isRefinery && t.id != SpecialStartLocation
    requires CanBuild(f, all, position, t, builder, checkExplored, Intended)
    requires u in all && !u.flying && !u.loaded && (builder.None? || u != builder.value)
    requires var lt := LeftTop(position, t, builder);
             var rb := RightBottom(lt, t);
             var c := Centre(lt, t);
             && InRectangle(u.position, lt.x * TileSize, lt.y * TileSize, rb.x * TileSize, rb.y * TileSize)
             && u.left <= c.x + t.dimensionRight && u.top <= c.y + t.dimensionDown
             && u.right >= c.x - t.dimensionLeft && u.bottom >= c.y - t.dimensionUp
    ensures t.isAddon && u.unitType.canMove
  {
    var lt := LeftTop(position, t, builder);
    assert u in Blockers(all, lt, t, builder, Intended);
  }
}

/**
 * The psi-field power engine of `Game`: a static 10 x 16 mask of 32-pixel
 * buckets around each pylon, a strict box fast-reject, and an OR over the
 * player's existing, completed pylons.
 */
module PowerField {

  import opened Snapshot

  const MaskRows: nat := 10
  const MaskColumns: nat := 16

  type MaskRow = s: seq<bool> | |s| == MaskColumns
    witness [false, false, false, false, false, false, false, false, false, false, false, false, false, false, false, false]

  /** Row r covers vertical offsets [32r - 160, 32r - 128); column c horizontal offsets [32c - 256, 32c - 224). */
  const PsiFieldMask: seq<MaskRow> := [
    [false, false, false, false, false, true, true, true, true, true, true, false, false, false, false, false],
    [false, false, true, true, true, true, true, true, true, true, true, true, true, true, false, false],
    [false, true, true, true, true, true, true, true, true, true, true, true, true, true, true, false],
    [true, true, true, true, true, true, true, true, true, true, true, true, true, true, true, true],
    [true, true, true, true, true, true, true, true, true, true, true, true, true, true, true, true],
    [true, true, true, true, true, true, true, true, true, true, true, true, true, true, true, true],
    [true, true, true, true, true, true, true, true, true, true, true, true, true, true, true, true],
    [false, true, true, true, true, true, true, true, true, true, true, true, true, true, true, false],
    [false, false, true, true, true, true, true, true, true, true, true, true, true, true, false, false],
    [false, false, false, false, false, true, true, true, true, true, true, false, false, false, false, false]
  ]

  /** Half-extents of the fast-reject box, in pixels. */
  const ReachX: int := 256
  const ReachY: int := 160

  /** The mask row of a vertical offset inside the box. */
  function MaskRowIndex(pylonY: int, y: int): (r: nat)
    requires Abs(pylonY - y) < ReachY
    ensures r < MaskRows && r < |PsiFieldMask|
    ensures 32 * r - ReachY <= y - pylonY < 32 * r - ReachY + 32
  {
    (y - pylonY + ReachY) / 32
  }

  /** The mask column of a horizontal offset inside the box. */
  function MaskColumnIndex(pylonX: int, x: int): (r: nat)
    requires Abs(pylonX - x) < ReachX
    ensures r < MaskColumns
    ensures 32 * r - ReachX <= x - pylonX < 32 * r - ReachX + 32
  {
    (x - pylonX + ReachX) / 32
  }

  /** A valid, real type that does not both need psi and be a building is powered anywhere. */
  predicate Exempt(t: UnitType) {
    0 <= t.id < UnitTypeNone && (!t.requiresPsi || !t.isBuilding)
  }

  /** The pylon is strictly inside the fast-reject box around (x, y). */
  predicate InReach(p: Position, x: int, y: int) {
    Abs(p.x - x) < ReachX && Abs(p.y - y) < ReachY
  }

  /** The pylon exists, is completed, and its mask bit for (x, y) is set. */
  predicate PylonPowers(pylon: Unit, x: int, y: int) {
    && pylon.present
    && pylon.completed
    && InReach(pylon.position, x, y)
    && PsiFieldMask[MaskRowIndex(pylon.position.y, y)][MaskColumnIndex(pylon.position.x, x)]
  }

  /** Exempt, or some pylon of the set powers (x, y). */
  predicate Powered(x: int, y: int, t: UnitType, pylons: set<Unit>) {
    Exempt(t) || exists p :: p in pylons && PylonPowers(p, x, y)
  }

  /** The private static `hasPower`: scan the pylons, answer true on the first hit. */
  method HasPower(x: int, y: int, t: UnitType, pylons: set<Unit>) returns (r: bool)
    ensures r == Powered(x, y, t, pylons)
  {
    if 0 <= t.id && t.id < UnitTypeNone && (!t.requiresPsi || !t.isBuilding) {
      return true;
    }
    var rest := pylons;
    while rest != {}
      invariant rest <= pylons
      invariant forall p :: p in pylons - rest ==> !PylonPowers(p, x, y)
      decreases rest
    {
      var i :| i in rest;
      rest := rest - {i};
      if !i.present || !i.completed {
        continue;
      }
      var p := i.position;
      if Abs(p.x - x) >= ReachX {
        continue;
      }
      if Abs(p.y - y) >= ReachY {
        continue;
      }
      if PsiFieldMask[MaskRowIndex(p.y, y)][MaskColumnIndex(p.x, x)] {
        return true;
      }
    }
    return false;
  }

  /** The local player's pylons. */
  function SelfPylons(f: Frame): (r: set<Unit>)
    requires f.self.Some?
    ensures forall u :: u in r <==> u in f.self.value.units && u.unitType.id == ProtossPylon
  {
    set u | u in f.self.value.units && u.unitType.id == ProtossPylon
  }

  /** The source reads the local player's units here without a null check. */
  predicate SelfReadable(f: Frame, p: Position) {
    PositionValid(f, p) ==> f.self.Some?
  }

  /** `hasPowerPrecise`: off the map nothing is powered; on it, the local player's pylons decide. */
  predicate PoweredAt(f: Frame, p: Position, t: UnitType)
    requires SelfReadable(f, p)
  {
    PositionValid(f, p) && Powered(p.x, p.y, t, SelfPylons(f))
  }

  method HasPowerPrecise(f: Frame, p: Position, t: UnitType) returns (r: bool)
    requires SelfReadable(f, p)
    ensures r == PoweredAt(f, p, t)
  {
    if !PositionValid(f, p) {
      return false;
    }
    r := HasPower(p.x, p.y, t, SelfPylons(f));
  }

  /** The point a tile query with a type is answered at: the footprint centre for a real type, the tile corner otherwise. */
  function PowerPoint(tile: TilePosition, t: UnitType): (p: Position)
    ensures 0 <= t.id < UnitTypeNone ==> p == Position(tile.x * TileSize + t.tileWidth * HalfTile, tile.y * TileSize + t.tileHeight * HalfTile)
    ensures !(0 <= t.id < UnitTypeNone) ==> p == Position(tile.x * TileSize, tile.y * TileSize)
  {
    if 0 <= t.id < UnitTypeNone then Centre(tile, t) else ToPosition(tile)
  }

  /** The type a tile query is answered for: the type itself when real, `UnitType.None` otherwise. */
  function PowerType(t: UnitType): (u: UnitType)
    ensures 0 <= t.id < UnitTypeNone ==> u == t
    ensures !(0 <= t.id < UnitTypeNone) ==> u.id == UnitTypeNone && !Exempt(u)
  {
    if 0 <= t.id < UnitTypeNone then t else Placeholder(UnitTypeNone)
  }

  /** `hasPower(TilePosition, UnitType)`. */
  predicate PoweredTile(f: Frame, tile: TilePosition, t: UnitType)
    requires SelfReadable(f, PowerPoint(tile, t))
  {
    PoweredAt(f, PowerPoint(tile, t), PowerType(t))
  }

  method HasPowerTile(f: Frame, tile: TilePosition, t: UnitType) returns (r: bool)
    requires SelfReadable(f, PowerPoint(tile, t))
    ensures r == PoweredTile(f, tile, t)
  {
    if 0 <= t.id && t.id < UnitTypeNone {
      r := HasPowerPrecise(f, Centre(tile, t), t);
    } else {
      r := HasPowerPrecise(f, ToPosition(tile), Placeholder(UnitTypeNone));
    }
  }

  /** `hasPower(tileX, tileY, tileWidth, tileHeight, type)`: the centre is computed from the given size. */
  method HasPowerSized(f: Frame, tileX: int, tileY: int, tileWidth: int, tileHeight: int, t: UnitType) returns (r: bool)
    requires SelfReadable(f, FootprintCentre(TilePosition(tileX, tileY), tileWidth, tileHeight))
    ensures r == PoweredAt(f, Position(tileX * TileSize + tileWidth * HalfTile, tileY * TileSize + tileHeight * HalfTile), t)
  {
    r := HasPowerPrecise(f, FootprintCentre(TilePosition(tileX, tileY), tileWidth, tileHeight), t);
  }

  // ---------------------------------------------------------------------
  // Properties

  /** The result is an OR over pylons: powering by a union is powering by either part. */
  lemma PoweredByUnion(x: int, y: int, t: UnitType, a: set<Unit>, b: set<Unit>)
    ensures Powered(x, y, t, a + b) <==> Powered(x, y, t, a) || Powered(x, y, t, b)
  {
    if Powered(x, y, t, a + b) && !Exempt(t) {
      var p :| p in a + b && PylonPowers(p, x, y);
      if p in a {
        assert Powered(x, y, t, a);
      } else {
        assert Powered(x, y, t, b);
      }
    }
  }

  /** Without pylons, a psi-requiring building (or an id outside the real types) is never powered. */
  lemma NoPylonsNoPower(f: Frame, p: Position, t: UnitType)
    requires f.self.Some? && SelfPylons(f) == {}
    requires !Exempt(t)
    ensures !PoweredAt(f, p, t)
  {
  }

  /** A pylon that is not both present and completed powers nothing. */
  lemma UnfinishedPylonPowersNothing(pylon: Unit, x: int, y: int)
    requires !pylon.present || !pylon.completed
    ensures !PylonPowers(pylon, x, y)
  {
  }

  /** A pylon's own centre is in its field, once it exists and is completed. */
  lemma PylonPowersItsCentre(pylon: Unit)
    requires pylon.present && pylon.completed
    ensures PylonPowers(pylon, pylon.position.x, pylon.position.y)
  {
    assert MaskRowIndex(pylon.position.y, pylon.position.y) == 5;
    assert MaskColumnIndex(pylon.position.x, pylon.position.x) == 8;
  }

  /** Moving a pylon and the queried point by the same vector does not change the answer. */
  lemma TranslationInvariant(pylon: Unit, x: int, y: int, vx: int, vy: int)
    ensures PylonPowers(pylon.(position := Position(pylon.position.x + vx, pylon.position.y + vy)), x + vx, y + vy)
        <==> PylonPowers(pylon, x, y)
  {
    var moved := pylon.(position := Position(pylon.position.x + vx, pylon.position.y + vy));
    assert moved.position.x - (x + vx) == pylon.position.x - x;
    assert moved.position.y - (y + vy) == pylon.position.y - y;
    if InReach(pylon.position, x, y) {
      assert MaskRowIndex(moved.position.y, y + vy) == MaskRowIndex(pylon.position.y, y);
      assert MaskColumnIndex(moved.position.x, x + vx) == MaskColumnIndex(pylon.position.x, x);
    }
  }

  /** Nothing at or beyond the box edge is powered: the fast-reject is strict. */
  lemma BoxEdgeUnpowered(pylon: Unit, x: int, y: int)
    requires Abs(pylon.position.x - x) >= ReachX || Abs(pylon.position.y - y) >= ReachY
    ensures !PylonPowers(pylon, x, y)
  {
  }
}

/**
 * The spatial queries of `Game`, as filters over the unit set that
 * `Game.AllUnits` answers (passed in as `all`).
 */
module SpatialQueries {

  import opened Wrappers
  import opened Snapshot

  /** The mineral fields among `all`. */
  function Minerals(all: set<Unit>): (r: set<Unit>)
    ensures r <= all
    ensures forall u :: u in r <==> u in all && u.unitType.isMineralField
  {
    set u | u in all && u.unitType.isMineralField
  }

  /** The vespene geysers among `all`. */
  function Geysers(all: set<Unit>): (r: set<Unit>)
    ensures r <= all
    ensures forall u :: u in r <==> u in all && u.unitType.id == ResourceVespeneGeyser
  {
    set u | u in all && u.unitType.id == ResourceVespeneGeyser
  }

  /** The units standing on tile (tileX, tileY). */
  function UnitsOnTile(all: set<Unit>, tileX: int, tileY: int): (r: set<Unit>)
    ensures r <= all
    ensures forall u :: u in r <==> u in all && u.tilePosition == TilePosition(tileX, tileY)
  {
    set u | u in all && u.tilePosition.x == tileX && u.tilePosition.y == tileY
  }

  /** The position lies in the half-open rectangle [left, right) x [top, bottom). */
  predicate InRectangle(p: Position, left: int, top: int, right: int, bottom: int) {
    left <= p.x && top <= p.y && p.x < right && p.y < bottom
  }

  /** The units whose position is in the half-open rectangle and that pass `filter`. */
  function UnitsInRectangle(all: set<Unit>, left: int, top: int, right: int, bottom: int, filter: Unit -> bool): (r: set<Unit>)
    ensures r <= all
    ensures forall u :: u in r <==> u in all && InRectangle(u.position, left, top, right, bottom) && filter(u)
  {
    set u | u in all && InRectangle(u.position, left, top, right, bottom) && filter(u)
  }

  /**
   * Cutting the rectangle at column `mid` splits the answer into two disjoint
   * parts: the right edge of the left part is exclusive, the left edge of the
   * right part inclusive.
   */
  lemma RectangleSplits(all: set<Unit>, left: int, mid: int, top: int, right: int, bottom: int, filter: Unit -> bool)
    requires left <= mid <= right
    ensures UnitsInRectangle(all, left, top, right, bottom, filter)
         == UnitsInRectangle(all, left, top, mid, bottom, filter) + UnitsInRectangle(all, mid, top, right, bottom, filter)
    ensures UnitsInRectangle(all, left, top, mid, bottom, filter) !! UnitsInRectangle(all, mid, top, right, bottom, filter)
  {
  }

  /** A rectangle with no width holds no unit. */
  lemma EmptyRectangle(all: set<Unit>, left: int, top: int, bottom: int, filter: Unit -> bool)
    ensures UnitsInRectangle(all, left, top, left, bottom, filter) == {}
  {
  }

  /**
   * The overload taking coordinates and a radius answers the empty set,
   * whatever the units.
   */
  function UnitsInRadiusXY(all: set<Unit>, x: int, y: int, radius: int, filter: Unit -> bool): (r: set<Unit>)
    ensures r == {}
  {
    {}
  }

  /** The units within `radius` of `center` by the engine's approximate distance that pass `filter`. */
  function UnitsInRadius(f: Frame, all: set<Unit>, center: Position, radius: int, filter: Unit -> bool): (r: set<Unit>)
    ensures r <= all
    ensures forall u :: u in r <==> u in all && f.approxDistance(center, u.position) <= radius && filter(u)
  {
    set u | u in all && f.approxDistance(center, u.position) <= radius && filter(u)
  }

  /** `u` is in `s` and no unit of `s` is nearer to `center`. */
  predicate IsClosest(f: Frame, u: Unit, s: set<Unit>, center: Position) {
    u in s && forall v :: v in s ==> f.unitDistance(u, center) <= f.unitDistance(v, center)
  }

  /**
   * A unit of `s` at least as near to `center` as every other; nothing when
   * `s` is empty. Among equally near units any one may be answered.
   */
  method Closest(f: Frame, s: set<Unit>, center: Position) returns (r: Option<Unit>)
    ensures r.None? <==> s == {}
    ensures r.Some? ==> IsClosest(f, r.value, s, center)
  {
    r := None;
    var rest := s;
    while rest != {}
      invariant rest <= s
      invariant r.None? <==> rest == s
      invariant r.Some? ==> IsClosest(f, r.value, s - rest, center)
      decreases rest
    {
      var u :| u in rest;
      if r.None? || f.unitDistance(u, center) < f.unitDistance(r.value, center) {
        r := Some(u);
      }
      rest := rest - {u};
    }
  }

  method ClosestUnitInRectangle(f: Frame, all: set<Unit>, center: Position, left: int, top: int, right: int, bottom: int, filter: Unit -> bool)
    returns (r: Option<Unit>)
    ensures r.None? <==> UnitsInRectangle(all, left, top, right, bottom, filter) == {}
    ensures r.Some? ==> IsClosest(f, r.value, UnitsInRectangle(all, left, top, right, bottom, filter), center)
  {
    r := Closest(f, UnitsInRectangle(all, left, top, right, bottom, filter), center);
  }

  method ClosestUnitInRadius(f: Frame, all: set<Unit>, center: Position, radius: int, filter: Unit -> bool)
    returns (r: Option<Unit>)
    ensures r.None? <==> UnitsInRadius(f, all, center, radius, filter) == {}
    ensures r.Some? ==> IsClosest(f, r.value, UnitsInRadius(f, all, center, radius, filter), center)
  {
    r := Closest(f, UnitsInRadius(f, all, center, radius, filter), center);
  }
}

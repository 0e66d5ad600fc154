/**
 * Ground connectivity of `Game.hasPath`: two on-map positions are connected
 * when both lie in known regions of the same region group.
 */
module Connectivity {

  import opened Snapshot

  /** The region under a position, if the engine knows one. */
  predicate HasRegion(f: Frame, p: Position) {
    f.regionIdAt(p.x, p.y) in f.regions
  }

  function GroupAt(f: Frame, p: Position): int
    requires HasRegion(f, p)
  {
    f.regions[f.regionIdAt(p.x, p.y)].groupId
  }

  /** `hasPath(source, destination)`: only between on-map positions that lie in regions of one group. */
  function HasPath(f: Frame, source: Position, destination: Position): (r: bool)
    ensures r ==> PositionValid(f, source) && PositionValid(f, destination)
    ensures r ==> HasRegion(f, source) && HasRegion(f, destination)
  {
    && PositionValid(f, source) && PositionValid(f, destination)
    && HasRegion(f, source) && HasRegion(f, destination)
    && GroupAt(f, source) == GroupAt(f, destination)
  }

  /** A path exists exactly when both ends are on the map, in regions, and share the region group. */
  lemma PathMeansSameGroup(f: Frame, a: Position, b: Position)
    ensures HasPath(f, a, b) ==> PositionValid(f, a) && PositionValid(f, b) && GroupAt(f, a) == GroupAt(f, b)
    ensures !PositionValid(f, a) || !PositionValid(f, b) ==> !HasPath(f, a, b)
  {
  }

  /** Connectivity is reflexive on on-map positions that lie in a region. */
  lemma PathReflexive(f: Frame, a: Position)
    requires PositionValid(f, a) && HasRegion(f, a)
    ensures HasPath(f, a, a)
  {
  }

  lemma PathSymmetric(f: Frame, a: Position, b: Position)
    ensures HasPath(f, a, b) <==> HasPath(f, b, a)
  {
  }

  lemma PathTransitive(f: Frame, a: Position, b: Position, c: Position)
    requires HasPath(f, a, b) && HasPath(f, b, c)
    ensures HasPath(f, a, c)
  {
  }

  /** Positions inside the same region are connected. */
  lemma SameRegionConnected(f: Frame, a: Position, b: Position)
    requires PositionValid(f, a) && PositionValid(f, b) && HasRegion(f, a)
    requires f.regionIdAt(a.x, a.y) == f.regionIdAt(b.x, b.y)
    ensures HasPath(f, a, b)
  {
  }
}

/**
 * The per-tile terrain predicates of `Game`: off-map input answers `false`
 * (or `-1` for the ground height); on the map the engine's grid is read.
 */
module Terrain {

  import opened Snapshot

  function IsWalkable(f: Frame, walkX: int, walkY: int): (r: bool)
    ensures r ==> WalkValid(f, walkX, walkY)
  {
    if !WalkValid(f, walkX, walkY) then false else f.walkable(walkX, walkY)
  }

  function GroundHeight(f: Frame, tileX: int, tileY: int): (r: int)
    ensures !TileValid(f, tileX, tileY) ==> r == -1
  {
    if !TileValid(f, tileX, tileY) then -1 else f.groundHeight(tileX, tileY)
  }

  /** With `includeBuildings` the tile must also be unoccupied. */
  function IsBuildable(f: Frame, tileX: int, tileY: int, includeBuildings: bool): (r: bool)
    ensures r ==> TileValid(f, tileX, tileY)
    ensures r && includeBuildings ==> !f.occupied(tileX, tileY)
  {
    if !TileValid(f, tileX, tileY) then false
    else f.buildable(tileX, tileY) && (if includeBuildings then !f.occupied(tileX, tileY) else true)
  }

  function IsVisible(f: Frame, tileX: int, tileY: int): (r: bool)
    ensures r ==> TileValid(f, tileX, tileY)
  {
    if !TileValid(f, tileX, tileY) then false else f.visible(tileX, tileY)
  }

  function IsExplored(f: Frame, tileX: int, tileY: int): (r: bool)
    ensures r ==> TileValid(f, tileX, tileY)
  {
    if !TileValid(f, tileX, tileY) then false else f.explored(tileX, tileY)
  }

  function HasCreep(f: Frame, tileX: int, tileY: int): (r: bool)
    ensures r ==> TileValid(f, tileX, tileY)
  {
    if !TileValid(f, tileX, tileY) then false else f.creep(tileX, tileY)
  }

  /**
   * Counting buildings only narrows buildability: it is the plain answer
   * with an unoccupied tile on top.
   */
  lemma BuildableWithBuildings(f: Frame, tileX: int, tileY: int)
    ensures IsBuildable(f, tileX, tileY, true) <==> IsBuildable(f, tileX, tileY, false) && !f.occupied(tileX, tileY)
  {
  }

  /** Every terrain query answers the neutral value off the map. */
  lemma OffMapIsNeutral(f: Frame, tileX: int, tileY: int, b: bool)
    requires !TileValid(f, tileX, tileY)
    ensures !IsBuildable(f, tileX, tileY, b) && !IsVisible(f, tileX, tileY)
    ensures !IsExplored(f, tileX, tileY) && !HasCreep(f, tileX, tileY)
    ensures GroundHeight(f, tileX, tileY) == -1
  {
  }
}

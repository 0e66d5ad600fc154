# JBWAPI rules layer in Dafny

JBWAPI is a Java client for the Brood War API. A bot reads each game
frame's state through the `Game` object and asks it questions before issuing
commands. This project models the rule-deciding part of that object:

- can this unit type be placed at this tile (`canBuildHere`);
- can it be made by this builder (`canMake`);
- can this tech be researched or this upgrade started (`canResearch`, `canUpgrade`);
- is a position powered by the player's pylons (`hasPower`, `hasPowerPrecise`);
- how much damage does one unit type's weapon do to another (`getDamageFrom`, `getDamageTo`);
- which units are listed, on a tile, in a rectangle or in a radius, and which of them is closest;
- the per-tile terrain queries and ground connectivity (`hasPath`).

It also models three smaller pieces:

- `BWTA.getShortestPath`, which turns a chokepoint route into a tile path by tracing a ray between consecutive chokepoints;
- the altitude comparator of the map analyser;
- the `UnitSizeType` enumeration.

The engine's answers for one frame form a `Snapshot.Frame`. It holds the map size, the tile grids, the local player (`self`, possibly missing), regions and unit type tables. Rules are functions of that snapshot and of the set of units the game lists.

The unit bookkeeping that `Game` changes in place is a class, `GameUnits.Game`. It holds the unit map, the visible ids and the frame counter, and its methods show and hide units.

Most of the source's loops are methods proved equal to a specification predicate or function:

- the tile scans, the occupancy scan, the creep scan and the resource scan of `canBuildHere`;
- the required-units loop of `canMake`;
- the pylon loop of `hasPower`;
- the two loops of `getShortestPath`.

The closest-unit search is different: it is proved to return a unit that satisfies `IsClosest`, or none exactly when the set is empty.

The properties the game's rules promise are stated as lemmas about those predicates. Three places where the code does not do what it evidently means are listed under Findings:

- The predicates that contain those places take a `Reading`: `AsWritten` follows the code, `Intended` gives the evident rule.
- The executable methods follow the code as written.
- The corrected rules are proved about the `Intended` reading.

## Model

| member | source | states |
|---|---|---|
| `UnitSizeTypes.UnitSizeType.Id` | src/main/java/bwapi/types/UnitSizeType.java:5-16 | every size's id is below the number of sizes, six |
| `UnitSizeTypes.FromId` | src/main/java/bwapi/types/UnitSizeType.java:5-10 | an id names a size exactly when it lies in 0..5, and the size found carries that id |
| `UnitSizeTypes.IdValues` | src/main/java/bwapi/types/UnitSizeType.java:5-10 | Independent, Small, Medium, Large, None and Unknown carry ids 0 to 5 |
| `UnitSizeTypes.FromIdRoundTrip` | src/main/java/bwapi/types/UnitSizeType.java:12-16 | looking up a size's id gives the size back |
| `UnitSizeTypes.IdInjective` | src/main/java/bwapi/types/UnitSizeType.java:5-10 | two sizes with the same id are the same size |
| `DamageTypes.DamageType.Id` | src/main/java/bwapi/Game.java:1375-1384 | every damage type's id selects a row of the ratio table (below seven) |
| `AltitudeComparator.Compare` | src/main/java/bwem/util/PairGenericAltitudeComparator.java:23-27 | returns -1, 0 or 1 exactly when the first pair's altitude is below, equal to or above the second's |
| `AltitudeComparator.Antisymmetric` | src/main/java/bwem/util/PairGenericAltitudeComparator.java:26 | swapping the two pairs negates the answer |
| `AltitudeComparator.Transitive` | src/main/java/bwem/util/PairGenericAltitudeComparator.java:26 | "not above" is transitive, so the comparator orders pairs consistently |
| `AltitudeComparator.TotalAndReflexive` | src/main/java/bwem/util/PairGenericAltitudeComparator.java:26 | every pair compares equal to itself and any two pairs are comparable |
| `AltitudeComparator.IgnoresLeft` | src/main/java/bwem/util/PairGenericAltitudeComparator.java:23-25 | the answer depends only on the altitudes, not on the items they are paired with |
| `Snapshot.JavaDiv` | src/main/java/bwapi/Game.java:1400 | Java's integer `/`: the quotient is truncated toward zero, for negative dividends too |
| `Terrain.IsWalkable` | src/main/java/bwapi/Game.java:333-338 | a walk position is walkable only if it is on the map |
| `Terrain.GroundHeight` | src/main/java/bwapi/Game.java:344-349 | off the map the ground height is -1 |
| `Terrain.IsBuildable` | src/main/java/bwapi/Game.java:363-368 | only on-map tiles are buildable; counting buildings also demands an unoccupied tile |
| `Terrain.IsVisible` | src/main/java/bwapi/Game.java:374-379 | only on-map tiles are visible |
| `Terrain.IsExplored` | src/main/java/bwapi/Game.java:385-390 | only on-map tiles are explored |
| `Terrain.HasCreep` | src/main/java/bwapi/Game.java:396-401 | only on-map tiles have creep |
| `Terrain.BuildableWithBuildings` | src/main/java/bwapi/Game.java:363-368 | counting buildings gives exactly the plain answer plus an unoccupied tile |
| `Terrain.OffMapIsNeutral` | src/main/java/bwapi/Game.java:344-401 | off the map every tile query answers false, and the ground height is -1 |
| `GameUnits.Game.constructor` | src/main/java/bwapi/Game.java:46-97 | after a reset the unit map holds the initial units and none is visible |
| `GameUnits.Game.UnitShow` | src/main/java/bwapi/Game.java:98-103 | the id becomes visible; its unit is recorded only if the id is new; the map keeps every visible id |
| `GameUnits.Game.UnitHide` | src/main/java/bwapi/Game.java:105-107 | the id stops being visible; the unit map is unchanged |
| `GameUnits.Game.AllUnits` | src/main/java/bwapi/Game.java:130-137 | on frame 0 every known unit; later exactly the units of visible ids; always a subset of the known units |
| `GameUnits.ShownIsListed` | src/main/java/bwapi/Game.java:130-137 | after frame 0 a visible unit is listed |
| `GameUnits.HiddenIsNotListed` | src/main/java/bwapi/Game.java:130-137 | after frame 0 a hidden unit known under one id only is not listed |
| `SpatialQueries.Minerals` | src/main/java/bwapi/Game.java:139-143 | exactly the listed units whose type is a mineral field |
| `SpatialQueries.Geysers` | src/main/java/bwapi/Game.java:145-149 | exactly the listed units that are vespene geysers |
| `SpatialQueries.UnitsOnTile` | src/main/java/bwapi/Game.java:262-267 | exactly the listed units whose tile position is the given tile |
| `SpatialQueries.UnitsInRectangle` | src/main/java/bwapi/Game.java:273-278 | exactly the listed units inside the half-open pixel rectangle that pass the filter |
| `SpatialQueries.RectangleSplits` | src/main/java/bwapi/Game.java:276 | cutting a rectangle at a column splits its units into two disjoint parts |
| `SpatialQueries.EmptyRectangle` | src/main/java/bwapi/Game.java:276 | a rectangle of zero width holds no unit |
| `SpatialQueries.UnitsInRadiusXY` | src/main/java/bwapi/Game.java:284-286 | the coordinate overload always answers the empty set |
| `SpatialQueries.UnitsInRadius` | src/main/java/bwapi/Game.java:288-293 | exactly the listed units whose approximate distance from the centre is within the radius and that pass the filter |
| `SpatialQueries.Closest` | src/main/java/bwapi/Game.java:296-297 | no unit exactly when the set is empty; otherwise a member no farther from the centre than any other |
| `SpatialQueries.ClosestUnitInRectangle` | src/main/java/bwapi/Game.java:295-298 | null exactly when the rectangle holds no unit, otherwise a closest unit among them |
| `SpatialQueries.ClosestUnitInRadius` | src/main/java/bwapi/Game.java:300-303 | null exactly when no unit is in range, otherwise a closest unit among them |
| `PowerField.MaskRowIndex` | src/main/java/bwapi/Game.java:434 | for a y offset within reach, the row lies in the mask and is the 32-pixel band holding the offset |
| `PowerField.MaskColumnIndex` | src/main/java/bwapi/Game.java:434 | for an x offset within reach, the column lies in the mask and is the 32-pixel band holding the offset |
| `PowerField.HasPower` | src/main/java/bwapi/Game.java:416-439 | powered exactly when the type is exempt, or some existing, completed pylon within reach covers the point with its field mask |
| `PowerField.SelfPylons` | src/main/java/bwapi/Game.java:457 | exactly the local player's units that are pylons |
| `PowerField.HasPowerPrecise` | src/main/java/bwapi/Game.java:453-458 | false off the map; otherwise the pylon rule over the local player's pylons |
| `PowerField.PowerPoint` | src/main/java/bwapi/Game.java:472-477 | a real type is tested at its footprint's centre, any other at the tile's corner |
| `PowerField.PowerType` | src/main/java/bwapi/Game.java:472-477 | a real type is tested as itself, any other as the None type, which is not exempt |
| `PowerField.HasPowerTile` | src/main/java/bwapi/Game.java:472-477 | the tile overload answers the precise rule at the point and type above |
| `PowerField.HasPowerSized` | src/main/java/bwapi/Game.java:483-485 | the sized overload answers the precise rule at the centre of the given footprint |
| `PowerField.PoweredByUnion` | src/main/java/bwapi/Game.java:422-438 | a point is powered by a union of pylon sets exactly when one of the sets powers it |
| `PowerField.NoPylonsNoPower` | src/main/java/bwapi/Game.java:453-458 | a non-exempt type with no pylons of the local player is never powered |
| `PowerField.UnfinishedPylonPowersNothing` | src/main/java/bwapi/Game.java:423-425 | a pylon that is gone or not complete powers no point |
| `PowerField.PylonPowersItsCentre` | src/main/java/bwapi/Game.java:403-413 | a completed pylon powers its own position |
| `PowerField.TranslationInvariant` | src/main/java/bwapi/Game.java:427-434 | moving the pylon and the point by the same vector keeps the answer |
| `PowerField.BoxEdgeUnpowered` | src/main/java/bwapi/Game.java:427-432 | points 256 pixels or more away across, or 160 or more up or down, are never powered |
| `Placement.LeftTop` | src/main/java/bwapi/Game.java:505-508 | an addon placed by a builder is shifted 4 tiles right and 1 down; any other placement uses the given tile |
| `Placement.Blockers` | src/main/java/bwapi/Game.java:549-556 | the blockers are among the listed units |
| `Placement.FindRefinerySite` | src/main/java/bwapi/Game.java:517-524 | a refinery fits exactly where a listed geyser stands on the footprint and is unseen or still a geyser |
| `Placement.ScanTiles` | src/main/java/bwapi/Game.java:527-534 | every footprint tile is buildable, and explored when asked |
| `Placement.ScanBlockers` | src/main/java/bwapi/Game.java:558-562 | every unit in the footprint is one an addon may be placed over |
| `Placement.ScanCreep` | src/main/java/bwapi/Game.java:566-575 | every footprint tile has creep exactly when the type needs creep |
| `Placement.ScanResources` | src/main/java/bwapi/Game.java:585-607 | no static geyser, and no static mineral not known to be gone, starts in the depot's exclusion boxes |
| `Placement.CheckBuilder` | src/main/java/bwapi/Game.java:537-546 | a mobile builder needs a ground path to the centre; a building builder must fly, or place a Nydus canal or a beacon |
| `Placement.CheckSite` | src/main/java/bwapi/Game.java:549-582 | the occupancy, creep and power steps, as the code groups them |
| `Placement.CheckLocal` | src/main/java/bwapi/Game.java:526-607 | the tile, builder, site and resource steps in the code's order |
| `Placement.CanBuildHere` | src/main/java/bwapi/Game.java:503-618 | the full placement decision with its early refusals and the one addon redirection, as the code is written |
| `Placement.OffMapRefused` | src/main/java/bwapi/Game.java:511-513 | an accepted footprint lies wholly on the map |
| `Placement.RefineryIffGeyser` | src/main/java/bwapi/Game.java:517-524 | a refinery is accepted exactly on an on-map footprint where a geyser stands |
| `Placement.RedirectionFiresOnce` | src/main/java/bwapi/Game.java:611-614 | the redirection lands back on the given tile with the builder's own type, and does not fire again |
| `Placement.AddonNeedsBuilderSite` | src/main/java/bwapi/Game.java:611-614 | an addon is accepted only where its building also fits |
| `Placement.DepotKeepsClearOfResources` | src/main/java/bwapi/Game.java:584-607 | an accepted depot has no static geyser, and no live static mineral, in its exclusion boxes |
| `Placement.StartLocationIgnoresUnits` | src/main/java/bwapi/Game.java:549 | for the start-location type the units on the map do not change the answer |
| `Placement.PowerCheckInverted` | src/main/java/bwapi/Game.java:577-580 | as written, an accepted psi building stands on an unpowered site |
| `Placement.IntendedSiteIsPowered` | src/main/java/bwapi/Game.java:577-580 | read as intended, an accepted psi building stands on a powered site |
| `Placement.NoBuilderNothingBlocks` | src/main/java/bwapi/Game.java:551-556 | as written, with no builder and any type but the Nydus canal, no unit blocks the site |
| `Placement.BuilderBlocksItself` | src/main/java/bwapi/Game.java:551-556 | as written, a ground builder standing on its own site blocks it |
| `Placement.IntendedBuilderNeverBlocks` | src/main/java/bwapi/Game.java:551-556 | read as intended, the builder never blocks its own site unless a Nydus canal is placed |
| `Placement.IntendedGroundUnitsBlock` | src/main/java/bwapi/Game.java:549-562 | read as intended, a ground unit other than the builder inside the footprint refuses it, unless an addon goes over a unit that can move |
| `Legality.LastAddonIsLast` | src/main/java/bwapi/Game.java:713-722 | the addon remembered is the last addon among the required units, or None when there is none |
| `Legality.HangarCapacity` | src/main/java/bwapi/Game.java:664-693 | carriers hold 4 interceptors, 8 with the upgrade or as the hero; reavers hold 5 scarabs, 10 likewise; any other builder gets 0, and its room is not checked |
| `Legality.ScanRequirements` | src/main/java/bwapi/Game.java:713-722 | every required unit count is met, and the last required addon is returned |
| `Legality.CheckBuilder` | src/main/java/bwapi/Game.java:646-693 | the builder is the type's maker, or a larva producer with larvae, and its hangar has room |
| `Legality.CheckPayable` | src/main/java/bwapi/Game.java:696-711 | the player holds the minerals, gas and supply |
| `Legality.CanMake` | src/main/java/bwapi/Game.java:624-732 | the full `canMake` decision in the code's order |
| `Legality.CanResearch` | src/main/java/bwapi/Game.java:742-787 | an allowed research has a local player, is not researched or in progress, is paid for, and its unit is owned by the player |
| `Legality.CanUpgrade` | src/main/java/bwapi/Game.java:797-839 | an allowed upgrade has a local player, is below its maximum, is not in progress, and its unit is owned by the player |
| `Legality.NoSelfNothingAllowed` | src/main/java/bwapi/Game.java:625-629 | without a local player nothing can be made, researched or upgraded |
| `Legality.MakeNeedsPrice` | src/main/java/bwapi/Game.java:696-704 | apart from a Nydus exit, making a unit needs its mineral and gas price in stock |
| `Legality.NydusExitRule` | src/main/java/bwapi/Game.java:647-652 | a Nydus canal makes its exit exactly when it is complete and has none, whatever the stock |
| `Legality.CarrierIsFull` | src/main/java/bwapi/Game.java:667-679 | a carrier or the Gantrithor whose interceptors and queue reach its capacity (4, or 8 with the upgrade or as the hero) can make nothing |
| `Legality.ReaverIsFull` | src/main/java/bwapi/Game.java:680-692 | a reaver or the Warbringer whose scarabs and queue reach its capacity (5, or 10 with the upgrade or as the hero) can make nothing |
| `Legality.ForeignBuilderRefused` | src/main/java/bwapi/Game.java:640-644 | a builder owned by another player can make nothing |
| `Legality.UnmetRequirementRefuses` | src/main/java/bwapi/Game.java:715-722 | one unmet required-unit entry refuses, except for a Nydus exit |
| `Legality.NoLarvaNoMorph` | src/main/java/bwapi/Game.java:655-659 | a larva producer with no larvae cannot make a larva-built type |
| `Legality.MakeMonotoneInStock` | src/main/java/bwapi/Game.java:696-704 | more minerals and gas never turn an allowed make into a refusal |
| `Legality.ResearchOnlyOnce` | src/main/java/bwapi/Game.java:762-768 | researched or in-progress tech cannot be researched |
| `Legality.ResearchChecksOnlyRestrict` | src/main/java/bwapi/Game.java:749-761 | naming a unit, and checking that it is free to work, only add refusals |
| `Legality.ResearchMonotoneInStock` | src/main/java/bwapi/Game.java:774-780 | more minerals and gas never turn an allowed research into a refusal |
| `Legality.UpgradeStopsAtMax` | src/main/java/bwapi/Game.java:830-832 | at the maximum level an upgrade is refused whatever the stock |
| `Legality.UpgradePaysNextLevel` | src/main/java/bwapi/Game.java:816-838 | an allowed upgrade is covered at the price of the next level |
| `Legality.UpgradeChecksOnlyRestrict` | src/main/java/bwapi/Game.java:803-815 | naming a unit, and checking that it is free to work, only add refusals |
| `Legality.UpgradeMonotoneInStock` | src/main/java/bwapi/Game.java:834-838 | more minerals and gas never turn an allowed upgrade into a refusal |
| `Damage.DamageFromImpl` | src/main/java/bwapi/Game.java:1386-1401 | no weapon against the target, or a zero ratio, gives zero damage; non-negative weapon damage never gives negative damage |
| `Damage.DamageFrom` | src/main/java/bwapi/Game.java:1412-1414 | a named defender is used as given and a missing one is the local player; no weapon gives zero damage |
| `Damage.DamageTo` | src/main/java/bwapi/Game.java:1424-1426 | a named attacker is used as given and a missing one is the local player; no weapon gives zero damage |
| `Damage.Ratio` | src/main/java/bwapi/Game.java:1375-1384 | every ratio lies between 0 and 256 |
| `Damage.RatioTable` | src/main/java/bwapi/Game.java:1375-1384 | size and damage types Independent, None and Unknown give 0; normal and ignore-armour give 256 against real sizes; explosive and concussive scale as the table says |
| `Damage.NoWeaponNoDamage` | src/main/java/bwapi/Game.java:1386-1401 | no weapon, a damage type that hurts nothing, or a size no weapon hurts means zero damage |
| `Damage.DamageBounded` | src/main/java/bwapi/Game.java:1393-1400 | with non-negative damage and armour, the result lies between 0 and the weapon's damage |
| `Damage.IgnoreArmorIgnoresDefender` | src/main/java/bwapi/Game.java:1396-1398 | ignore-armour weapons do the same damage to any defender |
| `Damage.ArmourNeverHelpsAttacker` | src/main/java/bwapi/Game.java:1396-1400 | more armour never means more damage |
| `Damage.FromAndToAgree` | src/main/java/bwapi/Game.java:1412-1426 | with both players named, `getDamageFrom` and `getDamageTo` agree |
| `Damage.MissingPlayerIsSelf` | src/main/java/bwapi/Game.java:1412-1426 | a missing defender (for `getDamageFrom`) or attacker (for `getDamageTo`) is the local player |
| `Connectivity.HasPath` | src/main/java/bwapi/Game.java:1307-1316 | a path is reported only between on-map positions that both lie in known regions |
| `Connectivity.PathMeansSameGroup` | src/main/java/bwapi/Game.java:1307-1316 | a path means both ends are on the map and share a region group; an off-map end means no path |
| `Connectivity.PathReflexive` | src/main/java/bwapi/Game.java:1307-1316 | an on-map position in a region has a path to itself |
| `Connectivity.PathSymmetric` | src/main/java/bwapi/Game.java:1307-1316 | a path from a to b exists exactly when one from b to a does |
| `Connectivity.PathTransitive` | src/main/java/bwapi/Game.java:1307-1316 | paths compose |
| `Connectivity.SameRegionConnected` | src/main/java/bwapi/Game.java:1307-1316 | two on-map positions in the same region are connected |
| `ShortestPath.AppendRay` | src/main/java/bwta/BWTA.java:120-145 | the inner loop appends the ray between two chokepoints to the path |
| `ShortestPath.GetShortestPath` | src/main/java/bwta/BWTA.java:111-150 | the path is the rays between consecutive chokepoints of the route, in order, as the code is written |
| `ShortestPath.TraceLength` | src/main/java/bwta/BWTA.java:134-145 | the loop records exactly `n` tiles |
| `ShortestPath.TraceSteps` | src/main/java/bwta/BWTA.java:134-145 | consecutive tiles of a ray are one x step or one y step apart |
| `ShortestPath.TraceEnd` | src/main/java/bwta/BWTA.java:130-145 | the error term splits the steps: the ray ends `dx` x steps and `dy` y steps from its start |
| `ShortestPath.SegmentShape` | src/main/java/bwta/BWTA.java:123-145 | a ray starts on the first chokepoint, has `1 + dx + dy` tiles and moves one step at a time |
| `ShortestPath.SegmentEnd` | src/main/java/bwta/BWTA.java:123-145 | a ray ends `dx` steps along its x direction and `dy` along its y direction from the start |
| `ShortestPath.IntendedSegmentReachesTarget` | src/main/java/bwta/BWTA.java:128-129 | with the y direction taken from the y coordinates, every ray ends on its target |
| `ShortestPath.AsWrittenSegmentEnd` | src/main/java/bwta/BWTA.java:128-129 | as written, a ray ends in the target's column, and on the target exactly when dy is 0 or both directions agree |
| `ShortestPath.AsWrittenMissesTarget` | src/main/java/bwta/BWTA.java:129 | as written, the ray from (0, 0) towards (1, -1) is exactly (0, 0), (0, 1), (1, 1), which misses the target |
| `ShortestPath.ShortRouteEmptyPath` | src/main/java/bwta/BWTA.java:116-119 | a route of fewer than two chokepoints gives the empty path |
| `ShortestPath.PathLength` | src/main/java/bwta/BWTA.java:117-148 | the path holds `1 + dx + dy` tiles per consecutive pair of chokepoints |
| `ShortestPath.IntendedPathJoinsEnds` | src/main/java/bwta/BWTA.java:117-148 | read as intended, the path starts on the first chokepoint and ends on the last |
| `ShortestPath.IntendedJointRepeated` | src/main/java/bwta/BWTA.java:117-148 | read as intended, each inner chokepoint appears twice in a row, ending one ray and starting the next |

## Left out

- The unit, player, region and type objects are values of a snapshot. Their own accessor logic (`Unit`, `Player`, `UnitType` and the like) is not part of this model. The engine's per-frame data is the snapshot's fields and function-valued fields.
- Java `int` overflow is not modelled: integers are unbounded. The rules add and multiply small game quantities.
- A missing local player makes `hasPowerPrecise` fail with a null dereference on an on-map position. `PowerField.HasPowerPrecise` requires a local player exactly there.
- `Placement.CanBuildHere`: the source reads the local player only in the power step. The method requires a local player whenever the type, or the builder's type, needs psi. That also excludes inputs the source refuses earlier without reading the local player: an off-map footprint, a refinery, an unbuildable or unexplored tile, and a builder that cannot reach the site. For those inputs with no local player the model promises nothing.
- The rules take the listed units (`getAllUnits`) as a set argument instead of reading them from the `Game` object.
- `SpatialQueries.Closest`: when several units are equally close, the source returns whichever the stream meets first. The model promises only a closest one.
- Overloads that only supply default arguments are not modelled separately. Drawing, commands, `getBuildLocation`, `issueCommand`, the other BWTA wrappers and nearest-chokepoint or nearest-base queries are outside the modelled core.
- The route of chokepoints that `getShortestPath` walks comes from the map analyser's `getPath`. It is a parameter, already converted to tiles.
- `Player.hasUnitTypeRequirement(t)` without a count is `hasRequirement(t, 1)`.
- The required-units map is iterated in its key order; the model takes that order as a sequence.
- The set of pylons is unordered. The order in which the pylon loop visits it cannot change the answer (`PowerField.PoweredByUnion`).
- The `DamageType` enumeration file is not part of this model. Its ids are taken from the rows of the ratio table.
- `Legality.CanResearch` states only necessary conditions in its own contract. The full rule is its body, and the lemmas give the remaining properties.
- `Legality.CanUpgrade` states only necessary conditions in its own contract. The full rule is its body, and the lemmas give the remaining properties.

## Findings

| source | as written | input that shows it | evidently intended | confidence | as-written member | corrected member |
|---|---|---|---|---|---|---|
| src/main/java/bwapi/Game.java:578 | a psi building is refused when its site IS powered | a Gateway whose footprint centre lies in a completed pylon's field is refused; the same footprint with no pylon passes the power step | refuse when the site is NOT powered | high, not executed | `Placement.PowerCheckInverted` | `Placement.IntendedSiteIsPowered` |
| src/main/java/bwapi/Game.java:551-556 | the filter groups as (ground and not loaded and a builder is given) or (Nydus canal and four edge tests), and the right and bottom tests compare the wrong way | with no builder, a Marine standing inside a Barracks footprint blocks nothing; with a ground builder, the builder blocks its own site | a ground, unloaded unit other than the builder (the builder too for a Nydus canal) whose box overlaps the type's dimensions around the centre | medium, not executed | `Placement.NoBuilderNothingBlocks` | `Placement.IntendedGroundUnitsBlock` |
| src/main/java/bwta/BWTA.java:129 | the y step direction is taken from the x coordinates | chokepoints (0, 0) then (1, -1): the ray is (0, 0), (0, 1), (1, 1) and ends off the target | the y direction comes from the y coordinates, so every ray ends on its target | high, not executed | `ShortestPath.AsWrittenMissesTarget` | `ShortestPath.IntendedSegmentReachesTarget` |

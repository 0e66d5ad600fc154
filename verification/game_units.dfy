/**
 * The unit bookkeeping of `Game`: the `units` map from id to unit and the
 * set of currently visible ids, updated in place by the show/hide events.
 */
module GameUnits {

  import opened Snapshot

  class Game {
    /** Every unit ever seen, by id. */
    var units: map<int, Unit>
    /** The ids of the units visible now. */
    var visibleUnits: set<int>
    /** The frame counter of the match. */
    var frameCount: int

    /** Every visible id names a known unit. */
    ghost predicate Valid()
      reads this
    {
      visibleUnits <= units.Keys
    }

    /** The state after the match start: the initial units, none visible yet. */
    constructor (initialUnits: map<int, Unit>, frame: int)
      ensures Valid()
      ensures units == initialUnits && visibleUnits == {} && frameCount == frame
    {
      units := initialUnits;
      visibleUnits := {};
      frameCount := frame;
    }

    /**
     * A unit becomes visible. `data` is the unit the engine reports for `id`;
     * it is recorded only when the id is new.
     */
    method UnitShow(id: int, data: Unit)
      requires Valid()
      modifies this
      ensures Valid()
      ensures units == if id in old(units) then old(units) else old(units)[id := data]
      ensures visibleUnits == old(visibleUnits) + {id}
      ensures frameCount == old(frameCount)
    {
      if id !in units {
        units := units[id := data];
      }
      visibleUnits := visibleUnits + {id};
    }

    /** A unit stops being visible; it stays known. */
    method UnitHide(id: int)
      requires Valid()
      modifies this
      ensures Valid()
      ensures visibleUnits == old(visibleUnits) - {id}
      ensures units == old(units) && frameCount == old(frameCount)
    {
      visibleUnits := visibleUnits - {id};
    }

    /** Every known unit on frame 0, afterwards only the visible ones. */
    function AllUnits(): (r: set<Unit>)
      requires Valid()
      reads this
      ensures frameCount == 0 ==> r == units.Values
      ensures frameCount != 0 ==> forall u :: u in r <==> exists id :: id in visibleUnits && units[id] == u
      ensures r <= units.Values
    {
      if frameCount == 0 then units.Values
      else set id | id in visibleUnits :: units[id]
    }
  }

  /** After a show on a later frame the shown unit is among all units. */
  lemma ShownIsListed(g: Game, id: int)
    requires g.Valid() && g.frameCount != 0 && id in g.visibleUnits
    ensures g.units[id] in g.AllUnits()
  {
  }

  /** After a hide on a later frame, a unit known only under that id is no longer listed. */
  lemma HiddenIsNotListed(g: Game, id: int)
    requires g.Valid() && g.frameCount != 0 && id !in g.visibleUnits && id in g.units
    requires forall j :: j in g.units && j != id ==> g.units[j] != g.units[id]
    ensures g.units[id] !in g.AllUnits()
  {
  }
}

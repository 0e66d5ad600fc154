/**
 * The size classes of unit types. Each enumerant carries a fixed `id`, which is
 * the column index of the damage ratio table.
 */
module UnitSizeTypes {

  import opened Wrappers

  /** Number of size classes, i.e. the column count of the damage ratio table. */
  const SizeCount: nat := 6

  datatype UnitSizeType = Independent | Small | Medium | Large | None | Unknown {

    /** The enumerant's id, fixed per constant. */
    function Id(): (r: nat)
      ensures r < SizeCount
    {
      match this
      case Independent => 0
      case Small => 1
      case Medium => 2
      case Large => 3
      case None => 4
      case Unknown => 5
    }
  }

  /** The enumerant with the given id, if there is one. */
  function FromId(id: int): (r: Option<UnitSizeType>)
    ensures r.Some? <==> 0 <= id < SizeCount
    ensures r.Some? ==> r.value.Id() == id
  {
    if id == 0 then Some(Independent)
    else if id == 1 then Some(Small)
    else if id == 2 then Some(Medium)
    else if id == 3 then Some(Large)
    else if id == 4 then Some(UnitSizeType.None)
    else if id == 5 then Some(Unknown)
    else Option.None
  }

  /** The declared ids, enumerant by enumerant. */
  lemma IdValues()
    ensures Independent.Id() == 0 && Small.Id() == 1 && Medium.Id() == 2
    ensures Large.Id() == 3 && UnitSizeType.None.Id() == 4 && Unknown.Id() == 5
  {
  }

  /** Reading a size back from its id gives the same size. */
  lemma FromIdRoundTrip(s: UnitSizeType)
    ensures FromId(s.Id()) == Some(s)
  {
  }

  /** Distinct enumerants have distinct ids. */
  lemma IdInjective(s: UnitSizeType, t: UnitSizeType)
    ensures s.Id() == t.Id() ==> s == t
  {
    FromIdRoundTrip(s);
    FromIdRoundTrip(t);
  }
}

/** The damage types of weapons; `Id` is the row index of the damage ratio table. */
module DamageTypes {

  /** Number of damage types, i.e. the row count of the damage ratio table. */
  const DamageTypeCount: nat := 7

  datatype DamageType = Independent | Explosive | Concussive | Normal | IgnoreArmor | None | Unknown {
    function Id(): (r: nat)
      ensures r < DamageTypeCount
    {
      match this
      case Independent => 0
      case Explosive => 1
      case Concussive => 2
      case Normal => 3
      case IgnoreArmor => 4
      case None => 5
      case Unknown => 6
    }
  }

}

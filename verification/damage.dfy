/**
 * The damage calculator of `Game`: the damage one hit of a unit type's
 * weapon does to another unit type, after the defender's armour and the
 * damage-type against size ratio (out of 256, Java integer division).
 */
module Damage {

  import opened Wrappers
  import opened Snapshot
  import UnitSizeTypes
  import DamageTypes

  /** Rows by damage type id, columns by unit size id. */
  const DamageRatio: seq<seq<int>> := [
    [0,   0,   0,   0, 0, 0],   // Independent
    [0, 128, 192, 256, 0, 0],   // Explosive
    [0, 256, 128,  64, 0, 0],   // Concussive
    [0, 256, 256, 256, 0, 0],   // Normal
    [0, 256, 256, 256, 0, 0],   // Ignore_Armor
    [0,   0,   0,   0, 0, 0],   // None
    [0,   0,   0,   0, 0, 0]    // Unknown
  ]

  /** The ratio (out of 256) of a damage type against a unit size. */
  function Ratio(d: DamageTypes.DamageType, s: UnitSizeTypes.UnitSizeType): (r: int)
    ensures 0 <= r <= 256
  {
    assert |DamageRatio| == DamageTypes.DamageTypeCount;
    assert forall i :: 0 <= i < |DamageRatio| ==> |DamageRatio[i]| == UnitSizeTypes.SizeCount && forall j :: 0 <= j < UnitSizeTypes.SizeCount ==> 0 <= DamageRatio[i][j] <= 256;
    DamageRatio[d.Id()][s.Id()]
  }

  /** Air targets are hit by the air weapon, all others by the ground weapon. */
  function WeaponAgainst(fromType: UnitType, toType: UnitType): WeaponType {
    if toType.isFlyer then fromType.airWeapon else fromType.groundWeapon
  }

  /** The weapon's damage before armour: the attacker's upgraded damage, or the catalog's amount times factor. */
  function BaseDamage(wpn: WeaponType, fromPlayer: Option<Player>): int {
    if fromPlayer.Some? then fromPlayer.value.damage(wpn) else wpn.damageAmount * wpn.damageFactor
  }

  /** What is left after armour: armour takes off at most the whole damage. */
  function AfterArmour(dmg: int, armour: int): int {
    dmg - if dmg <= armour then dmg else armour
  }

  /**
   * `getDamageFromImpl(fromType, toType, fromPlayer, toPlayer)`: no weapon, or
   * a ratio of 0, does no damage; non-negative damage stays non-negative.
   */
  function DamageFromImpl(fromType: UnitType, toType: UnitType, fromPlayer: Option<Player>, toPlayer: Option<Player>): (r: int)
    ensures var w := WeaponAgainst(fromType, toType);
            w.id == WeaponNone || w.id == WeaponUnknown || Ratio(w.damageType, toType.size) == 0 ==> r == 0
    ensures BaseDamage(WeaponAgainst(fromType, toType), fromPlayer) >= 0 ==> r >= 0
  {
    var wpn := WeaponAgainst(fromType, toType);
    if wpn.id == WeaponNone || wpn.id == WeaponUnknown then 0
    else
      var dmg := BaseDamage(wpn, fromPlayer);
      var dmg' := if wpn.damageType != DamageTypes.DamageType.IgnoreArmor && toPlayer.Some?
                  then AfterArmour(dmg, toPlayer.value.armor(toType)) else dmg;
      var ratio := Ratio(wpn.damageType, toType.size);
      assert dmg >= 0 ==> dmg' >= 0 && dmg' * ratio >= 0;
      JavaDiv(dmg' * ratio, 256)
  }

  /**
   * `getDamageFrom(fromType, toType, fromPlayer, toPlayer)`: a missing defender
   * is the local player, a named one is used as given.
   */
  function DamageFrom(f: Frame, fromType: UnitType, toType: UnitType, fromPlayer: Option<Player>, toPlayer: Option<Player>): (r: int)
    ensures toPlayer.Some? ==> r == DamageFromImpl(fromType, toType, fromPlayer, toPlayer)
    ensures toPlayer.None? ==> r == DamageFromImpl(fromType, toType, fromPlayer, f.self)
    ensures var w := WeaponAgainst(fromType, toType); w.id == WeaponNone || w.id == WeaponUnknown ==> r == 0
  {
    DamageFromImpl(fromType, toType, fromPlayer, if toPlayer.None? then f.self else toPlayer)
  }

  /**
   * `getDamageTo(toType, fromType, toPlayer, fromPlayer)`: a missing attacker
   * is the local player, a named one is used as given.
   */
  function DamageTo(f: Frame, toType: UnitType, fromType: UnitType, toPlayer: Option<Player>, fromPlayer: Option<Player>): (r: int)
    ensures fromPlayer.Some? ==> r == DamageFromImpl(fromType, toType, fromPlayer, toPlayer)
    ensures fromPlayer.None? ==> r == DamageFromImpl(fromType, toType, f.self, toPlayer)
    ensures var w := WeaponAgainst(fromType, toType); w.id == WeaponNone || w.id == WeaponUnknown ==> r == 0
  {
    DamageFromImpl(fromType, toType, if fromPlayer.None? then f.self else fromPlayer, toPlayer)
  }

  // ---------------------------------------------------------------------
  // Properties

  /** The table's shape: independent, none and unknown columns and rows are zero; normal and ignore-armour are full. */
  lemma RatioTable(d: DamageTypes.DamageType, s: UnitSizeTypes.UnitSizeType)
    ensures s.Independent? || s.None? || s.Unknown? ==> Ratio(d, s) == 0
    ensures d.Independent? || d.None? || d.Unknown? ==> Ratio(d, s) == 0
    ensures (d.Normal? || d.IgnoreArmor?) && (s.Small? || s.Medium? || s.Large?) ==> Ratio(d, s) == 256
    ensures d.Explosive? ==> Ratio(d, s) == (match s case Small => 128 case Medium => 192 case Large => 256 case _ => 0)
    ensures d.Concussive? ==> Ratio(d, s) == (match s case Small => 256 case Medium => 128 case Large => 64 case _ => 0)
  {
  }

  /**
   * A missing weapon, a weapon of a damage type that hurts nothing, or a
   * target of a size no weapon hurts: no damage.
   */
  lemma NoWeaponNoDamage(fromType: UnitType, toType: UnitType, fromPlayer: Option<Player>, toPlayer: Option<Player>)
    requires var w := WeaponAgainst(fromType, toType);
             || w.id == WeaponNone || w.id == WeaponUnknown
             || w.damageType.Independent? || w.damageType.None? || w.damageType.Unknown?
             || toType.size.Independent? || toType.size.None? || toType.size.Unknown?
    ensures DamageFromImpl(fromType, toType, fromPlayer, toPlayer) == 0
  {
    RatioTable(WeaponAgainst(fromType, toType).damageType, toType.size);
  }

  /** With non-negative base damage and armour, the result lies between zero and the base damage. */
  lemma {:induction false} DamageBounded(fromType: UnitType, toType: UnitType, fromPlayer: Option<Player>, toPlayer: Option<Player>)
    requires BaseDamage(WeaponAgainst(fromType, toType), fromPlayer) >= 0
    requires toPlayer.Some? ==> toPlayer.value.armor(toType) >= 0
    ensures 0 <= DamageFromImpl(fromType, toType, fromPlayer, toPlayer) <= BaseDamage(WeaponAgainst(fromType, toType), fromPlayer)
  {
    var wpn := WeaponAgainst(fromType, toType);
    if !(wpn.id == WeaponNone || wpn.id == WeaponUnknown) {
      var dmg := BaseDamage(wpn, fromPlayer);
      var dmg' := if wpn.damageType != DamageTypes.DamageType.IgnoreArmor && toPlayer.Some?
                  then AfterArmour(dmg, toPlayer.value.armor(toType)) else dmg;
      assert 0 <= dmg' <= dmg;
      var ratio := Ratio(wpn.damageType, toType.size);
      assert 0 <= dmg' * ratio <= dmg' * 256;
      assert JavaDiv(dmg' * ratio, 256) <= dmg';
    }
  }

  /** Ignore-armour weapons do the same damage whoever owns the target. */
  lemma IgnoreArmorIgnoresDefender(fromType: UnitType, toType: UnitType, fromPlayer: Option<Player>, p: Option<Player>, q: Option<Player>)
    requires WeaponAgainst(fromType, toType).damageType.IgnoreArmor?
    ensures DamageFromImpl(fromType, toType, fromPlayer, p) == DamageFromImpl(fromType, toType, fromPlayer, q)
  {
  }

  /** More armour never means more damage. */
  lemma {:induction false} ArmourNeverHelpsAttacker(fromType: UnitType, toType: UnitType, fromPlayer: Option<Player>, p: Player, q: Player)
    requires p.armor(toType) <= q.armor(toType)
    ensures DamageFromImpl(fromType, toType, fromPlayer, Some(q)) <= DamageFromImpl(fromType, toType, fromPlayer, Some(p))
  {
    var wpn := WeaponAgainst(fromType, toType);
    if !(wpn.id == WeaponNone || wpn.id == WeaponUnknown) && !wpn.damageType.IgnoreArmor? {
      var dmg := BaseDamage(wpn, fromPlayer);
      var a := AfterArmour(dmg, p.armor(toType));
      var b := AfterArmour(dmg, q.armor(toType));
      assert 0 <= b <= a;
      var ratio := Ratio(wpn.damageType, toType.size);
      assert 0 <= b * ratio <= a * ratio;
      DivMonotone(b * ratio, a * ratio);
    }
  }

  /** Truncating division by 256 is monotone on non-negative numbers. */
  lemma DivMonotone(x: int, y: int)
    requires 0 <= x <= y
    ensures JavaDiv(x, 256) <= JavaDiv(y, 256)
  {
  }

  /** Asked from either side with both players named, the two queries agree. */
  lemma FromAndToAgree(f: Frame, fromType: UnitType, toType: UnitType, fromPlayer: Player, toPlayer: Player)
    ensures DamageTo(f, toType, fromType, Some(toPlayer), Some(fromPlayer))
         == DamageFrom(f, fromType, toType, Some(fromPlayer), Some(toPlayer))
  {
  }

  /** `getDamageFrom` without a defender counts the local player's armour; `getDamageTo` without an attacker its upgrades. */
  lemma MissingPlayerIsSelf(f: Frame, fromType: UnitType, toType: UnitType, p: Option<Player>)
    ensures DamageFrom(f, fromType, toType, p, None) == DamageFromImpl(fromType, toType, p, f.self)
    ensures DamageTo(f, toType, fromType, p, None) == DamageFromImpl(fromType, toType, f.self, p)
  {
  }
}

/**
 * The legality predicates of `Game`: whether the local player can make a
 * unit type (optionally with a given builder), research a tech or start the
 * next level of an upgrade. A missing local player makes every answer false.
 */
module Legality {

  import opened Wrappers
  import opened Snapshot

  // ---------------------------------------------------------------------
  // canMake

  /** A required unit type that is an addon, by the catalog. */
  predicate IsAddonRequirement(types: int -> UnitType, r: Requirement) {
    types(r.unitType).isAddon
  }

  /**
   * The addon the requirements loop remembers: the unit type of the LAST
   * requirement (in iteration order) that is an addon, or `UnitType.None`.
   */
  function LastAddon(types: int -> UnitType, reqs: seq<Requirement>): int {
    if reqs == [] then UnitTypeNone
    else if IsAddonRequirement(types, reqs[|reqs| - 1]) then reqs[|reqs| - 1].unitType
    else LastAddon(types, reqs[..|reqs| - 1])
  }

  /** With no addon among the requirements the loop keeps `UnitType.None`; otherwise it keeps the last addon. */
  lemma {:induction false} LastAddonIsLast(types: int -> UnitType, reqs: seq<Requirement>, i: int)
    ensures (forall k :: 0 <= k < |reqs| ==> !IsAddonRequirement(types, reqs[k])) ==> LastAddon(types, reqs) == UnitTypeNone
    ensures 0 <= i < |reqs| && IsAddonRequirement(types, reqs[i]) && (forall j :: i < j < |reqs| ==> !IsAddonRequirement(types, reqs[j]))
            ==> LastAddon(types, reqs) == reqs[i].unitType
  {
    if reqs != [] {
      var init := reqs[..|reqs| - 1];
      LastAddonIsLast(types, init, i);
      assert forall k :: 0 <= k < |init| ==> init[k] == reqs[k];
    }
  }

  /** Every required unit type is held in the required number. */
  predicate RequirementsMet(p: Player, reqs: seq<Requirement>) {
    forall i :: 0 <= i < |reqs| ==> p.hasRequirement(reqs[i].unitType, reqs[i].count)
  }

  /** Both halves of a Nydus canal pair: the canal builds its exit. */
  predicate NydusPair(t: UnitType, b: Unit) {
    t.id == ZergNydusCanal && b.unitType.id == ZergNydusCanal
  }

  /** The builder is of the type that builds `t`, or a larva producer with larvae when larvae build it. */
  predicate BuilderTypeFits(t: UnitType, b: Unit) {
    if t.whatBuilds == ZergLarva && b.unitType.producesLarva then b.larvaCount != 0
    else b.unitType.id == t.whatBuilds
  }

  /** How many interceptors or scarabs the builder may hold; 0 means no limit applies. */
  function HangarCapacity(p: Player, b: Unit): (n: int)
    ensures b.unitType.id == ProtossCarrier ==> n == (if p.upgradeLevel(CarrierCapacity) > 0 then 8 else 4)
    ensures b.unitType.id == HeroGantrithor ==> n == 8
    ensures b.unitType.id == ProtossReaver ==> n == (if p.upgradeLevel(ReaverCapacity) > 0 then 10 else 5)
    ensures b.unitType.id == HeroWarbringer ==> n == 10
    ensures b.unitType.id !in {ProtossCarrier, HeroGantrithor, ProtossReaver, HeroWarbringer} ==> n == 0
  {
    var id := b.unitType.id;
    if id == ProtossCarrier || id == HeroGantrithor then
      4 + (if p.upgradeLevel(CarrierCapacity) > 0 || id == HeroGantrithor then 4 else 0)
    else if id == ProtossReaver || id == HeroWarbringer then
      5 + (if p.upgradeLevel(ReaverCapacity) > 0 || id == HeroWarbringer then 5 else 0)
    else 0
  }

  /** Interceptor and scarab producers need room for one more, counting the training queue. */
  predicate HangarHasRoom(p: Player, b: Unit) {
    var id := b.unitType.id;
    if id == ProtossCarrier || id == HeroGantrithor then b.interceptorCount + b.trainingQueueSize < HangarCapacity(p, b)
    else if id == ProtossReaver || id == HeroWarbringer then b.scarabCount + b.trainingQueueSize < HangarCapacity(p, b)
    else true
  }

  /** Supply a unit type takes: doubled when two come from one egg. */
  function SupplyCost(t: UnitType): int {
    t.supplyRequired * (if t.isTwoUnitsInOneEgg then 2 else 1)
  }

  /** The supply step: a morph from a type of the same race gets that type's supply back. */
  predicate SupplySuffices(p: Player, t: UnitType, req: UnitType) {
    var cost := SupplyCost(t);
    !(cost > 0 && p.supplyTotal(t.race) < p.supplyUsed(t.race) + cost - (if req.race == t.race then req.supplyRequired else 0))
  }

  predicate TechSuffices(p: Player, t: UnitType) {
    t.requiredTech == TechNone || p.hasResearched(t.requiredTech)
  }

  /**
   * The final addon step: a builder must carry the required addon when that
   * addon is built by the same type that builds `t`.
   */
  predicate AddonSuffices(f: Frame, t: UnitType, builder: Option<Unit>, addon: int) {
    || builder.None?
    || addon == UnitTypeNone
    || f.types(addon).whatBuilds != t.whatBuilds
    || builder.value.addonType == Some(addon)
  }

  /** `canMake(type, builder)`, step by step in the source's order. */
  predicate MakeAllowed(f: Frame, t: UnitType, builder: Option<Unit>) {
    if f.self.None? then false
    else
      var p := f.self.value;
      if !p.isUnitAvailable(t.id) then false
      else if builder.Some? && builder.value.playerId != p.id then false
      else if builder.Some? && NydusPair(t, builder.value) then builder.value.completed && builder.value.nydusExit.None?
      else BuilderReady(p, t, builder) && Payable(f, p, t) && AddonSuffices(f, t, builder, LastAddon(f.types, t.requiredUnits))
  }

  /** The builder checks after ownership and the Nydus case. */
  predicate BuilderReady(p: Player, t: UnitType, builder: Option<Unit>) {
    builder.None? || (BuilderTypeFits(t, builder.value) && HangarHasRoom(p, builder.value))
  }

  /** Price, supply, required units and required tech. */
  predicate Payable(f: Frame, p: Player, t: UnitType) {
    && p.minerals >= t.mineralPrice
    && p.gas >= t.gasPrice
    && SupplySuffices(p, t, f.types(t.whatBuilds))
    && RequirementsMet(p, t.requiredUnits)
    && TechSuffices(p, t)
  }

  /** The requirements loop: checks each entry and remembers the last addon. */
  method ScanRequirements(f: Frame, p: Player, reqs: seq<Requirement>) returns (met: bool, addon: int)
    ensures met == RequirementsMet(p, reqs)
    ensures met ==> addon == LastAddon(f.types, reqs)
  {
    addon := UnitTypeNone;
    var i := 0;
    while i < |reqs|
      invariant 0 <= i <= |reqs|
      invariant RequirementsMet(p, reqs[..i])
      invariant addon == LastAddon(f.types, reqs[..i])
    {
      var ut := reqs[i].unitType;
      if f.types(ut).isAddon {
        addon := ut;
      }
      if !p.hasRequirement(ut, reqs[i].count) {
        return false, addon;
      }
      assert reqs[..i + 1][..i] == reqs[..i];
      i := i + 1;
    }
    assert reqs[..i] == reqs;
    return true, addon;
  }

  /** The builder-type and hangar-room checks. */
  method CheckBuilder(pSelf: Player, t: UnitType, b: Unit) returns (ok: bool)
    ensures ok == (BuilderTypeFits(t, b) && HangarHasRoom(pSelf, b))
  {
    var builderType := b.unitType;
    if t.whatBuilds == ZergLarva && builderType.producesLarva {
      if b.larvaCount == 0 {
        return false;
      }
    } else if builderType.id != t.whatBuilds {
      return false;
    }
    var maxAmt: int;
    if builderType.id == ProtossCarrier || builderType.id == HeroGantrithor {
      maxAmt := 4;
      if pSelf.upgradeLevel(CarrierCapacity) > 0 || builderType.id == HeroGantrithor {
        maxAmt := maxAmt + 4;
      }
      if b.interceptorCount + b.trainingQueueSize >= maxAmt {
        return false;
      }
    } else if builderType.id == ProtossReaver || builderType.id == HeroWarbringer {
      maxAmt := 5;
      if pSelf.upgradeLevel(ReaverCapacity) > 0 || builderType.id == HeroWarbringer {
        maxAmt := maxAmt + 5;
      }
      if b.scarabCount + b.trainingQueueSize >= maxAmt {
        return false;
      }
    }
    return true;
  }

  /** Price, supply, required units, required tech and the final addon step. */
  method CheckPayable(f: Frame, pSelf: Player, t: UnitType, builder: Option<Unit>) returns (ok: bool)
    ensures ok == (Payable(f, pSelf, t) && AddonSuffices(f, t, builder, LastAddon(f.types, t.requiredUnits)))
  {
    var requiredType := f.types(t.whatBuilds);
    if pSelf.minerals < t.mineralPrice {
      return false;
    }
    if pSelf.gas < t.gasPrice {
      return false;
    }

    var supplyRequired := t.supplyRequired * (if t.isTwoUnitsInOneEgg then 2 else 1);
    if supplyRequired > 0 && pSelf.supplyTotal(t.race) < pSelf.supplyUsed(t.race) + supplyRequired
         - (if requiredType.race == t.race then requiredType.supplyRequired else 0) {
      return false;
    }
    assert SupplySuffices(pSelf, t, requiredType);

    var met, addon := ScanRequirements(f, pSelf, t.requiredUnits);
    if !met {
      return false;
    }

    if t.requiredTech != TechNone && !pSelf.hasResearched(t.requiredTech) {
      return false;
    }

    return builder.None? || addon == UnitTypeNone || f.types(addon).whatBuilds != t.whatBuilds
      || (builder.value.addonType.Some? && builder.value.addonType.value == addon);
  }

  /** `canMake(type, builder)`. */
  method CanMake(f: Frame, t: UnitType, builder: Option<Unit>) returns (ok: bool)
    ensures ok == MakeAllowed(f, t, builder)
  {
    if f.self.None? {
      return false;
    }
    var pSelf := f.self.value;
    if !pSelf.isUnitAvailable(t.id) {
      return false;
    }
    if builder.Some? {
      var b := builder.value;
      if pSelf.id != b.playerId {
        return false;
      }
      var builderType := b.unitType;
      if t.id == ZergNydusCanal && builderType.id == ZergNydusCanal {
        if !b.completed {
          return false;
        }
        return b.nydusExit.None?;
      }
      ok := CheckBuilder(pSelf, t, b);
      if !ok {
        return;
      }
    }

    ok := CheckPayable(f, pSelf, t, builder);
  }

  // ---------------------------------------------------------------------
  // canResearch and canUpgrade

  /** The unit-side checks shared by research and upgrades. */
  predicate UnitMayWork(f: Frame, p: Player, unit: Option<Unit>, whatWorks: int, checkIssue: bool) {
    unit.None? ||
    (&& unit.value.playerId == p.id
     && f.isSuccessorOf(unit.value.unitType.id, whatWorks)
     && !(checkIssue && (unit.value.lifted || !unit.value.idle || !unit.value.completed)))
  }

  /** `canResearch(type, unit, checkCanIssueCommandType)`. */
  function CanResearch(f: Frame, tech: TechType, unit: Option<Unit>, checkIssue: bool): (r: bool)
    ensures r ==> f.self.Some?
    ensures r ==> !f.self.value.isResearching(tech.id) && !f.self.value.hasResearched(tech.id)
    ensures r ==> f.self.value.minerals >= tech.mineralPrice && f.self.value.gas >= tech.gasPrice
    ensures r && unit.Some? ==> unit.value.playerId == f.self.value.id
  {
    if f.self.None? then false
    else
      var p := f.self.value;
      && UnitMayWork(f, p, unit, tech.whatResearches, checkIssue)
      && !p.isResearching(tech.id)
      && !p.hasResearched(tech.id)
      && p.isResearchAvailable(tech.id)
      && p.minerals >= tech.mineralPrice
      && p.gas >= tech.gasPrice
      && p.hasRequirement(tech.requiredUnit, 1)
  }

  /** `canUpgrade(type, unit, checkCanIssueCommandType)`: prices and requirement are those of the next level. */
  function CanUpgrade(f: Frame, upg: UpgradeType, unit: Option<Unit>, checkIssue: bool): (r: bool)
    ensures r ==> f.self.Some?
    ensures r ==> f.self.value.upgradeLevel(upg.id) < f.self.value.maxUpgradeLevel(upg.id)
    ensures r ==> !f.self.value.isUpgrading(upg.id)
    ensures r && unit.Some? ==> unit.value.playerId == f.self.value.id
  {
    if f.self.None? then false
    else
      var p := f.self.value;
      var nextLvl := p.upgradeLevel(upg.id) + 1;
      && UnitMayWork(f, p, unit, upg.whatUpgrades, checkIssue)
      && p.hasRequirement(upg.whatUpgrades, 1)
      && p.hasRequirement(upg.whatsRequired(nextLvl), 1)
      && !p.isUpgrading(upg.id)
      && p.upgradeLevel(upg.id) < p.maxUpgradeLevel(upg.id)
      && p.minerals >= upg.mineralPrice(nextLvl)
      && p.gas >= upg.gasPrice(nextLvl)
  }

  // ---------------------------------------------------------------------
  // Properties

  /** The frame with the local player's stock of minerals and gas replaced. */
  function WithStock(f: Frame, minerals: int, gas: int): (g: Frame)
    requires f.self.Some?
    ensures g.self.Some? && g.self.value.minerals == minerals && g.self.value.gas == gas
  {
    f.(self := Some(WithResources(f.self.value, minerals, gas)))
  }

  /** Without a local player nothing can be made, researched or upgraded. */
  lemma NoSelfNothingAllowed(f: Frame, t: UnitType, builder: Option<Unit>, tech: TechType, upg: UpgradeType,
                             unit: Option<Unit>, checkIssue: bool)
    requires f.self.None?
    ensures !MakeAllowed(f, t, builder) && !CanResearch(f, tech, unit, checkIssue) && !CanUpgrade(f, upg, unit, checkIssue)
  {
  }

  /** Apart from a Nydus canal making its exit, making a unit needs its full price in stock. */
  lemma MakeNeedsPrice(f: Frame, t: UnitType, builder: Option<Unit>)
    requires MakeAllowed(f, t, builder)
    requires builder.None? || !NydusPair(t, builder.value)
    ensures f.self.value.minerals >= t.mineralPrice && f.self.value.gas >= t.gasPrice
  {
  }

  /** A Nydus canal owned by the player makes its exit exactly when it is complete and has none yet, at no price. */
  lemma NydusExitRule(f: Frame, t: UnitType, b: Unit, minerals: int, gas: int)
    requires f.self.Some? && f.self.value.isUnitAvailable(t.id) && b.playerId == f.self.value.id
    requires NydusPair(t, b)
    ensures MakeAllowed(WithStock(f, minerals, gas), t, Some(b)) <==> b.completed && b.nydusExit.None?
  {
  }

  /**
   * A carrier or the Gantrithor whose interceptors (queue included) fill its
   * hangar can make nothing more: four, or eight with the upgrade or as the hero.
   */
  lemma CarrierIsFull(f: Frame, t: UnitType, b: Unit)
    requires b.unitType.id in {ProtossCarrier, HeroGantrithor}
    requires f.self.Some? && b.interceptorCount + b.trainingQueueSize >= HangarCapacity(f.self.value, b)
    ensures !MakeAllowed(f, t, Some(b))
  {
  }

  /**
   * A reaver or the Warbringer whose scarabs (queue included) fill its bay can
   * make nothing more: five, or ten with the upgrade or as the hero.
   */
  lemma ReaverIsFull(f: Frame, t: UnitType, b: Unit)
    requires b.unitType.id in {ProtossReaver, HeroWarbringer}
    requires f.self.Some? && b.scarabCount + b.trainingQueueSize >= HangarCapacity(f.self.value, b)
    ensures !MakeAllowed(f, t, Some(b))
  {
  }

  /** A builder owned by another player can make nothing. */
  lemma ForeignBuilderRefused(f: Frame, t: UnitType, b: Unit)
    requires f.self.Some? && b.playerId != f.self.value.id
    ensures !MakeAllowed(f, t, Some(b))
  {
  }

  /** An unmet required-units entry refuses, unless a Nydus canal is making its exit. */
  lemma UnmetRequirementRefuses(f: Frame, t: UnitType, builder: Option<Unit>, i: int)
    requires f.self.Some? && 0 <= i < |t.requiredUnits|
    requires !f.self.value.hasRequirement(t.requiredUnits[i].unitType, t.requiredUnits[i].count)
    requires builder.None? || !NydusPair(t, builder.value)
    ensures !MakeAllowed(f, t, builder)
  {
    assert !RequirementsMet(f.self.value, t.requiredUnits);
  }

  /** A larva producer with no larvae cannot make a unit that larvae build. */
  lemma NoLarvaNoMorph(f: Frame, t: UnitType, b: Unit)
    requires t.whatBuilds == ZergLarva && b.unitType.producesLarva && b.larvaCount == 0 && !NydusPair(t, b)
    ensures !MakeAllowed(f, t, Some(b))
  {
  }

  /** More minerals and gas never turn a yes into a no. */
  lemma MakeMonotoneInStock(f: Frame, t: UnitType, builder: Option<Unit>, minerals: int, gas: int)
    requires MakeAllowed(f, t, builder)
    requires minerals >= f.self.value.minerals && gas >= f.self.value.gas
    ensures MakeAllowed(WithStock(f, minerals, gas), t, builder)
  {
    var g := WithStock(f, minerals, gas);
    assert g.self.value.id == f.self.value.id;
    assert g.self.value.hasRequirement == f.self.value.hasRequirement;
    assert g.types == f.types;
    assert RequirementsMet(g.self.value, t.requiredUnits) <==> RequirementsMet(f.self.value, t.requiredUnits);
  }

  /** A researched or in-progress tech can never be researched again. */
  lemma ResearchOnlyOnce(f: Frame, tech: TechType, unit: Option<Unit>, checkIssue: bool)
    requires f.self.Some?
    requires f.self.value.hasResearched(tech.id) || f.self.value.isResearching(tech.id)
    ensures !CanResearch(f, tech, unit, checkIssue)
  {
  }

  /**
   * Naming a unit only adds checks, and so does asking whether the unit can
   * issue the command now.
   */
  lemma ResearchChecksOnlyRestrict(f: Frame, tech: TechType, u: Unit)
    requires CanResearch(f, tech, Some(u), true)
    ensures CanResearch(f, tech, Some(u), false) && CanResearch(f, tech, None, false)
  {
  }

  /** More minerals and gas never turn a research yes into a no. */
  lemma ResearchMonotoneInStock(f: Frame, tech: TechType, unit: Option<Unit>, checkIssue: bool, minerals: int, gas: int)
    requires CanResearch(f, tech, unit, checkIssue)
    requires minerals >= f.self.value.minerals && gas >= f.self.value.gas
    ensures CanResearch(WithStock(f, minerals, gas), tech, unit, checkIssue)
  {
  }

  /** At the maximum level an upgrade is refused however much the player holds. */
  lemma UpgradeStopsAtMax(f: Frame, upg: UpgradeType, unit: Option<Unit>, checkIssue: bool, minerals: int, gas: int)
    requires f.self.Some? && f.self.value.upgradeLevel(upg.id) >= f.self.value.maxUpgradeLevel(upg.id)
    ensures !CanUpgrade(WithStock(f, minerals, gas), upg, unit, checkIssue)
  {
  }

  /** An allowed upgrade is paid at the price of the level after the current one. */
  lemma UpgradePaysNextLevel(f: Frame, upg: UpgradeType, unit: Option<Unit>, checkIssue: bool)
    requires CanUpgrade(f, upg, unit, checkIssue)
    ensures var p := f.self.value;
            p.minerals >= upg.mineralPrice(p.upgradeLevel(upg.id) + 1) && p.gas >= upg.gasPrice(p.upgradeLevel(upg.id) + 1)
  {
  }

  /** Naming a unit, or checking that it can issue the command, only adds checks. */
  lemma UpgradeChecksOnlyRestrict(f: Frame, upg: UpgradeType, u: Unit)
    requires CanUpgrade(f, upg, Some(u), true)
    ensures CanUpgrade(f, upg, Some(u), false) && CanUpgrade(f, upg, None, false)
  {
  }

  /** More minerals and gas never turn an upgrade yes into a no. */
  lemma UpgradeMonotoneInStock(f: Frame, upg: UpgradeType, unit: Option<Unit>, checkIssue: bool, minerals: int, gas: int)
    requires CanUpgrade(f, upg, unit, checkIssue)
    requires minerals >= f.self.value.minerals && gas >= f.self.value.gas
    ensures CanUpgrade(WithStock(f, minerals, gas), upg, unit, checkIssue)
  {
  }
}

/**
 * Tower kinds and their economics in frontend/src/game/game.js: the stats of
 * a tower at a level (towerStats), the price of an upgrade (upgradeCost) and
 * the gold a tower has absorbed (totalInvested). The base values are the
 * TOWERS table of frontend/src/game/constants.js.
 */
module Towers {
  import opened Wrappers
  import JsNumber

  datatype TowerKind = Arrow | Ice | Bomb

  /**
   * A TOWERS entry. Fields an entry lacks read as 0, which is what the
   * game's `?? 0` makes of them when it copies stats onto a tower.
   */
  datatype TowerBase = TowerBase(
    kind: TowerKind,
    cost: int,
    range: real,
    attackSpeed: real,
    damage: real,
    upgradeDamagePct: real,
    slowPct: real,
    slowDuration: real,
    slowUpgradePct: real,
    slowCap: real,
    splashRadius: real,
    splashUpgrade: real,
    splashCap: real)

  function Base(kind: TowerKind): (b: TowerBase)
    ensures b.kind == kind && b.cost > 0 && b.attackSpeed > 0.0
  {
    match kind
    case Arrow => TowerBase(Arrow, 20, 2.8, 1.0, 12.0, 0.4, 0.0, 0.0, 0.0, 0.0, 0.0, 0.0, 0.0)
    case Ice => TowerBase(Ice, 25, 2.4, 0.8, 7.0, 0.2, 0.35, 1.2, 0.1, 0.6, 0.0, 0.0, 0.0)
    case Bomb => TowerBase(Bomb, 35, 2.2, 0.45, 26.0, 0.3, 0.0, 0.0, 0.0, 0.0, 1.0, 0.2, 1.6)
  }

  /** buildOrder: the kinds the build selector cycles through. */
  const BuildOrder: seq<TowerKind> := [Arrow, Ice, Bomb]

  /** The name a kind goes by in buildOrder and TOWERS. */
  function KindName(kind: TowerKind): string {
    match kind
    case Arrow => "arrow"
    case Ice => "ice"
    case Bomb => "bomb"
  }

  /** buildOrder.indexOf(name): the position of the named kind, or -1. */
  function IndexOfKind(name: string): (i: int)
    ensures -1 <= i < |BuildOrder|
    ensures i >= 0 ==> KindName(BuildOrder[i]) == name
    ensures i == -1 <==> (forall k :: 0 <= k < |BuildOrder| ==> KindName(BuildOrder[k]) != name)
  {
    if name == "arrow" then 0 else if name == "ice" then 1 else if name == "bomb" then 2 else -1
  }

  /** The stats a tower carries. */
  datatype Stats = Stats(range: real, damage: real, attackSpeed: real, slowPct: real, slowDuration: real, splashRadius: real)

  /**
   * towerStats: damage grows by upgradeDamagePct per level above 1; an ice
   * tower's slow and a bomb tower's splash grow too, but never past their caps.
   */
  function TowerStats(base: TowerBase, level: int): (s: Stats)
    ensures s.range == base.range && s.attackSpeed == base.attackSpeed && s.slowDuration == base.slowDuration
    ensures s.damage == base.damage * (1.0 + base.upgradeDamagePct * (level - 1) as real)
    ensures base.kind == Ice ==> s.slowPct <= base.slowCap
    ensures base.kind == Ice ==> s.slowPct <= base.slowPct + base.slowUpgradePct * (level - 1) as real
    ensures base.kind == Ice ==> s.slowPct == base.slowCap || s.slowPct == base.slowPct + base.slowUpgradePct * (level - 1) as real
    ensures base.kind != Ice ==> s.slowPct == base.slowPct
    ensures base.kind == Bomb ==> s.splashRadius <= base.splashCap
    ensures base.kind == Bomb ==> s.splashRadius <= base.splashRadius + base.splashUpgrade * (level - 1) as real
    ensures base.kind == Bomb ==> s.splashRadius == base.splashCap || s.splashRadius == base.splashRadius + base.splashUpgrade * (level - 1) as real
    ensures base.kind != Bomb ==> s.splashRadius == base.splashRadius
  {
    var steps := (level - 1) as real;
    var damage := base.damage * (1.0 + base.upgradeDamagePct * steps);
    var slowPct := if base.kind == Ice then JsNumber.MinReal(base.slowCap, base.slowPct + base.slowUpgradePct * steps) else base.slowPct;
    var splash := if base.kind == Bomb then JsNumber.MinReal(base.splashCap, base.splashRadius + base.splashUpgrade * steps) else base.splashRadius;
    Stats(base.range, damage, base.attackSpeed, slowPct, base.slowDuration, splash)
  }

  lemma MulNonNeg(a: real, b: real)
    requires a >= 0.0 && b >= 0.0
    ensures a * b >= 0.0
  {
  }

  lemma MulLe(a: real, b: real, c: real)
    requires a >= 0.0 && b <= c
    ensures a * b <= a * c
  {
  }

  /** For every kind, a higher level never means less damage, slow or splash. */
  lemma StatsGrowWithLevel(kind: TowerKind, level: int, higher: int)
    requires 1 <= level <= higher
    ensures TowerStats(Base(kind), level).damage <= TowerStats(Base(kind), higher).damage
    ensures TowerStats(Base(kind), level).slowPct <= TowerStats(Base(kind), higher).slowPct
    ensures TowerStats(Base(kind), level).splashRadius <= TowerStats(Base(kind), higher).splashRadius
    ensures TowerStats(Base(kind), 1).damage == Base(kind).damage
  {
    var b := Base(kind);
    MulLe(b.upgradeDamagePct, (level - 1) as real, (higher - 1) as real);
    MulLe(b.damage, 1.0 + b.upgradeDamagePct * (level - 1) as real, 1.0 + b.upgradeDamagePct * (higher - 1) as real);
    MulLe(b.slowUpgradePct, (level - 1) as real, (higher - 1) as real);
    MulLe(b.splashUpgrade, (level - 1) as real, (higher - 1) as real);
  }

  /** UPGRADE_COSTS: the level an entry upgrades to and the factor on the base cost. */
  const UpgradeCosts: seq<(int, int)> := [(2, 2), (3, 2)]

  /** upgradeCost: the first UPGRADE_COSTS entry for the level, as Math.round(baseCost * multiplier); null without one. */
  function UpgradeCost(baseCost: int, nextLevel: int): (r: Option<int>)
    ensures r.Some? <==> (nextLevel == 2 || nextLevel == 3)
    ensures r.Some? ==> r.value == 2 * baseCost
  {
    if nextLevel == UpgradeCosts[0].0 then Some(JsNumber.Round((baseCost * UpgradeCosts[0].1) as real))
    else if nextLevel == UpgradeCosts[1].0 then Some(JsNumber.Round((baseCost * UpgradeCosts[1].1) as real))
    else None
  }

  /** totalInvested: the build cost plus the upgrades paid for so far. */
  function TotalInvested(baseCost: int, level: int): (total: int)
    ensures level <= 1 ==> total == baseCost
    ensures level == 2 ==> total == 3 * baseCost
    ensures level >= 3 ==> total == 5 * baseCost
  {
    var total := baseCost;
    var afterTwo := if level >= 2 then total + (var c := UpgradeCost(baseCost, 2); if c.Some? then c.value else 0) else total;
    if level >= 3 then afterTwo + (var c := UpgradeCost(baseCost, 3); if c.Some? then c.value else 0) else afterTwo
  }

  /** An upgrade adds exactly its price to what a tower has absorbed. */
  lemma UpgradeAddsCost(baseCost: int, level: int)
    requires 1 <= level < 3
    ensures TotalInvested(baseCost, level + 1) == TotalInvested(baseCost, level) + UpgradeCost(baseCost, level + 1).value
  {
  }
}

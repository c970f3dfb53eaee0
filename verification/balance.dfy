/**
 The balance tables of the game: the starting player stats, the per-level
 upgrade increments, the linear upgrade cost tables, the population caps, and
 the derivation of effective player stats from upgrade levels.
 */
module Balance {

  /** The six purchasable upgrade kinds. */
  datatype Kind = Attack | FireRate | MaxHp | Armor | Speed | Drones

  /** The persistent upgrade levels, one counter per kind; all start at 0. */
  datatype Upgrades = Upgrades(attack: nat, fireRate: nat, maxHp: nat, armor: nat, speed: nat, drones: nat)
  {
    function Level(k: Kind): nat {
      match k
      case Attack => attack
      case FireRate => fireRate
      case MaxHp => maxHp
      case Armor => armor
      case Speed => speed
      case Drones => drones
    }

    /** The levels after one more level of `k` has been bought. */
    function Bump(k: Kind): (u: Upgrades)
      ensures u.Level(k) == Level(k) + 1
      ensures forall j :: j != k ==> u.Level(j) == Level(j)
    {
      match k
      case Attack => this.(attack := attack + 1)
      case FireRate => this.(fireRate := fireRate + 1)
      case MaxHp => this.(maxHp := maxHp + 1)
      case Armor => this.(armor := armor + 1)
      case Speed => this.(speed := speed + 1)
      case Drones => this.(drones := drones + 1)
    }

    /** Every level of `this` is at most the corresponding level of `other`. */
    predicate AtMost(other: Upgrades)
      ensures AtMost(other) ==> forall k :: Level(k) <= other.Level(k)
    {
      && attack <= other.attack && fireRate <= other.fireRate && maxHp <= other.maxHp
      && armor <= other.armor && speed <= other.speed && drones <= other.drones
    }
  }

  const NoUpgrades: Upgrades := Upgrades(0, 0, 0, 0, 0, 0)

  // Starting stats of a player with no upgrades.
  const StartMaxHp: int := 500
  const StartHp: int := 500
  const StartAttack: int := 10
  const StartFireRate: real := 1.0
  const StartArmorPct: real := 0.0
  const StartSpeed: int := 100

  // Stat increment per purchased level.
  const AttackAdd: int := 5
  const FireRateAdd: real := 0.25
  const MaxHpAdd: int := 20
  const ArmorPctAdd: real := 0.02
  const SpeedAdd: int := 10

  // Population caps shared by the spawn-time checks and the periodic truncation.
  const MaxBullets: nat := 300
  const MaxParticles: nat := 300

  /** The per-kind multiplier of the linear cost table. */
  function CostBase(k: Kind): nat {
    match k
    case Attack => 50
    case FireRate => 80
    case MaxHp => 100
    case Armor => 120
    case Speed => 40
    case Drones => 150
  }

  /** Gold needed to raise kind `k` from level `lvl` to `lvl + 1`. */
  function Cost(k: Kind, lvl: nat): (c: nat)
    ensures c >= CostBase(k) > 0
  {
    CostBase(k) * (lvl + 1)
  }

  /** Each further level of a kind costs exactly one more base unit than the last. */
  lemma CostStep(k: Kind, lvl: nat)
    ensures Cost(k, lvl + 1) == Cost(k, lvl) + CostBase(k)
    ensures Cost(k, lvl) < Cost(k, lvl + 1)
  {
  }

  /** The cost table is strictly increasing in the level. */
  lemma {:induction false} CostStrictlyIncreasing(k: Kind, a: nat, b: nat)
    requires a < b
    ensures Cost(k, a) < Cost(k, b)
    decreases b - a
  {
    CostStep(k, a);
    if a + 1 < b {
      CostStrictlyIncreasing(k, a + 1, b);
    }
  }

  /** The effective player stats that depend on upgrade levels. */
  datatype Stats = Stats(maxHp: int, attack: int, fireRate: real, armorPct: real, speed: int)

  /** Every stat is its starting value plus level times its increment. */
  function DeriveStats(u: Upgrades): (s: Stats)
    ensures s.maxHp >= StartMaxHp && s.attack >= StartAttack && s.speed >= StartSpeed
    ensures s.fireRate >= StartFireRate && s.armorPct >= StartArmorPct
  {
    Stats(
      StartMaxHp + u.maxHp * MaxHpAdd,
      StartAttack + u.attack * AttackAdd,
      StartFireRate + (u.fireRate as real) * FireRateAdd,
      StartArmorPct + (u.armor as real) * ArmorPctAdd,
      StartSpeed + u.speed * SpeedAdd)
  }

  /**
   Buying one level of `k` raises exactly the stat that `k` governs, by exactly
   one increment, and leaves every other stat as it was; a drone level changes
   no stat at all.
   */
  lemma BumpChangesOneStat(u: Upgrades, k: Kind)
    ensures var s, t := DeriveStats(u), DeriveStats(u.Bump(k));
      && (k == Attack ==> t == s.(attack := s.attack + AttackAdd))
      && (k == FireRate ==> t == s.(fireRate := s.fireRate + FireRateAdd))
      && (k == MaxHp ==> t == s.(maxHp := s.maxHp + MaxHpAdd))
      && (k == Armor ==> t == s.(armorPct := s.armorPct + ArmorPctAdd))
      && (k == Speed ==> t == s.(speed := s.speed + SpeedAdd))
      && (k == Drones ==> t == s)
  {
  }

  /** Stats are monotone in the levels: more upgrades never make a stat worse. */
  lemma DeriveStatsMonotone(u: Upgrades, v: Upgrades)
    requires u.AtMost(v)
    ensures var s, t := DeriveStats(u), DeriveStats(v);
      s.maxHp <= t.maxHp && s.attack <= t.attack && s.fireRate <= t.fireRate
      && s.armorPct <= t.armorPct && s.speed <= t.speed
  {
  }

  /**
   Armor is never clamped: the damage reduction reaches 100% exactly at armor
   level 50 and exceeds it beyond.
   */
  lemma ArmorReachesFull(u: Upgrades)
    ensures DeriveStats(u).armorPct >= 1.0 <==> u.armor >= 50
    ensures DeriveStats(u).armorPct > 1.0 <==> u.armor > 50
  {
  }
}

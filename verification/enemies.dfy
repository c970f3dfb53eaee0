/**
 The enemy balance table: per-type radius, hp, damage and speed scaled by the
 wave of origin, and the kill reward (the gold drop, the chance health drop and
 the chance power-up drop) with the random draws passed in.
 */
module Enemies {
  import opened PlayerState

  datatype EnemyType = Basic | Heavy | Ranged | Elite

  datatype Enemy = Enemy(kind: EnemyType, wave: nat, radius: int, maxHp: real, hp: real, damage: real, speed: int)

  /** A drop left where an enemy died. */
  datatype Pickup = GoldCoin(value: int) | HealthPack(value: int) | PowerPack(power: PowerKind)

  /** The three uniform draws in [0, 1) that decide the chance drops. */
  datatype DropRolls = DropRolls(health: real, power: real, powerKind: real)

  function Radius(t: EnemyType): int {
    match t
    case Heavy => 20
    case Ranged => 15
    case Elite => 26
    case Basic => 12
  }

  function HpMultiplier(t: EnemyType): real {
    match t
    case Heavy => 2.2
    case Ranged => 1.4
    case Elite => 4.0
    case Basic => 1.0
  }

  function DamageMultiplier(t: EnemyType): real {
    match t
    case Heavy => 1.4
    case Ranged => 0.8
    case Elite => 2.2
    case Basic => 1.0
  }

  function Speed(t: EnemyType): int {
    match t
    case Heavy => 40
    case Ranged => 50
    case Elite => 30
    case Basic => 80
  }

  function GoldMultiplier(t: EnemyType): real {
    match t
    case Heavy => 2.0
    case Ranged => 1.5
    case Elite => 6.0
    case Basic => 1.0
  }

  /** Base enemy hp of a wave. */
  function WaveHp(wave: nat): real {
    20.0 + (wave as real) * 5.0
  }

  /** Base enemy damage of a wave. */
  function WaveDamage(wave: nat): real {
    1.0 + (wave as real) * 0.5
  }

  /** A new enemy of type `t` spawned in wave `wave`, at full hp. */
  function NewEnemy(t: EnemyType, wave: nat): (e: Enemy)
    ensures e.kind == t && e.wave == wave && e.hp == e.maxHp
    ensures e.maxHp == WaveHp(wave) * HpMultiplier(t) && e.damage == WaveDamage(wave) * DamageMultiplier(t)
    ensures e.radius == Radius(t) && e.speed == Speed(t)
    ensures e.maxHp >= 20.0 && e.damage >= 0.8
  {
    Enemy(t, wave, Radius(t), WaveHp(wave) * HpMultiplier(t), WaveHp(wave) * HpMultiplier(t),
          WaveDamage(wave) * DamageMultiplier(t), Speed(t))
  }

  /**
   Within a wave the types are ordered: elites are the toughest, largest and
   slowest, then heavies, then ranged, then basics.
   */
  lemma TypeOrdering(wave: nat)
    ensures NewEnemy(Basic, wave).maxHp < NewEnemy(Ranged, wave).maxHp < NewEnemy(Heavy, wave).maxHp < NewEnemy(Elite, wave).maxHp
    ensures Radius(Basic) < Radius(Ranged) < Radius(Heavy) < Radius(Elite)
    ensures Speed(Elite) < Speed(Heavy) < Speed(Ranged) < Speed(Basic)
    ensures NewEnemy(Ranged, wave).damage < NewEnemy(Basic, wave).damage < NewEnemy(Heavy, wave).damage < NewEnemy(Elite, wave).damage
  {
  }

  /** Enemies of any type get strictly tougher and hit strictly harder in later waves. */
  lemma LaterWavesAreStronger(t: EnemyType, a: nat, b: nat)
    requires a < b
    ensures NewEnemy(t, a).maxHp < NewEnemy(t, b).maxHp
    ensures NewEnemy(t, a).damage < NewEnemy(t, b).damage
  {
    assert WaveHp(a) < WaveHp(b) && WaveDamage(a) < WaveDamage(b);
  }

  /** The reward base: 5 before wave 5, then 5 plus half the wave, rounded down. */
  function RewardBase(wave: nat): nat {
    if wave < 5 then 5 else 5 + wave / 2
  }

  /** Gold dropped by a killed enemy: base times type multiplier times 20, floored, at least 1. */
  function GoldDrop(t: EnemyType, wave: nat): (g: int)
    ensures g >= 1
  {
    var value := (RewardBase(wave) as real * GoldMultiplier(t) * 20.0).Floor;
    if value >= 1 then value else 1
  }

  /** The gold drop is an exact whole multiple of the reward base. */
  lemma GoldDropExact(t: EnemyType, wave: nat)
    ensures GoldDrop(t, wave) == RewardBase(wave) * (match t case Basic => 20 case Ranged => 30 case Heavy => 40 case Elite => 120)
    ensures GoldDrop(t, wave) >= 100
  {
    var b := RewardBase(wave);
    match t
    case Basic => assert b as real * 1.0 * 20.0 == (b * 20) as real;
    case Ranged => assert b as real * 1.5 * 20.0 == (b * 30) as real;
    case Heavy => assert b as real * 2.0 * 20.0 == (b * 40) as real;
    case Elite => assert b as real * 6.0 * 20.0 == (b * 120) as real;
  }

  /** The gold drop never shrinks in later waves. */
  lemma GoldDropMonotone(t: EnemyType, a: nat, b: nat)
    requires a <= b
    ensures GoldDrop(t, a) <= GoldDrop(t, b)
  {
    GoldDropExact(t, a);
    GoldDropExact(t, b);
    assert RewardBase(a) <= RewardBase(b);
  }

  /** Hp restored by a health drop from an enemy of wave `wave`. */
  function HealthDrop(wave: nat): (v: int)
    ensures v >= 30 && v - 30 == 2 * wave
  {
    30 + ((wave as real) * 2.0).Floor
  }

  /** The outcome of a hit on an enemy. */
  datatype EnemyHit = EnemyHit(enemy: Enemy, killed: bool, drops: seq<Pickup>)

  /**
   A hit lowers the enemy's hp by the raw damage. An enemy at or below 0 hp is
   killed: it always drops its gold, then a health pack when the health draw is
   below 0.3, then a power-up when the power draw is below 0.2 (spread when the
   kind draw is below 0.5, homing otherwise). A surviving enemy drops nothing.
   */
  function TakeDamage(e: Enemy, dmg: real, rolls: DropRolls): (r: EnemyHit)
    ensures r.enemy == e.(hp := e.hp - dmg)
    ensures r.killed <==> e.hp - dmg <= 0.0
    ensures !r.killed ==> r.drops == []
    ensures r.killed ==> |r.drops| == 1 + (if rolls.health < 0.3 then 1 else 0) + (if rolls.power < 0.2 then 1 else 0)
    ensures r.killed ==> r.drops[0] == GoldCoin(GoldDrop(e.kind, e.wave))
    ensures r.killed && rolls.health < 0.3 ==> r.drops[1] == HealthPack(HealthDrop(e.wave))
    ensures r.killed ==> (HealthPack(HealthDrop(e.wave)) in r.drops <==> rolls.health < 0.3)
    ensures r.killed ==> ((exists k :: PowerPack(k) in r.drops) <==> rolls.power < 0.2)
    ensures forall k :: PowerPack(k) in r.drops ==> (k == Spread <==> rolls.powerKind < 0.5)
  {
    var hit := e.(hp := e.hp - dmg);
    if hit.hp <= 0.0 then
      var gold := [GoldCoin(GoldDrop(e.kind, e.wave))];
      var health := if rolls.health < 0.3 then [HealthPack(HealthDrop(e.wave))] else [];
      var power := if rolls.power < 0.2 then [PowerPack(if rolls.powerKind < 0.5 then Spread else Homing)] else [];
      EnemyHit(hit, true, gold + health + power)
    else
      EnemyHit(hit, false, [])
  }
}

/**
 The player ship's gameplay state: stats derived from upgrade levels on
 respawn and after each purchase, the owned drones reconciled to the drone
 level, timed power-ups, armor-reduced damage with the death penalty, and the
 health pickup.
 */
module PlayerState {
  import opened Balance

  datatype PowerKind = Spread | Homing

  /** An active power-up; it lapses once the clock reaches `endTime`. */
  datatype PowerUp = PowerUp(kind: PowerKind, endTime: real)

  /** A drone copies half of the player's attack and fire rate when it is built. */
  datatype Drone = Drone(attack: real, fireRate: real)

  datatype Player = Player(stats: Stats, hp: real, fireCooldown: real, powerUps: seq<PowerUp>, drones: seq<Drone>)

  // Seconds a power-up lasts after it is picked up.
  const PowerUpDuration: real := 10.0

  function MinReal(a: real, b: real): real {
    if a <= b then a else b
  }

  /** The drone that the player with stats `s` builds: half the player's attack and fire rate. */
  function NewDrone(s: Stats): (d: Drone)
    ensures 2.0 * d.attack == s.attack as real && 2.0 * d.fireRate == s.fireRate
    ensures s.attack >= 0 ==> 0.0 <= d.attack <= s.attack as real
    ensures s.fireRate >= 0.0 ==> 0.0 <= d.fireRate <= s.fireRate
  {
    Drone(s.attack as real * 0.5, s.fireRate * 0.5)
  }

  /**
   Respawn: every stat is rederived from the levels and the fire cooldown and
   power-ups are cleared; hp is the smaller of the starting hp and max hp, which
   is below max hp as soon as any max-hp level is owned. Drones are kept.
   */
  function Respawn(p: Player, u: Upgrades): (r: Player)
    ensures r.stats == DeriveStats(u)
    ensures r.hp == StartHp as real
    ensures r.hp <= r.stats.maxHp as real
    ensures u.maxHp > 0 <==> r.hp < r.stats.maxHp as real
    ensures r.fireCooldown == 0.0 && r.powerUps == [] && r.drones == p.drones
  {
    var s := DeriveStats(u);
    var hp := if StartHp <= s.maxHp then StartHp else s.maxHp;
    Player(s, hp as real, 0.0, [], p.drones)
  }

  /** A freshly constructed player: respawned from the levels, with no drones. */
  function NewPlayer(u: Upgrades): (r: Player)
    ensures r.stats == DeriveStats(u) && r.hp == StartHp as real
    ensures r.drones == [] && r.powerUps == []
  {
    Respawn(Player(Stats(0, 0, 0.0, 0.0, 0), 0.0, 0.0, [], []), u)
  }

  /**
   Grow the drone list by appending `d` or shrink it by dropping the last
   drone, one at a time, until it holds exactly `n` drones.
   */
  function Reconcile(ds: seq<Drone>, n: nat, d: Drone): (r: seq<Drone>)
    ensures |r| == n
    ensures forall i :: 0 <= i < |r| && i < |ds| ==> r[i] == ds[i]
    ensures forall i :: |ds| <= i < |r| ==> r[i] == d
    decreases if |ds| < n then n - |ds| else |ds| - n
  {
    if |ds| < n then Reconcile(ds + [d], n, d)
    else if |ds| > n then Reconcile(ds[..|ds| - 1], n, d)
    else ds
  }

  /**
   Recompute the stats after the levels changed. The hp gains the rise in max
   hp (capped at the new max) only when max hp rose; a max hp of 0 counts as the
   starting max hp. Existing drones are kept in order and the list is brought to
   exactly the drone level, new drones being built from the new stats.
   */
  function ApplyUpgradeChanges(p: Player, u: Upgrades): (r: Player)
    ensures r.stats == DeriveStats(u)
    ensures var prevMax := if p.stats.maxHp == 0 then StartMaxHp else p.stats.maxHp;
      && (r.stats.maxHp > prevMax ==> r.hp == MinReal(p.hp + (r.stats.maxHp - prevMax) as real, r.stats.maxHp as real))
      && (r.stats.maxHp <= prevMax ==> r.hp == p.hp)
    ensures |r.drones| == u.drones
    ensures forall i :: 0 <= i < |r.drones| && i < |p.drones| ==> r.drones[i] == p.drones[i]
    ensures forall i :: |p.drones| <= i < |r.drones| ==> r.drones[i] == NewDrone(r.stats)
    ensures r.powerUps == p.powerUps && r.fireCooldown == p.fireCooldown
  {
    var prevMax := if p.stats.maxHp == 0 then StartMaxHp else p.stats.maxHp;
    var s := DeriveStats(u);
    var delta := s.maxHp - prevMax;
    var hp := if delta > 0 then MinReal(p.hp + delta as real, s.maxHp as real) else p.hp;
    Player(s, hp, p.fireCooldown, p.powerUps, Reconcile(p.drones, u.drones, NewDrone(s)))
  }

  /** Recomputing twice with unchanged levels gives the same player as once. */
  lemma ApplyUpgradeChangesIdempotent(p: Player, u: Upgrades)
    ensures ApplyUpgradeChanges(ApplyUpgradeChanges(p, u), u) == ApplyUpgradeChanges(p, u)
  {
    var q := ApplyUpgradeChanges(p, u);
    var r := ApplyUpgradeChanges(q, u);
    assert r.drones == q.drones;
  }

  /**
   When the levels only rise from those the stats were derived from, hp stays
   within [0, max hp] and never drops.
   */
  lemma ApplyUpgradeChangesKeepsHpBounds(p: Player, u0: Upgrades, u: Upgrades)
    requires p.stats == DeriveStats(u0) && u0.AtMost(u)
    requires 0.0 <= p.hp <= p.stats.maxHp as real
    ensures var r := ApplyUpgradeChanges(p, u);
      p.hp <= r.hp <= r.stats.maxHp as real
  {
    DeriveStatsMonotone(u0, u);
  }

  /** True when at most one entry of each power-up kind is active. */
  predicate OnePerKind(ps: seq<PowerUp>) {
    forall i, j :: 0 <= i < j < |ps| ==> ps[i].kind != ps[j].kind
  }

  predicate HasKind(ps: seq<PowerUp>, k: PowerKind) {
    exists i :: 0 <= i < |ps| && ps[i].kind == k
  }

  /** The position of the first entry of kind `k`, or -1 when there is none. */
  function FindKind(ps: seq<PowerUp>, k: PowerKind): (i: int)
    ensures -1 <= i < |ps|
    ensures i >= 0 ==> ps[i].kind == k && forall j :: 0 <= j < i ==> ps[j].kind != k
    ensures i == -1 <==> !HasKind(ps, k)
    decreases |ps|
  {
    if |ps| == 0 then -1
    else if ps[0].kind == k then 0
    else
      var j := FindKind(ps[1..], k);
      if j == -1 then -1 else j + 1
  }

  /**
   Activate a power-up of kind `k` at time `now`: an existing entry of that kind
   only has its expiry moved to `now + 10`; otherwise a new entry is appended.
   */
  function ApplyPowerUp(ps: seq<PowerUp>, k: PowerKind, now: real): (r: seq<PowerUp>)
    ensures HasKind(ps, k) ==> |r| == |ps|
    ensures !HasKind(ps, k) ==> r == ps + [PowerUp(k, now + PowerUpDuration)]
    ensures forall i :: 0 <= i < |ps| && ps[i].kind != k ==> r[i] == ps[i]
    ensures forall i :: 0 <= i < |r| && r[i].kind == k && i < |ps| && OnePerKind(ps) ==> r[i].endTime == now + PowerUpDuration
    ensures OnePerKind(ps) ==> OnePerKind(r)
    ensures HasKind(r, k)
  {
    var i := FindKind(ps, k);
    var entry := PowerUp(k, now + PowerUpDuration);
    if i >= 0 then
      assert ps[i := entry][i] == entry;
      ps[i := entry]
    else
      assert (ps + [entry])[|ps|] == entry;
      ps + [entry]
  }

  /** Keep, in order, exactly the power-ups that have not yet expired at `now`. */
  function ExpirePowerUps(ps: seq<PowerUp>, now: real): (r: seq<PowerUp>)
    ensures |r| <= |ps|
    ensures forall i :: 0 <= i < |r| ==> now < r[i].endTime
    ensures forall x :: x in r <==> x in ps && now < x.endTime
    ensures forall k :: HasKind(r, k) ==> HasKind(ps, k)
    decreases |ps|
  {
    if |ps| == 0 then []
    else
      var rest := ExpirePowerUps(ps[1..], now);
      assert forall x :: x in ps <==> x == ps[0] || x in ps[1..];
      if now < ps[0].endTime then [ps[0]] + rest else rest
  }

  /** Expiry keeps every live power-up exactly as often as it occurs and drops every lapsed one. */
  lemma {:induction false} ExpireKeepsMultiplicity(ps: seq<PowerUp>, now: real)
    ensures forall x :: multiset(ExpirePowerUps(ps, now))[x] == if now < x.endTime then multiset(ps)[x] else 0
    decreases |ps|
  {
    if |ps| > 0 {
      ExpireKeepsMultiplicity(ps[1..], now);
      var rest := ExpirePowerUps(ps[1..], now);
      assert ps == [ps[0]] + ps[1..];
      assert multiset(ps) == multiset{ps[0]} + multiset(ps[1..]);
      if now < ps[0].endTime {
        assert multiset([ps[0]] + rest) == multiset{ps[0]} + multiset(rest);
      }
    }
  }

  /** The power-ups that survive expiry keep their relative order. */
  lemma {:induction false} ExpireKeepsOrder(ps: seq<PowerUp>, now: real)
    ensures Subsequence(ExpirePowerUps(ps, now), ps)
    decreases |ps|
  {
    if |ps| > 0 {
      ExpireKeepsOrder(ps[1..], now);
      var rest := ExpirePowerUps(ps[1..], now);
      if now < ps[0].endTime {
        assert ([ps[0]] + rest)[1..] == rest;
      }
    }
  }

  /** `a` is `b` with some entries left out, the rest kept in their order. */
  predicate Subsequence<T(==)>(a: seq<T>, b: seq<T>)
    decreases |b|
  {
    || |a| == 0
    || (|b| > 0 && ((a[0] == b[0] && Subsequence(a[1..], b[1..])) || Subsequence(a, b[1..])))
  }

  /** Expiry never creates a second entry of a kind. */
  lemma {:induction false} ExpireKeepsOnePerKind(ps: seq<PowerUp>, now: real)
    requires OnePerKind(ps)
    ensures OnePerKind(ExpirePowerUps(ps, now))
    decreases |ps|
  {
    if |ps| > 0 {
      var tail := ps[1..];
      assert OnePerKind(tail) by {
        forall i, j | 0 <= i < j < |tail| ensures tail[i].kind != tail[j].kind {
          assert tail[i] == ps[i + 1] && tail[j] == ps[j + 1];
        }
      }
      ExpireKeepsOnePerKind(tail, now);
      var rest := ExpirePowerUps(tail, now);
      if now < ps[0].endTime {
        assert !HasKind(tail, ps[0].kind) by {
          forall j | 0 <= j < |tail| ensures tail[j].kind != ps[0].kind {
            assert tail[j] == ps[j + 1];
          }
        }
        assert !HasKind(rest, ps[0].kind);
        var r := [ps[0]] + rest;
        forall i, j | 0 <= i < j < |r| ensures r[i].kind != r[j].kind {
          if i == 0 {
            assert r[j] == rest[j - 1];
          }
        }
      }
    }
  }

  /** What a hit on the player produced. */
  datatype Hurt = Hurt(player: Player, gold: int, died: bool)

  /**
   A hit of `amount` is reduced by the armor fraction. If hp falls to 0 or
   below it becomes exactly 0, the player is destroyed and a tenth of the gold
   (rounded down) is forfeited, never taking gold below 0; otherwise only hp
   changes.
   */
  function TakeDamage(p: Player, gold: int, amount: real): (r: Hurt)
    ensures var after := p.hp - amount * (1.0 - p.stats.armorPct);
      && (r.died <==> after <= 0.0)
      && (r.died ==> r.player.hp == 0.0)
      && (!r.died ==> r.player.hp == after && r.gold == gold)
    ensures r.died && gold >= 0 ==> r.gold == gold - gold / 10
    ensures r.gold >= 0 || (!r.died && r.gold == gold)
    ensures r.player == p.(hp := r.player.hp)
  {
    var hp := p.hp - amount * (1.0 - p.stats.armorPct);
    if hp <= 0.0 then
      var lost := (gold as real * 0.1).Floor;
      var g := if gold - lost >= 0 then gold - lost else 0;
      Hurt(p.(hp := 0.0), g, true)
    else
      Hurt(p.(hp := hp), gold, false)
  }

  /** The worked example: a destroyed player holding 1000 gold keeps 900. */
  lemma DeathForfeitsTenth(p: Player, amount: real)
    requires p.hp - amount * (1.0 - p.stats.armorPct) <= 0.0
    ensures TakeDamage(p, 1000, amount).gold == 900
  {
  }

  /**
   There is no dead state: while the respawn is pending hp stays 0, so every
   further hit whose armor-reduced value is not negative destroys the player
   again and forfeits another tenth of the gold.
   */
  lemma HitWhileDownForfeitsAgain(p: Player, gold: nat, amount: real)
    requires p.hp == 0.0 && amount >= 0.0 && p.stats.armorPct <= 1.0
    ensures TakeDamage(p, gold, amount).died
    ensures TakeDamage(p, gold, amount).gold == gold - gold / 10
  {
    MulNonNegative(amount, 1.0 - p.stats.armorPct);
  }

  /** With armor below 100% damage never raises hp; with armor at or above 100% it never kills a live player. */
  lemma ArmorBounds(p: Player, gold: int, amount: real)
    requires amount >= 0.0 && p.hp > 0.0
    ensures p.stats.armorPct <= 1.0 ==> TakeDamage(p, gold, amount).player.hp <= p.hp
    ensures p.stats.armorPct >= 1.0 ==> !TakeDamage(p, gold, amount).died
    ensures p.stats.armorPct >= 1.0 ==> TakeDamage(p, gold, amount).player.hp >= p.hp
  {
    if p.stats.armorPct <= 1.0 {
      MulNonNegative(amount, 1.0 - p.stats.armorPct);
    }
    if p.stats.armorPct >= 1.0 {
      MulNonNegative(amount, p.stats.armorPct - 1.0);
      assert amount * (1.0 - p.stats.armorPct) == -(amount * (p.stats.armorPct - 1.0));
    }
  }

  lemma MulNonNegative(a: real, b: real)
    requires a >= 0.0 && b >= 0.0
    ensures a * b >= 0.0
  {
  }

  /** Armor above 100% turns a hit into healing that can lift hp past max hp. */
  lemma OverArmorHealsPastMax()
    ensures var p := Player(DeriveStats(NoUpgrades.(armor := 100)), 500.0, 0.0, [], []);
      var r := TakeDamage(p, 0, 10.0);
      !r.died && r.player.hp == 510.0 && r.player.hp > p.stats.maxHp as real
  {
  }

  /**
   A health pickup worth `value` restores `min(maxHp - hp, value)`: hp moves to
   the smaller of max hp and hp plus the value, so a player at or below max hp
   stays there, and one above max hp is brought down to it.
   */
  function CollectHealth(p: Player, value: real): (r: Player)
    ensures r.hp == MinReal(p.stats.maxHp as real, p.hp + value)
    ensures r.hp <= p.stats.maxHp as real
    ensures p.hp <= p.stats.maxHp as real && value >= 0.0 ==> p.hp <= r.hp
    ensures r == p.(hp := r.hp)
  {
    var restored := MinReal(p.stats.maxHp as real - p.hp, value);
    p.(hp := p.hp + restored)
  }
}

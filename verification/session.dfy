/**
 The game-level view of the economy: the gold balance, the persistent upgrade
 levels and the player, with the upgrade buy handlers, hits on the player, the
 deferred respawn and pickup collection. A respawn scheduled by a death is an
 explicit pending count; each firing respawns the player from the levels
 current at that moment.
 */
module Session {
  import opened Balance
  import opened Economy
  import opened PlayerState
  import opened Enemies

  datatype Game = Game(gold: int, levels: Upgrades, player: Player, pendingRespawns: nat)

  /** Game start: a new player, then a stat recompute that builds the owned drones. */
  function StartGame(gold: int, levels: Upgrades): (g: Game)
    ensures g.gold == gold && g.levels == levels && g.pendingRespawns == 0
    ensures g.player.stats == DeriveStats(levels) && g.player.hp == StartHp as real
    ensures |g.player.drones| == levels.drones && g.player.powerUps == []
    ensures forall i :: 0 <= i < |g.player.drones| ==> g.player.drones[i] == NewDrone(DeriveStats(levels))
  {
    Game(gold, levels, ApplyUpgradeChanges(NewPlayer(levels), levels), 0)
  }

  /**
   The upgrade panel's buy button: when affordable the cost is deducted, the
   level rises by one and the player's stats are recomputed; otherwise nothing
   changes.
   */
  function Buy(g: Game, k: Kind): (r: Game)
    ensures CanAfford(Purse(g.gold, g.levels), k) ==>
      && r.gold == g.gold - Cost(k, g.levels.Level(k))
      && r.levels == g.levels.Bump(k)
      && r.player == ApplyUpgradeChanges(g.player, r.levels)
    ensures !CanAfford(Purse(g.gold, g.levels), k) ==> r == g
    ensures r.pendingRespawns == g.pendingRespawns
    ensures g.gold >= 0 ==> r.gold >= 0
  {
    var q := Purchase(Purse(g.gold, g.levels), k);
    if CanAfford(Purse(g.gold, g.levels), k) then
      Game(q.gold, q.levels, ApplyUpgradeChanges(g.player, q.levels), g.pendingRespawns)
    else g
  }

  /** The "buy attack" shortcut: the attack purchase, with the same all-or-nothing outcome. */
  function BuyBestAffordableAttack(g: Game): (r: Game)
    ensures g.gold >= Cost(Attack, g.levels.attack) ==>
      r.gold == g.gold - Cost(Attack, g.levels.attack) && r.levels == g.levels.(attack := g.levels.attack + 1)
    ensures g.gold >= Cost(Attack, g.levels.attack) ==> r.player == ApplyUpgradeChanges(g.player, r.levels)
    ensures g.gold < Cost(Attack, g.levels.attack) ==> r == g
    ensures r.pendingRespawns == g.pendingRespawns
    ensures r.player.stats == DeriveStats(r.levels) || r == g
  {
    Buy(g, Attack)
  }

  /**
   The attack shortcut keeps the invariant, and a successful buy raises the
   player's attack by exactly one increment and changes no other stat.
   */
  lemma AttackShortcutRaisesAttack(g: Game)
    requires Sound(g)
    ensures Sound(BuyBestAffordableAttack(g))
    ensures g.gold >= Cost(Attack, g.levels.attack) ==>
      BuyBestAffordableAttack(g).player.stats == g.player.stats.(attack := g.player.stats.attack + AttackAdd)
  {
  }

  /**
   A hit on the player. A hit that destroys the player zeroes hp, forfeits a
   tenth of the gold and schedules one more respawn; any other hit only lowers
   (or, past full armor, raises) hp.
   */
  function Hit(g: Game, amount: real): (r: Game)
    ensures var after := g.player.hp - amount * (1.0 - g.player.stats.armorPct);
      && (after <= 0.0 ==> r.pendingRespawns == g.pendingRespawns + 1 && r.player.hp == 0.0)
      && (after <= 0.0 && g.gold >= 0 ==> r.gold == g.gold - g.gold / 10)
      && (after > 0.0 ==> r.pendingRespawns == g.pendingRespawns && r.player.hp == after && r.gold == g.gold)
    ensures r.levels == g.levels && r.player == g.player.(hp := r.player.hp)
  {
    var h := PlayerState.TakeDamage(g.player, g.gold, amount);
    Game(h.gold, g.levels, h.player, g.pendingRespawns + (if h.died then 1 else 0))
  }

  /** One scheduled respawn fires: the player is respawned from the current levels. */
  function RespawnFires(g: Game): (r: Game)
    requires g.pendingRespawns > 0
    ensures r.pendingRespawns == g.pendingRespawns - 1
    ensures r.player == Respawn(g.player, g.levels)
    ensures r.gold == g.gold && r.levels == g.levels
  {
    g.(player := Respawn(g.player, g.levels), pendingRespawns := g.pendingRespawns - 1)
  }

  /** Collecting a pickup at time `now`: gold is added, health restored, or a power-up activated. */
  function Collect(g: Game, pickup: Pickup, now: real): (r: Game)
    ensures pickup.GoldCoin? ==> r == g.(gold := g.gold + pickup.value)
    ensures pickup.HealthPack? ==> r.gold == g.gold && r.player == g.player.(hp := r.player.hp)
    ensures pickup.HealthPack? ==> r.player.hp == MinReal(g.player.stats.maxHp as real, g.player.hp + pickup.value as real)
    ensures pickup.PowerPack? ==> r.gold == g.gold && r.player == g.player.(powerUps := r.player.powerUps)
    ensures pickup.PowerPack? ==> r.player.powerUps == ApplyPowerUp(g.player.powerUps, pickup.power, now)
    ensures pickup.PowerPack? ==> HasKind(r.player.powerUps, pickup.power)
    ensures pickup.PowerPack? && OnePerKind(g.player.powerUps) ==> OnePerKind(r.player.powerUps)
    ensures r.levels == g.levels && r.pendingRespawns == g.pendingRespawns
  {
    match pickup
    case GoldCoin(v) => g.(gold := g.gold + v)
    case HealthPack(v) => g.(player := CollectHealth(g.player, v as real))
    case PowerPack(k) => g.(player := g.player.(powerUps := ApplyPowerUp(g.player.powerUps, k, now)))
  }

  /** Collecting a list of pickups in order. */
  function CollectAll(g: Game, ds: seq<Pickup>, now: real): Game
    decreases |ds|
  {
    if |ds| == 0 then g else CollectAll(Collect(g, ds[0], now), ds[1..], now)
  }

  /** The gold value of the coins in a list of pickups. */
  function GoldIn(ds: seq<Pickup>): int
    decreases |ds|
  {
    if |ds| == 0 then 0 else (if ds[0].GoldCoin? then ds[0].value else 0) + GoldIn(ds[1..])
  }

  /** Collecting pickups adds exactly the value of their coins and touches neither levels nor respawns. */
  lemma {:induction false} CollectAllGold(g: Game, ds: seq<Pickup>, now: real)
    ensures CollectAll(g, ds, now).gold == g.gold + GoldIn(ds)
    ensures CollectAll(g, ds, now).levels == g.levels
    ensures CollectAll(g, ds, now).pendingRespawns == g.pendingRespawns
    decreases |ds|
  {
    if |ds| > 0 {
      CollectAllGold(Collect(g, ds[0], now), ds[1..], now);
    }
  }

  /**
   The kill reward reaches the purse: collecting every drop of a killed enemy
   adds exactly its gold drop, whatever the chance drops were, and keeps the
   levels and pending respawns.
   */
  lemma KillRewardGold(g: Game, e: Enemy, dmg: real, rolls: DropRolls, now: real)
    requires e.hp - dmg <= 0.0
    ensures var c := CollectAll(g, Enemies.TakeDamage(e, dmg, rolls).drops, now);
      && c.gold == g.gold + GoldDrop(e.kind, e.wave)
      && c.levels == g.levels && c.pendingRespawns == g.pendingRespawns
  {
    var ds := Enemies.TakeDamage(e, dmg, rolls).drops;
    CollectAllGold(g, ds, now);
    var health := if rolls.health < 0.3 then [HealthPack(HealthDrop(e.wave))] else [];
    var power := if rolls.power < 0.2 then [PowerPack(if rolls.powerKind < 0.5 then Spread else Homing)] else [];
    assert ds == [GoldCoin(GoldDrop(e.kind, e.wave))] + (health + power);
    assert ds[1..] == health + power;
    var tail := health + power;
    if |power| > 0 {
      assert power[1..] == [];
    }
    assert GoldIn(power) == 0;
    if |health| > 0 {
      assert tail[1..] == power;
    } else {
      assert tail == power;
    }
    assert GoldIn(tail) == 0;
  }

  /**
   The invariant the economy keeps: gold is never negative, the stats are the
   ones the levels determine, the drone count matches the drone level, hp lies
   in [0, max hp], and at most one power-up of each kind is active.
   */
  predicate Sound(g: Game) {
    && g.gold >= 0
    && g.player.stats == DeriveStats(g.levels)
    && |g.player.drones| == g.levels.drones
    && 0.0 <= g.player.hp <= g.player.stats.maxHp as real
    && OnePerKind(g.player.powerUps)
  }

  lemma StartGameSound(gold: nat, levels: Upgrades)
    ensures Sound(StartGame(gold, levels))
  {
  }

  lemma BuySound(g: Game, k: Kind)
    requires Sound(g)
    ensures Sound(Buy(g, k))
  {
    if CanAfford(Purse(g.gold, g.levels), k) {
      assert g.levels.AtMost(g.levels.Bump(k));
      ApplyUpgradeChangesKeepsHpBounds(g.player, g.levels, g.levels.Bump(k));
    }
  }

  /** Hits keep the invariant as long as armor has not passed 100% (armor level 50). */
  lemma HitSound(g: Game, amount: real)
    requires Sound(g) && amount >= 0.0 && g.levels.armor <= 50
    ensures Sound(Hit(g, amount))
  {
    ArmorReachesFull(g.levels);
    if g.player.hp > 0.0 {
      ArmorBounds(g.player, g.gold, amount);
    }
  }

  lemma RespawnFiresSound(g: Game)
    requires Sound(g) && g.pendingRespawns > 0
    ensures Sound(RespawnFires(g))
  {
  }

  /** Collecting the pickups enemies drop keeps the invariant. */
  lemma CollectSound(g: Game, pickup: Pickup, now: real)
    requires Sound(g)
    requires !pickup.PowerPack? ==> pickup.value >= 0
    ensures Sound(Collect(g, pickup, now))
  {
  }

  /**
   The respawn scenario: a player with 1000 gold who is destroyed keeps 900 gold
   and has one respawn pending; when it fires, the stats are rederived from the
   levels and hp is the starting 500, with the gold still 900.
   */
  lemma RespawnScenario(g: Game, amount: real)
    requires Sound(g) && g.gold == 1000 && g.pendingRespawns == 0
    requires g.player.hp - amount * (1.0 - g.player.stats.armorPct) <= 0.0
    ensures var h := Hit(g, amount);
      && h.gold == 900 && h.pendingRespawns == 1 && h.player.hp == 0.0
      && RespawnFires(h).gold == 900
      && RespawnFires(h).player.hp == 500.0
      && RespawnFires(h).player.stats == DeriveStats(g.levels)
  {
  }

  /**
   Every hit taken before the respawn fires costs another tenth of the gold
   and schedules another respawn.
   */
  lemma SecondHitBeforeRespawn(g: Game, first: real, second: real)
    requires Sound(g) && g.levels.armor <= 50 && second >= 0.0
    requires g.player.hp - first * (1.0 - g.player.stats.armorPct) <= 0.0
    ensures var h1 := Hit(g, first);
      var h2 := Hit(h1, second);
      && h2.gold == h1.gold - h1.gold / 10
      && h2.pendingRespawns == g.pendingRespawns + 2
  {
    ArmorReachesFull(g.levels);
    var h1 := Hit(g, first);
    HitWhileDownForfeitsAgain(h1.player, h1.gold, second);
  }
}

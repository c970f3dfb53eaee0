# Orbital Void — economy and balance rules in Dafny

A model of the economy and balance rules of a browser autobattler. In the game a
player ship fights waves of enemy ships, collects gold and buys persistent
upgrades. The model covers the parts of `script.js` that are exact arithmetic
over small records:

- the upgrade cost tables and the check-and-deduct purchase;
- the derivation of player stats from upgrade levels: on respawn, after a
  purchase, and when the drone list is reconciled to the drone level;
- armor-reduced damage with the 10% gold penalty on death;
- the health and gold pickups, and the timed power-up list;
- the enemy stat table and the kill reward;
- the wave manager: enemy count, type thresholds, composition, and the elite
  every fifth wave. Deferred wave starts are an explicit queue of pending waves,
  and the once-a-second watchdog is modelled too;
- the bullet and particle population caps.

Random draws (`Math.random`) are parameters. Timers (`setTimeout`) become explicit
pending state: a FIFO queue of wave numbers in `Waves`, and a count of scheduled
respawns in `Session`. The game clock is a `now` parameter.

Modules, one per component, in dependency order: `Balance` (balance.dfy),
`Economy` (economy.dfy), `PlayerState` (player.dfy), `Enemies` (enemies.dfy),
`Waves` (waves.dfy), `Caps` (caps.dfy), `Session` (session.dfy).

Behaviours of `script.js` that the model keeps, some of them surprising:

- Respawn sets hp to `min(500, maxHP)`, which is always 500, since max hp never
  drops below 500. With any max-hp level owned, a respawned player is therefore
  not at full health
  (`PlayerState.Respawn`, `Session.RespawnScenario`).
- The arena is regenerated on waves 1, 11, 21, …, that is when `n mod 10 = 1`.
- The bullet cap is not kept by every weapon: a drone can push the list to 301,
  and nothing but the periodic trim enforces the cap again; bullets that expire
  or hit something also leave the list (see Findings).
- Armor is not clamped to 100%. From armor level 51 on, a hit heals the player,
  even past max hp (`Balance.ArmorReachesFull`, `PlayerState.OverArmorHealsPastMax`).
- The player has no dead state. Up to armor level 50, every hit while hp is 0
  counts as a new death: it costs another tenth of the gold and schedules another
  respawn. Beyond level 50 such a hit heals instead
  (`PlayerState.HitWhileDownForfeitsAgain`, `Session.SecondHitBeforeRespawn`).

## Model

| member | source | states |
|---|---|---|
| Balance.Cost | script.js:89-96 | every upgrade cost is at least its kind's base (50/80/100/120/40/150) and so always positive |
| Balance.CostStep | script.js:89-96 | each further level costs exactly one base more than the previous one |
| Balance.CostStrictlyIncreasing | script.js:89-96 | the cost of a kind is strictly increasing in the level |
| Balance.DeriveStats | script.js:79-104 | stats derived from levels are never below the starting stats |
| Balance.BumpChangesOneStat | script.js:97-104 | one more level of a kind raises exactly that kind's stat by its increment; every other stat stays the same, and a drone level changes no stat |
| Balance.DeriveStatsMonotone | script.js:97-104 | more upgrade levels never lower any stat |
| Balance.ArmorReachesFull | script.js:180 | armor reduction reaches 100% exactly at armor level 50 and exceeds it beyond level 50: it is never clamped |
| Economy.Purchase | script.js:1078-1090 | if affordable, the exact cost is deducted and only the bought kind's level rises, by 1; otherwise nothing changes; gold never becomes negative |
| Economy.PurchaseAllOrNothing | script.js:1081-1083 | a purchase changes the gold/level state if and only if the gold covers the cost |
| Economy.TotalCostClosedForm | script.js:89-96 | reaching level n from 0 costs base·n·(n+1)/2 in total |
| Economy.FullArmorPrice | script.js:93 | full armor (level 50) costs 153000 gold in total |
| Economy.PurchaseAllConserves | script.js:1078-1090 | after any run of purchases, the remaining gold plus the price of every level gained equals the starting gold; levels only rise; gold stays non-negative |
| PlayerState.Respawn | script.js:174-185 | respawn rederives all stats from the levels and sets hp to 500, which is below max hp whenever a max-hp level is owned; it clears cooldown and power-ups and keeps the drones |
| PlayerState.NewPlayer | script.js:159-173 | a new player has the derived stats, 500 hp, no drones and no power-ups |
| PlayerState.Reconcile | script.js:196-198 | growing or shrinking one drone at a time ends with exactly the target number of drones; existing drones keep their order, and drones are added only at the end |
| PlayerState.NewDrone | script.js:410-421 | a new drone gets exactly half of the player's attack and fire rate, so it never has more of either than the player |
| PlayerState.ApplyUpgradeChanges | script.js:186-199 | stats become the derived ones; hp gains the rise in max hp, capped at the new max, only when max hp rose (a max hp of 0 counts as 500); the drone count equals the drone level, and new drones get half of the new attack and fire rate |
| PlayerState.ApplyUpgradeChangesIdempotent | script.js:186-199 | recomputing twice with unchanged levels gives the same player as recomputing once |
| PlayerState.ApplyUpgradeChangesKeepsHpBounds | script.js:188-191 | when levels only rise, hp never drops and stays within max hp |
| PlayerState.FindKind | script.js:201 | the search finds the first active power-up of a kind, or reports that there is none |
| PlayerState.ApplyPowerUp | script.js:200-207 | an existing entry of the kind only has its expiry reset to now+10 and the list length is unchanged; otherwise exactly one entry is appended; other entries are untouched; at most one entry per kind is preserved |
| PlayerState.ExpirePowerUps | script.js:210 | keeps exactly the power-ups with now < endTime |
| PlayerState.ExpireKeepsMultiplicity | script.js:210 | each live power-up is kept exactly as often as it occurs and each lapsed one is dropped |
| PlayerState.ExpireKeepsOrder | script.js:210 | the power-ups that survive expiry keep their original relative order |
| PlayerState.ExpireKeepsOnePerKind | script.js:200-210 | expiry preserves at most one power-up per kind |
| PlayerState.TakeDamage | script.js:324-334 | hp drops by amount·(1−armor); the player dies if and only if the result is ≤ 0; on death hp is exactly 0 and gold becomes gold − floor(gold/10); otherwise gold is untouched |
| PlayerState.DeathForfeitsTenth | script.js:332-333 | a destroyed player with 1000 gold keeps 900 |
| PlayerState.HitWhileDownForfeitsAgain | script.js:324-334 | at hp 0, any hit that armor does not turn negative kills the player again and forfeits another tenth of the gold |
| PlayerState.ArmorBounds | script.js:325-326 | with armor ≤ 100% a hit never raises hp; with armor ≥ 100% a hit never kills a live player |
| PlayerState.OverArmorHealsPastMax | script.js:324-326 | at armor level 100, a 10-damage hit lifts hp from 500 to 510, above max hp |
| PlayerState.CollectHealth | script.js:307-309 | hp becomes min(maxHP, hp + value): it never exceeds max hp and never drops for a non-negative value |
| Enemies.NewEnemy | script.js:540-546 | an enemy spawns at full hp; its hp is (20+5·wave)·type multiplier, its damage is (1+0.5·wave)·type multiplier, and its radius and speed are its type's table entries |
| Enemies.TypeOrdering | script.js:540-546 | elite > heavy > ranged > basic in hp and radius; the speed order is the reverse; the damage order is elite > heavy > basic > ranged |
| Enemies.LaterWavesAreStronger | script.js:86-87 | enemy hp and damage strictly increase with the wave |
| Enemies.GoldDrop | script.js:699-701 | the gold drop is always at least 1 |
| Enemies.GoldDropExact | script.js:699-701 | the gold drop is exactly 20/30/40/120 times the reward base for basic/ranged/heavy/elite, and so at least 100 |
| Enemies.GoldDropMonotone | script.js:699-701 | the gold drop never shrinks in later waves |
| Enemies.HealthDrop | script.js:705 | a health drop restores exactly 30 + 2·wave |
| Enemies.TakeDamage | script.js:695-720 | an enemy is killed if and only if hp − damage ≤ 0; a kill drops exactly one gold coin, first, then one health pack if and only if the draw < 0.3, and one power-up if and only if the draw < 0.2 (spread if and only if its draw < 0.5), so 1 + (health) + (power) drops in all, in the order coin, health, power; a survivor drops nothing |
| Waves.EnemyCount | script.js:886 | wave enemy count lies between 3 and 50 |
| Waves.EnemyCountClosedForm | script.js:886 | count = min(50, 3 + floor(3n/2)); the cap of 50 is reached if and only if n ≥ 32 |
| Waves.EnemyCountMonotone | script.js:886 | the enemy count never decreases from one wave to the next |
| Waves.HeavyThreshold | script.js:887 | the heavy threshold lies in [0.2, 0.45] and reaches 0.45 if and only if n ≥ 25 |
| Waves.RangedThreshold | script.js:888 | the ranged width lies in [0, 0.35] and is 0 if and only if n ≤ 5 |
| Waves.ChooseType | script.js:891-894 | a roll gives heavy if and only if it is below the heavy threshold, ranged if and only if it lies in the next band of the ranged width, basic otherwise, and never elite |
| Waves.ChooseTypeBands | script.js:890-896 | a roll maps to heavy if and only if r < h, to ranged if and only if h ≤ r < h + rg, and to basic otherwise; never to elite; never to ranged before wave 6; always to basic when r ≥ 0.8 |
| Waves.WaveSixExample | script.js:886-888 | wave 6 has count 12, heavy threshold 0.26 and ranged width 0.115 |
| Waves.Composition | script.js:889-897 | one type per roll, followed by an elite exactly on waves divisible by 5 |
| Waves.EliteExactlyOnFifthWaves | script.js:897 | a wave contains exactly one elite if n mod 5 = 0, and none otherwise |
| Waves.Spawn | script.js:889-897 | the wave's enemies are the composition's types, all of that wave |
| Waves.StartWave | script.js:877-900 | the wave becomes current and its enemies are appended to the survivors; obstacles are regenerated if and only if n mod 10 = 1; pending starts are untouched |
| Waves.DefeatEnemy | script.js:901-906 | removes the enemy; a start of currentWave+1 is scheduled if and only if the list became empty |
| Waves.FireTimer | script.js:904 | the oldest pending start fires: its wave becomes current with its batch appended, and the arena is regenerated if and only if that wave is 1 mod 10 |
| Waves.Watchdog | script.js:1199-1206 | when unpaused with no enemies, it restarts the current wave, not the next, regenerating the arena if and only if that wave is 1 mod 10; otherwise nothing changes |
| Waves.WaveTransition | script.js:901-905 | after the last kill and the deferred start, the wave counter is exactly one higher and exactly the next wave's batch is alive |
| Waves.WatchdogRaceSpawnsTwoWaves | script.js:1199-1203 | a watchdog tick between the last kill and the deferred start leaves both wave n and wave n+1 alive |
| Waves.GuardedWatchdog | script.js:1199-1203 | the corrected watchdog restarts the current wave, with the same arena rule, only when no enemy is alive and no start is pending |
| Waves.GuardedWatchdogNoRace | script.js:1199-1203 | with the corrected watchdog, the transition spawns exactly the next wave |
| Caps.SpawnBullet | script.js:631 | a bullet is added if and only if the list is below 300, so a capped list stays capped |
| Caps.Volley | script.js:342-358 | each bullet of a volley is checked on its own, so exactly min(shots, room) bullets are added, in order |
| Caps.PlayerShot | script.js:339-371 | a player shot (5 bullets with spread, else 1) keeps every existing bullet and appends exactly min(shots, room) new ones, so it adds nothing at or over the cap, never breaks the cap, and adds every bullet when there is room |
| Caps.DroneShotAsWritten | script.js:460-470 | the drone shot refuses only above 300, so the list is bounded only by 301 |
| Caps.DroneShotOverflows | script.js:461 | a drone firing on a list of exactly 300 bullets makes 301, where the regular check would keep 300 |
| Caps.DroneShot | script.js:461 | the corrected drone shot appends its bullet below the cap and leaves the list unchanged at or over it, so a capped list stays capped |
| Caps.DroneShotsKeepCap | script.js:460-470 | any run of corrected drone shots keeps the bullet list within 300 |
| Caps.Truncate | script.js:1227-1229 | the periodic trim keeps exactly the newest min(len, max) entries |
| Caps.TruncateRestoresCap | script.js:1228 | the trim brings a 301-bullet list back to the newest 300 |
| Caps.CreateParticle | script.js:862-869 | adds min(count, max − len) particles (none when count ≤ 0 or the list is full), appended in order; a list within 300 stays within 300 |
| Session.StartGame | script.js:1034-1044 | game start gives derived stats, 500 hp, and one drone per drone level, each built from the derived stats |
| Session.Buy | script.js:1078-1090 | an affordable purchase deducts the cost, bumps the level and recomputes the player; otherwise the game is unchanged; gold stays non-negative |
| Session.BuyBestAffordableAttack | script.js:1123-1135 | when affordable, the attack shortcut deducts the attack cost, raises the attack level by 1 and recomputes the player from the new levels; otherwise it changes nothing; pending respawns are kept |
| Session.AttackShortcutRaisesAttack | script.js:1123-1135 | the shortcut keeps the game invariant, and a successful buy raises the attack stat by exactly 5 and no other stat |
| Session.Hit | script.js:324-334 | a fatal hit sets hp to 0, forfeits a tenth of the gold and adds one pending respawn; a non-fatal hit only changes hp |
| Session.RespawnFires | script.js:334 | a pending respawn rederives the player from the current levels and is consumed |
| Session.Collect | script.js:302-317 | gold adds its value; health sets hp to min(maxHP, hp + value); a power-up is applied as the power-up list's refresh-or-append (expiry now+10, other entries kept), with at most one entry per kind |
| Session.CollectAllGold | script.js:302-306 | collecting a run of pickups adds exactly the value of its gold coins; levels and pending respawns are untouched |
| Session.KillRewardGold | script.js:699-712 | collecting every drop of a killed enemy adds exactly its gold drop to the purse, whatever the chance drops were |
| Session.StartGameSound | script.js:1034-1044 | a new game satisfies the invariant (gold ≥ 0, stats derived, drones = level, 0 ≤ hp ≤ max, one power-up per kind) |
| Session.BuySound | script.js:1078-1090 | a purchase preserves the invariant |
| Session.HitSound | script.js:324-334 | a non-negative hit preserves the invariant while armor is at most 100% |
| Session.RespawnFiresSound | script.js:174-185 | a respawn preserves the invariant |
| Session.CollectSound | script.js:302-317 | collecting a non-negative pickup preserves the invariant |
| Session.RespawnScenario | script.js:324-334 | a player with 1000 gold who dies keeps 900; the respawn restores the derived stats and 500 hp |
| Session.SecondHitBeforeRespawn | script.js:327-334 | a second hit before the respawn fires forfeits another tenth of the gold and schedules a second respawn |

## Findings

| source | as written | input that shows it | evidently intended | confidence | as-written member | corrected member |
|---|---|---|---|---|---|---|
| script.js:461 | the drone weapon rejects a shot only when `bullets.length > maxBullets` | a drone fires while exactly 300 bullets are alive: the list grows to 301 | the same `< maxBullets` spawn check as the player and enemy weapons, so the cap holds at spawn time | high; not executed | Caps.DroneShotAsWritten, Caps.DroneShotOverflows | Caps.DroneShot, Caps.DroneShotsKeepCap |
| script.js:1199-1203 | the watchdog restarts the current wave whenever no enemy is alive, even while the next wave's 900 ms start is pending | the last enemy of wave n dies and a watchdog tick (every 1 s) lands within the 900 ms delay: wave n restarts, then wave n+1 spawns on top of it | the watchdog only recovers a lost transition, so it should not fire while a start is pending | medium; not executed | Waves.Watchdog, Waves.WatchdogRaceSpawnsTwoWaves | Waves.GuardedWatchdog, Waves.GuardedWatchdogNoRace |

## Left out

- Floating point: stats, hp and thresholds are exact reals. The source's IEEE doubles differ slightly: for example, 0.02·L armor is inexact, and in doubles 35 · 0.02 is 0.7000000000000001, not 0.7. `floor(gold · 0.10)` is modelled as the exact floor of gold/10. Doubles give the same value, because 0.1 as a double is slightly above one tenth.
- The player, drone, enemy and bullet positions, velocities, steering, orbiting, homing, separation and collision tests: these are floating-point dynamics with sqrt, atan2, cos and sin. This includes the respawn position jitter and the contact (ramming) damage formula. Hits on the player and on enemies are parameters of `Session.Hit` and `Enemies.TakeDamage`.
- Obstacle generation (rejection sampling): the newly generated layout is a parameter of `Waves.StartWave`.
- Real timers: the 800 ms respawn and 900 ms wave delays are pending state, not clocks. Respawns are a count. Wave starts are a queue fired in scheduling order.
- Pickup drift, collection radius and the 25-second pickup expiry: these are position- and time-based.
- The full reset (`resetGame`), pause toggling, `localStorage` load/save, the canvas, the DOM panel, the log and audio. These are host I/O and presentation.
- Drone cooldown and orbit angle randomisation: only a drone's attack and fire rate are modelled.
- The wave starts of the watchdog and the timer take one roll per regular enemy; the `spawned` flag of the wave manager is never read and is not modelled.

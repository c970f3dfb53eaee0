/**
 The wave manager: the difficulty curve (enemy count and type thresholds per
 wave), the composition of a wave from one uniform roll per enemy, and the
 wave state machine. Deferred wave starts are an explicit queue of pending
 wave numbers: every start is scheduled with the same delay, so they fire in
 the order they were scheduled.
 */
module Waves {
  import opened Enemies

  /** A static circular obstacle of the arena. */
  datatype Obstacle = Obstacle(x: real, y: real, r: real)

  /**
   The manager's current wave, the live enemies, the arena's obstacles, and the
   wave numbers whose deferred start is still pending, oldest first.
   */
  datatype WaveState = WaveState(currentWave: nat, enemies: seq<Enemy>, obstacles: seq<Obstacle>, pending: seq<nat>)

  const MaxWaveEnemies: nat := 50
  const BaseEnemies: nat := 3

  /** Regular enemies in wave `n`: three plus one and a half per wave, rounded down, at most 50. */
  function EnemyCount(n: nat): (c: nat)
    ensures BaseEnemies <= c <= MaxWaveEnemies
  {
    var raw := BaseEnemies + ((n as real) * 1.5).Floor;
    if raw <= MaxWaveEnemies then raw else MaxWaveEnemies
  }

  /** The count in integer terms; it reaches the cap of 50 exactly from wave 32 on. */
  lemma EnemyCountClosedForm(n: nat)
    ensures EnemyCount(n) == if 3 + 3 * n / 2 <= 50 then 3 + 3 * n / 2 else 50
    ensures EnemyCount(n) == MaxWaveEnemies <==> n >= 32
  {
    var f := ((n as real) * 1.5).Floor;
    var q := 3 * n / 2;
    assert (q as real) <= (n as real) * 1.5 < (q as real) + 1.0 by {
      assert 2 * q <= 3 * n < 2 * q + 2;
      assert (2 * q) as real <= (3 * n) as real < (2 * q + 2) as real;
    }
    assert f == q;
  }

  /** Later waves never have fewer regular enemies. */
  lemma EnemyCountMonotone(a: nat, b: nat)
    requires a <= b
    ensures EnemyCount(a) <= EnemyCount(b)
  {
    EnemyCountClosedForm(a);
    EnemyCountClosedForm(b);
  }

  /** Rolls below this are heavies: 0.2 plus 0.01 per wave, at most 0.45. */
  function HeavyThreshold(n: nat): (h: real)
    ensures 0.2 <= h <= 0.45
    ensures h == 0.45 <==> n >= 25
  {
    var raw := 0.2 + (n as real) * 0.01;
    if raw <= 0.45 then raw else 0.45
  }

  /** The width of the ranged band: none up to wave 5, then 0.1 plus 0.015 per wave past 5, at most 0.35. */
  function RangedThreshold(n: nat): (g: real)
    ensures 0.0 <= g <= 0.35
    ensures g == 0.0 <==> n <= 5
    ensures n > 5 ==> g >= 0.1
  {
    if n > 5 then
      var raw := 0.1 + ((n - 5) as real) * 0.015;
      if raw <= 0.35 then raw else 0.35
    else 0.0
  }

  /** The type of a regular enemy whose uniform roll is `roll`. */
  function ChooseType(n: nat, roll: real): (t: EnemyType)
    ensures t == Heavy <==> roll < HeavyThreshold(n)
    ensures t == Ranged <==> HeavyThreshold(n) <= roll < HeavyThreshold(n) + RangedThreshold(n)
    ensures t == Basic <==> HeavyThreshold(n) + RangedThreshold(n) <= roll
    ensures t != Elite
  {
    if roll < HeavyThreshold(n) then Heavy
    else if roll < HeavyThreshold(n) + RangedThreshold(n) then Ranged
    else Basic
  }

  /**
   The roll bands: heavy below the heavy threshold, ranged in the next band of
   the ranged width, basic above both; a roll never makes an elite, no wave up
   to 5 has a ranged enemy, and every roll of 0.8 or more is basic.
   */
  lemma ChooseTypeBands(n: nat, roll: real)
    ensures ChooseType(n, roll) == Heavy <==> roll < HeavyThreshold(n)
    ensures ChooseType(n, roll) == Ranged <==> HeavyThreshold(n) <= roll < HeavyThreshold(n) + RangedThreshold(n)
    ensures ChooseType(n, roll) == Basic <==> HeavyThreshold(n) + RangedThreshold(n) <= roll
    ensures ChooseType(n, roll) != Elite
    ensures n <= 5 ==> ChooseType(n, roll) != Ranged
    ensures roll >= 0.8 ==> ChooseType(n, roll) == Basic
  {
  }

  /** Wave 6: 12 regular enemies, heavy threshold 0.26, ranged width 0.115. */
  lemma WaveSixExample()
    ensures EnemyCount(6) == 12
    ensures HeavyThreshold(6) == 0.26
    ensures RangedThreshold(6) == 0.115
  {
    EnemyCountClosedForm(6);
  }

  /** Every fifth wave brings one elite on top of its regular enemies. */
  function EliteBonus(n: nat): nat {
    if n % 5 == 0 then 1 else 0
  }

  /** The enemy types of wave `n`, one roll per regular enemy, then the elite if any. */
  function Composition(n: nat, rolls: seq<real>): (ts: seq<EnemyType>)
    requires |rolls| == EnemyCount(n)
    ensures |ts| == EnemyCount(n) + EliteBonus(n)
    ensures forall i :: 0 <= i < EnemyCount(n) ==> ts[i] == ChooseType(n, rolls[i])
    ensures EliteBonus(n) == 1 ==> ts[|ts| - 1] == Elite
  {
    seq(|rolls|, i requires 0 <= i < |rolls| => ChooseType(n, rolls[i])) + (if n % 5 == 0 then [Elite] else [])
  }

  /** How many entries of `ts` are of type `t`. */
  function CountOf(ts: seq<EnemyType>, t: EnemyType): nat
    decreases |ts|
  {
    if |ts| == 0 then 0 else (if ts[0] == t then 1 else 0) + CountOf(ts[1..], t)
  }

  lemma {:induction false} CountOfConcat(a: seq<EnemyType>, b: seq<EnemyType>, t: EnemyType)
    ensures CountOf(a + b, t) == CountOf(a, t) + CountOf(b, t)
    decreases |a|
  {
    if |a| > 0 {
      assert (a + b)[1..] == a[1..] + b;
      CountOfConcat(a[1..], b, t);
    } else {
      assert a + b == b;
    }
  }

  lemma {:induction false} CountOfAbsent(ts: seq<EnemyType>, t: EnemyType)
    requires forall i :: 0 <= i < |ts| ==> ts[i] != t
    ensures CountOf(ts, t) == 0
    decreases |ts|
  {
    if |ts| > 0 {
      CountOfAbsent(ts[1..], t);
    }
  }

  /** A wave holds exactly one elite when its number is a multiple of 5, and none otherwise. */
  lemma EliteExactlyOnFifthWaves(n: nat, rolls: seq<real>)
    requires |rolls| == EnemyCount(n)
    ensures CountOf(Composition(n, rolls), Elite) == EliteBonus(n)
  {
    var regular := seq(|rolls|, i requires 0 <= i < |rolls| => ChooseType(n, rolls[i]));
    forall i | 0 <= i < |regular| ensures regular[i] != Elite {
      ChooseTypeBands(n, rolls[i]);
    }
    CountOfAbsent(regular, Elite);
    var extra: seq<EnemyType> := if n % 5 == 0 then [Elite] else [];
    assert Composition(n, rolls) == regular + extra;
    CountOfConcat(regular, extra, Elite);
    assert CountOf(extra, Elite) == EliteBonus(n) by {
      if n % 5 == 0 {
        assert extra[1..] == [];
      }
    }
  }

  /** The enemies spawned for wave `n`, all of that wave and at full hp. */
  function Spawn(n: nat, rolls: seq<real>): (es: seq<Enemy>)
    requires |rolls| == EnemyCount(n)
    ensures |es| == EnemyCount(n) + EliteBonus(n)
    ensures forall i :: 0 <= i < |es| ==> es[i] == NewEnemy(Composition(n, rolls)[i], n)
  {
    var ts := Composition(n, rolls);
    seq(|ts|, i requires 0 <= i < |ts| => NewEnemy(ts[i], n))
  }

  /**
   Start wave `n`: on waves 1, 11, 21, ... the arena is replaced by the freshly
   generated layout `arena`; the wave becomes current and its enemies are
   appended to whatever enemies are still alive. Pending starts are untouched.
   */
  function StartWave(s: WaveState, n: nat, rolls: seq<real>, arena: seq<Obstacle>): (r: WaveState)
    requires |rolls| == EnemyCount(n)
    ensures r.currentWave == n && r.pending == s.pending
    ensures r.enemies == s.enemies + Spawn(n, rolls)
    ensures |r.enemies| == |s.enemies| + EnemyCount(n) + EliteBonus(n)
    ensures n % 10 == 1 ==> r.obstacles == arena
    ensures n % 10 != 1 ==> r.obstacles == s.obstacles
  {
    var obstacles := if n % 10 == 1 then arena else s.obstacles;
    WaveState(n, s.enemies + Spawn(n, rolls), obstacles, s.pending)
  }

  /**
   Enemy `i` is destroyed and removed. Only when that empties the enemy list is
   a start of the wave after the current one scheduled.
   */
  function DefeatEnemy(s: WaveState, i: nat): (r: WaveState)
    requires i < |s.enemies|
    ensures r.enemies == s.enemies[..i] + s.enemies[i + 1..]
    ensures |r.enemies| == |s.enemies| - 1
    ensures |s.enemies| == 1 ==> r.pending == s.pending + [s.currentWave + 1]
    ensures |s.enemies| > 1 ==> r.pending == s.pending
    ensures r.currentWave == s.currentWave && r.obstacles == s.obstacles
  {
    var rest := s.enemies[..i] + s.enemies[i + 1..];
    var pending := if |rest| == 0 then s.pending + [s.currentWave + 1] else s.pending;
    s.(enemies := rest, pending := pending)
  }

  /** The oldest pending start fires, starting the wave it was scheduled for. */
  function FireTimer(s: WaveState, rolls: seq<real>, arena: seq<Obstacle>): (r: WaveState)
    requires |s.pending| > 0 && |rolls| == EnemyCount(s.pending[0])
    ensures r.currentWave == s.pending[0] && r.pending == s.pending[1..]
    ensures r.enemies == s.enemies + Spawn(s.pending[0], rolls)
    ensures s.pending[0] % 10 == 1 ==> r.obstacles == arena
    ensures s.pending[0] % 10 != 1 ==> r.obstacles == s.obstacles
  {
    StartWave(s.(pending := s.pending[1..]), s.pending[0], rolls, arena)
  }

  /**
   The once-a-second watchdog as written: when the game is not paused and no
   enemy is alive it restarts the current wave (not the next one), whether or
   not a start is already pending.
   */
  function Watchdog(s: WaveState, paused: bool, rolls: seq<real>, arena: seq<Obstacle>): (r: WaveState)
    requires !paused && |s.enemies| == 0 ==> |rolls| == EnemyCount(s.currentWave)
    ensures r.currentWave == s.currentWave && r.pending == s.pending
    ensures !paused && |s.enemies| == 0 ==> r.enemies == Spawn(s.currentWave, rolls)
    ensures !paused && |s.enemies| == 0 ==>
      r.obstacles == if s.currentWave % 10 == 1 then arena else s.obstacles
    ensures paused || |s.enemies| > 0 ==> r == s
  {
    if !paused && |s.enemies| == 0 then StartWave(s, s.currentWave, rolls, arena) else s
  }

  /**
   Clearing the last enemy and letting the deferred start fire advances the
   wave counter by exactly one and spawns exactly the next wave's batch.
   */
  lemma WaveTransition(s: WaveState, rolls: seq<real>, arena: seq<Obstacle>)
    requires |s.enemies| == 1 && s.pending == []
    requires |rolls| == EnemyCount(s.currentWave + 1)
    ensures var t := FireTimer(DefeatEnemy(s, 0), rolls, arena);
      && t.currentWave == s.currentWave + 1
      && t.enemies == Spawn(s.currentWave + 1, rolls)
      && t.pending == []
  {
    var d := DefeatEnemy(s, 0);
    assert d.enemies == [];
  }

  /**
   The race of the as-written watchdog: when it ticks between the last kill and
   the deferred start, wave n is restarted, and then wave n + 1 is spawned on top
   of it, so more enemies are alive than wave n + 1 alone brings.
   */
  lemma WatchdogRaceSpawnsTwoWaves(s: WaveState, again: seq<real>, next: seq<real>, arena: seq<Obstacle>)
    requires |s.enemies| == 1 && s.pending == []
    requires |again| == EnemyCount(s.currentWave) && |next| == EnemyCount(s.currentWave + 1)
    ensures var t := FireTimer(Watchdog(DefeatEnemy(s, 0), false, again, arena), next, arena);
      && t.currentWave == s.currentWave + 1
      && t.enemies == Spawn(s.currentWave, again) + Spawn(s.currentWave + 1, next)
      && |t.enemies| > EnemyCount(s.currentWave + 1) + EliteBonus(s.currentWave + 1)
  {
    var d := DefeatEnemy(s, 0);
    assert d.enemies == [];
  }

  /**
   The watchdog as evidently intended: it only restarts the current wave when
   no enemy is alive and no start is pending, which still recovers a wave start
   that was lost.
   */
  function GuardedWatchdog(s: WaveState, paused: bool, rolls: seq<real>, arena: seq<Obstacle>): (r: WaveState)
    requires !paused && |s.enemies| == 0 && s.pending == [] ==> |rolls| == EnemyCount(s.currentWave)
    ensures r.currentWave == s.currentWave && r.pending == s.pending
    ensures !paused && |s.enemies| == 0 && s.pending == [] ==> r.enemies == Spawn(s.currentWave, rolls)
    ensures !paused && |s.enemies| == 0 && s.pending == [] ==>
      r.obstacles == if s.currentWave % 10 == 1 then arena else s.obstacles
    ensures paused || |s.enemies| > 0 || s.pending != [] ==> r == s
  {
    if !paused && |s.enemies| == 0 && s.pending == [] then StartWave(s, s.currentWave, rolls, arena) else s
  }

  /**
   With the guarded watchdog, a tick between the last kill and the deferred
   start changes nothing, and the transition spawns exactly the next wave.
   */
  lemma GuardedWatchdogNoRace(s: WaveState, again: seq<real>, next: seq<real>, arena: seq<Obstacle>)
    requires |s.enemies| == 1 && s.pending == []
    requires |next| == EnemyCount(s.currentWave + 1)
    ensures var d := DefeatEnemy(s, 0);
      var t := FireTimer(GuardedWatchdog(d, false, again, arena), next, arena);
      && GuardedWatchdog(d, false, again, arena) == d
      && t.currentWave == s.currentWave + 1
      && t.enemies == Spawn(s.currentWave + 1, next)
  {
    var d := DefeatEnemy(s, 0);
    assert d.enemies == [];
  }
}

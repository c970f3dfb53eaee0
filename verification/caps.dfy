/**
 Population caps on bullets and particles: the spawn-time checks of the
 player, enemy and drone weapons and of particle creation, and the periodic
 truncation that keeps only the newest entries.
 */
module Caps {
  import opened Balance

  datatype Owner = PlayerSide | EnemySide

  /** A projectile's gameplay data; position, velocity and lifetime are not modelled. */
  datatype Bullet = Bullet(damage: real, owner: Owner, homing: bool)

  function MinInt(a: int, b: int): int {
    if a <= b then a else b
  }

  /** The spawn-time check of the player and enemy weapons: a bullet is added only below the cap. */
  function SpawnBullet(bs: seq<Bullet>, b: Bullet): (r: seq<Bullet>)
    ensures |bs| < MaxBullets ==> r == bs + [b]
    ensures |bs| >= MaxBullets ==> r == bs
    ensures |bs| <= MaxBullets ==> |r| <= MaxBullets
  {
    if |bs| < MaxBullets then bs + [b] else bs
  }

  /**
   A player volley: each of the bullets in `shots` (five for the spread
   power-up, one otherwise) passes the spawn check on its own, so exactly as
   many are added as there is room for, in order.
   */
  function Volley(bs: seq<Bullet>, shots: seq<Bullet>): (r: seq<Bullet>)
    ensures |r| == |bs| + MinInt(|shots|, if |bs| < MaxBullets then MaxBullets - |bs| else 0)
    ensures r[..|bs|] == bs
    ensures forall i :: |bs| <= i < |r| ==> r[i] == shots[i - |bs|]
    ensures |bs| <= MaxBullets ==> |r| <= MaxBullets
    decreases |shots|
  {
    if |shots| == 0 then bs
    else
      var next := SpawnBullet(bs, shots[0]);
      var r := Volley(next, shots[1..]);
      assert r[..|bs|] == next[..|bs|] by {
        assert r[..|next|] == next;
      }
      r
  }

  /** The bullets of one player shot: five with the spread power-up, one otherwise. */
  function PlayerShot(bs: seq<Bullet>, attack: real, spread: bool, homing: bool): (r: seq<Bullet>)
    ensures |r| == |bs| + MinInt(if spread then 5 else 1, if |bs| < MaxBullets then MaxBullets - |bs| else 0)
    ensures r[..|bs|] == bs
    ensures |bs| >= MaxBullets ==> r == bs
    ensures |bs| <= MaxBullets ==> |r| <= MaxBullets
    ensures |bs| + (if spread then 5 else 1) <= MaxBullets ==> |r| == |bs| + (if spread then 5 else 1)
    ensures forall i :: |bs| <= i < |r| ==> r[i] == Bullet(attack, PlayerSide, homing)
  {
    Volley(bs, seq(if spread then 5 else 1, _ => Bullet(attack, PlayerSide, homing)))
  }

  /** The drone weapon as written: it refuses only when the list is already over the cap. */
  function DroneShotAsWritten(bs: seq<Bullet>, b: Bullet): (r: seq<Bullet>)
    ensures |bs| <= MaxBullets ==> r == bs + [b]
    ensures |bs| > MaxBullets ==> r == bs
    ensures |bs| <= MaxBullets + 1 ==> |r| <= MaxBullets + 1
  {
    if |bs| > MaxBullets then bs else bs + [b]
  }

  /** A drone firing on a full bullet list pushes it one past the cap. */
  lemma DroneShotOverflows(bs: seq<Bullet>, b: Bullet)
    requires |bs| == MaxBullets
    ensures |DroneShotAsWritten(bs, b)| == MaxBullets + 1
    ensures |SpawnBullet(bs, b)| == MaxBullets
  {
  }

  /** The drone weapon as evidently intended: the same spawn check as every other weapon. */
  function DroneShot(bs: seq<Bullet>, b: Bullet): (r: seq<Bullet>)
    ensures |bs| <= MaxBullets ==> |r| <= MaxBullets
    ensures |bs| < MaxBullets ==> r == bs + [b]
    ensures |bs| >= MaxBullets ==> r == bs
  {
    SpawnBullet(bs, b)
  }

  /** Any run of corrected drone shots keeps a capped bullet list capped. */
  lemma {:induction false} DroneShotsKeepCap(bs: seq<Bullet>, shots: seq<Bullet>)
    requires |bs| <= MaxBullets
    ensures |DroneShots(bs, shots)| <= MaxBullets
    decreases |shots|
  {
    if |shots| > 0 {
      DroneShotsKeepCap(DroneShot(bs, shots[0]), shots[1..]);
    }
  }

  function DroneShots(bs: seq<Bullet>, shots: seq<Bullet>): seq<Bullet>
    decreases |shots|
  {
    if |shots| == 0 then bs else DroneShots(DroneShot(bs, shots[0]), shots[1..])
  }

  /** The periodic truncation: keep only the newest `max` entries. */
  function Truncate<T>(xs: seq<T>, max: nat): (r: seq<T>)
    ensures |r| == MinInt(|xs|, max)
    ensures r == xs[|xs| - |r|..]
  {
    if |xs| > max then xs[|xs| - max..] else xs
  }

  /** Truncation restores the bullet cap even after the drone overflow. */
  lemma TruncateRestoresCap(bs: seq<Bullet>, b: Bullet)
    requires |bs| == MaxBullets
    ensures var over := DroneShotAsWritten(bs, b);
      Truncate(over, MaxBullets) == bs[1..] + [b]
  {
    var over := DroneShotAsWritten(bs, b);
    assert over[1..] == bs[1..] + [b];
  }

  /**
   Particle creation: of the `count` requested particles, whose random draws
   are `draws`, only as many are added as fit under the cap, in order; a
   request at or over the cap adds nothing.
   */
  method CreateParticle<T>(ps: seq<T>, count: int, draws: seq<T>) returns (r: seq<T>)
    requires count <= |draws|
    ensures var room := if |ps| < MaxParticles then MaxParticles - |ps| else 0;
      |r| == |ps| + (if count <= 0 then 0 else MinInt(count, room))
    ensures r[..|ps|] == ps
    ensures forall i :: |ps| <= i < |r| ==> r[i] == draws[i - |ps|]
    ensures |ps| <= MaxParticles ==> |r| <= MaxParticles
  {
    var cnt := MinInt(count, MaxParticles - |ps|);
    r := ps;
    var i := 0;
    while i < cnt
      invariant 0 <= i <= (if cnt > 0 then cnt else 0)
      invariant |r| == |ps| + i
      invariant r[..|ps|] == ps
      invariant forall j :: |ps| <= j < |r| ==> r[j] == draws[j - |ps|]
    {
      r := r + [draws[i]];
      i := i + 1;
    }
  }
}

/** The single lightning bolt of the platformer (script.js, fireLightningBolt and
    updateLightningBolt): idle until fired, then moving a fixed distance per
    frame until it leaves the container or reaches its maximum range. */
module Projectile {
  import Kinematics

  /** Pixels per frame the bolt moves. */
  const LightningSpeed: real := 10.0
  /** Distance after which the bolt vanishes. */
  const LightningMaxDistance: real := 250.0

  /** The bolt's state: whether it is in flight, its top-left corner, its
      direction (1 for right, -1 for left) and the distance travelled since it was fired. */
  datatype Bolt = Bolt(active: bool, x: real, y: real, direction: int, traveled: real)

  /** The bolt before anything was fired. */
  function Idle(): (b: Bolt)
    ensures !b.active && b.direction == 1 && b.traveled == 0.0 && Valid(b)
  {
    Bolt(false, 0.0, 0.0, 1, 0.0)
  }

  /** What every reachable bolt satisfies: a unit direction, a non-negative
      distance, and a bolt in flight is still short of its range. */
  predicate Valid(b: Bolt)
  {
    && (b.direction == 1 || b.direction == -1)
    && 0.0 <= b.traveled
    && (b.active ==> b.traveled < LightningMaxDistance)
  }

  /** The deactivation test: outside [0, gameWidth] or at or past the range. */
  function Spent(b: Bolt, gameWidth: real): (s: bool)
    ensures 0.0 <= b.x <= gameWidth && b.traveled < LightningMaxDistance ==> !s
    ensures !s ==> b.traveled < LightningMaxDistance
  {
    b.x < 0.0 || b.x > gameWidth || b.traveled >= LightningMaxDistance
  }

  /** Fire from player p: a bolt already in flight is left alone (at most one
      bolt at a time); otherwise a new bolt starts at the player's right edge,
      centred vertically on the player, heading right, with nothing travelled. */
  function Fire(b: Bolt, p: Kinematics.Player, w: Kinematics.World): (r: Bolt)
    ensures r.active
    ensures b.active ==> r == b
    ensures !b.active ==> r.x == p.x + w.playerWidth && r.direction == 1 && r.traveled == 0.0
    ensures !b.active ==> r.y + w.boltHeight / 2.0 == p.y + w.playerHeight / 2.0
    ensures Valid(b) ==> Valid(r)
  {
    if b.active then b
    else Bolt(true, p.x + w.playerWidth, p.y + w.playerHeight / 2.0 - w.boltHeight / 2.0, 1, 0.0)
  }

  /** One frame of bolt motion. An idle bolt does not change; a bolt in flight
      moves by LightningSpeed in its direction, counts the distance, and goes
      idle exactly when the moved bolt is Spent. Nothing here ever activates a bolt. */
  function Advance(b: Bolt, gameWidth: real): (r: Bolt)
    ensures !b.active ==> r == b
    ensures r.active ==> b.active
    ensures b.active ==> r.x == b.x + LightningSpeed * (b.direction as real)
    ensures b.active ==> r.traveled == b.traveled + LightningSpeed
    ensures b.active ==> (r.active <==> !Spent(r, gameWidth))
    ensures r.y == b.y && r.direction == b.direction
    ensures Valid(b) ==> Valid(r)
  {
    if !b.active then b
    else
      var moved := b.(x := b.x + LightningSpeed * (b.direction as real),
                      traveled := b.traveled + LightningSpeed);
      if Spent(moved, gameWidth) then moved.(active := false) else moved
  }

  /** n frames of bolt motion in a row. */
  function AdvanceN(b: Bolt, gameWidth: real, n: nat): (r: Bolt)
    decreases n
    ensures Valid(b) ==> Valid(r)
    ensures r.active ==> b.active
  {
    if n == 0 then b else Advance(AdvanceN(b, gameWidth, n - 1), gameWidth)
  }

  /** A bolt still in flight after n frames has moved n steps in its direction
      and travelled exactly n times LightningSpeed. */
  lemma {:induction false} AdvanceNTrack(b: Bolt, gameWidth: real, n: nat)
    requires AdvanceN(b, gameWidth, n).active
    ensures AdvanceN(b, gameWidth, n).traveled == b.traveled + (n as real) * LightningSpeed
    ensures AdvanceN(b, gameWidth, n).x == b.x + (n as real) * LightningSpeed * (b.direction as real)
    ensures AdvanceN(b, gameWidth, n).y == b.y
    ensures AdvanceN(b, gameWidth, n).direction == b.direction
    decreases n
  {
    if n > 0 {
      AdvanceNTrack(b, gameWidth, n - 1);
      var d := b.direction as real;
      assert (n as real) * LightningSpeed * d == ((n - 1) as real) * LightningSpeed * d + LightningSpeed * d;
    }
  }

  /** Once idle, a bolt stays idle however many more frames pass. */
  lemma {:induction false} AdvanceNStaysIdle(b: Bolt, gameWidth: real, m: nat, n: nat)
    requires m <= n
    requires !AdvanceN(b, gameWidth, m).active
    ensures !AdvanceN(b, gameWidth, n).active
    decreases n
  {
    if m < n {
      AdvanceNStaysIdle(b, gameWidth, m, n - 1);
    }
  }

  /** A valid bolt is idle after at most 25 frames (250 / 10), whatever the
      container width. */
  lemma BoltLifetime(b: Bolt, gameWidth: real, n: nat)
    requires Valid(b)
    requires n as real * LightningSpeed >= LightningMaxDistance
    ensures !AdvanceN(b, gameWidth, n).active
  {
    if AdvanceN(b, gameWidth, n).active {
      AdvanceNTrack(b, gameWidth, n);
    }
  }

  /** A bolt just fired from the idle state has vanished 25 frames later. */
  lemma FiredBoltExpires(b: Bolt, p: Kinematics.Player, w: Kinematics.World)
    requires Valid(b)
    ensures !AdvanceN(Fire(b, p, w), w.width, 25).active
  {
    BoltLifetime(Fire(b, p, w), w.width, 25);
  }

  /** A bolt fired from a player lying inside the container, and heading right,
      is still in flight after 24 frames provided the container leaves it room:
      the range, not the wall, is what ends it at frame 25. */
  lemma {:induction false} FiredBoltFliesFullRange(p: Kinematics.Player, w: Kinematics.World, n: nat)
    requires 0.0 <= p.x && 0.0 <= w.playerWidth
    requires p.x + w.playerWidth + LightningMaxDistance <= w.width
    requires n < 25
    ensures AdvanceN(Fire(Idle(), p, w), w.width, n).active
    ensures AdvanceN(Fire(Idle(), p, w), w.width, n).x == p.x + w.playerWidth + (n as real) * LightningSpeed
    decreases n
  {
    var b := Fire(Idle(), p, w);
    if n > 0 {
      FiredBoltFliesFullRange(p, w, n - 1);
      AdvanceNTrack(b, w.width, n - 1);
    }
  }
}

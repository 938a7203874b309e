/** Player kinematics and collision resolution of the platformer (script.js, updatePlayer).
    Coordinates are measured from the top-left corner of the game container:
    x grows to the right and y grows DOWNWARD, so gravity adds to the vertical
    velocity and a jump makes it negative. */
module Kinematics {

  /** Pixels per frame of horizontal movement. */
  const PlayerSpeed: real := 5.0
  /** Upward velocity given by a jump. */
  const JumpStrength: real := 15.0
  /** Pixels per frame per frame added to the vertical velocity. */
  const Gravity: real := 0.8

  /** An axis-aligned platform rectangle in game-container coordinates. */
  datatype Rect = Rect(left: real, top: real, width: real, height: real)
  {
    function Right(): real { left + width }
    function Bottom(): real { top + height }
  }

  /** The keys held down during one frame. */
  datatype Input = Input(left: bool, right: bool, up: bool)

  /** The fixed geometry read once from the page: container size, sprite sizes
      and the platforms in the order they are tested. */
  datatype World = World(width: real, height: real,
                         playerWidth: real, playerHeight: real,
                         boltHeight: real, platforms: seq<Rect>)

  /** The player's mutable state: top-left corner, vertical velocity and the two flags. */
  datatype Player = Player(x: real, y: real, vy: real, onGround: bool, jumping: bool)

  /** The player is never both standing and in a jump. */
  predicate Settled(p: Player)
  {
    !(p.onGround && p.jumping)
  }

  /** The player's bottom edge is not below the container's floor. */
  predicate AboveFloor(p: Player, w: World)
  {
    p.y + w.playerHeight <= w.height
  }

  /** The player lies horizontally inside the container. */
  predicate WithinWidth(p: Player, w: World)
  {
    0.0 <= p.x <= w.width - w.playerWidth
  }

  /** The state at start-up: standing on the container floor, at rest, both flags clear. */
  function Spawn(x: real, w: World): (p: Player)
    ensures p.x == x && p.y + w.playerHeight == w.height && p.vy == 0.0
    ensures Settled(p) && AboveFloor(p, w) && !p.onGround && !p.jumping
  {
    Player(x, w.height - w.playerHeight, 0.0, false, false)
  }

  /** Gravity: the velocity grows by Gravity and the position moves by the new velocity. */
  function Fall(p: Player): (r: Player)
    ensures r.x == p.x && r.onGround == p.onGround && r.jumping == p.jumping
    ensures r.vy - p.vy == Gravity && r.y - p.y == r.vy
  {
    var vy := p.vy + Gravity;
    p.(y := p.y + vy, vy := vy)
  }

  /** Horizontal movement: left and right are applied independently, so both cancel. */
  function Move(x: real, input: Input): (r: real)
    ensures input.left == input.right ==> r == x
    ensures input.left && !input.right ==> r == x - PlayerSpeed
    ensures input.right && !input.left ==> r == x + PlayerSpeed
    ensures x - PlayerSpeed <= r <= x + PlayerSpeed
  {
    var x1 := if input.left then x - PlayerSpeed else x;
    if input.right then x1 + PlayerSpeed else x1
  }

  /** Horizontal clamp against the container's left and right walls. */
  function Clamp(x: real, w: World): (r: real)
    ensures r + w.playerWidth <= w.width
    ensures r >= 0.0 || r == w.width - w.playerWidth
    ensures w.playerWidth <= w.width ==> 0.0 <= r <= w.width - w.playerWidth
    ensures 0.0 <= x <= w.width - w.playerWidth ==> r == x
    ensures x > w.width - w.playerWidth ==> r == w.width - w.playerWidth
    ensures x < 0.0 && w.playerWidth <= w.width ==> r == 0.0
  {
    var x1 := if x < 0.0 then 0.0 else x;
    if x1 + w.playerWidth > w.width then w.width - w.playerWidth else x1
  }

  /** Everything updatePlayer does before the platform loop: gravity, movement,
      clamp, and the reset of the grounded flag. */
  function Prepare(p: Player, input: Input, w: World): (r: Player)
    ensures !r.onGround && r.jumping == p.jumping && Settled(r)
    ensures r.vy == p.vy + Gravity && r.y == p.y + r.vy
    ensures r.x == Clamp(Move(p.x, input), w)
    ensures w.playerWidth <= w.width ==> WithinWidth(r, w)
  {
    var f := Fall(p);
    f.(x := Clamp(Move(f.x, input), w), onGround := false)
  }

  /** The landing test for one platform: the player is falling or at rest, its
      bottom is at or below the platform top, its top is above the platform
      bottom, and the two overlap horizontally. */
  function LandsOn(p: Player, w: World, r: Rect): (b: bool)
    ensures p.vy < 0.0 ==> !b
    ensures p.x + w.playerWidth <= r.left || r.Right() <= p.x ==> !b
    ensures b ==> r.top - w.playerHeight <= p.y < r.Bottom()
  {
    && p.vy >= 0.0
    && p.y + w.playerHeight >= r.top
    && p.y < r.Bottom()
    && p.x + w.playerWidth > r.left
    && p.x < r.Right()
  }

  /** The player snapped onto the top of platform r: at rest, grounded, not jumping. */
  function Landed(p: Player, w: World, r: Rect): (q: Player)
    ensures q.x == p.x && q.y + w.playerHeight == r.top
    ensures q.vy == 0.0 && q.onGround && !q.jumping
  {
    p.(y := r.top - w.playerHeight, vy := 0.0, onGround := true, jumping := false)
  }

  /** One iteration of the platform loop. */
  function Land(p: Player, w: World, r: Rect): (q: Player)
    ensures q.x == p.x && q.y <= p.y
    ensures p.vy < 0.0 ==> q == p
    ensures q == p || (q.y + w.playerHeight == r.top && q.vy == 0.0 && q.onGround && !q.jumping)
    ensures LandsOn(p, w, r) ==> q.onGround && q.y + w.playerHeight == r.top
    ensures Settled(p) ==> Settled(q)
  {
    if LandsOn(p, w, r) then Landed(p, w, r) else p
  }

  /** The whole platform loop over ps, in order: each platform is tested against
      the position left by the platforms before it. */
  function LandAll(p: Player, w: World, ps: seq<Rect>): (r: Player)
    decreases |ps|
    ensures r.x == p.x
    ensures Settled(p) ==> Settled(r)
    ensures p.vy < 0.0 ==> r == p
    ensures p.vy >= 0.0 ==> r.vy >= 0.0
    ensures r == p || (r.vy == 0.0 && r.onGround && !r.jumping &&
                       exists i :: 0 <= i < |ps| && r.y + w.playerHeight == ps[i].top)
  {
    if ps == [] then p
    else
      var q := LandAll(p, w, ps[..|ps| - 1]);
      assert q != p ==> exists i :: 0 <= i < |ps| && q.y + w.playerHeight == ps[i].top by {
        if q != p {
          var i :| 0 <= i < |ps| - 1 && q.y + w.playerHeight == ps[..|ps| - 1][i].top;
          assert ps[..|ps| - 1][i] == ps[i];
        }
      }
      Land(q, w, ps[|ps| - 1])
  }

  /** Platform k's landing test fires in the loop started from p. */
  predicate Fired(p: Player, w: World, ps: seq<Rect>, k: int)
    requires 0 <= k < |ps|
  {
    LandsOn(LandAll(p, w, ps[..k]), w, ps[k])
  }

  /** The floor fallback: a player whose bottom went past the container floor is
      snapped back onto it and grounded. */
  function Floor(p: Player, w: World): (r: Player)
    ensures AboveFloor(r, w) && r.x == p.x
    ensures Settled(p) ==> Settled(r)
    ensures AboveFloor(p, w) ==> r == p
    ensures !AboveFloor(p, w) ==> r.y + w.playerHeight == w.height && r.vy == 0.0 && r.onGround && !r.jumping
  {
    if p.y + w.playerHeight > w.height then
      p.(y := w.height - w.playerHeight, vy := 0.0, onGround := true, jumping := false)
    else p
  }

  /** The collision phase of updatePlayer: platform loop, then floor fallback. */
  function Collide(p: Player, w: World): (r: Player)
    ensures AboveFloor(r, w) && r.x == p.x
    ensures Settled(p) ==> Settled(r)
    ensures p.vy < 0.0 && AboveFloor(p, w) ==> r == p
    ensures r == p || (r.vy == 0.0 && r.onGround && !r.jumping)
  {
    Floor(LandAll(p, w, w.platforms), w)
  }

  /** The jump: only from the ground and not already jumping. */
  function Jump(p: Player, up: bool): (r: Player)
    ensures r.x == p.x && r.y == p.y
    ensures Settled(p) ==> Settled(r)
    ensures r != p <==> up && p.onGround && !p.jumping
    ensures r != p ==> r.vy == -JumpStrength && !r.onGround && r.jumping
  {
    if up && p.onGround && !p.jumping then
      p.(vy := -JumpStrength, onGround := false, jumping := true)
    else p
  }

  /** One call of updatePlayer. Whatever the state before, afterwards the flags
      are consistent, the player is above the floor and, when the container is
      at least as wide as the player, inside its walls. */
  function StepPlayer(p: Player, input: Input, w: World): (r: Player)
    ensures Settled(r) && AboveFloor(r, w)
    ensures r.x == Clamp(Move(p.x, input), w)
    ensures w.playerWidth <= w.width ==> WithinWidth(r, w)
  {
    Jump(Collide(Prepare(p, input, w), w), input.up)
  }

  /** Platform tests before the last one fire the same way whether or not the
      last platform is in the list. */
  lemma FiredInFront(p: Player, w: World, ps: seq<Rect>, k: int)
    requires 0 <= k < |ps| - 1
    ensures Fired(p, w, ps, k) == Fired(p, w, ps[..|ps| - 1], k)
  {
    assert ps[..k] == ps[..|ps| - 1][..k];
  }

  /** When no platform test fires, the loop leaves the player as it was. */
  lemma {:induction false} LandAllNoLanding(p: Player, w: World, ps: seq<Rect>)
    requires forall k :: 0 <= k < |ps| ==> !Fired(p, w, ps, k)
    ensures LandAll(p, w, ps) == p
    decreases |ps|
  {
    if ps != [] {
      var n := |ps| - 1;
      forall k | 0 <= k < n
        ensures !Fired(p, w, ps[..n], k)
      {
        FiredInFront(p, w, ps, k);
      }
      LandAllNoLanding(p, w, ps[..n]);
      assert !Fired(p, w, ps, n);
    }
  }

  /** When platform k's test fires and no later one does, the loop leaves the
      player standing on platform k: the LAST firing platform wins. */
  lemma {:induction false} LandAllLastLanding(p: Player, w: World, ps: seq<Rect>, k: int)
    requires 0 <= k < |ps| && Fired(p, w, ps, k)
    requires forall j :: k < j < |ps| ==> !Fired(p, w, ps, j)
    ensures LandAll(p, w, ps) == Landed(p, w, ps[k])
    decreases |ps|
  {
    var n := |ps| - 1;
    var q := LandAll(p, w, ps[..n]);
    if k == n {
      assert LandAll(p, w, ps) == Landed(q, w, ps[n]);
    } else {
      forall j | k <= j < n
        ensures Fired(p, w, ps, j) == Fired(p, w, ps[..n], j)
      {
        FiredInFront(p, w, ps, j);
      }
      LandAllLastLanding(p, w, ps[..n], k);
      assert ps[..n][k] == ps[k];
      assert !Fired(p, w, ps, n);
    }
  }

  /** The loop leaves the player grounded exactly when it was grounded before
      or some platform's test fired. */
  lemma {:induction false} LandAllGrounds(p: Player, w: World, ps: seq<Rect>)
    ensures LandAll(p, w, ps).onGround <==>
              p.onGround || exists k :: 0 <= k < |ps| && Fired(p, w, ps, k)
    decreases |ps|
  {
    if ps != [] {
      var n := |ps| - 1;
      LandAllGrounds(p, w, ps[..n]);
      forall k | 0 <= k < n
        ensures Fired(p, w, ps, k) == Fired(p, w, ps[..n], k)
      {
        FiredInFront(p, w, ps, k);
      }
      var q := LandAll(p, w, ps[..n]);
      assert LandAll(p, w, ps) == Land(q, w, ps[n]);
      assert Fired(p, w, ps, n) == LandsOn(q, w, ps[n]);
      if q.onGround && !p.onGround {
        var k :| 0 <= k < n && Fired(p, w, ps[..n], k);
        assert Fired(p, w, ps, k);
      }
    }
  }

  /** A frame in which no platform and not the floor catches the player is pure
      free fall: velocity grows by Gravity, the position moves by the new
      velocity, the player is airborne and the jump key does nothing. */
  lemma StepPlayerFreeFall(p: Player, input: Input, w: World)
    requires forall k :: 0 <= k < |w.platforms| ==> !Fired(Prepare(p, input, w), w, w.platforms, k)
    requires p.y + p.vy + Gravity + w.playerHeight <= w.height
    ensures StepPlayer(p, input, w).vy == p.vy + Gravity
    ensures StepPlayer(p, input, w).y == p.y + p.vy + Gravity
    ensures !StepPlayer(p, input, w).onGround
    ensures StepPlayer(p, input, w).jumping == p.jumping
  {
    LandAllNoLanding(Prepare(p, input, w), w, w.platforms);
  }

  /** A frame whose last firing landing test is platform k (with k's top not
      below the floor) ends standing on k; the jump key then always launches,
      since landing cleared the jumping flag. */
  lemma StepPlayerLandsOn(p: Player, input: Input, w: World, k: int)
    requires 0 <= k < |w.platforms|
    requires Fired(Prepare(p, input, w), w, w.platforms, k)
    requires forall j :: k < j < |w.platforms| ==> !Fired(Prepare(p, input, w), w, w.platforms, j)
    requires w.platforms[k].top <= w.height
    ensures StepPlayer(p, input, w).y + w.playerHeight == w.platforms[k].top
    ensures !input.up ==> StepPlayer(p, input, w).vy == 0.0 &&
                          StepPlayer(p, input, w).onGround && !StepPlayer(p, input, w).jumping
    ensures input.up ==> StepPlayer(p, input, w).vy == -JumpStrength &&
                         !StepPlayer(p, input, w).onGround && StepPlayer(p, input, w).jumping
  {
    LandAllLastLanding(Prepare(p, input, w), w, w.platforms, k);
  }

  /** The jump fires exactly when the key is held and this frame's collision
      grounded the player, which happens exactly when some platform test or
      the floor test fired. Otherwise the collision result is kept unchanged. */
  lemma StepPlayerJump(p: Player, input: Input, w: World)
    ensures var q := Prepare(p, input, w);
            Collide(q, w).onGround <==>
              (exists k :: 0 <= k < |w.platforms| && Fired(q, w, w.platforms, k)) ||
              !AboveFloor(LandAll(q, w, w.platforms), w)
    ensures var c := Collide(Prepare(p, input, w), w);
            if input.up && c.onGround
            then StepPlayer(p, input, w) == c.(vy := -JumpStrength, onGround := false, jumping := true)
            else StepPlayer(p, input, w) == c
  {
    LandAllGrounds(Prepare(p, input, w), w, w.platforms);
  }

  /** Holding the jump key in a frame that does not ground the player changes nothing. */
  lemma AirborneJumpIgnored(p: Player, input: Input, w: World)
    requires !Collide(Prepare(p, input, w), w).onGround
    ensures StepPlayer(p, input.(up := true), w) == StepPlayer(p, input.(up := false), w)
  {
  }

  /** Adding a platform at the end of the list adds one last loop iteration. */
  lemma LandAllSnoc(p: Player, w: World, ps: seq<Rect>, r: Rect)
    ensures LandAll(p, w, ps + [r]) == Land(LandAll(p, w, ps), w, r)
  {
    assert (ps + [r])[..|ps|] == ps;
  }

  /** Two platforms: two loop iterations in a row. */
  lemma LandAllPair(p: Player, w: World, a: Rect, b: Rect)
    ensures LandAll(p, w, [a, b]) == Land(Land(p, w, a), w, b)
  {
    LandAllSnoc(p, w, [], a);
    LandAllSnoc(p, w, [a], b);
    assert [] + [a] == [a] && [a] + [b] == [a, b];
  }

  /** The loop is order-sensitive: with a tall player, landing on a lower platform
      can bring a higher one into reach, which then wins; in the other order the
      higher one is tested first, misses, and the lower one wins. */
  lemma LandingOrderMatters(p: Player, w: World, low: Rect, high: Rect)
    requires w.playerWidth == 10.0 && w.playerHeight == 10.0
    requires p == Player(0.0, 25.0, 1.0, false, false)
    requires low == Rect(0.0, 30.0, 10.0, 10.0) && high == Rect(0.0, 15.0, 10.0, 7.0)
    ensures LandAll(p, w, [low, high]).y == 5.0 && LandAll(p, w, [high, low]).y == 20.0
  {
    LandAllPair(p, w, low, high);
    LandAllPair(p, w, high, low);
  }
}

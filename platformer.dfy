/** The frame step of the platformer (script.js, gameLoop and the initial setup)
    and the game object whose fields are the script's module-level variables. */
module Platformer {
  import Kinematics
  import Projectile

  /** Everything one frame reads and writes: the player and the bolt. */
  datatype State = State(player: Kinematics.Player, bolt: Projectile.Bolt)

  /** What can happen between two observations of the state: a frame with the
      keys held during it, or a press of the fire key, which the script handles
      as soon as the key event arrives. */
  datatype Event = Frame(input: Kinematics.Input) | FirePressed

  /** What holds of every reachable state. */
  predicate Invariant(s: State, w: Kinematics.World)
  {
    && Kinematics.Settled(s.player)
    && Kinematics.AboveFloor(s.player, w)
    && Projectile.Valid(s.bolt)
  }

  /** The state at start-up: the player stands on the container floor at its
      page position startX, and no bolt is in flight. */
  function Initial(startX: real, w: Kinematics.World): (s: State)
    ensures Invariant(s, w)
    ensures s.player.x == startX && s.player.y + w.playerHeight == w.height
    ensures !s.player.onGround && !s.player.jumping && !s.bolt.active
  {
    State(Kinematics.Spawn(startX, w), Projectile.Idle())
  }

  /** One frame: the player's update, then the bolt's. */
  function Step(s: State, input: Kinematics.Input, w: Kinematics.World): (r: State)
    ensures Invariant(s, w) ==> Invariant(r, w)
    ensures Kinematics.Settled(r.player) && Kinematics.AboveFloor(r.player, w)
    ensures w.playerWidth <= w.width ==> Kinematics.WithinWidth(r.player, w)
    ensures r.bolt.active ==> s.bolt.active
  {
    State(Kinematics.StepPlayer(s.player, input, w), Projectile.Advance(s.bolt, w.width))
  }

  /** A press of the fire key: the player is untouched and a bolt is in flight
      afterwards; when one already was, nothing changes. */
  function FireAt(s: State, w: Kinematics.World): (r: State)
    ensures r.player == s.player && r.bolt.active
    ensures s.bolt.active ==> r == s
    ensures Invariant(s, w) ==> Invariant(r, w)
  {
    s.(bolt := Projectile.Fire(s.bolt, s.player, w))
  }

  function Apply(s: State, e: Event, w: Kinematics.World): State
  {
    match e
    case Frame(input) => Step(s, input, w)
    case FirePressed => FireAt(s, w)
  }

  /** The state after a whole sequence of events, in order. Every event keeps
      the invariant, so every reachable state satisfies it. */
  function Run(s: State, events: seq<Event>, w: Kinematics.World): (r: State)
    decreases |events|
    ensures Invariant(s, w) ==> Invariant(r, w)
  {
    if events == [] then s
    else Apply(Run(s, events[..|events| - 1], w), events[|events| - 1], w)
  }

  predicate OnlyFrames(events: seq<Event>)
  {
    forall i :: 0 <= i < |events| ==> events[i].Frame?
  }

  /** Over frames alone, the bolt just advances once per frame. */
  lemma {:induction false} RunFramesBolt(s: State, events: seq<Event>, w: Kinematics.World)
    requires OnlyFrames(events)
    ensures Run(s, events, w).bolt == Projectile.AdvanceN(s.bolt, w.width, |events|)
    decreases |events|
  {
    if events != [] {
      var n := |events| - 1;
      assert OnlyFrames(events[..n]) by {
        forall i | 0 <= i < n ensures events[..n][i].Frame? {
          assert events[..n][i] == events[i];
        }
      }
      RunFramesBolt(s, events[..n], w);
      assert events[n].Frame?;
    }
  }

  /** Only the fire key activates a bolt: without a fire event, an idle bolt stays idle. */
  lemma {:induction false} OnlyFireActivates(s: State, events: seq<Event>, w: Kinematics.World)
    requires OnlyFrames(events)
    requires !s.bolt.active
    ensures !Run(s, events, w).bolt.active
  {
    RunFramesBolt(s, events, w);
  }

  /** In any reachable state, 25 frames without a fire event leave no bolt in flight. */
  lemma BoltGoneAfter25Frames(s: State, events: seq<Event>, w: Kinematics.World)
    requires Invariant(s, w)
    requires OnlyFrames(events) && |events| >= 25
    ensures !Run(s, events, w).bolt.active
  {
    RunFramesBolt(s, events, w);
    Projectile.BoltLifetime(s.bolt, w.width, |events|);
  }

  /** When the container is at least as wide as the player, a player that
      starts inside the walls stays inside them over any events. */
  lemma {:induction false} RunStaysInside(s: State, events: seq<Event>, w: Kinematics.World)
    requires w.playerWidth <= w.width
    requires Kinematics.WithinWidth(s.player, w)
    ensures Kinematics.WithinWidth(Run(s, events, w).player, w)
    decreases |events|
  {
    if events != [] {
      RunStaysInside(s, events[..|events| - 1], w);
    }
  }

  /** Standing on the floor of a level without platforms and pressing nothing:
      gravity pulls the player 0.8 below the floor and the floor fallback puts
      it back, now grounded and at rest. */
  lemma RestingOnFloor(startX: real, w: Kinematics.World)
    requires w.platforms == []
    requires Kinematics.WithinWidth(Initial(startX, w).player, w)
    ensures Step(Initial(startX, w), Kinematics.Input(false, false, false), w).player ==
            Kinematics.Player(startX, w.height - w.playerHeight, 0.0, true, false)
  {
  }

  /** Pressing the jump key while standing: the frame ends with velocity
      -JumpStrength (the jump comes after gravity in the same frame), and the
      next frame's gravity brings it to -14.2 and lifts the player by 14.2. */
  lemma JumpFromFloor(x: real, w: Kinematics.World)
    requires w.platforms == []
    requires 0.0 <= x <= w.width - w.playerWidth
    ensures var standing := State(Kinematics.Player(x, w.height - w.playerHeight, 0.0, true, false), Projectile.Idle());
            var s1 := Step(standing, Kinematics.Input(false, false, true), w);
            var s2 := Step(s1, Kinematics.Input(false, false, false), w);
            && s1.player == Kinematics.Player(x, w.height - w.playerHeight, -15.0, false, true)
            && s2.player == Kinematics.Player(x, w.height - w.playerHeight - 14.2, -14.2, false, true)
  {
  }

  /** A bolt fired from a 40 by 40 player at (100, 200) with a 10 high bolt starts
      at (140, 215). */
  lemma FireScenario(w: Kinematics.World)
    requires w.playerWidth == 40.0 && w.playerHeight == 40.0 && w.boltHeight == 10.0
    ensures var s := State(Kinematics.Player(100.0, 200.0, 0.0, true, false), Projectile.Idle());
            FireAt(s, w).bolt == Projectile.Bolt(true, 140.0, 215.0, 1, 0.0)
  {
  }

  /** The game: the script's module-level variables as fields, the page
      geometry as a constant read once at start-up. */
  class Game {
    const world: Kinematics.World

    var playerX: real
    var playerY: real
    var playerVelocityY: real
    var isOnGround: bool
    var isJumping: bool

    var lightningActive: bool
    var lightningX: real
    var lightningY: real
    var lightningDirection: int
    var lightningDistanceTraveled: real

    function PlayerState(): Kinematics.Player
      reads this
    {
      Kinematics.Player(playerX, playerY, playerVelocityY, isOnGround, isJumping)
    }

    function BoltState(): Projectile.Bolt
      reads this
    {
      Projectile.Bolt(lightningActive, lightningX, lightningY, lightningDirection, lightningDistanceTraveled)
    }

    function CurrentState(): State
      reads this
    {
      State(PlayerState(), BoltState())
    }

    ghost predicate Valid()
      reads this
    {
      Invariant(CurrentState(), world)
    }

    /** Start-up: the geometry the page supplies, the player standing on the
        floor at its page position startX, no bolt in flight. */
    constructor (gameWidth: real, gameHeight: real, playerWidth: real, playerHeight: real,
                 boltHeight: real, platforms: seq<Kinematics.Rect>, startX: real)
      ensures world == Kinematics.World(gameWidth, gameHeight, playerWidth, playerHeight, boltHeight, platforms)
      ensures CurrentState() == Initial(startX, world)
      ensures Valid()
    {
      world := Kinematics.World(gameWidth, gameHeight, playerWidth, playerHeight, boltHeight, platforms);
      playerX := startX;
      playerY := gameHeight - playerHeight;
      playerVelocityY := 0.0;
      isOnGround := false;
      isJumping := false;
      lightningActive := false;
      lightningX := 0.0;
      lightningY := 0.0;
      lightningDirection := 1;
      lightningDistanceTraveled := 0.0;
    }

    /** The player's update for one frame with the keys in input. */
    method UpdatePlayer(input: Kinematics.Input)
      requires Valid()
      modifies this
      ensures Valid()
      ensures PlayerState() == Kinematics.StepPlayer(old(PlayerState()), input, world)
      ensures BoltState() == old(BoltState())
    {
      // gravity
      playerVelocityY := playerVelocityY + Kinematics.Gravity;
      playerY := playerY + playerVelocityY;

      // horizontal movement
      if input.left {
        playerX := playerX - Kinematics.PlayerSpeed;
      }
      if input.right {
        playerX := playerX + Kinematics.PlayerSpeed;
      }

      // keep inside the container horizontally
      if playerX < 0.0 {
        playerX := 0.0;
      }
      if playerX + world.playerWidth > world.width {
        playerX := world.width - world.playerWidth;
      }

      // platform collisions, in order
      isOnGround := false;
      ghost var start := PlayerState();
      assert start == Kinematics.Prepare(old(PlayerState()), input, world);
      LandOnPlatforms();
      ghost var landed := PlayerState();

      // floor fallback
      if playerY + world.playerHeight > world.height {
        playerY := world.height - world.playerHeight;
        playerVelocityY := 0.0;
        isOnGround := true;
        isJumping := false;
      }

      ghost var collided := PlayerState();
      assert collided == Kinematics.Floor(landed, world) == Kinematics.Collide(start, world);

      // jump
      if input.up && isOnGround && !isJumping {
        playerVelocityY := -Kinematics.JumpStrength;
        isOnGround := false;
        isJumping := true;
      }
      assert PlayerState() == Kinematics.Jump(collided, input.up);
    }

    /** The platform loop of the player's update: every platform, in order, is
        tested against the position left by the ones before it. */
    method LandOnPlatforms()
      modifies this
      ensures PlayerState() == Kinematics.LandAll(old(PlayerState()), world, world.platforms)
      ensures BoltState() == old(BoltState())
    {
      var platforms := world.platforms;
      var i := 0;
      while i < |platforms|
        invariant 0 <= i <= |platforms|
        invariant PlayerState() == Kinematics.LandAll(old(PlayerState()), world, platforms[..i])
        invariant BoltState() == old(BoltState())
      {
        ghost var before := PlayerState();
        var platform := platforms[i];
        var playerNextY := playerY;
        var playerNextBottom := playerNextY + world.playerHeight;
        var playerRight := playerX + world.playerWidth;
        if playerVelocityY >= 0.0 && playerNextBottom >= platform.top &&
           playerNextY < platform.top + platform.height &&
           playerRight > platform.left && playerX < platform.left + platform.width
        {
          playerY := platform.top - world.playerHeight;
          playerVelocityY := 0.0;
          isOnGround := true;
          isJumping := false;
        }
        assert PlayerState() == Kinematics.Land(before, world, platform);
        assert platforms[..i + 1][..i] == platforms[..i];
        i := i + 1;
      }
      assert platforms[..i] == platforms;
    }

    /** The fire key: a new bolt from the player's right edge, unless one is in flight. */
    method Fire()
      requires Valid()
      modifies this
      ensures Valid()
      ensures CurrentState() == FireAt(old(CurrentState()), world)
    {
      if !lightningActive {
        lightningActive := true;
        lightningDirection := 1;
        lightningX := playerX + world.playerWidth;
        lightningY := playerY + world.playerHeight / 2.0 - world.boltHeight / 2.0;
        lightningDistanceTraveled := 0.0;
      }
    }

    /** The bolt's update for one frame. */
    method UpdateBolt()
      requires Valid()
      modifies this
      ensures Valid()
      ensures BoltState() == Projectile.Advance(old(BoltState()), world.width)
      ensures PlayerState() == old(PlayerState())
    {
      if lightningActive {
        lightningX := lightningX + Projectile.LightningSpeed * (lightningDirection as real);
        lightningDistanceTraveled := lightningDistanceTraveled + Projectile.LightningSpeed;
        if lightningX < 0.0 || lightningX > world.width ||
           lightningDistanceTraveled >= Projectile.LightningMaxDistance
        {
          lightningActive := false;
        }
      }
    }

    /** One frame of the game loop. */
    method Tick(input: Kinematics.Input)
      requires Valid()
      modifies this
      ensures Valid()
      ensures CurrentState() == Step(old(CurrentState()), input, world)
    {
      UpdatePlayer(input);
      UpdateBolt();
    }
  }
}

/** The game's simulation state and the operations that change it: reset, jump,
    spawning and the per-frame tick. Drawing, input wiring and frame scheduling
    are outside this module. */
module Game {
  import opened Geometry
  import opened Obstacles

  /** Semi-implicit Euler for dt milliseconds: the velocity takes the gravity
      first, then the position moves with the new velocity. Returns the new
      height and velocity, before any landing. */
  function Integrate(y: real, vy: real, gravity: real, dt: real): (real, real)
  {
    var vy' := vy + gravity * dt;
    (y + vy' * dt, vy')
  }

  /** The player-controlled character. Its horizontal position, size and physics
      constants never change; the tick and jump update its height and velocity. */
  class Player {
    const x: real := 60.0
    const width: real := 48.0
    const height: real := 50.0
    /** Pixels per millisecond squared. */
    const gravity: real := 0.0018
    /** Pixels per millisecond; negative is upwards. */
    const jumpForce: real := -0.6

    var y: real
    var vy: real
    var isOnGround: bool

    /** The player starts standing on the ground line, at rest. */
    constructor (groundY: real)
      ensures y == groundY - height && vy == 0.0 && isOnGround
    {
      y := groundY - 50.0;
      vy := 0.0;
      isOnGround := true;
    }

    /** Gravity for dt milliseconds (velocity first, then position), then landing:
        a player whose bottom edge reaches the ground line is put back onto it, at
        rest and grounded. Afterwards the player is never below the ground. */
    method Fall(dt: real, groundY: real)
      modifies this
      ensures y + height <= groundY
      ensures
        var (y', vy') := Integrate(old(y), old(vy), gravity, dt);
        if y' + height >= groundY then
          y == groundY - height && vy == 0.0 && isOnGround
        else
          y == y' && vy == vy' && isOnGround == old(isOnGround)
    {
      vy := vy + gravity * dt;
      y := y + vy * dt;
      if y + height >= groundY {
        y := groundY - height;
        vy := 0.0;
        isOnGround := true;
      }
    }

    /** The rectangle the collision test sees. */
    function Box(): Rect
      reads this
    {
      Rect(x, y, width, height)
    }
  }

  /** Every piece of state the simulation changes, as one value. */
  datatype World = World(
    playerY: real, playerVy: real, onGround: bool,
    obstacles: seq<Rect>,
    spawnTimer: real, spawnInterval: real,
    speed: real, speedIncreaseTimer: real,
    running: bool, score: real)

  class GameState {
    /** Width of the canvas; obstacles enter just past it. */
    const canvasW: real
    /** y of the ground line the player and the obstacles stand on. */
    const groundY: real
    const player: Player

    /** Active obstacles in spawn order. */
    var obstacles: seq<Rect>
    var spawnTimer: real
    var spawnInterval: real
    /** Scroll speed in pixels per millisecond. */
    var speed: real
    var speedIncreaseTimer: real
    var running: bool
    var score: real

    /** What holds after construction and between any two calls of Reset, Jump and
        Tick (the other methods are steps inside Tick): the player is never below the
        ground, no expired obstacle is kept, the timers stay below their
        thresholds, and speed and score never fall below their start values. */
    ghost predicate Valid()
      reads this, player
    {
      && player.y + player.height <= groundY
      && (forall k :: 0 <= k < |obstacles| ==> !Expired(obstacles[k]))
      && 0.0 <= spawnTimer < spawnInterval
      && 900.0 <= spawnInterval < 2100.0
      && 0.0 <= speedIncreaseTimer <= 5000.0
      && 0.35 <= speed
      && 0.0 <= score
    }

    function Snapshot(): World
      reads this, player
    {
      World(player.y, player.vy, player.isOnGround, obstacles, spawnTimer, spawnInterval,
            speed, speedIncreaseTimer, running, score)
    }

    /** The state a restart produces. The speed-ramp timer is not part of it. */
    ghost predicate AtRestart()
      reads this, player
    {
      && obstacles == []
      && spawnTimer == 0.0
      && spawnInterval == 1400.0
      && speed == 0.35
      && score == 0.0
      && running
      && player.y == groundY - player.height
      && player.vy == 0.0
      && player.isOnGround
    }

    /** A new game, running, with the player on the ground and nothing spawned. */
    constructor (canvasW: real, groundY: real)
      ensures Valid() && AtRestart() && speedIncreaseTimer == 0.0
      ensures this.canvasW == canvasW && this.groundY == groundY
      ensures fresh(player)
    {
      this.canvasW := canvasW;
      this.groundY := groundY;
      player := new Player(groundY);
      obstacles := [];
      spawnTimer := 0.0;
      spawnInterval := 1400.0;
      speed := 0.35;
      speedIncreaseTimer := 0.0;
      running := true;
      score := 0.0;
    }

    /** Restart: clears the obstacles, restores the spawner, speed, score and the
        player's pose, and runs again. The speed-ramp timer keeps its value.
        Restarting a freshly restarted game changes nothing. */
    method Reset()
      requires Valid()
      modifies this, player
      ensures Valid() && AtRestart()
      ensures speedIncreaseTimer == old(speedIncreaseTimer)
      ensures old(AtRestart()) ==> Snapshot() == old(Snapshot())
    {
      obstacles := [];
      spawnTimer := 0.0;
      spawnInterval := 1400.0;
      speed := 0.35;
      score := 0.0;
      running := true;
      player.y := groundY - player.height;
      player.vy := 0.0;
      player.isOnGround := true;
    }

    /** The primary action. A grounded player in a running game takes off; an
        airborne one is unaffected; after a game over it restarts the game. */
    method Jump()
      requires Valid()
      modifies this, player
      ensures Valid()
      ensures old(running) && old(player.isOnGround) ==>
        Snapshot() == old(Snapshot()).(playerVy := -0.6, onGround := false)
      ensures old(running) && !old(player.isOnGround) ==> Snapshot() == old(Snapshot())
      ensures !old(running) ==> AtRestart() && speedIncreaseTimer == old(speedIncreaseTimer)
    {
      if player.isOnGround && running {
        player.vy := player.jumpForce;
        player.isOnGround := false;
      } else if !running {
        Reset();
      }
    }

    /** Appends one freshly spawned obstacle. */
    method SpawnObstacle(rHeight: real, rWidth: real)
      requires 0.0 <= rHeight < 1.0 && 0.0 <= rWidth < 1.0
      modifies this`obstacles
      ensures obstacles == old(obstacles) + [NewObstacle(canvasW, groundY, rHeight, rWidth)]
    {
      obstacles := obstacles + [NewObstacle(canvasW, groundY, rHeight, rWidth)];
    }

    /** The spawner's part of a tick: the timer advances by dt; once it reaches the
        interval it restarts from zero, a new interval between 900 and 2100 ms is
        drawn and one obstacle is spawned. */
    method AdvanceSpawner(dt: real, rInterval: real, rHeight: real, rWidth: real)
      requires 0.0 <= rInterval < 1.0 && 0.0 <= rHeight < 1.0 && 0.0 <= rWidth < 1.0
      modifies this`spawnTimer, this`spawnInterval, this`obstacles
      ensures
        var spawned := old(spawnTimer) + dt >= old(spawnInterval);
        && spawnTimer == (if spawned then 0.0 else old(spawnTimer) + dt)
        && spawnInterval == (if spawned then 900.0 + rInterval * 1200.0 else old(spawnInterval))
        && obstacles == old(obstacles) + if spawned then [NewObstacle(canvasW, groundY, rHeight, rWidth)] else []
    {
      spawnTimer := spawnTimer + dt;
      if spawnTimer >= spawnInterval {
        spawnTimer := 0.0;
        spawnInterval := 900.0 + rInterval * 1200.0;
        SpawnObstacle(rHeight, rWidth);
      }
    }

    /** The obstacle pass of a tick: from the last obstacle to the first, scroll it
        left, remove it if it has expired, and end the game if it overlaps the
        player (the test also runs on an obstacle just removed). */
    method MoveObstacles(shift: real)
      modifies this`obstacles, this`running
      ensures obstacles == Advance(old(obstacles), shift)
      ensures running == (old(running) && !HitsAny(player.Box(), old(obstacles), shift))
    {
      ghost var queue := obstacles;
      var box := player.Box();
      var i := |obstacles| - 1;
      while i >= 0
        invariant -1 <= i < |queue|
        invariant obstacles == queue[..i + 1] + Advance(queue[i + 1..], shift)
        invariant running == (old(running) && !HitsAny(box, queue[i + 1..], shift))
      {
        SpliceStep(queue, i, shift, obstacles);
        HitsAnyFrom(box, queue, i, shift);
        obstacles := obstacles[i := MoveLeft(obstacles[i], shift)];
        var obs := obstacles[i];
        if Expired(obs) {
          obstacles := obstacles[..i] + obstacles[i + 1..];
        }
        if Collides(box, obs) {
          running := false;
        }
        i := i - 1;
      }
    }

    /** The speed ramp: the timer advances by dt; once it exceeds 5000 ms the speed
        rises by one fixed step and the timer restarts from zero. */
    method RampSpeed(dt: real)
      modifies this`speed, this`speedIncreaseTimer
      ensures
        if old(speedIncreaseTimer) + dt > 5000.0 then
          speed == old(speed) + 0.03 && speedIncreaseTimer == 0.0
        else
          speed == old(speed) && speedIncreaseTimer == old(speedIncreaseTimer) + dt
    {
      speedIncreaseTimer := speedIncreaseTimer + dt;
      if speedIncreaseTimer > 5000.0 {
        speed := speed + 0.03;
        speedIncreaseTimer := 0.0;
      }
    }

    /** One frame of dt milliseconds. rInterval, rHeight and rWidth are the random
        draws in [0, 1) for the next spawn interval and the spawned obstacle's size;
        they are used only if an obstacle spawns. */
    method Tick(dt: real, rInterval: real, rHeight: real, rWidth: real)
      requires Valid()
      requires 0.0 <= dt
      requires 0.0 <= rInterval < 1.0 && 0.0 <= rHeight < 1.0 && 0.0 <= rWidth < 1.0
      modifies this, player
      ensures Valid()
      // An ended game is frozen.
      ensures !old(running) ==> Snapshot() == old(Snapshot())
      // Gravity, then landing: reaching the ground line clamps the player onto it.
      ensures old(running) ==>
        var (y, vy) := Integrate(old(player.y), old(player.vy), player.gravity, dt);
        if y + player.height >= groundY then
          player.y == groundY - player.height && player.vy == 0.0 && player.isOnGround
        else
          player.y == y && player.vy == vy && player.isOnGround == old(player.isOnGround)
      // Spawning, the obstacle pass and the collision verdict.
      ensures old(running) ==>
        var spawned := old(spawnTimer) + dt >= old(spawnInterval);
        var queue := old(obstacles) + if spawned then [NewObstacle(canvasW, groundY, rHeight, rWidth)] else [];
        && spawnTimer == (if spawned then 0.0 else old(spawnTimer) + dt)
        && spawnInterval == (if spawned then 900.0 + rInterval * 1200.0 else old(spawnInterval))
        && |obstacles| <= |queue|
        && obstacles == Advance(queue, old(speed) * dt)
        && (running <==> !HitsAny(player.Box(), queue, old(speed) * dt))
        && (running <==> forall o | o in obstacles :: !Collides(player.Box(), o))
      // The speed ramp is a staircase.
      ensures old(running) ==>
        if old(speedIncreaseTimer) + dt > 5000.0 then
          speed == old(speed) + 0.03 && speedIncreaseTimer == 0.0
        else
          speed == old(speed) && speedIncreaseTimer == old(speedIncreaseTimer) + dt
      // Score grows with elapsed time only.
      ensures old(running) ==> score == old(score) + dt * 0.02
      ensures score >= old(score)
    {
      if running {
        player.Fall(dt, groundY);
        AdvanceSpawner(dt, rInterval, rHeight, rWidth);
        ghost var queue := obstacles;
        var shift := speed * dt;
        assert shift == old(speed) * dt;
        MoveObstacles(shift);
        RemovedObstaclesNeverHit(player.Box(), queue, shift);
        AdvanceKeepsNoExpired(queue, shift);
        AdvanceRemovesExpired(queue, shift);
        RampSpeed(dt);
        score := score + dt * 0.02;
      }
    }
  }
}

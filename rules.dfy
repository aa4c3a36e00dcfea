/**
 * The frame rules of `main`'s loop (src/bricks.cpp, lines 926-1368) as pure
 * functions over the whole game state, a `World` value. Each function is one
 * step of the frame, in the source's order; `Game.GameState` performs the
 * same steps in place and is proved against these functions. Drawing, audio
 * playback and timing are left out: `dt` is a parameter, sounds are recorded
 * as events, and every `rand32()` the simulation calls reads the next value
 * of an oracle.
 */
module Rules {
  import opened Wrappers
  import opened Geometry
  import opened Entities
  import opened Pools
  import opened Level
  import opened Settings

  datatype GameMode = Starting | Started | Over | Win

  /** The paddle; `caught` is the slot of the balls array its `caught_ball` points to. */
  datatype Paddle = Paddle(pos: V2, dim: V2, speed: real, caught: Option<nat>)

  /** The simulated part of GameState; `balls`, `bullets`, `powerups` and `bricks` are the live slots. */
  datatype World = World(
    mode: GameMode,
    active: PowerupType,
    powerupTime: real,
    waitTime: real,
    shootTimeout: real,
    ballsSpeed: real,
    lives: int,
    score: int,
    inputShoot: bool,
    inputLeft: bool,
    inputRight: bool,
    config: Config,
    paddle: Paddle,
    balls: seq<Ball>,
    bullets: seq<Bullet>,
    powerups: seq<Powerup>,
    bricks: seq<Brick>,
    bricksMax: nat,
    draws: nat,
    sounds: seq<Sound>)

  /** The values `rand32()` returns, in call order; `draws` counts the calls made so far. */
  type Oracle = nat -> real

  ghost predicate IsOracle(rand: Oracle) {
    forall k: nat :: 0.0 <= rand(k) < 1.0
  }

  /** The pool capacities hold and the caught-ball slot lies inside the balls array. */
  predicate Fits(w: World) {
    |w.balls| <= BALLS_MAX && |w.bullets| <= BULLETS_MAX && |w.powerups| <= POWERUPS_MAX &&
    |w.bricks| <= w.bricksMax &&
    (w.paddle.caught.Some? ==> w.paddle.caught.value < BALLS_MAX)
  }

  // ---------------------------------------------------------------- levels

  /** `new_game`. */
  function NewGame(w: World): World {
    w.(ballsSpeed := BALLS_SPEED_INIT, lives := w.config.livesInit, score := 0)
  }

  const PADDLE_START := Paddle(V2(0.0, -0.85), V2(DEFAULT_PADDLE_WIDTH, DEFAULT_PADDLE_HEIGHT),
                               DEFAULT_PADDLE_SPEED, Some(0))

  /** `new_level`: pools emptied, the map reloaded, one ball caught by a re-placed paddle. */
  function NewLevel(w: World, text: seq<char>): (r: World)
    ensures r.mode == Started && r.balls == [DefaultBall()] && r.bullets == [] && r.powerups == []
    ensures r.powerupTime == 0.0 && r.bricks == MapBricks(text) && r.paddle == PADDLE_START
    ensures r == w.(mode := r.mode, balls := r.balls, bullets := r.bullets, powerups := r.powerups,
                    powerupTime := r.powerupTime, bricks := r.bricks, bricksMax := r.bricksMax, paddle := r.paddle)
    ensures r.bricksMax == CapacityFor(|MapBricks(text)|)
    ensures Fits(r)
  {
    CapacityBounds(|MapBricks(text)|);
    w.(mode := Started, balls := [DefaultBall()], bullets := [], powerups := [], powerupTime := 0.0,
       bricks := MapBricks(text), bricksMax := CapacityFor(|MapBricks(text)|), paddle := PADDLE_START)
  }

  /** The initial state of `main`: a zeroed GameState, the settings, `new_game`, `new_level`. */
  function Start(config: Config, text: seq<char>): (r: World)
    ensures r.mode == Started && r.lives == config.livesInit && r.score == 0
    ensures r.ballsSpeed == BALLS_SPEED_INIT && r.balls == [DefaultBall()] && r.paddle == PADDLE_START
    ensures r.bricks == MapBricks(text) && r.draws == 0 && r.sounds == [] && Fits(r)
  {
    var zero := World(Starting, Shooter, 0.0, 0.0, 0.0, 0.0, 0, 0, false, false, false, config,
                      Paddle(ZERO, ZERO, 0.0, None), [], [], [], [], 0, 0, []);
    NewLevel(NewGame(zero), text)
  }

  // ------------------------------------------------------------ game modes

  /**
   * Lines 926-958: outside STARTED only the wait timer runs (and the paddle
   * rises on WIN); when it runs out the ball speed goes up and a level starts.
   */
  function WaitStep(w: World, dt: real, text: seq<char>): (r: World)
    requires w.mode != Started
    ensures w.waitTime - dt <= 0.0 ==>
      r.mode == Started && r.ballsSpeed == w.ballsSpeed + BALLS_SPEED_INCREASE &&
      r.balls == [DefaultBall()] && r.paddle == PADDLE_START &&
      r.bullets == [] && r.powerups == [] && r.powerupTime == 0.0 && r.bricks == MapBricks(text) &&
      r.lives == w.lives && r.score == w.score && Fits(r)
    ensures w.waitTime - dt > 0.0 ==>
      r == w.(waitTime := w.waitTime - dt, paddle := r.paddle) &&
      r.paddle == w.paddle.(pos := V2(w.paddle.pos.x, r.paddle.pos.y)) &&
      r.paddle.pos.y == if w.mode == Win then w.paddle.pos.y + dt * 1.1 else w.paddle.pos.y
  {
    var w1 := Wait(w, dt);
    if w1.waitTime <= 0.0 then NewLevel(w1.(ballsSpeed := w1.ballsSpeed + BALLS_SPEED_INCREASE), text)
    else w1
  }

  /** Lines 926-941: the wait timer runs down; on WIN the paddle rises. */
  function Wait(w: World, dt: real): World {
    var w1 := w.(waitTime := w.waitTime - dt);
    if w.mode == Win then w1.(paddle := w1.paddle.(pos := V2(w1.paddle.pos.x, w1.paddle.pos.y + dt * 1.1)))
    else w1
  }

  /**
   * Lines 960-982, in STARTED: a lost last ball costs a life and gives a new
   * caught ball, or ends the game; a cleared map wins. The flag says whether
   * the rest of the frame runs.
   */
  function RoundCheck(w: World): (r: (World, bool))
    ensures |w.balls| == 0 && w.lives > 0 ==>
      r.1 && r.0 == w.(lives := w.lives - 1, balls := [DefaultBall()], paddle := w.paddle.(caught := Some(0)))
    ensures |w.balls| == 0 && w.lives <= 0 ==>
      !r.1 && r.0.mode == Over && r.0.waitTime == DEFAULT_GAME_WAIT_TIME && r.0.score == 0 &&
      r.0.lives == w.config.livesInit && r.0.ballsSpeed == BALLS_SPEED_INIT &&
      r.0 == w.(mode := Over, waitTime := DEFAULT_GAME_WAIT_TIME, score := 0, lives := r.0.lives, ballsSpeed := r.0.ballsSpeed)
    ensures |w.balls| > 0 && |w.bricks| == 0 ==>
      !r.1 && r.0 == w.(mode := Win, waitTime := DEFAULT_GAME_WAIT_TIME, score := w.score + 1)
    ensures |w.balls| > 0 && |w.bricks| > 0 ==> r == (w, true)
    ensures r.1 ==> |r.0.balls| >= 1
  {
    if |w.balls| == 0 then
      if w.lives > 0 then
        (w.(lives := w.lives - 1, balls := [DefaultBall()], paddle := w.paddle.(caught := Some(0))), true)
      else
        (NewGame(w.(mode := Over, waitTime := DEFAULT_GAME_WAIT_TIME)), false)
    else if |w.bricks| == 0 then
      (w.(mode := Win, waitTime := DEFAULT_GAME_WAIT_TIME, score := w.score + 1), false)
    else
      (w, true)
  }

  // -------------------------------------------------------------- powerups

  /** Lines 987-997: the effect timer runs down; the end of a split leaves one ball. */
  function ExpirePowerup(w: World, dt: real): (r: World)
    requires |w.balls| >= 1
    ensures r == w.(powerupTime := r.powerupTime, balls := r.balls)
    ensures r.powerupTime == if w.powerupTime > 0.0 then w.powerupTime - dt else w.powerupTime
    ensures w.powerupTime > 0.0 && r.powerupTime <= 0.0 && w.active == Split ==> r.balls == [w.balls[0]]
    ensures !(w.powerupTime > 0.0 && r.powerupTime <= 0.0 && w.active == Split) ==> r.balls == w.balls
  {
    if w.powerupTime > 0.0 then
      var t := w.powerupTime - dt;
      if t <= 0.0 && w.active == Split then w.(powerupTime := t, balls := w.balls[..1])
      else w.(powerupTime := t)
    else w
  }

  /** The powerup types in the order `hit_brick` tries them. */
  const SPAWN_ORDER: seq<PowerupType> := [Split, Glue, Shooter]

  function Rank(t: PowerupType): nat {
    match t
    case Split => 0
    case Glue => 1
    case Shooter => 2
  }

  predicate RankIncreasing(ts: seq<PowerupType>) {
    forall a, b :: 0 <= a < b < |ts| ==> Rank(ts[a]) < Rank(ts[b])
  }

  /**
   * Lines 730-745: while the pool has room, each type in turn rolls its
   * chance and on success spawns a powerup at `pos`, the next one a powerup
   * size lower. Returns the pool and the oracle position afterwards.
   */
  function Spawn(powerups: seq<Powerup>, types: seq<PowerupType>, pos: V2, c: Config, rand: Oracle, draws: nat)
    : (r: (seq<Powerup>, nat))
    decreases |types|
  {
    if types == [] || |powerups| >= POWERUPS_MAX then (powerups, draws)
    else if rand(draws) < Chance(c, types[0]) then
      Spawn(powerups + [NewPowerup(types[0], pos)], types[1..], V2(pos.x, pos.y - DEFAULT_POWERUP_SIZE), c, rand, draws + 1)
    else
      Spawn(powerups, types[1..], pos, c, rand, draws + 1)
  }

  /** What a spawn adds: never past the cap, at most one per type tried, stacked downwards. */
  lemma {:induction false} SpawnShape(powerups: seq<Powerup>, types: seq<PowerupType>, pos: V2, c: Config,
                                      rand: Oracle, draws: nat)
    ensures var (ps, d) := Spawn(powerups, types, pos, c, rand, draws);
      |powerups| <= |ps| <= |powerups| + |types| && ps[..|powerups|] == powerups &&
      (|powerups| <= POWERUPS_MAX ==> |ps| <= POWERUPS_MAX) &&
      draws <= d <= draws + |types| &&
      (forall k :: |powerups| <= k < |ps| ==>
        ps[k].dir == V2(0.0, -DEFAULT_POWERUP_SPEED) &&
        ps[k].dim == V2(DEFAULT_POWERUP_SIZE, DEFAULT_POWERUP_SIZE) &&
        ps[k].pos == V2(pos.x, pos.y - (k - |powerups|) as real * DEFAULT_POWERUP_SIZE) &&
        ps[k].kind in types)
    decreases |types|
  {
    if types == [] || |powerups| >= POWERUPS_MAX {
    } else {
      var t := types[0];
      var rest := types[1..];
      assert forall u :: u in rest ==> u in types;
      if rand(draws) < Chance(c, t) {
        var ps1 := powerups + [NewPowerup(t, pos)];
        var pos1 := V2(pos.x, pos.y - DEFAULT_POWERUP_SIZE);
        SpawnShape(ps1, rest, pos1, c, rand, draws + 1);
        var ps := Spawn(ps1, rest, pos1, c, rand, draws + 1).0;
        assert ps[..|powerups|] == ps[..|ps1|][..|powerups|];
        assert ps[|powerups|] == ps[..|ps1|][|powerups|];
        forall k | |ps1| <= k < |ps|
          ensures ps[k].pos == V2(pos.x, pos.y - (k - |powerups|) as real * DEFAULT_POWERUP_SIZE)
        {
          assert ps[k].pos == V2(pos1.x, pos1.y - (k - |ps1|) as real * DEFAULT_POWERUP_SIZE);
        }
      } else {
        SpawnShape(powerups, rest, pos, c, rand, draws + 1);
      }
    }
  }

  /** Tried in rank order, the spawned powerups come out in rank order. */
  lemma {:induction false} SpawnRanked(powerups: seq<Powerup>, types: seq<PowerupType>, pos: V2, c: Config,
                                       rand: Oracle, draws: nat)
    requires RankIncreasing(types)
    ensures var ps := Spawn(powerups, types, pos, c, rand, draws).0;
      forall a, b :: |powerups| <= a < b < |ps| ==> Rank(ps[a].kind) < Rank(ps[b].kind)
    decreases |types|
  {
    if types == [] || |powerups| >= POWERUPS_MAX {
    } else {
      var t := types[0];
      var rest := types[1..];
      assert RankIncreasing(rest);
      if rand(draws) < Chance(c, t) {
        var ps1 := powerups + [NewPowerup(t, pos)];
        var pos1 := V2(pos.x, pos.y - DEFAULT_POWERUP_SIZE);
        SpawnShape(ps1, rest, pos1, c, rand, draws + 1);
        SpawnRanked(ps1, rest, pos1, c, rand, draws + 1);
        assert Spawn(powerups, types, pos, c, rand, draws) == Spawn(ps1, rest, pos1, c, rand, draws + 1);
        var ps := Spawn(ps1, rest, pos1, c, rand, draws + 1).0;
        assert ps[|powerups|] == ps[..|ps1|][|powerups|] == NewPowerup(t, pos);
        forall a, b | |powerups| <= a < b < |ps| ensures Rank(ps[a].kind) < Rank(ps[b].kind) {
          if a == |powerups| {
            assert ps[b].kind in rest;
            var m :| 0 <= m < |rest| && rest[m] == ps[b].kind;
            assert types[0] == t && types[m + 1] == rest[m];
          }
        }
      } else {
        SpawnRanked(powerups, rest, pos, c, rand, draws + 1);
        assert Spawn(powerups, types, pos, c, rand, draws) == Spawn(powerups, rest, pos, c, rand, draws + 1);
        var ps := Spawn(powerups, rest, pos, c, rand, draws + 1).0;
        assert forall a, b :: |powerups| <= a < b < |ps| ==> Rank(ps[a].kind) < Rank(ps[b].kind);
      }
    }
  }

  /**
   * With room in the pool, the first type tried is the first powerup spawned
   * exactly when its roll falls under its chance; without room nothing spawns
   * and no roll is made.
   */
  lemma SpawnFirstRoll(powerups: seq<Powerup>, types: seq<PowerupType>, pos: V2, c: Config, rand: Oracle, draws: nat)
    requires types != [] && RankIncreasing(types)
    ensures |powerups| < POWERUPS_MAX ==>
      var ps := Spawn(powerups, types, pos, c, rand, draws).0;
      (rand(draws) < Chance(c, types[0]) <==> |ps| > |powerups| && ps[|powerups|] == NewPowerup(types[0], pos))
    ensures |powerups| >= POWERUPS_MAX ==> Spawn(powerups, types, pos, c, rand, draws) == (powerups, draws)
  {
    if |powerups| < POWERUPS_MAX {
      if rand(draws) < Chance(c, types[0]) {
        SpawnRollHit(powerups, types, pos, c, rand, draws);
      } else {
        SpawnRollMiss(powerups, types, pos, c, rand, draws);
      }
    }
  }

  lemma SpawnRollHit(powerups: seq<Powerup>, types: seq<PowerupType>, pos: V2, c: Config, rand: Oracle, draws: nat)
    requires types != [] && |powerups| < POWERUPS_MAX && rand(draws) < Chance(c, types[0])
    ensures var ps := Spawn(powerups, types, pos, c, rand, draws).0;
      |ps| > |powerups| && ps[|powerups|] == NewPowerup(types[0], pos)
  {
    var ps1 := powerups + [NewPowerup(types[0], pos)];
    var pos1 := V2(pos.x, pos.y - DEFAULT_POWERUP_SIZE);
    SpawnShape(ps1, types[1..], pos1, c, rand, draws + 1);
    var ps := Spawn(ps1, types[1..], pos1, c, rand, draws + 1).0;
    assert ps[|powerups|] == ps[..|ps1|][|powerups|];
  }

  lemma SpawnRollMiss(powerups: seq<Powerup>, types: seq<PowerupType>, pos: V2, c: Config, rand: Oracle, draws: nat)
    requires types != [] && RankIncreasing(types) && |powerups| < POWERUPS_MAX && !(rand(draws) < Chance(c, types[0]))
    ensures var ps := Spawn(powerups, types, pos, c, rand, draws).0;
      |ps| > |powerups| ==> ps[|powerups|].kind != types[0]
  {
    var rest := types[1..];
    SpawnShape(powerups, rest, pos, c, rand, draws + 1);
    var ps := Spawn(powerups, rest, pos, c, rand, draws + 1).0;
    if |ps| > |powerups| {
      var u := ps[|powerups|].kind;
      assert u in rest;
      var m :| 0 <= m < |rest| && rest[m] == u;
      assert types[m + 1] == u;
    }
  }

  lemma SpawnOrderIsRanked()
    ensures RankIncreasing(SPAWN_ORDER)
  {
  }

  /**
   * `hit_brick` (lines 718-750): a sound (one oracle draw), the damage, and
   * when the health reaches 0 or below the powerup rolls and the swap-remove
   * of the brick. The second component is the loop index afterwards.
   */
  function HitBrick(w: World, j: nat, damage: real, sound: Sound, rand: Oracle): (r: (World, int))
    requires j < |w.bricks|
    ensures r.0 == w.(bricks := r.0.bricks, powerups := r.0.powerups, draws := r.0.draws, sounds := w.sounds + [sound])
    ensures var h := w.bricks[j].health - damage;
      if h > 0.0 then
        r.1 == j && r.0.powerups == w.powerups && r.0.draws == w.draws + 1 &&
        r.0.bricks == w.bricks[j := w.bricks[j].(health := h)]
      else
        r.1 == j - 1 && |r.0.bricks| == |w.bricks| - 1 &&
        (j < |r.0.bricks| ==> r.0.bricks[j] == w.bricks[|w.bricks| - 1]) &&
        (forall k :: 0 <= k < |r.0.bricks| && k != j ==> r.0.bricks[k] == w.bricks[k]) &&
        r.0.powerups == Spawn(w.powerups, SPAWN_ORDER, w.bricks[j].pos, w.config, rand, w.draws + 1).0 &&
        r.0.draws == Spawn(w.powerups, SPAWN_ORDER, w.bricks[j].pos, w.config, rand, w.draws + 1).1
    ensures w.powerups <= r.0.powerups
    ensures |w.powerups| <= POWERUPS_MAX ==> |r.0.powerups| <= POWERUPS_MAX
  {
    var w1 := Damage(w, j, damage, sound);
    if w1.bricks[j].health <= 0.0 then Destroy(w1, j, rand) else (w1, j)
  }

  /** Lines 721-726: the sound (one draw) and the damage to brick j. */
  function Damage(w: World, j: nat, damage: real, sound: Sound): World
    requires j < |w.bricks|
  {
    w.(draws := w.draws + 1, sounds := w.sounds + [sound],
       bricks := w.bricks[j := w.bricks[j].(health := w.bricks[j].health - damage)])
  }

  /** Lines 728-749: the powerup rolls for destroyed brick j, then its swap-remove. */
  function Destroy(w: World, j: nat, rand: Oracle): (r: (World, int))
    requires j < |w.bricks|
    ensures w.powerups <= r.0.powerups
    ensures |w.powerups| <= POWERUPS_MAX ==> |r.0.powerups| <= POWERUPS_MAX
  {
    SpawnShape(w.powerups, SPAWN_ORDER, w.bricks[j].pos, w.config, rand, w.draws);
    var (ps, d) := Spawn(w.powerups, SPAWN_ORDER, w.bricks[j].pos, w.config, rand, w.draws);
    (w.(powerups := ps, draws := d, bricks := SwapRemove(w.bricks, j)), j - 1)
  }

  // ----------------------------------------------------------------- shoot

  predicate CanFire(w: World) {
    w.shootTimeout <= 0.0 && w.powerupTime > 0.0 && w.active == Shooter && |w.bullets| < BULLETS_MAX - 1
  }

  /**
   * Lines 999-1033: shoot launches the caught ball straight up at the ball
   * speed; otherwise, with the shooter active and the cooldown over, it fires
   * a bullet from each end of the paddle (one sound, one oracle draw).
   */
  function Shoot(w: World): (r: World)
    ensures !w.inputShoot ==> r == w
    ensures w.inputShoot && w.paddle.caught.Some? ==>
      var i := w.paddle.caught.value;
      !r.inputShoot && r.paddle == w.paddle.(caught := None) && |r.balls| == |w.balls| &&
      r == w.(inputShoot := false, paddle := r.paddle, balls := r.balls) &&
      (forall k :: 0 <= k < |w.balls| && k != i ==> r.balls[k] == w.balls[k]) &&
      (i < |w.balls| ==> r.balls[i] == w.balls[i].(dir := V2(0.0, w.ballsSpeed)))
    ensures w.inputShoot && w.paddle.caught.None? && CanFire(w) ==>
      var p := w.paddle;
      r == w.(bullets := w.bullets + [NewBullet(V2(p.pos.x - p.dim.x / 2.0, p.pos.y)), NewBullet(V2(p.pos.x + p.dim.x / 2.0, p.pos.y))],
              shootTimeout := w.shootTimeout + SHOOT_RATE, draws := w.draws + 1, sounds := w.sounds + [ShootSound])
    ensures w.inputShoot && w.paddle.caught.None? && !CanFire(w) ==> r == w
    ensures |w.bullets| <= BULLETS_MAX ==> |r.bullets| <= BULLETS_MAX
  {
    if !w.inputShoot then w
    else if w.paddle.caught.Some? then
      var i := w.paddle.caught.value;
      var balls := if i < |w.balls| then w.balls[i := w.balls[i].(dir := V2(0.0, w.ballsSpeed))] else w.balls;
      w.(inputShoot := false, balls := balls, paddle := w.paddle.(caught := None))
    else if CanFire(w) then Fire(w)
    else w
  }

  /** Lines 1009-1032: a bullet from each end of the paddle, one sound (one draw), and the cooldown. */
  function Fire(w: World): World {
    var p := w.paddle;
    var left := NewBullet(V2(p.pos.x - p.dim.x / 2.0, p.pos.y));
    var right := NewBullet(V2(p.pos.x + p.dim.x / 2.0, p.pos.y));
    w.(draws := w.draws + 1, sounds := w.sounds + [ShootSound], shootTimeout := w.shootTimeout + SHOOT_RATE,
       bullets := w.bullets + [left] + [right])
  }

  // ---------------------------------------------------------------- paddle

  /** Lines 1035-1043: right wins over left. */
  function PaddleMove(p: Paddle, left: bool, right: bool, dt: real): real {
    if right then p.speed * dt
    else if left then -p.speed * dt
    else 0.0
  }

  /** Lines 1045-1054: the paddle moves and is pushed back inside the screen. */
  function MovePaddle(w: World, move: real): (r: World)
    ensures r == w.(paddle := w.paddle.(pos := V2(r.paddle.pos.x, w.paddle.pos.y)))
    ensures 0.0 <= w.paddle.dim.x <= 2.0 ==>
      -1.0 <= r.paddle.pos.x - w.paddle.dim.x / 2.0 && r.paddle.pos.x + w.paddle.dim.x / 2.0 <= 1.0
    ensures -1.0 <= w.paddle.pos.x + move - w.paddle.dim.x / 2.0 && w.paddle.pos.x + move + w.paddle.dim.x / 2.0 <= 1.0 ==>
      r.paddle.pos.x == w.paddle.pos.x + move
    ensures w.paddle.pos.x + move - w.paddle.dim.x / 2.0 < -1.0 ==> r.paddle.pos.x - w.paddle.dim.x / 2.0 == -1.0
    ensures -1.0 <= w.paddle.pos.x + move - w.paddle.dim.x / 2.0 && w.paddle.pos.x + move + w.paddle.dim.x / 2.0 > 1.0 ==>
      r.paddle.pos.x + w.paddle.dim.x / 2.0 == 1.0
  {
    var half := w.paddle.dim.x / 2.0;
    var x := w.paddle.pos.x + move;
    var x' := if x - half < -1.0 then -1.0 + half else if x + half > 1.0 then 1.0 - half else x;
    w.(paddle := w.paddle.(pos := V2(x', w.paddle.pos.y)))
  }

  // --------------------------------------------------------------- bullets

  /** Lines 1079-1080: bullet i, as a square of its size, overlaps brick k. */
  predicate BulletOverlaps(w: World, i: nat, k: nat)
    requires i < |w.bullets| && k < |w.bricks|
  {
    IsRectInRect(w.bullets[i].pos, V2(w.bullets[i].size, w.bullets[i].size), w.bricks[k].pos, w.bricks[k].dim)
  }

  /**
   * Lines 1073-1086 for bullet i, corrected: the first brick the bullet
   * overlaps takes 1 damage and the scan stops, since the bullet is gone.
   * The flag says whether it hit.
   */
  function BulletBricks(w: World, i: nat, j: nat, rand: Oracle): (r: (World, bool))
    requires i < |w.bullets|
    decreases |w.bricks| - j
    ensures r.0 == w.(bricks := r.0.bricks, powerups := r.0.powerups, draws := r.0.draws, sounds := r.0.sounds)
    ensures !r.1 ==> r.0 == w
    ensures r.1 ==> r.0.sounds == w.sounds + [ShootHitSound]
    ensures |r.0.bricks| <= |w.bricks|
    ensures |w.powerups| <= POWERUPS_MAX ==> |r.0.powerups| <= POWERUPS_MAX
  {
    if j >= |w.bricks| then (w, false)
    else if BulletOverlaps(w, i, j) then
        (HitBrick(w, j, 1.0, ShootHitSound, rand).0, true)
      else
        BulletBricks(w, i, j + 1, rand)
  }

  /** The scan hits exactly when the bullet overlaps some brick from j on. */
  lemma {:induction false} BulletBricksHitIff(w: World, i: nat, j: nat, rand: Oracle)
    requires i < |w.bullets|
    ensures BulletBricks(w, i, j, rand).1 <==> exists k :: j <= k < |w.bricks| && BulletOverlaps(w, i, k)
    decreases |w.bricks| - j
  {
    if j < |w.bricks| && !BulletOverlaps(w, i, j) {
      BulletBricksHitIff(w, i, j + 1, rand);
      assert (exists k :: j <= k < |w.bricks| && BulletOverlaps(w, i, k)) ==>
        exists k :: j + 1 <= k < |w.bricks| && BulletOverlaps(w, i, k);
    }
  }

  /** The brick hit is the first one from j on that the bullet overlaps; it takes 1 damage. */
  lemma {:induction false} BulletBricksFirstHit(w: World, i: nat, j: nat, k: nat, rand: Oracle)
    requires i < |w.bullets| && j <= k < |w.bricks| && BulletOverlaps(w, i, k)
    requires forall m :: j <= m < k ==> !BulletOverlaps(w, i, m)
    ensures BulletBricks(w, i, j, rand) == (HitBrick(w, k, 1.0, ShootHitSound, rand).0, true)
    decreases k - j
  {
    if j < k {
      BulletBricksFirstHit(w, i, j + 1, k, rand);
    }
  }

  /** Line 1061: a bullet moves up by its speed. */
  function Fly(b: Bullet, dt: real): Bullet {
    b.(pos := V2(b.pos.x, b.pos.y + b.speed * dt))
  }

  /**
   * Lines 1059-1087 for bullet i, corrected: the bullet moves; past the top
   * of the screen, or after hitting a brick, it is swap-removed and slot i
   * is visited again. Returns the world and the next index.
   */
  function BulletStep(w: World, i: nat, dt: real, rand: Oracle): (r: (World, nat))
    requires i < |w.bullets|
    ensures r.0 == w.(bullets := r.0.bullets, bricks := r.0.bricks, powerups := r.0.powerups, draws := r.0.draws, sounds := r.0.sounds)
    ensures (|r.0.bullets| == |w.bullets| - 1 && r.1 == i) || (|r.0.bullets| == |w.bullets| && r.1 == i + 1)
    ensures |r.0.bricks| <= |w.bricks|
    ensures |w.powerups| <= POWERUPS_MAX ==> |r.0.powerups| <= POWERUPS_MAX
    ensures r.0.sounds == w.sounds || (r.0.sounds == w.sounds + [ShootHitSound] && |r.0.bullets| == |w.bullets| - 1)
    ensures var f := Fly(w.bullets[i], dt);
      var w1 := w.(bullets := w.bullets[i := f]);
      var gone := f.pos.y - f.size > 1.0 || BulletBricks(w1, i, 0, rand).1;
      (gone <==> |r.0.bullets| == |w.bullets| - 1) &&
      (gone ==> r.0.bullets == SwapRemove(w1.bullets, i)) &&
      (!gone ==> r.0.bullets == w1.bullets) &&
      (f.pos.y - f.size > 1.0 ==> r.0 == w.(bullets := r.0.bullets)) &&
      (f.pos.y - f.size <= 1.0 ==> r.0 == BulletBricks(w1, i, 0, rand).0.(bullets := r.0.bullets))
  {
    var w1 := w.(bullets := w.bullets[i := Fly(w.bullets[i], dt)]);
    if w1.bullets[i].pos.y - w1.bullets[i].size > 1.0 then
      (w1.(bullets := SwapRemove(w1.bullets, i)), i)
    else
      var (w2, hit) := BulletBricks(w1, i, 0, rand);
      if hit then (w2.(bullets := SwapRemove(w2.bullets, i)), i) else (w2, i + 1)
  }

  /**
   * Lines 1056-1088, corrected: every bullet is stepped once. Each hit uses
   * up its bullet, so the pass never plays more hit sounds than it removes
   * bullets.
   */
  function BulletsPass(w: World, i: nat, dt: real, rand: Oracle): (r: World)
    requires i <= |w.bullets|
    decreases |w.bullets| - i
    ensures r == w.(bullets := r.bullets, bricks := r.bricks, powerups := r.powerups, draws := r.draws, sounds := r.sounds)
    ensures |r.bullets| <= |w.bullets| && |r.bricks| <= |w.bricks|
    ensures |r.sounds| - |w.sounds| <= |w.bullets| - |r.bullets|
    ensures w.sounds <= r.sounds && forall k :: |w.sounds| <= k < |r.sounds| ==> r.sounds[k] == ShootHitSound
    ensures |w.powerups| <= POWERUPS_MAX ==> |r.powerups| <= POWERUPS_MAX
  {
    if i == |w.bullets| then w
    else
      var (w1, next) := BulletStep(w, i, dt, rand);
      BulletsPass(w1, next, dt, rand)
  }

  // ----------------------------------------------------------------- balls

  /** Lines 1109-1119: the paddle pushes a ball it overlaps, else the ball moves. */
  function MoveBall(b: Ball, p: Paddle, move: real, dt: real, speed: real, norm: Rescale): (r: Ball)
    ensures r.size == b.size
    ensures IsCircleInRect(b.pos, b.size, p.pos, p.dim) ==>
      r.pos == V2(b.pos.x + move, b.pos.y) && r.dir == norm(V2(b.dir.x + move * PADDLE_PUSH_FORCE, b.dir.y), speed)
    ensures !IsCircleInRect(b.pos, b.size, p.pos, p.dim) ==> r.dir == b.dir && r.pos.Sub(b.pos) == b.dir.Scale(dt)
  {
    if IsCircleInRect(b.pos, b.size, p.pos, p.dim) then
      Ball(V2(b.pos.x + move, b.pos.y), norm(V2(b.dir.x + move * PADDLE_PUSH_FORCE, b.dir.y), speed), b.size)
    else
      b.(pos := b.pos.Add(b.dir.Scale(dt)))
  }

  /**
   * Lines 1121-1136: the top, right and left walls reflect and clamp the
   * ball; afterwards it lies inside them, and its speed is unchanged.
   */
  function ReflectWalls(b: Ball): (r: Ball)
    ensures r.size == b.size && Norm2(r.dir) == Norm2(b.dir)
    ensures Abs(r.dir.x) == Abs(b.dir.x) && Abs(r.dir.y) == Abs(b.dir.y)
    ensures 0.0 <= b.size <= 1.0 ==> -1.0 <= r.pos.x - r.size && r.pos.x + r.size <= 1.0 && r.pos.y + r.size <= 1.0
    ensures b.pos.y + b.size <= 1.0 && -1.0 <= b.pos.x - b.size && b.pos.x + b.size <= 1.0 ==> r == b
    ensures b.pos.y + b.size > 1.0 ==> r.pos.y == 1.0 - b.size && r.dir.y == -b.dir.y
    ensures b.pos.y + b.size <= 1.0 ==> r.pos.y == b.pos.y && r.dir.y == b.dir.y
    ensures b.pos.x + b.size > 1.0 ==> r.pos.x == 1.0 - b.size && r.dir.x == -b.dir.x
    ensures b.pos.x + b.size <= 1.0 && b.pos.x - b.size < -1.0 ==> r.pos.x == -1.0 + b.size && r.dir.x == -b.dir.x
    ensures b.pos.x + b.size <= 1.0 && -1.0 <= b.pos.x - b.size ==> r.pos.x == b.pos.x && r.dir.x == b.dir.x
  {
    var b1 := if b.pos.y + b.size > 1.0 then Ball(V2(b.pos.x, 1.0 - b.size), V2(b.dir.x, -b.dir.y), b.size) else b;
    if b1.pos.x + b1.size > 1.0 then Ball(V2(1.0 - b1.size, b1.pos.y), V2(-b1.dir.x, b1.dir.y), b1.size)
    else if b1.pos.x - b1.size < -1.0 then Ball(V2(-1.0 + b1.size, b1.pos.y), V2(-b1.dir.x, b1.dir.y), b1.size)
    else b1
  }

  function PaddleTop(p: Paddle): real { p.pos.y + p.dim.y / 2.0 }
  function PaddleLeft(p: Paddle): real { p.pos.x - p.dim.x / 2.0 }
  function PaddleRight(p: Paddle): real { p.pos.x + p.dim.x / 2.0 }

  /** Lines 1142-1144: the ball's bottom is below the paddle top, within the paddle's width. */
  predicate TouchesPaddleTop(b: Ball, p: Paddle) {
    b.pos.y - b.size < PaddleTop(p) && b.pos.x + b.size > PaddleLeft(p) && b.pos.x - b.size < PaddleRight(p)
  }

  /** How a ball touching the paddle top is answered. */
  datatype PaddleHit = Catch | CurveHit | LeftSideHit | RightSideHit

  /**
   * Lines 1146-1188: the glue catches the ball if none is caught; a ball
   * falling straight bounces with a curve; a slanted ball whose path crosses
   * the paddle-top line beyond the edge it travels towards hit the side. When
   * the path is parallel to the paddle top, the source's intersection divides
   * by zero; the model then bounces with a curve.
   */
  function PaddleHitKind(b: Ball, p: Paddle, glue: bool): (r: PaddleHit)
    ensures r == Catch <==> glue && p.caught.None?
    ensures r == LeftSideHit <==> (!(glue && p.caught.None?) && PaddleLeft(p) != PaddleRight(p) &&
      b.dir.x > 0.0 && b.dir.y != 0.0 && b.pos.x + (PaddleTop(p) - b.pos.y) * (b.dir.x / b.dir.y) < PaddleLeft(p))
    ensures r == RightSideHit <==> (!(glue && p.caught.None?) && PaddleLeft(p) != PaddleRight(p) &&
      b.dir.x < 0.0 && b.dir.y != 0.0 && b.pos.x + (PaddleTop(p) - b.pos.y) * (b.dir.x / b.dir.y) > PaddleRight(p))
    ensures r != Catch && b.dir.x == 0.0 ==> r == CurveHit
  {
    if glue && p.caught.None? then Catch
    else if b.dir.x == 0.0 then CurveHit
    else
      var hit := GetIntersection(b.pos, b.pos.Add(b.dir), V2(PaddleLeft(p), PaddleTop(p)), V2(PaddleRight(p), PaddleTop(p)));
      assert b.pos.Add(b.dir).Sub(b.pos) == b.dir;
      assert hit.Some? && PaddleLeft(p) != PaddleRight(p) ==>
        b.dir.y != 0.0 && hit.value.x == b.pos.x + (PaddleTop(p) - b.pos.y) * (b.dir.x / b.dir.y);
      if hit.Some? && b.dir.x > 0.0 && hit.value.x < PaddleLeft(p) then LeftSideHit
      else if hit.Some? && b.dir.x < 0.0 && hit.value.x > PaddleRight(p) then RightSideHit
      else CurveHit
  }

  /** The curved bounce: sideways by the offset from the paddle centre, up, at the ball speed, on the paddle. */
  function Curve(b: Ball, p: Paddle, speed: real, norm: Rescale): Ball {
    Ball(V2(b.pos.x, PaddleTop(p) + b.size),
         norm(V2(b.dir.x + (b.pos.x - p.pos.x) * PADDLE_CURVE_FACTOR, -b.dir.y), speed),
         b.size)
  }

  /** Lines 1138-1191 for ball i, including the extra `pos += dir * dt` after a paddle hit. */
  function PaddleBounce(b: Ball, p: Paddle, i: nat, glue: bool, speed: real, dt: real, norm: Rescale): (r: (Ball, Paddle))
    ensures !TouchesPaddleTop(b, p) ==> r == (b, p)
    ensures r.0.size == b.size
    ensures r.1 == p || (TouchesPaddleTop(b, p) && glue && p.caught.None? && r.1 == p.(caught := Some(i)) && r.0 == b.(dir := ZERO))
    ensures TouchesPaddleTop(b, p) ==> match PaddleHitKind(b, p, glue)
      case Catch => r.0 == b.(dir := ZERO) && r.1 == p.(caught := Some(i))
      case CurveHit =>
        r.0.dir == Curve(b, p, speed, norm).dir && r.0.pos == Curve(b, p, speed, norm).pos.Add(r.0.dir.Scale(dt)) && r.1 == p
      case LeftSideHit =>
        r.0.dir == V2(-b.dir.x, b.dir.y) && r.1 == p &&
        r.0.pos == V2(PaddleLeft(p) - b.size + r.0.dir.x * dt, b.pos.y + r.0.dir.y * dt)
      case RightSideHit =>
        r.0.dir == V2(-b.dir.x, b.dir.y) && r.1 == p &&
        r.0.pos == V2(PaddleRight(p) + b.size + r.0.dir.x * dt, b.pos.y + r.0.dir.y * dt)
  {
    if !TouchesPaddleTop(b, p) then (b, p)
    else
      var (b1, p1) := match PaddleHitKind(b, p, glue)
        case Catch => (b.(dir := ZERO), p.(caught := Some(i)))
        case CurveHit => (Curve(b, p, speed, norm), p)
        case LeftSideHit => (Ball(V2(PaddleLeft(p) - b.size, b.pos.y), V2(-b.dir.x, b.dir.y), b.size), p)
        case RightSideHit => (Ball(V2(PaddleRight(p) + b.size, b.pos.y), V2(-b.dir.x, b.dir.y), b.size), p);
      (b1.(pos := b1.pos.Add(b1.dir.Scale(dt))), p1)
  }

  /**
   * Lines 1202-1243: which component a brick hit flips. A ball moving along
   * an axis reverses along it; otherwise the path is intersected with the
   * brick side the ball travels towards, and a crossing inside the brick's
   * height (on the side the ball comes from) flips the horizontal component,
   * any other the vertical one.
   */
  function BrickBounce(b: Ball, br: Brick): (r: V2)
    ensures r == V2(-b.dir.x, b.dir.y) || r == V2(b.dir.x, -b.dir.y)
    ensures b.dir.x == 0.0 ==> r == V2(b.dir.x, -b.dir.y)
    ensures b.dir.x != 0.0 && b.dir.y == 0.0 ==> r == V2(-b.dir.x, b.dir.y)
    ensures b.dir.x != 0.0 && b.dir.y != 0.0 ==>
      var y := CrossY(b, BrickSide(b, br));
      (r == V2(-b.dir.x, b.dir.y) <==>
        (b.dir.y > 0.0 && y > br.pos.y - br.dim.y / 2.0) || (b.dir.y < 0.0 && y < br.pos.y + br.dim.y / 2.0))
    ensures Norm2(r) == Norm2(b.dir)
  {
    if b.dir.x == 0.0 then V2(b.dir.x, -b.dir.y)
    else if b.dir.y == 0.0 then V2(-b.dir.x, b.dir.y)
    else
      var side := BrickSide(b, br);
      var bot := V2(side, br.pos.y - br.dim.y / 2.0);
      var top := V2(side, br.pos.y + br.dim.y / 2.0);
      var hit := GetIntersection(b.pos, b.pos.Add(b.dir), bot, top);
      VerticalCrossing(b, side, bot.y, top.y);
      if (b.dir.y > 0.0 && hit.value.y > bot.y) || (b.dir.y < 0.0 && hit.value.y < top.y) then V2(-b.dir.x, b.dir.y)
      else V2(b.dir.x, -b.dir.y)
  }

  /** The brick side a ball moving sideways travels towards. */
  function BrickSide(b: Ball, br: Brick): real {
    if b.dir.x > 0.0 then br.pos.x - br.dim.x / 2.0 else br.pos.x + br.dim.x / 2.0
  }

  /** The height at which the ball's path crosses the vertical line at `side`. */
  function CrossY(b: Ball, side: real): real
    requires b.dir.x != 0.0
  {
    b.pos.y + (side - b.pos.x) * (b.dir.y / b.dir.x)
  }

  /** The intersection with a vertical segment lies on the segment's line at `CrossY`. */
  lemma VerticalCrossing(b: Ball, side: real, y0: real, y1: real)
    requires b.dir.x != 0.0
    ensures GetIntersection(b.pos, b.pos.Add(b.dir), V2(side, y0), V2(side, y1)) == Some(V2(side, CrossY(b, side)))
  {
    var p1 := b.pos.Add(b.dir);
    var p2 := p1.Sub(b.pos);
    assert p2 == b.dir;
    var g := GetIntersection(b.pos, p1, V2(side, y0), V2(side, y1));
    assert g.Some? && g.value.x == side;
    assert g.value.y == (side - b.pos.x) * (p2.y / p2.x) + b.pos.y;
    assert g.value.y == CrossY(b, side);
  }

  /** Lines 1199-1200: ball i overlaps brick k. */
  predicate BallOverlaps(w: World, i: nat, k: nat)
    requires i < |w.balls| && k < |w.bricks|
  {
    IsCircleInRect(w.balls[i].pos, w.balls[i].size, w.bricks[k].pos, w.bricks[k].dim)
  }

  /**
   * Lines 1196-1247 for ball i and brick j: an overlapped brick reflects the
   * ball, moves it on, and takes 2 damage. Returns the world and the next
   * brick index (j again when j was swap-removed).
   */
  function BallBrickStep(w: World, i: nat, j: nat, dt: real, rand: Oracle): (r: (World, nat))
    requires i < |w.balls| && j < |w.bricks|
    ensures r.0 == w.(balls := r.0.balls, bricks := r.0.bricks, powerups := r.0.powerups, draws := r.0.draws, sounds := r.0.sounds)
    ensures |r.0.balls| == |w.balls| && forall k :: 0 <= k < |w.balls| && k != i ==> r.0.balls[k] == w.balls[k]
    ensures r.0.balls[i].size == w.balls[i].size
    ensures (|r.0.bricks| == |w.bricks| - 1 && r.1 == j) || (|r.0.bricks| == |w.bricks| && r.1 == j + 1)
    ensures |w.powerups| <= POWERUPS_MAX ==> |r.0.powerups| <= POWERUPS_MAX
    ensures !BallOverlaps(w, i, j) ==> r == (w, j + 1)
    ensures BallOverlaps(w, i, j) ==>
      var b := w.balls[i];
      var d := BrickBounce(b, w.bricks[j]);
      var hit := HitBrick(w.(balls := w.balls[i := Ball(b.pos.Add(d.Scale(dt)), d, b.size)]), j, 2.0, BallHitSound, rand);
      r.0 == hit.0 && r.1 == hit.1 + 1
    ensures BallOverlaps(w, i, j) <==> r.0.sounds == w.sounds + [BallHitSound]
  {
    if BallOverlaps(w, i, j) then BallHit(w, i, j, dt, rand) else (w, j + 1)
  }

  /** Lines 1202-1247 for an overlapped brick j: the rebound, then 2 damage. */
  function BallHit(w: World, i: nat, j: nat, dt: real, rand: Oracle): (World, nat)
    requires i < |w.balls| && j < |w.bricks|
  {
    var (w1, next) := HitBrick(Rebound(w, i, j, dt), j, 2.0, BallHitSound, rand);
    (w1, next + 1)
  }

  /** Lines 1202-1245: ball i reflected off brick j and moved on by its new direction. */
  function Rebound(w: World, i: nat, j: nat, dt: real): World
    requires i < |w.balls| && j < |w.bricks|
  {
    var b := w.balls[i];
    var d := BrickBounce(b, w.bricks[j]);
    w.(balls := w.balls[i := Ball(b.pos.Add(d.Scale(dt)), d, b.size)])
  }

  /** Lines 1193-1249 for ball i: every brick it overlaps, in array order. */
  function BallBricks(w: World, i: nat, j: nat, dt: real, rand: Oracle): (r: World)
    requires i < |w.balls| && j <= |w.bricks|
    decreases |w.bricks| - j
    ensures r == w.(balls := r.balls, bricks := r.bricks, powerups := r.powerups, draws := r.draws, sounds := r.sounds)
    ensures |r.balls| == |w.balls| && forall k :: 0 <= k < |w.balls| && k != i ==> r.balls[k] == w.balls[k]
    ensures r.balls[i].size == w.balls[i].size
    ensures |r.bricks| <= |w.bricks|
    ensures |w.powerups| <= POWERUPS_MAX ==> |r.powerups| <= POWERUPS_MAX
  {
    if j == |w.bricks| then w
    else if BallOverlaps(w, i, j) then
      var (w1, next) := BallBrickStep(w, i, j, dt, rand);
      BallBricks(w1, i, next, dt, rand)
    else
      BallBricks(w, i, j + 1, dt, rand)
  }

  /** The brick scan only appends sounds. */
  lemma {:induction false} BallBricksSounds(w: World, i: nat, j: nat, dt: real, rand: Oracle)
    requires i < |w.balls| && j <= |w.bricks|
    ensures w.sounds <= BallBricks(w, i, j, dt, rand).sounds
    decreases |w.bricks| - j
  {
    if j < |w.bricks| {
      var (w1, next) := BallBrickStep(w, i, j, dt, rand);
      BallBricksSounds(w1, i, next, dt, rand);
    }
  }

  /** Ball i overlaps none of the bricks from j on. */
  predicate MissesFrom(w: World, i: nat, j: nat)
    requires i < |w.balls|
  {
    forall k :: j <= k < |w.bricks| ==> !BallOverlaps(w, i, k)
  }

  /** A scan over bricks the ball misses changes nothing. */
  lemma {:induction false} BallBricksMiss(w: World, i: nat, j: nat, dt: real, rand: Oracle)
    requires i < |w.balls| && j <= |w.bricks| && MissesFrom(w, i, j)
    ensures BallBricks(w, i, j, dt, rand) == w
    decreases |w.bricks| - j
  {
    if j < |w.bricks| {
      BallBricksSkip(w, i, j, dt, rand);
      BallBricksMiss(w, i, j + 1, dt, rand);
    }
  }

  /** The scan plays a sound, and so changes anything, exactly when ball i overlaps some brick from j on. */
  lemma {:induction false} BallBricksHitIff(w: World, i: nat, j: nat, dt: real, rand: Oracle)
    requires i < |w.balls| && j <= |w.bricks|
    ensures MissesFrom(w, i, j) <==> BallBricks(w, i, j, dt, rand) == w
    ensures MissesFrom(w, i, j) <==> BallBricks(w, i, j, dt, rand).sounds == w.sounds
    decreases |w.bricks| - j
  {
    if MissesFrom(w, i, j) {
      BallBricksMiss(w, i, j, dt, rand);
    } else if BallOverlaps(w, i, j) {
      BallBricksSoundAt(w, i, j, dt, rand);
    } else {
      BallBricksSkip(w, i, j, dt, rand);
      BallBricksHitIff(w, i, j + 1, dt, rand);
    }
  }

  /** A brick overlapped at j makes the scan play a sound. */
  lemma BallBricksSoundAt(w: World, i: nat, j: nat, dt: real, rand: Oracle)
    requires i < |w.balls| && j < |w.bricks| && BallOverlaps(w, i, j)
    ensures |BallBricks(w, i, j, dt, rand).sounds| > |w.sounds|
  {
    var (w1, next) := BallBrickStep(w, i, j, dt, rand);
    BallBricksSounds(w1, i, next, dt, rand);
  }

  /** A brick missed at j is skipped. */
  lemma BallBricksSkip(w: World, i: nat, j: nat, dt: real, rand: Oracle)
    requires i < |w.balls| && j < |w.bricks| && !BallOverlaps(w, i, j)
    ensures BallBricks(w, i, j, dt, rand) == BallBricks(w, i, j + 1, dt, rand)
  {
    assert BallBrickStep(w, i, j, dt, rand) == (w, j + 1);
  }

  /** The scan skips the bricks ball i misses and reaches the first one it overlaps unchanged. */
  lemma {:induction false} BallBricksFirstHit(w: World, i: nat, j: nat, k: nat, dt: real, rand: Oracle)
    requires i < |w.balls| && j <= k < |w.bricks|
    requires forall m :: j <= m < k ==> !BallOverlaps(w, i, m)
    ensures BallBricks(w, i, j, dt, rand) == BallBricks(w, i, k, dt, rand)
    decreases k - j
  {
    if j < k {
      BallBricksSkip(w, i, j, dt, rand);
      BallBricksFirstHit(w, i, j + 1, k, dt, rand);
    }
  }

  /** A brick overlapped at k is hit, and the scan goes on after it. */
  lemma BallBricksHitAt(w: World, i: nat, k: nat, dt: real, rand: Oracle)
    requires i < |w.balls| && k < |w.bricks| && BallOverlaps(w, i, k)
    ensures var (w1, next) := BallBrickStep(w, i, k, dt, rand);
      next <= |w1.bricks| && w1.sounds == w.sounds + [BallHitSound] &&
      BallBricks(w, i, k, dt, rand) == BallBricks(w1, i, next, dt, rand)
  {
  }

  /** Lines 1104-1105: a caught ball sits on the paddle's centre. */
  function Pin(b: Ball, p: Paddle): Ball {
    b.(pos := V2(p.pos.x, PaddleTop(p) + b.size))
  }

  /**
   * Lines 1107-1191 for a free ball i: it moves (or is pushed by the
   * paddle), bounces off the walls, and off the paddle, which may catch it.
   */
  function BallFly(w: World, i: nat, dt: real, move: real, norm: Rescale): (r: World)
    requires i < |w.balls|
    ensures r == w.(balls := r.balls, paddle := r.paddle)
    ensures |r.balls| == |w.balls| && forall k :: 0 <= k < |w.balls| && k != i ==> r.balls[k] == w.balls[k]
    ensures r.paddle == w.paddle || (w.paddle.caught.None? && r.paddle == w.paddle.(caught := Some(i)))
  {
    var glue := w.powerupTime > 0.0 && w.active == Glue;
    var b1 := ReflectWalls(MoveBall(w.balls[i], w.paddle, move, dt, w.ballsSpeed, norm));
    var (b2, p2) := PaddleBounce(b1, w.paddle, i, glue, w.ballsSpeed, dt, norm);
    w.(balls := w.balls[i := b2], paddle := p2)
  }

  /**
   * Lines 1092-1253 for ball i: below the screen it is swap-removed (and the
   * moved-in ball visited next); the caught ball is pinned; any other flies
   * and hits bricks. Returns the world and the next index.
   */
  function BallStep(w: World, i: nat, dt: real, move: real, norm: Rescale, rand: Oracle): (r: (World, nat))
    requires i < |w.balls|
    ensures r.0 == w.(balls := r.0.balls, paddle := r.0.paddle, bricks := r.0.bricks, powerups := r.0.powerups,
                      draws := r.0.draws, sounds := r.0.sounds)
    ensures (|r.0.balls| == |w.balls| - 1 && r.1 == i) || (|r.0.balls| == |w.balls| && r.1 == i + 1)
    ensures r.0.paddle == w.paddle || (w.paddle.caught.None? && r.0.paddle == w.paddle.(caught := Some(i)))
    ensures |r.0.bricks| <= |w.bricks|
    ensures |w.powerups| <= POWERUPS_MAX ==> |r.0.powerups| <= POWERUPS_MAX
    ensures var b := w.balls[i];
      (b.pos.y + b.size < -1.0 <==> |r.0.balls| == |w.balls| - 1) &&
      (b.pos.y + b.size < -1.0 ==> r.0 == w.(balls := SwapRemove(w.balls, i)))
    ensures var b := w.balls[i];
      b.pos.y + b.size >= -1.0 && w.paddle.caught == Some(i) ==> r.0 == w.(balls := w.balls[i := Pin(b, w.paddle)])
    ensures var b := w.balls[i];
      b.pos.y + b.size >= -1.0 && w.paddle.caught != Some(i) ==> r.0 == BallBricks(BallFly(w, i, dt, move, norm), i, 0, dt, rand)
  {
    var b := w.balls[i];
    if b.pos.y + b.size < -1.0 then
      (w.(balls := SwapRemove(w.balls, i)), i)
    else if w.paddle.caught == Some(i) then
      (w.(balls := w.balls[i := Pin(b, w.paddle)]), i + 1)
    else
      (BallBricks(BallFly(w, i, dt, move, norm), i, 0, dt, rand), i + 1)
  }

  /**
   * Lines 1090-1254: every ball is stepped once. The paddle changes at most
   * by catching a ball when none was caught, and then at a live slot.
   */
  function BallsPass(w: World, i: nat, dt: real, move: real, norm: Rescale, rand: Oracle): (r: World)
    requires i <= |w.balls|
    decreases |w.balls| - i
    ensures r == w.(balls := r.balls, paddle := r.paddle, bricks := r.bricks, powerups := r.powerups,
                    draws := r.draws, sounds := r.sounds)
    ensures r.paddle == w.paddle.(caught := r.paddle.caught)
    ensures r.paddle.caught == w.paddle.caught || (w.paddle.caught.None? && r.paddle.caught.Some? && r.paddle.caught.value < |w.balls|)
    ensures |r.balls| <= |w.balls| && |r.bricks| <= |w.bricks|
    ensures |w.powerups| <= POWERUPS_MAX ==> |r.powerups| <= POWERUPS_MAX
  {
    if i == |w.balls| then w
    else
      var (w1, next) := BallStep(w, i, dt, move, norm, rand);
      BallsPass(w1, next, dt, move, norm, rand)
  }

  // ------------------------------------------------------ shooter cooldown

  /**
   * Lines 1280-1292 (inside the drawing switch, but state): while the shooter
   * runs, a negative cooldown is reset to 0 so the next shot adds exactly
   * SHOOT_RATE, and a positive one counts down.
   */
  function Cooldown(w: World, dt: real): (r: World)
    ensures r == w.(shootTimeout := r.shootTimeout)
    ensures !(w.powerupTime > 0.0 && w.active == Shooter) ==> r == w
    ensures w.powerupTime > 0.0 && w.active == Shooter ==>
      (w.shootTimeout <= 0.0 ==> r.shootTimeout == 0.0) && (w.shootTimeout > 0.0 ==> r.shootTimeout == w.shootTimeout - dt)
  {
    if w.powerupTime > 0.0 && w.active == Shooter then
      if w.shootTimeout < 0.0 then w.(shootTimeout := 0.0)
      else if w.shootTimeout > 0.0 then w.(shootTimeout := w.shootTimeout - dt)
      else w
    else w
  }

  // --------------------------------------------------------------- pickups

  /** The direction of a split ball before scaling (lines 1342-1343): two draws, x then y. */
  function SplitDir(rand: Oracle, draws: nat): V2 {
    V2((rand(draws) + 1.0) / 2.0, rand(draws + 1) + 0.1)
  }

  /**
   * Lines 1339-1347 on the balls array: new balls at the first ball's place
   * until the pool is full, two oracle draws (from `draws` on) each.
   */
  function FillBalls(balls: seq<Ball>, speed: real, norm: Rescale, rand: Oracle, draws: nat): (r: seq<Ball>)
    requires 1 <= |balls| <= BALLS_MAX
    decreases BALLS_MAX - |balls|
    ensures |r| == BALLS_MAX && r[..|balls|] == balls
  {
    if |balls| == BALLS_MAX then balls
    else
      var b1 := balls + [NewBall(balls[0].pos, norm(SplitDir(rand, draws), speed))];
      var r := FillBalls(b1, speed, norm, rand, draws + 2);
      assert r[..|balls|] == r[..|b1|][..|balls|];
      r
  }

  /** The k-th ball of the fill is made at the first ball's place from draws 2(k - |balls|) on. */
  lemma {:induction false} FillBallsShape(balls: seq<Ball>, speed: real, norm: Rescale, rand: Oracle, draws: nat)
    requires 1 <= |balls| <= BALLS_MAX
    ensures forall k :: |balls| <= k < BALLS_MAX ==>
      FillBalls(balls, speed, norm, rand, draws)[k] == NewBall(balls[0].pos, norm(SplitDir(rand, draws + 2 * (k - |balls|)), speed))
    decreases BALLS_MAX - |balls|
  {
    if |balls| < BALLS_MAX {
      var b1 := balls + [NewBall(balls[0].pos, norm(SplitDir(rand, draws), speed))];
      FillBallsShape(b1, speed, norm, rand, draws + 2);
      var r := FillBalls(b1, speed, norm, rand, draws + 2);
      assert r[|balls|] == r[..|b1|][|balls|];
      assert b1[0] == balls[0];
    }
  }

  /** Lines 1339-1347: the split fill and the draws it uses. */
  function SplitFill(w: World, norm: Rescale, rand: Oracle): World
    requires 1 <= |w.balls| <= BALLS_MAX
  {
    w.(balls := FillBalls(w.balls, w.ballsSpeed, norm, rand, w.draws), draws := w.draws + 2 * (BALLS_MAX - |w.balls|))
  }

  /** Under the normalisation assumption every split ball moves at the ball speed. */
  lemma SplitBallsHaveBallSpeed(w: World, norm: Rescale, rand: Oracle, k: nat)
    requires 1 <= |w.balls| <= k < BALLS_MAX
    requires Rescales(norm) && IsOracle(rand) && w.ballsSpeed >= 0.0
    ensures Norm2(SplitFill(w, norm, rand).balls[k].dir) == w.ballsSpeed * w.ballsSpeed
  {
    var d := SplitDir(rand, w.draws + 2 * (k - |w.balls|));
    assert 0.0 <= rand(w.draws + 2 * (k - |w.balls|));
    assert d != ZERO;
    var v := norm(d, w.ballsSpeed);
    assert Norm2(v) == w.ballsSpeed * w.ballsSpeed;
    FillBallsShape(w.balls, w.ballsSpeed, norm, rand, w.draws);
    assert FillBalls(w.balls, w.ballsSpeed, norm, rand, w.draws)[k] == NewBall(w.balls[0].pos, v);
  }

  /**
   * Lines 1323-1360: picking up a powerup makes it the active effect with its
   * configured duration, first collapsing leftover split balls to one; split
   * then fills the pool (if a ball exists), shooter resets the cooldown.
   */
  function Pickup(w: World, kind: PowerupType, norm: Rescale, rand: Oracle): (r: World)
    requires |w.balls| <= BALLS_MAX
    ensures r == w.(active := kind, powerupTime := Duration(w.config, kind), balls := r.balls,
                    shootTimeout := r.shootTimeout, draws := r.draws, sounds := w.sounds + [PowerupSound])
    ensures r.shootTimeout == if kind == Shooter then 0.0 else w.shootTimeout
    ensures kind == Split && |w.balls| > 0 ==>
      |r.balls| == BALLS_MAX && r.balls[0] == w.balls[0] &&
      forall k :: 1 <= k < BALLS_MAX ==> r.balls[k].pos == w.balls[0].pos
    ensures kind == Split && |w.balls| == 0 ==> r.balls == [] && r.draws == w.draws
    ensures kind != Split ==> r.balls == (if |w.balls| > 1 then [w.balls[0]] else w.balls) && r.draws == w.draws
  {
    var w1 := Collapse(w, kind);
    if kind == Split && |w1.balls| > 0 then
      FillBallsShape(w1.balls, w1.ballsSpeed, norm, rand, w1.draws);
      Effect(w1, kind, norm, rand)
    else
      Effect(w1, kind, norm, rand)
  }

  /** Lines 1323-1330: the pickup sound, the new effect, leftover split balls collapsed to one. */
  function Collapse(w: World, kind: PowerupType): (r: World)
    ensures r == w.(sounds := w.sounds + [PowerupSound], active := kind, balls := r.balls)
    ensures r.balls == if |w.balls| > 1 then [w.balls[0]] else w.balls
  {
    var w1 := w.(sounds := w.sounds + [PowerupSound], active := kind);
    if |w1.balls| > 1 then w1.(balls := w1.balls[..1]) else w1
  }

  /** Lines 1332-1358: the effect's duration, and what split and shooter start. */
  function Effect(w: World, kind: PowerupType, norm: Rescale, rand: Oracle): (r: World)
    requires |w.balls| <= BALLS_MAX
    ensures r == w.(powerupTime := Duration(w.config, kind), balls := r.balls, shootTimeout := r.shootTimeout, draws := r.draws)
  {
    match kind
    case Split =>
      var w1 := w.(powerupTime := w.config.splitTime);
      if |w1.balls| > 0 then SplitFill(w1, norm, rand) else w1
    case Glue => w.(powerupTime := w.config.glueTime)
    case Shooter => w.(shootTimeout := 0.0, powerupTime := w.config.shooterTime)
  }

  predicate Picked(pw: Powerup, p: Paddle) {
    IsCircleInRect(pw.pos, pw.dim.x / 2.0, p.pos, p.dim)
  }

  function Advance(pw: Powerup, dt: real): Powerup {
    pw.(pos := pw.pos.Add(pw.dir.Scale(dt)))
  }

  /**
   * Lines 1316-1366 for powerup i, corrected: touching the paddle it is
   * picked up and swap-removed (the moved-in one visited next); otherwise it
   * drifts on. Returns the world and the next index.
   */
  function PowerupStep(w: World, i: nat, dt: real, norm: Rescale, rand: Oracle): (r: (World, nat))
    requires |w.balls| <= BALLS_MAX && i < |w.powerups|
    ensures r.0 == w.(powerups := r.0.powerups, active := r.0.active, powerupTime := r.0.powerupTime, balls := r.0.balls,
                      shootTimeout := r.0.shootTimeout, draws := r.0.draws, sounds := r.0.sounds)
    ensures (|r.0.powerups| == |w.powerups| - 1 && r.1 == i) || (|r.0.powerups| == |w.powerups| && r.1 == i + 1)
    ensures |r.0.balls| <= BALLS_MAX
    ensures Picked(w.powerups[i], w.paddle) <==> |r.0.powerups| == |w.powerups| - 1
    ensures Picked(w.powerups[i], w.paddle) ==>
      r.0 == Pickup(w, w.powerups[i].kind, norm, rand).(powerups := SwapRemove(w.powerups, i))
    ensures !Picked(w.powerups[i], w.paddle) ==> r.0 == w.(powerups := w.powerups[i := Advance(w.powerups[i], dt)])
  {
    var pw := w.powerups[i];
    if Picked(pw, w.paddle) then
      var w1 := Pickup(w, pw.kind, norm, rand);
      (w1.(powerups := SwapRemove(w1.powerups, i)), i)
    else
      (w.(powerups := w.powerups[i := Advance(pw, dt)]), i + 1)
  }

  /** Lines 1314-1368, corrected: every powerup is stepped once. */
  function PowerupsPass(w: World, i: nat, dt: real, norm: Rescale, rand: Oracle): (r: World)
    requires |w.balls| <= BALLS_MAX && i <= |w.powerups|
    decreases |w.powerups| - i
    ensures r == w.(powerups := r.powerups, active := r.active, powerupTime := r.powerupTime, balls := r.balls,
                    shootTimeout := r.shootTimeout, draws := r.draws, sounds := r.sounds)
    ensures |r.powerups| <= |w.powerups| && |r.balls| <= BALLS_MAX
  {
    if i == |w.powerups| then w
    else
      var (w1, next) := PowerupStep(w, i, dt, norm, rand);
      PowerupsPass(w1, next, dt, norm, rand)
  }

  /** The powerups that stay in play, each moved once. */
  function Kept(ps: seq<Powerup>, p: Paddle, dt: real): seq<Powerup> {
    if ps == [] then []
    else (if Picked(ps[0], p) then [] else [Advance(ps[0], dt)]) + Kept(ps[1..], p, dt)
  }

  /** Kept walks the sequence front to back, so it distributes over appending one powerup. */
  lemma {:induction false} KeptSplit(a: seq<Powerup>, x: Powerup, p: Paddle, dt: real)
    ensures Kept(a + [x], p, dt) == Kept(a, p, dt) + (if Picked(x, p) then [] else [Advance(x, dt)])
    decreases |a|
  {
    if a == [] {
      assert a + [x] == [x] && [x][1..] == [];
    } else {
      assert (a + [x])[0] == a[0] && (a + [x])[1..] == a[1..] + [x];
      KeptSplit(a[1..], x, p, dt);
    }
  }

  /** Removing a picked-up powerup at i leaves the prefix and the kept rest unchanged. */
  lemma KeptAfterPickup(ps: seq<Powerup>, i: nat, p: Paddle, dt: real)
    requires i < |ps| && Picked(ps[i], p)
    ensures SwapRemove(ps, i)[..i] == ps[..i]
    ensures multiset(Kept(SwapRemove(ps, i)[i..], p, dt)) == multiset(Kept(ps[i..], p, dt))
  {
    var last := |ps| - 1;
    var r := SwapRemove(ps, i);
    assert r[..i] == ps[..i];
    assert ps[i..][0] == ps[i] && ps[i..][1..] == ps[i + 1..];
    assert Kept(ps[i..], p, dt) == Kept(ps[i + 1..], p, dt);
    if i < last {
      var mid := ps[i + 1..last];
      var h := if Picked(ps[last], p) then [] else [Advance(ps[last], dt)];
      assert ps[i + 1..] == mid + [ps[last]];
      KeptSplit(mid, ps[last], p, dt);
      assert r[i..][0] == ps[last] && r[i..][1..] == mid;
      assert Kept(r[i..], p, dt) == h + Kept(mid, p, dt);
      assert multiset(h + Kept(mid, p, dt)) == multiset(Kept(mid, p, dt) + h);
    } else {
      assert r[i..] == [] && ps[i + 1..] == [];
    }
  }

  /** Advancing an unpicked powerup at i moves it from the kept rest to the prefix. */
  lemma KeptAfterAdvance(ps: seq<Powerup>, i: nat, p: Paddle, dt: real)
    requires i < |ps| && !Picked(ps[i], p)
    ensures var r := ps[i := Advance(ps[i], dt)];
      multiset(r[..i + 1]) + multiset(Kept(r[i + 1..], p, dt)) == multiset(ps[..i]) + multiset(Kept(ps[i..], p, dt))
  {
    var r := ps[i := Advance(ps[i], dt)];
    assert ps[i..] == [ps[i]] + ps[i + 1..];
    assert r[..i + 1] == ps[..i] + [Advance(ps[i], dt)];
    assert r[i + 1..] == ps[i + 1..];
  }

  /**
   * The evidently intended effect of the powerup loop: exactly the powerups
   * not picked up stay, each moved by one step (in some order).
   */
  lemma {:induction false} PowerupsPassKeepsUnpicked(w: World, i: nat, dt: real, norm: Rescale, rand: Oracle)
    requires |w.balls| <= BALLS_MAX && i <= |w.powerups|
    ensures multiset(PowerupsPass(w, i, dt, norm, rand).powerups) ==
      multiset(w.powerups[..i]) + multiset(Kept(w.powerups[i..], w.paddle, dt))
    decreases |w.powerups| - i
  {
    if i == |w.powerups| {
      assert w.powerups[..i] == w.powerups;
    } else {
      var (w1, next) := PowerupStep(w, i, dt, norm, rand);
      assert PowerupsPass(w, i, dt, norm, rand) == PowerupsPass(w1, next, dt, norm, rand);
      PowerupsPassKeepsUnpicked(w1, next, dt, norm, rand);
      if Picked(w.powerups[i], w.paddle) {
        assert w1.powerups == SwapRemove(w.powerups, i) && w1.paddle == w.paddle;
        KeptAfterPickup(w.powerups, i, w.paddle, dt);
      } else {
        assert w1.powerups == w.powerups[i := Advance(w.powerups[i], dt)];
        KeptAfterAdvance(w.powerups, i, w.paddle, dt);
      }
    }
  }

  // --------------------------------------------------- loops as written

  /**
   * The state of the bullet loop as written: the world (whose bullets field
   * is not used), the bullet array's slots, the live count and the loop
   * index; or a write outside the array.
   */
  datatype BulletScan = BulletScan(w: World, slots: seq<Bullet>, count: int, index: int) | BulletsOutOfBounds

  /**
   * Lines 1073-1086 as written, for the bullet in `slot`: the brick loop
   * goes on after a hit, with the slot now holding another bullet, and each
   * further hit swap-removes again at the already decremented index.
   */
  function BulletBricksAsWritten(s: BulletScan, slot: nat, j: nat, rand: Oracle): BulletScan
    decreases if s.BulletScan? then |s.w.bricks| - j else 0
  {
    if s.BulletsOutOfBounds? || j >= |s.w.bricks| then s
    else if slot >= |s.slots| then BulletsOutOfBounds
    else
      var b := s.slots[slot];
      if IsRectInRect(b.pos, V2(b.size, b.size), s.w.bricks[j].pos, s.w.bricks[j].dim) then
        var (w1, next) := HitBrick(s.w, j, 1.0, ShootHitSound, rand);
        var count := s.count - 1;
        if 0 <= s.index < |s.slots| && 0 <= count < |s.slots| then
          BulletBricksAsWritten(BulletScan(w1, s.slots[s.index := s.slots[count]], count, s.index - 1), slot, next + 1, rand)
        else
          BulletsOutOfBounds
      else
        BulletBricksAsWritten(s, slot, j + 1, rand)
  }

  /**
   * Two full-health bricks one map column apart, with a bullet over each:
   * as written, bullet 0 damages the first brick, is swap-removed, and the
   * scan goes on with bullet 1, now in slot 0, which hits the second brick
   * and is removed again at slot -1. Corrected, bullet 0 hits once.
   */
  lemma StaleBulletCounterexample(w: World, rand: Oracle)
    requires w.bricks == [Brick(ZERO, V2(DEFAULT_BRICK_WIDTH, DEFAULT_BRICK_HEIGHT), 5.0),
                          Brick(V2(COLUMN_STEP, 0.0), V2(DEFAULT_BRICK_WIDTH, DEFAULT_BRICK_HEIGHT), 5.0)]
    ensures BulletBricksAsWritten(BulletScan(w, TwoBulletSlots(), 2, 0), 0, 0, rand) == BulletsOutOfBounds
    ensures var r := BulletBricks(w.(bullets := TwoBulletSlots()[..2]), 0, 0, rand);
      r.1 && r.0.sounds == w.sounds + [ShootHitSound] && r.0.bricks[1] == w.bricks[1]
  {
    var slots := TwoBulletSlots();
    var (w1, next) := HitBrick(w, 0, 1.0, ShootHitSound, rand);
    assert next == 0 && |w1.bricks| == 2 && w1.bricks[1] == w.bricks[1];
    assert BulletBricksAsWritten(BulletScan(w, slots, 2, 0), 0, 0, rand)
        == BulletBricksAsWritten(BulletScan(w1, slots[0 := slots[1]], 1, -1), 0, 1, rand);
  }

  /** The bullet array holding one bullet at the first brick and one at the second. */
  function TwoBulletSlots(): (r: seq<Bullet>)
    ensures |r| == BULLETS_MAX && r[0] == NewBullet(ZERO) && r[1] == NewBullet(V2(COLUMN_STEP, 0.0))
  {
    seq(BULLETS_MAX, k => if k == 1 then NewBullet(V2(COLUMN_STEP, 0.0)) else NewBullet(ZERO))
  }

  /**
   * Lines 1314-1368 as written, on the powerup pool's slots: after the
   * swap-remove of a picked-up powerup, line 1365 still moves the powerup
   * now in slot i, and the loop then visits that slot again. (The effects of
   * the pickup itself are those of `Pickup`.)
   */
  function PowerupSlotsAsWritten(slots: seq<Powerup>, count: nat, i: nat, p: Paddle, dt: real): seq<Powerup>
    requires count <= |slots|
    decreases count - i
  {
    if i >= count then slots[..count]
    else if Picked(slots[i], p) then
      var s1 := slots[i := slots[count - 1]];
      PowerupSlotsAsWritten(s1[i := Advance(s1[i], dt)], count - 1, i, p, dt)
    else
      PowerupSlotsAsWritten(slots[i := Advance(slots[i], dt)], count, i + 1, p, dt)
  }

  /**
   * A falling powerup behind one being picked up moves twice in that frame
   * as written, once with the intended loop.
   */
  lemma PowerupDoubleMoveCounterexample()
    ensures var picked := NewPowerup(Glue, PADDLE_START.pos);
      var falling := NewPowerup(Glue, V2(0.8, 0.5));
      PowerupSlotsAsWritten([picked, falling], 2, 0, PADDLE_START, 1.0) == [NewPowerup(Glue, V2(0.8, -1.0))] &&
      Kept([picked, falling], PADDLE_START, 1.0) == [NewPowerup(Glue, V2(0.8, -0.25))]
  {
    var picked := NewPowerup(Glue, PADDLE_START.pos);
    var falling := NewPowerup(Glue, V2(0.8, 0.5));
    assert Picked(picked, PADDLE_START);
    assert !Picked(Advance(falling, 1.0), PADDLE_START);
    assert !Picked(falling, PADDLE_START);
    assert [picked, falling][1..] == [falling];
    assert Kept([falling], PADDLE_START, 1.0) == [Advance(falling, 1.0)] + Kept([falling][1..], PADDLE_START, 1.0);
    assert [falling][1..] == [];
  }

  // ----------------------------------------------------------------- frame

  /**
   * Lines 984-1368, the simulation of a running round, in this order:
   * powerup expiry, shooting, the paddle, the bullets, the balls, the
   * shooter cooldown and the falling powerups with their pickups.
   * The capacities hold throughout, and the mode, score, lives and settings
   * are left alone.
   */
  function Play(w: World, dt: real, norm: Rescale, rand: Oracle): (r: World)
    requires Fits(w) && |w.balls| >= 1
    ensures Fits(r)
    ensures r.mode == w.mode && r.score == w.score && r.lives == w.lives && r.config == w.config
  {
    var w1 := Shoot(ExpirePowerup(w, dt));
    assert Fits(w1);
    var move := PaddleMove(w1.paddle, w1.inputLeft, w1.inputRight, dt);
    var w2 := BulletsPass(MovePaddle(w1, move), 0, dt, rand);
    assert Fits(w2);
    var w3 := Cooldown(BallsPass(w2, 0, dt, move, norm, rand), dt);
    assert Fits(w3);
    PowerupsPass(w3, 0, dt, norm, rand)
  }

  /** One pass of `main`'s loop body after the event polling (lines 926-1368). */
  function Frame(w: World, dt: real, text: seq<char>, norm: Rescale, rand: Oracle): (r: World)
    requires Fits(w)
    ensures Fits(r)
    ensures w.mode != Started ==> r == WaitStep(w, dt, text)
    ensures w.mode == Started && !RoundCheck(w).1 ==> r == RoundCheck(w).0
    ensures w.mode == Started && |w.balls| == 0 && w.lives > 0 ==> r.lives == w.lives - 1 && r.mode == Started
    ensures w.mode == Started && RoundCheck(w).1 ==>
      r.mode == Started && r.score == w.score && r.lives == RoundCheck(w).0.lives
    ensures w.mode == Started ==> r.config == w.config
  {
    if w.mode != Started then WaitStep(w, dt, text)
    else
      var (w1, goOn) := RoundCheck(w);
      if !goOn then w1 else Play(w1, dt, norm, rand)
  }
}

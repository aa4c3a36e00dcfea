/**
 * The GameState of src/bricks.cpp as an object updated in place: its scalar
 * fields, the paddle, the three fixed-size entity arrays with their counts,
 * and the brick array. Each method performs one step of the frame and leaves
 * the state that the matching `Rules` function computes from the old state,
 * so what is proved about `Rules` holds of the object.
 */
module Game {
  import opened Wrappers
  import opened Geometry
  import opened Entities
  import opened Pools
  import opened Level
  import opened Settings
  import opened Rules

  class GameState {
    var mode: GameMode
    var active: PowerupType
    var powerupTime: real
    var waitTime: real
    var shootTimeout: real
    var ballsSpeed: real
    var lives: int
    var score: int
    var inputShoot: bool
    var inputLeft: bool
    var inputRight: bool
    var config: Config
    var paddle: Paddle
    const balls: Pool<Ball>
    const bullets: Pool<Bullet>
    const powerups: Pool<Powerup>
    var bricks: BrickArray
    /** How many `rand32()` values have been used, and the sounds played, in order. */
    var draws: nat
    var sounds: seq<Sound>
    /** The values `rand32()` returns. */
    const rand: Oracle

    ghost predicate Valid()
      reads this, balls, bullets, powerups, bricks
    {
      balls.Valid() && balls.items.Length == BALLS_MAX &&
      bullets.Valid() && bullets.items.Length == BULLETS_MAX &&
      powerups.Valid() && powerups.items.Length == POWERUPS_MAX &&
      bricks.Valid() &&
      (paddle.caught.Some? ==> paddle.caught.value < BALLS_MAX)
    }

    /** The state as a `Rules.World`. */
    ghost function View(): (w: World)
      reads this, balls, balls.items, bullets, bullets.items, powerups, powerups.items, bricks, bricks.items
      requires Valid()
    {
      World(mode, active, powerupTime, waitTime, shootTimeout, ballsSpeed, lives, score,
            inputShoot, inputLeft, inputRight, config, paddle,
            balls.Live(), bullets.Live(), powerups.Live(), bricks.Live(), bricks.max, draws, sounds)
    }

    /** A zeroed GameState given the settings, then `new_game` and `new_level` (the start of `main`). */
    constructor (config: Config, text: seq<char>, rand: Oracle)
      ensures Valid() && View() == Rules.Start(config, text)
    {
      mode := Starting;
      active := Shooter;
      powerupTime := 0.0;
      waitTime := 0.0;
      shootTimeout := 0.0;
      ballsSpeed := 0.0;
      lives := 0;
      score := 0;
      inputShoot := false;
      inputLeft := false;
      inputRight := false;
      this.config := config;
      paddle := Paddle(ZERO, ZERO, 0.0, None);
      balls := new Pool<Ball>(BALLS_MAX);
      bullets := new Pool<Bullet>(BULLETS_MAX);
      powerups := new Pool<Powerup>(POWERUPS_MAX);
      bricks := new BrickArray();
      draws := 0;
      sounds := [];
      this.rand := rand;
      new;
      NewGame();
      NewLevel(text);
    }

    /** `new_game`. */
    method NewGame()
      requires Valid()
      modifies this
      ensures Valid() && bricks == old(bricks) && View() == Rules.NewGame(old(View()))
    {
      ballsSpeed := BALLS_SPEED_INIT;
      lives := config.livesInit;
      score := 0;
    }

    /** `new_level`: the old brick array is dropped and the map loaded afresh. */
    method NewLevel(text: seq<char>)
      requires Valid()
      modifies this, balls, balls.items, bullets, powerups
      ensures Valid() && View() == Rules.NewLevel(old(View()), text) && fresh(bricks)
    {
      ClearPools();
      bricks := LoadMap(text);
      AddBall(DefaultBall());
      paddle := PADDLE_START;
    }

    /** The start of `new_level`: the mode, the effect timer and the entity pools. */
    method ClearPools()
      requires Valid()
      modifies this, balls, bullets, powerups
      ensures Valid() && bricks == old(bricks)
      ensures View() == old(View()).(mode := Started, powerupTime := 0.0, balls := [], bullets := [], powerups := [])
    {
      mode := Started;
      powerupTime := 0.0;
      EmptyPools();
    }

    /** The three entity arrays emptied. */
    method EmptyPools()
      requires balls.Valid() && bullets.Valid() && powerups.Valid()
      modifies balls, bullets, powerups
      ensures balls.Valid() && bullets.Valid() && powerups.Valid()
      ensures balls.Live() == [] && bullets.Live() == [] && powerups.Live() == []
    {
      balls.Truncate(0);
      bullets.Truncate(0);
      powerups.Truncate(0);
    }

    /** Lines 926-941. */
    method Wait(dt: real)
      requires Valid()
      modifies this
      ensures Valid() && bricks == old(bricks) && View() == Rules.Wait(old(View()), dt)
    {
      waitTime := waitTime - dt;
      if mode == Win {
        paddle := paddle.(pos := V2(paddle.pos.x, paddle.pos.y + dt * 1.1));
      }
    }

    /** Lines 926-958. */
    method WaitStep(dt: real, text: seq<char>)
      requires Valid() && mode != Started
      modifies this, balls, balls.items, bullets, powerups
      ensures Valid() && View() == Rules.WaitStep(old(View()), dt, text)
    {
      Wait(dt);
      if waitTime <= 0.0 {
        ballsSpeed := ballsSpeed + BALLS_SPEED_INCREASE;
        NewLevel(text);
      }
    }

    /** Lines 962-968: a lost last ball costs a life and gives a new caught ball. */
    method LoseLife()
      requires Valid() && balls.count == 0
      modifies this, balls, balls.items
      ensures Valid() && bricks == old(bricks)
      ensures var w := old(View());
        View() == w.(lives := w.lives - 1, balls := [DefaultBall()], paddle := w.paddle.(caught := Some(0)))
    {
      AddBall(DefaultBall());
      lives, paddle := lives - 1, paddle.(caught := Some(0));
    }

    /** Lines 969-973: no life left ends the game. */
    method GameOver()
      requires Valid()
      modifies this
      ensures Valid() && bricks == old(bricks)
      ensures View() == Rules.NewGame(old(View()).(mode := Over, waitTime := DEFAULT_GAME_WAIT_TIME))
    {
      mode := Over;
      waitTime := DEFAULT_GAME_WAIT_TIME;
      NewGame();
    }

    /** Lines 960-982: whether the rest of the frame runs. */
    method RoundCheck() returns (goOn: bool)
      requires Valid()
      modifies this, balls, balls.items
      ensures Valid() && bricks == old(bricks)
      ensures (View(), goOn) == Rules.RoundCheck(old(View()))
    {
      if balls.count == 0 {
        if lives > 0 {
          LoseLife();
          goOn := true;
        } else {
          GameOver();
          goOn := false;
        }
      } else if bricks.count == 0 {
        mode := Win;
        waitTime := DEFAULT_GAME_WAIT_TIME;
        score := score + 1;
        goOn := false;
      } else {
        goOn := true;
      }
    }

    /** Lines 987-997. */
    method ExpirePowerup(dt: real)
      requires Valid() && balls.count >= 1
      modifies this, balls
      ensures Valid() && bricks == old(bricks) && View() == Rules.ExpirePowerup(old(View()), dt)
    {
      if powerupTime > 0.0 {
        powerupTime := powerupTime - dt;
        if powerupTime <= 0.0 && active == Split {
          balls.Truncate(1);
        }
      }
    }

    /** Lines 1002-1008: the caught ball leaves straight up, even from a slot no longer live. */
    method Launch()
      requires Valid() && inputShoot && paddle.caught.Some?
      modifies this, balls.items
      ensures Valid() && bricks == old(bricks) && View() == Rules.Shoot(old(View()))
    {
      var i := paddle.caught.value;
      inputShoot := false;
      balls.Set(i, balls.items[i].(dir := V2(0.0, ballsSpeed)));
      paddle := paddle.(caught := None);
    }

    /** Lines 1009-1032. */
    method Fire()
      requires Valid() && bullets.count < BULLETS_MAX - 1
      modifies this, bullets, bullets.items
      ensures Valid() && bricks == old(bricks) && View() == Rules.Fire(old(View()))
    {
      var left := NewBullet(V2(paddle.pos.x - paddle.dim.x / 2.0, paddle.pos.y));
      var right := NewBullet(V2(paddle.pos.x + paddle.dim.x / 2.0, paddle.pos.y));
      AddBullets(left, right);
      CountShot();
    }

    /** Lines 1014-1015: the shot's sound (one draw) and the cooldown. */
    method CountShot()
      requires Valid()
      modifies this
      ensures Valid() && bricks == old(bricks)
      ensures View() == old(View()).(draws := old(draws) + 1, sounds := old(sounds) + [ShootSound],
                                     shootTimeout := old(shootTimeout) + SHOOT_RATE)
    {
      draws, sounds, shootTimeout := draws + 1, sounds + [ShootSound], shootTimeout + SHOOT_RATE;
    }

    /** Two bullets into the bullet array. */
    method AddBullets(left: Bullet, right: Bullet)
      requires bullets.Valid() && bullets.count < bullets.items.Length - 1
      modifies bullets, bullets.items
      ensures bullets.Valid() && bullets.Live() == old(bullets.Live()) + [left] + [right]
    {
      bullets.Push(left);
      bullets.Push(right);
    }

    /** Lines 999-1033. */
    method Shoot()
      requires Valid()
      modifies this, balls.items, bullets, bullets.items
      ensures Valid() && bricks == old(bricks) && View() == Rules.Shoot(old(View()))
    {
      if inputShoot {
        if paddle.caught.Some? {
          Launch();
        } else if shootTimeout <= 0.0 && powerupTime > 0.0 && active == Shooter && bullets.count < BULLETS_MAX - 1 {
          Fire();
        }
      }
    }

    /** Lines 1045-1054. */
    method MovePaddle(move: real)
      requires Valid()
      modifies this
      ensures Valid() && bricks == old(bricks) && View() == Rules.MovePaddle(old(View()), move)
    {
      var x := paddle.pos.x + move;
      if x - paddle.dim.x / 2.0 < -1.0 {
        x := -1.0 + paddle.dim.x / 2.0;
      } else if x + paddle.dim.x / 2.0 > 1.0 {
        x := 1.0 - paddle.dim.x / 2.0;
      }
      paddle := paddle.(pos := V2(x, paddle.pos.y));
    }

    /** Lines 721-726; whether brick j is destroyed. */
    method DamageBrick(j: nat, damage: real, sound: Sound) returns (dead: bool)
      requires Valid() && j < bricks.count
      modifies this, bricks.items
      ensures Valid() && bricks == old(bricks) && bricks.items == old(bricks.items)
      ensures View() == Rules.Damage(old(View()), j, damage, sound) && dead == (View().bricks[j].health <= 0.0)
    {
      var b := bricks.items[j];
      b := b.(health := b.health - damage);
      bricks.Set(j, b);
      draws, sounds := draws + 1, sounds + [sound];
      dead := b.health <= 0.0;
    }

    /**
     * Lines 730-745 on the powerup array alone: starting at oracle position
     * `d`, the rolls for a destroyed brick at `pos`; returns the position
     * afterwards.
     */
    method RollPowerups(pos: V2, d: nat) returns (next: nat)
      requires powerups.Valid() && powerups.items.Length == POWERUPS_MAX
      modifies powerups, powerups.items
      ensures powerups.Valid() && (powerups.Live(), next) == Spawn(old(powerups.Live()), SPAWN_ORDER, pos, config, rand, d)
    {
      var at := pos;
      var t := 0;
      next := d;
      while t < |SPAWN_ORDER| && powerups.count < POWERUPS_MAX
        invariant powerups.Valid() && 0 <= t <= |SPAWN_ORDER|
        invariant Spawn(powerups.Live(), SPAWN_ORDER[t..], at, config, rand, next) ==
                  Spawn(old(powerups.Live()), SPAWN_ORDER, pos, config, rand, d)
      {
        var kind := SPAWN_ORDER[t];
        var roll := rand(next);
        next := next + 1;
        if roll < Chance(config, kind) {
          powerups.Push(NewPowerup(kind, at));
          at := V2(at.x, at.y - DEFAULT_POWERUP_SIZE);
        }
        assert SPAWN_ORDER[t..][1..] == SPAWN_ORDER[t + 1..];
        t := t + 1;
      }
    }

    /** Lines 730-745: the powerup rolls for a destroyed brick at `pos`. */
    method SpawnPowerups(pos: V2)
      requires Valid()
      modifies this, powerups, powerups.items
      ensures Valid() && bricks == old(bricks)
      ensures var w := old(View());
        var s := Spawn(w.powerups, SPAWN_ORDER, pos, w.config, rand, w.draws);
        View() == w.(powerups := s.0, draws := s.1)
    {
      draws := RollPowerups(pos, draws);
    }

    /** Lines 747-748: the swap-remove of brick j; returns the rewound index. */
    method RemoveBrick(j: nat) returns (next: int)
      requires Valid() && j < bricks.count
      modifies bricks, bricks.items
      ensures Valid() && bricks == old(bricks) && bricks.items == old(bricks.items)
      ensures View() == old(View()).(bricks := SwapRemove(old(View()).bricks, j)) && next == j - 1
    {
      next := bricks.RemoveAt(j);
    }

    /** Lines 728-749; returns the rewound brick index. */
    method DestroyBrick(j: nat) returns (next: int)
      requires Valid() && j < bricks.count
      modifies this, bricks, bricks.items, powerups, powerups.items
      ensures Valid() && bricks == old(bricks) && bricks.items == old(bricks.items)
      ensures (View(), next) == Rules.Destroy(old(View()), j, rand)
    {
      ghost var w := View();
      var pos := bricks.items[j].pos;
      SpawnPowerups(pos);
      ghost var s := Spawn(w.powerups, SPAWN_ORDER, pos, config, rand, w.draws);
      assert View() == w.(powerups := s.0, draws := s.1);
      next := RemoveBrick(j);
    }

    /** `hit_brick` (lines 718-750); returns the rewound brick index. */
    method HitBrick(j: nat, damage: real, sound: Sound) returns (next: int)
      requires Valid() && j < bricks.count
      modifies this, bricks, bricks.items, powerups, powerups.items
      ensures Valid() && bricks == old(bricks) && bricks.items == old(bricks.items)
      ensures (View(), next) == Rules.HitBrick(old(View()), j, damage, sound, rand)
    {
      var dead := DamageBrick(j, damage, sound);
      next := j;
      if dead {
        next := DestroyBrick(j);
      }
    }

    /** Lines 1073-1086 for bullet i, corrected: the brick scan stops at the first hit. */
    method BulletBricks(i: nat) returns (hit: bool)
      requires Valid() && i < bullets.count
      modifies this, bricks, bricks.items, powerups, powerups.items
      ensures Valid() && bricks == old(bricks) && bricks.items == old(bricks.items) && bullets.count == old(bullets.count)
      ensures (View(), hit) == Rules.BulletBricks(old(View()), i, 0, rand)
    {
      var b := bullets.items[i];
      var j := 0;
      hit := false;
      while j < bricks.count && !hit
        invariant Valid() && bricks == old(bricks) && bricks.items == old(bricks.items) && bullets.count == old(bullets.count) && 0 <= j
        invariant bullets.Live() == old(bullets.Live()) && b == bullets.Live()[i]
        invariant !hit ==> Rules.BulletBricks(View(), i, j, rand) == Rules.BulletBricks(old(View()), i, 0, rand)
        invariant hit ==> (View(), true) == Rules.BulletBricks(old(View()), i, 0, rand)
        decreases bricks.count - j, if hit then 0 else 1
      {
        var br := bricks.items[j];
        if IsRectInRect(b.pos, V2(b.size, b.size), br.pos, br.dim) {
          var _ := HitBrick(j, 1.0, ShootHitSound);
          hit := true;
        } else {
          j := j + 1;
        }
      }
    }

    /** Line 1061. */
    method FlyBullet(i: nat, dt: real)
      requires Valid() && i < bullets.count
      modifies bullets.items
      ensures Valid() && View() == old(View()).(bullets := old(View()).bullets[i := Fly(old(View()).bullets[i], dt)])
    {
      bullets.Set(i, Fly(bullets.items[i], dt));
    }

    /** `bullets[i--] = bullets[--bullets_count]`. */
    method RemoveBullet(i: nat)
      requires Valid() && i < bullets.count
      modifies bullets, bullets.items
      ensures Valid() && View() == old(View()).(bullets := SwapRemove(old(View()).bullets, i))
    {
      var _ := bullets.RemoveAt(i);
    }

    /** Lines 1059-1087 for bullet i, corrected; returns the next index. */
    method BulletStep(i: nat, dt: real) returns (next: nat)
      requires Valid() && i < bullets.count
      modifies this, bullets, bullets.items, bricks, bricks.items, powerups, powerups.items
      ensures Valid() && bricks == old(bricks) && bricks.items == old(bricks.items)
      ensures (View(), next) == Rules.BulletStep(old(View()), i, dt, rand)
    {
      FlyBullet(i, dt);
      var b := bullets.items[i];
      if b.pos.y - b.size > 1.0 {
        RemoveBullet(i);
        next := i;
      } else {
        var hit := BulletBricks(i);
        if hit {
          RemoveBullet(i);
          next := i;
        } else {
          next := i + 1;
        }
      }
    }

    /** Lines 1056-1088, corrected as in `Rules.BulletsPass`. */
    method BulletsPass(dt: real)
      requires Valid()
      modifies this, bullets, bullets.items, bricks, bricks.items, powerups, powerups.items
      ensures Valid() && bricks == old(bricks) && bricks.items == old(bricks.items)
      ensures View() == Rules.BulletsPass(old(View()), 0, dt, rand)
    {
      var i: nat := 0;
      while i < bullets.count
        invariant Valid() && bricks == old(bricks) && bricks.items == old(bricks.items) && i <= bullets.count
        invariant Rules.BulletsPass(View(), i, dt, rand) == Rules.BulletsPass(old(View()), 0, dt, rand)
        decreases bullets.count - i
      {
        i := BulletStep(i, dt);
      }
    }

    /** Lines 1196-1247 for ball i and brick j; returns the next brick index. */
    method BallBrickStep(i: nat, j: nat, dt: real) returns (next: nat)
      requires Valid() && i < balls.count && j < bricks.count
      modifies this, balls.items, bricks, bricks.items, powerups, powerups.items
      ensures Valid() && bricks == old(bricks) && bricks.items == old(bricks.items) && balls.count == old(balls.count)
      ensures (View(), next) == Rules.BallBrickStep(old(View()), i, j, dt, rand)
    {
      var b := balls.items[i];
      var br := bricks.items[j];
      if IsCircleInRect(b.pos, b.size, br.pos, br.dim) {
        next := BallHitsBrick(i, j, dt);
      } else {
        next := j + 1;
      }
    }

    /** Lines 1202-1247 for an overlapped brick j. */
    method BallHitsBrick(i: nat, j: nat, dt: real) returns (next: nat)
      requires Valid() && i < balls.count && j < bricks.count
      modifies this, balls.items, bricks, bricks.items, powerups, powerups.items
      ensures Valid() && bricks == old(bricks) && bricks.items == old(bricks.items) && balls.count == old(balls.count)
      ensures (View(), next) == Rules.BallHit(old(View()), i, j, dt, rand)
    {
      Rebound(i, j, dt);
      var n := HitBrick(j, 2.0, BallHitSound);
      next := n + 1;
    }

    /** Lines 1202-1245. */
    method Rebound(i: nat, j: nat, dt: real)
      requires Valid() && i < balls.count && j < bricks.count
      modifies balls.items
      ensures Valid() && View() == Rules.Rebound(old(View()), i, j, dt)
    {
      var b := balls.items[i];
      var d := BrickBounce(b, bricks.items[j]);
      balls.Set(i, Ball(b.pos.Add(d.Scale(dt)), d, b.size));
    }

    /** Lines 1193-1249 for ball i. */
    method BallBricks(i: nat, dt: real)
      requires Valid() && i < balls.count
      modifies this, balls.items, bricks, bricks.items, powerups, powerups.items
      ensures Valid() && bricks == old(bricks) && bricks.items == old(bricks.items) && balls.count == old(balls.count)
      ensures View() == Rules.BallBricks(old(View()), i, 0, dt, rand)
    {
      var j: nat := 0;
      while j < bricks.count
        invariant Valid() && bricks == old(bricks) && bricks.items == old(bricks.items) && balls.count == old(balls.count)
        invariant j <= bricks.count
        invariant Rules.BallBricks(View(), i, j, dt, rand) == Rules.BallBricks(old(View()), i, 0, dt, rand)
        decreases bricks.count - j
      {
        j := BallBrickStep(i, j, dt);
      }
    }

    /** Lines 1107-1191 for a free ball i. */
    method FlyBall(i: nat, dt: real, move: real, norm: Rescale)
      requires Valid() && i < balls.count
      modifies this, balls.items
      ensures Valid() && bricks == old(bricks) && balls.count == old(balls.count)
      ensures View() == Rules.BallFly(old(View()), i, dt, move, norm)
    {
      var glue := powerupTime > 0.0 && active == Glue;
      var b1 := ReflectWalls(MoveBall(balls.items[i], paddle, move, dt, ballsSpeed, norm));
      var (b2, p2) := PaddleBounce(b1, paddle, i, glue, ballsSpeed, dt, norm);
      balls.Set(i, b2);
      paddle := p2;
    }

    /** Lines 1104-1105: the caught ball is pinned to the paddle. */
    method PinBall(i: nat, dt: real, move: real, norm: Rescale)
      requires Valid() && i < balls.count && paddle.caught == Some(i) && !(balls.items[i].pos.y + balls.items[i].size < -1.0)
      modifies balls.items
      ensures Valid() && bricks == old(bricks) && bricks.items == old(bricks.items)
      ensures (View(), i + 1) == Rules.BallStep(old(View()), i, dt, move, norm, rand)
    {
      balls.Set(i, Pin(balls.items[i], paddle));
    }

    /** Lines 1096-1100: a ball below the screen is swap-removed. */
    method RemoveBall(i: nat, dt: real, move: real, norm: Rescale)
      requires Valid() && i < balls.count && balls.items[i].pos.y + balls.items[i].size < -1.0
      modifies balls, balls.items
      ensures Valid() && bricks == old(bricks) && bricks.items == old(bricks.items)
      ensures (View(), i) == Rules.BallStep(old(View()), i, dt, move, norm, rand)
    {
      var _ := balls.RemoveAt(i);
    }

    /** Lines 1107-1249: a free ball flies and hits bricks. */
    method FreeBall(i: nat, dt: real, move: real, norm: Rescale)
      requires Valid() && i < balls.count && paddle.caught != Some(i) && !(balls.items[i].pos.y + balls.items[i].size < -1.0)
      modifies this, balls.items, bricks, bricks.items, powerups, powerups.items
      ensures Valid() && bricks == old(bricks) && bricks.items == old(bricks.items)
      ensures (View(), i + 1) == Rules.BallStep(old(View()), i, dt, move, norm, rand)
    {
      FlyBall(i, dt, move, norm);
      BallBricks(i, dt);
    }

    /** Lines 1092-1253 for ball i; returns the next index. */
    method BallStep(i: nat, dt: real, move: real, norm: Rescale) returns (next: nat)
      requires Valid() && i < balls.count
      modifies this, balls, balls.items, bricks, bricks.items, powerups, powerups.items
      ensures Valid() && bricks == old(bricks) && bricks.items == old(bricks.items)
      ensures (View(), next) == Rules.BallStep(old(View()), i, dt, move, norm, rand)
    {
      var b := balls.items[i];
      if b.pos.y + b.size < -1.0 {
        RemoveBall(i, dt, move, norm);
        next := i;
      } else if paddle.caught == Some(i) {
        PinBall(i, dt, move, norm);
        next := i + 1;
      } else {
        FreeBall(i, dt, move, norm);
        next := i + 1;
      }
    }

    /** Lines 1090-1254. */
    method BallsPass(dt: real, move: real, norm: Rescale)
      requires Valid()
      modifies this, balls, balls.items, bricks, bricks.items, powerups, powerups.items
      ensures Valid() && bricks == old(bricks) && bricks.items == old(bricks.items)
      ensures View() == Rules.BallsPass(old(View()), 0, dt, move, norm, rand)
    {
      var i: nat := 0;
      while i < balls.count
        invariant Valid() && bricks == old(bricks) && bricks.items == old(bricks.items) && i <= balls.count
        invariant Rules.BallsPass(View(), i, dt, move, norm, rand) == Rules.BallsPass(old(View()), 0, dt, move, norm, rand)
        decreases balls.count - i
      {
        i := BallStep(i, dt, move, norm);
      }
    }

    /** Lines 1280-1292. */
    method Cooldown(dt: real)
      requires Valid()
      modifies this
      ensures Valid() && bricks == old(bricks) && View() == Rules.Cooldown(old(View()), dt)
    {
      if powerupTime > 0.0 && active == Shooter {
        if shootTimeout < 0.0 {
          shootTimeout := 0.0;
        } else if shootTimeout > 0.0 {
          shootTimeout := shootTimeout - dt;
        }
      }
    }

    /** Lines 1341-1346 on the balls array alone: one new ball at the first ball's place, from draws d and d + 1. */
    method SplitBall(speed: real, norm: Rescale, d: nat)
      requires balls.Valid() && balls.items.Length == BALLS_MAX && 1 <= balls.count < BALLS_MAX
      modifies balls, balls.items
      ensures balls.Valid() && balls.count == old(balls.count) + 1
      ensures balls.Live() == old(balls.Live()) + [NewBall(old(balls.Live())[0].pos, norm(SplitDir(rand, d), speed))]
      ensures FillBalls(balls.Live(), speed, norm, rand, d + 2) == FillBalls(old(balls.Live()), speed, norm, rand, d)
    {
      var x := (rand(d) + 1.0) / 2.0;
      var y := rand(d + 1) + 0.1;
      var b := NewBall(balls.items[0].pos, norm(V2(x, y), speed));
      AddBall(b);
    }

    /** One ball into the ball array. */
    method AddBall(b: Ball)
      requires balls.Valid() && balls.count < balls.items.Length
      modifies balls, balls.items
      ensures balls.Valid() && balls.count == old(balls.count) + 1 && balls.Live() == old(balls.Live()) + [b]
    {
      balls.Push(b);
    }

    /**
     * Lines 1339-1347 on the balls array alone, starting at oracle position
     * `d`; returns the position afterwards.
     */
    method FillPool(speed: real, norm: Rescale, d: nat) returns (next: nat)
      requires balls.Valid() && balls.items.Length == BALLS_MAX && 1 <= balls.count
      modifies balls, balls.items
      ensures balls.Valid() && balls.Live() == FillBalls(old(balls.Live()), speed, norm, rand, d)
      ensures next == d + 2 * (BALLS_MAX - old(balls.count))
    {
      next := d;
      while balls.count < BALLS_MAX
        invariant balls.Valid() && 1 <= balls.count <= BALLS_MAX
        invariant FillBalls(balls.Live(), speed, norm, rand, next) == FillBalls(old(balls.Live()), speed, norm, rand, d)
        invariant next == d + 2 * (balls.count - old(balls.count))
        decreases BALLS_MAX - balls.count
      {
        SplitBall(speed, norm, next);
        next := next + 2;
      }
    }

    /** Lines 1339-1347. */
    method SplitFill(norm: Rescale)
      requires Valid() && 1 <= balls.count
      modifies this, balls, balls.items
      ensures Valid() && bricks == old(bricks)
      ensures View() == Rules.SplitFill(old(View()), norm, rand)
    {
      draws := FillPool(ballsSpeed, norm, draws);
    }

    /** Lines 1323-1330. */
    method Collapse(kind: PowerupType)
      requires Valid()
      modifies this, balls
      ensures Valid() && bricks == old(bricks) && View() == Rules.Collapse(old(View()), kind)
    {
      sounds := sounds + [PowerupSound];
      active := kind;
      if balls.count > 1 {
        balls.Truncate(1);
      }
    }

    /** Lines 1332-1358. */
    method Effect(kind: PowerupType, norm: Rescale)
      requires Valid()
      modifies this, balls, balls.items
      ensures Valid() && bricks == old(bricks) && View() == Rules.Effect(old(View()), kind, norm, rand)
    {
      match kind
      case Split =>
        powerupTime := config.splitTime;
        if balls.count > 0 {
          SplitFill(norm);
        }
      case Glue =>
        powerupTime := config.glueTime;
      case Shooter =>
        shootTimeout := 0.0;
        powerupTime := config.shooterTime;
    }

    /** Lines 1323-1360. */
    method Pickup(kind: PowerupType, norm: Rescale)
      requires Valid()
      modifies this, balls, balls.items
      ensures Valid() && bricks == old(bricks) && View() == Rules.Pickup(old(View()), kind, norm, rand)
    {
      Collapse(kind);
      Effect(kind, norm);
    }

    /** Lines 1316-1366 for powerup i, corrected; returns the next index. */
    method PowerupStep(i: nat, dt: real, norm: Rescale) returns (next: nat)
      requires Valid() && i < powerups.count
      modifies this, balls, balls.items, powerups, powerups.items
      ensures Valid() && bricks == old(bricks) && (View(), next) == Rules.PowerupStep(old(View()), i, dt, norm, rand)
    {
      var pw := powerups.items[i];
      if Picked(pw, paddle) {
        Pickup(pw.kind, norm);
        var _ := powerups.RemoveAt(i);
        next := i;
      } else {
        powerups.Set(i, Advance(pw, dt));
        next := i + 1;
      }
    }

    /** Lines 1314-1368, corrected as in `Rules.PowerupsPass`. */
    method PowerupsPass(dt: real, norm: Rescale)
      requires Valid()
      modifies this, balls, balls.items, powerups, powerups.items
      ensures Valid() && bricks == old(bricks) && View() == Rules.PowerupsPass(old(View()), 0, dt, norm, rand)
    {
      var i: nat := 0;
      while i < powerups.count
        invariant Valid() && bricks == old(bricks) && i <= powerups.count
        invariant Rules.PowerupsPass(View(), i, dt, norm, rand) == Rules.PowerupsPass(old(View()), 0, dt, norm, rand)
        decreases powerups.count - i
      {
        i := PowerupStep(i, dt, norm);
      }
    }

    /** Lines 984-1368. */
    method Play(dt: real, norm: Rescale)
      requires Valid() && balls.count >= 1
      modifies this, balls, balls.items, bullets, bullets.items, powerups, powerups.items, bricks, bricks.items
      ensures Valid() && View() == Rules.Play(old(View()), dt, norm, rand)
    {
      ExpirePowerup(dt);
      Shoot();
      var move := PaddleMove(paddle, inputLeft, inputRight, dt);
      MovePaddle(move);
      BulletsPass(dt);
      BallsPass(dt, move, norm);
      Cooldown(dt);
      PowerupsPass(dt, norm);
    }

    /** One pass of `main`'s loop after the event polling. */
    method Frame(dt: real, text: seq<char>, norm: Rescale)
      requires Valid()
      modifies this, balls, balls.items, bullets, bullets.items, powerups, powerups.items, bricks, bricks.items
      ensures Valid() && View() == Rules.Frame(old(View()), dt, text, norm, rand)
    {
      if mode != Started {
        WaitStep(dt, text);
      } else {
        var goOn := RoundCheck();
        if goOn {
          Play(dt, norm);
        }
      }
    }
  }
}

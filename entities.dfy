/**
 * The game's constants and its value entities (src/bricks.cpp, the #defines
 * and the structs Ball, Bullet, Powerup, Brick), with the two constructors
 * `new_ball` and `new_powerup`. Floats are reals.
 */
module Entities {
  import opened Geometry

  const BALLS_SPEED_INIT: real := 1.2
  const BALLS_SPEED_INCREASE: real := 0.3
  const BALLS_MAX: nat := 3
  const BULLETS_MAX: nat := 64
  const SHOOT_RATE: real := 0.2
  const POWERUPS_MAX: nat := 3
  const BRICK_MAX_HEALTH: nat := 5
  const PADDLE_CURVE_FACTOR: real := 7.5
  const PADDLE_PUSH_FORCE: real := 4.0
  const DEFAULT_PADDLE_WIDTH: real := 0.3
  const DEFAULT_PADDLE_HEIGHT: real := 0.075
  const DEFAULT_PADDLE_SPEED: real := 2.0
  const DEFAULT_BRICK_WIDTH: real := 0.2
  const DEFAULT_BRICK_HEIGHT: real := 0.1
  const DEFAULT_BALL_SIZE: real := 0.05
  const DEFAULT_BULLET_SIZE: real := 0.02
  const DEFAULT_BULLET_SPEED: real := 1.5
  const DEFAULT_POWERUP_SIZE: real := 0.1
  const DEFAULT_POWERUP_SPEED: real := 0.75
  const DEFAULT_GAME_WAIT_TIME: real := 2.0

  /** The source's enum order is shooter, glue, split (shooter is the zero value). */
  datatype PowerupType = Shooter | Glue | Split

  datatype Ball = Ball(pos: V2, dir: V2, size: real)

  datatype Bullet = Bullet(pos: V2, speed: real, size: real)

  /**
   * `animation_time` is left out: only the powerup drawing reads it (and
   * `new_powerup` leaves it uninitialised).
   */
  datatype Powerup = Powerup(kind: PowerupType, pos: V2, dim: V2, dir: V2)

  /** Health is a float in the source holding small whole numbers. */
  datatype Brick = Brick(pos: V2, dim: V2, health: real)

  /** Sound requests, recorded as events; which sample plays is not modelled. */
  datatype Sound = BallHitSound | ShootHitSound | ShootSound | PowerupSound

  function NewBall(pos: V2, dir: V2): Ball {
    Ball(pos, dir, DEFAULT_BALL_SIZE)
  }

  /** `new_ball()` with its default arguments: at the origin, heading up. */
  function DefaultBall(): Ball {
    NewBall(ZERO, V2(0.0, 1.0))
  }

  /** A powerup of the standard size drifting straight down. */
  function NewPowerup(kind: PowerupType, pos: V2): Powerup {
    Powerup(kind, pos, V2(DEFAULT_POWERUP_SIZE, DEFAULT_POWERUP_SIZE), V2(0.0, -DEFAULT_POWERUP_SPEED))
  }

  function NewBullet(pos: V2): Bullet {
    Bullet(pos, DEFAULT_BULLET_SPEED, DEFAULT_BULLET_SIZE)
  }
}

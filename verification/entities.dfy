/**
 * The game's entities: Ball, Paddle and Brick are objects updated in place;
 * particles and bullets are values held in the game's groups, each with the
 * step its sprite's `update` takes.
 *
 * Velocities are integer pixel steps. The floating-point parts of the ball's
 * motion (the random launch angle, renormalising the velocity to
 * speed x multiplier, the rotated velocity after a paddle bounce) are inputs.
 */
module Entities {
  import opened Wrappers
  import opened Config
  import opened Geometry
  import opened Groups
  import opened Assets

  datatype Vec = Vec(x: int, y: int)

  // ---------------------------------------------------------------- Paddle

  /** The paddle centre after one step toward `target`, at most PaddleSpeed. */
  function StepToward(center: int, target: int): (c: int)
    ensures Abs(target - c) ==
      if Abs(target - center) > PaddleSpeed then Abs(target - center) - PaddleSpeed else 0
    ensures Abs(c - center) <= PaddleSpeed
    ensures (target >= center ==> c >= center) && (target <= center ==> c <= center)
  {
    var dx := target - center;
    if Abs(dx) > PaddleSpeed then center + (if dx > 0 then PaddleSpeed else -PaddleSpeed)
    else target
  }

  /** Pull a rectangle back inside the screen horizontally. */
  function ClampToScreen(r: Rect): (c: Rect)
    requires r.width <= ScreenWidth
    ensures 0 <= c.left && c.Right() <= ScreenWidth
    ensures c.top == r.top && c.width == r.width && c.height == r.height
    ensures 0 <= r.left && r.Right() <= ScreenWidth ==> c == r
  {
    if r.left < 0 then r.AtLeft(0)
    else if r.Right() > ScreenWidth then r.AtRight(ScreenWidth)
    else r
  }

  /**
   * A timed display field and its remaining time after `dt` ms: the timer only
   * runs while something is shown, and the field clears once it reaches 0.
   */
  function CountDown<T>(shown: Option<T>, timer: int, dt: int): (r: (Option<T>, int))
    ensures shown.None? ==> r == (shown, timer)
    ensures shown.Some? ==> r.1 == timer - dt
    ensures r.0.Some? ==> r.0 == shown && r.1 > 0
    ensures shown.Some? && r.0.None? ==> r.1 <= 0
  {
    if shown.None? then (shown, timer)
    else if timer - dt <= 0 then (None, timer - dt)
    else (shown, timer - dt)
  }

  /** The score popup tier `show_score` picks for a number of points. */
  function ScoreTier(points: int): (t: Option<int>)
    ensures t == Some(500) <==> points >= 500
    ensures t == Some(250) <==> 250 <= points < 500
    ensures t == Some(100) <==> 100 <= points < 250
    ensures t.None? <==> points < 100
  {
    if points >= 500 then Some(500)
    else if points >= 250 then Some(250)
    else if points >= 100 then Some(100)
    else None
  }

  class Paddle {
    var rect: Rect
    var scoreDisplay: Option<int>
    var scoreDisplayTimer: int
    var activePowerup: Option<PowerUpType>
    var powerupTimer: int
    var sprite: PaddleSprite

    ghost predicate Valid()
      reads this
    {
      rect.width == PaddleWidth && rect.height == PaddleHeight
    }

    constructor (x: int, y: int)
      ensures Valid()
      ensures rect == CenteredAt(x, y, PaddleWidth, PaddleHeight)
      ensures scoreDisplay == None && scoreDisplayTimer == 0
      ensures activePowerup == None && powerupTimer == 0
      ensures sprite == PaddleDefault
    {
      rect := CenteredAt(x, y, PaddleWidth, PaddleHeight);
      scoreDisplay, scoreDisplayTimer := None, 0;
      activePowerup, powerupTimer := None, 0;
      sprite := PaddleDefault;
    }

    /** Follow the pointer at `targetX`, stay on screen, run down both timers, pick the sprite. */
    method Update(targetX: int, dt: int)
      requires Valid()
      modifies this
      ensures Valid()
      ensures rect == ClampToScreen(old(rect).AtCenterX(StepToward(old(rect).CenterX(), targetX)))
      ensures 0 <= rect.left && rect.Right() <= ScreenWidth
      ensures (scoreDisplay, scoreDisplayTimer) == CountDown(old(scoreDisplay), old(scoreDisplayTimer), dt)
      ensures (activePowerup, powerupTimer) == CountDown(old(activePowerup), old(powerupTimer), dt)
      ensures sprite == GetPaddleSprite(scoreDisplay, activePowerup)
    {
      Follow(targetX);
      RunTimers(dt);
    }

    /** The movement half of `update`: at most PaddleSpeed toward the pointer, then back onto the screen. */
    method Follow(targetX: int)
      requires Valid()
      modifies this
      ensures Valid()
      ensures rect == ClampToScreen(old(rect).AtCenterX(StepToward(old(rect).CenterX(), targetX)))
      ensures 0 <= rect.left && rect.Right() <= ScreenWidth
      ensures scoreDisplay == old(scoreDisplay) && scoreDisplayTimer == old(scoreDisplayTimer)
      ensures activePowerup == old(activePowerup) && powerupTimer == old(powerupTimer)
    {
      var dx := targetX - rect.CenterX();
      if Abs(dx) > PaddleSpeed {
        rect := rect.AtCenterX(rect.CenterX() + if dx > 0 then PaddleSpeed else -PaddleSpeed);
      } else {
        rect := rect.AtCenterX(targetX);
      }
      if rect.left < 0 {
        rect := rect.AtLeft(0);
      } else if rect.Right() > ScreenWidth {
        rect := rect.AtRight(ScreenWidth);
      }
    }

    /** The timer half of `update`: both displays run down by `dt`, then the sprite is picked again. */
    method RunTimers(dt: int)
      modifies this
      ensures rect == old(rect)
      ensures (scoreDisplay, scoreDisplayTimer) == CountDown(old(scoreDisplay), old(scoreDisplayTimer), dt)
      ensures (activePowerup, powerupTimer) == CountDown(old(activePowerup), old(powerupTimer), dt)
      ensures sprite == GetPaddleSprite(scoreDisplay, activePowerup)
    {
      if scoreDisplay.Some? {
        scoreDisplayTimer := scoreDisplayTimer - dt;
        if scoreDisplayTimer <= 0 {
          scoreDisplay := None;
        }
      }
      if activePowerup.Some? {
        powerupTimer := powerupTimer - dt;
        if powerupTimer <= 0 {
          activePowerup := None;
        }
      }
      sprite := GetPaddleSprite(scoreDisplay, activePowerup);
    }

    /** Show the tier of `points` on the paddle; the timer restarts even when no tier applies. */
    method ShowScore(points: int)
      modifies this
      ensures scoreDisplay == ScoreTier(points) && scoreDisplayTimer == PaddleScoreDisplayTime
      ensures rect == old(rect) && activePowerup == old(activePowerup)
      ensures powerupTimer == old(powerupTimer) && sprite == old(sprite)
    {
      if points >= 500 {
        scoreDisplay := Some(500);
      } else if points >= 250 {
        scoreDisplay := Some(250);
      } else if points >= 100 {
        scoreDisplay := Some(100);
      } else {
        scoreDisplay := None;
      }
      scoreDisplayTimer := PaddleScoreDisplayTime;
    }

    method ActivatePowerup(t: PowerUpType, duration: int)
      modifies this
      ensures activePowerup == Some(t) && powerupTimer == duration
      ensures rect == old(rect) && scoreDisplay == old(scoreDisplay)
      ensures scoreDisplayTimer == old(scoreDisplayTimer) && sprite == old(sprite)
    {
      activePowerup := Some(t);
      powerupTimer := duration;
    }
  }

  /** After a paddle step the paddle is on screen, and where no clamping was needed it moved exactly by StepToward. */
  lemma PaddleStepOnScreen(r: Rect, target: int)
    requires r.width == PaddleWidth
    ensures var c := ClampToScreen(r.AtCenterX(StepToward(r.CenterX(), target)));
      0 <= c.left && c.Right() <= ScreenWidth &&
      (0 <= r.AtCenterX(StepToward(r.CenterX(), target)).left &&
       r.AtCenterX(StepToward(r.CenterX(), target)).Right() <= ScreenWidth ==>
         c.CenterX() == StepToward(r.CenterX(), target))
  {
  }

  // ---------------------------------------------------------------- Ball

  /** The ball resting on the paddle: centred on it, its bottom 5 px above the paddle's top. */
  function RestOn(r: Rect, paddle: Rect): (b: Rect)
    ensures b.CenterX() == paddle.CenterX() && b.Bottom() == paddle.top - 5
    ensures b.width == r.width && b.height == r.height
    ensures !Overlaps(b, paddle)
  {
    r.AtCenterX(paddle.CenterX()).AtBottom(paddle.top - 5)
  }

  /**
   * The wall step of an active ball that has moved to `r`: the left and right
   * walls clamp it and turn x-velocity inward, the top wall clamps it and turns
   * y-velocity downward; the bottom is open.
   */
  function WallBounce(r: Rect, v: Vec): (res: (Rect, Vec))
    requires r.width <= ScreenWidth
    ensures res.0.width == r.width && res.0.height == r.height
    ensures 0 <= res.0.left && res.0.Right() <= ScreenWidth && 0 <= res.0.top
    ensures r.left <= 0 ==> res.0.left == 0 && res.1.x == Abs(v.x)
    ensures 0 < r.left && r.Right() >= ScreenWidth ==>
      res.0.Right() == ScreenWidth && res.1.x == -Abs(v.x)
    ensures 0 < r.left && r.Right() < ScreenWidth ==> res.0.left == r.left && res.1.x == v.x
    ensures r.top <= 0 ==> res.0.top == 0 && res.1.y == Abs(v.y)
    ensures r.top > 0 ==> res.0.top == r.top && res.1.y == v.y
  {
    var (r1, vx) :=
      if r.left <= 0 then (r.AtLeft(0), Abs(v.x))
      else if r.Right() >= ScreenWidth then (r.AtRight(ScreenWidth), -Abs(v.x))
      else (r, v.x);
    if r1.top <= 0 then (r1.AtTop(0), Vec(vx, Abs(v.y))) else (r1, Vec(vx, v.y))
  }

  /** Where the ball struck the paddle, from -1 (left edge) to 1 (right edge), clamped. */
  function RelativeHit(ballCenterX: int, paddle: Rect): (h: real)
    requires paddle.width > 0
    ensures -1.0 <= h <= 1.0
  {
    var raw := (ballCenterX - paddle.CenterX()) as real / (paddle.width as real / 2.0);
    var capped := if raw < 1.0 then raw else 1.0;
    if capped > -1.0 then capped else -1.0
  }

  /** The bounce angle in degrees from vertical: the relative hit scaled to at most 60. */
  function DeflectionAngle(ballCenterX: int, paddle: Rect): (a: real)
    requires paddle.width > 0
    ensures -60.0 <= a <= 60.0
  {
    RelativeHit(ballCenterX, paddle) * 60.0
  }

  /** Striking further right never gives a smaller angle. */
  lemma DeflectionMonotone(x1: int, x2: int, paddle: Rect)
    requires paddle.width > 0 && x1 <= x2
    ensures DeflectionAngle(x1, paddle) <= DeflectionAngle(x2, paddle)
  {
    var d := paddle.width as real / 2.0;
    var a := (x1 - paddle.CenterX()) as real;
    var b := (x2 - paddle.CenterX()) as real;
    assert a / d <= b / d by {
      assert a <= b && d > 0.0;
      assert (b - a) / d >= 0.0;
      assert b / d - a / d == (b - a) / d;
    }
  }

  /** The paddle's left edge, centre and right edge give -60, 0 and 60 degrees. */
  lemma DeflectionAtEdges(paddle: Rect)
    requires paddle.width == PaddleWidth
    ensures DeflectionAngle(paddle.CenterX() - PaddleWidth / 2, paddle) == -60.0
    ensures DeflectionAngle(paddle.CenterX(), paddle) == 0.0
    ensures DeflectionAngle(paddle.CenterX() + PaddleWidth / 2, paddle) == 60.0
  {
  }

  /** Where `Ball.update` leaves the ball: on the paddle while resting, else one step on and off the walls. */
  function BallMotion(r: Rect, v: Vec, active: bool, paddle: Rect): (res: (Rect, Vec))
    requires r.width <= ScreenWidth
    ensures res.0.width == r.width && res.0.height == r.height
    ensures !active ==> res.1 == v && !Overlaps(res.0, paddle)
    ensures !active ==> res.0.CenterX() == paddle.CenterX() && res.0.Bottom() == paddle.top - 5
    ensures active ==> 0 <= res.0.left && res.0.Right() <= ScreenWidth && 0 <= res.0.top
    ensures active && 0 < r.left + v.x && r.Right() + v.x < ScreenWidth && 0 < r.top + v.y ==>
      res == (r.MoveBy(v.x, v.y), v)
  {
    if active then WallBounce(r.MoveBy(v.x, v.y), v) else (RestOn(r, paddle), v)
  }

  /**
   * The bounce of `check_paddle_collision`: a ball touching the paddle while
   * moving down is put 1 px above it and turned by the deflection angle.
   */
  function PaddleBounce(r: Rect, v: Vec, paddle: Rect, aim: (real, Vec) -> Vec): (res: (Rect, Vec))
    requires paddle.width > 0
    ensures res.0.width == r.width && res.0.height == r.height
    ensures Overlaps(r, paddle) && v.y > 0 ==> !Overlaps(res.0, paddle) && res.0.left == r.left
    ensures Overlaps(r, paddle) && v.y > 0 ==>
      res.0.Bottom() == paddle.top - 1 && res.1 == aim(DeflectionAngle(r.CenterX(), paddle), v)
    ensures !(Overlaps(r, paddle) && v.y > 0) ==> res == (r, v)
  {
    if Overlaps(r, paddle) && v.y > 0 then
      (r.AtBottom(paddle.top - 1), aim(DeflectionAngle(r.CenterX(), paddle), v))
    else
      (r, v)
  }

  class Ball {
    var rect: Rect
    var velocity: Vec
    var speedMultiplier: real
    /** False while the ball rests on the paddle. */
    var active: bool

    ghost predicate Valid()
      reads this
    {
      rect.width == BallSize && rect.height == BallSize
    }

    /** A resting ball centred at (x, y); `v` is the drawn start velocity. */
    constructor (x: int, y: int, v: Vec)
      ensures Valid()
      ensures rect == CenteredAt(x, y, BallSize, BallSize) && velocity == v
      ensures speedMultiplier == 1.0 && !active
    {
      rect := CenteredAt(x, y, BallSize, BallSize);
      velocity := v;
      speedMultiplier := 1.0;
      active := false;
    }

    /** A resting ball follows the paddle; an active one moves one velocity step and bounces off the walls. */
    method Update(paddle: Rect)
      requires Valid()
      modifies this
      ensures Valid()
      ensures active == old(active) && speedMultiplier == old(speedMultiplier)
      ensures !active ==> rect == RestOn(old(rect), paddle) && velocity == old(velocity)
      ensures active ==>
        (rect, velocity) == WallBounce(old(rect).MoveBy(old(velocity).x, old(velocity).y), old(velocity))
      ensures (rect, velocity) == BallMotion(old(rect), old(velocity), active, paddle)
    {
      if !active {
        rect := rect.AtCenterX(paddle.CenterX());
        rect := rect.AtBottom(paddle.top - 5);
        return;
      }
      rect := rect.MoveBy(velocity.x, velocity.y);
      if rect.left <= 0 {
        rect := rect.AtLeft(0);
        velocity := velocity.(x := Abs(velocity.x));
      } else if rect.Right() >= ScreenWidth {
        rect := rect.AtRight(ScreenWidth);
        velocity := velocity.(x := -Abs(velocity.x));
      }
      if rect.top <= 0 {
        rect := rect.AtTop(0);
        velocity := velocity.(y := Abs(velocity.y));
      }
    }

    /** Leave the paddle with the drawn launch velocity `v`. */
    method Launch(v: Vec)
      modifies this
      ensures active && velocity == v
      ensures rect == old(rect) && speedMultiplier == old(speedMultiplier)
    {
      active := true;
      velocity := v;
    }

    /**
     * Bounce off the paddle when touching it while moving down. `aim` turns an
     * angle and the old velocity into the new velocity (the trigonometry).
     */
    method CollidePaddle(paddle: Rect, aim: (real, Vec) -> Vec) returns (hit: bool)
      requires Valid() && paddle.width > 0
      modifies this
      ensures Valid()
      ensures hit <==> Overlaps(old(rect), paddle) && old(velocity).y > 0
      ensures hit ==> rect == old(rect).AtBottom(paddle.top - 1) && !Overlaps(rect, paddle)
      ensures hit ==> velocity == aim(DeflectionAngle(old(rect).CenterX(), paddle), old(velocity))
      ensures !hit ==> rect == old(rect) && velocity == old(velocity)
      ensures (rect, velocity) == PaddleBounce(old(rect), old(velocity), paddle, aim)
      ensures active == old(active) && speedMultiplier == old(speedMultiplier)
    {
      if Overlaps(rect, paddle) && velocity.y > 0 {
        var angle := DeflectionAngle(rect.CenterX(), paddle);
        velocity := aim(angle, velocity);
        rect := rect.AtBottom(paddle.top - 1);
        hit := true;
      } else {
        hit := false;
      }
    }

    /** The ball has fallen below the screen. */
    predicate IsOut()
      reads this
      ensures IsOut() ==> forall r: Rect :: r.Bottom() <= ScreenHeight ==> !Overlaps(rect, r)
    {
      rect.top > ScreenHeight
    }

    /** Back onto the paddle, resting, at normal speed. */
    method Reset(paddle: Rect)
      requires Valid()
      modifies this
      ensures Valid()
      ensures !active && rect == RestOn(old(rect), paddle) && speedMultiplier == 1.0
      ensures velocity == old(velocity)
    {
      active := false;
      rect := rect.AtCenterX(paddle.CenterX());
      rect := rect.AtBottom(paddle.top - 5);
      speedMultiplier := 1.0;
    }

    method SetSpeedMultiplier(m: real)
      modifies this
      ensures speedMultiplier == m
      ensures rect == old(rect) && velocity == old(velocity) && active == old(active)
    {
      speedMultiplier := m;
    }
  }

  // ---------------------------------------------------------------- Brick

  /** A brick's score: its entry in the score table, or 50 for a type beyond it. */
  function BrickScore(brickType: nat): (s: int)
    ensures brickType < |ScoreValues| ==> s == ScoreValues[brickType]
    ensures brickType >= |ScoreValues| ==> s == 50
    ensures 50 <= s <= 500
  {
    if brickType < |ScoreValues| then ScoreValues[brickType] else 50
  }

  class Brick {
    const rect: Rect
    const brickType: nat
    const score: int
    var health: int
    /** The tile of the current image: complete, or cracked after the first hit. */
    var tile: nat

    /** A brick still in play: one or two hits left, showing the matching image. */
    ghost predicate Valid()
      reads this
    {
      && brickType < BrickTypes
      && 1 <= health <= BrickHealthNormal
      && tile == GetBrickSprite(brickType, health < BrickHealthNormal)
      && rect.width == BrickWidth && rect.height == BrickHeight
      && score == BrickScore(brickType)
    }

    constructor (x: int, y: int, brickType: nat)
      requires brickType < BrickTypes
      ensures Valid()
      ensures this.rect == Rect(x, y, BrickWidth, BrickHeight) && this.brickType == brickType
      ensures health == BrickHealthNormal
    {
      this.brickType := brickType;
      health := BrickHealthNormal;
      tile := GetBrickSprite(brickType, false);
      rect := Rect(x, y, BrickWidth, BrickHeight);
      score := BrickScore(brickType);
    }

    /** Take one hit; report whether the brick is destroyed, else show it cracked. */
    method Hit() returns (destroyed: bool)
      requires brickType < BrickTypes
      modifies this
      ensures health == old(health) - 1
      ensures destroyed <==> health <= 0
      ensures tile == if destroyed then old(tile) else GetBrickSprite(brickType, true)
    {
      health := health - 1;
      if health <= 0 {
        return true;
      }
      tile := GetBrickSprite(brickType, true);
      return false;
    }

    /** `get_particle_type`: the brick's type picks its particle sprite. */
    function ParticleType(): (t: nat)
      ensures brickType < BrickTypes ==>
        t < BrickTypes &&
        GetParticleSprite(t) == 21 + brickType &&
        GetParticleSprite(t) != GetBrickSprite(brickType, false) &&
        GetParticleSprite(t) != GetBrickSprite(brickType, true)
    {
      brickType
    }
  }

  /** A fresh brick survives its first hit, cracked, and is destroyed by the second. */
  method BrickTakesTwoHits(x: int, y: int, brickType: nat) returns (first: bool, second: bool)
    requires brickType < BrickTypes
    ensures !first && second
  {
    var b := new Brick(x, y, brickType);
    first := b.Hit();
    assert b.tile == GetBrickSprite(brickType, true);
    second := b.Hit();
  }

  // ---------------------------------------------------------------- Particles and bullets

  datatype Particle = Particle(rect: Rect, tile: nat, age: int)

  /** A new particle of the given image, centred at (x, y). */
  function NewParticle(x: int, y: int, tile: nat): Particle
  {
    Particle(CenteredAt(x, y, ParticleSize, ParticleSize), tile, 0)
  }

  /** A particle ages by `dt` and dies once its age reaches the lifetime. */
  function AgeParticle(p: Particle, dt: int): (r: Option<Particle>)
    ensures r.Some? <==> p.age + dt < ParticleLifetime
    ensures r.Some? ==> r.value.age == p.age + dt && r.value.rect == p.rect && r.value.tile == p.tile
  {
    var age := p.age + dt;
    if age >= ParticleLifetime then None else Some(p.(age := age))
  }

  /** A bullet sprite (the source's Bullet class). */
  datatype Projectile = Projectile(rect: Rect)

  /** A bullet centred at (x, y). */
  function NewBullet(x: int, y: int): Projectile
  {
    Projectile(CenteredAt(x, y, BulletWidth, BulletHeight))
  }

  /** A bullet rises BulletSpeed px and dies once its bottom is above the screen. */
  function MoveBullet(b: Projectile): (r: Option<Projectile>)
    ensures r.Some? <==> b.rect.Bottom() - BulletSpeed >= 0
    ensures r.Some? ==> r.value.rect == b.rect.MoveBy(0, -BulletSpeed)
  {
    var moved := b.rect.MoveBy(0, -BulletSpeed);
    if moved.Bottom() < 0 then None else Some(Projectile(moved))
  }

  /** While every bullet is at least BulletSpeed px below the top, `bullets.update()` keeps them all, in order, each 12 px higher. */
  lemma BulletsInFlightAllRise(bs: seq<Projectile>)
    requires forall i :: 0 <= i < |bs| ==> bs[i].rect.Bottom() >= BulletSpeed
    ensures |UpdateAll(bs, MoveBullet)| == |bs|
    ensures forall i :: 0 <= i < |bs| ==> UpdateAll(bs, MoveBullet)[i].rect == bs[i].rect.MoveBy(0, -BulletSpeed)
  {
    UpdateAllNoKill(bs, MoveBullet);
  }

  /** After `bullets.update()`, exactly the bullets still reaching the screen remain, each 12 px higher. */
  lemma {:induction false} BulletGroupUpdate(bs: seq<Projectile>, x: Projectile)
    ensures x in UpdateAll(bs, MoveBullet) <==>
      exists i :: 0 <= i < |bs| && x.rect == bs[i].rect.MoveBy(0, -BulletSpeed) && x.rect.Bottom() >= 0
  {
    UpdateAllMembers(bs, MoveBullet, x);
    if exists i :: 0 <= i < |bs| && x.rect == bs[i].rect.MoveBy(0, -BulletSpeed) && x.rect.Bottom() >= 0 {
      var i :| 0 <= i < |bs| && x.rect == bs[i].rect.MoveBy(0, -BulletSpeed) && x.rect.Bottom() >= 0;
      assert MoveBullet(bs[i]) == Some(x);
    }
  }

  /** `particles.update(dt)`: the particle group after every member aged by `dt`. */
  function AgeAll(ps: seq<Particle>, dt: int): seq<Particle>
  {
    UpdateAll(ps, p => AgeParticle(p, dt))
  }

  /** After `particles.update(dt)`, exactly the particles younger than the lifetime remain, each aged by dt. */
  lemma {:induction false} ParticleGroupUpdate(ps: seq<Particle>, dt: int, x: Particle)
    ensures x in AgeAll(ps, dt) <==>
      exists i :: 0 <= i < |ps| && x == ps[i].(age := ps[i].age + dt) && x.age < ParticleLifetime
  {
    UpdateAllMembers(ps, p => AgeParticle(p, dt), x);
    if exists i :: 0 <= i < |ps| && x == ps[i].(age := ps[i].age + dt) && x.age < ParticleLifetime {
      var i :| 0 <= i < |ps| && x == ps[i].(age := ps[i].age + dt) && x.age < ParticleLifetime;
      assert (p => AgeParticle(p, dt))(ps[i]) == Some(x);
    }
  }
}

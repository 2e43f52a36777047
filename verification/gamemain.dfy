/**
 * The game session: score, lives and combo bookkeeping, the per-frame tick
 * and the input-driven state machine Menu / Playing / Paused / GameOver /
 * LevelComplete / Win.
 *
 * The pointer position, the fire button, the frame time, the clock and the
 * outcomes of the random draws are parameters. Sprite groups are sequences
 * in insertion order.
 */
module GameMain {
  import opened Wrappers
  import opened Config
  import opened Geometry
  import opened Groups
  import opened Assets
  import opened Entities
  import opened Powerups
  import opened Levels
  import opened Collision

  // ---------------------------------------------------------------- Scoring

  /**
   * Points for destroying a brick worth `brickScore` when the destruction
   * brings the combo to `combo`: the multiplier goes up by one every five.
   * (Python's `//` and Dafny's `/` agree here since the combo is never negative.)
   */
  function Points(brickScore: int, combo: int): (p: int)
    ensures 0 <= combo < 5 ==> p == brickScore
    ensures 5 <= combo < 10 ==> p == 2 * brickScore
  {
    brickScore * (1 + combo / 5)
  }

  /** The first four destructions of a run score plain, the fifth to ninth double; never less than plain. */
  lemma ComboBonus(s: int, c: int)
    requires c >= 0
    ensures c < 5 ==> Points(s, c) == s
    ensures 5 <= c < 10 ==> Points(s, c) == 2 * s
    ensures s >= 0 ==> Points(s, c) >= s
  {
    if s >= 0 {
      assert s * (1 + c / 5) == s + s * (c / 5);
    }
  }

  /** Points for destroying bricks worth `scores`, in order, starting from combo `combo`. */
  function RunPoints(scores: seq<int>, combo: int): int
  {
    if |scores| == 0 then 0
    else RunPoints(scores[..|scores| - 1], combo) + Points(scores[|scores| - 1], combo + |scores|)
  }

  lemma RunPointsSnoc(scores: seq<int>, s: int, combo: int)
    ensures RunPoints(scores + [s], combo) == RunPoints(scores, combo) + Points(s, combo + |scores| + 1)
  {
    assert (scores + [s])[..|scores|] == scores;
  }

  /** A run of destructions never takes points away. */
  lemma {:induction false} RunPointsNonNegative(scores: seq<int>, combo: int)
    requires combo >= 0
    requires forall i :: 0 <= i < |scores| ==> scores[i] >= 0
    ensures RunPoints(scores, combo) >= 0
  {
    if |scores| > 0 {
      RunPointsNonNegative(scores[..|scores| - 1], combo);
      ComboBonus(scores[|scores| - 1], combo + |scores|);
    }
  }

  /**
   * Starting from a broken combo, `n` bricks of the same worth score
   * `n` plain shares plus one extra share for each destruction from the fifth on:
   * five 50-point bricks give 300.
   */
  lemma {:induction false} RunOfEqualBricks(s: int, n: nat)
    requires n < 10
    ensures RunPoints(seq(n, _ => s), 0) == s * (n + (if n >= 5 then n - 4 else 0))
  {
    if n > 0 {
      var run := seq(n, _ => s);
      assert run[..n - 1] == seq(n - 1, _ => s);
      RunOfEqualBricks(s, n - 1);
      ComboBonus(s, n);
    }
  }

  lemma FiveFiftiesScoreThreeHundred()
    ensures RunPoints([50, 50, 50, 50, 50], 0) == 300
  {
    RunOfEqualBricks(50, 5);
    assert [50, 50, 50, 50, 50] == seq(5, _ => 50);
  }

  /** The ball's speed multiplier for the effect shown on screen. */
  function EffectMultiplier(shown: Option<PowerUpType>): real
  {
    match shown
    case Some(Slow) => SlowMultiplier
    case Some(Fast) => FastMultiplier
    case _ => 1.0
  }

  /**
   * The multiplier read off the registry: Bullet outranks the speed effects
   * and leaves the speed at 1.0, so Bullet with Slow gives 1.0.
   */
  lemma SpeedFollowsEffects(m: map<PowerUpType, int>)
    ensures EffectMultiplier(ActiveType(m)) ==
      if Bullet in m then 1.0 else if Slow in m then SlowMultiplier else if Fast in m then FastMultiplier else 1.0
  {
  }

  // ---------------------------------------------------------------- Sprite groups as sequences

  /** `sprite.kill()` on the k-th member of a group. */
  function RemoveAt<T>(s: seq<T>, k: nat): (r: seq<T>)
    requires k < |s|
    ensures |r| == |s| - 1
    ensures forall i :: 0 <= i < |r| ==> r[i] == if i < k then s[i] else s[i + 1]
    ensures multiset(r) + multiset{s[k]} == multiset(s)
    ensures forall x :: x in r ==> x in s
  {
    assert s == s[..k] + [s[k]] + s[k + 1..];
    s[..k] + s[k + 1..]
  }

  function BrickRects(bs: seq<Brick>): (rs: seq<Rect>)
    ensures |rs| == |bs| && forall i :: 0 <= i < |bs| ==> rs[i] == bs[i].rect
  {
    seq(|bs|, i requires 0 <= i < |bs| => bs[i].rect)
  }

  function Scores(bs: seq<Brick>): (ss: seq<int>)
    ensures |ss| == |bs| && forall i :: 0 <= i < |bs| ==> ss[i] == bs[i].score
  {
    seq(|bs|, i requires 0 <= i < |bs| => bs[i].score)
  }

  /** `_spawn_particles`: ParticleCount particles of the brick's particle image at its centre. */
  function Burst(b: Brick): (ps: seq<Particle>)
    requires b.brickType < BrickTypes
    ensures |ps| == ParticleCount
    ensures forall i :: 0 <= i < |ps| ==>
      ps[i].rect.CenterX() == b.rect.CenterX() && ps[i].rect.CenterY() == b.rect.CenterY() &&
      ps[i].rect.width == ParticleSize && ps[i].rect.height == ParticleSize &&
      ps[i].tile == 21 + b.brickType && ps[i].age == 0
  {
    Copies(NewParticle(b.rect.CenterX(), b.rect.CenterY(), GetParticleSprite(b.ParticleType())), ParticleCount)
  }

  /** `n` copies of `x`. */
  function Copies<T>(x: T, n: nat): (r: seq<T>)
    ensures |r| == n && forall i :: 0 <= i < n ==> r[i] == x
  {
    if n == 0 then [] else Copies(x, n - 1) + [x]
  }

  predicate KnownTypes(bs: seq<Brick>)
  {
    forall i :: 0 <= i < |bs| ==> bs[i].brickType < BrickTypes
  }

  /** The bursts of several destroyed bricks, in order. */
  function Bursts(bs: seq<Brick>): seq<Particle>
    requires KnownTypes(bs)
  {
    if |bs| == 0 then [] else Bursts(bs[..|bs| - 1]) + Burst(bs[|bs| - 1])
  }

  lemma BurstsSnoc(bs: seq<Brick>, b: Brick)
    requires KnownTypes(bs) && b.brickType < BrickTypes
    ensures KnownTypes(bs + [b]) && Bursts(bs + [b]) == Bursts(bs) + Burst(b)
  {
    assert (bs + [b])[..|bs|] == bs;
  }

  lemma ScoresSnoc(bs: seq<Brick>, b: Brick)
    ensures Scores(bs + [b]) == Scores(bs) + [b.score]
  {
  }

  /** A brick group in play: every brick in shape, none listed twice. */
  ghost predicate BricksOK(bs: seq<Brick>)
    reads bs
  {
    && (forall i :: 0 <= i < |bs| ==> bs[i].Valid())
    && (forall i, j :: 0 <= i < j < |bs| ==> bs[i] != bs[j])
  }

  /** Killing one brick leaves a group in play that no longer holds it. */
  lemma RemoveAtOK(bs: seq<Brick>, k: nat)
    requires k < |bs| && BricksOK(bs)
    ensures BricksOK(RemoveAt(bs, k)) && bs[k] !in RemoveAt(bs, k)
  {
    var r := RemoveAt(bs, k);
    forall i, j | 0 <= i < j < |r| ensures r[i] != r[j] {
      assert r[i] == bs[if i < k then i else i + 1];
      assert r[j] == bs[if j < k then j else j + 1];
    }
    forall i | 0 <= i < |r| ensures r[i] != bs[k] {
      assert r[i] == bs[if i < k then i else i + 1];
    }
  }

  /** A brick that is in shape again (after a hit it survived) puts the group back in play. */
  lemma RestoreOK(bs: seq<Brick>, k: nat)
    requires k < |bs| && BricksOK(RemoveAt(bs, k)) && bs[k] !in RemoveAt(bs, k) && bs[k].Valid()
    ensures BricksOK(bs)
  {
    var r := RemoveAt(bs, k);
    forall i | 0 <= i < |bs| && i != k ensures bs[i] in r && bs[i] == r[if i < k then i else i - 1] {
    }
    forall i, j | 0 <= i < j < |bs| ensures bs[i] != bs[j] {
      if i != k && j != k {
        assert r[if i < k then i else i - 1] != r[if j < k then j else j - 1];
      }
    }
  }

  // ---------------------------------------------------------------- Bullets against bricks

  /** What `_handle_bullet_collisions` leaves: surviving bullets and bricks, and the bricks destroyed, in order. */
  datatype Sweep = Sweep(kept: seq<Projectile>, left: seq<Brick>, destroyed: seq<Brick>)

  /** One bullet against the bricks left: it takes the first one it overlaps, or it is kept. */
  function SweepStep(r: Sweep, b: Projectile): (r': Sweep)
    ensures |r'.kept| + |r'.destroyed| == |r.kept| + |r.destroyed| + 1
    ensures |r'.left| + |r'.destroyed| == |r.left| + |r.destroyed|
    ensures forall x :: x in r'.left ==> x in r.left
    ensures forall x :: x in r'.destroyed ==> x in r.destroyed || x in r.left
    ensures forall x :: x in r'.kept ==> x in r.kept || x == b
  {
    match FirstOverlap(BrickRects(r.left), b.rect)
    case None => Sweep(r.kept + [b], r.left, r.destroyed)
    case Some(k) => Sweep(r.kept, RemoveAt(r.left, k), r.destroyed + [r.left[k]])
  }

  /** `k` is the first brick of `left`, in group order, that `r` overlaps. */
  predicate FirstHitAt(left: seq<Brick>, r: Rect, k: int)
  {
    && 0 <= k < |left| && Overlaps(left[k].rect, r)
    && forall j :: 0 <= j < k ==> !Overlaps(left[j].rect, r)
  }

  /**
   * The bullet rule: a bullet is kept exactly when it overlaps no remaining
   * brick; otherwise it destroys the first remaining brick it overlaps, which
   * leaves the group.
   */
  lemma SweepStepMeaning(r: Sweep, b: Projectile)
    ensures SweepStep(r, b).kept == r.kept + [b] <==>
      forall j :: 0 <= j < |r.left| ==> !Overlaps(r.left[j].rect, b.rect)
    ensures (forall j :: 0 <= j < |r.left| ==> !Overlaps(r.left[j].rect, b.rect)) ==>
      SweepStep(r, b) == Sweep(r.kept + [b], r.left, r.destroyed)
    ensures forall k :: FirstHitAt(r.left, b.rect, k) ==>
      SweepStep(r, b) == Sweep(r.kept, RemoveAt(r.left, k), r.destroyed + [r.left[k]])
  {
  }

  /**
   * Each bullet in turn destroys the first remaining brick it overlaps and
   * disappears with it; a bullet that overlaps nothing stays.
   */
  function SweepBullets(bs: seq<Projectile>, bricks: seq<Brick>): (r: Sweep)
    ensures |r.kept| + |r.destroyed| == |bs|
    ensures |r.left| + |r.destroyed| == |bricks|
    ensures forall x :: x in r.left ==> x in bricks
    ensures forall x :: x in r.destroyed ==> x in bricks
    ensures forall x :: x in r.kept ==> x in bs
  {
    if |bs| == 0 then Sweep([], bricks, [])
    else SweepStep(SweepBullets(bs[..|bs| - 1], bricks), bs[|bs| - 1])
  }

  /** A sweep neither invents nor loses bricks: those left and those destroyed are the bricks it started with. */
  lemma {:induction false} SweepConservesBricks(bs: seq<Projectile>, bricks: seq<Brick>)
    ensures var r := SweepBullets(bs, bricks); multiset(r.left) + multiset(r.destroyed) == multiset(bricks)
  {
    if |bs| > 0 {
      var r := SweepBullets(bs[..|bs| - 1], bricks);
      SweepConservesBricks(bs[..|bs| - 1], bricks);
      match FirstOverlap(BrickRects(r.left), bs[|bs| - 1].rect)
      case None =>
      case Some(k) =>
        assert multiset(r.destroyed + [r.left[k]]) == multiset(r.destroyed) + multiset{r.left[k]};
        assert multiset(RemoveAt(r.left, k)) + multiset{r.left[k]} == multiset(r.left);
    }
  }

  /** The sweep of one more bullet is one more step. */
  lemma SweepBulletsSnoc(bs: seq<Projectile>, i: nat, bricks: seq<Brick>)
    requires i < |bs|
    ensures SweepBullets(bs[..i + 1], bricks) == SweepStep(SweepBullets(bs[..i], bricks), bs[i])
  {
    assert bs[..i + 1][..i] == bs[..i];
  }

  /**
   * The `for brick in bricks: if r.colliderect(brick.rect): … break` search:
   * the first brick, in group order, that `r` overlaps.
   */
  method FirstBrickHit(bricks: seq<Brick>, r: Rect) returns (k: Option<nat>)
    ensures k == FirstOverlap(BrickRects(bricks), r)
    ensures k.Some? ==> k.value < |bricks| && Overlaps(r, bricks[k.value].rect)
  {
    var i := 0;
    while i < |bricks| && !Overlaps(r, bricks[i].rect)
      invariant 0 <= i <= |bricks|
      invariant forall j :: 0 <= j < i ==> !Overlaps(r, bricks[j].rect)
    {
      i := i + 1;
    }
    FirstOverlapIs(BrickRects(bricks), r, i);
    k := if i < |bricks| then Some(i) else None;
  }

  /** The bricks a sweep leaves are still a group in play. */
  lemma {:induction false} SweepLeavesBricksOK(bs: seq<Projectile>, bricks: seq<Brick>)
    requires BricksOK(bricks)
    ensures BricksOK(SweepBullets(bs, bricks).left)
  {
    if |bs| > 0 {
      var r := SweepBullets(bs[..|bs| - 1], bricks);
      SweepLeavesBricksOK(bs[..|bs| - 1], bricks);
      match FirstOverlap(BrickRects(r.left), bs[|bs| - 1].rect)
      case None =>
      case Some(k) => RemoveAtOK(r.left, k);
    }
  }

  /** The combo, score, particles and last points after a run of destructions. */
  datatype Tally = Tally(combo: int, score: int, burst: seq<Particle>, last: Option<int>)

  /**
   * Destroying the bricks `destroyed` in order, starting from `combo` and
   * `score`: each raises the combo, then scores at the raised combo, and
   * bursts into particles.
   */
  /** One destruction: the combo goes up, the brick scores at the raised combo and bursts into particles. */
  function Destroy(t: Tally, x: Brick): Tally
    requires x.brickType < BrickTypes
  {
    var c := t.combo + 1;
    var p := Points(x.score, c);
    Tally(c, t.score + p, t.burst + Burst(x), Some(p))
  }

  /** Destroying the bricks `destroyed` in order, starting from `combo` and `score`. */
  function TallyOf(destroyed: seq<Brick>, combo: int, score: int): Tally
    requires KnownTypes(destroyed)
  {
    if |destroyed| == 0 then Tally(combo, score, [], None)
    else Destroy(TallyOf(destroyed[..|destroyed| - 1], combo, score), destroyed[|destroyed| - 1])
  }

  lemma TallyOfSnoc(destroyed: seq<Brick>, x: Brick, combo: int, score: int)
    requires KnownTypes(destroyed) && x.brickType < BrickTypes
    ensures KnownTypes(destroyed + [x])
    ensures TallyOf(destroyed + [x], combo, score) == Destroy(TallyOf(destroyed, combo, score), x)
  {
    assert (destroyed + [x])[..|destroyed|] == destroyed;
  }

  /** A run of destructions raises the combo by its length; the last points are the last brick's at that combo. */
  lemma {:induction false} TallyOfCombo(destroyed: seq<Brick>, combo: int, score: int)
    requires KnownTypes(destroyed)
    ensures var t := TallyOf(destroyed, combo, score);
      && t.combo == combo + |destroyed|
      && t.last == if |destroyed| == 0 then None else Some(Points(destroyed[|destroyed| - 1].score, t.combo))
  {
    if |destroyed| > 0 {
      TallyOfCombo(destroyed[..|destroyed| - 1], combo, score);
    }
  }

  /** A run of destructions adds its run points to the score. */
  lemma {:induction false} TallyOfScore(destroyed: seq<Brick>, combo: int, score: int)
    requires KnownTypes(destroyed)
    ensures TallyOf(destroyed, combo, score).score == score + RunPoints(Scores(destroyed), combo)
  {
    if |destroyed| > 0 {
      var n := |destroyed|;
      var init := destroyed[..n - 1];
      TallyOfScore(init, combo, score);
      TallyOfCombo(init, combo, score);
      var t0 := TallyOf(init, combo, score);
      assert TallyOf(destroyed, combo, score).score == t0.score + Points(destroyed[n - 1].score, t0.combo + 1);
      assert RunPoints(Scores(destroyed), combo) ==
        RunPoints(Scores(init), combo) + Points(destroyed[n - 1].score, combo + n) by {
        assert Scores(destroyed)[..n - 1] == Scores(init);
      }
    }
  }

  /** A run of destructions adds the bursts of its bricks, in order. */
  lemma {:induction false} TallyOfBurst(destroyed: seq<Brick>, combo: int, score: int)
    requires KnownTypes(destroyed)
    ensures TallyOf(destroyed, combo, score).burst == Bursts(destroyed)
  {
    if |destroyed| > 0 {
      TallyOfBurst(destroyed[..|destroyed| - 1], combo, score);
    }
  }

  /**
   * What a run of destructions adds up to: the combo goes up by the number
   * of bricks, the score by their run points, the particles by their bursts,
   * and the last points are those of the last brick at the final combo.
   */
  lemma TallyOfMeaning(destroyed: seq<Brick>, combo: int, score: int)
    requires KnownTypes(destroyed)
    ensures var t := TallyOf(destroyed, combo, score);
      && t.combo == combo + |destroyed|
      && t.score == score + RunPoints(Scores(destroyed), combo)
      && t.burst == Bursts(destroyed)
      && t.last == if |destroyed| == 0 then None else Some(Points(destroyed[|destroyed| - 1].score, t.combo))
  {
    TallyOfCombo(destroyed, combo, score);
    TallyOfScore(destroyed, combo, score);
    TallyOfBurst(destroyed, combo, score);
  }

  /** With a combo and bricks that are not negative, a run of destructions never lowers the score. */
  lemma TallyOfGrows(destroyed: seq<Brick>, combo: int, score: int)
    requires KnownTypes(destroyed) && combo >= 0
    requires forall i :: 0 <= i < |destroyed| ==> destroyed[i].score >= 0
    ensures TallyOf(destroyed, combo, score).score >= score
  {
    TallyOfMeaning(destroyed, combo, score);
    RunPointsNonNegative(Scores(destroyed), combo);
  }

  /**
   * One pass of the loop of `_handle_bullet_collisions`: the bullet destroys
   * the first remaining brick it overlaps and is dropped, or it is kept.
   */
  method SweepOne(b: Projectile, kept: seq<Projectile>, left: seq<Brick>, t: Tally,
                  ghost destroyed: seq<Brick>, ghost combo: int, ghost score: int)
    returns (kept': seq<Projectile>, left': seq<Brick>, t': Tally, ghost destroyed': seq<Brick>)
    requires KnownTypes(left) && KnownTypes(destroyed) && t == TallyOf(destroyed, combo, score)
    ensures Sweep(kept', left', destroyed') == SweepStep(Sweep(kept, left, destroyed), b)
    ensures KnownTypes(left') && KnownTypes(destroyed') && t' == TallyOf(destroyed', combo, score)
  {
    var hit := FirstBrickHit(left, b.rect);
    if hit.None? {
      kept', left', t', destroyed' := kept + [b], left, t, destroyed;
    } else {
      var j := hit.value;
      var brick := left[j];
      TallyOfSnoc(destroyed, brick, combo, score);
      kept', left', t', destroyed' := kept, RemoveAt(left, j), Destroy(t, brick), destroyed + [brick];
    }
  }

  /**
   * The loop of `_handle_bullet_collisions` on copies of the groups and
   * counters: the surviving bullets and bricks, and the combo, score,
   * particles and last points the destructions add up to.
   */
  method SweepAndTally(bs: seq<Projectile>, bricks: seq<Brick>, combo: int, score: int)
    returns (kept: seq<Projectile>, left: seq<Brick>, t: Tally)
    requires BricksOK(bricks) && combo >= 0
    ensures var r := SweepBullets(bs, bricks);
      && kept == r.kept && left == r.left && KnownTypes(r.destroyed)
      && t == TallyOf(r.destroyed, combo, score)
    ensures BricksOK(left) && t.combo >= combo && t.score >= score
  {
    left, kept := bricks, [];
    t := Tally(combo, score, [], None);
    ghost var destroyed: seq<Brick> := [];
    var i := 0;
    while i < |bs|
      invariant 0 <= i <= |bs|
      invariant Sweep(kept, left, destroyed) == SweepBullets(bs[..i], bricks)
      invariant KnownTypes(left) && KnownTypes(destroyed)
      invariant t == TallyOf(destroyed, combo, score)
    {
      SweepBulletsSnoc(bs, i, bricks);
      kept, left, t, destroyed := SweepOne(bs[i], kept, left, t, destroyed, combo, score);
      i := i + 1;
    }
    assert bs[..|bs|] == bs;
    SweepLeavesBricksOK(bs, bricks);
    SweepTallyGrows(bs, bricks, combo, score);
  }

  /** Bullets only ever add to the combo and, with bricks in shape, to the score. */
  lemma SweepTallyGrows(bs: seq<Projectile>, bricks: seq<Brick>, combo: int, score: int)
    requires BricksOK(bricks) && combo >= 0
    ensures var d := SweepBullets(bs, bricks).destroyed;
      KnownTypes(d) && TallyOf(d, combo, score).combo >= combo && TallyOf(d, combo, score).score >= score
  {
    var d := SweepBullets(bs, bricks).destroyed;
    forall k | 0 <= k < |d| ensures d[k].brickType < BrickTypes && d[k].score >= 0 {
      assert d[k] in bricks;
    }
    TallyOfGrows(d, combo, score);
    TallyOfMeaning(d, combo, score);
  }

  /** Shipped levels all have at least one brick (each has one in the fifth cell of its first row). */
  lemma ShippedLevelsNotEmpty(level: nat)
    requires level < |LevelPatterns|
    ensures |LevelLayout(level)| > 0
  {
    var p := LevelPatterns[level];
    LayoutSpec(p);
    assert CellAt(0, 4, p[0][4]) in Layout(p);
  }

  // ---------------------------------------------------------------- Input

  datatype Key = Escape | Space | KeyR | KeyF | OtherKey
  datatype Event = Quit | KeyDown(key: Key) | MouseDown(button: int) | OtherEvent

  /** SPACE or a left click in the menu; SPACE or R after a game has ended. */
  predicate StartsNewGame(e: Event, state: GameState)
  {
    || (state == Menu && (e == KeyDown(Space) || e == MouseDown(1)))
    || ((state == GameOver || state == Win) && (e == KeyDown(Space) || e == KeyDown(KeyR)))
  }

  /** SPACE or a left click while playing with the ball still on the paddle. */
  predicate LaunchesBall(e: Event, state: GameState, ballActive: bool)
  {
    state == Playing && !ballActive && (e == KeyDown(Space) || e == MouseDown(1))
  }

  // ---------------------------------------------------------------- The session

  class Game {
    var state: GameState
    var score: int
    var lives: int
    var combo: int
    var lastBulletTime: int
    var running: bool
    var fullscreen: bool
    var paddle: Paddle
    var ball: Ball
    var bricks: seq<Brick>
    var particles: seq<Particle>
    var bullets: seq<Projectile>
    const levels: LevelManager
    const powerups: PowerUpManager

    /** The objects the session owns are in shape: sizes, brick health, distinct bricks, counters. */
    ghost predicate Parts()
      reads this, paddle, ball, levels, bricks
    {
      && paddle.Valid() && ball.Valid()
      && levels.totalLevels == |LevelPatterns|
      && BricksOK(bricks)
      && score >= 0 && combo >= 0
    }

    /**
     * Between frames: the level index is in range until the game is won, a
     * level being played (or paused) still has bricks, and a completed level has none.
     */
    ghost predicate Valid()
      reads this, paddle, ball, levels, bricks
    {
      && Parts()
      && (if state == Win then levels.currentLevel == levels.totalLevels else levels.currentLevel < levels.totalLevels)
      && ((state == Playing || state == Paused) ==> |bricks| > 0)
      && (state == LevelComplete ==> bricks == [])
    }

    /**
     * The window opens on the menu. The paddle and ball are created here in
     * their starting places (they are replaced when a level is set up).
     */
    constructor ()
      ensures Valid()
      ensures state == Menu && score == 0 && lives == InitialLives && combo == 0
      ensures running && !fullscreen && lastBulletTime == 0
      ensures bricks == [] && particles == [] && bullets == []
      ensures levels.currentLevel == 0 && powerups.active == map[] && powerups.pickups == []
    {
      state := Menu;
      score := 0;
      lives := InitialLives;
      combo := 0;
      lastBulletTime := 0;
      running := true;
      fullscreen := false;
      paddle := new Paddle(ScreenWidth / 2, PaddleY);
      ball := new Ball(ScreenWidth / 2, PaddleY - 30, Vec(0, 0));
      bricks := [];
      particles := [];
      bullets := [];
      levels := new LevelManager();
      powerups := new PowerUpManager();
    }

    /** A level has just been set up: fresh paddle and ball, the level's bricks, nothing else on screen. */
    ghost predicate LevelStarted(level: nat, startV: Vec)
      reads this, paddle, ball, levels, powerups
    {
      && level < |LevelPatterns|
      && levels.currentLevel == level
      && Cells(bricks) == LevelLayout(level)
      && particles == [] && bullets == []
      && powerups.active == map[] && powerups.pickups == []
      && paddle.rect == CenteredAt(ScreenWidth / 2, PaddleY, PaddleWidth, PaddleHeight)
      && ball.rect == CenteredAt(ScreenWidth / 2, PaddleY - 30, BallSize, BallSize)
      && !ball.active && ball.velocity == startV && ball.speedMultiplier == 1.0
    }

    /** The current level's bricks, fresh, at full health and distinct; never none. */
    method LoadBricks()
      requires levels.totalLevels == |LevelPatterns| && levels.currentLevel < levels.totalLevels
      modifies this, levels
      ensures levels.currentLevel == old(levels.currentLevel)
      ensures Cells(bricks) == LevelLayout(levels.currentLevel) && |bricks| > 0
      ensures forall i :: 0 <= i < |bricks| ==> fresh(bricks[i]) && bricks[i].Valid()
      ensures forall i, j :: 0 <= i < j < |bricks| ==> bricks[i] != bricks[j]
      ensures state == old(state) && score == old(score) && lives == old(lives) && combo == old(combo)
      ensures running == old(running) && fullscreen == old(fullscreen) && lastBulletTime == old(lastBulletTime)
      ensures paddle == old(paddle) && ball == old(ball) && particles == old(particles) && bullets == old(bullets)
    {
      bricks := levels.GetLevelBricks(None);
      ShippedLevelsNotEmpty(levels.currentLevel);
    }

    /** `_setup_level`: clear the groups and the effects, new paddle and ball, the current level's bricks. */
    method SetupLevel(startV: Vec)
      requires levels.totalLevels == |LevelPatterns| && levels.currentLevel < levels.totalLevels
      requires score >= 0 && combo >= 0
      modifies this, levels, powerups
      ensures Parts() && LevelStarted(levels.currentLevel, startV)
      ensures fresh(paddle) && fresh(ball) && forall b :: b in bricks ==> fresh(b)
      ensures |bricks| > 0
      ensures levels.currentLevel == old(levels.currentLevel)
      ensures state == old(state) && score == old(score) && lives == old(lives) && combo == old(combo)
      ensures running == old(running) && fullscreen == old(fullscreen) && lastBulletTime == old(lastBulletTime)
    {
      particles := [];
      bullets := [];
      powerups.Clear();
      paddle := new Paddle(ScreenWidth / 2, PaddleY);
      ball := new Ball(ScreenWidth / 2, PaddleY - 30, startV);
      LoadBricks();
    }

    /** `new_game`: score 0, three lives, no combo, first level, playing. */
    method NewGame(startV: Vec)
      requires levels.totalLevels == |LevelPatterns|
      modifies this, levels, powerups
      ensures Valid()
      ensures score == 0 && lives == InitialLives && combo == 0 && state == Playing
      ensures LevelStarted(0, startV)
      ensures running == old(running) && fullscreen == old(fullscreen) && lastBulletTime == old(lastBulletTime)
    {
      score := 0;
      lives := InitialLives;
      combo := 0;
      levels.Reset();
      powerups.Clear();
      SetupLevel(startV);
      state := Playing;
    }
  
    /** ESC pauses or resumes play, quits from the menu and the end screens, and is ignored after a level. */
    method PressEscape()
      requires Valid()
      modifies this
      ensures Valid()
      ensures old(state) == Playing ==> state == Paused && running == old(running)
      ensures old(state) == Paused ==> state == Playing && running == old(running)
      ensures old(state) in {Menu, GameOver, Win} ==> !running && state == old(state)
      ensures old(state) == LevelComplete ==> state == LevelComplete && running == old(running)
      ensures score == old(score) && lives == old(lives) && combo == old(combo) && bricks == old(bricks)
      ensures paddle == old(paddle) && ball == old(ball) && fullscreen == old(fullscreen)
    {
      if state == Playing {
        state := Paused;
      } else if state == Paused {
        state := Playing;
      } else if state in {Menu, GameOver, Win} {
        running := false;
      }
    }

    /** SPACE after a completed level: the next level if there is one, else the win screen. */
    method Advance(startV: Vec)
      requires Valid() && state == LevelComplete
      modifies this, levels, powerups
      ensures Valid()
      ensures if old(levels.currentLevel) + 1 < |LevelPatterns| then
          state == Playing && LevelStarted(old(levels.currentLevel) + 1, startV)
        else
          state == Win && levels.currentLevel == |LevelPatterns| && bricks == old(bricks)
      ensures score == old(score) && lives == old(lives) && combo == old(combo)
      ensures running == old(running) && fullscreen == old(fullscreen)
    {
      var more := levels.NextLevel();
      if more {
        SetupLevel(startV);
        state := Playing;
      } else {
        state := Win;
      }
    }

    /** SPACE: start, launch, resume, advance or restart, depending on the state. */
    method PressSpace(startV: Vec, launchV: Vec)
      requires Valid()
      modifies this, ball, levels, powerups
      ensures Valid()
      ensures StartsNewGame(KeyDown(Space), old(state)) ==>
        && score == 0 && lives == InitialLives && combo == 0 && state == Playing
        && LevelStarted(0, startV)
      ensures LaunchesBall(KeyDown(Space), old(state), old(ball.active)) ==>
        && state == Playing && ball == old(ball) && ball.active && ball.velocity == launchV
        && ball.rect == old(ball.rect) && bricks == old(bricks)
      ensures old(state) == Paused ==> state == Playing && bricks == old(bricks)
      ensures old(state) == Playing && old(ball.active) ==> state == Playing && ball == old(ball) && bricks == old(bricks)
      ensures old(state) == LevelComplete ==>
        if old(levels.currentLevel) + 1 < |LevelPatterns| then
          state == Playing && LevelStarted(old(levels.currentLevel) + 1, startV)
        else
          state == Win && levels.currentLevel == |LevelPatterns| && bricks == old(bricks)
      ensures !StartsNewGame(KeyDown(Space), old(state)) ==>
        score == old(score) && lives == old(lives) && combo == old(combo)
      ensures old(state) !in {Menu, GameOver, Win, LevelComplete} ==> bricks == old(bricks)
      ensures running == old(running) && fullscreen == old(fullscreen)
    {
      if state == Menu {
        NewGame(startV);
      } else if state == Playing && !ball.active {
        ball.Launch(launchV);
      } else if state == Paused {
        state := Playing;
      } else if state == LevelComplete {
        Advance(startV);
      } else if state in {GameOver, Win} {
        NewGame(startV);
      }
    }

    /** A left click starts a game from the menu or launches a resting ball. */
    method LeftClick(startV: Vec, launchV: Vec)
      requires Valid()
      modifies this, ball, levels, powerups
      ensures Valid()
      ensures StartsNewGame(MouseDown(1), old(state)) ==>
        && score == 0 && lives == InitialLives && combo == 0 && state == Playing
        && LevelStarted(0, startV)
      ensures LaunchesBall(MouseDown(1), old(state), old(ball.active)) ==>
        && state == Playing && ball == old(ball) && ball.active && ball.velocity == launchV
        && ball.rect == old(ball.rect) && bricks == old(bricks)
      ensures old(state) != Menu ==>
        state == old(state) && score == old(score) && lives == old(lives) && combo == old(combo) && bricks == old(bricks)
      ensures running == old(running) && fullscreen == old(fullscreen)
    {
      if state == Menu {
        NewGame(startV);
      } else if state == Playing && !ball.active {
        ball.Launch(launchV);
      }
    }

    /**
     * `_handle_events` for one event. `startV` is the start velocity a new
     * ball draws, `launchV` the velocity a launch draws.
     */
    method HandleEvent(e: Event, startV: Vec, launchV: Vec)
      requires Valid()
      modifies this, ball, levels, powerups
      ensures Valid()
      ensures e == Quit ==> !running && state == old(state)
      ensures e == KeyDown(Escape) ==>
        && (old(state) == Playing ==> state == Paused)
        && (old(state) == Paused ==> state == Playing)
        && (old(state) in {Menu, GameOver, Win} ==> !running && state == old(state))
        && (old(state) == LevelComplete ==> state == LevelComplete)
      ensures StartsNewGame(e, old(state)) ==>
        && score == 0 && lives == InitialLives && combo == 0 && state == Playing
        && LevelStarted(0, startV)
      ensures LaunchesBall(e, old(state), old(ball.active)) ==>
        && state == Playing && ball == old(ball) && ball.active && ball.velocity == launchV
        && ball.rect == old(ball.rect) && bricks == old(bricks)
      ensures e == KeyDown(Space) && old(state) == Paused ==> state == Playing
      ensures e == KeyDown(Space) && old(state) == LevelComplete ==>
        if old(levels.currentLevel) + 1 < |LevelPatterns| then
          state == Playing && LevelStarted(old(levels.currentLevel) + 1, startV)
        else
          state == Win && levels.currentLevel == |LevelPatterns|
      ensures e == KeyDown(KeyF) ==> fullscreen == !old(fullscreen) && state == old(state)
      ensures e == OtherEvent || e == KeyDown(OtherKey) || (e.MouseDown? && e.button != 1) ==>
        state == old(state) && running == old(running) && bricks == old(bricks)
      ensures !StartsNewGame(e, old(state)) ==> score == old(score) && lives == old(lives) && combo == old(combo)
    {
      match e
      case Quit =>
        running := false;
      case KeyDown(key) =>
        if key == Escape {
          PressEscape();
        } else if key == Space {
          PressSpace(startV, launchV);
        } else if key == KeyR && state in {GameOver, Win} {
          NewGame(startV);
        } else if key == KeyF {
          fullscreen := !fullscreen;
        }
      case MouseDown(button) =>
        if button == 1 {
          LeftClick(startV, launchV);
        }
      case OtherEvent =>
    }

    // ---------------------------------------------------------------- One frame of play

    /**
     * Paddle and ball movement, the speed effect shown on screen, and the
     * paddle bounce (which breaks the combo).
     */
    method UpdateMotion(targetX: int, dt: int, aim: (real, Vec) -> Vec) returns (paddleHit: bool)
      requires Parts()
      modifies this, paddle, ball
      ensures Parts()
      ensures paddle == old(paddle) && ball == old(ball) && bricks == old(bricks)
      ensures paddle.rect == ClampToScreen(old(paddle.rect).AtCenterX(StepToward(old(paddle.rect).CenterX(), targetX)))
      ensures 0 <= paddle.rect.left && paddle.rect.Right() <= ScreenWidth
      ensures (paddle.scoreDisplay, paddle.scoreDisplayTimer) ==
        CountDown(old(paddle.scoreDisplay), old(paddle.scoreDisplayTimer), dt)
      ensures paddle.powerupTimer == CountDown(old(paddle.activePowerup), old(paddle.powerupTimer), dt).1
      ensures ball.speedMultiplier == EffectMultiplier(ActiveType(powerups.active))
      ensures paddle.activePowerup == ActiveType(powerups.active)
      ensures ball.active == old(ball.active)
      ensures var moved := BallMotion(old(ball.rect), old(ball.velocity), old(ball.active), paddle.rect);
        && (paddleHit <==> Overlaps(moved.0, paddle.rect) && moved.1.y > 0)
        && (ball.rect, ball.velocity) == PaddleBounce(moved.0, moved.1, paddle.rect, aim)
      ensures paddleHit ==> combo == 0 && !Overlaps(ball.rect, paddle.rect)
      ensures !paddleHit ==> combo == old(combo)
      ensures state == old(state) && score == old(score) && lives == old(lives)
      ensures particles == old(particles) && bullets == old(bullets) && lastBulletTime == old(lastBulletTime)
    {
      paddle.Update(targetX, dt);
      ball.Update(paddle.rect);
      var shown := powerups.GetActiveType();
      ball.SetSpeedMultiplier(EffectMultiplier(shown));
      paddle.activePowerup := shown;
      paddleHit := ball.CollidePaddle(paddle.rect, aim);
      if paddleHit {
        combo := 0;
      }
    }

    /**
     * What destroying `brick` earns, by ball or bullet: the combo goes up,
     * the points for the new combo are added and shown on the paddle, and
     * the brick bursts into particles.
     */
    method ScoreDestroyed(brick: Brick)
      requires brick.brickType < BrickTypes && score >= 0 && combo >= 0 && brick.score >= 0
      modifies this, paddle
      ensures combo == old(combo) + 1
      ensures score == old(score) + Points(brick.score, combo) && score >= old(score)
      ensures paddle.scoreDisplay == ScoreTier(Points(brick.score, combo))
      ensures particles == old(particles) + Burst(brick)
      ensures paddle.rect == old(paddle.rect) && paddle.activePowerup == old(paddle.activePowerup)
      ensures paddle.sprite == old(paddle.sprite)
      ensures paddle == old(paddle) && ball == old(ball) && bricks == old(bricks) && bullets == old(bullets)
      ensures state == old(state) && lives == old(lives) && lastBulletTime == old(lastBulletTime)
    {
      combo := combo + 1;
      var points := Points(brick.score, combo);
      ComboBonus(brick.score, combo);
      score := score + points;
      paddle.ShowScore(points);
      particles := particles + Burst(brick);
    }

    /** The reward for a brick destroyed by the ball, and the pickup it may drop. */
    method RewardDestroyed(brick: Brick, roll: real, kind: PowerUpType)
      requires brick.brickType < BrickTypes && score >= 0 && combo >= 0 && brick.score >= 0
      modifies this, paddle, powerups
      ensures combo == old(combo) + 1
      ensures score == old(score) + Points(brick.score, combo) && score >= old(score)
      ensures paddle.scoreDisplay == ScoreTier(Points(brick.score, combo))
      ensures particles == old(particles) + Burst(brick)
      ensures powerups.pickups ==
        if ShouldSpawn(roll) then old(powerups.pickups) + [NewPickup(brick.rect.CenterX(), brick.rect.CenterY(), kind)]
        else old(powerups.pickups)
      ensures powerups.active == old(powerups.active)
      ensures paddle.rect == old(paddle.rect) && paddle.activePowerup == old(paddle.activePowerup)
      ensures paddle == old(paddle) && ball == old(ball) && bricks == old(bricks) && bullets == old(bullets)
      ensures state == old(state) && lives == old(lives) && lastBulletTime == old(lastBulletTime)
    {
      ScoreDestroyed(brick);
      var _ := powerups.SpawnPowerup(brick.rect.CenterX(), brick.rect.CenterY(), roll, kind);
    }

    /**
     * The hit on the `k`-th brick: it loses one health point; when that
     * destroys it, it is rewarded and leaves the group.
     */
    method HitBrickAt(k: nat, roll: real, kind: PowerUpType) returns (destroyed: bool)
      requires k < |bricks| && BricksOK(bricks) && score >= 0 && combo >= 0
      modifies this, paddle, powerups, bricks[k]
      ensures BricksOK(bricks)
      ensures var b := old(bricks)[k];
        && b.health == old(b.health) - 1
        && (destroyed <==> b.health <= 0)
        && (!destroyed ==>
              bricks == old(bricks) && score == old(score) && combo == old(combo)
              && particles == old(particles) && powerups.pickups == old(powerups.pickups))
        && (destroyed ==>
              && bricks == RemoveAt(old(bricks), k)
              && combo == old(combo) + 1
              && score == old(score) + Points(b.score, combo)
              && paddle.scoreDisplay == ScoreTier(Points(b.score, combo))
              && particles == old(particles) + Burst(b)
              && powerups.pickups ==
                   if ShouldSpawn(roll) then old(powerups.pickups) + [NewPickup(b.rect.CenterX(), b.rect.CenterY(), kind)]
                   else old(powerups.pickups))
      ensures score >= old(score) && combo >= 0
      ensures paddle == old(paddle) && ball == old(ball)
      ensures paddle.rect == old(paddle.rect) && paddle.activePowerup == old(paddle.activePowerup)
      ensures powerups.active == old(powerups.active)
      ensures state == old(state) && lives == old(lives) && bullets == old(bullets) && lastBulletTime == old(lastBulletTime)
    {
      var brick := bricks[k];
      RemoveAtOK(bricks, k);
      destroyed := brick.Hit();
      if destroyed {
        RewardDestroyed(brick, roll, kind);
        bricks := RemoveAt(bricks, k);
      } else {
        RestoreOK(bricks, k);
      }
    }

    /**
     * `_handle_brick_collisions`: the first brick the ball overlaps deflects
     * it (Resolve) and takes a hit. At most one brick per frame.
     */
    method HandleBrickCollisions(roll: real, kind: PowerUpType) returns (hitIndex: Option<nat>)
      requires Parts()
      modifies this, ball, paddle, powerups, bricks
      ensures Parts()
      ensures hitIndex == FirstOverlap(BrickRects(old(bricks)), old(ball.rect))
      ensures hitIndex.None? ==>
        && bricks == old(bricks) && score == old(score) && combo == old(combo)
        && ball.rect == old(ball.rect) && ball.velocity == old(ball.velocity)
        && particles == old(particles) && powerups.pickups == old(powerups.pickups)
      ensures hitIndex.Some? ==>
        var k := hitIndex.value;
        var b := old(bricks)[k];
        && (ball.rect, ball.velocity) == Resolve(old(ball.rect), old(ball.velocity), b.rect)
        && b.health == old(b.health) - 1
        && (b.health > 0 ==>
              && bricks == old(bricks) && score == old(score) && combo == old(combo)
              && particles == old(particles) && powerups.pickups == old(powerups.pickups))
        && (b.health <= 0 ==>
              && bricks == RemoveAt(old(bricks), k)
              && combo == old(combo) + 1
              && score == old(score) + Points(b.score, combo)
              && paddle.scoreDisplay == ScoreTier(Points(b.score, combo))
              && particles == old(particles) + Burst(b)
              && powerups.pickups ==
                   if ShouldSpawn(roll) then old(powerups.pickups) + [NewPickup(b.rect.CenterX(), b.rect.CenterY(), kind)]
                   else old(powerups.pickups))
      ensures score >= old(score)
      ensures paddle == old(paddle) && ball == old(ball)
      ensures paddle.rect == old(paddle.rect) && paddle.activePowerup == old(paddle.activePowerup)
      ensures ball.active == old(ball.active) && ball.speedMultiplier == old(ball.speedMultiplier)
      ensures powerups.active == old(powerups.active)
      ensures state == old(state) && lives == old(lives) && bullets == old(bullets) && lastBulletTime == old(lastBulletTime)
    {
      hitIndex := FirstBrickHit(bricks, ball.rect);
      if hitIndex.None? {
        return;
      }
      var k := hitIndex.value;
      var resolved := Resolve(ball.rect, ball.velocity, bricks[k].rect);
      ball.rect, ball.velocity := resolved.0, resolved.1;
      var _ := HitBrickAt(k, roll, kind);
    }

    /** The ball below the screen costs a life and the combo; the last life ends the game, otherwise the ball goes back on the paddle. */
    method LoseBallIfOut() returns (lost: bool)
      requires ball.Valid()
      modifies this, ball
      ensures ball.Valid()
      ensures lost <==> old(ball.rect).top > ScreenHeight
      ensures lost ==> lives == old(lives) - 1 && combo == 0
      ensures lost && lives <= 0 ==>
        state == GameOver && ball.rect == old(ball.rect) && ball.active == old(ball.active)
        && ball.speedMultiplier == old(ball.speedMultiplier)
      ensures lost && lives > 0 ==>
        state == old(state) && !ball.active && ball.rect == RestOn(old(ball.rect), paddle.rect)
        && ball.speedMultiplier == 1.0
      ensures !lost ==>
        lives == old(lives) && combo == old(combo) && state == old(state)
        && ball.rect == old(ball.rect) && ball.active == old(ball.active)
        && ball.speedMultiplier == old(ball.speedMultiplier)
      ensures ball.velocity == old(ball.velocity)
      ensures paddle == old(paddle) && ball == old(ball) && bricks == old(bricks) && score == old(score)
      ensures particles == old(particles) && bullets == old(bullets) && lastBulletTime == old(lastBulletTime)
    {
      lost := ball.IsOut();
      if lost {
        lives := lives - 1;
        combo := 0;
        if lives <= 0 {
          state := GameOver;
        } else {
          ball.Reset(paddle.rect);
        }
      }
    }

    /**
     * Expired effects are swept and pickups fall; then the first pickup
     * touching the paddle is collected and its effect shown on the paddle.
     */
    method UpdatePowerups(dt: int, now: int) returns (collected: Option<PowerUpType>)
      modifies powerups, paddle
      ensures var fallen := UpdateAll(old(powerups.pickups), FallPickup);
        var live := Unexpired(old(powerups.active), now);
        var k := FirstOverlap(PickupRects(fallen), paddle.rect);
        && (k.None? ==>
              && collected.None? && powerups.pickups == fallen && powerups.active == live
              && paddle.activePowerup == old(paddle.activePowerup) && paddle.powerupTimer == old(paddle.powerupTimer))
        && (k.Some? ==>
              && collected == Some(fallen[k.value].kind)
              && powerups.pickups == fallen[..k.value] + fallen[k.value + 1..]
              && powerups.active == live[fallen[k.value].kind := now + PowerupDuration]
              && paddle.activePowerup == collected && paddle.powerupTimer == PowerupDuration)
      ensures paddle.rect == old(paddle.rect) && paddle.scoreDisplay == old(paddle.scoreDisplay)
    {
      var _ := powerups.Update(dt, now);
      var duration;
      collected, duration := powerups.CheckCollision(paddle.rect, now);
      if collected.Some? {
        paddle.ActivatePowerup(collected.value, duration);
      }
    }

    /**
     * With the bullet effect running and the fire button held, a bullet
     * leaves the paddle's top centre once the cooldown has passed.
     */
    method FireGate(fire: bool, now: int) returns (fired: bool)
      modifies this
      ensures fired <==> powerups.IsActive(Bullet) && fire && now - old(lastBulletTime) > BulletCooldown
      ensures fired ==>
        bullets == old(bullets) + [NewBullet(paddle.rect.CenterX(), paddle.rect.top - 20)] && lastBulletTime == now
      ensures !fired ==> bullets == old(bullets) && lastBulletTime == old(lastBulletTime)
      ensures state == old(state) && score == old(score) && lives == old(lives) && combo == old(combo)
      ensures paddle == old(paddle) && ball == old(ball) && bricks == old(bricks) && particles == old(particles)
    {
      fired := false;
      if powerups.IsActive(Bullet) && fire && now - lastBulletTime > BulletCooldown {
        bullets := bullets + [NewBullet(paddle.rect.CenterX(), paddle.rect.top - 20)];
        lastBulletTime := now;
        fired := true;
      }
    }

    /**
     * `_handle_bullet_collisions`: each bullet in turn destroys the first
     * remaining brick it overlaps and disappears with it; every destruction
     * raises the combo and scores as the ball's would (SweepAndTally). The
     * paddle shows the points of the last destruction, which is what the
     * source's one `show_score` per destruction leaves on it.
     */
    method HandleBulletCollisions()
      requires BricksOK(bricks) && score >= 0 && combo >= 0
      modifies this, paddle
      ensures BricksOK(bricks)
      ensures var r := SweepBullets(old(bullets), old(bricks));
        && KnownTypes(r.destroyed)
        && var t := TallyOf(r.destroyed, old(combo), old(score));
        && bullets == r.kept && bricks == r.left
        && combo == t.combo && score == t.score && particles == old(particles) + t.burst
        && (t.last.Some? ==> paddle.scoreDisplay == ScoreTier(t.last.value))
        && (t.last.None? ==> paddle.scoreDisplay == old(paddle.scoreDisplay))
      ensures score >= old(score) && combo >= old(combo)
      ensures paddle.rect == old(paddle.rect) && paddle.activePowerup == old(paddle.activePowerup)
      ensures state == old(state) && lives == old(lives) && lastBulletTime == old(lastBulletTime)
      ensures paddle == old(paddle) && ball == old(ball)
      ensures powerups.pickups == old(powerups.pickups) && powerups.active == old(powerups.active)
    {
      var last := SweepIntoGroups();
      if last.Some? {
        paddle.ShowScore(last.value);
      }
    }

    /** The sweep and its tally, written back into the groups and counters; the points to show, if any. */
    method SweepIntoGroups() returns (last: Option<int>)
      requires BricksOK(bricks) && score >= 0 && combo >= 0
      modifies this
      ensures BricksOK(bricks)
      ensures var r := SweepBullets(old(bullets), old(bricks));
        && KnownTypes(r.destroyed)
        && var t := TallyOf(r.destroyed, old(combo), old(score));
        && bullets == r.kept && bricks == r.left
        && combo == t.combo && score == t.score && particles == old(particles) + t.burst && last == t.last
      ensures score >= old(score) && combo >= old(combo)
      ensures state == old(state) && lives == old(lives) && lastBulletTime == old(lastBulletTime)
      ensures paddle == old(paddle) && ball == old(ball)
    {
      var kept, left, t := SweepAndTally(bullets, bricks, combo, score);
      bullets, bricks := kept, left;
      combo, score, particles := t.combo, t.score, particles + t.burst;
      last := t.last;
    }

    /**
     * Movement, the paddle bounce and at most one brick hit: the part of a
     * frame before the ball can be lost.
     */
    method MoveAndHit(targetX: int, dt: int, aim: (real, Vec) -> Vec, roll: real, kind: PowerUpType)
      returns (bounced: bool, hitIndex: Option<nat>)
      requires Parts()
      modifies this, paddle, ball, powerups, bricks
      ensures Parts()
      ensures paddle.rect == ClampToScreen(old(paddle.rect).AtCenterX(StepToward(old(paddle.rect).CenterX(), targetX)))
      ensures var moved := BallMotion(old(ball.rect), old(ball.velocity), old(ball.active), paddle.rect);
        var bounce := PaddleBounce(moved.0, moved.1, paddle.rect, aim);
        && (bounced <==> Overlaps(moved.0, paddle.rect) && moved.1.y > 0)
        && hitIndex == FirstOverlap(BrickRects(old(bricks)), bounce.0)
        && (ball.rect, ball.velocity) ==
             if hitIndex.Some? then Resolve(bounce.0, bounce.1, old(bricks)[hitIndex.value].rect) else bounce
      ensures var base := if bounced then 0 else old(combo);
        && (hitIndex.None? ==>
              bricks == old(bricks) && score == old(score) && combo == base && particles == old(particles))
        && (hitIndex.Some? ==>
              var k := hitIndex.value;
              var b := old(bricks)[k];
              && b.health == old(b.health) - 1
              && (b.health > 0 ==>
                    bricks == old(bricks) && score == old(score) && combo == base && particles == old(particles))
              && (b.health <= 0 ==>
                    && bricks == RemoveAt(old(bricks), k)
                    && combo == base + 1
                    && score == old(score) + Points(b.score, combo)
                    && particles == old(particles) + Burst(b)))
      ensures score >= old(score)
      ensures forall b :: b in bricks ==> b in old(bricks)
      ensures state == old(state) && lives == old(lives)
      ensures paddle == old(paddle) && ball == old(ball)
      ensures bullets == old(bullets) && lastBulletTime == old(lastBulletTime)
    {
      bounced := UpdateMotion(targetX, dt, aim);
      ghost var bounce, base := (ball.rect, ball.velocity), combo;
      assert base == if bounced then 0 else old(combo);
      hitIndex := HandleBrickCollisions(roll, kind);
      assert hitIndex == FirstOverlap(BrickRects(old(bricks)), bounce.0);
    }

    /**
     * The ball's half of a frame: movement and speed effect, the paddle
     * bounce, at most one brick hit, and the ball lost below the screen.
     */
    method StepBall(targetX: int, dt: int, aim: (real, Vec) -> Vec, roll: real, kind: PowerUpType)
      returns (lost: bool, bounced: bool, hitIndex: Option<nat>)
      requires Parts() && state == Playing
      modifies this, paddle, ball, powerups, bricks
      ensures Parts()
      ensures paddle.rect == ClampToScreen(old(paddle.rect).AtCenterX(StepToward(old(paddle.rect).CenterX(), targetX)))
      ensures var moved := BallMotion(old(ball.rect), old(ball.velocity), old(ball.active), paddle.rect);
        var bounce := PaddleBounce(moved.0, moved.1, paddle.rect, aim);
        && (bounced <==> Overlaps(moved.0, paddle.rect) && moved.1.y > 0)
        && hitIndex == FirstOverlap(BrickRects(old(bricks)), bounce.0)
        && var after := if hitIndex.Some? then Resolve(bounce.0, bounce.1, old(bricks)[hitIndex.value].rect) else bounce;
        && ball.velocity == after.1
        && (lost <==> after.0.top > ScreenHeight)
        && ball.rect == if lost && lives > 0 then RestOn(after.0, paddle.rect) else after.0
      ensures var base := if bounced then 0 else old(combo);
        && (hitIndex.None? ==>
              bricks == old(bricks) && score == old(score) && combo == (if lost then 0 else base)
              && particles == old(particles))
        && (hitIndex.Some? ==>
              var k := hitIndex.value;
              var b := old(bricks)[k];
              && b.health == old(b.health) - 1
              && (b.health > 0 ==>
                    bricks == old(bricks) && score == old(score) && combo == (if lost then 0 else base)
                    && particles == old(particles))
              && (b.health <= 0 ==>
                    && bricks == RemoveAt(old(bricks), k)
                    && score == old(score) + Points(b.score, base + 1)
                    && combo == (if lost then 0 else base + 1)
                    && particles == old(particles) + Burst(b)))
      ensures lost ==> lives == old(lives) - 1 && combo == 0
      ensures !lost ==> lives == old(lives)
      ensures state == if lost && lives <= 0 then GameOver else Playing
      ensures score >= old(score)
      ensures forall b :: b in bricks ==> b in old(bricks)
      ensures paddle == old(paddle) && ball == old(ball)
      ensures bullets == old(bullets) && lastBulletTime == old(lastBulletTime)
    {
      bounced, hitIndex := MoveAndHit(targetX, dt, aim, roll, kind);
      lost := LoseBallIfOut();
    }

    /**
     * Bullets: one may be fired, all of them rise, and those that reach a
     * brick destroy it (`_handle_bullet_collisions`).
     */
    method Shoot(fire: bool, now: int) returns (fired: bool)
      requires BricksOK(bricks) && score >= 0 && combo >= 0
      modifies this, paddle
      ensures BricksOK(bricks)
      ensures fired <==> powerups.IsActive(Bullet) && fire && now - old(lastBulletTime) > BulletCooldown
      ensures lastBulletTime == if fired then now else old(lastBulletTime)
      ensures var shot := if fired then old(bullets) + [NewBullet(paddle.rect.CenterX(), paddle.rect.top - 20)] else old(bullets);
        var r := SweepBullets(UpdateAll(shot, MoveBullet), old(bricks));
        && KnownTypes(r.destroyed)
        && var t := TallyOf(r.destroyed, old(combo), old(score));
        && bullets == r.kept && bricks == r.left
        && combo == t.combo && score == t.score && particles == old(particles) + t.burst
        && (t.last.Some? ==> paddle.scoreDisplay == ScoreTier(t.last.value))
        && (t.last.None? ==> paddle.scoreDisplay == old(paddle.scoreDisplay))
      ensures score >= old(score) && combo >= old(combo)
      ensures paddle.rect == old(paddle.rect) && paddle.activePowerup == old(paddle.activePowerup)
      ensures powerups.pickups == old(powerups.pickups) && powerups.active == old(powerups.active)
      ensures state == old(state) && lives == old(lives)
      ensures paddle == old(paddle) && ball == old(ball)
    {
      fired := FireGate(fire, now);
      bullets := UpdateAll(bullets, MoveBullet);
      HandleBulletCollisions();
    }

    /**
     * The rest of a frame: effects expire and pickups fall and are collected,
     * particles age, a bullet may be fired, bullets rise and hit bricks.
     */
    method StepExtras(dt: int, now: int, fire: bool) returns (collected: Option<PowerUpType>, fired: bool)
      requires Parts()
      modifies this, paddle, powerups
      ensures Parts()
      ensures var fallen := UpdateAll(old(powerups.pickups), FallPickup);
        var live := Unexpired(old(powerups.active), now);
        var k := FirstOverlap(PickupRects(fallen), paddle.rect);
        && (k.None? ==>
              && collected.None? && powerups.pickups == fallen && powerups.active == live
              && paddle.activePowerup == old(paddle.activePowerup))
        && (k.Some? ==>
              && collected == Some(fallen[k.value].kind)
              && powerups.pickups == fallen[..k.value] + fallen[k.value + 1..]
              && powerups.active == live[fallen[k.value].kind := now + PowerupDuration]
              && paddle.activePowerup == collected)
      ensures fired <==> Bullet in powerups.active && fire && now - old(lastBulletTime) > BulletCooldown
      ensures lastBulletTime == if fired then now else old(lastBulletTime)
      ensures var shot := if fired then old(bullets) + [NewBullet(paddle.rect.CenterX(), paddle.rect.top - 20)] else old(bullets);
        var r := SweepBullets(UpdateAll(shot, MoveBullet), old(bricks));
        && KnownTypes(r.destroyed)
        && var t := TallyOf(r.destroyed, old(combo), old(score));
        && bullets == r.kept && bricks == r.left
        && combo == t.combo && score == t.score
        && particles == AgeAll(old(particles), dt) + t.burst
        && (t.last.Some? ==> paddle.scoreDisplay == ScoreTier(t.last.value))
        && (t.last.None? ==> paddle.scoreDisplay == old(paddle.scoreDisplay))
      ensures paddle.rect == old(paddle.rect)
      ensures state == old(state) && lives == old(lives) && score >= old(score)
      ensures forall b :: b in bricks ==> b in old(bricks)
      ensures paddle == old(paddle) && ball == old(ball)
    {
      collected := UpdatePowerups(dt, now);
      particles := AgeAll(particles, dt);
      assert Parts();
      fired := Shoot(fire, now);
    }

    /**
     * The rest of a frame, then the level-complete check. That check comes
     * last, so it wins over a game over in the same frame.
     */
    method FinishFrame(dt: int, now: int, fire: bool)
      requires Parts()
      modifies this, paddle, powerups
      ensures Parts()
      ensures state == if bricks == [] then LevelComplete else old(state)
      ensures lives == old(lives) && score >= old(score)
      ensures forall b :: b in bricks ==> b in old(bricks)
      ensures paddle == old(paddle) && ball == old(ball)
    {
      var _, _ := StepExtras(dt, now, fire);
      if |bricks| == 0 {
        state := LevelComplete;
      }
    }

    /**
     * `_update`: one frame of play, and nothing outside play. Bricks only
     * ever leave the level, the score never drops, at most one life is lost,
     * and the frame ends the level once no brick is left, even over a game
     * over in the same frame.
     */
    method Tick(targetX: int, fire: bool, dt: int, now: int, roll: real, kind: PowerUpType, aim: (real, Vec) -> Vec)
      requires Valid()
      modifies this, paddle, ball, powerups, bricks
      ensures Valid()
      ensures old(state) != Playing ==>
        && state == old(state) && score == old(score) && lives == old(lives) && combo == old(combo)
        && bricks == old(bricks) && particles == old(particles) && bullets == old(bullets)
      ensures old(state) == Playing ==>
        && score >= old(score)
        && (lives == old(lives) || lives == old(lives) - 1)
        && state == if bricks == [] then LevelComplete else if lives < old(lives) && lives <= 0 then GameOver else Playing
      ensures forall b :: b in bricks ==> b in old(bricks)
      ensures levels.currentLevel == old(levels.currentLevel)
    {
      if state != Playing {
        return;
      }
      var _, _, _ := StepBall(targetX, dt, aim, roll, kind);
      FinishFrame(dt, now, fire);
    }
  }
}

/**
 * Sprite selection. An image is identified by the number of its tile file
 * ("NN-Breakout-Tiles.png"); loading and scaling the files is not modelled.
 */
module Assets {
  import opened Wrappers
  import opened Config

  /** Tile numbers held by the brick sprite lists, index = brick type. */
  function CompleteTiles(): (ts: seq<nat>)
    ensures |ts| == BrickTypes
  {
    seq(BrickTypes, i => i * 2 + 1)
  }

  function CrackedTiles(): (ts: seq<nat>)
    ensures |ts| == BrickTypes
  {
    seq(BrickTypes, i => i * 2 + 2)
  }

  /** Tile numbers held by the particle sprite list (files 21 to 30), index = brick type. */
  function ParticleTiles(): (ts: seq<nat>)
    ensures |ts| == BrickTypes
  {
    seq(BrickTypes, i => 21 + i)
  }

  /** `get_brick_sprite`: the cracked list when cracked, else the complete list, indexed by type. */
  function GetBrickSprite(brickType: nat, isCracked: bool): (tile: nat)
    requires brickType < BrickTypes
    ensures 1 <= tile <= 2 * BrickTypes
    ensures tile % 2 == 0 <==> isCracked
  {
    if isCracked then CrackedTiles()[brickType] else CompleteTiles()[brickType]
  }

  /** `get_particle_sprite`: the particle list indexed by brick type. */
  function GetParticleSprite(brickType: nat): (tile: nat)
    requires brickType < BrickTypes
    ensures 2 * BrickTypes < tile <= 3 * BrickTypes
  {
    ParticleTiles()[brickType]
  }

  /**
   * Type `a` shows tile 2a+1 whole and 2a+2 cracked and bursts into tile 21+a,
   * so each brick type has its own pair of tiles and no two sprites share a tile.
   */
  lemma BrickTilesDistinct(a: nat, b: nat, ca: bool, cb: bool)
    requires a < BrickTypes && b < BrickTypes
    ensures GetBrickSprite(a, false) == 2 * a + 1 && GetBrickSprite(a, true) == 2 * a + 2
    ensures GetParticleSprite(a) == 21 + a
    ensures GetBrickSprite(a, ca) == GetBrickSprite(b, cb) <==> a == b && ca == cb
    ensures GetBrickSprite(a, ca) != GetParticleSprite(b)
    ensures GetParticleSprite(a) == GetParticleSprite(b) <==> a == b
  {
  }

  /** The paddle images. */
  datatype PaddleSprite =
    | PaddleDefault | Paddle100 | Paddle250 | Paddle500
    | PaddleSlow | PaddleFast | PaddleBullet

  /** The tile file each paddle image is loaded from. */
  function PaddleTile(s: PaddleSprite): nat
  {
    match s
    case PaddleDefault => 31
    case Paddle100 => 38
    case Paddle250 => 39
    case Paddle500 => 40
    case PaddleSlow => 41
    case PaddleFast => 42
    case PaddleBullet => 48
  }

  /** `get_paddle_sprite`: a power-up first, then the score popup, else the default. */
  function GetPaddleSprite(scoreDisplay: Option<int>, powerup: Option<PowerUpType>): (s: PaddleSprite)
    ensures powerup.Some? ==> s in {PaddleSlow, PaddleFast, PaddleBullet}
    ensures powerup.None? ==> s !in {PaddleSlow, PaddleFast, PaddleBullet}
    ensures s == PaddleDefault <==>
      powerup.None? && scoreDisplay !in {Some(100), Some(250), Some(500)}
  {
    match powerup
    case Some(Slow) => PaddleSlow
    case Some(Fast) => PaddleFast
    case Some(Bullet) => PaddleBullet
    case None =>
      if scoreDisplay == Some(500) then Paddle500
      else if scoreDisplay == Some(250) then Paddle250
      else if scoreDisplay == Some(100) then Paddle100
      else PaddleDefault
  }

  /** An active effect picks its own sprite whatever the score popup shows. */
  lemma PowerupOverridesScore(d1: Option<int>, d2: Option<int>, p: PowerUpType)
    ensures GetPaddleSprite(d1, Some(p)) == GetPaddleSprite(d2, Some(p))
    ensures GetPaddleSprite(d1, Some(p)) ==
      match p
      case Slow => PaddleSlow
      case Fast => PaddleFast
      case Bullet => PaddleBullet
  {
  }

  /** Without an effect, each score tier picks its own sprite. */
  lemma ScoreTierSprites()
    ensures GetPaddleSprite(Some(500), None) == Paddle500
    ensures GetPaddleSprite(Some(250), None) == Paddle250
    ensures GetPaddleSprite(Some(100), None) == Paddle100
    ensures GetPaddleSprite(None, None) == PaddleDefault
  {
  }

  /** Every paddle image comes from its own tile, after the brick and particle tiles. */
  lemma PaddleTilesDistinct(s: PaddleSprite, t: PaddleSprite)
    ensures PaddleTile(s) == PaddleTile(t) <==> s == t
    ensures PaddleTile(s) > 3 * BrickTypes
  {
  }
}

/**
 * Game constants and the enumerations that config.py spells as strings.
 */
module Config {
  // Screen
  const ScreenWidth := 1024
  const ScreenHeight := 768

  // Paddle
  const PaddleWidth := 150
  const PaddleHeight := 40
  const PaddleY := ScreenHeight - 80
  const PaddleSpeed := 10

  // Ball
  const BallSize := 32

  // Bricks
  const BrickWidth := 96
  const BrickHeight := 32
  const BrickCols := 9
  const BrickPadding := 4
  const BrickTopOffset := 80
  const BrickLeftOffset := (ScreenWidth - BrickCols * (BrickWidth + BrickPadding)) / 2
  const BrickHealthNormal := 2
  /** Score per brick type 0-9. */
  const ScoreValues: seq<int> := [50, 50, 100, 100, 100, 150, 150, 250, 250, 500]
  /** Number of brick types, which is also the number of brick and particle sprites. */
  const BrickTypes := 10

  // Lives
  const InitialLives := 3

  // Power-ups
  const PowerupDropChance: real := 0.20
  const PowerupSpeed := 3
  const PowerupSize := 40
  const PowerupDuration := 8000

  // Bullets (the bullet sprite is scaled to 19 x 41)
  const BulletSpeed := 12
  const BulletCooldown := 300
  const BulletWidth := 19
  const BulletHeight := 41

  // Particles
  const ParticleCount := 8
  const ParticleSize := 16
  const ParticleLifetime := 1000

  // Speed modifiers
  const SlowMultiplier: real := 0.6
  const FastMultiplier: real := 1.5

  // Paddle score popup
  const PaddleScoreDisplayTime := 1500

  /** The three power-up kinds ("slow", "fast", "bullet"). */
  datatype PowerUpType = Slow | Fast | Bullet

  /** The top-level game states. */
  datatype GameState = Menu | Playing | Paused | GameOver | LevelComplete | Win

  function Abs(x: int): int { if x < 0 then -x else x }
}

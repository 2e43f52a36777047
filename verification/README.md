# Brick Breaker game logic in Dafny

A model of the per-frame game logic of a pygame Brick Breaker (Breakout) game.
It covers the following:

- the session state machine Menu / Playing / Paused / GameOver / LevelComplete / Win, driven by
  keyboard and mouse events;
- one frame of play, in the source's order: the paddle follows the pointer, and the ball moves and
  bounces off the walls; the displayed power-up sets the ball's speed multiplier; the ball bounces
  off the paddle, then hits at most one brick (the first it overlaps); a ball that falls out costs
  a life; effects expire and pickups fall and are collected; particles age; a bullet may be fired,
  and bullets rise and destroy bricks; the level ends once no brick is left;
- score, lives and combo bookkeeping. Each destruction raises the combo, then scores
  `brick.score * (1 + combo / 5)`;
- the ball-versus-brick resolver. It picks the face the ball came through, reflects the velocity
  and places the ball one pixel outside that face;
- the power-up effect registry: a map from effect to expiry time, with the priority
  bullet > slow > fast;
- level layouts: five shipped patterns, turned into bricks in row-major order at grid positions;
- the entities' discrete parts: paddle movement and timers, ball wall bounce, rest, reset and the
  paddle-bounce guard, brick health, and bullet and particle lifetimes;
- sprite selection, with images identified by their tile file numbers.

Objects that the source updates in place are classes: `Game`, `Paddle`, `Ball`, `Brick`,
`LevelManager` and `PowerUpManager`. Particles, bullets and falling pickups are values. They sit in
sequences that stand for pygame sprite groups, in insertion order.

The model states these assumptions about pygame (module `Geometry`):

- `colliderect` is strict overlap on both axes;
- `centerx` is `left + width // 2`;
- setting `left`, `right`, `bottom` or `centerx` moves a rect without resizing it;
- a group iterates in insertion order, over a copy, so killing members during the loop is safe.

Several inputs become parameters:

- the pointer x becomes `targetX`; the left mouse button becomes `fire`;
- the frame time and clock become `dt` and `now`;
- the random draws become `roll` (the power-up drop draw) and `kind` (the pickup type);
- the random ball velocities become `startV` and `launchV`;
- the trigonometry of the paddle bounce is the function `aim`.

Source behaviour that the model keeps as written:

- The combo is raised before the multiplier is computed (`main.py:279-281`). The fifth brick in a
  row therefore already scores double, and five 50-point bricks in a row score 300
  (`FiveFiftiesScoreThreeHundred`).
- The level-complete check runs last in a frame. It overrides a GameOver set earlier in the same
  frame, so a level can be completed, and the next one played, with no lives left. `Game.Valid`
  therefore does not require positive lives.
- The combo carries over from one level to the next. `last_bullet_time` is not reset by a new game.
- Each frame, `main.py:220` overwrites the paddle's effect display with the effect actually shown.
  The paddle's own power-up timer therefore only decides the sprite for the rest of that
  `update` call.
- The brick score fallback of 50 for a type beyond the score table (`entities.py:216`) is modelled.
  It cannot be reached, because the sprite lookup before it already needs a type below 10.

## Model

| member | source | states |
|---|---|---|
| Assets.GetBrickSprite | assets.py:111-115 | the tile is from the cracked list exactly when the brick is cracked (even tiles 2..20), else from the complete list (odd tiles 1..19) |
| Assets.GetParticleSprite | assets.py:117-119 | a brick type's particle tile lies in 21..30 |
| Assets.BrickTilesDistinct | assets.py:64-86 | type i shows tile 2i+1 whole and 2i+2 cracked and bursts into tile 21+i; no two brick sprites and no brick and particle sprite share a tile; particle tiles are distinct per type |
| Assets.GetPaddleSprite | assets.py:121-135 | an active effect selects an effect sprite; with no effect, no effect sprite is chosen; the default is chosen exactly when there is no effect and no 100/250/500 tier |
| Assets.PowerupOverridesScore | assets.py:123-128 | slow, fast and bullet each select their own sprite whatever the score tier |
| Assets.ScoreTierSprites | assets.py:129-135 | with no effect, tiers 500, 250 and 100 select their sprites and no tier selects the default |
| Assets.PaddleTilesDistinct | assets.py:88-103 | every paddle image comes from its own tile, numbered after the brick and particle tiles |
| Collision.ImpactSideMatchesHalves | main.py:304-317 | the exact integer test on doubled extents picks the same side as the source's test on the halves `w`, `h` |
| Collision.HalvesAgree | main.py:304-317 | on plain offsets and doubled reaches, the integer face test and the real test on halves give the same side |
| Collision.OverlapHasSide | main.py:298-315 | a ball that overlaps the brick always passes the distance guard |
| Collision.SideFollowsCentres | main.py:315-333 | each chosen side agrees with where the ball's centre lies relative to the brick's centre |
| Collision.Resolve | main.py:298-333 | bottom/left/right/top set vy=\|vy\| / vx=-\|vx\| / vx=\|vx\| / vy=-\|vy\| and put the ball 1 px outside that face, so it no longer overlaps the brick; nothing changes when the guard fails |
| Collision.ResolveIdempotent | main.py:298-333 | resolving a second time against the same brick changes nothing |
| Entities.StepToward | entities.py:150-156 | the centre moves exactly PaddleSpeed toward a target further away than that, else lands on it; never more than PaddleSpeed, never away from the target |
| Entities.ClampToScreen | entities.py:158-162 | the result lies within [0, 1024] horizontally, keeps size and top, and a rect already on screen is unchanged |
| Entities.CountDown | entities.py:164-174 | the timer runs down by dt only while something is shown; the field clears exactly when the timer reaches 0 |
| Entities.ScoreTier | entities.py:186-195 | points >= 500, 250..499 and 100..249 give tiers 500, 250 and 100; below 100 gives none |
| Entities.Paddle.constructor | entities.py:128-142 | paddle 150x40 centred at (x, y), no score popup, no effect, default sprite |
| Entities.Paddle.Update | entities.py:144-184 | the new rect is the clamped step toward the target and lies on screen; both timers count down; the sprite follows the new display state |
| Entities.Paddle.Follow | entities.py:146-162 | the movement half of `update`: clamped step toward the target, timers untouched |
| Entities.Paddle.RunTimers | entities.py:164-184 | the timer half of `update`: both displays count down and the sprite is picked again; the rect is untouched |
| Entities.Paddle.ShowScore | entities.py:186-196 | the display becomes the points' tier and the timer restarts at 1500 ms; nothing else changes |
| Entities.Paddle.ActivatePowerup | entities.py:198-201 | the effect and its timer are set; nothing else changes |
| Entities.PaddleStepOnScreen | entities.py:150-162 | after a step the paddle is on screen, and where no clamping was needed its centre is exactly the step's |
| Entities.RestOn | entities.py:41-46 | a resting ball is centred on the paddle with its bottom 5 px above the paddle's top, so it does not touch the paddle |
| Entities.WallBounce | entities.py:57-67 | left wall: left 0 and vx=\|vx\|; else right wall: right 1024 and vx=-\|vx\|; top wall: top 0 and vy=\|vy\|; the ball ends within the side and top walls; the bottom is open |
| Entities.RelativeHit | entities.py:83-84 | the relative hit position is clamped to [-1, 1] |
| Entities.DeflectionAngle | entities.py:86-87 | the bounce angle lies in [-60, 60] degrees |
| Entities.DeflectionMonotone | entities.py:83-87 | striking further right never gives a smaller angle |
| Entities.DeflectionAtEdges | entities.py:83-87 | the paddle's left edge, centre and right edge give -60, 0 and 60 degrees |
| Entities.BallMotion | entities.py:39-67 | a resting ball is centred on the paddle with its bottom 5 px above the paddle's top, not touching it, velocity kept; a moving ball ends within the side and top walls, and is simply moved by its velocity when no wall is reached; the size never changes |
| Entities.PaddleBounce | entities.py:79-99 | a ball touching the paddle while moving down ends with its bottom 1 px above the paddle's top, not touching it, at the same x, with the velocity aimed by the deflection angle of where it struck; in every other case nothing changes |
| Entities.Ball.constructor | entities.py:21-37 | a resting 32x32 ball centred at (x, y) at multiplier 1.0 with the drawn velocity |
| Entities.Ball.Update | entities.py:39-67 | a resting ball moves onto the paddle; an active one moves by its velocity and then takes the wall bounce (`BallMotion`) |
| Entities.Ball.Launch | entities.py:69-77 | the ball becomes active with the drawn velocity, in place |
| Entities.Ball.CollidePaddle | entities.py:79-99 | it bounces exactly when it overlaps the paddle and moves down; then its bottom is 1 px above the paddle (no overlap) and the velocity is the aimed one; otherwise nothing changes (`PaddleBounce`) |
| Entities.Ball.IsOut | entities.py:101-103 | a ball that is out lies wholly below the screen: nothing on screen, the paddle included, can touch it |
| Entities.Ball.Reset | entities.py:105-110 | the ball rests on the paddle, inactive, at multiplier 1.0 |
| Entities.Ball.SetSpeedMultiplier | entities.py:112-122 | the multiplier is set; position, velocity and activity are unchanged |
| Entities.BrickScore | entities.py:216 | the score-table entry for types 0-9, else 50; always 50..500 |
| Entities.Brick.constructor | entities.py:207-216 | a 96x32 brick at (x, y), health 2, complete tile, score from the table |
| Entities.Brick.ParticleType | entities.py:232-234 | a brick of a known type bursts into particle tile 21 + type, which is neither of its own two tiles |
| Entities.Brick.Hit | entities.py:218-230 | health drops by one; destroyed exactly when it reaches 0; a survivor shows its cracked tile |
| Entities.BrickTakesTwoHits | entities.py:211-230 | a fresh brick survives the first hit and is destroyed by the second |
| Entities.AgeParticle | entities.py:258-264 | a particle ages by dt and survives exactly while its age stays under 1000 ms |
| Entities.MoveBullet | entities.py:291-297 | a bullet rises 12 px and survives exactly while its bottom stays at or below 0 |
| Entities.BulletsInFlightAllRise | main.py:261 | while every bullet is at least 12 px below the top, `bullets.update()` keeps all of them, in order, each 12 px higher |
| Entities.BulletGroupUpdate | entities.py:291-297 | after the group update, exactly the bullets still reaching the screen remain, each 12 px higher |
| Entities.ParticleGroupUpdate | entities.py:258-264 | after the group update, exactly the particles younger than the lifetime remain, each aged by dt |
| Geometry.CenteredAt | entities.py:24 | `get_rect(center=(x, y))` gives a rect of the image's size centred at (x, y) |
| Geometry.FirstOverlap | main.py:270-271 | the index found is the first, in group order, whose rect overlaps; none exactly when nothing overlaps |
| Groups.UpdateAllMembers | main.py:251 | a member survives a group update exactly when its own step keeps it |
| Levels.RowLayoutSpec | levels.py:91-99 | in a row, each cell with a type yields one brick at its grid position, and a -1 cell yields none; left to right |
| Levels.LayoutSpec | levels.py:90-99 | every typed cell yields a brick at (62 + col*100, 80 + row*36), and nothing else does |
| Levels.LayoutRowMajor | levels.py:90-99 | the bricks come out in row-major order |
| Levels.ShippedPatternsWellFormed | levels.py:12-63 | five patterns of at most 8 rows, each row 9 cells with values -1..9 |
| Levels.CellOnScreen | levels.py:95-96 | a cell within the grid bounds is placed entirely on screen |
| Levels.LayoutOnScreen | levels.py:90-99 | in a well-formed pattern every brick has a known type and lies on screen |
| Levels.PlaceRow | levels.py:91-99 | the inner loop builds exactly the row's layout: fresh, distinct bricks in shape at full health |
| Levels.PlaceBricks | levels.py:87-101 | the nested loops build exactly the pattern's layout: fresh, distinct bricks in shape at full health |
| Levels.LevelManager.constructor | levels.py:69-72 | level 0 of five |
| Levels.LevelManager.GetLevelBricks | levels.py:74-101 | an explicit level number is stored first; past the last level there are no bricks; otherwise the bricks are the level's layout |
| Levels.LevelManager.NextLevel | levels.py:103-106 | the index goes up by one; the result is true exactly when the new index is a level |
| Levels.LevelManager.Reset | levels.py:108-110 | the index returns to 0 |
| Levels.LevelManager.GetCurrentLevelNum | levels.py:112-114 | the shown number is the index plus one |
| Levels.LevelManager.IsFinalLevel | levels.py:116-118 | it holds exactly when the shown number has reached the level count |
| Powerups.ShouldSpawn | powerups.py:36-39 | a draw from [0, 1) drops a pickup exactly when it falls in the lowest fifth; no draw of 0.2 or more does |
| Powerups.FallPickup | powerups.py:28-34 | a pickup falls 3 px and survives exactly while its top stays on screen |
| Powerups.Unexpired | powerups.py:61-74 | the effects kept are exactly those whose expiry is after now, with their times unchanged |
| Powerups.Expired | powerups.py:66-69 | the expired effects are exactly the others; the two sets split the registry |
| Powerups.ActiveType | powerups.py:84-92 | bullet if active, else slow, else fast; none exactly when the registry is empty |
| Powerups.PowerUpManager.constructor | powerups.py:49-51 | no effects, no pickups |
| Powerups.PowerUpManager.SpawnPowerup | powerups.py:53-59 | exactly one pickup is added when the draw is under 0.20, and none otherwise; effects are untouched |
| Powerups.PowerUpManager.Update | powerups.py:61-74 | pickups fall; the effects whose time is up are removed and returned; the others keep their times |
| Powerups.PowerUpManager.Activate | powerups.py:76-78 | the effect's expiry becomes now + duration, overwriting an earlier one; other effects are unchanged |
| Powerups.PowerUpManager.GetActiveType | powerups.py:84-92 | nothing is shown exactly when no effect is registered; what is shown is registered; bullet is shown whenever it is active; fast only when neither bullet nor slow is |
| Powerups.PowerUpManager.IsActive | powerups.py:80-82 | an active effect means something is shown, and bullet is active exactly when it is the effect shown |
| Powerups.PowerUpManager.CheckCollision | powerups.py:94-103 | the first pickup touching the paddle is removed and its effect activated for 8000 ms, returning (kind, 8000); otherwise (None, 0) and nothing changes |
| Powerups.PowerUpManager.Clear | powerups.py:109-112 | no pickups and no effects remain |
| Powerups.ActivateSurvivesSweep | powerups.py:61-78 | an effect activated at now is still active at any time before now + duration |
| Powerups.ActivateThenExpire | powerups.py:61-78 | once now + duration is reached, an activated effect is swept, whatever else is active |
| GameMain.Points | main.py:280 | a destruction that brings the combo to 0..4 scores the brick's score, and one that brings it to 5..9 scores double |
| GameMain.Burst | main.py:335-341 | a destroyed brick bursts into 8 new 16x16 particles centred on the brick's centre, with tile 21 + the brick's type |
| GameMain.ComboBonus | main.py:279-281 | a destruction scores plain at combo < 5 and double at combo 5..9, and never less than the brick's score |
| GameMain.RunPointsNonNegative | main.py:279-281 | a run of destructions never takes points away |
| GameMain.RunOfEqualBricks | main.py:279-281 | from a broken combo, n < 10 equal bricks score n plain shares plus one extra share per brick from the fifth on |
| GameMain.FiveFiftiesScoreThreeHundred | main.py:279-281 | five 50-point bricks in a row score 300 |
| GameMain.SpeedFollowsEffects | main.py:211-217 | the multiplier is 1.0 with bullet active (even with slow), else 0.6 for slow, else 1.5 for fast, else 1.0 |
| GameMain.SweepStep | main.py:358-372 | one bullet either is kept or destroys exactly one remaining brick; bricks are only moved from left to destroyed |
| GameMain.SweepStepMeaning | main.py:358-372 | a bullet is kept exactly when it overlaps no remaining brick; otherwise the brick it destroys is the first remaining one it overlaps, and that brick leaves the group |
| GameMain.SweepBullets | main.py:356-372 | every bullet is either kept or destroys one brick; the bricks left and destroyed all come from the group |
| GameMain.SweepConservesBricks | main.py:356-372 | the bricks left and the bricks destroyed are together exactly the bricks the sweep started with |
| GameMain.FirstBrickHit | main.py:359-360 | the inner loop finds the first brick, in group order, that the rect overlaps |
| GameMain.SweepLeavesBricksOK | main.py:356-372 | the bricks a sweep leaves are still distinct and in shape |
| GameMain.TallyOfCombo | main.py:279-282 | a run of destructions raises the combo by its length, and the last points are the last brick's at that combo |
| GameMain.TallyOfScore | main.py:279-281 | a run of destructions adds its run points to the score |
| GameMain.TallyOfBurst | main.py:284-285 | a run of destructions adds the bursts of its bricks, in order |
| GameMain.TallyOfMeaning | main.py:364-369 | after a run of destructions the combo is up by their number, the score by their run points, the particles by their bursts, and the last points are those of the last brick at the final combo |
| GameMain.TallyOfGrows | main.py:364-366 | with bricks worth nothing negative, a run never lowers the score |
| GameMain.SweepOne | main.py:359-372 | one pass of the bullet loop is one sweep step, with the tally of its destruction |
| GameMain.SweepAndTally | main.py:358-372 | the loop leaves the sweep's surviving bullets and bricks and the tally of what it destroyed; the bricks stay in shape; combo and score never drop |
| GameMain.SweepTallyGrows | main.py:356-372 | bullets only ever add to the combo and the score |
| GameMain.ShippedLevelsNotEmpty | levels.py:12-63 | every shipped level has at least one brick |
| GameMain.Game.constructor | main.py:58-75 | the menu, score 0, three lives, no combo, empty groups, level 0 |
| GameMain.Game.LoadBricks | main.py:134-138 | the current level's bricks, fresh, distinct, in shape, never none |
| GameMain.Game.SetupLevel | main.py:113-138 | groups and effects cleared, fresh paddle and ball in their starting places, and the level's bricks |
| GameMain.Game.NewGame | main.py:103-111 | score 0, three lives, combo 0, level 0 set up, playing |
| GameMain.Game.PressEscape | main.py:162-168 | ESC toggles Playing and Paused, quits from Menu, GameOver and Win, and is ignored after a level |
| GameMain.Game.Advance | main.py:177-182 | after a level: the next level, playing, if there is one; else Win |
| GameMain.Game.PressSpace | main.py:170-184 | SPACE starts a game from Menu, GameOver or Win, launches a resting ball, resumes from Paused and advances after a level |
| GameMain.Game.LeftClick | main.py:192-197 | a left click starts a game from the menu or launches a resting ball; nothing else |
| GameMain.Game.HandleEvent | main.py:155-197 | the per-event transitions of the state machine; only starting a game resets score, lives and combo |
| GameMain.Game.UpdateMotion | main.py:204-226 | the paddle takes its clamped step and its timers run down; the ball moves as `Ball.update` moves it (`BallMotion`); the bounce happens exactly when that ball touches the paddle while moving down, and leaves the ball as `PaddleBounce` does; a bounce clears the combo; the multiplier and the paddle's effect follow the effect shown |
| GameMain.Game.ScoreDestroyed | main.py:279-285 | the combo goes up by one, then the points at the new combo are added and shown, and the brick bursts into 8 particles |
| GameMain.Game.RewardDestroyed | main.py:279-292 | the scoring above plus exactly one pickup dropped when the draw says so |
| GameMain.Game.HitBrickAt | main.py:273-294 | the brick loses one health point; only a destroyed brick scores, drops a pickup and leaves the group |
| GameMain.Game.HandleBrickCollisions | main.py:268-296 | only the first overlapping brick is resolved and hit; only if that destroys it does it leave the group, score, burst into particles, roll for a pickup and show its points on the paddle; with no overlap, or a brick that survives, particles and pickups are unchanged |
| GameMain.Game.LoseBallIfOut | main.py:232-238 | a ball below the screen costs exactly one life and the combo, and gives GameOver exactly when no life is left; otherwise the ball is reset |
| GameMain.Game.UpdatePowerups | main.py:240-248 | effects expire and pickups fall; the first pickup on the paddle is collected and its effect shown on the paddle |
| GameMain.Game.FireGate | main.py:254-258 | a bullet leaves the paddle's top centre exactly when bullet is active, fire is held and more than 300 ms have passed since the last shot |
| GameMain.Game.HandleBulletCollisions | main.py:356-372 | the groups and counters become the sweep and its tally, the paddle shows the last points, and power-ups are untouched |
| GameMain.Game.SweepIntoGroups | main.py:356-372 | the sweep and its tally are written back into the groups and counters |
| GameMain.Game.MoveAndHit | main.py:204-229 | paddle step, ball motion, bounce and the first brick hit composed: the ball ends where `Resolve` puts it after `PaddleBounce` and `BallMotion`; bricks, score, combo and particles change only when the hit destroys its brick |
| GameMain.Game.StepBall | main.py:204-238 | the ball's half of a frame: the ball after motion, bounce and brick hit is the one `LoseBallIfOut` judges; the ball is lost exactly when that ball's top is below the screen, which costs one life and the combo and gives GameOver exactly when no life is left; bricks, score and particles change only when the hit destroys its brick |
| GameMain.Game.Shoot | main.py:253-262 | a bullet is fired exactly when the gate allows it; all bullets rise; the groups and counters become the sweep of the risen bullets and its tally |
| GameMain.Game.StepExtras | main.py:240-262 | the rest of a frame: effects expire and the first pickup on the paddle is collected; particles age; a bullet is fired exactly when bullet is active, fire is held and the cooldown has passed; the bullets, bricks, combo, score, particles and paddle display become the sweep of the risen bullets and its tally; state and lives unchanged |
| GameMain.Game.FinishFrame | main.py:240-266 | after the rest of a frame, the level is complete exactly when no brick is left, and the state is otherwise unchanged; lives kept, score never drops, bricks only leave |
| GameMain.Game.Tick | main.py:199-266 | nothing changes outside Playing; otherwise score never drops, at most one life is lost, bricks only leave, and the frame ends in LevelComplete when no brick is left (even over GameOver), GameOver when the last life went, else Playing |

## Left out

- Rendering is not modelled: the window, fonts, background, menus, overlays, hearts and the fullscreen display mode. The fullscreen flag is toggled, nothing more.
- Sound is not modelled. As written, the program cannot start: `main.py:41` reads `self.assets.bg_music` in `Game.__init__`, outside the `try`, and `AssetManager` (`assets.py:17-41`) defines no such attribute, so constructing the game raises AttributeError before any frame. `main.py:208` and `main.py:224` likewise read `thud_sound`, which `AssetManager` does not define, and line 208 passes it as an extra argument that `Ball.update` (`entities.py:39`) does not accept. The model is of the program with those sound reads removed.
- Image loading and scaling are not modelled; an image is its tile number. The unused +100 animation frames (`assets.py:93-96`) are left out.
- The main loop, the clock and event polling are not modelled. The frame time, the clock and the events are parameters.
- Entities.Ball.Update: does not renormalise the velocity to speed times multiplier (`entities.py:48-51`), because that is floating-point vector arithmetic. Velocities are integer steps, and the multiplier is recorded but does not scale the motion.
- Entities.Ball.Launch: takes the drawn launch velocity as a parameter instead of computing it from a random angle with sine and cosine.
- Entities.Ball.CollidePaddle: the new velocity comes from the `aim` parameter (the rotation by the bounce angle). The model proves the angle's range and monotonicity, not the rotation.
- Particle motion, gravity and alpha fading are not modelled; only a particle's age and lifetime are. Particles of a burst are identical values, since their random velocities are not modelled.
- pygame's float-to-int pixel accumulation when a float velocity is added to a rect is not modelled.
- Powerups.PowerUpManager.Update: returns the expired effects as a set. The order of the source's list follows dict iteration and is not modelled.
- GameMain.Game.HandleBulletCollisions: shows the last destruction's points on the paddle once, instead of once per destruction. Each call overwrites the previous display, so the final paddle state is the same.
- GameMain.Game.Tick: states the invariants of a frame (state, lives, score, bricks), not the exact new state. The exact state after the ball's half of the frame is stated by `StepBall`, and after the rest by `StepExtras`.
- GameMain.Game.FinishFrame: states the same frame invariants for the rest of the frame; the exact state is stated by `StepExtras`, which it calls.
- Levels.LevelManager.GetLevelBricks: takes an optional natural level number, so Python's negative indexing of `LEVEL_PATTERNS` by a negative `level_num` (`levels.py:80-86`) is not modelled. No caller passes a level number: `main.py:135` calls it with none.
- Sprite identity in `all_sprites` (the drawing group) is not modelled. Only the groups the logic reads are modelled: bricks, particles, bullets and pickups.
- The source's `Game.__init__` has no paddle or ball until a level is set up; the model creates them at their starting places in its constructor.

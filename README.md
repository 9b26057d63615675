# Breakout, modelled in Dafny

This project models the game logic of `breakout.py`, a single-file pygame
Breakout clone. A session owns the paddle, the balls, a field of bricks, spark
particles and falling power-ups, together with a score, lives, the game-over and
won flags, a screen-shake counter and a power-up timer. Each frame of the main
loop first handles the window's events: R starts a new session, closing the
window or Q ends the loop. If the session is neither over nor won, one tick of
simulation then runs:

- the paddle follows the arrow keys;
- every ball moves, bounces off the walls and the paddle, and collides with the
  bricks;
- balls that fall below the screen are dropped;
- when no ball is left, a life is lost and a new ball is served;
- the session is won once no brick is standing;
- particles fade;
- power-ups fall and take effect when caught;
- the timers count down.

The model follows the program's own shape:

- **Module `Entities`.** Each entity is a class with the source's fields:
  `Brick`, `Ball`, `Paddle`, `Particle` and `PowerUp`. The one exception is
  the colour table `colors` of a power-up (breakout.py:128). Only its drawing
  reads it (breakout.py:144), so it is left out with the drawing. Each method
  updates its object in place. `Brick.Hit`, `Ball.Move` and `Paddle.Move` are proved against a
  function on the object's value: `HitBrick`, `MoveBall` and `PaddleMoved`.
  `Particle.Update` and `PowerUp.Update` state their effect on the fields
  directly. `PowerUp.Update` does so through the two-state predicate `Fell`.
- **Module `Breakout`.** `Game` is a class holding sequences of those objects.
  Its methods are the source's methods and the phases of the main loop's body,
  with `Step` standing for one frame.
- **Module `Layout`.** The geometry of the brick field: the four layout
  patterns, given as the lists of grid cells their nested loops visit.
- **Module `Collide`.** What one ball's pass over the brick field does,
  stated on brick values.
- **Module `Lists`.** Python list operations, stated on sequences:
  `list.remove`, and the filter that the ball and power-up loops perform.
- **Module `Oracle`.** The environment. Every draw the simulation makes from
  Python's `random` module is taken from a tape (`Env.tape`) of
  `random.random()` results, and `math.pi`, `math.sin` and `math.cos` are
  constants of the environment. The drawing code's one draw is left out (see
  below).

The game's collection-wide invariant is `Game.Valid`:

- every brick has taken at most as many hits as it needs;
- a brick that has taken them all is invisible;
- a brick is worth ten points per hit it needs;
- ball speeds lie in [3, 12];
- the paddle's width lies in [100, 200];
- the paddle has width 100 whenever the power-up timer is zero;
- no list holds the same object twice.

Every method of the tick preserves this invariant.

Some of the program's behaviour is easy to misread; the model follows the
code:

- The Slower and Faster power-ups change only a ball's `speed`. Its velocity
  is not rescaled. Walls and bricks only flip the velocity's signs, so it
  keeps its magnitude until the ball next bounces off the paddle.
- The particles of a hit take the brick's colour *after* the hit darkened it.
- The Piercing power-up is never undone.
- The `scattered` pattern unpacks its (col, row) pairs as `row, col`. Its
  bricks therefore lie on a transposed grid of 6 columns and 8 rows.

## Model

| member | source | states |
|---|---|---|
| Oracle.NextUnit | breakout.py:265 | `random.random()` lies in [0, 1) and is the tape's next value whenever that value is valid |
| Oracle.UniformOf | breakout.py:79 | `random.uniform(a, b)` lies between `a` and `b` |
| Oracle.BelowOf | breakout.py:194 | the index drawn for `random.choice` over n items lies in [0, n) |
| Oracle.Env.Random | breakout.py:265 | a call to `random.random()` returns the tape's next value and consumes it |
| Oracle.Env.Uniform | breakout.py:79 | a call to `random.uniform` consumes one draw and returns `UniformOf` of it |
| Oracle.Env.RandBelow | breakout.py:127 | a call to `random.choice` or `random.randint` consumes one draw and returns an index below n |
| Oracle.Env.Sample | breakout.py:212 | `random.sample(population, k)` returns k elements drawn without replacement (a sub-multiset of the population) |
| Oracle.PoolStep | breakout.py:212 | one draw of the sampling pool removes exactly the drawn element from the live part of the pool |
| Entities.HitBrick | breakout.py:161-169 | a hit adds exactly one to `hits` and makes the brick invisible exactly when `hits` reaches `hits_required`; otherwise the colour darkens. Position and durability do not change, and a sound visible brick stays sound |
| Entities.Darken | breakout.py:166-168 | a darkened channel is never negative and never brighter than before. A channel of at least 50 loses exactly 50 |
| Entities.Brick.constructor | breakout.py:150-159 | a new brick is visible, unhit, and worth `hits_required * 10` points |
| Entities.Brick.Hit | breakout.py:161-169 | the brick's new value is `HitBrick` of the old one, and the result is true exactly when `hits >= hits_required` |
| Entities.MoveBall | breakout.py:85-99 | after a move the ball lies in [radius, 800 - radius] horizontally and at or below `radius` vertically. Touching the left, right or top wall turns `dx` non-negative, `dx` non-positive or `dy` non-negative. With no wall touched the ball advances by its velocity. Speeds never change |
| Entities.Ball.constructor | breakout.py:71-73 | a new ball sits at the given point with the initial speed, a launch velocity from one angle draw, and piercing off |
| Entities.Ball.Reset | breakout.py:75-83 | the ball is placed at (x, y) with speed 6 and a launch velocity from one angle draw, piercing off, and exactly one draw is consumed |
| Entities.LaunchAngle | breakout.py:79 | the launch angle lies in [-π/4, π/4] |
| Entities.LaunchDx | breakout.py:81 | the launch velocity's horizontal part is at most the initial speed in size, given that sine lies in [-1, 1] |
| Entities.LaunchDy | breakout.py:82 | the ball is launched upwards, given that cosine is positive on [-π/4, π/4] |
| Entities.Ball.Move | breakout.py:85-99 | the ball's new value is `MoveBall` of the old one |
| Entities.PaddleMoved | breakout.py:113-115 | the moved paddle lies within [0, 800 - width], and moves by exactly `direction * 8` when that stays inside |
| Entities.Paddle.constructor | breakout.py:105-111 | a new paddle is 100 wide, with its left edge at x = 350, so it is centred on the screen |
| Entities.Paddle.Move | breakout.py:113-115 | the paddle's new position is `PaddleMoved` of the old one |
| Entities.LifeAfterLinear | breakout.py:57-61 | after n updates a particle's life is its initial life minus 10 n |
| Entities.ParticleLifetime | breakout.py:51-61 | a particle born with life 255 is kept through exactly 25 updates and dropped by the 26th |
| Entities.Particle.constructor | breakout.py:46-55 | a new particle sits at the given point in the given colour, with life 255 and a size from 2 to 4 |
| Entities.Particle.Update | breakout.py:57-61 | the particle moves by its velocity and loses 10 life, and the result is true exactly when its life stays positive |
| Entities.PowerUp.constructor | breakout.py:121-136 | a new power-up is active at the given point, and its type is the entry of `['W','S','M','L','F','P']` picked by one draw |
| Entities.PowerUp.Update | breakout.py:138-141 | the power-up falls by 3 and stays active exactly while it is still on the screen |
| Lists.Without | breakout.py:305 | `list.remove(x)` takes out exactly one copy of `x` |
| Lists.SubMultisetDistinct | breakout.py:211-212 | a sample drawn without replacement from a list without repeats has no repeats |
| Lists.KeepStep | breakout.py:301-305 | in a loop over a copy of a list that removes some elements, each step leaves the kept elements followed by the unvisited ones. So the loop leaves the `Keep` filter of the list |
| Lists.Subsequence | breakout.py:301-305 | a list left by removing elements, in order, holds only elements of the list it came from |
| Lists.KeepFacts | breakout.py:301-305 | the filter leaves a subsequence without repeats, and holding exactly the elements whose flag was set |
| Layout.HitsRequired | breakout.py:201 | the weighted draw of `hits_required` is 1, 2 or 3. It is 1 exactly when the draw is below 0.7, and 3 exactly when it is at least 0.9 |
| Layout.CellX | breakout.py:199 | a grid column's brick lies wholly within the screen's width, at least 45 pixels from the left edge |
| Layout.CellY | breakout.py:200 | a grid row's brick lies at least 50 pixels from the top and wholly above the paddle's row, 40 pixels up from the bottom |
| Layout.FullRows | breakout.py:197-198 | the nested loops visit n full rows as n * 8 cells in reading order |
| Layout.PyramidRows | breakout.py:204-205 | the first n rows of the pyramid, each row r spanning columns r to 7 - r, hold n(9 - n) cells for n up to 4, in increasing reading order |
| Layout.Band | breakout.py:220-221 | band i cut at row j holds the on-grid cells with col + row == i, in increasing row order |
| Layout.Bands | breakout.py:219-221 | the diagonal loops visit only grid cells, in strictly increasing band order |
| Layout.GridCells | breakout.py:196-202 | the `normal` pattern lays bricks on 48 distinct grid cells |
| Layout.PyramidCells | breakout.py:203-209 | the `pyramid` pattern lays 20 bricks on distinct cells, in rows of 8, 6, 4 and 2 |
| Layout.DiagonalCells | breakout.py:218-225 | the `diagonal` pattern lays bricks on 47 distinct grid cells |
| Layout.PatternCells | breakout.py:196-225 | each pattern other than `scattered` visits 20 to 48 distinct grid cells |
| Layout.ScatteredCells | breakout.py:210-217 | the `scattered` pattern lays 30 bricks on distinct cells of the transposed 6 x 8 grid |
| Layout.CellPositionsDistinct | breakout.py:199-200 | bricks in distinct cells sit at distinct (x, y) positions |
| Collide.FirstStruck | breakout.py:246-251 | this is the index of the first visible brick the ball overlaps: no earlier brick is struck |
| Collide.Overlaps | breakout.py:248-251 | a ball overlaps a brick exactly when its centre is within 48 pixels of the brick's centre horizontally and within 23 vertically |
| Collide.StrikeFirst | breakout.py:246-277 | a non-piercing ball changes at most one brick: the first one it strikes, which takes a hit. Soundness is preserved |
| Collide.StruckCount | breakout.py:253-263 | the number of bricks a piercing ball collides with is zero exactly when there is no first struck brick |
| Collide.Pierce | breakout.py:253-255 | a piercing ball makes every brick it overlaps invisible and changes nothing else about any brick |
| Collide.GainedNonNegative | breakout.py:253-257 | on a sound field, the points a scan earns are never negative |
| Collide.GainedByStrike | breakout.py:256-257 | a non-piercing ball scores its brick's points exactly when the hit destroys the brick, and nothing otherwise |
| Collide.GainedByPierce | breakout.py:253-255 | a piercing ball scores the full points of every brick it strikes |
| Collide.Contacts | breakout.py:272-277 | a non-piercing ball makes contact with at most one brick per tick |
| Collide.Turned | breakout.py:273-276 | a rebound from a brick negates exactly one of `dx` and `dy` and changes nothing else |
| Collide.NearSide | breakout.py:273 | the ball's centre is less than 5 pixels from the brick's left or right edge |
| Collide.Deflected | breakout.py:272-277 | a piercing ball, or one that struck nothing, keeps its velocity. Otherwise `dx` flips when the ball is within 5 px of the struck brick's side, and `dy` flips when it is not |
| Collide.BounceOffset | breakout.py:235-236 | the hit offset lies in [-1, 1] on the paddle. It is zero exactly at the centre and positive exactly left of it |
| Collide.OnPaddle | breakout.py:230-232 | the ball's lowest point has reached the paddle's top and its centre lies within half the paddle's width of the paddle's middle |
| Collide.Bounced | breakout.py:230-239 | a ball touching the paddle is put on the paddle's top edge; any other ball is unchanged. Position x, speed and piercing are kept |
| Breakout.Widened | breakout.py:392 | the Wider width never exceeds 200 and never shrinks a width within [100, 200] |
| Breakout.Slowed | breakout.py:396 | the Slower speed is at least 3 and never exceeds the old speed |
| Breakout.Hastened | breakout.py:399 | the Faster speed is at most 12 and never below an old speed within [0, 12] |
| Breakout.PoweredSpeed | breakout.py:394-399 | every power-up keeps ball speeds within [3, 12] and leaves position and velocity alone |
| Breakout.Powered | breakout.py:394-409 | no power-up moves a ball or changes its velocity; only Slower and Faster change its speed; the ball is piercing afterwards exactly when it was or the power-up is Piercing |
| Breakout.Catches | breakout.py:326-328 | a falling power-up touches the paddle exactly when its bottom is below the paddle's top and the two centres are horizontally closer than half the sum of their widths |
| Breakout.Steered | breakout.py:294-298 | with no key down the paddle stays; otherwise it ends within the screen |
| Breakout.Game.constructor | breakout.py:172-176 | a new game is in the starting state of a session |
| Breakout.Game.ResetGame | breakout.py:178-189 | the session is back in its starting state: a fresh paddle, one fresh ball at (400, 540), a freshly generated field, no particles or power-ups, score 0, three lives, no flags, and the timers at 0 |
| Breakout.Game.Install | breakout.py:179-189 | the given paddle, ball and field are put in place and the counters get their starting values |
| Breakout.Game.CreateBricks | breakout.py:191-226 | the field holds at least 20 distinct fresh bricks and is laid on exactly the cells of the drawn pattern: 48, 20 or 47 row-coloured bricks, or 30 scattered bricks with palette colours. No two bricks sit at the same position |
| Breakout.LaidSpread | breakout.py:199-200 | bricks laid on distinct cells sit at distinct positions, so no two bricks of a generated field overlap |
| Breakout.Game.LayRows | breakout.py:196-209 | brick k sits at (82 col + 45, 32 row + 50) of cell k, in the colour of its row, unhit, visible, worth 10 points per hit, with 1 to 3 hits required |
| Breakout.Game.ScatteredField | breakout.py:210-217 | the scattered field holds 30 distinct bricks on distinct cells of the transposed grid, each in a palette colour |
| Breakout.Game.Burst | breakout.py:260-263 | ten distinct new particles are created at the given point in the given colour, each with life 255 |
| Breakout.Game.AddBurst | breakout.py:260-263 | exactly ten new particles are appended, and the old ones stay in front |
| Breakout.Game.MaybeDrop | breakout.py:265-266 | one power-up is appended exactly when the draw is below 0.2, and it is active at the given point |
| Breakout.Game.Contact | breakout.py:253-266 | a contact makes the brick vanish (piercing) or hit. The score gains the brick's points exactly when it vanished. Ten fresh particles are appended at the brick's centre (x + 40, y + 15), in the brick's new colour and with full life. At most one fresh, active power-up is appended, at the middle of the brick's top edge (x + 40, y) |
| Breakout.Game.TryBrick | breakout.py:246-277 | brick k changes as the contact says exactly when the ball strikes it; no other brick changes. A non-piercing ball turns back from it, and ten particles and at most one power-up are appended per strike |
| Breakout.Game.Rebound | breakout.py:273-276 | the ball's new state is `Turned` of the old one by the struck brick |
| Breakout.Game.CollideBricks | breakout.py:245-277 | the field becomes `Scan` of the old field. The score gains exactly `Gained`, the ball is `Deflected`, and there are ten particles and at most one power-up per contact |
| Breakout.Game.PierceBricks | breakout.py:246-266 | the piercing scan leaves `Pierce` of the field, with ten particles and at most one power-up per struck brick. The ball is untouched |
| Breakout.Game.PierceStep | breakout.py:246-266 | one step of the piercing scan keeps the field, score, particle and power-up accounts of the scan so far |
| Breakout.Game.StrikeBricks | breakout.py:246-277 | the non-piercing scan leaves `StrikeFirst` of the field and deflects the ball. At most one contact's particles and power-up are added |
| Breakout.Game.BounceOffPaddle | breakout.py:230-239 | the ball's new state is `Bounced` of the old one on the current paddle |
| Breakout.Game.HandleCollisions | breakout.py:228-277 | the ball is bounced off the paddle, then scanned. The field changes as `Scan` says, and the score gains what the destroyed bricks are worth and never drops. A non-piercing ball makes at most one contact |
| Breakout.Game.TakeTurn | breakout.py:301-303 | the ball that takes its turn ends between the side walls. No other ball moves, speeds do not change, and the score does not drop |
| Breakout.Game.Turn | breakout.py:301-305 | after ball i's turn, the balls kept so far are the filter of the first i + 1 balls by "still on screen" |
| Breakout.Game.PlayTurns | breakout.py:301-305 | after the loop, the kept balls are exactly those of the turn order still on screen, in order |
| Breakout.Game.UpdateBalls | breakout.py:301-305 | the new ball list is a subsequence of the old one. An old ball stays exactly when it is not below the screen, and every ball ends between the side walls. The score does not drop, and the invariant holds |
| Breakout.Game.Survivors | breakout.py:301-305 | the kept balls have no repeats, keep their speed bounds, and are exactly the balls flagged to stay |
| Breakout.Game.LoseLife | breakout.py:307-312 | with balls left nothing changes. Otherwise one life is lost, and either lives <= 0 and the game is over with no ball, or exactly one fresh non-piercing ball is served at (400, 540) |
| Breakout.Game.CheckWon | breakout.py:315-316 | `won` is set exactly when it was set or no brick is visible |
| Breakout.Game.UpdateParticles | breakout.py:319 | every particle moves and loses 10 life. It is kept exactly when its life stays positive, and the kept particles keep their order |
| Breakout.Game.Fade | breakout.py:319 | the comprehension's loop updates every particle, and the particles it keeps are the filter by "still alive" |
| Breakout.Game.UpdatePowerUps | breakout.py:322-334 | every power-up falls. It stays in the list exactly when it is still active and does not touch the paddle (at the paddle's width at that moment). Kept ones keep their order; the paddle does not move, and lives and balls do not decrease |
| Breakout.Game.Collect | breakout.py:322-334 | the power-up loop keeps the filter of the power-ups by `Stays`, and every power-up falls |
| Breakout.Game.CollectStep | breakout.py:323-330 | one pass of the power-up loop extends the filter by one power-up and touches no other power-up |
| Breakout.Game.Catch | breakout.py:323-330 | the power-up falls, and stays exactly when it is active and not touching the paddle. A caught one's effect keeps the invariant |
| Breakout.Game.DecayTimers | breakout.py:337-344 | the shake and power-up timers decrease by one when positive. The paddle returns to width 100 exactly when the power-up timer goes from 1 to 0 |
| Breakout.Game.ApplyPowerUp | breakout.py:390-410 | each power-up has exactly its effect. Wider widens the paddle (capped at 200) and sets the timer to 300. Slower, Faster and Piercing change every ball as `Powered` says. Multi doubles the balls, keeping the old ones in front, and the new balls are fresh at the first ball's position. ExtraLife adds one life. Piercing also sets the timer to 300 |
| Breakout.Game.Widen | breakout.py:391-393 | the paddle width becomes `Widened` of the old one and the timer becomes 300 |
| Breakout.Game.Retune | breakout.py:394-409 | every ball becomes `Powered` of its old state for Slower, Faster or Piercing, and speeds stay within [3, 12] |
| Breakout.Game.SlowDown | breakout.py:394-396 | every ball's speed becomes `Slowed` of its old speed, and nothing else about it changes |
| Breakout.Game.SpeedUp | breakout.py:397-399 | every ball's speed becomes `Hastened` of its old speed, and nothing else about it changes |
| Breakout.Game.MakePiercing | breakout.py:407-409 | every ball becomes piercing, and nothing else about it changes |
| Breakout.Game.AddBalls | breakout.py:400-404 | the ball list doubles. The new balls are fresh, at the first ball's position with speed 6 and not piercing |
| Breakout.Game.Doubled | breakout.py:400-404 | as many fresh balls as there were are appended, without repeats; an empty list stays empty |
| Breakout.Game.HandleEvents | breakout.py:283-290 | `quit` is true exactly when some event is Quit or key Q. With an R key the session is in its starting state; without one nothing changes. Every object the session holds afterwards it held before or made anew |
| Breakout.Game.Simulate | breakout.py:292-344 | a session that is over or won is frozen. Otherwise the paddle follows the keys, the score does not drop, `won` holds exactly when no brick is standing, and the ball list is empty only once the game is over. Every object the session holds afterwards it held before or made anew |
| Breakout.Game.Steer | breakout.py:294-298 | the paddle ends at `Steered` of its old position |
| Breakout.Game.Advance | breakout.py:300-316 | after the ball loop, the lost life and the win check, the paddle is unmoved and the score has not dropped. `won` reflects the field, and no ball is left only when the game is over. Every ball, particle and power-up is an old one or a new one |
| Breakout.Game.Roll | breakout.py:300-312 | after the ball loop and the lost life, the score has not dropped and no ball is left only when the game is over |
| Breakout.Game.Settle | breakout.py:318-344 | the particles, the power-ups and the timers change no brick, score or outcome flag. They do not move the paddle and never shrink the ball list. Every object the session holds afterwards it held before or made anew |
| Breakout.Game.Gather | breakout.py:321-344 | the power-ups and timers change no brick, score or outcome flag. They do not move the paddle and never shrink the ball list. Every object the session holds afterwards it held before or made anew |
| Breakout.Game.Step | breakout.py:281-344 | one frame returns `quit` exactly when an event asked to stop. With no restart, a session that is over or won does not change. Every object the session holds afterwards it held before or made anew, so frames can follow one another |
| Breakout.Game.Run | breakout.py:278-281 | the main loop plays the frames in order and stops right after the first frame whose events ask to stop, and not before; it plays every frame when none asks. The session stays valid, and every object it holds it held before or made anew |

## Left out

- Drawing, fonts, the window, sound loading and playback, and the frame clock.
  These are presentation and timing calls into pygame, and none of them
  affects the game's state.
- The shake draw at breakout.py:347, `random.randint(-screen_shake,
  screen_shake)`, is left out, although it runs every frame, frozen or not.
  Even as `randint(0, 0)` it advances the generator the game shares, so it
  shifts every later draw: the spawn chance, power-up types, launch angles and
  the next reset's field. The tape therefore stands for the draws the
  simulation itself makes, and a frozen `Step` leaves the environment
  unchanged.
- Event polling and `pygame.key.get_pressed`. A frame's events are passed to
  `Step` as a sequence of `Event` values, and the arrow keys as two booleans.
- Breakout.Game.Run: the frames the window delivers are a finite sequence, so
  the loop also ends when that sequence runs out. The source's loop runs
  until an event asks it to stop.
- Python's `random` module is modelled as a tape of `random()` results. An index
  draw is `floor(u * n)` and `uniform(a, b)` is `a + (b - a) u`. The
  distribution of CPython's generator and its exact bit-level index draw are
  not modelled.
- Oracle.Env.Sample: states that the sample has size k and is drawn without
  replacement, not which elements it picks for a given tape.
- `math.sin`, `math.cos` and `math.pi` are arbitrary constants of the environment.
  The launch angles and the paddle's bounce angle use them, but no property of
  trigonometry is assumed.
- Entities.Particle.constructor: states the particle's position, colour, life
  and size range, but not its velocity or which draws give its size. The
  velocity comes from the trigonometric functions above.
- Positions, velocities and speeds are floats in the source and exact reals
  here. Rounding is not modelled.
- Breakout.Game.LayRows: states that each brick needs 1 to 3 hits, not which
  draw of the tape gives each value. `Layout.HitsRequired` states the draw.
- Breakout.Game.CreateBricks: the pattern drawn is a ghost result, not tied to
  the tape.
- Breakout.Game.ResetGame: the new field is stated only as at least 20 fresh,
  sound bricks. Which pattern it was laid in, and on which cells, is stated by
  `Breakout.Game.CreateBricks` and not carried into the game's state.
  Recording the pattern on the game made the proofs of the reset and of the
  event loop too costly.
- Breakout.Game.constructor: the same as `ResetGame`, which it calls.
- Breakout.Game.TakeTurn: states the wall bounds, which balls move and that the
  score rises, but not the ball's exact new state. That state follows from
  `Entities.Ball.Move` and `Breakout.Game.HandleCollisions`. Carrying it, and
  the field's successive `Scan`s, through the ball loop is left out to keep
  the loop's proof small.
- Breakout.Game.UpdateBalls: states which balls are kept and the bounds, not
  the field after all the balls' scans.
- Breakout.Game.Catch: states the caught power-up's effect only through the
  invariant, the paddle position, lives and balls not decreasing.
  `Breakout.Game.ApplyPowerUp` states the exact effect.
- Breakout.Game.UpdatePowerUps: states the same coarse effect as Catch for the
  whole loop.
- Breakout.Game.Simulate: a live tick's result is stated through the
  properties listed in its row, not as one function of the old state.
- Breakout.Game.Step: states the frozen case and `quit`. A live frame is
  stated by `HandleEvents` and `Simulate`.
- The loops over the balls and the power-ups walk a copy of the list and call
  `list.remove` on the list. The model builds the list of elements that stay
  and assigns it once at the end of the loop. Nothing else in the loop reads
  the list being filtered, and `Lists.KeepStep` proves that the two give the
  same list.
- A Wider power-up does not re-clamp the paddle's position, so the paddle can
  reach past the right edge until it next moves. The model keeps this
  behaviour.
- Losing the last life and catching an ExtraLife in the same tick leaves
  `game_over` set with one life. The model does not state
  `game_over ==> lives <= 0`, because it does not hold.

/** The game session: it owns the paddle, the balls, the brick field, the
    particles and the falling power-ups, and advances them one tick at a time. */
module Breakout {
  import opened Oracle
  import opened Entities
  import opened Lists
  import opened Layout
  import opened Collide

  /** Where a fresh ball is put: above the paddle, at the centre. */
  const SpawnX: int := ScreenWidth / 2
  const SpawnY: int := ScreenHeight - 60

  const StartLives: int := 3
  /** How long the wider paddle lasts, in ticks. */
  const PowerUpTicks: int := 300
  const MaxPaddleWidth: real := 200.0
  const MinBallSpeed: real := 3.0
  const MaxBallSpeed: real := 12.0

  /** The values of a sequence of bricks. */
  ghost function States(bs: seq<Brick>): (s: seq<BrickState>)
    reads bs
    ensures |s| == |bs| && forall k :: 0 <= k < |bs| ==> s[k] == bs[k].State()
  {
    seq(|bs|, k reads bs requires 0 <= k < |bs| => bs[k].State())
  }

  /** The first |field| cells of `cells` carry the bricks of `field`, fresh
      from the generator: brick k sits in cell k, has taken no hit, is visible,
      needs one to three hits, and has the colour of its cell's row (`byRow`)
      or some row colour. */
  ghost predicate LaidOn(field: seq<Brick>, cells: seq<Cell>, byRow: bool)
    reads field
  {
    |field| <= |cells| &&
    forall k :: 0 <= k < |field| ==>
      field[k].x == CellX(cells[k].col) && field[k].y == CellY(cells[k].row) &&
      field[k].hits == 0 && field[k].visible && 1 <= field[k].hitsRequired <= 3 &&
      field[k].points == 10 * field[k].hitsRequired &&
      if byRow then 0 <= cells[k].row < |Palette| && field[k].color == Palette[cells[k].row]
      else field[k].color in Palette
  }

  /** The field is laid on exactly the cells `cells`. */
  ghost predicate Laid(field: seq<Brick>, cells: seq<Cell>, byRow: bool)
    reads field
  {
    |field| == |cells| && LaidOn(field, cells, byRow)
  }

  /** No two bricks of the field sit at the same position. */
  ghost predicate Spread(field: seq<Brick>)
    reads field
  {
    forall i, j :: 0 <= i < j < |field| ==> field[i].x != field[j].x || field[i].y != field[j].y
  }

  /** A field laid on distinct cells has its bricks at distinct positions. */
  lemma LaidSpread(field: seq<Brick>, cells: seq<Cell>, byRow: bool)
    requires Laid(field, cells, byRow) && Distinct(cells)
    ensures Spread(field)
  {
    forall i, j | 0 <= i < j < |field| ensures field[i].x != field[j].x || field[i].y != field[j].y {
      CellPositionsDistinct(cells[i], cells[j]);
    }
  }

  /** A brick laid on the next cell extends the laid prefix. */
  lemma LaidAppend(field: seq<Brick>, cells: seq<Cell>, byRow: bool, b: Brick)
    requires LaidOn(field, cells, byRow) && |field| < |cells| && b !in field
    requires b.x == CellX(cells[|field|].col) && b.y == CellY(cells[|field|].row) && b.hits == 0 && b.visible
    requires 1 <= b.hitsRequired <= 3 && b.points == 10 * b.hitsRequired
    requires if byRow then 0 <= cells[|field|].row < |Palette| && b.color == Palette[cells[|field|].row]
             else b.color in Palette
    ensures LaidOn(field + [b], cells, byRow)
  {
  }

  /** No brick appears twice in the field; every brick is sound (at most as
      many hits as it needs, gone once it has them all) and worth ten points
      per hit it needs. */
  ghost predicate SoundField(field: seq<Brick>)
    reads field
  {
    Distinct(field) &&
    forall k :: 0 <= k < |field| ==> Sound(field[k].State()) && field[k].points == 10 * field[k].hitsRequired
  }

  /** A field as the generator leaves it: a sound field of at least 20
      bricks, none hit, all visible. */
  ghost predicate FreshField(field: seq<Brick>)
    reads field
  {
    |field| >= 20 && SoundField(field) &&
    forall k :: 0 <= k < |field| ==> field[k].hits == 0 && field[k].visible
  }

  /** A field of distinct bricks, each worth ten points per hit it needs,
      whose values are all sound, is sound. */
  lemma SoundValues(field: seq<Brick>)
    requires Distinct(field) && AllSound(States(field))
    requires forall k :: 0 <= k < |field| ==> field[k].points == 10 * field[k].hitsRequired
    ensures SoundField(field)
  {
  }

  /** A laid field is a fresh field. */
  lemma LaidIsFresh(field: seq<Brick>, cells: seq<Cell>, byRow: bool)
    requires Laid(field, cells, byRow) && |field| >= 20 && Distinct(field)
    ensures FreshField(field)
  {
  }

  /** `min(200, width * 1.5)`: the paddle after a Wider power-up. */
  function Widened(width: real): (r: real)
    ensures r <= MaxPaddleWidth
    ensures PaddleWidth as real <= width ==> PaddleWidth as real <= r
    ensures 0.0 <= width <= MaxPaddleWidth ==> width <= r
  {
    MinR(MaxPaddleWidth, width * 1.5)
  }

  /** `max(3, speed * 0.7)`: a ball's speed after a Slower power-up. */
  function Slowed(speed: real): (r: real)
    ensures MinBallSpeed <= r
    ensures MinBallSpeed <= speed ==> r <= speed
  {
    MaxR(MinBallSpeed, speed * 0.7)
  }

  /** `min(12, speed * 1.3)`: a ball's speed after a Faster power-up. */
  function Hastened(speed: real): (r: real)
    ensures r <= MaxBallSpeed
    ensures 0.0 <= speed <= MaxBallSpeed ==> speed <= r
  {
    MinR(MaxBallSpeed, speed * 1.3)
  }

  /** What a power-up of `kind` does to a ball already in play: Slower and
      Faster change its speed and nothing else, Piercing makes it pierce,
      the others leave it as it is. No power-up changes where a ball is or
      its velocity. */
  function Powered(kind: Kind, b: BallState): (r: BallState)
    ensures r.x == b.x && r.y == b.y && r.dx == b.dx && r.dy == b.dy
    ensures kind != Slower && kind != Faster ==> r.speed == b.speed
    ensures r.piercing <==> b.piercing || kind == Piercing
  {
    match kind
    case Slower => b.(speed := Slowed(b.speed))
    case Faster => b.(speed := Hastened(b.speed))
    case Piercing => b.(piercing := true)
    case _ => b
  }

  /** Ball speeds within the limits stay within them under every power-up. */
  lemma PoweredSpeed(kind: Kind, b: BallState)
    requires MinBallSpeed <= b.speed <= MaxBallSpeed
    ensures MinBallSpeed <= Powered(kind, b).speed <= MaxBallSpeed
    ensures Powered(kind, b).x == b.x && Powered(kind, b).y == b.y
    ensures Powered(kind, b).dx == b.dx && Powered(kind, b).dy == b.dy
  {
  }

  /** Whether a falling power-up whose top-left corner is at (x, y) touches
      the paddle at `paddleX` with width `width`: its bottom edge is below
      the paddle's top and the two overlap horizontally, that is their
      centres are closer than half the sum of their widths. */
  predicate Catches(x: real, y: real, paddleX: real, paddleY: real, width: real)
    ensures Catches(x, y, paddleX, paddleY, width) <==>
      y > paddleY - 20.0 && AbsR(x + 10.0 - (paddleX + width / 2.0)) < 10.0 + width / 2.0
  {
    y + 20.0 > paddleY && x < paddleX + width && x + 20.0 > paddleX
  }

  /** Where the paddle at `x`, of width `width`, ends up when the arrow keys
      are held as `left` and `right`: one move left, then one move right. */
  function Steered(x: real, left: bool, right: bool, width: real): (r: real)
    ensures !left && !right ==> r == x
    ensures (left || right) && width <= ScreenWidth as real ==> 0.0 <= r <= ScreenWidth as real - width
  {
    var afterLeft := if left then PaddleMoved(x, -1, width) else x;
    if right then PaddleMoved(afterLeft, 1, width) else afterLeft
  }

  /** The keys the game reacts to; any other key is `OtherKey`. */
  datatype Key = KeyR | KeyQ | OtherKey

  /** An event of the frame's queue: the window closing, a key going down,
      or anything else. */
  datatype Event = Quit | KeyDown(key: Key) | OtherEvent

  /** Closing the window and the Q key end the main loop. */
  predicate Stops(e: Event)
  {
    e == Quit || e == KeyDown(KeyQ)
  }

  /** What the window gives one frame of the main loop: its event queue and
      whether the left and right arrow keys are held. */
  datatype Frame = Frame(events: seq<Event>, left: bool, right: bool)

  /** Some event of the queue ends the main loop. */
  predicate AsksToStop(events: seq<Event>)
  {
    exists k :: 0 <= k < |events| && Stops(events[k])
  }

  class Game {
    var paddle: Paddle
    var balls: seq<Ball>
    var bricks: seq<Brick>
    var particles: seq<Particle>
    var powerups: seq<PowerUp>
    var score: int
    var lives: int
    var gameOver: bool
    var won: bool
    var screenShake: int
    var powerUpTimer: int

    ghost predicate BricksValid()
      reads this`bricks, bricks
    {
      SoundField(bricks)
    }

    /** Every ball's speed lies between the slow and the fast limit. */
    ghost predicate BallsValid()
      reads this`balls, balls
    {
      Distinct(balls) &&
      forall b :: b in balls ==> MinBallSpeed <= b.speed <= MaxBallSpeed
    }

    /** No particle and no power-up appears twice in its list. */
    ghost predicate EffectsValid()
      reads this`particles, this`powerups
    {
      Distinct(particles) && Distinct(powerups)
    }

    /** The paddle is between its normal width and the cap, and has its normal
        width whenever no power-up timer runs. */
    ghost predicate PaddleValid()
      reads this`paddle, this`powerUpTimer, this`screenShake, paddle
    {
      PaddleWidth as real <= paddle.width <= MaxPaddleWidth &&
      0 <= powerUpTimer <= PowerUpTicks &&
      (powerUpTimer == 0 ==> paddle.width == PaddleWidth as real) &&
      screenShake >= 0
    }

    /** Since the old state the particle and power-up lists have only grown
        at their ends, by objects made in between. */
    twostate predicate EffectsGrown()
      reads this`particles, this`powerups
    {
      old(particles) <= particles && old(powerups) <= powerups &&
      (forall j :: |old(particles)| <= j < |particles| ==> fresh(particles[j])) &&
      (forall j :: |old(powerups)| <= j < |powerups| ==> fresh(powerups[j]))
    }

    ghost predicate Valid()
      reads this`bricks, this`balls, this`particles, this`powerups, this`paddle, this`powerUpTimer, this`screenShake
      reads paddle, balls, bricks
    {
      BricksValid() && BallsValid() && EffectsValid() && PaddleValid()
    }

    /** The state `reset_game` leaves: a fresh paddle and ball, a fresh field,
        no particles or power-ups, no score, three lives. */
    ghost predicate Initial()
      reads this, paddle, balls, bricks
    {
      paddle.width == PaddleWidth as real && paddle.x == (ScreenWidth / 2 - PaddleWidth / 2) as real &&
      |balls| == 1 && balls[0].x == SpawnX as real && balls[0].y == SpawnY as real &&
      balls[0].speed == InitialBallSpeed as real && !balls[0].piercing &&
      FreshField(bricks) &&
      particles == [] && powerups == [] && score == 0 && lives == StartLives &&
      !gameOver && !won && screenShake == 0 && powerUpTimer == 0
    }

    /** No brick is left standing. */
    predicate AllCleared()
      reads this`bricks, bricks`visible
    {
      forall k :: 0 <= k < |bricks| ==> !bricks[k].visible
    }

    constructor (env: Env)
      modifies env
      ensures Valid() && Initial()
      ensures fresh(paddle) && fresh(balls) && fresh(bricks)
    {
      // The field needs a value before the object is complete; ResetGame
      // replaces this paddle straight away.
      paddle := new Paddle();
      new;
      ResetGame(env);
    }

    /** Starts a new session on a freshly generated field. */
    method ResetGame(env: Env)
      modifies this, env
      ensures Valid() && Initial()
      ensures fresh(paddle) && fresh(balls) && fresh(bricks)
    {
      var newPaddle := new Paddle();
      var ball := new Ball(SpawnX as real, SpawnY as real, env);
      var field, pattern, cells := CreateBricks(env);
      Install(newPaddle, ball, field);
    }

    /** Puts a new paddle, ball and field in place, with the session's
        counters at their starting values. */
    method Install(p: Paddle, ball: Ball, field: seq<Brick>)
      requires p.width == PaddleWidth as real && p.x == (ScreenWidth / 2 - PaddleWidth / 2) as real
      requires ball.x == SpawnX as real && ball.y == SpawnY as real
      requires ball.speed == InitialBallSpeed as real && !ball.piercing
      requires FreshField(field)
      modifies this
      ensures paddle == p && balls == [ball] && bricks == field
      ensures Valid() && Initial()
    {
      paddle := p;
      balls := [ball];
      bricks := field;
      particles := [];
      powerups := [];
      score := 0;
      lives := StartLives;
      gameOver := false;
      won := false;
      screenShake := 0;
      powerUpTimer := 0;
    }



    /** Builds the brick field in one of four patterns chosen at random; the
        ghost results are the pattern drawn and the list of cells the bricks
        were laid on, in order. */
    static method CreateBricks(env: Env) returns (field: seq<Brick>, ghost chosen: Pattern, ghost cells: seq<Cell>)
      modifies env
      ensures FreshField(field) && fresh(field) && Spread(field)
      ensures chosen != Scattered ==> cells == PatternCells(chosen) && Laid(field, cells, true)
      ensures chosen == Scattered ==>
        Laid(field, cells, false) && |cells| == 30 && Distinct(cells) &&
        forall k :: 0 <= k < 30 ==> InSwappedGrid(cells[k])
    {
      var choice := env.RandBelow(|Patterns|);
      var pattern := Patterns[choice];
      chosen := pattern;
      if pattern == Scattered {
        field, cells := ScatteredField(GridCells(), env);
      } else {
        var layout := PatternCells(pattern);
        field := LayRows(layout, env);
        cells := layout;
      }
      LaidIsFresh(field, cells, pattern != Scattered);
      LaidSpread(field, cells, pattern != Scattered);
    }

    /** The `normal`, `pyramid` and `diagonal` patterns: one brick in the
        colour of its row on each cell, in the order of `cells`, each drawing
        its durability when it is made. The patterns' nested loops visit
        exactly the cells of GridCells(), PyramidCells() and DiagonalCells(). */
    static method LayRows(cells: seq<Cell>, env: Env) returns (field: seq<Brick>)
      requires forall k :: 0 <= k < |cells| ==> InGrid(cells[k])
      modifies env
      ensures Laid(field, cells, true) && Distinct(field) && fresh(field)
    {
      field := [];
      for k := 0 to |cells|
        invariant |field| == k && LaidOn(field, cells, true)
        invariant Distinct(field) && fresh(field)
      {
        var col, row := cells[k].col, cells[k].row;
        var x, y := CellX(col), CellY(row);
        var u := env.Random();
        var hitsRequired := HitsRequired(u);
        var brick := new Brick(x, y, Palette[row], hitsRequired);
        LaidAppend(field, cells, true, brick);
        field := field + [brick];
      }
    }

    /** The `scattered` pattern: 30 grid positions drawn without replacement;
        each brick draws its durability and then a colour from the palette.
        `positions` is the grid in reading order; the source unpacks each
        sampled (col, row) pair as `row, col`. */
    static method ScatteredField(positions: seq<Cell>, env: Env) returns (field: seq<Brick>, ghost cells: seq<Cell>)
      requires |positions| == 48 && Distinct(positions) && forall k :: 0 <= k < 48 ==> InGrid(positions[k])
      modifies env
      ensures Laid(field, cells, false) && Distinct(field) && fresh(field)
      ensures |cells| == 30 && Distinct(cells) && forall k :: 0 <= k < 30 ==> InSwappedGrid(cells[k])
    {
      field := [];
      var selected := env.Sample(positions, 30);
      ScatteredCells(selected, positions);
      cells := SwapAll(selected);
      for k := 0 to |selected|
        invariant |field| == k && LaidOn(field, cells, false)
        invariant Distinct(field) && fresh(field)
      {
        var row, col := selected[k].col, selected[k].row;
        var x, y := CellX(col), CellY(row);
        var u := env.Random();
        var hitsRequired := HitsRequired(u);
        var pick := env.RandBelow(|Palette|);
        var brick := new Brick(x, y, Palette[pick], hitsRequired);
        LaidAppend(field, cells, false, brick);
        field := field + [brick];
      }
    }
  
    /** Ten particles bursting from (x, y) in the colour `color`. */
    static method Burst(x: real, y: real, color: Color, env: Env) returns (ps: seq<Particle>)
      modifies env
      ensures |ps| == 10 && Distinct(ps)
      ensures forall j :: 0 <= j < |ps| ==>
        fresh(ps[j]) && ps[j].x == x && ps[j].y == y && ps[j].color == color && ps[j].life == ParticleLife
    {
      ps := [];
      for i := 0 to 10
        invariant |ps| == i && Distinct(ps)
        invariant forall j :: 0 <= j < i ==>
          fresh(ps[j]) && ps[j].x == x && ps[j].y == y && ps[j].color == color && ps[j].life == ParticleLife
      {
        var p := new Particle(x, y, color, env);
        ps := ps + [p];
      }
    }

    /** What happens to a visible brick the ball collides with: a piercing
        ball makes it vanish, any other ball hits it; the score gains its
        points if it vanished; ten particles burst from its centre in its
        colour as it now is; and with chance 0.2 a power-up appears at the
        centre of its top edge. */
    method Contact(brick: Brick, piercing: bool, env: Env)
      requires brick.visible && brick.points == 10 * brick.hitsRequired && EffectsValid()
      modifies brick, this`score, this`particles, this`powerups, env
      ensures EffectsValid()
      ensures brick.State() == if piercing then old(brick.State()).(visible := false) else HitBrick(old(brick.State()))
      ensures score == old(score) + Earned(old(brick.State()), brick.State())
      ensures |particles| == |old(particles)| + 10 && old(particles) <= particles
      ensures forall j :: |old(particles)| <= j < |particles| ==>
        fresh(particles[j]) && particles[j].color == brick.color && particles[j].life == ParticleLife &&
        particles[j].x == brick.x as real + 40.0 && particles[j].y == brick.y as real + 15.0
      ensures |old(powerups)| <= |powerups| <= |old(powerups)| + 1 && old(powerups) <= powerups
      ensures |powerups| > |old(powerups)| ==>
        fresh(powerups[|old(powerups)|]) && powerups[|old(powerups)|].active &&
        powerups[|old(powerups)|].x == brick.x as real + 40.0 && powerups[|old(powerups)|].y == brick.y as real
    {
      if piercing {
        brick.visible := false;
        score := score + brick.points;
      } else {
        var destroyed := brick.Hit();
        if destroyed {
          score := score + brick.points;
        }
      }
      AddBurst(brick.x as real + brick.width as real / 2.0, brick.y as real + brick.height as real / 2.0, brick.color, env);
      MaybeDrop(brick.x as real + brick.width as real / 2.0, brick.y as real, env);
    }

    /** Ten new particles burst from (x, y) in the colour `color`. */
    method AddBurst(x: real, y: real, color: Color, env: Env)
      requires Distinct(particles)
      modifies this`particles, env
      ensures Distinct(particles) && |particles| == |old(particles)| + 10 && old(particles) <= particles
      ensures forall j :: |old(particles)| <= j < |particles| ==>
        fresh(particles[j]) && particles[j].x == x && particles[j].y == y &&
        particles[j].color == color && particles[j].life == ParticleLife
    {
      var burst := Burst(x, y, color, env);
      particles := particles + burst;
    }

    /** With chance 0.2, a new power-up appears at (x, y). */
    method MaybeDrop(x: real, y: real, env: Env)
      requires Distinct(powerups)
      modifies this`powerups, env
      ensures Distinct(powerups) && old(powerups) <= powerups
      ensures |powerups| == |old(powerups)| + if NextUnit(old(env.tape)) < 0.2 then 1 else 0
      ensures |powerups| > |old(powerups)| ==>
        fresh(powerups[|old(powerups)|]) && powerups[|old(powerups)|].active &&
        powerups[|old(powerups)|].x == x && powerups[|old(powerups)|].y == y
    {
      var u := env.Random();
      if u < 0.2 {
        var p := new PowerUp(x, y, env);
        powerups := powerups + [p];
      }
    }

    /** One step of the scan, at brick `k`: if the ball collides with the
        brick it makes contact, and a non-piercing ball turns back from it;
        `struck` says whether it collided. No other brick changes. */
    method TryBrick(k: nat, ball: Ball, env: Env) returns (struck: bool)
      requires k < |bricks| && Distinct(bricks) && bricks[k].points == 10 * bricks[k].hitsRequired && EffectsValid()
      modifies bricks[k], ball`dx, ball`dy, this`score, this`particles, this`powerups, env
      ensures EffectsValid()
      ensures var before := old(bricks[k].State());
        struck == Struck(ball.x, ball.y, before) &&
        States(bricks) == old(States(bricks))[k :=
          if !struck then before
          else if ball.piercing then before.(visible := false)
          else HitBrick(before)]
      ensures ball.State() == if struck && !ball.piercing then Turned(old(ball.State()), old(bricks[k].State())) else old(ball.State())
      ensures score == old(score) + Earned(old(bricks[k].State()), bricks[k].State())
      ensures |particles| == |old(particles)| + (if struck then 10 else 0)
      ensures |old(powerups)| <= |powerups| <= |old(powerups)| + (if struck then 1 else 0)
      ensures EffectsGrown()
    {
      var brick := bricks[k];
      struck := false;
      if brick.visible {
        if Overlaps(ball.x, ball.y, brick.State()) {
          struck := true;
          Contact(brick, ball.piercing, env);
          if !ball.piercing {
            Rebound(ball, brick);
          }
        }
      }
      assert forall j :: 0 <= j < |bricks| && j != k ==> bricks[j] != brick;
    }

    /** A non-piercing ball turning back from the brick it struck. */
    static method Rebound(ball: Ball, brick: Brick)
      modifies ball`dx, ball`dy
      ensures ball.State() == Turned(old(ball.State()), brick.State())
    {
      if NearSide(ball.x, brick.State()) {
        ball.dx := ball.dx * -1.0;
      } else {
        ball.dy := ball.dy * -1.0;
      }
    }

    /** The brick half of `handle_collisions`: the bricks are scanned in field
        order; a piercing ball passes through every visible brick it overlaps,
        any other ball stops at the first one and turns back. The ball's
        piercing flag does not change during the scan, so the scan is written
        as one loop for each value of the flag. */
    method CollideBricks(ball: Ball, env: Env)
      requires BricksValid() && EffectsValid()
      modifies bricks, ball`dx, ball`dy, this`score, this`particles, this`powerups, env
      ensures BricksValid() && EffectsValid()
      ensures States(bricks) == Scan(old(States(bricks)), ball.x, ball.y, ball.piercing)
      ensures score == old(score) + Gained(old(States(bricks)), States(bricks))
      ensures ball.State() == Deflected(old(ball.State()), old(States(bricks)))
      ensures |particles| == |old(particles)| + 10 * Contacts(old(States(bricks)), ball.x, ball.y, ball.piercing)
      ensures |old(powerups)| <= |powerups| <= |old(powerups)| + Contacts(old(States(bricks)), ball.x, ball.y, ball.piercing)
      ensures EffectsGrown()
    {
      if ball.piercing {
        PierceBricks(ball, env);
      } else {
        StrikeBricks(ball, env);
      }
    }

    /** The scan for a piercing ball: it passes through every brick. */
    method PierceBricks(ball: Ball, env: Env)
      requires BricksValid() && EffectsValid() && ball.piercing
      modifies bricks, ball`dx, ball`dy, this`score, this`particles, this`powerups, env
      ensures BricksValid() && EffectsValid() && ball.State() == old(ball.State())
      ensures States(bricks) == Pierce(old(States(bricks)), ball.x, ball.y)
      ensures score == old(score) + Gained(old(States(bricks)), States(bricks))
      ensures |particles| == |old(particles)| + 10 * StruckCount(old(States(bricks)), ball.x, ball.y)
      ensures |old(powerups)| <= |powerups| <= |old(powerups)| + StruckCount(old(States(bricks)), ball.x, ball.y)
      ensures EffectsGrown()
    {
      ghost var field := bricks;
      ghost var bs := States(bricks);
      ghost var x, y := ball.x, ball.y;
      ghost var cur := bs;
      GainedNone(bs);
      for k := 0 to |bricks|
        invariant bricks == field && States(field) == cur && |cur| == |bs| && ball.State() == old(ball.State())
        invariant EffectsValid()
        invariant forall j :: 0 <= j < |bs| ==> cur[j] == if j < k then PierceOne(bs[j], x, y) else bs[j]
        invariant AllSound(cur)
        invariant score == old(score) + Gained(bs, cur)
        invariant |particles| == |old(particles)| + 10 * StruckCount(bs[..k], x, y)
        invariant |old(powerups)| <= |powerups| <= |old(powerups)| + StruckCount(bs[..k], x, y)
        invariant EffectsGrown()
      {
        cur := PierceStep(k, ball, env, bs, cur, old(score), |old(particles)|, |old(powerups)|);
      }
      assert bs[..|bs|] == bs;
      PierceAll(bs, cur, x, y);
      SoundValues(field);
    }

    /** One step of the piercing scan, at brick `k`: the brick takes the
        ball's effect, and `cur`, the field's values so far, follows it; the
        score, the particles and the power-ups keep their accounts of the
        scan from its start, where they were `score0`, `n0` and `m0`. */
    method PierceStep(k: nat, ball: Ball, env: Env, ghost bs: seq<BrickState>, ghost cur: seq<BrickState>,
                      ghost score0: int, ghost n0: nat, ghost m0: nat)
      returns (ghost cur': seq<BrickState>)
      requires k < |bricks| && Distinct(bricks) && bricks[k].points == 10 * bricks[k].hitsRequired
      requires EffectsValid() && ball.piercing
      requires States(bricks) == cur && |cur| == |bs|
      requires forall j :: 0 <= j < |bs| ==> cur[j] == if j < k then PierceOne(bs[j], ball.x, ball.y) else bs[j]
      requires AllSound(cur) && score == score0 + Gained(bs, cur)
      requires |particles| == n0 + 10 * StruckCount(bs[..k], ball.x, ball.y)
      requires m0 <= |powerups| <= m0 + StruckCount(bs[..k], ball.x, ball.y)
      modifies bricks[k], ball`dx, ball`dy, this`score, this`particles, this`powerups, env
      ensures States(bricks) == cur' && |cur'| == |bs| && ball.State() == old(ball.State())
      ensures forall j :: 0 <= j < |bs| ==> cur'[j] == if j < k + 1 then PierceOne(bs[j], ball.x, ball.y) else bs[j]
      ensures AllSound(cur') && score == score0 + Gained(bs, cur')
      ensures |particles| == n0 + 10 * StruckCount(bs[..k + 1], ball.x, ball.y)
      ensures m0 <= |powerups| <= m0 + StruckCount(bs[..k + 1], ball.x, ball.y)
      ensures EffectsValid() && EffectsGrown()
    {
      StruckCountStep(bs, k, ball.x, ball.y);
      var struck := TryBrick(k, ball, env);
      GainedUpdate(bs, cur, k, bricks[k].State());
      cur' := cur[k := bricks[k].State()];
    }

    /** The scan for any other ball: it stops at the first brick it strikes. */
    method StrikeBricks(ball: Ball, env: Env)
      requires BricksValid() && EffectsValid() && !ball.piercing
      modifies bricks, ball`dx, ball`dy, this`score, this`particles, this`powerups, env
      ensures BricksValid() && EffectsValid()
      ensures States(bricks) == StrikeFirst(old(States(bricks)), ball.x, ball.y)
      ensures score == old(score) + Gained(old(States(bricks)), States(bricks))
      ensures ball.State() == Deflected(old(ball.State()), old(States(bricks)))
      ensures var struck := if FirstStruck(old(States(bricks)), ball.x, ball.y) < |bricks| then 1 else 0;
        |particles| == |old(particles)| + 10 * struck && |old(powerups)| <= |powerups| <= |old(powerups)| + struck
      ensures EffectsGrown()
    {
      ghost var field := bricks;
      ghost var bs := States(bricks);
      ghost var x, y := ball.x, ball.y;
      GainedNone(bs);
      for k := 0 to |bricks|
        invariant bricks == field && States(field) == bs && ball.State() == old(ball.State())
        invariant forall j :: 0 <= j < k ==> !Struck(x, y, bs[j])
        invariant score == old(score) && particles == old(particles) && powerups == old(powerups)
      {
        var struck := TryBrick(k, ball, env);
        if struck {
          StrikeAt(bs, k, x, y);
          GainedUpdate(bs, bs, k, bricks[k].State());
          SoundValues(field);
          return;
        }
      }
      StrikeNone(bs, x, y);
    }

    /** The paddle half of `handle_collisions`: a ball touching the paddle
        is put on its top edge and sent off at an angle set by where it met
        the paddle. */
    method BounceOffPaddle(ball: Ball, env: Env)
      requires paddle.width > 0.0
      modifies ball`y, ball`dx, ball`dy
      ensures ball.State() == Bounced(old(ball.State()), paddle.x, paddle.y, paddle.width, env)
    {
      if OnPaddle(ball.State(), paddle.x, paddle.y, paddle.width) {
        ball.dy := -AbsR(ball.dy);
        ball.y := paddle.y - ball.radius;
        var relativeIntersectX := (paddle.x + paddle.width / 2.0) - ball.x;
        var normalizedIntersect := relativeIntersectX / (paddle.width / 2.0);
        var bounceAngle := normalizedIntersect * env.pi / 3.0;
        assert bounceAngle == BounceAngle(ball.x, paddle.x, paddle.width, env);
        ball.dx := -ball.speed * env.sin(bounceAngle);
        ball.dy := -ball.speed * env.cos(bounceAngle);
      }
    }

    /** `handle_collisions`: the paddle bounce, then the scan of the field
        from the ball's position. The field changes as the scan says, the
        score gains what the destroyed bricks are worth and never drops, and
        a non-piercing ball hits at most one brick. */
    method HandleCollisions(ball: Ball, env: Env)
      requires BricksValid() && EffectsValid() && paddle.width > 0.0
      modifies bricks, ball`y, ball`dx, ball`dy, this`score, this`particles, this`powerups, env
      ensures BricksValid() && EffectsValid()
      ensures var b := Bounced(old(ball.State()), paddle.x, paddle.y, paddle.width, env);
        ball.State() == Deflected(b, old(States(bricks)))
      ensures States(bricks) == Scan(old(States(bricks)), ball.x, ball.y, ball.piercing)
      ensures score == old(score) + Gained(old(States(bricks)), States(bricks)) && score >= old(score)
      ensures |particles| == |old(particles)| + 10 * Contacts(old(States(bricks)), ball.x, ball.y, ball.piercing)
      ensures |old(powerups)| <= |powerups| <= |old(powerups)| + Contacts(old(States(bricks)), ball.x, ball.y, ball.piercing)
      ensures EffectsGrown()
    {
      ghost var bs := States(bricks);
      BounceOffPaddle(ball, env);
      assert States(bricks) == bs;
      CollideBricks(ball, env);
      GainedNonNegative(bs, States(bricks));
    }

    /** Ball `i` of the turn order moves, then collides (Ball.Move and
        HandleCollisions state how). It ends up between the side walls, no
        other ball of the turn order moves, the field stays sound and the
        score does not drop. */
    method TakeTurn(order: seq<Ball>, i: nat, env: Env)
      requires i < |order| && Distinct(order)
      requires BricksValid() && EffectsValid() && paddle.width > 0.0
      modifies bricks, order`x, order`y, order`dx, order`dy, this`score, this`particles, this`powerups, env
      ensures BricksValid() && EffectsValid()
      ensures BallRadius as real <= order[i].x <= (ScreenWidth - BallRadius) as real
      ensures forall j {:trigger order[j]} :: 0 <= j < |order| && j != i ==>
        order[j].x == old(order[j].x) && order[j].y == old(order[j].y)
      ensures forall b :: b in order ==> b.speed == old(b.speed)
      ensures score >= old(score)
      ensures EffectsGrown()
    {
      var ball := order[i];
      ball.Move();
      HandleCollisions(ball, env);
    }

    /** One pass of the ball loop's body: ball `i` takes its turn and joins
        the balls kept so far when it is still on screen; `stays` records
        whether it stayed. */
    method Turn(order: seq<Ball>, i: nat, remaining: seq<Ball>, ghost stays: seq<bool>, env: Env)
      returns (remaining': seq<Ball>, ghost stays': seq<bool>)
      requires i < |order| && Distinct(order)
      requires |stays| == i && remaining == Keep(order[..i], stays)
      requires forall j {:trigger order[j]} :: 0 <= j < i ==>
        (stays[j] <==> order[j].y <= ScreenHeight as real) &&
        BallRadius as real <= order[j].x <= (ScreenWidth - BallRadius) as real
      requires BricksValid() && EffectsValid() && paddle.width > 0.0
      modifies bricks, order`x, order`y, order`dx, order`dy, this`score, this`particles, this`powerups, env
      ensures |stays'| == i + 1 && remaining' == Keep(order[..i + 1], stays')
      ensures forall j {:trigger order[j]} :: 0 <= j < i + 1 ==>
        (stays'[j] <==> order[j].y <= ScreenHeight as real) &&
        BallRadius as real <= order[j].x <= (ScreenWidth - BallRadius) as real
      ensures forall b :: b in order ==> b.speed == old(b.speed)
      ensures BricksValid() && EffectsValid()
      ensures score >= old(score) && EffectsGrown()
    {
      TakeTurn(order, i, env);
      var stay := order[i].y <= ScreenHeight as real;
      KeepGrow(order, i, stays, stay);
      remaining' := if stay then remaining + [order[i]] else remaining;
      stays' := stays + [stay];
      forall j {:trigger order[j]} | 0 <= j < i + 1 ensures
        (stays'[j] <==> order[j].y <= ScreenHeight as real) &&
        BallRadius as real <= order[j].x <= (ScreenWidth - BallRadius) as real
      {
        if j < i {
          assert stays'[j] == stays[j];
        }
      }
    }

    /** The turns of the ball loop: the balls of `order` take their turns
        in order, and the balls that end on screen are kept in their order;
        `stays` records which balls stayed. Every ball of `order` ends
        between the side walls, with its speed. */
    method PlayTurns(order: seq<Ball>, env: Env) returns (remaining: seq<Ball>, ghost stays: seq<bool>)
      requires Distinct(order) && BricksValid() && EffectsValid() && paddle.width > 0.0
      modifies bricks, order`x, order`y, order`dx, order`dy, this`score, this`particles, this`powerups, env
      ensures |stays| == |order| && remaining == Keep(order, stays)
      ensures forall j {:trigger order[j]} :: 0 <= j < |order| ==>
        (stays[j] <==> order[j].y <= ScreenHeight as real) &&
        BallRadius as real <= order[j].x <= (ScreenWidth - BallRadius) as real
      ensures forall b :: b in order ==> b.speed == old(b.speed)
      ensures BricksValid() && EffectsValid()
      ensures score >= old(score) && EffectsGrown()
    {
      remaining := [];
      stays := [];
      for i := 0 to |order|
        invariant |stays| == i && remaining == Keep(order[..i], stays)
        invariant forall j {:trigger order[j]} :: 0 <= j < i ==>
          (stays[j] <==> order[j].y <= ScreenHeight as real) &&
          BallRadius as real <= order[j].x <= (ScreenWidth - BallRadius) as real
        invariant forall b :: b in order ==> b.speed == old(b.speed)
        invariant BricksValid() && EffectsValid()
        invariant score >= old(score) && EffectsGrown()
      {
        remaining, stays := Turn(order, i, remaining, stays, env);
      }
      assert order[..|order|] == order;
    }

    /** The ball loop of a tick: every ball in play, in order, takes its turn
        and is dropped once it is below the bottom edge. The balls left are
        those of the old list that are still on screen, in their order; every
        ball ends between the side walls. Nothing in a turn reads the ball
        list, so the list is built from the balls that stay and replaces the
        old one at the end; `Lists.KeepStep` shows this is what removing each
        falling ball from the list leaves. */
    method UpdateBalls(env: Env)
      requires BricksValid() && BallsValid() && EffectsValid() && paddle.width > 0.0
      modifies this`balls, this`score, this`particles, this`powerups, bricks, env
      modifies balls`x, balls`y, balls`dx, balls`dy
      ensures BricksValid() && BallsValid() && EffectsValid()
      ensures Subsequence(balls, old(balls)) && forall j :: 0 <= j < |balls| ==> balls[j] in old(balls)
      ensures forall k :: 0 <= k < |old(balls)| ==> (old(balls)[k] in balls <==> old(balls)[k].y <= ScreenHeight as real)
      ensures forall k :: 0 <= k < |old(balls)| ==> BallRadius as real <= old(balls)[k].x <= (ScreenWidth - BallRadius) as real
      ensures score >= old(score)
      ensures EffectsGrown()
    {
      var order := balls;
      var remaining, stays := PlayTurns(order, env);
      Survivors(order, stays, remaining);
      balls := remaining;
    }

    /** What the ball loop leaves: the balls that stayed, a subsequence of
        the turn order without repeats, each within the speed limits. */
    static lemma Survivors(order: seq<Ball>, stays: seq<bool>, remaining: seq<Ball>)
      requires Distinct(order) && |stays| == |order| && remaining == Keep(order, stays)
      requires forall b :: b in order ==> MinBallSpeed <= b.speed <= MaxBallSpeed
      ensures Distinct(remaining) && Subsequence(remaining, order)
      ensures forall b :: b in remaining ==> MinBallSpeed <= b.speed <= MaxBallSpeed
      ensures forall j :: 0 <= j < |order| ==> (order[j] in remaining <==> stays[j])
      ensures forall b :: b in remaining ==> b in order
    {
      KeepFacts(order, stays);
    }

    /** After the ball loop: with no ball left the player loses a life, and
        the session is over when none remains; otherwise a fresh ball is put
        in play above the paddle. With balls left nothing changes. */
    method LoseLife(env: Env)
      requires Valid()
      modifies this`lives, this`gameOver, this`balls, env
      ensures Valid()
      ensures old(balls) != [] ==> lives == old(lives) && gameOver == old(gameOver) && balls == old(balls)
      ensures old(balls) == [] ==> lives == old(lives) - 1
      ensures old(balls) == [] && lives <= 0 ==> gameOver && balls == []
      ensures old(balls) == [] && lives > 0 ==>
        gameOver == old(gameOver) && |balls| == 1 && fresh(balls[0]) &&
        balls[0].State() == BallState(SpawnX as real, SpawnY as real,
                                      LaunchDx(env, NextUnit(old(env.tape))), LaunchDy(env, NextUnit(old(env.tape))),
                                      InitialBallSpeed as real, false)
    {
      if balls == [] {
        lives := lives - 1;
        if lives <= 0 {
          gameOver := true;
        } else {
          var ball := new Ball(SpawnX as real, SpawnY as real, env);
          balls := balls + [ball];
        }
      }
    }

    /** The session is won once no brick is left standing. */
    method CheckWon()
      modifies this`won
      ensures won <==> old(won) || AllCleared()
    {
      if AllCleared() {
        won := true;
      }
    }

    /** The particle comprehension: every particle moves and fades, and those
        left without life are dropped, the others keeping their order. */
    method UpdateParticles()
      requires EffectsValid()
      modifies this`particles, particles`x, particles`y, particles`life
      ensures EffectsValid()
      ensures Subsequence(particles, old(particles))
      ensures forall j {:trigger old(particles)[j]} :: 0 <= j < |old(particles)| ==>
        var p := old(particles)[j];
        p.x == old(p.x) + p.dx && p.y == old(p.y) + p.dy && p.life == old(p.life) - ParticleFade &&
        (p in particles <==> p.life > 0)
    {
      var order := particles;
      var kept, alive := Fade(order);
      KeepFacts(order, alive);
      particles := kept;
    }

    /** The loop of the comprehension over `order`: `kept` is the particles
        whose update left them alive, in order. */
    static method Fade(order: seq<Particle>) returns (kept: seq<Particle>, ghost alive: seq<bool>)
      requires Distinct(order)
      modifies order`x, order`y, order`life
      ensures |alive| == |order| && kept == Keep(order, alive)
      ensures forall j {:trigger order[j]} :: 0 <= j < |order| ==>
        order[j].x == old(order[j].x) + order[j].dx && order[j].y == old(order[j].y) + order[j].dy &&
        order[j].life == old(order[j].life) - ParticleFade && (alive[j] <==> order[j].life > 0)
    {
      kept, alive := [], [];
      for i := 0 to |order|
        invariant |alive| == i && kept == Keep(order[..i], alive)
        invariant forall j {:trigger order[j]} :: 0 <= j < i ==>
          order[j].x == old(order[j].x) + order[j].dx && order[j].y == old(order[j].y) + order[j].dy &&
          order[j].life == old(order[j].life) - ParticleFade && (alive[j] <==> order[j].life > 0)
        invariant forall j {:trigger order[j]} :: i <= j < |order| ==>
          order[j].x == old(order[j].x) && order[j].y == old(order[j].y) && order[j].life == old(order[j].life)
      {
        var live := order[i].Update();
        KeepGrow(order, i, alive, live);
        if live {
          kept := kept + [order[i]];
        }
        alive := alive + [live];
      }
      assert order[..|order|] == order;
    }

    /** Power-up `u` stays in the list after its check against the paddle,
        `width` wide at the time: it is still on screen and does not touch
        the paddle. */
    ghost predicate Stays(u: PowerUp, width: real)
      reads u`y, u`active, this`paddle, paddle`x
    {
      u.active && !Catches(u.x, u.y, paddle.x, paddle.y, width)
    }

    /** The power-up loop: every falling power-up moves down; one that has
        left the screen is dropped, and one that touches the paddle takes
        effect and is dropped; the others keep their order. `widths` gives
        the paddle's width when each was checked (a Wider power-up caught
        earlier in the loop widens it). */
    method UpdatePowerUps(env: Env) returns (ghost widths: seq<real>)
      requires BallsValid() && PaddleValid() && EffectsValid()
      modifies this`powerups, powerups`y, powerups`active, this`balls, this`lives, this`powerUpTimer
      modifies paddle`width, balls`speed, balls`piercing, env
      ensures BallsValid() && PaddleValid() && EffectsValid()
      ensures Subsequence(powerups, old(powerups)) && |widths| == |old(powerups)|
      ensures forall j :: 0 <= j < |widths| ==> PaddleWidth as real <= widths[j] <= MaxPaddleWidth
      ensures forall j :: 0 <= j < |old(powerups)| ==> old(powerups)[j].Fell()
      ensures forall j :: 0 <= j < |old(powerups)| ==> (old(powerups)[j] in powerups <==> Stays(old(powerups)[j], widths[j]))
      ensures paddle.x == old(paddle.x) && lives >= old(lives) && |balls| >= |old(balls)|
      ensures forall j :: 0 <= j < |balls| ==> balls[j] in old(balls) || fresh(balls[j])
    {
      var order := powerups;
      var kept;
      ghost var stays;
      kept, stays, widths := Collect(order, env);
      KeepFacts(order, stays);
      powerups := kept;
    }

    /** The loop of UpdatePowerUps over `order`: `kept` collects, in order,
        the power-ups the loop does not remove (nothing a power-up's effect
        does reads the list, so the list is replaced once at the end). */
    method Collect(order: seq<PowerUp>, env: Env) returns (kept: seq<PowerUp>, ghost stays: seq<bool>, ghost widths: seq<real>)
      requires BallsValid() && PaddleValid() && Distinct(order)
      modifies order`y, order`active, this`balls, this`lives, this`powerUpTimer, paddle`width, balls`speed, balls`piercing, env
      ensures BallsValid() && PaddleValid()
      ensures |stays| == |order| && |widths| == |order| && kept == Keep(order, stays)
      ensures forall j :: 0 <= j < |widths| ==> PaddleWidth as real <= widths[j] <= MaxPaddleWidth
      ensures forall j :: 0 <= j < |order| ==> order[j].Fell() && (stays[j] <==> Stays(order[j], widths[j]))
      ensures paddle.x == old(paddle.x) && lives >= old(lives) && |balls| >= |old(balls)|
      ensures old(balls) <= balls && forall j :: |old(balls)| <= j < |balls| ==> fresh(balls[j])
    {
      kept, stays, widths := [], [], [];
      for i := 0 to |order|
        invariant BallsValid() && PaddleValid()
        invariant |stays| == i && |widths| == i && kept == Keep(order[..i], stays)
        invariant forall j :: 0 <= j < i ==> PaddleWidth as real <= widths[j] <= MaxPaddleWidth
        invariant forall j :: 0 <= j < i ==> order[j].Fell() && (stays[j] <==> Stays(order[j], widths[j]))
        invariant forall j :: i <= j < |order| ==> unchanged(order[j])
        invariant paddle.x == old(paddle.x) && lives >= old(lives)
        invariant old(balls) <= balls && forall j :: |old(balls)| <= j < |balls| ==> fresh(balls[j])
      {
        kept, stays, widths := CollectStep(order, i, order[i], kept, stays, widths, env);
      }
      assert order[..|order|] == order;
    }

    /** One pass of the power-up loop's body, for power-up `i`. */
    method CollectStep(order: seq<PowerUp>, i: nat, u: PowerUp, kept: seq<PowerUp>,
                       ghost stays: seq<bool>, ghost widths: seq<real>, env: Env)
      returns (kept': seq<PowerUp>, ghost stays': seq<bool>, ghost widths': seq<real>)
      requires BallsValid() && PaddleValid() && Distinct(order) && i < |order| && u == order[i]
      requires |stays| == i && |widths| == i && kept == Keep(order[..i], stays)
      requires forall j :: 0 <= j < i ==> PaddleWidth as real <= widths[j] <= MaxPaddleWidth
      requires forall j :: 0 <= j < i ==> (stays[j] <==> Stays(order[j], widths[j]))
      modifies u`y, u`active, this`balls, this`lives, this`powerUpTimer, paddle`width, balls`speed, balls`piercing, env
      ensures BallsValid() && PaddleValid()
      ensures |stays'| == i + 1 && |widths'| == i + 1 && kept' == Keep(order[..i + 1], stays')
      ensures forall j :: 0 <= j < i + 1 ==> PaddleWidth as real <= widths'[j] <= MaxPaddleWidth
      ensures forall j :: 0 <= j < i + 1 ==> (stays'[j] <==> Stays(order[j], widths'[j]))
      ensures u.Fell()
      ensures forall j :: 0 <= j < |order| && j != i ==> unchanged(order[j])
      ensures paddle.x == old(paddle.x) && lives >= old(lives)
      ensures old(balls) <= balls && forall j :: |old(balls)| <= j < |balls| ==> fresh(balls[j])
    {
      var stay;
      ghost var width;
      stay, width := Catch(u, env);
      KeepGrow(order, i, stays, stay);
      kept' := if stay then kept + [u] else kept;
      stays', widths' := stays + [stay], widths + [width];
      forall j | 0 <= j < i + 1 ensures stays'[j] <==> Stays(order[j], widths'[j]) {
        if j < i {
          assert order[j] != u;
          assert stays'[j] == stays[j] && widths'[j] == widths[j];
        }
      }
    }

    /** Power-up `u` falls; if it is still on screen and touches the paddle,
        whose width was `width`, it takes effect; `stay` says whether it
        stays in the list. */
    method Catch(u: PowerUp, env: Env) returns (stay: bool, ghost width: real)
      requires BallsValid() && PaddleValid()
      modifies u`y, u`active, this`balls, this`lives, this`powerUpTimer, paddle`width, balls`speed, balls`piercing, env
      ensures BallsValid() && PaddleValid()
      ensures PaddleWidth as real <= width <= MaxPaddleWidth
      ensures u.Fell() && (stay <==> Stays(u, width))
      ensures paddle.x == old(paddle.x) && lives >= old(lives)
      ensures old(balls) <= balls && forall j :: |old(balls)| <= j < |balls| ==> fresh(balls[j])
    {
      u.Update();
      stay := true;
      width := paddle.width;
      if !u.active {
        stay := false;
      } else if Catches(u.x, u.y, paddle.x, paddle.y, paddle.width) {
        ApplyPowerUp(u.kind, env);
        stay := false;
      }
    }

    /** The timers at the end of a tick: the screen shake and the power-up
        timer count down to zero, and the paddle returns to its normal width
        when the timer runs out. Piercing balls stay piercing. */
    method DecayTimers()
      requires Valid()
      modifies this`screenShake, this`powerUpTimer, paddle`width
      ensures Valid()
      ensures screenShake == if old(screenShake) > 0 then old(screenShake) - 1 else 0
      ensures powerUpTimer == if old(powerUpTimer) > 0 then old(powerUpTimer) - 1 else 0
      ensures paddle.width == if old(powerUpTimer) == 1 then PaddleWidth as real else old(paddle.width)
    {
      if screenShake > 0 {
        screenShake := screenShake - 1;
      }
      if powerUpTimer > 0 {
        powerUpTimer := powerUpTimer - 1;
        if powerUpTimer == 0 {
          paddle.width := PaddleWidth as real;
        }
      }
    }

    /** `apply_powerup`: Wider widens the paddle up to the cap and starts the
        timer; Slower and Faster change every ball's speed within the limits
        and nothing else about it; Multi adds as many fresh balls as there
        are, at the first ball's position; ExtraLife adds a life; Piercing
        makes every ball pierce and starts the timer. */
    method ApplyPowerUp(kind: Kind, env: Env)
      requires BallsValid() && PaddleValid()
      modifies this`balls, this`lives, this`powerUpTimer, paddle`width, balls`speed, balls`piercing, env
      ensures BallsValid() && PaddleValid()
      ensures paddle.width == if kind == Wider then Widened(old(paddle.width)) else old(paddle.width)
      ensures powerUpTimer == if kind == Wider || kind == Piercing then PowerUpTicks else old(powerUpTimer)
      ensures lives == old(lives) + if kind == ExtraLife then 1 else 0
      ensures old(balls) <= balls && |balls| == if kind == Multi then 2 * |old(balls)| else |old(balls)|
      ensures forall j :: 0 <= j < |old(balls)| ==> old(balls)[j].State() == Powered(kind, old(balls[j].State()))
      ensures forall j :: |old(balls)| <= j < |balls| ==>
        fresh(balls[j]) && balls[j].x == balls[0].x && balls[j].y == balls[0].y &&
        balls[j].speed == InitialBallSpeed as real && !balls[j].piercing
    {
      match kind {
        case Wider =>
          Widen();
        case Slower =>
          Retune(kind);
        case Faster =>
          Retune(kind);
        case Multi =>
          AddBalls(env);
        case ExtraLife =>
          lives := lives + 1;
        case Piercing =>
          Retune(kind);
          powerUpTimer := PowerUpTicks;
      }
    }

    /** The Wider power-up: the paddle widens up to the cap and the timer
        starts. */
    method Widen()
      requires BallsValid() && PaddleValid()
      modifies paddle`width, this`powerUpTimer
      ensures BallsValid() && PaddleValid()
      ensures paddle.width == Widened(old(paddle.width)) && powerUpTimer == PowerUpTicks
    {
      paddle.width := Widened(paddle.width);
      powerUpTimer := PowerUpTicks;
    }

    /** The Slower, Faster and Piercing power-ups: the loop over the balls
        for `kind` changes each ball as Powered says. */
    method Retune(kind: Kind)
      requires BallsValid() && PaddleValid() && (kind == Slower || kind == Faster || kind == Piercing)
      modifies balls`speed, balls`piercing
      ensures BallsValid() && PaddleValid()
      ensures forall j {:trigger balls[j]} :: 0 <= j < |balls| ==> balls[j].State() == Powered(kind, old(balls[j].State()))
    {
      if kind == Slower {
        SlowDown(balls);
      } else if kind == Faster {
        SpeedUp(balls);
      } else {
        MakePiercing(balls);
      }
      forall b | b in balls ensures MinBallSpeed <= b.speed <= MaxBallSpeed {
        var j := IndexOf(balls, b);
        PoweredSpeed(kind, old(balls[j].State()));
      }
    }

    /** The Multi power-up: the ball list doubles with fresh balls. */
    method AddBalls(env: Env)
      requires BallsValid() && PaddleValid()
      modifies this`balls, env
      ensures BallsValid() && PaddleValid()
      ensures |balls| == 2 * |old(balls)| && old(balls) <= balls
      ensures forall j :: |old(balls)| <= j < |balls| ==>
        fresh(balls[j]) && balls[j].x == balls[0].x && balls[j].y == balls[0].y &&
        balls[j].speed == InitialBallSpeed as real && !balls[j].piercing
    {
      balls := Doubled(balls, env);
    }

    /** The Slower loop: every ball of `bs` slows down. */
    static method SlowDown(bs: seq<Ball>)
      requires Distinct(bs)
      modifies bs`speed
      ensures forall j {:trigger bs[j]} :: 0 <= j < |bs| ==> bs[j].State() == Powered(Slower, old(bs[j].State()))
    {
      for i := 0 to |bs|
        invariant forall j {:trigger bs[j]} :: 0 <= j < i ==> bs[j].State() == Powered(Slower, old(bs[j].State()))
        invariant forall j {:trigger bs[j]} :: i <= j < |bs| ==> bs[j].State() == old(bs[j].State())
      {
        bs[i].speed := Slowed(bs[i].speed);
      }
    }

    /** The Faster loop: every ball of `bs` speeds up. */
    static method SpeedUp(bs: seq<Ball>)
      requires Distinct(bs)
      modifies bs`speed
      ensures forall j {:trigger bs[j]} :: 0 <= j < |bs| ==> bs[j].State() == Powered(Faster, old(bs[j].State()))
    {
      for i := 0 to |bs|
        invariant forall j {:trigger bs[j]} :: 0 <= j < i ==> bs[j].State() == Powered(Faster, old(bs[j].State()))
        invariant forall j {:trigger bs[j]} :: i <= j < |bs| ==> bs[j].State() == old(bs[j].State())
      {
        bs[i].speed := Hastened(bs[i].speed);
      }
    }

    /** The Piercing loop: every ball of `bs` pierces. */
    static method MakePiercing(bs: seq<Ball>)
      requires Distinct(bs)
      modifies bs`piercing
      ensures forall j {:trigger bs[j]} :: 0 <= j < |bs| ==> bs[j].State() == Powered(Piercing, old(bs[j].State()))
    {
      for i := 0 to |bs|
        invariant forall j {:trigger bs[j]} :: 0 <= j < i ==> bs[j].State() == Powered(Piercing, old(bs[j].State()))
        invariant forall j {:trigger bs[j]} :: i <= j < |bs| ==> bs[j].State() == old(bs[j].State())
      {
        bs[i].piercing := true;
      }
    }

    /** The Multi loop: one fresh ball at the first ball's position for each
        ball of `bs`, appended after them; an empty list stays empty. */
    static method Doubled(bs: seq<Ball>, env: Env) returns (more: seq<Ball>)
      requires Distinct(bs)
      modifies env
      ensures |more| == 2 * |bs| && bs <= more && Distinct(more)
      ensures forall j :: |bs| <= j < |more| ==>
        fresh(more[j]) && more[j].x == more[0].x && more[j].y == more[0].y &&
        more[j].speed == InitialBallSpeed as real && !more[j].piercing
    {
      more := bs;
      for i := 0 to |bs|
        invariant |more| == |bs| + i && bs <= more && Distinct(more)
        invariant forall j :: |bs| <= j < |more| ==>
          fresh(more[j]) && more[j].x == more[0].x && more[j].y == more[0].y &&
          more[j].speed == InitialBallSpeed as real && !more[j].piercing
      {
        var ball := new Ball(more[0].x, more[0].y, env);
        more := more + [ball];
      }
    }

    /** The frame's events in order: R starts a new session, closing the
        window or Q asks the main loop to stop (the rest of the frame still
        runs). `quit` says whether any event asked to stop. */
    method HandleEvents(events: seq<Event>, env: Env) returns (quit: bool)
      requires Valid()
      modifies this, env
      ensures Valid()
      ensures quit <==> exists k :: 0 <= k < |events| && Stops(events[k])
      ensures KeyDown(KeyR) in events ==> Initial() && fresh(paddle) && fresh(balls) && fresh(bricks)
      ensures KeyDown(KeyR) !in events ==> unchanged(this) && unchanged(env)
      ensures FreshOrHeld()
    {
      quit := false;
      for k := 0 to |events|
        invariant Valid()
        invariant quit <==> exists m :: 0 <= m < k && Stops(events[m])
        invariant KeyDown(KeyR) in events[..k] ==> Initial() && fresh(paddle) && fresh(balls) && fresh(bricks)
        invariant KeyDown(KeyR) !in events[..k] ==> unchanged(this) && unchanged(env)
      {
        assert events[..k + 1] == events[..k] + [events[k]];
        match events[k] {
          case Quit =>
            quit := true;
          case KeyDown(key) =>
            if key == KeyR {
              ResetGame(env);
            } else if key == KeyQ {
              quit := true;
            }
          case OtherEvent =>
        }
      }
      assert events[..|events|] == events;
    }

    /** The simulation half of a frame. A session that is over or won stays
        as it is. Otherwise the paddle follows the arrow keys, the balls take
        their turns, a life may be lost, the win is checked, the particles and
        power-ups are updated and the timers run down: the score does not
        drop, the session is won exactly when no brick is left standing, and
        the ball list is empty only once the session is over. */
    method Simulate(left: bool, right: bool, env: Env)
      requires Valid()
      modifies this, paddle, balls, bricks, particles, powerups, env
      ensures Valid() && FreshOrHeld()
      ensures old(gameOver || won) ==>
        Frozen() && unchanged(env)
      ensures !old(gameOver || won) ==>
        paddle.x == Steered(old(paddle.x), left, right, old(paddle.width)) &&
        score >= old(score) && (won <==> AllCleared()) && (balls == [] ==> gameOver)
    {
      if !gameOver && !won {
        Steer(left, right);
        Advance(env);
        Settle(env);
      }
    }

    /** Nothing of the session has changed: not the game's fields, not the
        paddle, a ball, a brick, a particle or a power-up. */
    twostate predicate Frozen()
      reads this, paddle, balls, bricks, particles, powerups
    {
      unchanged(this) && unchanged(paddle) && unchanged(balls) && unchanged(bricks) && unchanged(particles) && unchanged(powerups)
    }

    /** Every object the session holds now it already held before, or has
        made since: a caller may go on to change them. */
    twostate predicate FreshOrHeld()
      reads this
    {
      (paddle == old(paddle) || fresh(paddle)) &&
      (forall j :: 0 <= j < |balls| ==> balls[j] in old(balls) || fresh(balls[j])) &&
      (forall j :: 0 <= j < |bricks| ==> bricks[j] in old(bricks) || fresh(bricks[j])) &&
      (forall j :: 0 <= j < |particles| ==> particles[j] in old(particles) || fresh(particles[j])) &&
      (forall j :: 0 <= j < |powerups| ==> powerups[j] in old(powerups) || fresh(powerups[j]))
    }

    /** The paddle follows the arrow keys held during the frame. */
    method Steer(left: bool, right: bool)
      modifies paddle`x
      ensures paddle.x == Steered(old(paddle.x), left, right, paddle.width)
    {
      if left {
        paddle.Move(-1);
      }
      if right {
        paddle.Move(1);
      }
    }

    /** The first half of a live tick: the balls take their turns, a life is
        lost when none is left, and the win is checked. The paddle does not
        move, the score does not drop, and the ball list is empty only once
        the session is over. */
    method Advance(env: Env)
      requires Valid()
      modifies this`balls, this`score, this`particles, this`powerups, this`lives, this`gameOver, this`won, bricks, env
      modifies balls`x, balls`y, balls`dx, balls`dy
      ensures Valid() && EffectsGrown() && FreshOrHeld()
      ensures forall j :: 0 <= j < |balls| ==> balls[j] in old(balls) || fresh(balls[j])
      ensures paddle == old(paddle) && paddle.x == old(paddle.x) && paddle.width == old(paddle.width)
      ensures score >= old(score)
      ensures won <==> old(won) || AllCleared()
      ensures balls == [] ==> gameOver
    {
      Roll(env);
      CheckWon();
    }

    /** The ball loop and the life lost when no ball is left. */
    method Roll(env: Env)
      requires Valid()
      modifies this`balls, this`score, this`particles, this`powerups, this`lives, this`gameOver, bricks, env
      modifies balls`x, balls`y, balls`dx, balls`dy
      ensures Valid() && EffectsGrown()
      ensures forall j :: 0 <= j < |balls| ==> balls[j] in old(balls) || fresh(balls[j])
      ensures score >= old(score) && (balls == [] ==> gameOver)
    {
      UpdateBalls(env);
      LoseLife(env);
    }

    /** The second half of a live tick: particles fade, power-ups fall and
        are caught, and the timers run down. None of this moves the paddle,
        touches a brick, the score or the outcome flags, or shrinks the ball
        list. */
    method Settle(env: Env)
      requires Valid()
      modifies this`particles, particles`x, particles`y, particles`life
      modifies this`powerups, powerups`y, powerups`active, this`balls, this`lives, this`powerUpTimer, this`screenShake
      modifies paddle`width, balls`speed, balls`piercing, env
      ensures Valid() && FreshOrHeld()
      ensures paddle.x == old(paddle.x) && |balls| >= |old(balls)|
      ensures score == old(score) && won == old(won) && gameOver == old(gameOver) && (AllCleared() <==> old(AllCleared()))
    {
      UpdateParticles();
      Gather(env);
    }

    /** The power-ups and the timers of the second half of a tick. */
    method Gather(env: Env)
      requires Valid()
      modifies this`powerups, powerups`y, powerups`active, this`balls, this`lives, this`powerUpTimer, this`screenShake
      modifies paddle`width, balls`speed, balls`piercing, env
      ensures Valid() && FreshOrHeld()
      ensures paddle.x == old(paddle.x) && |balls| >= |old(balls)|
      ensures score == old(score) && won == old(won) && gameOver == old(gameOver) && (AllCleared() <==> old(AllCleared()))
    {
      ghost var widths := UpdatePowerUps(env);
      DecayTimers();
    }

    /** One frame of the main loop: the events, then the simulation. `quit`
        says whether the loop ends after this frame. */
    method Step(events: seq<Event>, left: bool, right: bool, env: Env) returns (quit: bool)
      requires Valid()
      modifies this, paddle, balls, bricks, particles, powerups, env
      ensures Valid() && FreshOrHeld()
      ensures quit <==> exists k :: 0 <= k < |events| && Stops(events[k])
      ensures KeyDown(KeyR) !in events && old(gameOver || won) ==>
        Frozen() && unchanged(env)
    {
      quit := HandleEvents(events, env);
      Simulate(left, right, env);
    }

    /** The main loop over the frames the window gives: it plays frame after
        frame and stops after the first one that asks to stop, or when no
        frame is left. `played` is the number of frames played. */
    method Run(frames: seq<Frame>, env: Env) returns (played: nat)
      requires Valid()
      modifies this, paddle, balls, bricks, particles, powerups, env
      ensures Valid() && FreshOrHeld()
      ensures played <= |frames|
      ensures forall k :: 0 <= k < played - 1 ==> !AsksToStop(frames[k].events)
      ensures played < |frames| ==> 0 < played && AsksToStop(frames[played - 1].events)
    {
      played := 0;
      var quit := false;
      while played < |frames| && !quit
        invariant played <= |frames| && Valid() && FreshOrHeld()
        invariant forall k :: 0 <= k < played - 1 ==> !AsksToStop(frames[k].events)
        invariant quit ==> 0 < played && AsksToStop(frames[played - 1].events)
        invariant !quit && 0 < played ==> !AsksToStop(frames[played - 1].events)
        decreases |frames| - played
      {
        var frame := frames[played];
        quit := Step(frame.events, frame.left, frame.right, env);
        played := played + 1;
      }
    }
  }
}

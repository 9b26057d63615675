/** The game's entities: bricks, balls, the paddle, particles and power-ups.
    Each is a class whose fields the game updates in place; fields that are
    never reassigned after construction are constants. Positions and
    velocities, floats in the source, are reals here. */
module Entities {
  import opened Oracle

  const ScreenWidth: int := 800
  const ScreenHeight: int := 600

  const PaddleWidth: int := 100
  const PaddleHeight: int := 20
  const PaddleSpeed: int := 8

  const BallRadius: int := 8
  const InitialBallSpeed: int := 6

  const BrickWidth: int := 80
  const BrickHeight: int := 30

  /** The life a particle is born with and the life it loses per update. */
  const ParticleLife: int := 255
  const ParticleFade: int := 10

  function Max(a: int, b: int): int { if a >= b then a else b }
  function MinR(a: real, b: real): real { if a <= b then a else b }
  function MaxR(a: real, b: real): real { if a >= b then a else b }
  function AbsR(a: real): real { if a >= 0.0 then a else -a }

  datatype Color = Color(r: int, g: int, b: int)

  const White := Color(255, 255, 255)
  const Blue := Color(65, 105, 225)
  const Red := Color(220, 20, 60)
  const Green := Color(50, 205, 50)
  const Yellow := Color(255, 215, 0)
  const Orange := Color(255, 140, 0)
  const Purple := Color(147, 112, 219)
  const PaddleColor := Color(200, 200, 200)

  /** A brick's colour after a hit that does not destroy it: every channel
      is 50 darker, but never below 0, and never lighter than it was. */
  function Darken(c: Color): (d: Color)
    ensures 0 <= d.r && 0 <= d.g && 0 <= d.b
    ensures (0 <= c.r ==> d.r <= c.r) && (0 <= c.g ==> d.g <= c.g) && (0 <= c.b ==> d.b <= c.b)
    ensures (c.r >= 50 ==> d.r == c.r - 50) && (c.g >= 50 ==> d.g == c.g - 50) && (c.b >= 50 ==> d.b == c.b - 50)
  {
    Color(Max(c.r - 50, 0), Max(c.g - 50, 0), Max(c.b - 50, 0))
  }

  // ---------------------------------------------------------------- Brick

  /** The value of a brick's fields. */
  datatype BrickState = BrickState(x: int, y: int, color: Color, hitsRequired: int, hits: int, visible: bool)
  {
    /** What destroying the brick scores: ten points per hit it requires. */
    function Points(): int { 10 * hitsRequired }
  }

  /** The invariant every brick of the field keeps: it needs one to three hits,
      has taken no more than that, and a brick that has taken them all is gone. */
  predicate Sound(b: BrickState)
  {
    1 <= b.hitsRequired <= 3 && 0 <= b.hits <= b.hitsRequired && (b.visible ==> b.hits < b.hitsRequired)
  }

  /** The effect of one hit on a brick. */
  function HitBrick(b: BrickState): (r: BrickState)
    ensures r.hits == b.hits + 1
    ensures r.visible <==> b.visible && r.hits < b.hitsRequired
    ensures r.color == if r.hits >= b.hitsRequired then b.color else Darken(b.color)
    ensures r.x == b.x && r.y == b.y && r.hitsRequired == b.hitsRequired
    ensures Sound(b) && b.visible ==> Sound(r)
  {
    var hits := b.hits + 1;
    if hits >= b.hitsRequired then b.(hits := hits, visible := false)
    else b.(hits := hits, color := Darken(b.color))
  }

  class Brick {
    const x: int
    const y: int
    const width: int := BrickWidth
    const height: int := BrickHeight
    var color: Color
    const hitsRequired: int
    var hits: int
    var visible: bool
    const points: int

    constructor (x: int, y: int, color: Color, hitsRequired: int := 1)
      ensures State() == BrickState(x, y, color, hitsRequired, 0, true)
      ensures points == State().Points()
    {
      this.x := x;
      this.y := y;
      this.color := color;
      this.hitsRequired := hitsRequired;
      hits := 0;
      visible := true;
      points := hitsRequired * 10;
    }

    function State(): BrickState
      reads this
    {
      BrickState(x, y, color, hitsRequired, hits, visible)
    }

    /** Counts a hit; reports whether it destroyed the brick. */
    method Hit() returns (destroyed: bool)
      modifies this
      ensures State() == HitBrick(old(State()))
      ensures destroyed <==> hits >= hitsRequired
    {
      hits := hits + 1;
      if hits >= hitsRequired {
        visible := false;
        return true;
      }
      color := Darken(color);
      return false;
    }
  }

  // ---------------------------------------------------------------- Ball

  /** The value of a ball's mutable fields. */
  datatype BallState = BallState(x: real, y: real, dx: real, dy: real, speed: real, piercing: bool)

  /** One step of a ball: it advances by its velocity and is kept inside the
      left, right and top walls, each wall it touches turning the matching
      velocity component away from it. There is no bottom wall. */
  function MoveBall(b: BallState): (r: BallState)
    ensures r.speed == b.speed && r.piercing == b.piercing
    ensures BallRadius as real <= r.x <= (ScreenWidth - BallRadius) as real
    ensures r.y >= BallRadius as real
    ensures AbsR(r.dx) == AbsR(b.dx) && AbsR(r.dy) == AbsR(b.dy)
    ensures b.x + b.dx <= BallRadius as real ==> r.dx >= 0.0
    ensures BallRadius as real < b.x + b.dx && b.x + b.dx >= (ScreenWidth - BallRadius) as real ==> r.dx <= 0.0
    ensures BallRadius as real < b.x + b.dx < (ScreenWidth - BallRadius) as real ==> r.x == b.x + b.dx && r.dx == b.dx
    ensures b.y + b.dy <= BallRadius as real ==> r.dy >= 0.0
    ensures b.y + b.dy > BallRadius as real ==> r.y == b.y + b.dy && r.dy == b.dy
  {
    var radius := BallRadius as real;
    var x, y := b.x + b.dx, b.y + b.dy;
    var (x', dx') :=
      if x <= radius then (radius, AbsR(b.dx))
      else if x >= ScreenWidth as real - radius then (ScreenWidth as real - radius, -AbsR(b.dx))
      else (x, b.dx);
    var (y', dy') := if y <= radius then (radius, AbsR(b.dy)) else (y, b.dy);
    b.(x := x', y := y', dx := dx', dy := dy')
  }

  /** The launch angle of a fresh ball for the draw `u`, uniform in
      [-pi/4, pi/4]. */
  function LaunchAngle(env: Env, u: real): (a: real)
    requires 0.0 <= u < 1.0
    ensures env.pi >= 0.0 ==> -env.pi / 4.0 <= a <= env.pi / 4.0
  {
    UniformOf(-env.pi / 4.0, env.pi / 4.0, u)
  }

  /** The launch velocity of a fresh ball for the angle draw `u`: the sine
      and the negated cosine of the launch angle, times the initial speed.
      Whenever the platform's sine stays in [-1, 1], the horizontal part is
      at most the initial speed either way; whenever its cosine is positive
      on the launch range, the ball leaves upwards. */
  function LaunchDx(env: Env, u: real): (dx: real)
    requires 0.0 <= u < 1.0
    ensures (forall a :: -1.0 <= env.sin(a) <= 1.0) ==> -(InitialBallSpeed as real) <= dx <= InitialBallSpeed as real
  {
    env.sin(LaunchAngle(env, u)) * InitialBallSpeed as real
  }

  function LaunchDy(env: Env, u: real): (dy: real)
    requires 0.0 <= u < 1.0
    ensures env.pi >= 0.0 && (forall a :: -env.pi / 4.0 <= a <= env.pi / 4.0 ==> env.cos(a) > 0.0) ==> dy < 0.0
  {
    -env.cos(LaunchAngle(env, u)) * InitialBallSpeed as real
  }

  class Ball {
    var x: real
    var y: real
    const radius: real := BallRadius as real
    var speed: real
    var dx: real
    var dy: real
    var piercing: bool

    constructor (x: real, y: real, env: Env)
      modifies env
      ensures State() == BallState(x, y, LaunchDx(env, NextUnit(old(env.tape))),
                                   LaunchDy(env, NextUnit(old(env.tape))), InitialBallSpeed as real, false)
      ensures env.tape == Consumed(old(env.tape))
    {
      new;
      Reset(x, y, env);
      piercing := false;
    }

    function State(): BallState
      reads this
    {
      BallState(x, y, dx, dy, speed, piercing)
    }

    /** Puts the ball at (x, y) with the initial speed, a random upward launch
        angle and piercing off. */
    method Reset(x: real, y: real, env: Env)
      modifies this, env
      ensures State() == BallState(x, y, LaunchDx(env, NextUnit(old(env.tape))),
                                   LaunchDy(env, NextUnit(old(env.tape))), InitialBallSpeed as real, false)
      ensures env.tape == Consumed(old(env.tape))
    {
      this.x := x;
      this.y := y;
      var angle := env.Uniform(-env.pi / 4.0, env.pi / 4.0);
      speed := InitialBallSpeed as real;
      dx := env.sin(angle) * speed;
      dy := -env.cos(angle) * speed;
      piercing := false;
    }

    method Move()
      modifies this`x, this`y, this`dx, this`dy
      ensures State() == MoveBall(old(State()))
    {
      x := x + dx;
      y := y + dy;
      if x <= radius {
        x := radius;
        dx := AbsR(dx);
      } else if x >= ScreenWidth as real - radius {
        x := ScreenWidth as real - radius;
        dx := -AbsR(dx);
      }
      if y <= radius {
        y := radius;
        dy := AbsR(dy);
      }
    }
  }

  // ---------------------------------------------------------------- Paddle

  /** The paddle's position after moving `direction` steps of its speed from
      `x`, kept between the left edge and the right edge less its width. */
  function PaddleMoved(x: real, direction: int, width: real): (r: real)
    ensures 0.0 <= r
    ensures width <= ScreenWidth as real ==> r <= ScreenWidth as real - width
    ensures 0.0 <= x + (direction * PaddleSpeed) as real <= ScreenWidth as real - width ==>
              r == x + (direction * PaddleSpeed) as real
  {
    MaxR(0.0, MinR(x + (direction * PaddleSpeed) as real, ScreenWidth as real - width))
  }

  class Paddle {
    var width: real
    const height: int := PaddleHeight
    var x: real
    const y: real := (ScreenHeight - 40) as real
    const speed: int := PaddleSpeed
    const color: Color := PaddleColor

    constructor ()
      ensures width == PaddleWidth as real && x == (ScreenWidth / 2 - PaddleWidth / 2) as real
    {
      width := PaddleWidth as real;
      x := (ScreenWidth / 2 - PaddleWidth / 2) as real;
    }

    method Move(direction: int)
      modifies this`x
      ensures x == PaddleMoved(old(x), direction, width)
    {
      x := x + (direction * speed) as real;
      x := MaxR(0.0, MinR(x, ScreenWidth as real - width));
    }
  }

  // ---------------------------------------------------------------- Particle

  /** The life of a particle after `n` updates. */
  function LifeAfter(life: int, n: nat): int
  {
    if n == 0 then life else LifeAfter(life, n - 1) - ParticleFade
  }

  /** Whether a particle born with `life` is still kept after `n` updates: every
      one of those updates left it with positive life. */
  predicate KeptFor(life: int, n: nat)
  {
    forall m: nat :: 1 <= m <= n ==> LifeAfter(life, m) > 0
  }

  lemma {:induction false} LifeAfterLinear(life: int, n: nat)
    ensures LifeAfter(life, n) == life - ParticleFade * n
  {
    if n > 0 {
      LifeAfterLinear(life, n - 1);
    }
  }

  /** A particle lives through exactly 25 updates and is dropped by the 26th. */
  lemma ParticleLifetime(n: nat)
    ensures KeptFor(ParticleLife, n) <==> n <= 25
  {
    if n <= 25 {
      forall m: nat | 1 <= m <= n ensures LifeAfter(ParticleLife, m) > 0 {
        LifeAfterLinear(ParticleLife, m);
      }
    } else {
      LifeAfterLinear(ParticleLife, 26);
    }
  }

  class Particle {
    var x: real
    var y: real
    const color: Color
    const size: int
    var life: int
    const dx: real
    const dy: real

    /** A particle at (x, y) of a random size from 2 to 4, moving at a random
        speed in [2, 5] in a random direction. */
    constructor (x: real, y: real, color: Color, env: Env)
      modifies env
      ensures this.x == x && this.y == y && this.color == color
      ensures life == ParticleLife && 2 <= size <= 4
      ensures |env.tape| <= |old(env.tape)|
    {
      this.x := x;
      this.y := y;
      this.color := color;
      var k := env.RandBelow(3);
      size := 2 + k;
      life := ParticleLife;
      var angle := env.Uniform(0.0, env.pi * 2.0);
      var speed := env.Uniform(2.0, 5.0);
      dx := env.cos(angle) * speed;
      dy := env.sin(angle) * speed;
    }

    /** Moves the particle, fades it, and reports whether it is still alive. */
    method Update() returns (alive: bool)
      modifies this`x, this`y, this`life
      ensures x == old(x) + dx && y == old(y) + dy
      ensures life == old(life) - ParticleFade
      ensures alive <==> life > 0
    {
      x := x + dx;
      y := y + dy;
      life := life - ParticleFade;
      return life > 0;
    }
  }

  // ---------------------------------------------------------------- PowerUp

  /** The six power-ups: 'W', 'S', 'M', 'L', 'F' and 'P' in the source. */
  datatype Kind = Wider | Slower | Multi | ExtraLife | Faster | Piercing

  /** The list the source draws a power-up's type from, in its order. */
  const Kinds: seq<Kind> := [Wider, Slower, Multi, ExtraLife, Faster, Piercing]

  class PowerUp {
    const x: real
    var y: real
    const width: int := 20
    const height: int := 20
    const speed: int := 3
    const kind: Kind
    var active: bool

    constructor (x: real, y: real, env: Env)
      modifies env
      ensures this.x == x && this.y == y && active
      ensures kind == Kinds[BelowOf(|Kinds|, NextUnit(old(env.tape)))]
      ensures env.tape == Consumed(old(env.tape))
    {
      this.x := x;
      this.y := y;
      var k := env.RandBelow(|Kinds|);
      kind := Kinds[k];
      active := true;
    }

    /** Since the old state the power-up has fallen by its speed, and it is
        active exactly when it was and is still above the bottom edge. */
    twostate predicate Fell()
      reads this`y, this`active
    {
      y == old(y) + speed as real && (active <==> old(active) && y <= ScreenHeight as real)
    }

    /** Falls by its speed; it stops being active once below the screen. */
    method Update()
      modifies this`y, this`active
      ensures Fell()
    {
      y := y + speed as real;
      if y > ScreenHeight as real {
        active := false;
      }
    }
  }
}

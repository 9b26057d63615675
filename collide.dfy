/** What one ball does to the brick field in one tick, stated on the values of
    the bricks. The game's collision method is proved to produce these. */
module Collide {
  import opened Oracle
  import opened Entities

  /** The ball centred at (x, y) and the brick's rectangle overlap: the test of
      the source is strict on all four sides. Equivalently, on each axis the
      ball's centre is closer to the brick's centre than the radius plus half
      the brick's size. */
  predicate Overlaps(x: real, y: real, b: BrickState)
    ensures Overlaps(x, y, b) <==>
      AbsR(x - (b.x as real + 40.0)) < 48.0 && AbsR(y - (b.y as real + 15.0)) < 23.0
  {
    var r := BallRadius as real;
    x + r > b.x as real && x - r < (b.x + BrickWidth) as real &&
    y + r > b.y as real && y - r < (b.y + BrickHeight) as real
  }

  /** A brick the ball collides with: visible and overlapping. */
  predicate Struck(x: real, y: real, b: BrickState)
  {
    b.visible && Overlaps(x, y, b)
  }

  /** The index of the first brick, in field order, that the ball collides
      with; the length of the field when there is none. */
  function FirstStruck(bs: seq<BrickState>, x: real, y: real): (k: nat)
    ensures k <= |bs|
    ensures forall j :: 0 <= j < k ==> !Struck(x, y, bs[j])
    ensures k < |bs| ==> Struck(x, y, bs[k])
  {
    if bs == [] then 0
    else if Struck(x, y, bs[0]) then 0
    else 1 + FirstStruck(bs[1..], x, y)
  }

  predicate AllSound(bs: seq<BrickState>)
  {
    forall k :: 0 <= k < |bs| ==> Sound(bs[k])
  }

  /** A non-piercing ball's effect on the field: the first brick it collides
      with takes one hit and no other brick changes. */
  function StrikeFirst(bs: seq<BrickState>, x: real, y: real): (r: seq<BrickState>)
    ensures |r| == |bs|
    ensures FirstStruck(bs, x, y) == |bs| ==> r == bs
    ensures forall k :: 0 <= k < |bs| && r[k] != bs[k] ==> k == FirstStruck(bs, x, y) && r[k] == HitBrick(bs[k])
    ensures FirstStruck(bs, x, y) < |bs| ==> r[FirstStruck(bs, x, y)] == HitBrick(bs[FirstStruck(bs, x, y)])
    ensures AllSound(bs) ==> AllSound(r)
  {
    var f := FirstStruck(bs, x, y);
    if f < |bs| then bs[f := HitBrick(bs[f])] else bs
  }

  /** A piercing ball's effect: every brick it collides with vanishes, without
      counting a hit or changing colour; the other bricks do not change. */
  function Pierce(bs: seq<BrickState>, x: real, y: real): (r: seq<BrickState>)
    ensures |r| == |bs|
    ensures forall k :: 0 <= k < |bs| ==> !Struck(x, y, r[k])
    ensures forall k :: 0 <= k < |bs| ==> r[k] == bs[k].(visible := bs[k].visible && !Overlaps(x, y, bs[k]))
    ensures AllSound(bs) ==> AllSound(r)
  {
    seq(|bs|, k requires 0 <= k < |bs| => if Struck(x, y, bs[k]) then bs[k].(visible := false) else bs[k])
  }

  /** The points the score earns for a brick going from `before` to `after`:
      its value when it vanished, and nothing otherwise. */
  function Earned(before: BrickState, after: BrickState): int
  {
    if before.visible && !after.visible then before.Points() else 0
  }

  /** The points earned by the whole field going from `before` to `after`. */
  function Gained(before: seq<BrickState>, after: seq<BrickState>): int
    requires |before| == |after|
  {
    if before == [] then 0 else Earned(before[0], after[0]) + Gained(before[1..], after[1..])
  }

  /** How many bricks a piercing ball collides with: a helper counting the
      contacts, each of which adds a burst of particles. The ball collides
      with none exactly when no brick is struck first. */
  function StruckCount(bs: seq<BrickState>, x: real, y: real): (n: nat)
    ensures n <= |bs|
    ensures n == 0 <==> FirstStruck(bs, x, y) == |bs|
  {
    if bs == [] then 0 else (if Struck(x, y, bs[0]) then 1 else 0) + StruckCount(bs[1..], x, y)
  }

  /** What the bricks a piercing ball collides with are worth. */
  function StruckPoints(bs: seq<BrickState>, x: real, y: real): int
  {
    if bs == [] then 0 else (if Struck(x, y, bs[0]) then bs[0].Points() else 0) + StruckPoints(bs[1..], x, y)
  }

  /** Nothing is earned while the field does not change. */
  lemma {:induction false} GainedNone(bs: seq<BrickState>)
    ensures Gained(bs, bs) == 0
  {
    if bs != [] {
      GainedNone(bs[1..]);
    }
  }

  /** Changing one brick changes what is earned by that brick's difference. */
  lemma {:induction false} GainedUpdate(before: seq<BrickState>, after: seq<BrickState>, k: nat, b: BrickState)
    requires |before| == |after| && k < |after|
    ensures Gained(before, after[k := b]) == Gained(before, after) - Earned(before[k], after[k]) + Earned(before[k], b)
  {
    if k > 0 {
      assert after[k := b][1..] == after[1..][k - 1 := b];
      GainedUpdate(before[1..], after[1..], k - 1, b);
    }
  }

  /** Points are never taken away: what is earned is never negative. */
  lemma {:induction false} GainedNonNegative(before: seq<BrickState>, after: seq<BrickState>)
    requires |before| == |after| && AllSound(before)
    ensures Gained(before, after) >= 0
  {
    if before != [] {
      assert AllSound(before[1..]) by {
        forall k | 0 <= k < |before| - 1 ensures Sound(before[1..][k]) {
          assert before[1..][k] == before[k + 1];
        }
      }
      GainedNonNegative(before[1..], after[1..]);
      assert Sound(before[0]);
    }
  }

  /** A non-piercing ball scores the value of the brick it destroys, and
      nothing for a hit that leaves the brick standing. */
  lemma GainedByStrike(bs: seq<BrickState>, x: real, y: real)
    ensures var f := FirstStruck(bs, x, y);
      Gained(bs, StrikeFirst(bs, x, y)) ==
        if f < |bs| && bs[f].hits + 1 >= bs[f].hitsRequired then bs[f].Points() else 0
  {
    var f := FirstStruck(bs, x, y);
    GainedNone(bs);
    if f < |bs| {
      GainedUpdate(bs, bs, f, HitBrick(bs[f]));
    }
  }

  /** A piercing ball scores the full value of every brick it collides with. */
  lemma {:induction false} GainedByPierce(bs: seq<BrickState>, x: real, y: real)
    ensures Gained(bs, Pierce(bs, x, y)) == StruckPoints(bs, x, y)
  {
    if bs != [] {
      assert Pierce(bs, x, y)[1..] == Pierce(bs[1..], x, y);
      GainedByPierce(bs[1..], x, y);
    }
  }

  /** Counting the bricks struck in a growing prefix of the field adds one for
      each struck brick reached. */
  lemma {:induction false} StruckCountStep(bs: seq<BrickState>, k: nat, x: real, y: real)
    requires k < |bs|
    ensures StruckCount(bs[..k + 1], x, y) == StruckCount(bs[..k], x, y) + if Struck(x, y, bs[k]) then 1 else 0
  {
    if k > 0 {
      assert bs[..k + 1][1..] == bs[1..][..k];
      assert bs[..k][1..] == bs[1..][..k - 1];
      StruckCountStep(bs[1..], k - 1, x, y);
    }
  }

  /** A piercing ball's effect on one brick. */
  function PierceOne(b: BrickState, x: real, y: real): (r: BrickState)
    ensures !Struck(x, y, r)
  {
    b.(visible := b.visible && !Overlaps(x, y, b))
  }

  /** A field in which every brick took a piercing ball's effect is the
      pierced field. */
  lemma PierceAll(bs: seq<BrickState>, cur: seq<BrickState>, x: real, y: real)
    requires |cur| == |bs| && forall j :: 0 <= j < |bs| ==> cur[j] == PierceOne(bs[j], x, y)
    ensures cur == Pierce(bs, x, y)
  {
  }

  /** When no brick before `k` is struck and brick `k` is, the non-piercing
      ball's effect is the hit on brick `k`. */
  lemma StrikeAt(bs: seq<BrickState>, k: nat, x: real, y: real)
    requires k < |bs| && Struck(x, y, bs[k]) && forall j :: 0 <= j < k ==> !Struck(x, y, bs[j])
    ensures FirstStruck(bs, x, y) == k && StrikeFirst(bs, x, y) == bs[k := HitBrick(bs[k])]
  {
  }

  /** When no brick is struck, the non-piercing ball changes nothing. */
  lemma StrikeNone(bs: seq<BrickState>, x: real, y: real)
    requires forall j :: 0 <= j < |bs| ==> !Struck(x, y, bs[j])
    ensures FirstStruck(bs, x, y) == |bs| && StrikeFirst(bs, x, y) == bs
  {
  }

  /** The field after one ball's scan of the bricks. */
  function Scan(bs: seq<BrickState>, x: real, y: real, piercing: bool): seq<BrickState>
  {
    if piercing then Pierce(bs, x, y) else StrikeFirst(bs, x, y)
  }

  /** How many bricks the scan makes contact with: every struck brick for a
      piercing ball, the first one (if any) for any other ball. */
  function Contacts(bs: seq<BrickState>, x: real, y: real, piercing: bool): (n: nat)
    ensures n <= |bs|
    ensures !piercing ==> n <= 1
  {
    if piercing then StruckCount(bs, x, y) else if FirstStruck(bs, x, y) < |bs| then 1 else 0
  }

  /** The source's test for a hit on a brick's side: the ball's centre within
      five pixels of the brick's left or right edge, strictly. */
  predicate NearSide(x: real, b: BrickState)
    ensures NearSide(x, b) <==>
      (b.x as real - 5.0 < x < b.x as real + 5.0) ||
      ((b.x + BrickWidth) as real - 5.0 < x < (b.x + BrickWidth) as real + 5.0)
  {
    AbsR(x - b.x as real) < 5.0 || AbsR(x - (b.x + BrickWidth) as real) < 5.0
  }

  /** How a non-piercing ball turns back from the brick it struck: its
      horizontal velocity reverses after a side hit, its vertical velocity
      otherwise. */
  function Turned(b: BallState, brick: BrickState): (r: BallState)
    ensures r.x == b.x && r.y == b.y && r.speed == b.speed && r.piercing == b.piercing
    ensures (r.dx == -b.dx && r.dy == b.dy) || (r.dy == -b.dy && r.dx == b.dx)
  {
    if NearSide(b.x, brick) then b.(dx := -b.dx) else b.(dy := -b.dy)
  }

  /** The ball's velocity after its scan of the field: a non-piercing ball
      turns back from the first brick it struck; a piercing ball, or one that
      struck nothing, keeps its velocity. */
  function Deflected(b: BallState, bs: seq<BrickState>): (r: BallState)
    ensures r.x == b.x && r.y == b.y && r.speed == b.speed && r.piercing == b.piercing
    ensures b.piercing || FirstStruck(bs, b.x, b.y) == |bs| ==> r == b
    ensures !b.piercing && FirstStruck(bs, b.x, b.y) < |bs| ==>
      (r.dx == -b.dx && r.dy == b.dy && NearSide(b.x, bs[FirstStruck(bs, b.x, b.y)])) ||
      (r.dy == -b.dy && r.dx == b.dx && !NearSide(b.x, bs[FirstStruck(bs, b.x, b.y)]))
  {
    var f := FirstStruck(bs, b.x, b.y);
    if b.piercing || f == |bs| then b else Turned(b, bs[f])
  }

  /** The ball touches the paddle whose top edge is at `py` and which spans
      [px, px + w]: its lowest point is at or below the top edge and its centre
      lies within the span, that is no further from the paddle's centre than
      half its width. */
  predicate OnPaddle(b: BallState, px: real, py: real, w: real)
    ensures OnPaddle(b, px, py, w) <==>
      b.y >= py - BallRadius as real && AbsR(b.x - (px + w / 2.0)) <= w / 2.0
  {
    b.y + BallRadius as real >= py && px <= b.x <= px + w
  }

  /** A product with a positive factor has the other factor's sign. */
  lemma ProductSign(a: real, h: real)
    requires h > 0.0
    ensures a > 0.0 <==> a * h > 0.0
    ensures a < 0.0 <==> a * h < 0.0
  {
    if a > 0.0 {
      assert a * h > 0.0;
    } else if a < 0.0 {
      assert a * h < 0.0;
    } else {
      assert a * h == 0.0;
    }
  }

  /** Where the ball meets the paddle, relative to the paddle's centre: 1 at
      the left end, 0 at the centre, -1 at the right end. */
  function BounceOffset(bx: real, px: real, w: real): (r: real)
    requires w > 0.0
    ensures px <= bx <= px + w ==> -1.0 <= r <= 1.0
    ensures r == 0.0 <==> bx == px + w / 2.0
    ensures r > 0.0 <==> bx < px + w / 2.0
  {
    var half := w / 2.0;
    var d := px + half - bx;
    var offset := d / half;
    assert offset * half == d;
    ProductSign(offset, half);
    ProductSign(offset - 1.0, half);
    ProductSign(offset + 1.0, half);
    offset
  }

  /** The angle a ball leaves the paddle at: a third of pi times its offset. */
  function BounceAngle(bx: real, px: real, w: real, env: Env): real
    requires w > 0.0
  {
    BounceOffset(bx, px, w) * env.pi / 3.0
  }

  /** A ball that touches the paddle is set on its top edge and sent off at
      a third of pi times its offset from the centre, at its own speed; any
      other ball is left alone. */
  function Bounced(b: BallState, px: real, py: real, w: real, env: Env): (r: BallState)
    requires w > 0.0
    ensures r.x == b.x && r.speed == b.speed && r.piercing == b.piercing
    ensures !OnPaddle(b, px, py, w) ==> r == b
    ensures OnPaddle(b, px, py, w) ==> r.y + BallRadius as real == py
  {
    if OnPaddle(b, px, py, w) then
      var angle := BounceAngle(b.x, px, w, env);
      b.(y := py - BallRadius as real, dx := -b.speed * env.sin(angle), dy := -b.speed * env.cos(angle))
    else b
  }
}

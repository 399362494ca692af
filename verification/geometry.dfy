/** Kinematics and geometry shared by the ball engines: a ball's body (position
    and velocity), the per-frame move, the visible rectangle, the two trigger
    zones (the ring band and the square box), and the random choice of a
    launch direction. Positions are real numbers; the screen's integer
    centre is (width // 2, height // 2). */
module Geometry {

  /** Position (x, y) and per-frame velocity (vx, vy) of a ball. */
  datatype Body = Body(x: real, y: real, vx: real, vy: real)

  /** One frame of motion: the velocity is added to the position. */
  function Moved(b: Body): Body
  {
    Body(b.x + b.vx, b.y + b.vy, b.vx, b.vy)
  }

  /** `n` frames of motion. */
  function MovedFor(b: Body, n: nat): Body
    decreases n
  {
    if n == 0 then b else MovedFor(Moved(b), n - 1)
  }

  /** After `n` frames a ball has travelled `n` times its velocity, and its
      velocity is unchanged: there is no friction and no bounce. */
  lemma {:induction false} MovedForIsLinear(b: Body, n: nat)
    ensures MovedFor(b, n) == Body(b.x + n as real * b.vx, b.y + n as real * b.vy, b.vx, b.vy)
    decreases n
  {
    if n > 0 {
      MovedForIsLinear(Moved(b), n - 1);
      assert (n - 1) as real * b.vx + b.vx == n as real * b.vx;
      assert (n - 1) as real * b.vy + b.vy == n as real * b.vy;
    }
  }

  /** One more frame after `k` frames is `k + 1` frames. */
  lemma MovedForStep(b: Body, k: nat)
    ensures Moved(MovedFor(b, k)) == MovedFor(b, k + 1)
  {
    MovedForIsLinear(b, k);
    MovedForIsLinear(b, k + 1);
  }

  /** Inside the visible rectangle [0, width) x [0, height). */
  predicate OnScreen(b: Body, width: int, height: int)
  {
    0.0 <= b.x < width as real && 0.0 <= b.y < height as real
  }

  /** The screen centre, where balls are launched and the trigger zones
      are centred: integer halves of the frame size. */
  function CenterX(width: nat): real { (width / 2) as real }
  function CenterY(height: nat): real { (height / 2) as real }

  /** Squared Euclidean distance of a body from (cx, cy). */
  function DistSq(b: Body, cx: real, cy: real): (r: real)
    ensures r >= 0.0
  {
    (b.x - cx) * (b.x - cx) + (b.y - cy) * (b.y - cy)
  }

  /** The ring band, stated on the squared distance: radius <= distance <
      radius + thickness. */
  predicate InBand(d2: real, radius: int, thickness: int)
  {
    (radius * radius) as real <= d2 < ((radius + thickness) * (radius + thickness)) as real
  }

  /** For non-negative reals, comparing squares compares the numbers. */
  lemma SquaresCompare(a: real, b: real)
    requires a >= 0.0 && b >= 0.0
    ensures a <= b <==> a * a <= b * b
  {
    if a <= b {
      assert a * a <= a * b <= b * b;
    } else {
      assert a - b > 0.0 && a + b > 0.0;
      assert a * a - b * b == (a - b) * (a + b);
      assert (a - b) * (a + b) > 0.0;
    }
  }

  /** The engine truncates the Euclidean distance to an integer and tests it
      against [radius, radius + thickness). For any distance d >= 0 whose
      square is d2, that test holds exactly when InBand(d2) does, so the
      band can be decided without a square root. */
  lemma BandIsTruncatedDistance(d: real, radius: int, thickness: int)
    requires d >= 0.0 && radius >= 0 && thickness >= 0
    ensures InBand(d * d, radius, thickness) <==> radius <= d.Floor < radius + thickness
  {
    var r, t := radius as real, (radius + thickness) as real;
    SquaresCompare(r, d);
    SquaresCompare(t, d);
    assert (radius * radius) as real == r * r;
    assert ((radius + thickness) * (radius + thickness)) as real == t * t;
    assert radius <= d.Floor <==> r <= d;
    assert d.Floor < radius + thickness <==> d < t;
  }

  /** The square trigger box: centre +/- half on both axes, edges included. */
  predicate InSquare(b: Body, cx: real, cy: real, half: int)
  {
    cx - half as real <= b.x <= cx + half as real && cy - half as real <= b.y <= cy + half as real
  }

  /** One random pick of an axis direction out of (-speed, 0, speed). */
  datatype Pick = Minus | Zero | Plus

  /** A draw picks both axes at once. */
  type Draw = (Pick, Pick)

  function Scaled(p: Pick, speed: int): int
  {
    match p
    case Minus => -speed
    case Zero => 0
    case Plus => speed
  }

  /** A draw that gives a direction other than standing still. */
  predicate Moving(d: Draw)
  {
    d.0 != Zero || d.1 != Zero
  }

  /** The random source eventually produces a moving draw. */
  predicate Fair(draws: seq<Draw>)
  {
    exists k :: 0 <= k < |draws| && Moving(draws[k])
  }

  lemma FairTail(draws: seq<Draw>)
    requires Fair(draws) && !Moving(draws[0])
    ensures Fair(draws[1..])
  {
    var k :| 0 <= k < |draws| && Moving(draws[k]);
    assert draws[1..][k - 1] == draws[k];
  }

  /** The index of the draw the resampling loop settles on: the first
      moving one. */
  function FirstMoving(draws: seq<Draw>): (k: nat)
    requires Fair(draws)
    ensures k < |draws| && Moving(draws[k])
    ensures forall j :: 0 <= j < k ==> !Moving(draws[j])
  {
    if Moving(draws[0]) then 0
    else
      FairTail(draws);
      1 + FirstMoving(draws[1..])
  }

  /** The direction loop of the ball constructor: draw both axes from
      (-speed, 0, speed) and draw again while both are 0. */
  method ChooseDirection(speed: int, draws: seq<Draw>) returns (dx: int, dy: int)
    requires speed > 0 && Fair(draws)
    ensures dx == Scaled(draws[FirstMoving(draws)].0, speed)
    ensures dy == Scaled(draws[FirstMoving(draws)].1, speed)
    ensures dx in {-speed, 0, speed} && dy in {-speed, 0, speed}
    ensures !(dx == 0 && dy == 0)
  {
    dx, dy := 0, 0;
    var i := 0;
    while dx == 0 && dy == 0
      invariant 0 <= i <= |draws|
      invariant forall j :: 0 <= j < i - 1 ==> !Moving(draws[j])
      invariant i == 0 ==> dx == 0 && dy == 0
      invariant i > 0 ==> dx == Scaled(draws[i - 1].0, speed) && dy == Scaled(draws[i - 1].1, speed)
      invariant i > 0 && dx == 0 && dy == 0 ==> !Moving(draws[i - 1])
      invariant i <= FirstMoving(draws) + 1
      decreases |draws| - i
    {
      dx := Scaled(draws[i].0, speed);
      dy := Scaled(draws[i].1, speed);
      i := i + 1;
    }
    assert i - 1 == FirstMoving(draws);
  }

  /** The uniform-speed correction: a direction with one zero axis is
      multiplied by the square root of two on both axes (the zero axis stays
      zero). `rt2` stands for that square root. */
  function Velocity(dx: int, dy: int, rt2: real): (v: (real, real))
    ensures dx == 0 ==> v.0 == 0.0
    ensures dy == 0 ==> v.1 == 0.0
    ensures dx != 0 && dy != 0 ==> v == (dx as real, dy as real)
    ensures (dx == 0) != (dy == 0) ==> v.0 * v.0 + v.1 * v.1 == (dx * dx + dy * dy) as real * (rt2 * rt2)
  {
    if dx == 0 || dy == 0 then (dx as real * rt2, dy as real * rt2)
    else (dx as real, dy as real)
  }

  /** The square of one picked axis: 0 or speed^2. */
  lemma ScaledSquare(p: Pick, speed: int)
    ensures Scaled(p, speed) as real * Scaled(p, speed) as real == if p == Zero then 0.0 else (speed * speed) as real
  {
  }

  lemma ProductSquare(a: real, b: real)
    ensures (a * b) * (a * b) == (a * a) * (b * b)
  {
  }

  /** Every launch direction has the same speed: vx^2 + vy^2 = 2 speed^2,
      never the zero vector. A diagonal keeps both components at +/- speed;
      an axis-aligned one becomes +/- speed * sqrt 2 on its nonzero axis and
      0 on the other. */
  lemma {:induction false} LaunchSpeedIsUniform(speed: int, d: Draw, rt2: real)
    requires speed > 0 && Moving(d) && rt2 * rt2 == 2.0
    ensures var v := Velocity(Scaled(d.0, speed), Scaled(d.1, speed), rt2);
            && v.0 * v.0 + v.1 * v.1 == 2.0 * (speed * speed) as real
            && (v.0 != 0.0 || v.1 != 0.0)
            && (d.0 != Zero && d.1 != Zero ==> v.0 in {-speed as real, speed as real} && v.1 in {-speed as real, speed as real})
            && (d.0 == Zero ==> v.0 == 0.0 && v.1 in {-speed as real * rt2, speed as real * rt2})
            && (d.1 == Zero ==> v.1 == 0.0 && v.0 in {-speed as real * rt2, speed as real * rt2})
  {
    var dx, dy := Scaled(d.0, speed), Scaled(d.1, speed);
    ScaledSquare(d.0, speed);
    ScaledSquare(d.1, speed);
    if dx == 0 || dy == 0 {
      ProductSquare(dx as real, rt2);
      ProductSquare(dy as real, rt2);
      assert rt2 != 0.0;
    }
  }

  /** The body a ball constructor builds: at the screen centre, moving in
      the first moving direction drawn, corrected to uniform speed. */
  function LaunchBody(speed: int, draws: seq<Draw>, width: nat, height: nat, rt2: real): Body
    requires speed > 0 && Fair(draws)
  {
    var d := draws[FirstMoving(draws)];
    var v := Velocity(Scaled(d.0, speed), Scaled(d.1, speed), rt2);
    Body(CenterX(width), CenterY(height), v.0, v.1)
  }

  /** A launched body sits at the centre and moves, with squared speed
      2 * speed^2 whatever direction was drawn. */
  lemma LaunchBodyIsUniform(speed: int, draws: seq<Draw>, width: nat, height: nat, rt2: real)
    requires speed > 0 && Fair(draws) && rt2 * rt2 == 2.0
    ensures var b := LaunchBody(speed, draws, width, height, rt2);
            && b.x == CenterX(width) && b.y == CenterY(height)
            && b.vx * b.vx + b.vy * b.vy == 2.0 * (speed * speed) as real
            && (b.vx != 0.0 || b.vy != 0.0)
  {
    var d := draws[FirstMoving(draws)];
    var v := Velocity(Scaled(d.0, speed), Scaled(d.1, speed), rt2);
    LaunchSpeedIsUniform(speed, d, rt2);
    assert LaunchBody(speed, draws, width, height, rt2) == Body(CenterX(width), CenterY(height), v.0, v.1);
  }

  /** Moving at least one pixel per frame on some axis. */
  predicate Drifts(b: Body)
  {
    b.vx <= -1.0 || 1.0 <= b.vx || b.vy <= -1.0 || 1.0 <= b.vy
  }

  /** A drifting axis gains at least one pixel per frame in its direction. */
  lemma {:induction false} DriftBound(b: Body, n: nat)
    ensures b.vx >= 1.0 ==> MovedFor(b, n).x >= b.x + n as real
    ensures b.vx <= -1.0 ==> MovedFor(b, n).x <= b.x - n as real
    ensures b.vy >= 1.0 ==> MovedFor(b, n).y >= b.y + n as real
    ensures b.vy <= -1.0 ==> MovedFor(b, n).y <= b.y - n as real
    decreases n
  {
    if n > 0 {
      DriftBound(Moved(b), n - 1);
    }
  }

  /** A drifting body that starts inside the visible rectangle has left it
      after width + height frames. Since the cull runs every frame, no ball
      stays listed longer than that. */
  lemma LeavesScreen(b: Body, width: nat, height: nat, n: nat)
    requires OnScreen(b, width, height) && Drifts(b) && n >= width + height
    ensures !OnScreen(MovedFor(b, n), width, height)
  {
    DriftBound(b, n);
  }

  /** A square root of two is at least one in size. */
  lemma RootTwoAtLeastOne(rt2: real)
    requires rt2 * rt2 == 2.0
    ensures rt2 >= 1.0 || rt2 <= -1.0
  {
    SquareBelowOne(rt2);
  }

  lemma SquareBelowOne(r: real)
    ensures -1.0 < r < 1.0 ==> r * r < 1.0
  {
    if 0.0 <= r < 1.0 {
      assert r * r <= r * 1.0;
    } else if -1.0 < r < 0.0 {
      assert r * r == (-r) * (-r) <= (-r) * 1.0;
    }
  }

  lemma ProductAtLeastOne(a: real, b: real)
    requires a >= 1.0 && (b >= 1.0 || b <= -1.0)
    ensures a * b >= 1.0 || a * b <= -1.0
  {
    if b >= 1.0 {
      assert a * b >= 1.0 * b;
    } else {
      assert a * (-b) >= 1.0 * (-b);
    }
  }

  /** Every launch direction drifts: a diagonal moves speed pixels per
      frame on both axes, an axis-aligned one speed * sqrt 2 on its axis. */
  lemma LaunchBodyDrifts(speed: int, draws: seq<Draw>, width: nat, height: nat, rt2: real)
    requires speed >= 1 && Fair(draws) && rt2 * rt2 == 2.0
    ensures Drifts(LaunchBody(speed, draws, width, height, rt2))
  {
    var d := draws[FirstMoving(draws)];
    var b := LaunchBody(speed, draws, width, height, rt2);
    LaunchSpeedIsUniform(speed, d, rt2);
    if d.0 == Zero || d.1 == Zero {
      RootTwoAtLeastOne(rt2);
      ProductAtLeastOne(speed as real, rt2);
      ProductAtLeastOne(speed as real, -rt2);
      assert -(speed as real) * rt2 == speed as real * (-rt2);
    }
  }

  /** The screen centre lies inside every non-empty frame. */
  lemma CentreOnScreen(b: Body, width: nat, height: nat)
    requires b.x == CenterX(width) && b.y == CenterY(height) && width > 0 && height > 0
    ensures OnScreen(b, width, height)
  {
  }

  /** Every launched ball has left the screen, and so has been culled, at
      most width + height frames after its launch. */
  lemma LaunchLeavesScreen(speed: int, draws: seq<Draw>, width: nat, height: nat, rt2: real, n: nat)
    requires speed >= 1 && Fair(draws) && rt2 * rt2 == 2.0 && n >= width + height
    ensures !OnScreen(MovedFor(LaunchBody(speed, draws, width, height, rt2), n), width, height)
  {
    var b := LaunchBody(speed, draws, width, height, rt2);
    if width > 0 && height > 0 {
      LaunchBodyIsUniform(speed, draws, width, height, rt2);
      CentreOnScreen(b, width, height);
      LaunchBodyDrifts(speed, draws, width, height, rt2);
      LeavesScreen(b, width, height, n);
    }
  }

  /** A square root of two lies strictly between -1.42 and 1.42. */
  lemma RootTwoBelow(rt2: real)
    requires rt2 * rt2 == 2.0
    ensures -1.42 < rt2 < 1.42
  {
    SquareAtLeast(rt2, 1.42);
  }

  lemma SquareAtLeast(r: real, a: real)
    requires a >= 0.0
    ensures r >= a ==> r * r >= a * a
    ensures r <= -a ==> r * r >= a * a
  {
    if r >= a {
      assert r * r >= a * r >= a * a;
    } else if r <= -a {
      assert r * r == (-r) * (-r) >= a * (-r) >= a * a;
    }
  }

  /** Every component of a launch velocity is at most speed * 1.42 in
      size. */
  lemma LaunchBodyBounded(speed: int, draws: seq<Draw>, width: nat, height: nat, rt2: real)
    requires speed > 0 && Fair(draws) && rt2 * rt2 == 2.0
    ensures var b := LaunchBody(speed, draws, width, height, rt2);
            && -(speed as real * 1.42) <= b.vx <= speed as real * 1.42
            && -(speed as real * 1.42) <= b.vy <= speed as real * 1.42
  {
    var d := draws[FirstMoving(draws)];
    LaunchSpeedIsUniform(speed, d, rt2);
    RootTwoBelow(rt2);
    var s := speed as real;
    assert -(s * 1.42) <= s * rt2 <= s * 1.42 by {
      assert s * 1.42 - s * rt2 == s * (1.42 - rt2);
      assert s * rt2 + s * 1.42 == s * (rt2 + 1.42);
    }
    assert -(s * 1.42) <= -s * rt2 <= s * 1.42;
  }

  /** A body whose velocity components are at most m in size has moved at
      most n * m along each axis after n frames. */
  lemma {:induction false} MovesWithin(b: Body, m: real, n: nat)
    requires -m <= b.vx <= m && -m <= b.vy <= m
    ensures -(n as real * m) <= MovedFor(b, n).x - b.x <= n as real * m
    ensures -(n as real * m) <= MovedFor(b, n).y - b.y <= n as real * m
    decreases n
  {
    if n > 0 {
      var e, prev := MovedFor(b, n), (n - 1) as real * m;
      MovesWithin(Moved(b), m, n - 1);
      assert e == MovedFor(Moved(b), n - 1);
      assert -prev <= e.x - (b.x + b.vx) <= prev && -prev <= e.y - (b.y + b.vy) <= prev;
      assert prev + m == n as real * m;
    }
  }

  /** A body launched from the screen centre with components at most m in
      size is still on screen after n frames when n * m is below the
      distance from the centre to every edge. */
  lemma StaysOnScreen(b: Body, width: nat, height: nat, m: real, n: nat)
    requires b.x == CenterX(width) && b.y == CenterY(height)
    requires -m <= b.vx <= m && -m <= b.vy <= m
    requires n as real * m <= CenterX(width) && CenterX(width) + n as real * m < width as real
    requires n as real * m <= CenterY(height) && CenterY(height) + n as real * m < height as real
    ensures OnScreen(MovedFor(b, n), width, height)
  {
    MovesWithin(b, m, n);
  }
}

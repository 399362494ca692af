/** One ball of the square engine of beatles_002.py, as a value and as an
    object. A ball is launched diagonally from the screen centre, moves once
    per frame, and plays its part's sound on every frame it ends inside the
    square box centre +/- 200, edges included: there is no latch. The
    script's positions and speeds are integers; here they are reals holding
    integer values. */
module SquareBall {
  import opened Beat
  import opened Geometry
  import opened Tracks

  /** Half the side of the trigger square; the script calls it the
      radius. */
  const Radius: int := 200
  /** Drawn radius of a ball; it plays no part in the triggering. */
  const BallSize: int := 20
  /** The position `remove` parks a ball at, off screen. */
  const Parked: real := -100.0

  // ---------------------------------------------------------------------
  // The value-level model of one ball and one frame
  // ---------------------------------------------------------------------

  /** A ball at one instant: its body and its sound (None when built
      without one). */
  datatype Particle = Particle(body: Body, sound: Option<Sound>)

  function BodyOf(p: Particle): Body { p.body }

  /** One random choice out of (-speed, speed). */
  datatype Sign = Minus | Plus

  /** The choices for both axes. */
  type Coin = (Sign, Sign)

  function Signed(s: Sign, speed: int): int
  {
    match s
    case Minus => -speed
    case Plus => speed
  }

  /** The ball the constructor builds: at the screen centre, moving by
      +/- speed on each axis as drawn. */
  function Launch(speed: int, sound: Option<Sound>, c: Coin, width: nat, height: nat): Particle
  {
    Particle(Body(CenterX(width), CenterY(height), Signed(c.0, speed) as real, Signed(c.1, speed) as real), sound)
  }

  /** Every launch is diagonal: both components are +/- speed, never 0, so
      a ball always drifts and always has squared speed 2 * speed^2. */
  lemma LaunchIsDiagonal(speed: int, sound: Option<Sound>, c: Coin, width: nat, height: nat)
    requires speed >= 1
    ensures var b := Launch(speed, sound, c, width, height).body;
            && b.x == CenterX(width) && b.y == CenterY(height)
            && (b.vx == speed as real || b.vx == -speed as real)
            && (b.vy == speed as real || b.vy == -speed as real)
            && b.vx != 0.0 && b.vy != 0.0
            && Drifts(b)
            && b.vx * b.vx + b.vy * b.vy == 2.0 * (speed * speed) as real
  {
    var b := Launch(speed, sound, c, width, height).body;
    assert b.vx * b.vx == (speed * speed) as real;
    assert b.vy * b.vy == (speed * speed) as real;
  }

  /** play_sound without a latch: a ball with a sound plays it every time. */
  function Fire(p: Particle): Option<Sound>
  {
    p.sound
  }

  /** One frame for one ball: move it, then play it if it is inside the
      square around (cx, cy). */
  function Step(p: Particle, cx: real, cy: real): (r: (Particle, Option<Sound>))
    ensures r.0 == p.(body := Moved(p.body))
    ensures r.1.Some? <==> p.sound.Some? && InSquare(Moved(p.body), cx, cy, Radius)
    ensures r.1.Some? ==> r.1 == p.sound
  {
    var m := p.(body := Moved(p.body));
    (m, if InSquare(m.body, cx, cy, Radius) then Fire(m) else None)
  }

  /** A collection after one frame's move-and-check. */
  function StepAll(ps: seq<Particle>, cx: real, cy: real): (r: seq<Particle>)
    ensures |r| == |ps|
  {
    seq(|ps|, i requires 0 <= i < |ps| => Step(ps[i], cx, cy).0)
  }

  /** The sounds a collection plays in one frame, in collection order. */
  function Emitted(ps: seq<Particle>, cx: real, cy: real): seq<Sound>
    decreases |ps|
  {
    if ps == [] then []
    else
      var last := Step(ps[|ps| - 1], cx, cy).1;
      Emitted(ps[..|ps| - 1], cx, cy) + (if last.Some? then [last.value] else [])
  }

  /** How many balls of a collection end a frame inside the square with a
      sound. */
  function Inside(ps: seq<Particle>, cx: real, cy: real): nat
    decreases |ps|
  {
    if ps == [] then 0
    else
      var last := ps[|ps| - 1];
      Inside(ps[..|ps| - 1], cx, cy) + (if last.sound.Some? && InSquare(last.body, cx, cy, Radius) then 1 else 0)
  }

  /** Without a latch, a frame plays exactly one sound per ball that ends it
      inside the square, whatever it played before. */
  lemma {:induction false} EmittedCountsInside(ps: seq<Particle>, cx: real, cy: real)
    ensures |Emitted(ps, cx, cy)| == Inside(StepAll(ps, cx, cy), cx, cy)
    decreases |ps|
  {
    if ps != [] {
      var n := |ps| - 1;
      EmittedCountsInside(ps[..n], cx, cy);
      assert StepAll(ps, cx, cy)[..n] == StepAll(ps[..n], cx, cy);
    }
  }

  /** The state of a ball after `n` frames, culling aside. */
  function After(p: Particle, cx: real, cy: real, n: nat): Particle
    decreases n
  {
    if n == 0 then p else Step(After(p, cx, cy, n - 1), cx, cy).0
  }

  /** How many times a ball plays during its first `n` frames. */
  function Plays(p: Particle, cx: real, cy: real, n: nat): nat
    decreases n
  {
    if n == 0 then 0
    else Plays(p, cx, cy, n - 1) + (if Step(After(p, cx, cy, n - 1), cx, cy).1.Some? then 1 else 0)
  }

  /** Frames only move a ball. */
  lemma {:induction false} AfterMoves(p: Particle, cx: real, cy: real, n: nat)
    ensures After(p, cx, cy, n) == p.(body := MovedFor(p.body, n))
    decreases n
  {
    if n > 0 {
      AfterMoves(p, cx, cy, n - 1);
      MovedForStep(p.body, n - 1);
    }
  }

  /** Launched from (cx, cy) at the engine's speed: diagonal steps of 3. */
  predicate OnDiagonal(b: Body, cx: real, cy: real)
  {
    b.x == cx && b.y == cy && (b.vx == 3.0 || b.vx == -3.0) && (b.vy == 3.0 || b.vy == -3.0)
  }

  /** After k frames a diagonal ball is 3k from the centre on both axes, so
      it is inside the square exactly while 3k <= 200, up to frame 66. */
  lemma {:induction false} SquareOnDiagonal(b: Body, cx: real, cy: real, k: nat)
    requires OnDiagonal(b, cx, cy)
    ensures InSquare(MovedFor(b, k), cx, cy, Radius) <==> k <= 66
  {
    MovedForIsLinear(b, k);
    var kr := k as real;
    assert MovedFor(b, k).x - cx == kr * b.vx && MovedFor(b, k).y - cy == kr * b.vy;
    assert kr * b.vx == 3.0 * kr || kr * b.vx == -3.0 * kr;
    assert kr * b.vy == 3.0 * kr || kr * b.vy == -3.0 * kr;
  }

  /** No latch: a diagonal ball with a sound plays on every one of its
      first 66 frames and on none after, 66 plays in all. */
  lemma {:induction false} PlaysWhileInside(p: Particle, cx: real, cy: real, n: nat)
    requires OnDiagonal(p.body, cx, cy) && p.sound.Some?
    ensures Plays(p, cx, cy, n) == if n <= 66 then n else 66
    decreases n
  {
    if n > 0 {
      PlaysWhileInside(p, cx, cy, n - 1);
      AfterMoves(p, cx, cy, n - 1);
      MovedForStep(p.body, n - 1);
      SquareOnDiagonal(p.body, cx, cy, n);
    }
  }

  /** The engine's launch meets the premises: a ball the scheduler spawns
      plays in its spawn frame already, and on each of its first 66 frames,
      unless it is culled before. */
  lemma SpawnedBallPlays66Frames(t: Sound, c: Coin, width: nat, height: nat, n: nat)
    ensures var p := Launch(BallSpeed, Some(t), c, width, height);
            && Step(p, CenterX(width), CenterY(height)).1 == Some(t)
            && Plays(p, CenterX(width), CenterY(height), n) == if n <= 66 then n else 66
  {
    var p := Launch(BallSpeed, Some(t), c, width, height);
    LaunchIsDiagonal(BallSpeed, Some(t), c, width, height);
    PlaysWhileInside(p, CenterX(width), CenterY(height), n);
    assert MovedFor(p.body, 1) == Moved(p.body);
    SquareOnDiagonal(p.body, CenterX(width), CenterY(height), 1);
  }

  /** A parked body is left of the screen, so the cull drops it wherever it
      stands in its collection. */
  lemma ParkedIsCulled(ps: seq<Particle>, i: nat, width: int, height: int)
    requires i < |ps| && ps[i].body.x == Parked && ps[i].body.y == Parked
    ensures ps[i] !in CullBy(ps, BodyOf, width, height)
  {
    CullByMembers(ps, BodyOf, width, height);
  }

  /** On a camera frame at least 400 pixels wide and high, a ball the
      scheduler launches is still inside the visible rectangle on each of
      its first 66 frames (3 * 66 = 198 < 200), so no cull drops it while it
      is inside the square. */
  lemma LaunchStaysOnScreen(t: Sound, c: Coin, width: nat, height: nat, k: nat)
    requires width >= 400 && height >= 400 && k <= 66
    ensures var p := Launch(BallSpeed, Some(t), c, width, height);
            OnScreen(After(p, CenterX(width), CenterY(height), k).body, width, height)
  {
    var p := Launch(BallSpeed, Some(t), c, width, height);
    assert -3.0 <= p.body.vx <= 3.0 && -3.0 <= p.body.vy <= 3.0;
    assert k as real * 3.0 <= 198.0;
    assert width / 2 >= 200 && width - width / 2 >= 200;
    assert height / 2 >= 200 && height - height / 2 >= 200;
    StaysOnScreen(p.body, width, height, 3.0, k);
    AfterMoves(p, CenterX(width), CenterY(height), k);
  }

  /** The move loop carries every listed ball to its moved value. */
  lemma StepAllHas(ps: seq<Particle>, q: Particle, cx: real, cy: real)
    requires q in ps
    ensures Step(q, cx, cy).0 in StepAll(ps, cx, cy)
  {
    var i :| 0 <= i < |ps| && ps[i] == q;
    assert StepAll(ps, cx, cy)[i] == Step(q, cx, cy).0;
  }

  /** A listed ball that plays in a frame puts its sound into the frame's
      sounds. */
  lemma {:induction false} EmittedHas(ps: seq<Particle>, q: Particle, cx: real, cy: real)
    requires q in ps && Step(q, cx, cy).1.Some?
    ensures multiset(Emitted(ps, cx, cy))[Step(q, cx, cy).1.value] >= 1
    decreases |ps|
  {
    var n := |ps| - 1;
    var last := Step(ps[n], cx, cy).1;
    var tail := if last.Some? then [last.value] else [];
    assert Emitted(ps, cx, cy) == Emitted(ps[..n], cx, cy) + tail;
    if ps[n] != q {
      assert q in ps[..n] by {
        var i :| 0 <= i < |ps| && ps[i] == q;
        assert ps[..n][i] == q;
      }
      EmittedHas(ps[..n], q, cx, cy);
    } else {
      assert tail == [Step(q, cx, cy).1.value];
    }
  }

  // ---------------------------------------------------------------------
  // The objects
  // ---------------------------------------------------------------------

  class Ball {
    const speed: int
    const xSpeed: real
    const ySpeed: real
    const color: Color
    const size: int
    const sound: Option<Sound>
    var x: real
    var y: real

    function State(): Particle
      reads this
    {
      Particle(Body(x, y, xSpeed, ySpeed), sound)
    }

    /** Ball(speed, color, sound): placed at the screen centre, moving by
        the drawn +/- speed on each axis. */
    constructor (speed: int, color: Color, sound: Option<Sound>, width: nat, height: nat, c: Coin)
      ensures State() == Launch(speed, sound, c, width, height)
      ensures this.speed == speed && this.color == color && size == BallSize
    {
      this.speed := speed;
      x, y := CenterX(width), CenterY(height);
      xSpeed := Signed(c.0, speed) as real;
      ySpeed := Signed(c.1, speed) as real;
      this.color := color;
      size := BallSize;
      this.sound := sound;
    }

    /** move: the velocity is added to the position; nothing else changes. */
    method Move()
      modifies this`x, this`y
      ensures x == old(x) + xSpeed && y == old(y) + ySpeed
      ensures State() == old(State()).(body := Moved(old(State()).body))
    {
      x := x + xSpeed;
      y := y + ySpeed;
    }

    /** play_sound: returns the sound it starts, if any; it changes
        nothing. */
    method PlaySound() returns (played: Option<Sound>)
      ensures played == Fire(State())
    {
      played := None;
      if sound.Some? {
        played := sound;
      }
    }

    /** remove: parks the ball at (-100, -100), off screen, so that the next
        cull drops it; velocity and sound are kept. */
    method Remove()
      modifies this`x, this`y
      ensures x == Parked && y == Parked
      ensures State() == old(State()).(body := old(State()).body.(x := Parked, y := Parked))
    {
      x := Parked;
      y := Parked;
    }
  }

  /** The sound a ball was built with; it never changes. */
  function SoundOf(b: Ball): Option<Sound>
  {
    b.sound
  }

  /** The value of each ball of a collection. */
  function States(bs: seq<Ball>): (r: seq<Particle>)
    reads bs
    ensures |r| == |bs|
  {
    seq(|bs|, i reads bs requires 0 <= i < |bs| => bs[i].State())
  }

  /** The cull comprehension on the ball objects: keeps exactly the balls
      inside the visible rectangle, in order. */
  function Cull(bs: seq<Ball>, width: int, height: int): (r: seq<Ball>)
    reads bs
    decreases |bs|
  {
    if bs == [] then []
    else (if OnScreen(bs[0].State().body, width, height) then [bs[0]] else []) + Cull(bs[1..], width, height)
  }

  /** The cull only drops balls. */
  lemma {:induction false} CullSub(bs: seq<Ball>, width: int, height: int)
    ensures multiset(Cull(bs, width, height)) <= multiset(bs)
    decreases |bs|
  {
    if bs != [] {
      CullSub(bs[1..], width, height);
      assert bs == [bs[0]] + bs[1..];
    }
  }

  lemma StatesAppend(a: seq<Ball>, b: seq<Ball>)
    ensures States(a + b) == States(a) + States(b)
  {
  }

  /** Culling the objects culls their values. */
  lemma {:induction false} CullStates(bs: seq<Ball>, width: int, height: int)
    ensures States(Cull(bs, width, height)) == CullBy(States(bs), BodyOf, width, height)
    decreases |bs|
  {
    if bs != [] {
      var vs := States(bs);
      var head := if OnScreen(bs[0].State().body, width, height) then [bs[0]] else [];
      var rest := Cull(bs[1..], width, height);
      assert Cull(bs, width, height) == head + rest;
      StatesAppend(head, rest);
      CullStates(bs[1..], width, height);
      assert vs[1..] == States(bs[1..]);
      assert States(head) == if OnScreen(BodyOf(vs[0]), width, height) then [vs[0]] else [];
    }
  }

  /** The body of the move-and-check loop for one ball: move it, then play
      its sound if it is inside the square. */
  method MoveOne(ball: Ball, cx: real, cy: real) returns (e: Option<Sound>)
    modifies ball
    ensures (ball.State(), e) == Step(old(ball.State()), cx, cy)
  {
    ball.Move();
    e := None;
    var b := ball.State().body;
    if b.x >= cx - Radius as real && b.x <= cx + Radius as real && b.y >= cy - Radius as real && b.y <= cy + Radius as real {
      e := ball.PlaySound();
    }
  }

  /** The move-and-check loop over one collection: each ball moves once and,
      if inside the square, plays. */
  method MoveAndCheck(balls: seq<Ball>, cx: real, cy: real) returns (played: seq<Sound>)
    requires Distinct(balls)
    modifies balls
    ensures States(balls) == StepAll(old(States(balls)), cx, cy)
    ensures played == Emitted(old(States(balls)), cx, cy)
  {
    ghost var before := States(balls);
    played := [];
    var i := 0;
    while i < |balls|
      invariant 0 <= i <= |balls|
      invariant forall k :: 0 <= k < i ==> balls[k].State() == Step(before[k], cx, cy).0
      invariant forall k :: i <= k < |balls| ==> balls[k].State() == before[k]
      invariant played == Emitted(before[..i], cx, cy)
    {
      label Pre:
      var e := MoveOne(balls[i], cx, cy);
      forall k | 0 <= k < |balls| && k != i
        ensures balls[k].State() == old@Pre(balls[k].State())
      {
        assert balls[k] != balls[i];
      }
      if e.Some? {
        played := played + [e.value];
      }
      assert before[..i + 1][..i] == before[..i];
      i := i + 1;
    }
    assert before[..|balls|] == before;
  }

  /** MoveAndCheck on one collection, seen from the two collections it
      shares no ball with: their balls are untouched. */
  method MovePart(balls: seq<Ball>, ghost others1: seq<Ball>, ghost others2: seq<Ball>, cx: real, cy: real)
    returns (played: seq<Sound>)
    requires Distinct(balls)
    requires forall b :: b in others1 ==> b !in balls
    requires forall b :: b in others2 ==> b !in balls
    modifies balls
    ensures States(balls) == StepAll(old(States(balls)), cx, cy)
    ensures played == Emitted(old(States(balls)), cx, cy)
    ensures States(others1) == old(States(others1)) && States(others2) == old(States(others2))
  {
    played := MoveAndCheck(balls, cx, cy);
    forall j | 0 <= j < |others1|
      ensures others1[j].State() == old(others1[j].State())
    {
      assert others1[j] !in balls;
    }
    forall j | 0 <= j < |others2|
      ensures others2[j].State() == old(others2[j].State())
    {
      assert others2[j] !in balls;
    }
  }

  /** Balls whose fields did not change have the same values. */
  twostate lemma StatesFrame(bs: seq<Ball>)
    requires forall i :: 0 <= i < |bs| ==> unchanged(bs[i])
    ensures States(bs) == old(States(bs))
  {
  }

  /** Culling keeps the engine's invariant: it only drops balls. */
  lemma CullWellFormed(h: seq<Ball>, s: seq<Ball>, k: seq<Ball>, width: int, height: int)
    requires WellFormed(h, s, k, SoundOf)
    ensures WellFormed(Cull(h, width, height), Cull(s, width, height), Cull(k, width, height), SoundOf)
  {
    CullSub(h, width, height);
    CullSub(s, width, height);
    CullSub(k, width, height);
    SubWellFormed(h, s, k, Cull(h, width, height), Cull(s, width, height), Cull(k, width, height), SoundOf);
  }

  /** The three cull comprehensions, seen on values. */
  lemma CullAllStates(h: seq<Ball>, s: seq<Ball>, k: seq<Ball>, width: int, height: int)
    ensures States(Cull(h, width, height)) == CullBy(States(h), BodyOf, width, height)
    ensures States(Cull(s, width, height)) == CullBy(States(s), BodyOf, width, height)
    ensures States(Cull(k, width, height)) == CullBy(States(k), BodyOf, width, height)
  {
    CullStates(h, width, height);
    CullStates(s, width, height);
    CullStates(k, width, height);
  }
}

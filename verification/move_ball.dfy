/** One ball of the move-only engine of beatles_003.py, as a value and as an
    object. It is launched and moved exactly like the ring engine's ball, but
    nothing ever plays it: the engine has no trigger and the ball no latch. */
module MoveBall {
  import opened Beat
  import opened Geometry
  import opened Tracks

  /** Drawn radius of a ball; it plays no part in the motion. */
  const BallSize: int := 20

  /** A ball at one instant: its body and its sound (None when built
      without one). */
  datatype Particle = Particle(body: Body, sound: Option<Sound>)

  function BodyOf(p: Particle): Body { p.body }

  /** The ball the constructor builds: the launch body and the given
      sound. */
  function Launch(speed: int, sound: Option<Sound>, draws: seq<Draw>, width: nat, height: nat, rt2: real): Particle
    requires speed > 0 && Fair(draws)
  {
    Particle(LaunchBody(speed, draws, width, height, rt2), sound)
  }

  /** One frame for one ball: it moves by its velocity. */
  function Step(p: Particle): Particle
  {
    p.(body := Moved(p.body))
  }

  /** A collection after one frame's move loop. */
  function StepAll(ps: seq<Particle>): (r: seq<Particle>)
    ensures |r| == |ps|
  {
    seq(|ps|, i requires 0 <= i < |ps| => Step(ps[i]))
  }

  /** The move loop treats each ball on its own: moving a concatenation
      moves each part in place, so order and membership are kept. */
  lemma StepAllAppend(a: seq<Particle>, b: seq<Particle>)
    ensures StepAll(a + b) == StepAll(a) + StepAll(b)
  {
  }

  /** `n` frames of the move loop on one collection, culling aside. */
  function StepFor(ps: seq<Particle>, n: nat): seq<Particle>
    decreases n
  {
    if n == 0 then ps else StepAll(StepFor(ps, n - 1))
  }

  /** After `n` frames every ball has moved `n` times, in place: the i-th
      ball's body is its starting body moved for `n` frames, and its sound
      is kept. */
  lemma {:induction false} StepForMovesEach(ps: seq<Particle>, n: nat)
    ensures |StepFor(ps, n)| == |ps|
    ensures forall i :: 0 <= i < |ps| ==> StepFor(ps, n)[i] == ps[i].(body := MovedFor(ps[i].body, n))
    decreases n
  {
    if n > 0 {
      StepForMovesEach(ps, n - 1);
      forall i | 0 <= i < |ps|
        ensures StepFor(ps, n)[i] == ps[i].(body := MovedFor(ps[i].body, n))
      {
        MovedForIsLinear(ps[i].body, n - 1);
        MovedForIsLinear(ps[i].body, n);
      }
    }
  }

  class Ball {
    const speed: int
    const xSpeed: real
    const ySpeed: real
    const color: Color
    const size: int
    const sound: Option<Sound>
    var x: real
    var y: real

    function State(): Particle
      reads this
    {
      Particle(Body(x, y, xSpeed, ySpeed), sound)
    }

    /** Ball(speed, color, sound): placed at the screen centre, direction
        drawn until it moves, axis-aligned directions scaled by rt2. */
    constructor (speed: int, color: Color, sound: Option<Sound>, width: nat, height: nat, draws: seq<Draw>, rt2: real)
      requires speed > 0 && Fair(draws)
      ensures State() == Launch(speed, sound, draws, width, height, rt2)
      ensures this.speed == speed && this.color == color && size == BallSize
    {
      var dx, dy := ChooseDirection(speed, draws);
      var vx, vy := dx as real, dy as real;
      if dx == 0 || dy == 0 {
        vx, vy := vx * rt2, vy * rt2;
      }
      this.speed := speed;
      x, y := CenterX(width), CenterY(height);
      xSpeed, ySpeed := vx, vy;
      this.color := color;
      size := BallSize;
      this.sound := sound;
    }

    /** move: the velocity is added to the position; nothing else changes. */
    method Move()
      modifies this`x, this`y
      ensures x == old(x) + xSpeed && y == old(y) + ySpeed
      ensures State() == Step(old(State()))
    {
      x := x + xSpeed;
      y := y + ySpeed;
    }
  }

  /** The sound a ball was built with; it never changes. */
  function SoundOf(b: Ball): Option<Sound>
  {
    b.sound
  }

  /** The value of each ball of a collection. */
  function States(bs: seq<Ball>): (r: seq<Particle>)
    reads bs
    ensures |r| == |bs|
  {
    seq(|bs|, i reads bs requires 0 <= i < |bs| => bs[i].State())
  }

  /** The cull comprehension on the ball objects: keeps exactly the balls
      inside the visible rectangle, in order. */
  function Cull(bs: seq<Ball>, width: int, height: int): (r: seq<Ball>)
    reads bs
    decreases |bs|
  {
    if bs == [] then []
    else (if OnScreen(bs[0].State().body, width, height) then [bs[0]] else []) + Cull(bs[1..], width, height)
  }

  /** The cull only drops balls. */
  lemma {:induction false} CullSub(bs: seq<Ball>, width: int, height: int)
    ensures multiset(Cull(bs, width, height)) <= multiset(bs)
    decreases |bs|
  {
    if bs != [] {
      CullSub(bs[1..], width, height);
      assert bs == [bs[0]] + bs[1..];
    }
  }

  lemma StatesAppend(a: seq<Ball>, b: seq<Ball>)
    ensures States(a + b) == States(a) + States(b)
  {
  }

  /** Culling the objects culls their values. */
  lemma {:induction false} CullStates(bs: seq<Ball>, width: int, height: int)
    ensures States(Cull(bs, width, height)) == CullBy(States(bs), BodyOf, width, height)
    decreases |bs|
  {
    if bs != [] {
      var vs := States(bs);
      var head := if OnScreen(bs[0].State().body, width, height) then [bs[0]] else [];
      var rest := Cull(bs[1..], width, height);
      assert Cull(bs, width, height) == head + rest;
      StatesAppend(head, rest);
      CullStates(bs[1..], width, height);
      assert vs[1..] == States(bs[1..]);
      assert States(head) == if OnScreen(BodyOf(vs[0]), width, height) then [vs[0]] else [];
    }
  }

  /** The inner move loop over one collection: each ball moves exactly
      once, the others of the collection are untouched meanwhile. */
  method MoveEach(balls: seq<Ball>)
    requires Distinct(balls)
    modifies balls
    ensures States(balls) == StepAll(old(States(balls)))
  {
    ghost var before := States(balls);
    var i := 0;
    while i < |balls|
      invariant 0 <= i <= |balls|
      invariant forall k :: 0 <= k < i ==> balls[k].State() == Step(before[k])
      invariant forall k :: i <= k < |balls| ==> balls[k].State() == before[k]
    {
      label Pre:
      balls[i].Move();
      forall k | 0 <= k < |balls| && k != i
        ensures balls[k].State() == old@Pre(balls[k].State())
      {
        assert balls[k] != balls[i];
      }
      i := i + 1;
    }
  }

  /** MoveEach on one collection, seen from the two collections it shares no
      ball with: their balls are untouched. */
  method MovePart(balls: seq<Ball>, ghost others1: seq<Ball>, ghost others2: seq<Ball>)
    requires Distinct(balls)
    requires forall b :: b in others1 ==> b !in balls
    requires forall b :: b in others2 ==> b !in balls
    modifies balls
    ensures States(balls) == StepAll(old(States(balls)))
    ensures States(others1) == old(States(others1)) && States(others2) == old(States(others2))
  {
    MoveEach(balls);
    forall j | 0 <= j < |others1|
      ensures others1[j].State() == old(others1[j].State())
    {
      assert others1[j] !in balls;
    }
    forall j | 0 <= j < |others2|
      ensures others2[j].State() == old(others2[j].State())
    {
      assert others2[j] !in balls;
    }
  }

  /** Balls whose fields did not change have the same values. */
  twostate lemma StatesFrame(bs: seq<Ball>)
    requires forall i :: 0 <= i < |bs| ==> unchanged(bs[i])
    ensures States(bs) == old(States(bs))
  {
  }

  /** Culling keeps the engine's invariant: it only drops balls. */
  lemma CullWellFormed(h: seq<Ball>, s: seq<Ball>, k: seq<Ball>, width: int, height: int)
    requires WellFormed(h, s, k, SoundOf)
    ensures WellFormed(Cull(h, width, height), Cull(s, width, height), Cull(k, width, height), SoundOf)
  {
    CullSub(h, width, height);
    CullSub(s, width, height);
    CullSub(k, width, height);
    SubWellFormed(h, s, k, Cull(h, width, height), Cull(s, width, height), Cull(k, width, height), SoundOf);
  }

  /** The three cull comprehensions, seen on values. */
  lemma CullAllStates(h: seq<Ball>, s: seq<Ball>, k: seq<Ball>, width: int, height: int)
    ensures States(Cull(h, width, height)) == CullBy(States(h), BodyOf, width, height)
    ensures States(Cull(s, width, height)) == CullBy(States(s), BodyOf, width, height)
    ensures States(Cull(k, width, height)) == CullBy(States(k), BodyOf, width, height)
  {
    CullStates(h, width, height);
    CullStates(s, width, height);
    CullStates(k, width, height);
  }
}

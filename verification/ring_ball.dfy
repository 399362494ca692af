/** One ball of the ring engine of beatles_008.py, as a value and as an
    object. Each frame a ball moves once, and a ball whose truncated
    distance from the screen centre lies in the ring band [200, 250) plays
    its part's sound, at most once in its life. */
module RingBall {
  import opened Beat
  import opened Geometry
  import opened Tracks

  /** Inner radius of the ring band, in pixels. */
  const Radius: int := 200
  /** Width of the ring band, in pixels. */
  const Thickness: int := 50
  /** Drawn radius of a ball; it plays no part in the triggering. */
  const BallSize: int := 20

  // ---------------------------------------------------------------------
  // The value-level model of one ball and one frame
  // ---------------------------------------------------------------------

  /** A ball at one instant: its body, its sound (None when built without
      one) and its latch, isAudioPlayed. */
  datatype Particle = Particle(body: Body, sound: Option<Sound>, played: bool)

  function BodyOf(p: Particle): Body { p.body }

  /** The ball the constructor builds: the launch body, the given sound,
      not yet played. */
  function Launch(speed: int, sound: Option<Sound>, draws: seq<Draw>, width: nat, height: nat, rt2: real): Particle
    requires speed > 0 && Fair(draws)
  {
    Particle(LaunchBody(speed, draws, width, height, rt2), sound, false)
  }

  /** A launched ball sits at the centre, is armed, keeps its sound, and
      moves with squared speed 2 * speed^2 in whatever direction was drawn. */
  lemma LaunchIsArmedAndUniform(speed: int, sound: Option<Sound>, draws: seq<Draw>, width: nat, height: nat, rt2: real)
    requires speed > 0 && Fair(draws) && rt2 * rt2 == 2.0
    ensures var p := Launch(speed, sound, draws, width, height, rt2);
            && p.body.x == CenterX(width) && p.body.y == CenterY(height)
            && !p.played && p.sound == sound
            && p.body.vx * p.body.vx + p.body.vy * p.body.vy == 2.0 * (speed * speed) as real
            && (p.body.vx != 0.0 || p.body.vy != 0.0)
  {
    LaunchBodyIsUniform(speed, draws, width, height, rt2);
  }

  /** play_sound: the one-shot latch. It emits the ball's sound only when the
      ball has one and has not played yet, and then latches; once latched,
      playing again emits nothing. The latch never reopens. */
  function Fire(p: Particle): (r: (Particle, Option<Sound>))
    ensures r.1.Some? <==> p.sound.Some? && !p.played
    ensures r.1.Some? ==> r.1 == p.sound
    ensures r.0.played == (p.played || p.sound.Some?)
    ensures r.0.body == p.body && r.0.sound == p.sound
  {
    if p.sound.Some? && !p.played then (p.(played := true), p.sound) else (p, None)
  }

  /** Once play_sound has run, running it again emits nothing and changes
      nothing. */
  lemma FireIsOneShot(p: Particle)
    ensures Fire(Fire(p).0) == (Fire(p).0, None)
  {
  }

  /** One frame for one ball: move it, then play it if it is in the ring
      band around (cx, cy). A ball plays only if it was unplayed, and an
      emission leaves it played; a played ball stays played. */
  function Step(p: Particle, cx: real, cy: real): (r: (Particle, Option<Sound>))
    ensures r.0.body == Moved(p.body) && r.0.sound == p.sound
    ensures p.played ==> r.0.played && r.1 == None
    ensures r.1.Some? ==> r.0.played && r.1 == p.sound
    ensures r.1.Some? <==> r.0.played && !p.played
    ensures r.1.Some? <==> p.sound.Some? && !p.played && InBand(DistSq(Moved(p.body), cx, cy), Radius, Thickness)
  {
    var m := p.(body := Moved(p.body));
    if InBand(DistSq(m.body, cx, cy), Radius, Thickness) then Fire(m) else (m, None)
  }

  /** A collection after one frame's move-and-check. */
  function StepAll(ps: seq<Particle>, cx: real, cy: real): (r: seq<Particle>)
    ensures |r| == |ps|
  {
    seq(|ps|, i requires 0 <= i < |ps| => Step(ps[i], cx, cy).0)
  }

  /** The sounds a collection plays in one frame, in collection order. */
  function Emitted(ps: seq<Particle>, cx: real, cy: real): seq<Sound>
    decreases |ps|
  {
    if ps == [] then []
    else
      var last := Step(ps[|ps| - 1], cx, cy).1;
      Emitted(ps[..|ps| - 1], cx, cy) + (if last.Some? then [last.value] else [])
  }

  /** How many balls of a collection are still armed. */
  function Unplayed(ps: seq<Particle>): nat
    decreases |ps|
  {
    if ps == [] then 0
    else Unplayed(ps[..|ps| - 1]) + (if ps[|ps| - 1].played then 0 else 1)
  }

  lemma {:induction false} UnplayedAppend(ps: seq<Particle>, p: Particle)
    ensures Unplayed(ps + [p]) == Unplayed(ps) + (if p.played then 0 else 1)
  {
    assert (ps + [p])[..|ps|] == ps;
  }

  /** Every sound played in a frame uses up the latch of one armed ball:
      the number of plays equals the number of balls that went from armed
      to played. */
  lemma {:induction false} PlaysUseUpLatches(ps: seq<Particle>, cx: real, cy: real)
    ensures |Emitted(ps, cx, cy)| + Unplayed(StepAll(ps, cx, cy)) == Unplayed(ps)
    decreases |ps|
  {
    if ps != [] {
      var n := |ps| - 1;
      PlaysUseUpLatches(ps[..n], cx, cy);
      assert StepAll(ps, cx, cy)[..n] == StepAll(ps[..n], cx, cy);
    }
  }

  /** Culling drops balls, so it never adds armed ones. */
  lemma {:induction false} CullKeepsFewerArmed(ps: seq<Particle>, width: int, height: int)
    ensures Unplayed(CullBy(ps, BodyOf, width, height)) <= Unplayed(ps)
    decreases |ps|
  {
    if ps != [] {
      var n := |ps| - 1;
      assert ps == ps[..n] + [ps[n]];
      CullAppend(ps[..n], [ps[n]], BodyOf, width, height);
      CullKeepsFewerArmed(ps[..n], width, height);
      var tail := CullBy([ps[n]], BodyOf, width, height);
      assert tail == [] || tail == [ps[n]] by {
        assert [ps[n]][1..] == [];
      }
      if tail == [] {
        assert CullBy(ps[..n], BodyOf, width, height) + tail == CullBy(ps[..n], BodyOf, width, height);
      } else {
        UnplayedAppend(CullBy(ps[..n], BodyOf, width, height), ps[n]);
      }
    }
  }

  /** The state of a ball after `n` frames, culling aside. */
  function After(p: Particle, cx: real, cy: real, n: nat): Particle
    decreases n
  {
    if n == 0 then p else Step(After(p, cx, cy, n - 1), cx, cy).0
  }

  /** How many times a ball plays during its first `n` frames. */
  function Plays(p: Particle, cx: real, cy: real, n: nat): nat
    decreases n
  {
    if n == 0 then 0
    else Plays(p, cx, cy, n - 1) + (if Step(After(p, cx, cy, n - 1), cx, cy).1.Some? then 1 else 0)
  }

  /** The one-shot trigger: however many frames a ball spends in the band,
      it plays at most once, and not at all if it had already played. */
  lemma {:induction false} PlaysAtMostOnce(p: Particle, cx: real, cy: real, n: nat)
    ensures Plays(p, cx, cy, n) <= (if p.played then 0 else 1)
    ensures Plays(p, cx, cy, n) == 1 ==> After(p, cx, cy, n).played
    ensures p.played ==> After(p, cx, cy, n).played
    decreases n
  {
    if n > 0 {
      PlaysAtMostOnce(p, cx, cy, n - 1);
    }
  }

  /** Squared distance from the launch point after k frames, for a ball
      launched at (cx, cy). */
  lemma {:induction false} DistanceAfter(b: Body, cx: real, cy: real, k: nat)
    requires b.x == cx && b.y == cy
    ensures DistSq(MovedFor(b, k), cx, cy) == (k * k) as real * (b.vx * b.vx + b.vy * b.vy)
  {
    MovedForIsLinear(b, k);
    var kr := k as real;
    assert (kr * b.vx) * (kr * b.vx) == (kr * kr) * (b.vx * b.vx);
    assert (kr * b.vy) * (kr * b.vy) == (kr * kr) * (b.vy * b.vy);
    assert (k * k) as real == kr * kr;
  }

  /** A body at (cx, cy) moving at the engine's launch speed: squared speed
      2 * 3^2 = 18. */
  predicate OnLaunchLine(b: Body, cx: real, cy: real)
  {
    b.x == cx && b.y == cy && b.vx * b.vx + b.vy * b.vy == 18.0
  }

  /** Distance along the launch line, at the engine's speed: inside the
      ring for frames 0 to 47, in the band on frame 48, where
      3 * sqrt 2 * 48 is about 203.6. */
  lemma {:induction false} RingDistance(b: Body, cx: real, cy: real, k: nat)
    requires OnLaunchLine(b, cx, cy)
    ensures k <= 47 ==> !InBand(DistSq(MovedFor(b, k), cx, cy), Radius, Thickness)
    ensures k == 48 ==> InBand(DistSq(MovedFor(b, k), cx, cy), Radius, Thickness)
  {
    var kk := k * k;
    DistanceAtEngineSpeed(b, cx, cy, k);
    BandOnLaunchLine(kk);
    if k <= 47 {
      SquareBelow(k, 47);
    }
  }

  lemma DistanceAtEngineSpeed(b: Body, cx: real, cy: real, k: nat)
    requires b.x == cx && b.y == cy
    requires b.vx * b.vx + b.vy * b.vy == 18.0
    ensures DistSq(MovedFor(b, k), cx, cy) == (k * k) as real * 18.0
  {
    DistanceAfter(b, cx, cy, k);
  }

  lemma SquareBelow(k: nat, m: nat)
    ensures k <= m ==> k * k <= m * m
  {
    if k <= m {
      assert k * k <= k * m;
      assert k * m <= m * m;
    }
  }

  /** The band test on the squared distance kk * 18 of frame k, kk = k^2. */
  lemma BandOnLaunchLine(kk: nat)
    ensures kk <= 2209 ==> !InBand(kk as real * 18.0, Radius, Thickness)
    ensures kk == 2304 ==> InBand(kk as real * 18.0, Radius, Thickness)
  {
  }

  /** A ball that moves to a point outside the band stays quiet. */
  lemma QuietStep(p: Particle, cx: real, cy: real, next: Body)
    requires Moved(p.body) == next && !InBand(DistSq(next, cx, cy), Radius, Thickness)
    ensures Step(p, cx, cy) == (p.(body := next), None)
  {
  }

  /** A ball launched from the centre at the engine's speed stays silent
      for its first 47 frames. */
  lemma {:induction false} SilentBeforeBand(p: Particle, cx: real, cy: real, k: nat)
    requires OnLaunchLine(p.body, cx, cy) && !p.played
    requires k <= 47
    ensures After(p, cx, cy, k) == p.(body := MovedFor(p.body, k))
    ensures Plays(p, cx, cy, k) == 0
    decreases k
  {
    if k > 0 {
      var prev := After(p, cx, cy, k - 1);
      assert prev == p.(body := MovedFor(p.body, k - 1)) && Plays(p, cx, cy, k - 1) == 0 by {
        SilentBeforeBand(p, cx, cy, k - 1);
      }
      assert Step(prev, cx, cy) == (p.(body := MovedFor(p.body, k)), None) by {
        MovedForStep(p.body, k - 1);
        RingDistance(p.body, cx, cy, k);
        QuietStep(prev, cx, cy, MovedFor(p.body, k));
      }
    }
  }

  /** The ring crossing of a launched ball: silent for 47 frames, it plays
      exactly once on frame 48 and never again, whatever number of frames
      follow. */
  lemma {:induction false} PlaysOnceOnFrame48(p: Particle, cx: real, cy: real, n: nat)
    requires OnLaunchLine(p.body, cx, cy) && !p.played && p.sound.Some?
    ensures n <= 47 ==> Plays(p, cx, cy, n) == 0
    ensures n >= 48 ==> Plays(p, cx, cy, n) == 1
    decreases n
  {
    if n <= 47 {
      SilentBeforeBand(p, cx, cy, n);
    } else if n == 48 {
      SilentBeforeBand(p, cx, cy, 47);
      MovedForStep(p.body, 47);
      RingDistance(p.body, cx, cy, 48);
    } else {
      PlaysOnceOnFrame48(p, cx, cy, n - 1);
      PlaysAtMostOnce(p, cx, cy, n);
    }
  }

  /** A new ball cannot play in its spawn frame: after the one move of that
      frame it is only speed * sqrt 2 from the centre, inside the ring. */
  lemma SilentInSpawnFrame(speed: int, sound: Option<Sound>, draws: seq<Draw>, width: nat, height: nat, rt2: real)
    requires speed > 0 && 2 * speed * speed < Radius * Radius
    requires Fair(draws) && rt2 * rt2 == 2.0
    ensures var p := Launch(speed, sound, draws, width, height, rt2);
            Step(p, CenterX(width), CenterY(height)) == (p.(body := Moved(p.body)), None)
  {
    var p := Launch(speed, sound, draws, width, height, rt2);
    LaunchIsArmedAndUniform(speed, sound, draws, width, height, rt2);
    assert MovedFor(p.body, 1) == Moved(p.body);
    DistanceAfter(p.body, CenterX(width), CenterY(height), 1);
  }

  /** The engine's launch meets the premises of the crossing lemmas: every
      ball spawned by the scheduler plays exactly once, on frame 48, unless
      it is culled before. */
  lemma SpawnedBallPlaysOnFrame48(t: Sound, draws: seq<Draw>, width: nat, height: nat, rt2: real, n: nat)
    requires Fair(draws) && rt2 * rt2 == 2.0
    ensures var p := Launch(BallSpeed, Some(t), draws, width, height, rt2);
            Plays(p, CenterX(width), CenterY(height), n) == if n <= 47 then 0 else 1
  {
    LaunchIsArmedAndUniform(BallSpeed, Some(t), draws, width, height, rt2);
    PlaysOnceOnFrame48(Launch(BallSpeed, Some(t), draws, width, height, rt2), CenterX(width), CenterY(height), n);
  }

  /** Frames move a ball and keep its sound. */
  lemma {:induction false} AfterMoves(p: Particle, cx: real, cy: real, n: nat)
    ensures After(p, cx, cy, n).body == MovedFor(p.body, n)
    ensures After(p, cx, cy, n).sound == p.sound
    decreases n
  {
    if n > 0 {
      AfterMoves(p, cx, cy, n - 1);
      MovedForStep(p.body, n - 1);
    }
  }

  /** On a camera frame at least 410 pixels wide and high, a ball the
      scheduler launches is still inside the visible rectangle on each of
      its first 48 frames (3 * 1.42 * 48 < 205), so no cull drops it before
      it reaches the band. */
  lemma LaunchStaysOnScreen(t: Sound, draws: seq<Draw>, width: nat, height: nat, rt2: real, k: nat)
    requires Fair(draws) && rt2 * rt2 == 2.0
    requires width >= 410 && height >= 410 && k <= 48
    ensures var p := Launch(BallSpeed, Some(t), draws, width, height, rt2);
            OnScreen(After(p, CenterX(width), CenterY(height), k).body, width, height)
  {
    var p := Launch(BallSpeed, Some(t), draws, width, height, rt2);
    LaunchBodyIsUniform(BallSpeed, draws, width, height, rt2);
    LaunchBodyBounded(BallSpeed, draws, width, height, rt2);
    AfterMoves(p, CenterX(width), CenterY(height), k);
    assert width / 2 >= 205 && width - width / 2 >= 205;
    assert height / 2 >= 205 && height - height / 2 >= 205;
    StaysOnScreen(p.body, width, height, 4.26, k);
  }

  /** The move loop carries every listed ball to its moved value. */
  lemma StepAllHas(ps: seq<Particle>, q: Particle, cx: real, cy: real)
    requires q in ps
    ensures Step(q, cx, cy).0 in StepAll(ps, cx, cy)
  {
    var i :| 0 <= i < |ps| && ps[i] == q;
    assert StepAll(ps, cx, cy)[i] == Step(q, cx, cy).0;
  }

  /** A listed ball that plays in a frame puts its sound into the frame's
      sounds. */
  lemma {:induction false} EmittedHas(ps: seq<Particle>, q: Particle, cx: real, cy: real)
    requires q in ps && Step(q, cx, cy).1.Some?
    ensures multiset(Emitted(ps, cx, cy))[Step(q, cx, cy).1.value] >= 1
    decreases |ps|
  {
    var n := |ps| - 1;
    var last := Step(ps[n], cx, cy).1;
    var tail := if last.Some? then [last.value] else [];
    assert Emitted(ps, cx, cy) == Emitted(ps[..n], cx, cy) + tail;
    if ps[n] != q {
      assert q in ps[..n] by {
        var i :| 0 <= i < |ps| && ps[i] == q;
        assert ps[..n][i] == q;
      }
      EmittedHas(ps[..n], q, cx, cy);
    } else {
      assert tail == [Step(q, cx, cy).1.value];
    }
  }

  // ---------------------------------------------------------------------
  // The objects
  // ---------------------------------------------------------------------

  class Ball {
    const speed: int
    const xSpeed: real
    const ySpeed: real
    const color: Color
    const size: int
    const sound: Option<Sound>
    var x: real
    var y: real
    var isAudioPlayed: bool

    function State(): Particle
      reads this
    {
      Particle(Body(x, y, xSpeed, ySpeed), sound, isAudioPlayed)
    }

    /** Ball(speed, color, sound): placed at the screen centre, direction
        drawn until it moves, axis-aligned directions scaled by rt2. */
    constructor (speed: int, color: Color, sound: Option<Sound>, width: nat, height: nat, draws: seq<Draw>, rt2: real)
      requires speed > 0 && Fair(draws)
      ensures State() == Launch(speed, sound, draws, width, height, rt2)
      ensures this.speed == speed && this.color == color && size == BallSize
    {
      var dx, dy := ChooseDirection(speed, draws);
      var vx, vy := dx as real, dy as real;
      if dx == 0 || dy == 0 {
        vx, vy := vx * rt2, vy * rt2;
      }
      this.speed := speed;
      x, y := CenterX(width), CenterY(height);
      xSpeed, ySpeed := vx, vy;
      this.color := color;
      size := BallSize;
      this.sound := sound;
      isAudioPlayed := false;
    }

    /** move: the velocity is added to the position; nothing else changes. */
    method Move()
      modifies this`x, this`y
      ensures x == old(x) + xSpeed && y == old(y) + ySpeed
      ensures State() == old(State()).(body := Moved(old(State()).body))
    {
      x := x + xSpeed;
      y := y + ySpeed;
    }

    /** play_sound: returns the sound it starts, if any. */
    method PlaySound() returns (played: Option<Sound>)
      modifies this`isAudioPlayed
      ensures (State(), played) == Fire(old(State()))
    {
      played := None;
      if sound.Some? && !isAudioPlayed {
        played := sound;
        isAudioPlayed := true;
      }
    }
  }

  /** The value of each ball of a collection. */
  function States(bs: seq<Ball>): (r: seq<Particle>)
    reads bs
    ensures |r| == |bs|
  {
    seq(|bs|, i reads bs requires 0 <= i < |bs| => bs[i].State())
  }

  /** The cull comprehension on the ball objects: keeps exactly the balls
      inside the visible rectangle, in order. */
  function Cull(bs: seq<Ball>, width: int, height: int): (r: seq<Ball>)
    reads bs
    decreases |bs|
  {
    if bs == [] then []
    else (if OnScreen(bs[0].State().body, width, height) then [bs[0]] else []) + Cull(bs[1..], width, height)
  }

  /** The cull only drops balls. */
  lemma {:induction false} CullSub(bs: seq<Ball>, width: int, height: int)
    ensures multiset(Cull(bs, width, height)) <= multiset(bs)
    decreases |bs|
  {
    if bs != [] {
      CullSub(bs[1..], width, height);
      assert bs == [bs[0]] + bs[1..];
    }
  }

  lemma StatesAppend(a: seq<Ball>, b: seq<Ball>)
    ensures States(a + b) == States(a) + States(b)
  {
  }

  /** Culling the objects culls their values. */
  lemma {:induction false} CullStates(bs: seq<Ball>, width: int, height: int)
    ensures States(Cull(bs, width, height)) == CullBy(States(bs), BodyOf, width, height)
    decreases |bs|
  {
    if bs != [] {
      var vs := States(bs);
      var head := if OnScreen(bs[0].State().body, width, height) then [bs[0]] else [];
      var rest := Cull(bs[1..], width, height);
      assert Cull(bs, width, height) == head + rest;
      StatesAppend(head, rest);
      CullStates(bs[1..], width, height);
      assert vs[1..] == States(bs[1..]);
      assert States(head) == if OnScreen(BodyOf(vs[0]), width, height) then [vs[0]] else [];
    }
  }

  /** The body of the move-and-check loop for one ball: move it, then play
      its sound if its distance from the centre lies in the ring band. */
  method MoveOne(ball: Ball, cx: real, cy: real) returns (e: Option<Sound>)
    modifies ball
    ensures (ball.State(), e) == Step(old(ball.State()), cx, cy)
  {
    ball.Move();
    e := None;
    var d2 := DistSq(ball.State().body, cx, cy);
    if InBand(d2, Radius, Thickness) {
      e := ball.PlaySound();
    }
  }

  /** The move-and-check loop over one collection: each ball moves once and,
      if in the band, plays. */
  method MoveAndCheck(balls: seq<Ball>, cx: real, cy: real) returns (played: seq<Sound>)
    requires Distinct(balls)
    modifies balls
    ensures States(balls) == StepAll(old(States(balls)), cx, cy)
    ensures played == Emitted(old(States(balls)), cx, cy)
  {
    ghost var before := States(balls);
    played := [];
    var i := 0;
    while i < |balls|
      invariant 0 <= i <= |balls|
      invariant forall k :: 0 <= k < i ==> balls[k].State() == Step(before[k], cx, cy).0
      invariant forall k :: i <= k < |balls| ==> balls[k].State() == before[k]
      invariant played == Emitted(before[..i], cx, cy)
    {
      label Pre:
      var e := MoveOne(balls[i], cx, cy);
      forall k | 0 <= k < |balls| && k != i
        ensures balls[k].State() == old@Pre(balls[k].State())
      {
        assert balls[k] != balls[i];
      }
      if e.Some? {
        played := played + [e.value];
      }
      assert before[..i + 1][..i] == before[..i];
      i := i + 1;
    }
    assert before[..|balls|] == before;
  }

  /** MoveAndCheck on one collection, seen from the two collections it
      shares no ball with: their balls are untouched. */
  method MovePart(balls: seq<Ball>, ghost others1: seq<Ball>, ghost others2: seq<Ball>, cx: real, cy: real)
    returns (played: seq<Sound>)
    requires Distinct(balls)
    requires forall b :: b in others1 ==> b !in balls
    requires forall b :: b in others2 ==> b !in balls
    modifies balls
    ensures States(balls) == StepAll(old(States(balls)), cx, cy)
    ensures played == Emitted(old(States(balls)), cx, cy)
    ensures States(others1) == old(States(others1)) && States(others2) == old(States(others2))
  {
    played := MoveAndCheck(balls, cx, cy);
    forall j | 0 <= j < |others1|
      ensures others1[j].State() == old(others1[j].State())
    {
      assert others1[j] !in balls;
    }
    forall j | 0 <= j < |others2|
      ensures others2[j].State() == old(others2[j].State())
    {
      assert others2[j] !in balls;
    }
  }

  /** Balls whose fields did not change have the same values. */
  twostate lemma StatesFrame(bs: seq<Ball>)
    requires forall i :: 0 <= i < |bs| ==> unchanged(bs[i])
    ensures States(bs) == old(States(bs))
  {
  }

  /** The sound a ball was built with; it never changes. */
  function SoundOf(b: Ball): Option<Sound>
  {
    b.sound
  }

  /** Culling keeps the engine's invariant: it only drops balls. */
  lemma CullWellFormed(h: seq<Ball>, s: seq<Ball>, k: seq<Ball>, width: int, height: int)
    requires WellFormed(h, s, k, SoundOf)
    ensures WellFormed(Cull(h, width, height), Cull(s, width, height), Cull(k, width, height), SoundOf)
  {
    CullSub(h, width, height);
    CullSub(s, width, height);
    CullSub(k, width, height);
    SubWellFormed(h, s, k, Cull(h, width, height), Cull(s, width, height), Cull(k, width, height), SoundOf);
  }

  /** The three cull comprehensions, seen on values. */
  lemma CullAllStates(h: seq<Ball>, s: seq<Ball>, k: seq<Ball>, width: int, height: int)
    ensures States(Cull(h, width, height)) == CullBy(States(h), BodyOf, width, height)
    ensures States(Cull(s, width, height)) == CullBy(States(s), BodyOf, width, height)
    ensures States(Cull(k, width, height)) == CullBy(States(k), BodyOf, width, height)
  {
    CullStates(h, width, height);
    CullStates(s, width, height);
    CullStates(k, width, height);
  }
}

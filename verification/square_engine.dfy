/** The square engine of beatles_002.py. On every beat the scheduler launches
    a ball diagonally from the screen centre into each drum part whose
    pattern step is set. Every frame each ball moves once and plays if it is
    inside the square box (see SquareBall); finally balls that left the
    screen are dropped. Tempo 138 BPM. */
module SquareEngine {
  import opened Beat
  import opened Geometry
  import opened Tracks
  import opened Stage
  import opened SquareBall

  const Bpm: int := 138

  /** The direction choices for a ball that may be launched into each
      part. */
  datatype Coins = Coins(hihat: Coin, snare: Coin, kick: Coin)

  /** The ball the part-`t` constructor builds from the coin for `t`. */
  function Newcomer(t: Sound, c: Coins, width: nat, height: nat): Particle
  {
    Launch(BallSpeed, Some(t), match t case Hihat => c.hihat case Snare => c.snare case Kick => c.kick, width, height)
  }

  /** The scheduler block at 138 BPM, polled at `now`. */
  function Poll(w: World<Particle>, now: real, c: Coins, width: nat, height: nat): World<Particle>
  {
    Scheduled(w, now, Bpm, Newcomer(Hihat, c, width, height), Newcomer(Snare, c, width, height), Newcomer(Kick, c, width, height))
  }

  /** One iteration of the main loop: schedule, then move and check every
      ball (hi-hat, snare, kick) against the square around the screen
      centre, then cull each collection. */
  function NextWorld(w: World<Particle>, now: real, c: Coins, width: nat, height: nat): World<Particle>
  {
    var s := Poll(w, now, c, width, height);
    var cx, cy := CenterX(width), CenterY(height);
    World(CullBy(StepAll(s.hihat, cx, cy), BodyOf, width, height),
          CullBy(StepAll(s.snare, cx, cy), BodyOf, width, height),
          CullBy(StepAll(s.kick, cx, cy), BodyOf, width, height),
          s.clock,
          w.plays + Emitted(s.hihat, cx, cy) + Emitted(s.snare, cx, cy) + Emitted(s.kick, cx, cy))
  }

  /** Without a latch, a frame plays once for every ball, of every part,
      that its move leaves inside the square, however often it played
      before. */
  lemma FramePlaysEveryBallInside(w: World<Particle>, now: real, c: Coins, width: nat, height: nat)
    ensures var s, w' := Poll(w, now, c, width, height), NextWorld(w, now, c, width, height);
            var cx, cy := CenterX(width), CenterY(height);
            |w'.plays| == |w.plays| + Inside(StepAll(s.hihat, cx, cy), cx, cy)
                                    + Inside(StepAll(s.snare, cx, cy), cx, cy)
                                    + Inside(StepAll(s.kick, cx, cy), cx, cy)
  {
    var s := Poll(w, now, c, width, height);
    var cx, cy := CenterX(width), CenterY(height);
    EmittedCountsInside(s.hihat, cx, cy);
    EmittedCountsInside(s.snare, cx, cy);
    EmittedCountsInside(s.kick, cx, cy);
  }

  /** A frame keeps exactly the balls that are on screen once moved, each
      moved once, in their order; culling its result again would change
      nothing. */
  lemma FrameKeepsMovedVisibleBalls(w: World<Particle>, now: real, c: Coins, width: nat, height: nat, t: Sound)
    ensures var s, w' := Poll(w, now, c, width, height), NextWorld(w, now, c, width, height);
            var cx, cy := CenterX(width), CenterY(height);
            && (forall p :: p in PartOf(w', t) <==> p in StepAll(PartOf(s, t), cx, cy) && OnScreen(p.body, width, height))
            && CullBy(PartOf(w', t), BodyOf, width, height) == PartOf(w', t)
  {
    var s := Poll(w, now, c, width, height);
    var cx, cy := CenterX(width), CenterY(height);
    CullByMembers(StepAll(PartOf(s, t), cx, cy), BodyOf, width, height);
    CullIdempotent(StepAll(PartOf(s, t), cx, cy), BodyOf, width, height);
  }

  // ---------------------------------------------------------------------
  // A run of frames
  // ---------------------------------------------------------------------

  /** What one iteration of the main loop reads from outside: the time of
      the poll and the direction choices for the balls it may launch. */
  datatype Input = Input(now: real, coins: Coins)

  /** The world after one main-loop iteration per input, in order. */
  function Frames(w: World<Particle>, ins: seq<Input>, width: nat, height: nat): World<Particle>
    decreases |ins|
  {
    if ins == [] then w
    else
      var n := |ins| - 1;
      NextWorld(Frames(w, ins[..n], width, height), ins[n].now, ins[n].coins, width, height)
  }

  /** A ball listed when a frame's moves begin is still listed after the
      frame, moved once, when the move leaves it on screen; a sound it plays
      in that frame is in the log. */
  lemma FrameCarriesBall(w: World<Particle>, now: real, c: Coins, width: nat, height: nat, t: Sound, q: Particle, u: Sound)
    requires q in PartOf(Poll(w, now, c, width, height), t)
    requires OnScreen(Step(q, CenterX(width), CenterY(height)).0.body, width, height)
    ensures var e, w' := Step(q, CenterX(width), CenterY(height)), NextWorld(w, now, c, width, height);
            && e.0 in PartOf(w', t)
            && multiset(w'.plays)[u] >= multiset(w.plays)[u] + (if e.1 == Some(u) then 1 else 0)
  {
    var s := Poll(w, now, c, width, height);
    var cx, cy := CenterX(width), CenterY(height);
    StepAllHas(PartOf(s, t), q, cx, cy);
    CullByMembers(StepAll(PartOf(s, t), cx, cy), BodyOf, width, height);
    if Step(q, cx, cy).1 == Some(u) {
      EmittedHas(PartOf(s, t), q, cx, cy);
    }
  }

  /** A ball listed when the first frame's moves begin, and on screen after
      each of the next n moves, is listed after n frames as its n-th moved
      value, and every sound it played is in the log. */
  lemma {:induction false} FramesCarryBall(w: World<Particle>, ins: seq<Input>, width: nat, height: nat, t: Sound, q: Particle, u: Sound)
    requires |ins| >= 1
    requires q in PartOf(Poll(w, ins[0].now, ins[0].coins, width, height), t)
    requires forall j :: 1 <= j <= |ins| ==> OnScreen(After(q, CenterX(width), CenterY(height), j).body, width, height)
    ensures var cx, cy, w' := CenterX(width), CenterY(height), Frames(w, ins, width, height);
            && After(q, cx, cy, |ins|) in PartOf(w', t)
            && multiset(w'.plays)[u] >= multiset(w.plays)[u] + (if q.sound == Some(u) then Plays(q, cx, cy, |ins|) else 0)
    decreases |ins|
  {
    var cx, cy := CenterX(width), CenterY(height);
    var n := |ins| - 1;
    var init := ins[..n];
    var before := Frames(w, init, width, height);
    var now, c := ins[n].now, ins[n].coins;
    var q' := After(q, cx, cy, n);
    assert q' in PartOf(Poll(before, now, c, width, height), t)
           && multiset(before.plays)[u] >= multiset(w.plays)[u] + (if q.sound == Some(u) then Plays(q, cx, cy, n) else 0) by {
      if n > 0 {
        assert init[0] == ins[0];
        FramesCarryBall(w, init, width, height, t, q, u);
        PollKeeps(before, now, Bpm, Newcomer(Hihat, c, width, height), Newcomer(Snare, c, width, height), Newcomer(Kick, c, width, height), t, q');
      }
    }
    var e := Step(q', cx, cy);
    assert q'.sound == q.sound by {
      AfterMoves(q, cx, cy, n);
    }
    assert e.1.Some? ==> e.1 == q.sound;
    var w' := NextWorld(before, now, c, width, height);
    assert e.0 in PartOf(w', t) && multiset(w'.plays)[u] >= multiset(before.plays)[u] + (if e.1 == Some(u) then 1 else 0) by {
      assert OnScreen(After(q, cx, cy, n + 1).body, width, height);
      FrameCarriesBall(before, now, c, width, height, t, q', u);
    }
    assert Frames(w, ins, width, height) == w';
  }

  /** The square crossing at engine level. On a camera frame at least 400
      pixels wide and high, a ball launched by a due poll is still listed
      on each of its first 66 frames and plays on every one of them: after
      n such frames the log holds n more sounds of its part. */
  lemma SpawnedBallPlaysInEngine(w: World<Particle>, ins: seq<Input>, width: nat, height: nat, t: Sound)
    requires 1 <= |ins| <= 66 && width >= 400 && height >= 400
    requires Due(w.clock, ins[0].now, Interval(Bpm)) && Hits(t, w.clock.counter)
    ensures var p, cx, cy := Newcomer(t, ins[0].coins, width, height), CenterX(width), CenterY(height);
            var w' := Frames(w, ins, width, height);
            && After(p, cx, cy, |ins|) in PartOf(w', t)
            && multiset(w'.plays)[t] >= multiset(w.plays)[t] + |ins|
  {
    var c := ins[0].coins;
    var p, cx, cy := Newcomer(t, c, width, height), CenterX(width), CenterY(height);
    var n := |ins|;
    NewcomerListed(w, ins[0].now, c, width, height, t);
    NewcomerStaysOnScreen(c, width, height, t, n);
    NewcomerPlays(c, width, height, t, n);
    var w' := Frames(w, ins, width, height);
    assert After(p, cx, cy, n) in PartOf(w', t)
           && multiset(w'.plays)[t] >= multiset(w.plays)[t] + Plays(p, cx, cy, n) by {
      FramesCarryBall(w, ins, width, height, t, p, t);
    }
  }

  /** The new ball plays on each of its first 66 frames. */
  lemma NewcomerPlays(c: Coins, width: nat, height: nat, t: Sound, n: nat)
    requires n <= 66
    ensures Plays(Newcomer(t, c, width, height), CenterX(width), CenterY(height), n) == n
  {
    match t
    case Hihat => SpawnedBallPlays66Frames(t, c.hihat, width, height, n);
    case Snare => SpawnedBallPlays66Frames(t, c.snare, width, height, n);
    case Kick => SpawnedBallPlays66Frames(t, c.kick, width, height, n);
  }

  /** A due poll whose step is set lists part t's new ball. */
  lemma NewcomerListed(w: World<Particle>, now: real, c: Coins, width: nat, height: nat, t: Sound)
    requires Due(w.clock, now, Interval(Bpm)) && Hits(t, w.clock.counter)
    ensures Newcomer(t, c, width, height) in PartOf(Poll(w, now, c, width, height), t)
  {
    PollLaunches(w, now, Bpm, Newcomer(Hihat, c, width, height), Newcomer(Snare, c, width, height), Newcomer(Kick, c, width, height), t);
    match t
    case Hihat =>
    case Snare =>
    case Kick =>
  }

  /** The new ball stays on screen for its first 66 frames on a large
      enough camera frame. */
  lemma NewcomerStaysOnScreen(c: Coins, width: nat, height: nat, t: Sound, n: nat)
    requires width >= 400 && height >= 400 && n <= 66
    ensures forall j :: 1 <= j <= n ==> OnScreen(After(Newcomer(t, c, width, height), CenterX(width), CenterY(height), j).body, width, height)
  {
    forall j | 1 <= j <= n
      ensures OnScreen(After(Newcomer(t, c, width, height), CenterX(width), CenterY(height), j).body, width, height)
    {
      match t
      case Hihat => LaunchStaysOnScreen(t, c.hihat, width, height, j);
      case Snare => LaunchStaysOnScreen(t, c.snare, width, height, j);
      case Kick => LaunchStaysOnScreen(t, c.kick, width, height, j);
    }
  }

  /** The main loop's state: three part collections, the step counter, the
      time of the last beat, and the sounds played so far. */
  class Engine {
    const width: nat
    const height: nat
    var hihat: seq<Ball>
    var snare: seq<Ball>
    var kick: seq<Ball>
    var counter: nat
    var startTime: real
    var plays: seq<Sound>

    ghost predicate Valid()
      reads this
    {
      WellFormed(hihat, snare, kick, SoundOf)
    }

    ghost function View(): World<Particle>
      reads this, hihat, snare, kick
    {
      World(States(hihat), States(snare), States(kick), Clock(counter, startTime), plays)
    }

    /** Empty collections, counter 0, clock started at `startTime`. */
    constructor (width: nat, height: nat, startTime: real)
      ensures Valid()
      ensures View() == World([], [], [], Clock(0, startTime), [])
      ensures this.width == width && this.height == height
    {
      this.width, this.height := width, height;
      hihat, snare, kick := [], [], [];
      counter, this.startTime := 0, startTime;
      plays := [];
    }

    /** The scheduler block, polled at `now`. The balls it launches are
        appended after the existing ones, `nh`, `ns`, `nk` for each part. */
    method Schedule(now: real, c: Coins) returns (ghost nh: seq<Ball>, ghost ns: seq<Ball>, ghost nk: seq<Ball>)
      requires Valid()
      modifies this
      ensures Valid()
      ensures View() == Poll(old(View()), now, c, width, height)
      ensures hihat == old(hihat) + nh && snare == old(snare) + ns && kick == old(kick) + nk
      ensures fresh(nh) && fresh(ns) && fresh(nk)
    {
      nh, ns, nk := [], [], [];
      if now - startTime >= Interval(Bpm) {
        nh, ns, nk := SpawnAll(now, c);
        TakeStep(now);
      }
    }

    /** The three pattern tests of a due beat, hi-hat, snare, kick. */
    method SpawnAll(now: real, c: Coins) returns (ghost nh: seq<Ball>, ghost ns: seq<Ball>, ghost nk: seq<Ball>)
      requires Valid() && Due(Clock(counter, startTime), now, Interval(Bpm))
      modifies this`hihat, this`snare, this`kick
      ensures Valid()
      ensures View() == old(View()).(hihat := Spawned(old(View()).hihat, Hihat, old(View()).clock, now, Bpm, Newcomer(Hihat, c, width, height)),
                                     snare := Spawned(old(View()).snare, Snare, old(View()).clock, now, Bpm, Newcomer(Snare, c, width, height)),
                                     kick := Spawned(old(View()).kick, Kick, old(View()).clock, now, Bpm, Newcomer(Kick, c, width, height)))
      ensures hihat == old(hihat) + nh && snare == old(snare) + ns && kick == old(kick) + nk
      ensures fresh(nh) && fresh(ns) && fresh(nk)
    {
      nh := SpawnOnStep(Hihat, now, c.hihat);
      ns := SpawnOnStep(Snare, now, c.snare);
      nk := SpawnOnStep(Kick, now, c.kick);
    }

    /** One pattern test of a due beat: part `t` gets a new ball, `n`,
        when its pattern step counter % 8 is set. */
    method SpawnOnStep(t: Sound, now: real, coin: Coin) returns (ghost n: seq<Ball>)
      requires Valid() && Due(Clock(counter, startTime), now, Interval(Bpm))
      modifies this`hihat, this`snare, this`kick
      ensures Valid()
      ensures View() == WithPart(old(View()), t, Spawned(PartOf(old(View()), t), t, old(View()).clock, now, Bpm, Launch(BallSpeed, Some(t), coin, width, height)))
      ensures hihat == if t == Hihat then old(hihat) + n else old(hihat)
      ensures snare == if t == Snare then old(snare) + n else old(snare)
      ensures kick == if t == Kick then old(kick) + n else old(kick)
      ensures fresh(n)
    {
      n := [];
      if Pattern(t)[counter % 8] != 0 {
        var b := Append(t, coin);
        n := [b];
      }
    }

    /** The end of a due beat: the interval restarts at `now` and the step
        counter advances by one. */
    method TakeStep(now: real)
      requires Valid()
      modifies this`startTime, this`counter
      ensures Valid()
      ensures View() == old(View()).(clock := Clock(old(counter) + 1, now))
    {
      startTime, counter := now, counter + 1;
      StatesFrame(hihat); StatesFrame(snare); StatesFrame(kick);
    }

    /** The `append` itself: a new ball at the end of part `t`'s collection;
        the other collections and every existing ball are untouched. */
    method Append(t: Sound, coin: Coin) returns (b: Ball)
      requires Valid()
      modifies this`hihat, this`snare, this`kick
      ensures Valid()
      ensures fresh(b)
      ensures hihat == if t == Hihat then old(hihat) + [b] else old(hihat)
      ensures snare == if t == Snare then old(snare) + [b] else old(snare)
      ensures kick == if t == Kick then old(kick) + [b] else old(kick)
      ensures View() == AddTo(old(View()), t, Launch(BallSpeed, Some(t), coin, width, height))
    {
      b := new Ball(BallSpeed, ColorOf(t), Some(t), width, height, coin);
      var h, s, k := hihat, snare, kick;
      match t
      case Hihat =>
        hihat := h + [b];
        assert Valid() by { AppendWellFormed(h, s, k, b, SoundOf, Hihat); }
        StatesAppend(h, [b]);
      case Snare =>
        snare := s + [b];
        assert Valid() by { AppendWellFormed(h, s, k, b, SoundOf, Snare); }
        StatesAppend(s, [b]);
      case Kick =>
        kick := k + [b];
        assert Valid() by { AppendWellFormed(h, s, k, b, SoundOf, Kick); }
        StatesAppend(k, [b]);
      StatesFrame(h); StatesFrame(s); StatesFrame(k);
      assert States([b]) == [b.State()];
    }

    /** The three move-and-check loops of a frame, hi-hat, snare, kick, each
        returning the sounds it started. */
    method MoveAll(cx: real, cy: real) returns (e1: seq<Sound>, e2: seq<Sound>, e3: seq<Sound>)
      requires Valid()
      modifies hihat, snare, kick
      ensures View() == old(View()).(hihat := StepAll(old(View()).hihat, cx, cy),
                                     snare := StepAll(old(View()).snare, cx, cy),
                                     kick := StepAll(old(View()).kick, cx, cy))
      ensures e1 == Emitted(old(View()).hihat, cx, cy)
      ensures e2 == Emitted(old(View()).snare, cx, cy)
      ensures e3 == Emitted(old(View()).kick, cx, cy)
    {
      Apart(hihat, snare, kick, SoundOf);
      e1 := MovePart(hihat, snare, kick, cx, cy);
      e2 := MovePart(snare, hihat, kick, cx, cy);
      e3 := MovePart(kick, hihat, snare, cx, cy);
    }

    /** The cull of a frame's end, applied to each collection. */
    method CullAll()
      requires Valid()
      modifies this`hihat, this`snare, this`kick
      ensures Valid()
      ensures View() == old(View()).(hihat := CullBy(old(View()).hihat, BodyOf, width, height),
                                     snare := CullBy(old(View()).snare, BodyOf, width, height),
                                     kick := CullBy(old(View()).kick, BodyOf, width, height))
    {
      CullWellFormed(hihat, snare, kick, width, height);
      CullAllStates(hihat, snare, kick, width, height);
      var h, s, k := Cull(hihat, width, height), Cull(snare, width, height), Cull(kick, width, height);
      hihat, snare, kick := h, s, k;
      StatesFrame(h); StatesFrame(s); StatesFrame(k);
    }

    /** The second half of a frame: move and check every ball, record
        the sounds started, then cull. */
    method Advance(cx: real, cy: real)
      requires Valid()
      modifies this, hihat, snare, kick
      ensures Valid()
      ensures View() == old(View()).(hihat := CullBy(StepAll(old(View()).hihat, cx, cy), BodyOf, width, height),
                                     snare := CullBy(StepAll(old(View()).snare, cx, cy), BodyOf, width, height),
                                     kick := CullBy(StepAll(old(View()).kick, cx, cy), BodyOf, width, height),
                                     plays := old(plays) + Emitted(old(View()).hihat, cx, cy)
                                              + Emitted(old(View()).snare, cx, cy)
                                              + Emitted(old(View()).kick, cx, cy))
    {
      var e1, e2, e3 := MoveAll(cx, cy);
      Record(e1, e2, e3);
      CullAll();
    }

    /** The sounds a frame started, appended to the log in order. */
    method Record(e1: seq<Sound>, e2: seq<Sound>, e3: seq<Sound>)
      requires Valid()
      modifies this`plays
      ensures Valid()
      ensures View() == old(View()).(plays := old(plays) + e1 + e2 + e3)
    {
      plays := plays + e1 + e2 + e3;
      StatesFrame(hihat); StatesFrame(snare); StatesFrame(kick);
    }

    /** One iteration of the main loop, the drawing left out. The square is
        centred on the screen centre. */
    method Frame(now: real, c: Coins)
      requires Valid()
      modifies this, hihat, snare, kick
      ensures Valid()
      ensures View() == NextWorld(old(View()), now, c, width, height)
    {
      ghost var nh, ns, nk := Schedule(now, c);
      Advance(CenterX(width), CenterY(height));
    }
  }
}

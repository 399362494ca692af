/** The ring engine of beatles_008.py. On every beat the scheduler launches a
    ball from the screen centre into each drum part whose pattern step is set.
    Every frame each ball moves once and may play (see RingBall); finally
    balls that left the screen are dropped. Tempo 60 BPM (one beat per
    second). */
module RingEngine {
  import opened Beat
  import opened Geometry
  import opened Tracks
  import opened RingBall
  import opened Stage

  const Bpm: int := 60


  // ---------------------------------------------------------------------
  // One frame of the whole engine
  // ---------------------------------------------------------------------

  /** The ball the part-`t` constructor builds from the draws for `t`. */
  function Newcomer(t: Sound, d: Draws, scr: Screen): Particle
    requires FairDraws(d)
  {
    Launch(BallSpeed, Some(t), DrawsOf(d, t), scr.width, scr.height, scr.rt2)
  }

  /** The scheduler block at 60 BPM, polled at `now`. */
  function Poll(w: World<Particle>, now: real, d: Draws, scr: Screen): World<Particle>
    requires FairDraws(d)
  {
    Stage.Scheduled(w, now, Bpm, Newcomer(Hihat, d, scr), Newcomer(Snare, d, scr), Newcomer(Kick, d, scr))
  }

  /** One iteration of the main loop: schedule, then move and check every
      ball (hi-hat, snare, kick), then cull each collection. */
  function NextWorld(w: World<Particle>, now: real, d: Draws, scr: Screen): World<Particle>
    requires FairDraws(d)
  {
    var s := Poll(w, now, d, scr);
    var cx, cy := CenterX(scr.width), CenterY(scr.height);
    World(CullBy(StepAll(s.hihat, cx, cy), BodyOf, scr.width, scr.height),
          CullBy(StepAll(s.snare, cx, cy), BodyOf, scr.width, scr.height),
          CullBy(StepAll(s.kick, cx, cy), BodyOf, scr.width, scr.height),
          s.clock,
          w.plays + Emitted(s.hihat, cx, cy) + Emitted(s.snare, cx, cy) + Emitted(s.kick, cx, cy))
  }

  function Armed(w: World<Particle>): nat
  {
    Unplayed(w.hihat) + Unplayed(w.snare) + Unplayed(w.kick)
  }

  /** A poll adds one armed ball to a part exactly when it spawns there. */
  lemma SpawnedUnplayed(ps: seq<Particle>, t: Sound, c: Clock, now: real, p: Particle)
    requires !p.played
    ensures Unplayed(Spawned(ps, t, c, now, Bpm, p)) == Unplayed(ps) + (if Due(c, now, Interval(Bpm)) && Hits(t, c.counter) then 1 else 0)
  {
    if Due(c, now, Interval(Bpm)) && Hits(t, c.counter) {
      UnplayedAppend(ps, p);
    }
  }

  /** Sounds are paid for by latches: over one frame, the sounds played plus
      the balls still armed never exceed the balls armed before plus the
      balls launched. Hence, over a whole run, no ball plays twice. */
  lemma FramePlaysBounded(w: World<Particle>, now: real, d: Draws, scr: Screen)
    requires FairDraws(d)
    ensures var w' := NextWorld(w, now, d, scr);
            |w'.plays| + Armed(w') <= |w.plays| + Armed(w) + NewBalls(w, now, Bpm)
  {
    var s := Poll(w, now, d, scr);
    var cx, cy := CenterX(scr.width), CenterY(scr.height);
    assert Unplayed(s.hihat) + Unplayed(s.snare) + Unplayed(s.kick) == Armed(w) + NewBalls(w, now, Bpm) by {
      SpawnedUnplayed(w.hihat, Hihat, w.clock, now, Newcomer(Hihat, d, scr));
      SpawnedUnplayed(w.snare, Snare, w.clock, now, Newcomer(Snare, d, scr));
      SpawnedUnplayed(w.kick, Kick, w.clock, now, Newcomer(Kick, d, scr));
    }
    PlaysUseUpLatches(s.hihat, cx, cy);
    PlaysUseUpLatches(s.snare, cx, cy);
    PlaysUseUpLatches(s.kick, cx, cy);
    CullKeepsFewerArmed(StepAll(s.hihat, cx, cy), scr.width, scr.height);
    CullKeepsFewerArmed(StepAll(s.snare, cx, cy), scr.width, scr.height);
    CullKeepsFewerArmed(StepAll(s.kick, cx, cy), scr.width, scr.height);
  }

  /** After a frame every collection holds only balls inside the visible
      rectangle. */
  lemma FrameLeavesOnlyVisibleBalls(w: World<Particle>, now: real, d: Draws, scr: Screen)
    requires FairDraws(d)
    ensures var w' := NextWorld(w, now, d, scr);
            forall p :: p in w'.hihat + w'.snare + w'.kick ==> OnScreen(p.body, scr.width, scr.height)
  {
    var s := Poll(w, now, d, scr);
    var cx, cy := CenterX(scr.width), CenterY(scr.height);
    CullByMembers(StepAll(s.hihat, cx, cy), BodyOf, scr.width, scr.height);
    CullByMembers(StepAll(s.snare, cx, cy), BodyOf, scr.width, scr.height);
    CullByMembers(StepAll(s.kick, cx, cy), BodyOf, scr.width, scr.height);
  }

  // ---------------------------------------------------------------------
  // A run of frames
  // ---------------------------------------------------------------------

  /** What one iteration of the main loop reads from outside: the time of
      the poll and the draws for the balls it may launch. */
  datatype Input = Input(now: real, draws: Draws)

  predicate FairInputs(ins: seq<Input>)
  {
    forall i :: 0 <= i < |ins| ==> FairDraws(ins[i].draws)
  }

  /** The world after one main-loop iteration per input, in order. */
  function Frames(w: World<Particle>, ins: seq<Input>, scr: Screen): World<Particle>
    requires FairInputs(ins)
    decreases |ins|
  {
    if ins == [] then w
    else
      var n := |ins| - 1;
      NextWorld(Frames(w, ins[..n], scr), ins[n].now, ins[n].draws, scr)
  }

  /** Part t after a frame is the cull of its moved balls, and the frame's
      log gains at least the sounds part t played. */
  lemma NextPart(w: World<Particle>, now: real, d: Draws, scr: Screen, t: Sound, u: Sound)
    requires FairDraws(d)
    ensures var s, w' := Poll(w, now, d, scr), NextWorld(w, now, d, scr);
            var cx, cy := CenterX(scr.width), CenterY(scr.height);
            && PartOf(w', t) == CullBy(StepAll(PartOf(s, t), cx, cy), BodyOf, scr.width, scr.height)
            && multiset(w'.plays)[u] >= multiset(w.plays)[u] + multiset(Emitted(PartOf(s, t), cx, cy))[u]
  {
  }

  /** A ball listed when a frame's moves begin is still listed after the
      frame, moved once, when the move leaves it on screen; a sound it plays
      in that frame is in the log. */
  lemma FrameCarriesBall(w: World<Particle>, now: real, d: Draws, scr: Screen, t: Sound, q: Particle, u: Sound)
    requires FairDraws(d) && q in PartOf(Poll(w, now, d, scr), t)
    requires OnScreen(Step(q, CenterX(scr.width), CenterY(scr.height)).0.body, scr.width, scr.height)
    ensures var e, w' := Step(q, CenterX(scr.width), CenterY(scr.height)), NextWorld(w, now, d, scr);
            && e.0 in PartOf(w', t)
            && multiset(w'.plays)[u] >= multiset(w.plays)[u] + (if e.1 == Some(u) then 1 else 0)
  {
    var s := Poll(w, now, d, scr);
    var cx, cy := CenterX(scr.width), CenterY(scr.height);
    NextPart(w, now, d, scr, t, u);
    StepAllHas(PartOf(s, t), q, cx, cy);
    CullByMembers(StepAll(PartOf(s, t), cx, cy), BodyOf, scr.width, scr.height);
    if Step(q, cx, cy).1 == Some(u) {
      EmittedHas(PartOf(s, t), q, cx, cy);
    }
  }

  /** A ball listed when the first frame's moves begin, and on screen after
      each of the next n moves, is listed after n frames as its n-th moved
      value, and every sound it played is in the log. */
  lemma {:induction false} FramesCarryBall(w: World<Particle>, ins: seq<Input>, scr: Screen, t: Sound, q: Particle, u: Sound)
    requires FairInputs(ins) && |ins| >= 1
    requires q in PartOf(Poll(w, ins[0].now, ins[0].draws, scr), t)
    requires forall j :: 1 <= j <= |ins| ==> OnScreen(After(q, CenterX(scr.width), CenterY(scr.height), j).body, scr.width, scr.height)
    ensures var cx, cy, w' := CenterX(scr.width), CenterY(scr.height), Frames(w, ins, scr);
            && After(q, cx, cy, |ins|) in PartOf(w', t)
            && multiset(w'.plays)[u] >= multiset(w.plays)[u] + (if q.sound == Some(u) then Plays(q, cx, cy, |ins|) else 0)
    decreases |ins|
  {
    var cx, cy := CenterX(scr.width), CenterY(scr.height);
    var n := |ins| - 1;
    var init := ins[..n];
    var before := Frames(w, init, scr);
    var now, d := ins[n].now, ins[n].draws;
    var q' := After(q, cx, cy, n);
    assert q' in PartOf(Poll(before, now, d, scr), t)
           && multiset(before.plays)[u] >= multiset(w.plays)[u] + (if q.sound == Some(u) then Plays(q, cx, cy, n) else 0) by {
      if n > 0 {
        assert init[0] == ins[0];
        FramesCarryBall(w, init, scr, t, q, u);
        PollKeeps(before, now, Bpm, Newcomer(Hihat, d, scr), Newcomer(Snare, d, scr), Newcomer(Kick, d, scr), t, q');
      }
    }
    var e := Step(q', cx, cy);
    assert q'.sound == q.sound by {
      AfterMoves(q, cx, cy, n);
    }
    assert e.1.Some? ==> e.1 == q.sound;
    var w' := NextWorld(before, now, d, scr);
    assert e.0 in PartOf(w', t) && multiset(w'.plays)[u] >= multiset(before.plays)[u] + (if e.1 == Some(u) then 1 else 0) by {
      assert OnScreen(After(q, cx, cy, n + 1).body, scr.width, scr.height);
      FrameCarriesBall(before, now, d, scr, t, q', u);
    }
    assert Frames(w, ins, scr) == w';
  }

  /** The ring crossing at engine level. On a camera frame at least 410
      pixels wide and high, a ball launched by a due poll is still listed
      on each of its first 48 frames; by frame 48 it has played, and its
      sound is in the log. */
  lemma SpawnedBallPlaysInEngine(w: World<Particle>, ins: seq<Input>, scr: Screen, t: Sound)
    requires FairInputs(ins) && 1 <= |ins| <= 48
    requires scr.rt2 * scr.rt2 == 2.0 && scr.width >= 410 && scr.height >= 410
    requires Due(w.clock, ins[0].now, Interval(Bpm)) && Hits(t, w.clock.counter)
    ensures var p, cx, cy := Newcomer(t, ins[0].draws, scr), CenterX(scr.width), CenterY(scr.height);
            var w' := Frames(w, ins, scr);
            && After(p, cx, cy, |ins|) in PartOf(w', t)
            && (|ins| == 48 ==> After(p, cx, cy, 48).played)
            && multiset(w'.plays)[t] >= multiset(w.plays)[t] + (if |ins| == 48 then 1 else 0)
  {
    var d := ins[0].draws;
    var p, cx, cy := Newcomer(t, d, scr), CenterX(scr.width), CenterY(scr.height);
    var n := |ins|;
    NewcomerListed(w, ins[0].now, d, scr, t);
    NewcomerStaysOnScreen(d, scr, t, n);
    NewcomerPlays(d, scr, t, n);
    var w' := Frames(w, ins, scr);
    assert After(p, cx, cy, n) in PartOf(w', t)
           && multiset(w'.plays)[t] >= multiset(w.plays)[t] + Plays(p, cx, cy, n) by {
      FramesCarryBall(w, ins, scr, t, p, t);
    }
  }

  /** The new ball plays once, on its 48th frame. */
  lemma NewcomerPlays(d: Draws, scr: Screen, t: Sound, n: nat)
    requires FairDraws(d) && scr.rt2 * scr.rt2 == 2.0
    ensures var p, cx, cy := Newcomer(t, d, scr), CenterX(scr.width), CenterY(scr.height);
            && Plays(p, cx, cy, n) == (if n <= 47 then 0 else 1)
            && (n == 48 ==> After(p, cx, cy, 48).played)
  {
    var p, cx, cy := Newcomer(t, d, scr), CenterX(scr.width), CenterY(scr.height);
    SpawnedBallPlaysOnFrame48(t, DrawsOf(d, t), scr.width, scr.height, scr.rt2, n);
    PlaysAtMostOnce(p, cx, cy, n);
  }

  /** A due poll whose step is set lists part t's new ball. */
  lemma NewcomerListed(w: World<Particle>, now: real, d: Draws, scr: Screen, t: Sound)
    requires FairDraws(d) && Due(w.clock, now, Interval(Bpm)) && Hits(t, w.clock.counter)
    ensures Newcomer(t, d, scr) in PartOf(Poll(w, now, d, scr), t)
  {
    PollLaunches(w, now, Bpm, Newcomer(Hihat, d, scr), Newcomer(Snare, d, scr), Newcomer(Kick, d, scr), t);
    match t
    case Hihat =>
    case Snare =>
    case Kick =>
  }

  /** The new ball stays on screen for its first 48 frames on a large
      enough camera frame. */
  lemma NewcomerStaysOnScreen(d: Draws, scr: Screen, t: Sound, n: nat)
    requires FairDraws(d) && n <= 48
    requires scr.rt2 * scr.rt2 == 2.0 && scr.width >= 410 && scr.height >= 410
    ensures forall j :: 1 <= j <= n ==> OnScreen(After(Newcomer(t, d, scr), CenterX(scr.width), CenterY(scr.height), j).body, scr.width, scr.height)
  {
    forall j | 1 <= j <= n
      ensures OnScreen(After(Newcomer(t, d, scr), CenterX(scr.width), CenterY(scr.height), j).body, scr.width, scr.height)
    {
      LaunchStaysOnScreen(t, DrawsOf(d, t), scr.width, scr.height, scr.rt2, j);
    }
  }

  /** The main loop's state: three part collections, the step counter, the
      time of the last beat, and the sounds played so far. */
  class Engine {
    const width: nat
    const height: nat
    const rt2: real
    var hihat: seq<Ball>
    var snare: seq<Ball>
    var kick: seq<Ball>
    var counter: nat
    var startTime: real
    var plays: seq<Sound>

    ghost predicate Valid()
      reads this
    {
      WellFormed(hihat, snare, kick, SoundOf)
    }

    function Config(): Screen
    {
      Screen(width, height, rt2)
    }

    ghost function View(): World<Particle>
      reads this, hihat, snare, kick
    {
      World(States(hihat), States(snare), States(kick), Clock(counter, startTime), plays)
    }

    /** Empty collections, counter 0, clock started at `startTime`. */
    constructor (width: nat, height: nat, rt2: real, startTime: real)
      ensures Valid()
      ensures View() == World([], [], [], Clock(0, startTime), [])
      ensures this.width == width && this.height == height && this.rt2 == rt2
    {
      this.width, this.height, this.rt2 := width, height, rt2;
      hihat, snare, kick := [], [], [];
      counter, this.startTime := 0, startTime;
      plays := [];
    }

    /** The scheduler block, polled at `now`. The balls it launches are
        appended after the existing ones, `nh`, `ns`, `nk` for each part. */
    method Schedule(now: real, d: Draws) returns (ghost nh: seq<Ball>, ghost ns: seq<Ball>, ghost nk: seq<Ball>)
      requires Valid() && FairDraws(d)
      modifies this
      ensures Valid()
      ensures View() == Poll(old(View()), now, d, Config())
      ensures hihat == old(hihat) + nh && snare == old(snare) + ns && kick == old(kick) + nk
      ensures fresh(nh) && fresh(ns) && fresh(nk)
    {
      nh, ns, nk := [], [], [];
      if now - startTime >= Interval(Bpm) {
        nh, ns, nk := SpawnAll(now, d);
        TakeStep(now);
      }
    }

    /** The three pattern tests of a due beat, hi-hat, snare, kick. */
    method SpawnAll(now: real, d: Draws) returns (ghost nh: seq<Ball>, ghost ns: seq<Ball>, ghost nk: seq<Ball>)
      requires Valid() && FairDraws(d) && Due(Clock(counter, startTime), now, Interval(Bpm))
      modifies this`hihat, this`snare, this`kick
      ensures Valid()
      ensures View() == old(View()).(hihat := Spawned(old(View()).hihat, Hihat, old(View()).clock, now, Bpm, Newcomer(Hihat, d, Config())),
                                     snare := Spawned(old(View()).snare, Snare, old(View()).clock, now, Bpm, Newcomer(Snare, d, Config())),
                                     kick := Spawned(old(View()).kick, Kick, old(View()).clock, now, Bpm, Newcomer(Kick, d, Config())))
      ensures hihat == old(hihat) + nh && snare == old(snare) + ns && kick == old(kick) + nk
      ensures fresh(nh) && fresh(ns) && fresh(nk)
    {
      nh := SpawnOnStep(Hihat, now, d.hihat);
      ns := SpawnOnStep(Snare, now, d.snare);
      nk := SpawnOnStep(Kick, now, d.kick);
    }

    /** One pattern test of a due beat: part `t` gets a new ball, `n`,
        when its pattern step counter % 8 is set. */
    method SpawnOnStep(t: Sound, now: real, draws: seq<Draw>) returns (ghost n: seq<Ball>)
      requires Valid() && Fair(draws) && Due(Clock(counter, startTime), now, Interval(Bpm))
      modifies this`hihat, this`snare, this`kick
      ensures Valid()
      ensures View() == WithPart(old(View()), t, Spawned(PartOf(old(View()), t), t, old(View()).clock, now, Bpm, Launch(BallSpeed, Some(t), draws, width, height, rt2)))
      ensures hihat == if t == Hihat then old(hihat) + n else old(hihat)
      ensures snare == if t == Snare then old(snare) + n else old(snare)
      ensures kick == if t == Kick then old(kick) + n else old(kick)
      ensures fresh(n)
    {
      n := [];
      if Pattern(t)[counter % 8] != 0 {
        var b := Append(t, draws);
        n := [b];
      }
    }

    /** The end of a due beat: the interval restarts at `now` and the step
        counter advances by one. */
    method TakeStep(now: real)
      requires Valid()
      modifies this`startTime, this`counter
      ensures Valid()
      ensures View() == old(View()).(clock := Clock(old(counter) + 1, now))
    {
      startTime, counter := now, counter + 1;
      StatesFrame(hihat); StatesFrame(snare); StatesFrame(kick);
    }

    /** The `append` itself: a new ball at the end of part `t`'s collection;
        the other collections and every existing ball are untouched. */
    method Append(t: Sound, draws: seq<Draw>) returns (b: Ball)
      requires Valid() && Fair(draws)
      modifies this`hihat, this`snare, this`kick
      ensures Valid()
      ensures fresh(b)
      ensures hihat == if t == Hihat then old(hihat) + [b] else old(hihat)
      ensures snare == if t == Snare then old(snare) + [b] else old(snare)
      ensures kick == if t == Kick then old(kick) + [b] else old(kick)
      ensures View() == AddTo(old(View()), t, Launch(BallSpeed, Some(t), draws, width, height, rt2))
    {
      b := new Ball(BallSpeed, ColorOf(t), Some(t), width, height, draws, rt2);
      var h, s, k := hihat, snare, kick;
      match t
      case Hihat =>
        hihat := h + [b];
        assert Valid() by { AppendWellFormed(h, s, k, b, SoundOf, Hihat); }
        StatesAppend(h, [b]);
      case Snare =>
        snare := s + [b];
        assert Valid() by { AppendWellFormed(h, s, k, b, SoundOf, Snare); }
        StatesAppend(s, [b]);
      case Kick =>
        kick := k + [b];
        assert Valid() by { AppendWellFormed(h, s, k, b, SoundOf, Kick); }
        StatesAppend(k, [b]);
      StatesFrame(h); StatesFrame(s); StatesFrame(k);
      assert States([b]) == [b.State()];
    }

    /** The three move-and-check loops of a frame, hi-hat, snare, kick, each
        returning the sounds it started. */
    method MoveAll(cx: real, cy: real) returns (e1: seq<Sound>, e2: seq<Sound>, e3: seq<Sound>)
      requires Valid()
      modifies hihat, snare, kick
      ensures View() == old(View()).(hihat := StepAll(old(View()).hihat, cx, cy),
                                     snare := StepAll(old(View()).snare, cx, cy),
                                     kick := StepAll(old(View()).kick, cx, cy))
      ensures e1 == Emitted(old(View()).hihat, cx, cy)
      ensures e2 == Emitted(old(View()).snare, cx, cy)
      ensures e3 == Emitted(old(View()).kick, cx, cy)
    {
      Apart(hihat, snare, kick, SoundOf);
      e1 := MovePart(hihat, snare, kick, cx, cy);
      e2 := MovePart(snare, hihat, kick, cx, cy);
      e3 := MovePart(kick, hihat, snare, cx, cy);
    }

    /** The cull of a frame's end, applied to each collection. */
    method CullAll()
      requires Valid()
      modifies this`hihat, this`snare, this`kick
      ensures Valid()
      ensures View() == old(View()).(hihat := CullBy(old(View()).hihat, BodyOf, width, height),
                                     snare := CullBy(old(View()).snare, BodyOf, width, height),
                                     kick := CullBy(old(View()).kick, BodyOf, width, height))
    {
      CullWellFormed(hihat, snare, kick, width, height);
      CullAllStates(hihat, snare, kick, width, height);
      var h, s, k := Cull(hihat, width, height), Cull(snare, width, height), Cull(kick, width, height);
      hihat, snare, kick := h, s, k;
      StatesFrame(h); StatesFrame(s); StatesFrame(k);
    }

    /** The second half of a frame: move and check every ball, record
        the sounds started, then cull. */
    method Advance(cx: real, cy: real)
      requires Valid()
      modifies this, hihat, snare, kick
      ensures Valid()
      ensures View() == old(View()).(hihat := CullBy(StepAll(old(View()).hihat, cx, cy), BodyOf, width, height),
                                     snare := CullBy(StepAll(old(View()).snare, cx, cy), BodyOf, width, height),
                                     kick := CullBy(StepAll(old(View()).kick, cx, cy), BodyOf, width, height),
                                     plays := old(plays) + Emitted(old(View()).hihat, cx, cy)
                                              + Emitted(old(View()).snare, cx, cy)
                                              + Emitted(old(View()).kick, cx, cy))
    {
      var e1, e2, e3 := MoveAll(cx, cy);
      Record(e1, e2, e3);
      CullAll();
    }

    /** The sounds a frame started, appended to the log in order. */
    method Record(e1: seq<Sound>, e2: seq<Sound>, e3: seq<Sound>)
      requires Valid()
      modifies this`plays
      ensures Valid()
      ensures View() == old(View()).(plays := old(plays) + e1 + e2 + e3)
    {
      plays := plays + e1 + e2 + e3;
      StatesFrame(hihat); StatesFrame(snare); StatesFrame(kick);
    }

    /** One iteration of the main loop, the drawing left out. */
    method Frame(now: real, d: Draws)
      requires Valid() && FairDraws(d)
      modifies this, hihat, snare, kick
      ensures Valid()
      ensures View() == NextWorld(old(View()), now, d, Config())
    {
      ghost var nh, ns, nk := Schedule(now, d);
      Advance(CenterX(width), CenterY(height));
    }
  }
}

/** The move-only engine of beatles_003.py. On every beat the scheduler
    launches a ball from the screen centre into each drum part whose pattern
    step is set; every frame each ball moves once; finally balls that left
    the screen are dropped. No ball is ever played. Tempo 60 BPM. */
module MoveEngine {
  import opened Beat
  import opened Geometry
  import opened Tracks
  import opened Stage
  import opened MoveBall

  const Bpm: int := 60

  /** The ball the part-`t` constructor builds from the draws for `t`. */
  function Newcomer(t: Sound, d: Draws, scr: Screen): Particle
    requires FairDraws(d)
  {
    Launch(BallSpeed, Some(t), DrawsOf(d, t), scr.width, scr.height, scr.rt2)
  }

  /** The scheduler block at 60 BPM, polled at `now`. */
  function Poll(w: World<Particle>, now: real, d: Draws, scr: Screen): World<Particle>
    requires FairDraws(d)
  {
    Scheduled(w, now, Bpm, Newcomer(Hihat, d, scr), Newcomer(Snare, d, scr), Newcomer(Kick, d, scr))
  }

  /** One iteration of the main loop: schedule, then move every ball
      (hi-hat, snare, kick), then cull each collection. */
  function NextWorld(w: World<Particle>, now: real, d: Draws, scr: Screen): World<Particle>
    requires FairDraws(d)
  {
    var s := Poll(w, now, d, scr);
    World(CullBy(StepAll(s.hihat), BodyOf, scr.width, scr.height),
          CullBy(StepAll(s.snare), BodyOf, scr.width, scr.height),
          CullBy(StepAll(s.kick), BodyOf, scr.width, scr.height),
          s.clock,
          w.plays)
  }

  /** A frame keeps exactly the balls that are on screen once moved, each
      moved once, in their order; it plays nothing, and culling its result
      again would change nothing. */
  lemma FrameKeepsMovedVisibleBalls(w: World<Particle>, now: real, d: Draws, scr: Screen, t: Sound)
    requires FairDraws(d)
    ensures var s, w' := Poll(w, now, d, scr), NextWorld(w, now, d, scr);
            && (forall p :: p in PartOf(w', t) <==> p in StepAll(PartOf(s, t)) && OnScreen(p.body, scr.width, scr.height))
            && CullBy(PartOf(w', t), BodyOf, scr.width, scr.height) == PartOf(w', t)
            && w'.plays == w.plays
  {
    var s := Poll(w, now, d, scr);
    CullByMembers(StepAll(PartOf(s, t)), BodyOf, scr.width, scr.height);
    CullIdempotent(StepAll(PartOf(s, t)), BodyOf, scr.width, scr.height);
  }

  /** The main loop's state: three part collections, the step counter and
      the time of the last beat. */
  class Engine {
    const width: nat
    const height: nat
    const rt2: real
    var hihat: seq<Ball>
    var snare: seq<Ball>
    var kick: seq<Ball>
    var counter: nat
    var startTime: real

    ghost predicate Valid()
      reads this
    {
      WellFormed(hihat, snare, kick, SoundOf)
    }

    function Config(): Screen
    {
      Screen(width, height, rt2)
    }

    /** The engine as a value; nothing is ever played. */
    ghost function View(): World<Particle>
      reads this, hihat, snare, kick
    {
      World(States(hihat), States(snare), States(kick), Clock(counter, startTime), [])
    }

    /** Empty collections, counter 0, clock started at `startTime`. */
    constructor (width: nat, height: nat, rt2: real, startTime: real)
      ensures Valid()
      ensures View() == World([], [], [], Clock(0, startTime), [])
      ensures this.width == width && this.height == height && this.rt2 == rt2
    {
      this.width, this.height, this.rt2 := width, height, rt2;
      hihat, snare, kick := [], [], [];
      counter, this.startTime := 0, startTime;
    }

    /** The scheduler block, polled at `now`. The balls it launches are
        appended after the existing ones, `nh`, `ns`, `nk` for each part. */
    method Schedule(now: real, d: Draws) returns (ghost nh: seq<Ball>, ghost ns: seq<Ball>, ghost nk: seq<Ball>)
      requires Valid() && FairDraws(d)
      modifies this
      ensures Valid()
      ensures View() == Poll(old(View()), now, d, Config())
      ensures hihat == old(hihat) + nh && snare == old(snare) + ns && kick == old(kick) + nk
      ensures fresh(nh) && fresh(ns) && fresh(nk)
    {
      nh, ns, nk := [], [], [];
      if now - startTime >= Interval(Bpm) {
        nh, ns, nk := SpawnAll(now, d);
        TakeStep(now);
      }
    }

    /** The three pattern tests of a due beat, hi-hat, snare, kick. */
    method SpawnAll(now: real, d: Draws) returns (ghost nh: seq<Ball>, ghost ns: seq<Ball>, ghost nk: seq<Ball>)
      requires Valid() && FairDraws(d) && Due(Clock(counter, startTime), now, Interval(Bpm))
      modifies this`hihat, this`snare, this`kick
      ensures Valid()
      ensures View() == old(View()).(hihat := Spawned(old(View()).hihat, Hihat, old(View()).clock, now, Bpm, Newcomer(Hihat, d, Config())),
                                     snare := Spawned(old(View()).snare, Snare, old(View()).clock, now, Bpm, Newcomer(Snare, d, Config())),
                                     kick := Spawned(old(View()).kick, Kick, old(View()).clock, now, Bpm, Newcomer(Kick, d, Config())))
      ensures hihat == old(hihat) + nh && snare == old(snare) + ns && kick == old(kick) + nk
      ensures fresh(nh) && fresh(ns) && fresh(nk)
    {
      nh := SpawnOnStep(Hihat, now, d.hihat);
      ns := SpawnOnStep(Snare, now, d.snare);
      nk := SpawnOnStep(Kick, now, d.kick);
    }

    /** One pattern test of a due beat: part `t` gets a new ball, `n`,
        when its pattern step counter % 8 is set. */
    method SpawnOnStep(t: Sound, now: real, draws: seq<Draw>) returns (ghost n: seq<Ball>)
      requires Valid() && Fair(draws) && Due(Clock(counter, startTime), now, Interval(Bpm))
      modifies this`hihat, this`snare, this`kick
      ensures Valid()
      ensures View() == WithPart(old(View()), t, Spawned(PartOf(old(View()), t), t, old(View()).clock, now, Bpm, Launch(BallSpeed, Some(t), draws, width, height, rt2)))
      ensures hihat == if t == Hihat then old(hihat) + n else old(hihat)
      ensures snare == if t == Snare then old(snare) + n else old(snare)
      ensures kick == if t == Kick then old(kick) + n else old(kick)
      ensures fresh(n)
    {
      n := [];
      if Pattern(t)[counter % 8] != 0 {
        var b := Append(t, draws);
        n := [b];
      }
    }

    /** The end of a due beat: the interval restarts at `now` and the step
        counter advances by one. */
    method TakeStep(now: real)
      requires Valid()
      modifies this`startTime, this`counter
      ensures Valid()
      ensures View() == old(View()).(clock := Clock(old(counter) + 1, now))
    {
      startTime, counter := now, counter + 1;
      StatesFrame(hihat); StatesFrame(snare); StatesFrame(kick);
    }

    /** The `append` itself: a new ball at the end of part `t`'s collection;
        the other collections and every existing ball are untouched. */
    method Append(t: Sound, draws: seq<Draw>) returns (b: Ball)
      requires Valid() && Fair(draws)
      modifies this`hihat, this`snare, this`kick
      ensures Valid()
      ensures fresh(b)
      ensures hihat == if t == Hihat then old(hihat) + [b] else old(hihat)
      ensures snare == if t == Snare then old(snare) + [b] else old(snare)
      ensures kick == if t == Kick then old(kick) + [b] else old(kick)
      ensures View() == AddTo(old(View()), t, Launch(BallSpeed, Some(t), draws, width, height, rt2))
    {
      b := new Ball(BallSpeed, ColorOf(t), Some(t), width, height, draws, rt2);
      var h, s, k := hihat, snare, kick;
      match t
      case Hihat =>
        hihat := h + [b];
        assert Valid() by { AppendWellFormed(h, s, k, b, SoundOf, Hihat); }
        StatesAppend(h, [b]);
      case Snare =>
        snare := s + [b];
        assert Valid() by { AppendWellFormed(h, s, k, b, SoundOf, Snare); }
        StatesAppend(s, [b]);
      case Kick =>
        kick := k + [b];
        assert Valid() by { AppendWellFormed(h, s, k, b, SoundOf, Kick); }
        StatesAppend(k, [b]);
      StatesFrame(h); StatesFrame(s); StatesFrame(k);
      assert States([b]) == [b.State()];
    }

    /** The move loop of a frame: every ball of every part, hi-hat, snare,
        kick, moves exactly once. */
    method MoveAll()
      requires Valid()
      modifies hihat, snare, kick
      ensures View() == old(View()).(hihat := StepAll(old(View()).hihat),
                                     snare := StepAll(old(View()).snare),
                                     kick := StepAll(old(View()).kick))
    {
      Apart(hihat, snare, kick, SoundOf);
      MovePart(hihat, snare, kick);
      MovePart(snare, hihat, kick);
      MovePart(kick, hihat, snare);
    }

    /** The cull of a frame's end, applied to each collection. */
    method CullAll()
      requires Valid()
      modifies this`hihat, this`snare, this`kick
      ensures Valid()
      ensures View() == old(View()).(hihat := CullBy(old(View()).hihat, BodyOf, width, height),
                                     snare := CullBy(old(View()).snare, BodyOf, width, height),
                                     kick := CullBy(old(View()).kick, BodyOf, width, height))
    {
      CullWellFormed(hihat, snare, kick, width, height);
      CullAllStates(hihat, snare, kick, width, height);
      var h, s, k := Cull(hihat, width, height), Cull(snare, width, height), Cull(kick, width, height);
      hihat, snare, kick := h, s, k;
      StatesFrame(h); StatesFrame(s); StatesFrame(k);
    }

    /** One iteration of the main loop, the drawing left out. */
    method Frame(now: real, d: Draws)
      requires Valid() && FairDraws(d)
      modifies this, hihat, snare, kick
      ensures Valid()
      ensures View() == NextWorld(old(View()), now, d, Config())
    {
      ghost var nh, ns, nk := Schedule(now, d);
      MoveAll();
      CullAll();
    }
  }
}

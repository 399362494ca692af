/** The state every ball engine shares, independent of what a ball is: three
    part collections, the scheduler clock and the sounds played so far; and
    the scheduler block, which on a due beat appends one new ball to each part
    whose pattern step is set, then restarts the interval and advances the
    step counter. `P` is the engine's value of one ball. */
module Stage {
  import opened Beat
  import opened Geometry

  datatype World<P> = World(hihat: seq<P>, snare: seq<P>, kick: seq<P>, clock: Clock, plays: seq<Sound>)

  /** Random draws for a ball that may be launched into each part. */
  datatype Draws = Draws(hihat: seq<Draw>, snare: seq<Draw>, kick: seq<Draw>)

  predicate FairDraws(d: Draws)
  {
    Fair(d.hihat) && Fair(d.snare) && Fair(d.kick)
  }

  function DrawsOf(d: Draws, t: Sound): seq<Draw>
  {
    match t
    case Hihat => d.hihat
    case Snare => d.snare
    case Kick => d.kick
  }

  /** The frame size read from the camera, and the square root of two. */
  datatype Screen = Screen(width: nat, height: nat, rt2: real)

  function PartOf<P>(w: World<P>, t: Sound): seq<P>
  {
    match t
    case Hihat => w.hihat
    case Snare => w.snare
    case Kick => w.kick
  }

  /** World `w` with part `t`'s collection replaced by `ps`. */
  function WithPart<P>(w: World<P>, t: Sound, ps: seq<P>): World<P>
  {
    match t
    case Hihat => w.(hihat := ps)
    case Snare => w.(snare := ps)
    case Kick => w.(kick := ps)
  }

  /** World `w` with ball `p` appended to part `t`'s collection. */
  function AddTo<P>(w: World<P>, t: Sound, p: P): World<P>
  {
    match t
    case Hihat => w.(hihat := w.hihat + [p])
    case Snare => w.(snare := w.snare + [p])
    case Kick => w.(kick := w.kick + [p])
  }

  /** One of three values, by part. */
  function ByPart<P>(t: Sound, hp: P, sp: P, kp: P): P
  {
    match t
    case Hihat => hp
    case Snare => sp
    case Kick => kp
  }

  /** One part's collection after the scheduler's poll at `now`: `p` is the
      ball its constructor would build. */
  function Spawned<P>(ps: seq<P>, t: Sound, c: Clock, now: real, bpm: int, p: P): seq<P>
    requires bpm > 0
  {
    if Due(c, now, Interval(bpm)) && Hits(t, c.counter) then ps + [p] else ps
  }

  /** The scheduler block at tempo `bpm`, with `hp`, `sp`, `kp` the balls
      the hi-hat, snare and kick constructors would build: spawn by the
      pattern step at counter % 8, then restart the interval and advance
      the counter. */
  function Scheduled<P>(w: World<P>, now: real, bpm: int, hp: P, sp: P, kp: P): World<P>
    requires bpm > 0
  {
    World(Spawned(w.hihat, Hihat, w.clock, now, bpm, hp),
          Spawned(w.snare, Snare, w.clock, now, bpm, sp),
          Spawned(w.kick, Kick, w.clock, now, bpm, kp),
          Tick(w.clock, now, Interval(bpm)),
          w.plays)
  }

  /** How many balls the poll at `now` launches. */
  function NewBalls<P>(w: World<P>, now: real, bpm: int): nat
    requires bpm > 0
  {
    if Due(w.clock, now, Interval(bpm)) then |SpawningParts(w.clock.counter)| else 0
  }

  /** The scheduler block: a due poll appends exactly one new ball at the
      end of each part whose step is set, the one that part's constructor
      builds, and leaves the other parts alone; it takes one step and
      restarts the interval at `now`. A poll that is not due changes
      nothing. Nothing is ever removed, nothing is played, and at most three
      balls are added. */
  lemma SchedulerStep<P>(w: World<P>, now: real, bpm: int, hp: P, sp: P, kp: P, t: Sound)
    requires bpm > 0
    ensures var s := Scheduled(w, now, bpm, hp, sp, kp);
            var before, after := PartOf(w, t), PartOf(s, t);
            && ((Due(w.clock, now, Interval(bpm)) && Hits(t, w.clock.counter)) ==>
                  (&& |after| == |before| + 1 && after[..|before|] == before
                   && after[|before|] == ByPart(t, hp, sp, kp)))
            && (!(Due(w.clock, now, Interval(bpm)) && Hits(t, w.clock.counter)) ==> after == before)
            && s.clock == (if Due(w.clock, now, Interval(bpm)) then Clock(w.clock.counter + 1, now) else w.clock)
            && s.plays == w.plays
            && |s.hihat| + |s.snare| + |s.kick| == |w.hihat| + |w.snare| + |w.kick| + NewBalls(w, now, bpm)
            && NewBalls(w, now, bpm) <= 3
  {
    var s := Scheduled(w, now, bpm, hp, sp, kp);
    var before, after := PartOf(w, t), PartOf(s, t);
    if Due(w.clock, now, Interval(bpm)) && Hits(t, w.clock.counter) {
      assert after[..|before|] == before;
    }
  }

  /** A poll only appends: every ball listed before it is still listed
      after it, in the same part. */
  lemma PollKeeps<P>(w: World<P>, now: real, bpm: int, hp: P, sp: P, kp: P, t: Sound, q: P)
    requires bpm > 0 && q in PartOf(w, t)
    ensures q in PartOf(Scheduled(w, now, bpm, hp, sp, kp), t)
  {
    var after := PartOf(Scheduled(w, now, bpm, hp, sp, kp), t);
    SchedulerStep(w, now, bpm, hp, sp, kp, t);
    if after != PartOf(w, t) {
      assert q in after[..|PartOf(w, t)|];
    }
  }

  /** A due poll whose step is set for part t lists part t's new ball. */
  lemma PollLaunches<P>(w: World<P>, now: real, bpm: int, hp: P, sp: P, kp: P, t: Sound)
    requires bpm > 0 && Due(w.clock, now, Interval(bpm)) && Hits(t, w.clock.counter)
    ensures ByPart(t, hp, sp, kp) in PartOf(Scheduled(w, now, bpm, hp, sp, kp), t)
  {
    SchedulerStep(w, now, bpm, hp, sp, kp, t);
    var before := PartOf(w, t);
    assert PartOf(Scheduled(w, now, bpm, hp, sp, kp), t)[|before|] == ByPart(t, hp, sp, kp);
  }
}

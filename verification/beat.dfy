/** Shared vocabulary of the beat engine: the three drum parts, their 8-step
    rhythm patterns, and the fixed-tempo step clock that decides when a beat
    is taken. Every script of the engine uses the same patterns, colours and
    ball speed; only the tempo differs. */
module Beat {

  datatype Option<T> = None | Some(value: T)

  /** The three drum parts. A part also names its pre-loaded sound clip. */
  datatype Sound = Hihat | Snare | Kick

  /** A colour as the drawing layer takes it: blue, green, red. */
  datatype Color = Color(b: int, g: int, r: int)

  /** One step per eighth: 1 spawns a ball on that step, 0 does not. */
  const HihatBeats: seq<int> := [1, 1, 1, 1, 1, 1, 1, 1]
  const SnareBeats: seq<int> := [0, 0, 1, 0, 0, 0, 1, 0]
  const KickBeats: seq<int> := [1, 0, 0, 0, 1, 1, 0, 0]

  /** Speed given to every spawned ball, in pixels per frame and axis. */
  const BallSpeed: int := 3

  function Pattern(t: Sound): (p: seq<int>)
    ensures |p| == 8
  {
    match t
    case Hihat => HihatBeats
    case Snare => SnareBeats
    case Kick => KickBeats
  }

  function ColorOf(t: Sound): Color
  {
    match t
    case Hihat => Color(193, 185, 90)
    case Snare => Color(98, 193, 90)
    case Kick => Color(90, 124, 193)
  }

  /** Whether part `t` spawns a ball on the beat taken while the step counter
      reads `counter`. The pattern is indexed before the counter is
      incremented, so the first beat reads step 0. A pattern entry counts
      as set when it is nonzero. */
  predicate Hits(t: Sound, counter: nat)
  {
    Pattern(t)[counter % 8] != 0
  }

  /** The parts that spawn on the beat taken at `counter`, in the order the
      scheduler appends to them: hi-hat, snare, kick. */
  function SpawningParts(counter: nat): (r: seq<Sound>)
    ensures |r| <= 3
    ensures forall t :: t in r <==> Hits(t, counter)
    ensures forall i, j :: 0 <= i < j < |r| ==> Rank(r[i]) < Rank(r[j])
  {
    (if Hits(Hihat, counter) then [Hihat] else [])
    + (if Hits(Snare, counter) then [Snare] else [])
    + (if Hits(Kick, counter) then [Kick] else [])
  }

  /** Position of a part in the scheduler's order. */
  function Rank(t: Sound): nat
  {
    match t
    case Hihat => 0
    case Snare => 1
    case Kick => 2
  }

  /** The spacing of beats: 60 / BPM seconds, with true division. */
  function Interval(bpm: int): (r: real)
    requires bpm > 0
    ensures r > 0.0
    ensures r * bpm as real == 60.0
  {
    60.0 / bpm as real
  }

  /** The scheduler state: the step counter and the time of the last beat. */
  datatype Clock = Clock(counter: nat, startTime: real)

  /** The scheduler's guard: at least one interval has elapsed since the
      last beat. */
  predicate Due(c: Clock, now: real, interval: real)
  {
    now - c.startTime >= interval
  }

  /** One poll of the scheduler at time `now`. A due poll takes exactly one
      beat and restarts the interval at `now`; any overshoot is discarded,
      so a late poll drops beats instead of catching up. */
  function Tick(c: Clock, now: real, interval: real): (r: Clock)
    ensures r.counter == c.counter + 1 <==> Due(c, now, interval)
    ensures r.counter == c.counter || r.counter == c.counter + 1
    ensures r.counter != c.counter ==> r.startTime == now
    ensures r.counter == c.counter ==> r == c
  {
    if Due(c, now, interval) then Clock(c.counter + 1, now) else c
  }

  /** The clock after polling at each of `times` in turn. */
  function RunTicks(c: Clock, times: seq<real>, interval: real): Clock
    decreases |times|
  {
    if times == [] then c else RunTicks(Tick(c, times[0], interval), times[1..], interval)
  }

  /** The polls, among `times`, at which a beat was taken. */
  function BeatTimes(c: Clock, times: seq<real>, interval: real): seq<real>
    decreases |times|
  {
    if times == [] then []
    else (if Due(c, times[0], interval) then [times[0]] else [])
         + BeatTimes(Tick(c, times[0], interval), times[1..], interval)
  }

  /** However the polls are spaced, the counter advances by exactly the
      number of beats taken, the first beat comes at least one interval
      after the starting time, consecutive beats are at least one interval
      apart, and the clock ends restarted at the last beat. */
  lemma {:induction false} BeatsAreSpaced(c: Clock, times: seq<real>, interval: real)
    ensures var f := BeatTimes(c, times, interval);
            && RunTicks(c, times, interval).counter == c.counter + |f|
            && (|f| > 0 ==> f[0] - c.startTime >= interval)
            && (forall i :: 0 < i < |f| ==> f[i] - f[i - 1] >= interval)
            && RunTicks(c, times, interval).startTime
               == (if |f| == 0 then c.startTime else f[|f| - 1])
    decreases |times|
  {
    if times != [] {
      var c' := Tick(c, times[0], interval);
      BeatsAreSpaced(c', times[1..], interval);
      var rest := BeatTimes(c', times[1..], interval);
      var f := BeatTimes(c, times, interval);
      if Due(c, times[0], interval) {
        assert f == [times[0]] + rest;
      } else {
        assert f == rest;
      }
    }
  }

  /** A poll repeated at the same instant never takes a second beat: the
      scheduler advances at most one step per poll however late it is. */
  lemma {:induction false} NoCatchUp(c: Clock, now: real, interval: real)
    requires interval > 0.0
    ensures Tick(c, now, interval).counter <= c.counter + 1
    ensures Tick(Tick(c, now, interval), now, interval) == Tick(c, now, interval)
  {
  }
}

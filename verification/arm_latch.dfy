/** The arm-bend sound latch of beatles_001.py. Each camera frame, if a pose
    was detected, the left arm and then the right arm is examined: a bent
    arm (elbow angle below 90 degrees) starts its sound, hi-hat for the left
    arm and snare for the right, once, and locks it until that arm is
    straightened again. Four flags carry the state from frame to frame. The
    elbow angle itself is abstracted to whether the arm is bent. */
module ArmLatch {
  import opened Beat

  /** What one frame's landmarks say: whether each elbow angle is below 90
      degrees. A frame without landmarks is None. */
  datatype Pose = Pose(leftBent: bool, rightBent: bool)

  /** The four flags: the hi-hat is sounding / has been played since the
      left arm was last straight, and the same for the snare. */
  datatype Flags = Flags(isHihatPlaying: bool, hihatPlayed: bool, isSnarePlaying: bool, snarePlayed: bool)

  const Start: Flags := Flags(false, false, false, false)

  /** The flags can only ever be in these states: a sounding part has been
      played, and at most one part sounds at a time. */
  predicate Coherent(f: Flags)
  {
    && (f.isHihatPlaying ==> f.hihatPlayed)
    && (f.isSnarePlaying ==> f.snarePlayed)
    && !(f.isHihatPlaying && f.isSnarePlaying)
  }

  function Emit(e: Option<Sound>): seq<Sound>
  {
    if e.Some? then [e.value] else []
  }

  /** The left-arm block: bent and unlocked plays the hi-hat, cuts the snare
      and locks; bent and locked does nothing; straight unlocks. */
  function LeftArm(f: Flags, bent: bool): (r: (Flags, Option<Sound>))
    ensures r.1.Some? <==> bent && !f.isHihatPlaying && !f.hihatPlayed
    ensures r.1.Some? ==> r.1 == Some(Hihat) && r.0 == f.(isHihatPlaying := true, isSnarePlaying := false, hihatPlayed := true)
    ensures bent && r.1.None? ==> r.0 == f
    ensures !bent ==> r.0 == f.(isHihatPlaying := false, hihatPlayed := false)
    ensures r.0.snarePlayed == f.snarePlayed
  {
    if bent then
      if !f.isHihatPlaying && !f.hihatPlayed then (f.(isHihatPlaying := true, isSnarePlaying := false, hihatPlayed := true), Some(Hihat))
      else (f, None)
    else (f.(isHihatPlaying := false, hihatPlayed := false), None)
  }

  /** The right-arm block, the mirror image with the snare. */
  function RightArm(f: Flags, bent: bool): (r: (Flags, Option<Sound>))
    ensures r.1.Some? <==> bent && !f.isSnarePlaying && !f.snarePlayed
    ensures r.1.Some? ==> r.1 == Some(Snare) && r.0 == f.(isSnarePlaying := true, isHihatPlaying := false, snarePlayed := true)
    ensures bent && r.1.None? ==> r.0 == f
    ensures !bent ==> r.0 == f.(isSnarePlaying := false, snarePlayed := false)
    ensures r.0.hihatPlayed == f.hihatPlayed
  {
    if bent then
      if !f.isSnarePlaying && !f.snarePlayed then (f.(isSnarePlaying := true, isHihatPlaying := false, snarePlayed := true), Some(Snare))
      else (f, None)
    else (f.(isSnarePlaying := false, snarePlayed := false), None)
  }

  /** One frame: without landmarks nothing changes; otherwise the left
      block runs, then the right block on the flags it left. */
  function FrameStep(f: Flags, pose: Option<Pose>): (Flags, seq<Sound>)
  {
    match pose
    case None => (f, [])
    case Some(p) =>
      var l := LeftArm(f, p.leftBent);
      var r := RightArm(l.0, p.rightBent);
      (r.0, Emit(l.1) + Emit(r.1))
  }

  /** The flags and the sounds started after a sequence of frames. */
  function Run(f: Flags, poses: seq<Option<Pose>>): (Flags, seq<Sound>)
    decreases |poses|
  {
    if poses == [] then (f, [])
    else
      var before := Run(f, poses[..|poses| - 1]);
      var step := FrameStep(before.0, poses[|poses| - 1]);
      (step.0, before.1 + step.1)
  }

  /** Every frame keeps the flags coherent. */
  lemma FrameKeepsCoherent(f: Flags, pose: Option<Pose>)
    requires Coherent(f)
    ensures Coherent(FrameStep(f, pose).0)
  {
  }

  /** A frame without landmarks changes no flag and plays nothing. */
  lemma NoPoseNoChange(f: Flags)
    ensures FrameStep(f, None) == (f, [])
  {
  }

  /** In coherent states the "is playing" half of each gate is redundant:
      an arm's sound is unlocked exactly when its played flag is clear. */
  lemma GateIsPlayedFlag(f: Flags)
    requires Coherent(f)
    ensures (!f.isHihatPlaying && !f.hihatPlayed) <==> !f.hihatPlayed
    ensures (!f.isSnarePlaying && !f.snarePlayed) <==> !f.snarePlayed
  {
  }

  /** Within a frame the left block runs first: a frame plays nothing, one
      sound, or the hi-hat followed by the snare, never the reverse. */
  lemma LeftBeforeRight(f: Flags, pose: Option<Pose>)
    ensures FrameStep(f, pose).1 in {[], [Hihat], [Snare], [Hihat, Snare]}
  {
    if pose.Some? {
      var l := LeftArm(f, pose.value.leftBent);
      var r := RightArm(l.0, pose.value.rightBent);
      var e := Emit(l.1) + Emit(r.1);
      if l.1.Some? && r.1.Some? {
        assert e == [Hihat, Snare];
      } else if l.1.Some? {
        assert e == [Hihat];
      } else if r.1.Some? {
        assert e == [Snare];
      } else {
        assert e == [];
      }
    }
  }

  /** A frame with the left arm bent plays the hi-hat exactly when its gate
      is open, and leaves the hi-hat locked either way (for coherent
      flags). */
  lemma BentLeftLocks(f: Flags, right: bool)
    requires Coherent(f)
    ensures var r := FrameStep(f, Some(Pose(true, right)));
            && (Hihat in r.1 <==> !f.isHihatPlaying && !f.hihatPlayed)
            && r.0.hihatPlayed
  {
  }

  /** Playing the hi-hat cuts the snare's "is playing" flag but leaves its
      played flag alone, so a still-bent right arm cannot retrigger the
      snare. */
  lemma HihatKeepsSnareLocked(f: Flags)
    requires f.snarePlayed
    ensures var l := LeftArm(f, true);
            l.1.Some? ==> !l.0.isSnarePlaying && l.0.snarePlayed && RightArm(l.0, true).1.None?
  {
  }

  /** A straight arm re-arms its sound: after a frame with the left arm
      straight, the next frame with it bent plays the hi-hat first. */
  lemma StraightReArms(f: Flags, right: bool, next: Pose)
    requires next.leftBent
    ensures var f' := FrameStep(f, Some(Pose(false, right))).0;
            && !f'.isHihatPlaying && !f'.hihatPlayed
            && FrameStep(f', Some(next)).1[0] == Hihat
  {
  }

  /** The frames of a run in which the left arm is bent or not seen. */
  predicate LeftHeld(poses: seq<Option<Pose>>)
  {
    forall i :: 0 <= i < |poses| ==> poses[i].None? || poses[i].value.leftBent
  }

  predicate RightHeld(poses: seq<Option<Pose>>)
  {
    forall i :: 0 <= i < |poses| ==> poses[i].None? || poses[i].value.rightBent
  }

  /** However long the left arm stays bent (frames without landmarks
      included), the hi-hat plays at most once, and not at all if it was
      already locked; once played it stays locked. */
  lemma {:induction false} HihatOncePerBend(f: Flags, poses: seq<Option<Pose>>)
    requires LeftHeld(poses)
    ensures var r := Run(f, poses);
            && multiset(r.1)[Hihat] <= (if f.hihatPlayed then 0 else 1)
            && (f.hihatPlayed || multiset(r.1)[Hihat] == 1 ==> r.0.hihatPlayed)
    decreases |poses|
  {
    if poses != [] {
      var init := poses[..|poses| - 1];
      assert LeftHeld(init) by {
        forall i | 0 <= i < |init|
          ensures init[i].None? || init[i].value.leftBent
        {
          assert init[i] == poses[i];
        }
      }
      HihatOncePerBend(f, init);
      var before := Run(f, init);
      var step := FrameStep(before.0, poses[|poses| - 1]);
      assert multiset(before.1 + step.1)[Hihat] == multiset(before.1)[Hihat] + multiset(step.1)[Hihat];
    }
  }

  /** The same for the snare and the right arm. */
  lemma {:induction false} SnareOncePerBend(f: Flags, poses: seq<Option<Pose>>)
    requires RightHeld(poses)
    ensures var r := Run(f, poses);
            && multiset(r.1)[Snare] <= (if f.snarePlayed then 0 else 1)
            && (f.snarePlayed || multiset(r.1)[Snare] == 1 ==> r.0.snarePlayed)
    decreases |poses|
  {
    if poses != [] {
      var init := poses[..|poses| - 1];
      assert RightHeld(init) by {
        forall i | 0 <= i < |init|
          ensures init[i].None? || init[i].value.rightBent
        {
          assert init[i] == poses[i];
        }
      }
      SnareOncePerBend(f, init);
      var before := Run(f, init);
      var step := FrameStep(before.0, poses[|poses| - 1]);
      assert multiset(before.1 + step.1)[Snare] == multiset(before.1)[Snare] + multiset(step.1)[Snare];
    }
  }

  /** The script's state: its four module-level flags and the sounds it has
      started, in order. */
  class Drummer {
    var isHihatPlaying: bool
    var hihatPlayed: bool
    var isSnarePlaying: bool
    var snarePlayed: bool
    var plays: seq<Sound>

    function State(): Flags
      reads this
    {
      Flags(isHihatPlaying, hihatPlayed, isSnarePlaying, snarePlayed)
    }

    /** All four flags start false. */
    constructor ()
      ensures State() == Start && plays == []
    {
      isHihatPlaying, hihatPlayed := false, false;
      isSnarePlaying, snarePlayed := false, false;
      plays := [];
    }

    /** One pass of the frame loop, the two arm blocks in order; `pose` is
        None when no landmarks were found. */
    method Frame(pose: Option<Pose>)
      modifies this
      ensures State() == FrameStep(old(State()), pose).0
      ensures plays == old(plays) + FrameStep(old(State()), pose).1
    {
      if pose.Some? {
        if pose.value.leftBent {
          if !isHihatPlaying && !hihatPlayed {
            plays := plays + [Hihat];
            isHihatPlaying := true;
            isSnarePlaying := false;
            hihatPlayed := true;
          }
        } else {
          isHihatPlaying := false;
          hihatPlayed := false;
        }
      }
      if pose.Some? {
        if pose.value.rightBent {
          if !isSnarePlaying && !snarePlayed {
            plays := plays + [Snare];
            isSnarePlaying := true;
            isHihatPlaying := false;
            snarePlayed := true;
          }
        } else {
          isSnarePlaying := false;
          snarePlayed := false;
        }
      }
    }

    /** The frame loop over a sequence of frames. */
    method RunFrames(poses: seq<Option<Pose>>)
      modifies this
      ensures State() == Run(old(State()), poses).0
      ensures plays == old(plays) + Run(old(State()), poses).1
    {
      var i := 0;
      while i < |poses|
        invariant 0 <= i <= |poses|
        invariant State() == Run(old(State()), poses[..i]).0
        invariant plays == old(plays) + Run(old(State()), poses[..i]).1
      {
        Frame(poses[i]);
        assert poses[..i + 1][..i] == poses[..i];
        i := i + 1;
      }
      assert poses[..|poses|] == poses;
    }
  }
}

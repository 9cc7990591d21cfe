/** The push-up rep counter of `PoseGraphic`: a two-field state machine
    (`inDownPhase`, `repCount`) driven by the left shoulder and left elbow
    heights, and the landmark gate in `draw` that feeds it. */
module PoseDetector {
  import opened JavaInts

  /** Margin, in image pixels, by which the shoulder must rise above the elbow
      before a rep is counted. Image Y grows downwards. */
  const Hysteresis: real := 10.0

  /** The counter fields of one `PoseGraphic`. */
  datatype CounterState = CounterState(inDownPhase: bool, repCount: nat)

  /** A fresh `PoseGraphic`: not down, no reps. */
  const Initial: CounterState := CounterState(false, 0)

  /** One `updateRepCount(shoulderY, elbowY)` call on the counter fields. */
  function Step(s: CounterState, shoulderY: real, elbowY: real): (r: CounterState)
    ensures s.repCount <= r.repCount <= s.repCount + 1
  {
    var down := shoulderY > elbowY;
    if !s.inDownPhase && down then
      CounterState(true, s.repCount)
    else if s.inDownPhase && shoulderY < elbowY - Hysteresis then
      CounterState(false, s.repCount + 1)
    else
      s
  }

  /** The heights passed to one `updateRepCount` call. */
  datatype Sample = Sample(shoulderY: real, elbowY: real)

  /** The counter after feeding `frames` in order. */
  function Run(s: CounterState, frames: seq<Sample>): CounterState
    decreases |frames|
  {
    if frames == [] then s
    else Run(Step(s, frames[0].shoulderY, frames[0].elbowY), frames[1..])
  }

  /** The phase changes a call makes: up to down, or down to up with a rep. */
  datatype Transition = EnteredDown | RepCompleted

  function StepTransition(s: CounterState, f: Sample): seq<Transition> {
    var r := Step(s, f.shoulderY, f.elbowY);
    if r == s then []
    else if r.inDownPhase then [EnteredDown]
    else [RepCompleted]
  }

  /** The phase changes made while feeding `frames`, in order. */
  function Transitions(s: CounterState, frames: seq<Sample>): seq<Transition>
    decreases |frames|
  {
    if frames == [] then []
    else
      var f := frames[0];
      StepTransition(s, f) + Transitions(Step(s, f.shoulderY, f.elbowY), frames[1..])
  }

  function CountEntered(t: seq<Transition>): nat {
    if t == [] then 0
    else (if t[0] == EnteredDown then 1 else 0) + CountEntered(t[1..])
  }

  // ---------------------------------------------------------------------------
  // Properties of one call
  // ---------------------------------------------------------------------------

  /** The count goes up exactly when the call starts down and the shoulder is
      more than the margin above the elbow; that call also returns to up. */
  lemma StepCountsIff(s: CounterState, shoulderY: real, elbowY: real)
    ensures var r := Step(s, shoulderY, elbowY);
      (r.repCount == s.repCount + 1 <==> s.inDownPhase && shoulderY < elbowY - Hysteresis)
      && (r.repCount == s.repCount + 1 ==> !r.inDownPhase)
  {
  }

  /** In the up phase, a shoulder below the elbow enters the down phase and
      leaves the count alone. */
  lemma StepEntersDown(s: CounterState, shoulderY: real, elbowY: real)
    requires !s.inDownPhase && shoulderY > elbowY
    ensures Step(s, shoulderY, elbowY) == CounterState(true, s.repCount)
  {
  }

  /** Every other observation is a self-loop. */
  lemma StepSelfLoop(s: CounterState, shoulderY: real, elbowY: real)
    requires (!s.inDownPhase && shoulderY <= elbowY)
          || (s.inDownPhase && shoulderY >= elbowY - Hysteresis)
    ensures Step(s, shoulderY, elbowY) == s
  {
  }

  /** Feeding the same heights twice equals feeding them once; this rests on
      the margin being non-negative. */
  lemma StepIdempotent(s: CounterState, shoulderY: real, elbowY: real)
    ensures var r := Step(s, shoulderY, elbowY);
      Step(r, shoulderY, elbowY) == r
  {
  }

  // ---------------------------------------------------------------------------
  // Properties of a run
  // ---------------------------------------------------------------------------

  /** The count never decreases, and grows by at most one per frame. */
  lemma {:induction false} RunMonotone(s: CounterState, frames: seq<Sample>)
    ensures s.repCount <= Run(s, frames).repCount <= s.repCount + |frames|
    decreases |frames|
  {
    if frames != [] {
      RunMonotone(Step(s, frames[0].shoulderY, frames[0].elbowY), frames[1..]);
    }
  }

  /** Phase changes alternate: starting up, the even-numbered changes enter
      the down phase and the odd-numbered ones complete a rep; the final phase
      is the starting one flipped once per change. */
  lemma {:induction false} TransitionsAlternate(s: CounterState, frames: seq<Sample>)
    ensures var t := Transitions(s, frames);
      && (forall i :: 0 <= i < |t| ==> (t[i] == EnteredDown <==> (i % 2 == 0) != s.inDownPhase))
      && Run(s, frames).inDownPhase == (s.inDownPhase != (|t| % 2 == 1))
    decreases |frames|
  {
    if frames != [] {
      var f := frames[0];
      var s' := Step(s, f.shoulderY, f.elbowY);
      TransitionsAlternate(s', frames[1..]);
      var h := StepTransition(s, f);
      var rest := Transitions(s', frames[1..]);
      var t := Transitions(s, frames);
      assert t == h + rest;
      if h != [] {
        assert s'.inDownPhase == !s.inDownPhase;
        assert h[0] == EnteredDown <==> !s.inDownPhase;
        forall i | 0 <= i < |t|
          ensures t[i] == EnteredDown <==> (i % 2 == 0) != s.inDownPhase
        {
          if i > 0 {
            assert t[i] == rest[i - 1];
            assert ((i - 1) % 2 == 0) == !(i % 2 == 0);
          }
        }
        assert (|t| % 2 == 1) == !(|rest| % 2 == 1);
      }
    }
  }

  /** The count after a run equals the number of up-to-down entries, less one
      while the machine is still down (counted relative to the start). */
  lemma {:induction false} RunCountsEntries(s: CounterState, frames: seq<Sample>)
    ensures var r := Run(s, frames);
      r.repCount + (if r.inDownPhase then 1 else 0)
        == s.repCount + (if s.inDownPhase then 1 else 0) + CountEntered(Transitions(s, frames))
    decreases |frames|
  {
    if frames != [] {
      var f := frames[0];
      var s' := Step(s, f.shoulderY, f.elbowY);
      RunCountsEntries(s', frames[1..]);
      var h := StepTransition(s, f);
      var rest := Transitions(s', frames[1..]);
      CountEnteredAppend(h, rest);
    }
  }

  lemma {:induction false} CountEnteredAppend(a: seq<Transition>, b: seq<Transition>)
    ensures CountEntered(a + b) == CountEntered(a) + CountEntered(b)
    decreases |a|
  {
    if a == [] {
      assert a + b == b;
    } else {
      assert (a + b)[0] == a[0];
      assert (a + b)[1..] == a[1..] + b;
      CountEnteredAppend(a[1..], b);
    }
  }

  /** From a fresh counter: reps == entries into the down phase, minus one
      if currently down. */
  lemma FreshRunCount(frames: seq<Sample>)
    ensures var r := Run(Initial, frames);
      r.repCount == CountEntered(Transitions(Initial, frames)) - (if r.inDownPhase then 1 else 0)
  {
    RunCountsEntries(Initial, frames);
  }

  /** Jitter that never clears the margin cannot complete a rep once down. */
  lemma {:induction false} JitterWhileDownIsIgnored(s: CounterState, frames: seq<Sample>)
    requires s.inDownPhase
    requires forall i :: 0 <= i < |frames| ==> frames[i].shoulderY >= frames[i].elbowY - Hysteresis
    ensures Run(s, frames) == s
    decreases |frames|
  {
    if frames != [] {
      assert Step(s, frames[0].shoulderY, frames[0].elbowY) == s;
      JitterWhileDownIsIgnored(s, frames[1..]);
    }
  }

  // ---------------------------------------------------------------------------
  // Landmarks and the class
  // ---------------------------------------------------------------------------

  datatype LandmarkType =
    | LeftShoulder | RightShoulder | LeftElbow | RightElbow | LeftHip | RightHip
    | OtherLandmark(id: int)

  datatype Point3D = Point3D(x: real, y: real, z: real)

  datatype PoseLandmark = PoseLandmark(landmarkType: LandmarkType, position: Point3D)

  /** The detector's output for one frame; `allPoseLandmarks` is `landmarks`. */
  datatype Pose = Pose(landmarks: seq<PoseLandmark>)

  /** `pose.getPoseLandmark(type)`: the landmark of that type, or null. */
  function GetPoseLandmark(pose: Pose, t: LandmarkType): (r: Option<PoseLandmark>)
    ensures r.Some? ==> r.value in pose.landmarks && r.value.landmarkType == t
    ensures r.None? <==> forall l :: l in pose.landmarks ==> l.landmarkType != t
    decreases |pose.landmarks|
  {
    if pose.landmarks == [] then None
    else if pose.landmarks[0].landmarkType == t then Some(pose.landmarks[0])
    else GetPoseLandmark(Pose(pose.landmarks[1..]), t)
  }

  /** The six landmarks whose `drawLine` calls dereference them with `!!`. */
  predicate HasDrawnLandmarks(pose: Pose) {
    && GetPoseLandmark(pose, LeftShoulder).Some?
    && GetPoseLandmark(pose, RightShoulder).Some?
    && GetPoseLandmark(pose, LeftHip).Some?
    && GetPoseLandmark(pose, RightHip).Some?
    && GetPoseLandmark(pose, LeftElbow).Some?
    && GetPoseLandmark(pose, RightElbow).Some?
  }

  /** How one `draw` call ends: an early return on an empty pose, a
      `NullPointerException` from `!!`, or the rep count text drawn. */
  datatype DrawOutcome = EmptyPose | NullLandmark | Drawn(shownReps: nat)

  class PoseGraphic {
    const pose: Pose
    var inDownPhase: bool
    var repCount: nat

    function State(): CounterState
      reads this
    {
      CounterState(inDownPhase, repCount)
    }

    constructor (pose: Pose)
      ensures this.pose == pose
      ensures State() == Initial
    {
      this.pose := pose;
      inDownPhase := false;
      repCount := 0;
    }

    method UpdateRepCount(shoulderY: real, elbowY: real)
      modifies this
      ensures State() == Step(old(State()), shoulderY, elbowY)
    {
      var down := shoulderY > elbowY;
      // The first `if` of the source only logs.
      if !inDownPhase && down {
        inDownPhase := true;
      } else if inDownPhase && shoulderY < elbowY - Hysteresis {
        inDownPhase := false;
        repCount := repCount + 1;
      }
    }

    /** The counter-relevant part of `draw`. */
    method Draw() returns (outcome: DrawOutcome)
      modifies this
      ensures pose.landmarks == [] ==> outcome == EmptyPose && State() == old(State())
      ensures pose.landmarks != [] && !HasDrawnLandmarks(pose) ==>
        outcome == NullLandmark && State() == old(State())
      ensures pose.landmarks != [] && HasDrawnLandmarks(pose) ==>
        && State() == Step(old(State()),
                           GetPoseLandmark(pose, LeftShoulder).value.position.y,
                           GetPoseLandmark(pose, LeftElbow).value.position.y)
        && outcome == Drawn(repCount)
    {
      if |pose.landmarks| == 0 {
        return EmptyPose;
      }
      var leftShoulder := GetPoseLandmark(pose, LeftShoulder);
      var rightShoulder := GetPoseLandmark(pose, RightShoulder);
      var leftElbow := GetPoseLandmark(pose, LeftElbow);
      var rightElbow := GetPoseLandmark(pose, RightElbow);
      var leftHip := GetPoseLandmark(pose, LeftHip);
      var rightHip := GetPoseLandmark(pose, RightHip);
      // drawLine dereferences both ends with `!!`, in this order.
      if leftShoulder.None? || rightShoulder.None? {
        return NullLandmark;
      }
      if leftHip.None? || rightHip.None? {
        return NullLandmark;
      }
      if leftElbow.None? || rightElbow.None? {
        return NullLandmark;
      }
      UpdateRepCount(leftShoulder.value.position.y, leftElbow.value.position.y);
      outcome := Drawn(repCount);
    }
  }
}

/**
 * The state machine inside RotatingBehaviour, written as functions over a
 * value that holds every field the component reads or writes. The class in
 * module Components is proved against these functions; the lemmas here
 * state what one frame, and any number of frames, do to that state.
 */
module KeyframeOscillator {
  import opened Vectors
  import opened Easing

  /** The rotation speed a component starts with: (0, 0, 30) degrees per second. */
  const DefaultRotationSpeed: Vec3 := Vec3(0.0, 0.0, 30.0)

  /** std::abs on a float. */
  function Abs(x: real): real { if x < 0.0 then -x else x }

  /** Every field of the component that has behaviour. */
  datatype Oscillator = Oscillator(
    rotationSpeed: Vec3,
    timer: real,
    startTime: real,
    timeStored: real,
    speed: real,
    keypoints: seq<real>,
    journeyLength: real,
    keyframe: int)

  /** The state both constructors leave, the default one with a start time of 0. */
  function Initial(startTime: real): Oscillator
  {
    Oscillator(DefaultRotationSpeed, 1.0, startTime, 0.0, 1.0, [], 0.0, 0)
  }

  /**
   * What a frame needs: at least two keypoints, a keyframe index inside the
   * list, and a journey length it can divide by.
   */
  predicate Valid(b: Oscillator)
  {
    && |b.keypoints| >= 2
    && 0 <= b.keyframe < |b.keypoints|
    && b.journeyLength != 0.0
  }

  /** The shape Awake gives a freshly constructed component: keypoints [z, z + 2, z]. */
  predicate Oscillating(b: Oscillator)
  {
    && Valid(b)
    && |b.keypoints| == 3
    && b.keypoints[1] == b.keypoints[0] + 2.0
    && b.keypoints[2] == b.keypoints[0]
    && b.journeyLength == 2.0
  }

  /**
   * Awake: push the owner's z, z + 2 and z onto the keypoints, then measure
   * the journey length between the keypoint at the current index and the
   * next one.
   */
  function Activate(b: Oscillator, ownerPosition: Vec3): Oscillator
    requires 0 <= b.keyframe < |b.keypoints| + 2
  {
    var z := ownerPosition.z;
    var keypoints := b.keypoints + [z, z + 2.0, z];
    b.(keypoints := keypoints,
       journeyLength := Abs(keypoints[b.keyframe] - keypoints[b.keyframe + 1]))
  }

  /**
   * Awake on a component with no keypoints yet and index 0 samples
   * [z, z + 2, z] and a journey length of 2, and touches nothing else.
   */
  lemma ActivateEmpty(b: Oscillator, ownerPosition: Vec3)
    requires b.keypoints == [] && b.keyframe == 0
    ensures var a := Activate(b, ownerPosition);
      && Oscillating(a)
      && a.keypoints == [ownerPosition.z, ownerPosition.z + 2.0, ownerPosition.z]
      && a == b.(keypoints := a.keypoints, journeyLength := 2.0)
  {
  }

  /** Both constructors leave a component that Awake puts into the oscillating shape. */
  lemma ActivateInitial(startTime: real, ownerPosition: Vec3)
    ensures Oscillating(Activate(Initial(startTime), ownerPosition))
    ensures Activate(Initial(startTime), ownerPosition).startTime == startTime
  {
  }

  /** The journey fraction of a frame of length `dt`, measured on the advanced timer. */
  function Fraction(b: Oscillator, dt: real): real
    requires b.journeyLength != 0.0
  {
    var distCovered := (b.timer + dt - b.startTime - b.timeStored) * b.speed;
    distCovered / b.journeyLength
  }

  /**
   * The keyframe index after the wrap check that runs before the keypoints
   * are read: the last index goes back to 0, any other index stays.
   */
  function WrappedKeyframe(b: Oscillator): (k: int)
    requires Valid(b)
    ensures 0 <= k && k + 1 < |b.keypoints|
    ensures b.keyframe < |b.keypoints| - 1 ==> k == b.keyframe
    ensures b.keyframe == |b.keypoints| - 1 ==> k == 0
  {
    if b.keyframe == |b.keypoints| - 1 then 0 else b.keyframe
  }

  /** The keyframe half of a frame: the new state and the owner's new position. */
  datatype Motion = Motion(next: Oscillator, position: Vec3)

  /**
   * The keyframe half of Update(deltaTime): advance the timer, wrap the
   * index, ease the journey fraction, interpolate the owner's z between the
   * two keypoints of the current segment, and on completion of the segment
   * record the time consumed and move on to the next keypoint.
   */
  function Glide(b: Oscillator, dt: real, position: Vec3): (m: Motion)
    requires Valid(b)
    ensures Valid(m.next)
  {
    var timer := b.timer + dt;
    var fraction := Fraction(b, dt);
    var k := WrappedKeyframe(b);
    var z := Lerp(b.keypoints[k], b.keypoints[k + 1], SlowInOut(fraction));
    var completed := fraction >= 1.0 && k != |b.keypoints| - 1;
    Motion(
      b.(timer := timer,
         timeStored := if completed then timer - b.startTime else b.timeStored,
         keyframe := if completed then k + 1 else k),
      Vec3(position.x, position.y, z))
  }

  /** The rotation half of Update(deltaTime): integrate a constant angular velocity. */
  function Spin(rotation: Vec3, rotationSpeed: Vec3, dt: real): Vec3
  {
    Add(rotation, Scale(rotationSpeed, dt))
  }

  /** What one frame returns: the new state and the owner's new rotation and position. */
  datatype Frame = Frame(next: Oscillator, rotation: Vec3, position: Vec3)

  /** Update(deltaTime): the rotation and the keyframe motion of one frame. */
  function Tick(b: Oscillator, dt: real, rotation: Vec3, position: Vec3): (f: Frame)
    requires Valid(b)
    ensures Valid(f.next)
  {
    var m := Glide(b, dt, position);
    Frame(m.next, Spin(rotation, b.rotationSpeed, dt), m.position)
  }

  /**
   * A frame advances the timer by exactly `dt` and changes no field other
   * than the timer, the stored time and the index.
   */
  lemma GlideClock(b: Oscillator, dt: real, position: Vec3)
    requires Valid(b)
    ensures var m := Glide(b, dt, position);
      && m.next.timer == b.timer + dt
      && m.next == b.(timer := m.next.timer, timeStored := m.next.timeStored, keyframe := m.next.keyframe)
  {
  }

  /**
   * Segment completion: when the fraction reaches 1 the stored time becomes
   * the time since the start and the (wrapped) index moves on by one;
   * otherwise the stored time is kept and the index is the wrapped one.
   */
  lemma GlideCompletion(b: Oscillator, dt: real, position: Vec3)
    requires Valid(b)
    ensures var m := Glide(b, dt, position);
      if Fraction(b, dt) >= 1.0 then
        m.next.timeStored == b.timer + dt - b.startTime && m.next.keyframe == WrappedKeyframe(b) + 1
      else
        m.next.timeStored == b.timeStored && m.next.keyframe == WrappedKeyframe(b)
  {
  }

  /**
   * The completion test `keyframe != size - 1` never fails: after the wrap
   * the index is never the last one, so only the fraction decides.
   */
  lemma CompletionIndexTestHolds(b: Oscillator)
    requires Valid(b)
    ensures WrappedKeyframe(b) != |b.keypoints| - 1
  {
  }

  /**
   * The wrap has to come before the read: a completed segment can leave the
   * index on the last keypoint, where `keypoints[keyframe + 1]` would be
   * past the end of the list.
   */
  lemma CompletionReachesLastIndex(b: Oscillator, dt: real, position: Vec3)
    requires Valid(b) && b.keyframe == |b.keypoints| - 2 && Fraction(b, dt) >= 1.0
    ensures Glide(b, dt, position).next.keyframe + 1 == |b.keypoints|
  {
  }

  /**
   * The owner's x and y pass through a frame untouched, and its new z lies
   * between the two keypoints of the segment in use, whatever the fraction.
   */
  lemma GlidePosition(b: Oscillator, dt: real, position: Vec3)
    requires Valid(b)
    ensures var m := Glide(b, dt, position);
      var k := WrappedKeyframe(b);
      && m.position.x == position.x && m.position.y == position.y
      && Min(b.keypoints[k], b.keypoints[k + 1]) <= m.position.z <= Max(b.keypoints[k], b.keypoints[k + 1])
  {
    var k := WrappedKeyframe(b);
    LerpBetween(b.keypoints[k], b.keypoints[k + 1], SlowInOut(Fraction(b, dt)));
  }

  /**
   * After Awake the keypoints keep their shape from frame to frame, the
   * index stays in {0, 1, 2}, and the owner's z stays within [z0, z0 + 2].
   */
  lemma GlideOscillating(b: Oscillator, dt: real, position: Vec3)
    requires Oscillating(b)
    ensures var m := Glide(b, dt, position);
      && Oscillating(m.next)
      && m.next.keypoints == b.keypoints
      && 0 <= m.next.keyframe <= 2
      && b.keypoints[0] <= m.position.z <= b.keypoints[0] + 2.0
  {
    GlidePosition(b, dt, position);
  }

  /** Both segments of [z, z + 2, z] span the journey length measured on the first one. */
  lemma SegmentsMatchJourneyLength(b: Oscillator)
    requires Oscillating(b)
    ensures Abs(b.keypoints[0] - b.keypoints[1]) == b.journeyLength
    ensures Abs(b.keypoints[1] - b.keypoints[2]) == b.journeyLength
  {
  }

  /**
   * The timer starts at 1, so the first frame after Awake already measures
   * a fraction of (1 + dt - startTime) / 2 into the first segment.
   */
  lemma FirstFrameFraction(startTime: real, ownerPosition: Vec3, dt: real)
    ensures var b := Activate(Initial(startTime), ownerPosition);
      Valid(b) && Fraction(b, dt) == (1.0 + dt - startTime) / 2.0
  {
  }

  /** The sum of the frame lengths. */
  function Sum(ds: seq<real>): real
  {
    if ds == [] then 0.0 else ds[0] + Sum(ds[1..])
  }

  /** The frames the host runs, one per entry of `ds`, in order. */
  function Run(b: Oscillator, ds: seq<real>, rotation: Vec3, position: Vec3): (f: Frame)
    requires Valid(b)
    ensures Valid(f.next)
    decreases |ds|
  {
    if ds == [] then Frame(b, rotation, position)
    else
      var f := Tick(b, ds[0], rotation, position);
      Run(f.next, ds[1..], f.rotation, f.position)
  }

  /**
   * After any sequence of frames the rotation is the initial rotation plus
   * the angular velocity times the total elapsed time, and the timer has
   * advanced by that same total.
   */
  lemma {:induction false} RunRotation(b: Oscillator, ds: seq<real>, rotation: Vec3, position: Vec3)
    requires Valid(b)
    decreases |ds|
    ensures var f := Run(b, ds, rotation, position);
      && f.rotation == Spin(rotation, b.rotationSpeed, Sum(ds))
      && f.next.timer == b.timer + Sum(ds)
      && f.next.rotationSpeed == b.rotationSpeed
  {
    if ds == [] {
      assert Scale(b.rotationSpeed, 0.0) == Vec3(0.0, 0.0, 0.0);
    } else {
      var f := Tick(b, ds[0], rotation, position);
      GlideClock(b, ds[0], position);
      RunRotation(f.next, ds[1..], f.rotation, f.position);
      AddScaleMerge(rotation, b.rotationSpeed, ds[0], Sum(ds[1..]));
    }
  }

  /**
   * Starting from the shape Awake leaves, every frame keeps the owner's z
   * within [z0, z0 + 2] and leaves its x and y as they were.
   */
  lemma {:induction false} RunStaysInRange(b: Oscillator, ds: seq<real>, rotation: Vec3, position: Vec3)
    requires Oscillating(b)
    requires ds != [] || b.keypoints[0] <= position.z <= b.keypoints[0] + 2.0
    decreases |ds|
    ensures var f := Run(b, ds, rotation, position);
      && Oscillating(f.next)
      && f.next.keypoints == b.keypoints
      && f.position.x == position.x && f.position.y == position.y
      && b.keypoints[0] <= f.position.z <= b.keypoints[0] + 2.0
  {
    if ds != [] {
      var f := Tick(b, ds[0], rotation, position);
      GlideOscillating(b, ds[0], position);
      GlidePosition(b, ds[0], position);
      RunStaysInRange(f.next, ds[1..], f.rotation, f.position);
    }
  }

  /** Each one-second frame at the default speed turns the owner 30 degrees about z. */
  lemma DefaultSpinPerSecond(rotation: Vec3)
    ensures Spin(rotation, DefaultRotationSpeed, 1.0) == Vec3(rotation.x, rotation.y, rotation.z + 30.0)
  {
  }
}

/**
 * RotatingBehaviour as the component the engine holds: its fields are
 * updated in place by Awake and Update. The owner's transform is passed in
 * and the new rotation and position are handed back, instead of going
 * through the game object's getters and setters. Each method is specified
 * by the functions of module KeyframeOscillator.
 */
module Components {
  import opened Vectors
  import opened Easing
  import opened KeyframeOscillator
  import opened Persistence

  class RotatingBehaviour {
    var rotationSpeed: Vec3
    var timer: real
    var startTime: real
    var timeStored: real
    var speed: real
    var keypoints: seq<real>
    var journeyLength: real
    var keyframe: int

    /** The component's fields as one value. */
    function State(): Oscillator
      reads this
    {
      Oscillator(rotationSpeed, timer, startTime, timeStored, speed, keypoints, journeyLength, keyframe)
    }

    /** The constructor taking a start time. */
    constructor (startTime: real)
      ensures State() == Initial(startTime)
    {
      rotationSpeed := DefaultRotationSpeed;
      this.startTime := startTime;
      timeStored := 0.0;
      keyframe := 0;
      speed := 1.0;
      journeyLength := 0.0;
      timer := 1.0;
      keypoints := [];
    }

    /** The default constructor: a start time of 0. */
    constructor Default()
      ensures State() == Initial(0.0)
    {
      rotationSpeed := DefaultRotationSpeed;
      startTime := 0.0;
      timeStored := 0.0;
      keyframe := 0;
      speed := 1.0;
      journeyLength := 0.0;
      timer := 1.0;
      keypoints := [];
    }

    /**
     * Awake: sample the owner's z three times into the keypoints and
     * measure the journey length of the segment at the current index.
     */
    method Awake(ownerPosition: Vec3)
      requires 0 <= keyframe < |keypoints| + 2
      modifies this
      ensures State() == Activate(old(State()), ownerPosition)
      ensures old(keypoints) == [] && keyframe == 0 ==> Oscillating(State())
    {
      keypoints := keypoints + [ownerPosition.z];
      keypoints := keypoints + [ownerPosition.z + 2.0];
      keypoints := keypoints + [ownerPosition.z];
      journeyLength := Abs(keypoints[keyframe] - keypoints[keyframe + 1]);
    }

    /**
     * Update(deltaTime): turn the owner, advance the timer, wrap the index
     * before it is used, move the owner's z along the eased segment, and
     * on completion of the segment store the time and advance the index.
     */
    method Update(deltaTime: real, rotation: Vec3, position: Vec3) returns (newRotation: Vec3, newPosition: Vec3)
      requires Valid(State())
      modifies this
      ensures Valid(State())
      ensures newRotation == Spin(rotation, old(rotationSpeed), deltaTime)
      ensures Motion(State(), newPosition) == Glide(old(State()), deltaTime, position)
    {
      ghost var before := State();
      newRotation := Add(rotation, Scale(rotationSpeed, deltaTime));

      timer := timer + deltaTime;
      var distCovered := (timer - startTime - timeStored) * speed;
      var fractionOfJourney := distCovered / journeyLength;
      assert fractionOfJourney == Fraction(before, deltaTime);

      if keyframe == |keypoints| - 1 {
        keyframe := 0;
      }
      assert keyframe == WrappedKeyframe(before);

      var sqt := fractionOfJourney * fractionOfJourney;
      EaseDenominatorPositive(fractionOfJourney);
      var slowInOut := sqt / (2.0 * (sqt - fractionOfJourney) + 1.0);
      assert slowInOut == SlowInOut(fractionOfJourney);

      newPosition := Vec3(position.x, position.y, Lerp(keypoints[keyframe], keypoints[keyframe + 1], slowInOut));

      if fractionOfJourney >= 1.0 && keyframe != |keypoints| - 1 {
        timeStored := timer - startTime;
        keyframe := keyframe + 1;
      }
    }

    /** ToJson: the record of the rotation speed, which reads back as that speed. */
    function ToJson(): (record: SpeedRecord)
      reads this
      ensures record.speed == Some(rotationSpeed)
      ensures RotationSpeedOf(record) == rotationSpeed
    {
      Serialize(rotationSpeed)
    }

    /** FromJson: a default-constructed component whose rotation speed comes from the record. */
    static method FromJson(record: SpeedRecord) returns (result: RotatingBehaviour)
      ensures fresh(result)
      ensures result.State() == Initial(0.0).(rotationSpeed := RotationSpeedOf(record))
    {
      result := new RotatingBehaviour.Default();
      result.rotationSpeed := RotationSpeedOf(record);
    }
  }
}

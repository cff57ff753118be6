# RotatingBehaviour: a verified model

RotatingBehaviour is a per-frame gameplay component of the OTTER engine. Each frame it does two things to the game object that owns it:

- It turns the object at a constant angular velocity (`RotationSpeed`, by default (0, 0, 30) degrees per second).
- It moves the object's z coordinate back and forth along a path of three keypoints, `[z, z + 2, z]`. The path is sampled from the object's position when the component wakes. Travel along each segment follows a quadratic slow-in/slow-out ease.

The model has five modules:

- `Vectors`: `glm::vec3` as a datatype over the reals, with component-wise addition and scaling.
- `Easing`: the scalar `Lerp` and the ease `f² / (2(f² − f) + 1)`, as pure functions with lemmas.
- `KeyframeOscillator`: every field of the component as one value (`Oscillator`), plus specification functions.
  - `Activate` is Awake. `Glide` is the keyframe half of Update, `Spin` the rotation half, and `Tick` the two together.
  - `Run` applies any number of frames.
  - The lemmas state what a frame does: index safety, segment completion, the timer, the z range, and the rotation after any number of frames.
- `Persistence`: the `{ "speed": … }` record with its default.
- `Components`: the class `RotatingBehaviour`, with the source's fields and its two constructors.
  - `Awake` and `Update` change those fields in place, statement by statement as the source does.
  - Their postconditions tie the new fields and the returned rotation and position to the specification functions.

The game object's transform is passed to `Awake` and `Update`, and `Update` returns the new rotation and position. The model does not call the object's getters and setters.

Behaviour the proofs bring out:

- Over the reals the ease's denominator `2(f² − f) + 1` equals `f² + (1 − f)²`, so it is never zero. The eased value lies in [0, 1] for every fraction, including the fractions above 1 that a long frame produces. So the new z always lies between the two keypoints of the current segment, with no clamping.
- The index is wrapped before `keypoints[keyframe + 1]` is read, so the read is always in range. The wrap must come first: completing the second segment leaves the index on the last keypoint (`CompletionReachesLastIndex`).
- Between frames the index is 0, 1 or 2. The index visits 0, 1 and 2, and the frame after it reaches 2 wraps it back to 0 before use.
- After the wrap, the test `keyframe != size − 1` in the completion condition always holds. Whether a segment completes depends only on the fraction.
- The journey length is measured once, on the first segment. Both segments of `[z, z + 2, z]` have that same length, 2.
- The timer starts at 1, not 0. So the first frame after Awake already measures a fraction of `(1 + dt − startTime) / 2`.
- The fraction is not confined to [0, 1], and outside it the ease runs backwards (`SlowInOutDecreasingBelowZero`, `SlowInOutDecreasingAboveOne`).
  - With a start time above `1 + dt`, the first frames measure negative fractions. As the fraction rises to 0, z moves back towards the start keypoint before moving forwards.
  - A long frame can carry the fraction past 1. There z falls back from the end keypoint, and only a fraction of exactly 1 reaches it (`SlowInOutBelowOne`).
  - In both cases z still stays between the segment's two keypoints.

## Model

| member | source | states |
|---|---|---|
| Components.RotatingBehaviour.constructor | OTTER/projects/Week3-Starter-Fixed/src/Gameplay/Components/RotatingBehaviour.cpp:8-19 | The start-time constructor leaves index 0, stored time 0, speed 1, journey length 0, timer 1, no keypoints, the given start time and the default rotation speed. |
| Components.RotatingBehaviour.Default | OTTER/projects/Week3-Starter-Fixed/src/Gameplay/Components/RotatingBehaviour.cpp:20-30 | The default constructor leaves the same state with a start time of 0. |
| Components.RotatingBehaviour.Awake | OTTER/projects/Week3-Starter-Fixed/src/Gameplay/Components/RotatingBehaviour.cpp:32-38 | Awake's new fields are `Activate` of the old ones. On a component with no keypoints and index 0 it leaves the oscillating shape: [z, z + 2, z] and journey length 2. |
| Components.RotatingBehaviour.Update | OTTER/projects/Week3-Starter-Fixed/src/Gameplay/Components/RotatingBehaviour.cpp:40-70 | The returned rotation is `Spin` of the old rotation speed. The new fields and returned position are `Glide` of the old fields. The index-safety invariant `Valid` is kept. |
| Components.RotatingBehaviour.ToJson | OTTER/projects/Week3-Starter-Fixed/src/Gameplay/Components/RotatingBehaviour.cpp:76-80 | The record written always holds a speed entry, the component's rotation speed, and reads back as that speed. |
| Components.RotatingBehaviour.FromJson | OTTER/projects/Week3-Starter-Fixed/src/Gameplay/Components/RotatingBehaviour.cpp:82-86 | A fresh, default-constructed component whose rotation speed is the record's, or (0, 0, 30) when the record has none. |
| Persistence.RotationSpeedOf | OTTER/projects/Week3-Starter-Fixed/src/Gameplay/Components/RotatingBehaviour.cpp:84 | A record without a speed entry gives the default rotation speed (0, 0, 30). |
| Persistence.SerializeRoundTrip | OTTER/projects/Week3-Starter-Fixed/src/Gameplay/Components/RotatingBehaviour.cpp:76-86 | Reading back the record ToJson writes gives the rotation speed written. |
| KeyframeOscillator.ActivateEmpty | OTTER/projects/Week3-Starter-Fixed/src/Gameplay/Components/RotatingBehaviour.cpp:32-37 | On an empty keypoint list at index 0, Awake appends exactly [z, z + 2, z]. It sets the journey length to 2 and changes nothing else. |
| KeyframeOscillator.ActivateInitial | OTTER/projects/Week3-Starter-Fixed/src/Gameplay/Components/RotatingBehaviour.cpp:8-37 | After either constructor, Awake reaches the oscillating shape (three keypoints, nonzero journey length) and keeps the start time. |
| KeyframeOscillator.WrappedKeyframe | OTTER/projects/Week3-Starter-Fixed/src/Gameplay/Components/RotatingBehaviour.cpp:51-54 | After the wrap check, `keyframe` and `keyframe + 1` both index the keypoints. Only the last index is reset, to 0; any other index is kept. |
| KeyframeOscillator.Glide | OTTER/projects/Week3-Starter-Fixed/src/Gameplay/Components/RotatingBehaviour.cpp:43-68 | A frame keeps the invariant: at least two keypoints, an index inside the list, a nonzero journey length. |
| KeyframeOscillator.Tick | OTTER/projects/Week3-Starter-Fixed/src/Gameplay/Components/RotatingBehaviour.cpp:40-70 | A whole Update keeps the same invariant. |
| KeyframeOscillator.GlideClock | OTTER/projects/Week3-Starter-Fixed/src/Gameplay/Components/RotatingBehaviour.cpp:43 | The timer grows by exactly `deltaTime`. No field other than the timer, the stored time and the index changes. |
| KeyframeOscillator.GlideCompletion | OTTER/projects/Week3-Starter-Fixed/src/Gameplay/Components/RotatingBehaviour.cpp:64-68 | At a fraction of at least 1, the stored time becomes `timer − startTime` and the wrapped index goes up by exactly 1. Otherwise the stored time is unchanged and the index is the wrapped one. |
| KeyframeOscillator.CompletionIndexTestHolds | OTTER/projects/Week3-Starter-Fixed/src/Gameplay/Components/RotatingBehaviour.cpp:51-64 | After the wrap the index is never the last one, so the second test of the completion condition always holds. |
| KeyframeOscillator.CompletionReachesLastIndex | OTTER/projects/Week3-Starter-Fixed/src/Gameplay/Components/RotatingBehaviour.cpp:62-67 | Completing the segment that starts at the last-but-one keypoint leaves `keyframe + 1` equal to the list's size. So without the earlier wrap, the read would be out of range. |
| KeyframeOscillator.GlidePosition | OTTER/projects/Week3-Starter-Fixed/src/Gameplay/Components/RotatingBehaviour.cpp:60-62 | x and y pass through unchanged. For every fraction, the new z lies between the two keypoints of the current segment. |
| KeyframeOscillator.GlideOscillating | OTTER/projects/Week3-Starter-Fixed/src/Gameplay/Components/RotatingBehaviour.cpp:51-68 | From the shape Awake gives, the keypoints stay as they are and the index stays in {0, 1, 2}. The new z lies in [z0, z0 + 2]. |
| KeyframeOscillator.SegmentsMatchJourneyLength | OTTER/projects/Week3-Starter-Fixed/src/Gameplay/Components/RotatingBehaviour.cpp:37 | The journey length is measured once, on the first segment, and the second segment has the same length. |
| KeyframeOscillator.FirstFrameFraction | OTTER/projects/Week3-Starter-Fixed/src/Gameplay/Components/RotatingBehaviour.cpp:43-49 | Because the timer starts at 1, the first frame after Awake measures a fraction of (1 + dt − startTime) / 2. |
| KeyframeOscillator.Run | OTTER/projects/Week3-Starter-Fixed/src/Gameplay/Components/RotatingBehaviour.cpp:40-70 | Any number of frames keeps the invariant. |
| KeyframeOscillator.RunRotation | OTTER/projects/Week3-Starter-Fixed/src/Gameplay/Components/RotatingBehaviour.cpp:41-43 | After N frames, the rotation is the initial rotation plus the rotation speed times the sum of the frame lengths. The timer has grown by that same sum. |
| KeyframeOscillator.RunStaysInRange | OTTER/projects/Week3-Starter-Fixed/src/Gameplay/Components/RotatingBehaviour.cpp:60-62 | Over any number of frames after Awake, x and y never change and z stays within [z0, z0 + 2]. |
| KeyframeOscillator.DefaultSpinPerSecond | OTTER/projects/Week3-Starter-Fixed/src/Gameplay/Components/RotatingBehaviour.h:15 | At the default rotation speed, a one-second frame adds exactly 30 degrees about z. |
| Easing.Lerp | OTTER/projects/Week3-Starter-Fixed/src/Gameplay/Components/RotatingBehaviour.cpp:88-93 | Lerp(p0, p1, 0) = p0 and Lerp(p0, p1, 1) = p1. |
| Easing.LerpBetween | OTTER/projects/Week3-Starter-Fixed/src/Gameplay/Components/RotatingBehaviour.cpp:88-93 | For t in [0, 1] the result lies between p0 and p1. |
| Easing.EaseDenominatorPositive | OTTER/projects/Week3-Starter-Fixed/src/Gameplay/Components/RotatingBehaviour.cpp:58 | The denominator `2(f² − f) + 1` equals f² + (1 − f)², so it is strictly positive for every real f. |
| Easing.SlowInOut | OTTER/projects/Week3-Starter-Fixed/src/Gameplay/Components/RotatingBehaviour.cpp:56-58 | The eased value lies in [0, 1] for every real fraction. It is 0 at f = 0 and 1 at f = 1. |
| Easing.SlowInOutSymmetric | OTTER/projects/Week3-Starter-Fixed/src/Gameplay/Components/RotatingBehaviour.cpp:56-58 | The ease is symmetric: eased(1 − f) = 1 − eased(f). |
| Easing.SlowInOutMonotone | OTTER/projects/Week3-Starter-Fixed/src/Gameplay/Components/RotatingBehaviour.cpp:56-58 | On [0, 1] the ease is non-decreasing. So while the fraction stays in [0, 1], motion within a segment never turns back. |
| Easing.SlowInOutDecreasingBelowZero | OTTER/projects/Week3-Starter-Fixed/src/Gameplay/Components/RotatingBehaviour.cpp:56-58 | For negative fractions the ease falls as the fraction rises towards 0. So a segment that begins at a negative fraction first moves backwards. |
| Easing.SlowInOutDecreasingAboveOne | OTTER/projects/Week3-Starter-Fixed/src/Gameplay/Components/RotatingBehaviour.cpp:56-58 | Past 1 the ease falls as the fraction grows. So a frame that overshoots a segment end moves z back towards the start keypoint. |
| Easing.SlowInOutPositive | OTTER/projects/Week3-Starter-Fixed/src/Gameplay/Components/RotatingBehaviour.cpp:56-58 | The ease is strictly above 0 at every fraction other than 0. |
| Easing.SlowInOutBelowOne | OTTER/projects/Week3-Starter-Fixed/src/Gameplay/Components/RotatingBehaviour.cpp:56-58 | The ease is strictly below 1 at every fraction other than 1. So a segment's end keypoint is reached exactly only at a fraction of exactly 1. |
| Vectors.AddScaleMerge | OTTER/projects/Week3-Starter-Fixed/src/Gameplay/Components/RotatingBehaviour.cpp:41 | Two rotation steps of lengths a and b equal one step of length a + b. |

## Left out

- `DefaultSceneLayer.cpp` is not part of this model. It is a linear script of engine calls (resource loading, materials, lights, colliders, scene save and load) with no logic of its own.
- `RenderImGui` is not modelled. It is an editor widget only.
- The fields `_segmentIndex` and `_TravelTime` are not modelled. They are initialised but never read.
- Floating point is not modelled. All arithmetic is over the reals, so rounding, infinities and NaN are absent. In particular, nothing is claimed about the float value of the journey length, or about NaN never arising.
- Components.RotatingBehaviour.Update: requires the invariant `Valid`. This holds after Awake, which the engine always calls first. It rules out Update before Awake, when the source would read an empty list. It also rules out a zero journey length, which the source would divide by, giving infinity or NaN.
- Easing.Lerp: the source's Lerp is a template over any vector type. The component only uses it on floats, and it is modelled on reals only.
- Persistence.RotationSpeedOf: how `JsonGet` treats a `speed` entry of the wrong shape is not visible. The record is modelled as an optional three-component vector.
- The game object's transform getters and setters are external. Their values are passed in and returned.
- KeyframeOscillator.Run, KeyframeOscillator.RunRotation, KeyframeOscillator.RunStaysInRange: these assume that each frame reads back exactly the rotation and position the previous frame set. `GameObject` is not part of this model, so Euler-angle re-normalisation by the host and other code moving the object are not captured.
- Concrete frame-by-frame values for a sample run (an object spawned at z = 5, one-second frames) are not stated. The generic lemmas above cover such runs.

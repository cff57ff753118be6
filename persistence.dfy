/**
 * The component's persisted record: a single optional `speed` entry holding
 * the rotation speed, read back with the default (0, 0, 30) when absent.
 */
module Persistence {
  import opened Vectors
  import KeyframeOscillator

  datatype Option<T> = None | Some(value: T)

  /** The record ToJson writes and FromJson reads: `{ "speed": [x, y, z] }`, the entry possibly missing. */
  datatype SpeedRecord = SpeedRecord(speed: Option<Vec3>)

  /** ToJson: the record holding the rotation speed. */
  function Serialize(rotationSpeed: Vec3): SpeedRecord
  {
    SpeedRecord(Some(rotationSpeed))
  }

  /** FromJson's read of the `speed` entry, falling back to the default speed. */
  function RotationSpeedOf(record: SpeedRecord): (v: Vec3)
    ensures record.speed.None? ==> v == KeyframeOscillator.DefaultRotationSpeed
  {
    match record.speed
    case Some(speed) => speed
    case None => KeyframeOscillator.DefaultRotationSpeed
  }

  /** Reading back what was written gives the rotation speed that was written. */
  lemma SerializeRoundTrip(rotationSpeed: Vec3)
    ensures RotationSpeedOf(Serialize(rotationSpeed)) == rotationSpeed
  {
  }
}

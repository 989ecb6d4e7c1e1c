/**
 * HealthDataType: the kind of a health measurement (an identifier, a
 * display name and a unit), its four catalog constants, and the
 * unit-rebinding transform `measured(with:)`.
 */
module HealthDataTypes {

  /** A unit is modelled by its symbol ("bpm", "%", "count", "m", ...). */
  type Unit = string

  /** An immutable measurement type; the memberwise initializer is the constructor. */
  datatype HealthDataType = HealthDataType(id: string, name: string, unit: Unit)
  {
    /** A copy of this type that is measured in `u` instead of its own unit. */
    function MeasuredWith(u: Unit): (r: HealthDataType)
      ensures r.unit == u
      ensures r.id == id && r.name == name
    {
      HealthDataType(id, name, u)
    }
  }

  // The catalog. Localized names are kept as their English keys; the
  // Foundation units hertz and meters are written as their symbols.
  const HeartRate := HealthDataType("heartRate", "Heart Rate", "Hz")
  const OxygenSaturation := HealthDataType("oxygenSaturation", "Oxygen Saturation", "%")
  const StepCount := HealthDataType("stepCount", "Step Count", "count")
  const DistanceWalkingRunning := HealthDataType("distanceWalkingRunning", "Distance Walking Running", "m")

  /** The four catalog constants have pairwise distinct identifiers. */
  lemma CatalogIdsDistinct()
    ensures HeartRate.id != OxygenSaturation.id && HeartRate.id != StepCount.id
    ensures HeartRate.id != DistanceWalkingRunning.id && OxygenSaturation.id != StepCount.id
    ensures OxygenSaturation.id != DistanceWalkingRunning.id && StepCount.id != DistanceWalkingRunning.id
  {
  }

  /** The catalog's units: hertz, percent, count and meters. */
  lemma CatalogUnits()
    ensures HeartRate.unit == "Hz" && OxygenSaturation.unit == "%"
    ensures StepCount.unit == "count" && DistanceWalkingRunning.unit == "m"
  {
  }

  /** Rebinding twice keeps only the last unit. */
  lemma MeasuredWithLastWins(t: HealthDataType, u: Unit, v: Unit)
    ensures t.MeasuredWith(u).MeasuredWith(v) == t.MeasuredWith(v)
  {
  }

  /** Rebinding to the same unit twice is the same as rebinding once. */
  lemma MeasuredWithIdempotent(t: HealthDataType, u: Unit)
    ensures t.MeasuredWith(u).MeasuredWith(u) == t.MeasuredWith(u)
  {
  }

  /** Rebinding a type to its own unit gives back an equal type. */
  lemma MeasuredWithOwnUnit(t: HealthDataType)
    ensures t.MeasuredWith(t.unit) == t
  {
  }
}

/**
 * previewSamples: the fixed catalog of preview samples, built with the
 * sample-list builder. The fresh identifiers (UUID().uuidString) and the
 * clock readings (.now) it consumes are passed in as parameters.
 */
module PreviewCatalog {
  import opened Wrappers
  import opened HealthDataTypes
  import opened HealthDataSamples
  import opened SampleArrayBuilder

  /**
   * The fresh identifier and the two clock readings one catalog entry is
   * built with: the reading taken for its start date and the one taken
   * for its end date.
   */
  datatype Fresh = Fresh(id: string, startNow: Date, endNow: Date)

  /** One hour, in seconds (`addingTimeInterval(-3600)`). */
  const Hour: int := 3600

  /** Number of catalog entries; `true` leaves out the group recorded by non-Apple devices. */
  function PreviewLength(includeNonAppleSamples: bool): nat
  {
    if includeNonAppleSamples then 4 else 8
  }

  /** The type identifiers of the full catalog, position by position. */
  const PreviewTypeIds: seq<string> := [
    "heartRate", "oxygenSaturation", "oxygenSaturation", "distanceWalkingRunning",
    "stepCount", "oxygenSaturation", "stepCount", "oxygenSaturation"]

  /** How far before its end reading each entry's end date lies, position by position. */
  const PreviewEndOffsets: seq<int> := [0, Hour, 2 * Hour, Hour, Hour, Hour, Hour, Hour]

  /** The devices made by Apple. */
  predicate AppleDevice(d: Device)
  {
    d == IPhone || d == AppleWatch
  }

  /** A sample whose device list is present and names only Apple devices. */
  predicate AppleOnly(s: HealthDataSample)
  {
    s.deviceSources.Some? && forall d :: d in s.deviceSources.value ==> AppleDevice(d)
  }

  /** What a sample looks like apart from its fresh identifier and period. */
  datatype Shape = Shape(typeId: string, unit: Unit, value: Magnitude, devices: Option<seq<Device>>)

  function ShapeOf(s: HealthDataSample): Shape
  {
    Shape(s.dataType.id, s.value.unit, s.value.value, s.deviceSources)
  }

  /** A catalog entry: the DSL initializer on a block that is well formed by construction. */
  function Entry(id: string, dataType: HealthDataType, value: Magnitude, block: seq<Stmt>): (r: HealthDataSample)
    requires WellFormedBlock(block)
    ensures r.id == id && r.dataType == dataType && r.value == Measurement(value, dataType.unit)
    ensures PeriodStmt(r.period) == block[0] && r.deviceSources.Some?
    ensures MetadataBlock(r.period, r.deviceSources.value) == block
  {
    BuildSample(id, dataType, value, block).value
  }

  /**
   * Catalog entry `k` (0 to 7, in source order), built from its fresh
   * identifier and clock readings.
   */
  function PreviewEntry(k: nat, f: Fresh): (r: HealthDataSample)
    requires k < 8
    ensures r.id == f.id && r.period.startDate == f.startNow
    ensures r.period.endDate == f.endNow - PreviewEndOffsets[k]
    ensures r.dataType.id == PreviewTypeIds[k]
    ensures r.value.unit == r.dataType.unit && r.deviceSources.Some?
  {
    if k == 0 then
      Entry(f.id, HeartRate.MeasuredWith("bpm"), 72.0,
        [PeriodStmt(Period(f.startNow, f.endNow)), DeviceStmt(IPhone), DeviceStmt(AppleWatch)])
    else if k == 1 then
      Entry(f.id, OxygenSaturation, 0.82,
        [PeriodStmt(Period(f.startNow, f.endNow - Hour)), DeviceStmt(IPhone), DeviceStmt(AppleWatch)])
    else if k == 2 then
      Entry(f.id, OxygenSaturation, 0.80,
        [PeriodStmt(Period(f.startNow, f.endNow - 2 * Hour)), DeviceStmt(IPhone), DeviceStmt(AppleWatch)])
    else if k == 3 then
      Entry(f.id, DistanceWalkingRunning, 1234.2,
        [PeriodStmt(Period(f.startNow, f.endNow - Hour)), DeviceStmt(IPhone)])
    else if k == 4 then
      Entry(f.id, StepCount, 1234.0,
        [PeriodStmt(Period(f.startNow, f.endNow - Hour)), DeviceStmt(SmartBand)])
    else if k == 5 then
      Entry(f.id, OxygenSaturation, 98.5,
        [PeriodStmt(Period(f.startNow, f.endNow - Hour)), DeviceStmt(UnknownDevice)])
    else if k == 6 then
      Entry(f.id, StepCount, 1234.0,
        [PeriodStmt(Period(f.startNow, f.endNow - Hour)), DeviceStmt(SmartBand)])
    else
      Entry(f.id, OxygenSaturation, 98.5,
        [PeriodStmt(Period(f.startNow, f.endNow - Hour)), DeviceStmt(UnknownDevice)])
  }

  /** The first four catalog entries are exactly those recorded by Apple devices only. */
  lemma PreviewEntryDevices(k: nat, f: Fresh)
    requires k < 8
    ensures k < 4 <==> AppleOnly(PreviewEntry(k, f))
  {
    var r := PreviewEntry(k, f);
    MetadataBlockDevices(r.period, r.deviceSources.value);
  }

  /**
   * The preview catalog: the four Apple-device entries, then, unless
   * `includeNonAppleSamples` is set, the four other entries. Entry i uses
   * the i-th supplied identifier and clock reading.
   */
  function PreviewSamples(includeNonAppleSamples: bool, supply: seq<Fresh>): (r: seq<HealthDataSample>)
    requires |supply| >= PreviewLength(includeNonAppleSamples)
    ensures |r| == PreviewLength(includeNonAppleSamples)
    ensures forall i :: 0 <= i < |r| ==> r[i] == PreviewEntry(i, supply[i])
  {
    var nonAppleGroup :=
      if !includeNonAppleSamples then
        BuildBlockOfFour(BuildExpression(PreviewEntry(4, supply[4])), BuildExpression(PreviewEntry(5, supply[5])),
                         BuildExpression(PreviewEntry(6, supply[6])), BuildExpression(PreviewEntry(7, supply[7])));
        Some(BuildBlock([
          BuildExpression(PreviewEntry(4, supply[4])),
          BuildExpression(PreviewEntry(5, supply[5])),
          BuildExpression(PreviewEntry(6, supply[6])),
          BuildExpression(PreviewEntry(7, supply[7]))]))
      else None;
    BuildBlockOfFive(BuildExpression(PreviewEntry(0, supply[0])), BuildExpression(PreviewEntry(1, supply[1])),
                     BuildExpression(PreviewEntry(2, supply[2])), BuildExpression(PreviewEntry(3, supply[3])),
                     BuildOptional(nonAppleGroup));
    BuildBlock([
      BuildExpression(PreviewEntry(0, supply[0])),
      BuildExpression(PreviewEntry(1, supply[1])),
      BuildExpression(PreviewEntry(2, supply[2])),
      BuildExpression(PreviewEntry(3, supply[3])),
      BuildOptional(nonAppleGroup)])
  }

  /**
   * Every catalog entry has the type the catalog lists at its position,
   * the identifier and clock reading supplied for that position, a value
   * in its type's unit and a present device list.
   */
  lemma PreviewSamplesEntries(includeNonAppleSamples: bool, supply: seq<Fresh>)
    requires |supply| >= PreviewLength(includeNonAppleSamples)
    ensures var r := PreviewSamples(includeNonAppleSamples, supply);
      forall i :: 0 <= i < |r| ==>
        && r[i].dataType.id == PreviewTypeIds[i]
        && r[i].id == supply[i].id && r[i].period.startDate == supply[i].startNow
        && r[i].period.endDate == supply[i].endNow - PreviewEndOffsets[i]
        && r[i].value.unit == r[i].dataType.unit && r[i].deviceSources.Some?
  {
  }

  /** The heart-rate entry leads the catalog and is rebound to "bpm". */
  lemma PreviewHeartRateInBpm(includeNonAppleSamples: bool, supply: seq<Fresh>)
    requires |supply| >= PreviewLength(includeNonAppleSamples)
    ensures PreviewSamples(includeNonAppleSamples, supply)[0].dataType.id == "heartRate"
    ensures PreviewSamples(includeNonAppleSamples, supply)[0].dataType.unit == "bpm"
    ensures PreviewSamples(includeNonAppleSamples, supply)[0].value.unit == "bpm"
  {
  }

  /**
   * With `includeNonAppleSamples` set the catalog is the first four
   * entries of the full catalog built from the same identifiers and clock.
   */
  lemma PreviewAppleOnlyIsPrefix(supply: seq<Fresh>)
    requires |supply| >= 8
    ensures PreviewSamples(true, supply) == PreviewSamples(false, supply)[..4]
  {
  }

  /** Entry k has the same shape whatever identifier and clock reading it is built with. */
  lemma PreviewEntryShape(k: nat, f: Fresh, g: Fresh)
    requires k < 8
    ensures ShapeOf(PreviewEntry(k, f)) == ShapeOf(PreviewEntry(k, g))
  {
  }

  /**
   * Two evaluations of the catalog with different identifiers and clock
   * readings differ only in those: length, types, units, values and
   * devices agree position by position.
   */
  lemma PreviewShapeStable(includeNonAppleSamples: bool, supply: seq<Fresh>, other: seq<Fresh>)
    requires |supply| >= PreviewLength(includeNonAppleSamples)
    requires |other| >= PreviewLength(includeNonAppleSamples)
    ensures var r, q := PreviewSamples(includeNonAppleSamples, supply), PreviewSamples(includeNonAppleSamples, other);
      |r| == |q| && forall i :: 0 <= i < |r| ==> ShapeOf(r[i]) == ShapeOf(q[i])
  {
    var r, q := PreviewSamples(includeNonAppleSamples, supply), PreviewSamples(includeNonAppleSamples, other);
    forall i | 0 <= i < |r| ensures ShapeOf(r[i]) == ShapeOf(q[i]) {
      PreviewEntryShape(i, supply[i], other[i]);
    }
  }

  /**
   * With `includeNonAppleSamples` set every sample is recorded by Apple
   * devices only; without it, exactly the entries from position 4 on are not.
   */
  lemma PreviewDevices(includeNonAppleSamples: bool, supply: seq<Fresh>)
    requires |supply| >= PreviewLength(includeNonAppleSamples)
    ensures includeNonAppleSamples ==>
      forall s :: s in PreviewSamples(includeNonAppleSamples, supply) ==> AppleOnly(s)
    ensures var r := PreviewSamples(includeNonAppleSamples, supply);
      forall i :: 0 <= i < |r| ==> (AppleOnly(r[i]) <==> i < 4)
  {
    var r := PreviewSamples(includeNonAppleSamples, supply);
    forall i | 0 <= i < |r| ensures AppleOnly(r[i]) <==> i < 4 {
      PreviewEntryDevices(i, supply[i]);
    }
  }
}

/**
 * HealthDataSample: one immutable health observation, its Period and
 * Device parts, and the DSL initializer whose metadata block must be one
 * period followed by zero or more devices.
 */
module HealthDataSamples {
  import opened Wrappers
  import opened HealthDataTypes

  /** A point in time, as an abstract count of seconds. */
  type Date = int

  /**
   * A raw measurement magnitude. Only stored and compared, never computed
   * with, so the Double rounding of the source plays no part.
   */
  type Magnitude = real

  /** A magnitude together with the unit it is expressed in. */
  datatype Measurement = Measurement(value: Magnitude, unit: Unit)

  /** The interval a sample covers; nothing requires startDate <= endDate. */
  datatype Period = Period(startDate: Date, endDate: Date)

  /** The device a sample was recorded by. */
  datatype Device = Device(id: string, name: string)

  const IPhone := Device("iPhone", "iPhone")
  const AppleWatch := Device("appleWatch", "Apple Watch")
  const SmartBand := Device("smartBand", "Smart Band")
  const UnknownDevice := Device("unknown", "Unknown")

  /** One observation; the memberwise initializer is the constructor. */
  datatype HealthDataSample = HealthDataSample(
    id: string,
    value: Measurement,
    dataType: HealthDataType,
    period: Period,
    deviceSources: Option<seq<Device>>)

  /** One statement of a metadata block. */
  datatype Stmt = PeriodStmt(period: Period) | DeviceStmt(device: Device)

  /** Why a metadata block is rejected. */
  datatype BuildError =
    | FirstStatementNotPeriod        // empty block, or a block that opens with a device
    | StatementAfterPeriodNotDevice  // a second period after the leading one

  /** The shape the metadata builder accepts: one period, then only devices. */
  ghost predicate WellFormedBlock(block: seq<Stmt>)
  {
    |block| > 0 && block[0].PeriodStmt? &&
    forall i :: 1 <= i < |block| ==> block[i].DeviceStmt?
  }

  /** The block that lists `period` and then `devices`, in that order. */
  function MetadataBlock(period: Period, devices: seq<Device>): (block: seq<Stmt>)
    ensures |block| == |devices| + 1 && block[0] == PeriodStmt(period)
    ensures forall i :: 0 <= i < |devices| ==> block[i + 1] == DeviceStmt(devices[i])
  {
    if |devices| == 0 then [PeriodStmt(period)]
    else MetadataBlock(period, devices[..|devices| - 1]) + [DeviceStmt(devices[|devices| - 1])]
  }

  /** A device is in the list exactly when the block has a statement for it. */
  lemma MetadataBlockDevices(period: Period, devices: seq<Device>)
    ensures forall d :: d in devices <==> DeviceStmt(d) in MetadataBlock(period, devices)
  {
    var block := MetadataBlock(period, devices);
    forall d | DeviceStmt(d) in block ensures d in devices {
      var i :| 0 <= i < |block| && block[i] == DeviceStmt(d);
      assert devices[i - 1] == d by { assert block[(i - 1) + 1] == DeviceStmt(devices[i - 1]); }
    }
    forall d | d in devices ensures DeviceStmt(d) in block {
      var i :| 0 <= i < |devices| && devices[i] == d;
      assert block[i + 1] == DeviceStmt(d);
    }
  }

  /**
   * The devices named by `stmts`, in order, or None when one of the
   * statements is not a device.
   */
  function CollectDevices(stmts: seq<Stmt>): (r: Option<seq<Device>>)
    ensures r.Some? <==> forall i :: 0 <= i < |stmts| ==> stmts[i].DeviceStmt?
    ensures r.Some? ==> |r.value| == |stmts|
    ensures r.Some? ==> forall i :: 0 <= i < |stmts| ==> r.value[i] == stmts[i].device
  {
    if |stmts| == 0 then Some([])
    else match stmts[0]
      case PeriodStmt(_) => None
      case DeviceStmt(d) =>
        match CollectDevices(stmts[1..])
        case None => None
        case Some(ds) => Some([d] + ds)
  }

  /**
   * The metadata result builder: a block that is a period followed by
   * devices yields that period and the devices in order; any other block
   * is rejected.
   */
  function BuildMetadata(block: seq<Stmt>): (r: Result<(Period, seq<Device>), BuildError>)
    ensures r.Success? <==> WellFormedBlock(block)
    ensures (|block| == 0 || block[0].DeviceStmt?) ==> r == Failure(FirstStatementNotPeriod)
    ensures |block| > 0 && block[0].PeriodStmt? && !WellFormedBlock(block) ==>
              r == Failure(StatementAfterPeriodNotDevice)
    ensures r.Success? ==> PeriodStmt(r.value.0) == block[0]
    ensures r.Success? ==> |r.value.1| + 1 == |block|
    ensures r.Success? ==> forall i :: 0 <= i < |r.value.1| ==> DeviceStmt(r.value.1[i]) == block[i + 1]
  {
    if |block| == 0 || block[0].DeviceStmt? then Failure(FirstStatementNotPeriod)
    else match CollectDevices(block[1..])
      case None => Failure(StatementAfterPeriodNotDevice)
      case Some(devices) => Success((block[0].period, devices))
  }

  /** Building the block of a period and devices gives back exactly those. */
  lemma {:induction false} BuildMetadataOfBlock(period: Period, devices: seq<Device>)
    ensures BuildMetadata(MetadataBlock(period, devices)) == Success((period, devices))
  {
    var block := MetadataBlock(period, devices);
    forall i | 1 <= i < |block| ensures block[i].DeviceStmt? {
      assert block[(i - 1) + 1] == DeviceStmt(devices[i - 1]);
    }
    var r := BuildMetadata(block);
    assert r.value.1 == devices;
  }

  /** Every accepted block is the block of the period and devices it yields. */
  lemma {:induction false} BuildMetadataAccepts(block: seq<Stmt>)
    requires BuildMetadata(block).Success?
    ensures block == MetadataBlock(BuildMetadata(block).value.0, BuildMetadata(block).value.1)
  {
  }

  /**
   * The DSL initializer: the value takes its unit from the type and the
   * period and devices come from the metadata block; a block that is not
   * a period followed by devices yields no sample.
   */
  function BuildSample(id: string, dataType: HealthDataType, value: Magnitude, block: seq<Stmt>)
    : (r: Result<HealthDataSample, BuildError>)
    ensures r.Success? <==> WellFormedBlock(block)
    ensures (|block| == 0 || block[0].DeviceStmt?) ==> r == Failure(FirstStatementNotPeriod)
    ensures r.Success? ==> r.value.id == id && r.value.dataType == dataType
    ensures r.Success? ==> r.value.value == Measurement(value, dataType.unit)
    ensures r.Success? ==> r.value.deviceSources.Some?
    ensures r.Success? ==> MetadataBlock(r.value.period, r.value.deviceSources.value) == block
  {
    var measurement := Measurement(value, dataType.unit);
    match BuildMetadata(block)
    case Failure(e) => Failure(e)
    case Success((period, deviceSources)) =>
      BuildMetadataAccepts(block);
      Success(HealthDataSample(id, measurement, dataType, period, Some(deviceSources)))
  }

  /** A block with a period and no devices gives a present, empty device list. */
  lemma BuildSampleNoDevices(id: string, dataType: HealthDataType, value: Magnitude, period: Period)
    ensures BuildSample(id, dataType, value, [PeriodStmt(period)])
            == Success(HealthDataSample(id, Measurement(value, dataType.unit), dataType, period, Some([])))
  {
  }

  /** The sample built from a period and devices carries exactly those, in order. */
  lemma {:induction false} BuildSampleOfBlock(
    id: string, dataType: HealthDataType, value: Magnitude, period: Period, devices: seq<Device>)
    ensures BuildSample(id, dataType, value, MetadataBlock(period, devices))
            == Success(HealthDataSample(id, Measurement(value, dataType.unit), dataType, period, Some(devices)))
  {
    BuildMetadataOfBlock(period, devices);
  }
}

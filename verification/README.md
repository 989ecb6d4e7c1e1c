# HealthDSL data model in Dafny

This project models the data model of HealthDSL, a small Swift app that
builds health measurement samples with two result builders and lists
them.

- `HealthDataType` is a measurement kind with an identifier, a name and
  a unit. There is a catalog of four constants: heart rate, oxygen
  saturation, step count and distance walking/running. `measured(with:)`
  returns a copy of a type with a different unit.
- `HealthDataSample` is one immutable observation. It holds an
  identifier, a measurement (a value and a unit), a type, a `Period` and
  an optional list of `Device`s.
- The DSL initializer takes a metadata block. The block must be exactly
  one period followed by zero or more devices. In Swift a block made only
  of devices, the empty block included, selects an unavailable
  `buildBlock` overload and fails to compile. A block with a period
  anywhere but first, or with more than one period, matches neither
  overload and fails to compile too. Here the block is a sequence of
  `Stmt` values (`PeriodStmt` or `DeviceStmt`). `BuildMetadata` and
  `BuildSample` return `Failure(FirstStatementNotPeriod)` for an empty
  block or one that opens with a device. A block that opens with a
  period but has another period later gives
  `Failure(StatementAfterPeriodNotDevice)`.
- `HealthDataSampleArrayBuilder` flattens its components in order. It
  wraps single samples and turns an absent optional group into no
  samples.
- `previewSamples` is the fixed catalog of eight samples. When
  `includeNonAppleSamples` is true, the last four are left out. The name
  reads the opposite way, but the model keeps that behaviour as written.

Modules:

- `Wrappers` (`wrappers.dfy`): `Option` and `Result`.
- `HealthDataTypes` (`health_data_type.dfy`): `HealthDataType.swift`.
- `HealthDataSamples` (`health_data_sample.dfy`): the sample, period
  and device records, the metadata builder and the DSL initializer.
- `SampleArrayBuilder` (`sample_array_builder.dfy`): the list builder.
- `PreviewCatalog` (`preview_samples.dfy`): `previewSamples`.

Abstractions:

- A unit is its symbol string. Foundation's `UnitFrequency.hertz` is
  `"Hz"` and `UnitLength.meters` is `"m"`.
- A `Date` is an integer count of seconds, so
  `addingTimeInterval(-3600)` is `now - 3600`.
- The `Double` value is a `real` that is only stored, never computed
  with.
- `previewSamples` receives its fresh identifiers and clock readings as
  a parameter, `supply: seq<Fresh>`. Entry i uses `supply[i]`: its
  identifier, the reading taken for the start date and the reading taken
  for the end date. The end date is that second reading, minus one or
  two hours where the source subtracts them.

## Model

| member | source | states |
|---|---|---|
| `HealthDataTypes.HealthDataType.MeasuredWith` | HealthDSL/HealthDataType.swift:51-53 | the copy has the new unit and keeps the identifier and the name |
| `HealthDataTypes.MeasuredWithLastWins` | HealthDSL/HealthDataType.swift:51-53 | rebinding twice is rebinding once, to the last unit |
| `HealthDataTypes.MeasuredWithIdempotent` | HealthDSL/HealthDataType.swift:51-53 | rebinding twice to the same unit is rebinding once |
| `HealthDataTypes.MeasuredWithOwnUnit` | HealthDSL/HealthDataType.swift:51-53 | rebinding a type to its own unit gives an equal type |
| `HealthDataTypes.CatalogIdsDistinct` | HealthDSL/HealthDataType.swift:25-47 | the identifiers of the four catalog constants are pairwise distinct |
| `HealthDataTypes.CatalogUnits` | HealthDSL/HealthDataType.swift:25-47 | the catalog units are hertz, "%", "count" and meters |
| `HealthDataSamples.MetadataBlock` | HealthDSL/HealthDataSample.swift:62-67 | the block for a period and devices has the period first, then each device in order |
| `HealthDataSamples.CollectDevices` | HealthDSL/HealthDataSample.swift:64 | statements yield devices exactly when every one is a device; the result then has the same devices in the same order |
| `HealthDataSamples.MetadataBlockDevices` | HealthDSL/HealthDataSample.swift:62-67 | a device is in the device list exactly when the block has a statement for it |
| `HealthDataSamples.BuildMetadata` | HealthDSL/HealthDataSample.swift:62-72 | a block is accepted if and only if it is one period followed by devices; an empty block or one that opens with a device is rejected as "first statement must be its period"; a block that opens with a period and is still rejected fails with "statement after the period is not a device"; an accepted block yields its leading period and the remaining devices in order |
| `HealthDataSamples.BuildMetadataOfBlock` | HealthDSL/HealthDataSample.swift:62-67 | building the block of any period and devices gives back exactly that period and those devices |
| `HealthDataSamples.BuildMetadataAccepts` | HealthDSL/HealthDataSample.swift:62-72 | every accepted block is the block of the period and devices it yields |
| `HealthDataSamples.BuildSample` | HealthDSL/HealthDataSample.swift:41-57 | a sample is produced if and only if the block is well formed; its identifier and type are the supplied ones, its value is the raw value in the type's unit, its device list is present, and its period and devices are those of the block |
| `HealthDataSamples.BuildSampleNoDevices` | HealthDSL/HealthDataSample.swift:48-55 | a block with a period and no devices gives a present, empty device list |
| `HealthDataSamples.BuildSampleOfBlock` | HealthDSL/HealthDataSample.swift:41-67 | the sample built from a period and devices carries exactly that period and those devices, in order |
| `SampleArrayBuilder.BuildBlock` | HealthDSL/HealthDataSample.swift:77-79 | the result length is the sum of the component lengths; a sample is in the result exactly when it is in some component |
| `SampleArrayBuilder.BuildBlockAt` | HealthDSL/HealthDataSample.swift:77-79 | sample j of component i is at the position right after the samples of all earlier components |
| `SampleArrayBuilder.BuildBlockAppend` | HealthDSL/HealthDataSample.swift:77-79 | flattening two runs of components is concatenating their flattenings |
| `SampleArrayBuilder.TotalLengthAppend` | HealthDSL/HealthDataSample.swift:77-79 | the total length of two runs of components is the sum of their total lengths |
| `SampleArrayBuilder.BuildBlockSingle` | HealthDSL/HealthDataSample.swift:77-79 | a block of one component is that component |
| `SampleArrayBuilder.BuildBlockOfFour` | HealthDSL/HealthDataSample.swift:77-79 | a block of four components is their concatenation |
| `SampleArrayBuilder.BuildBlockOfFive` | HealthDSL/HealthDataSample.swift:77-79 | a block of five components is their concatenation |
| `SampleArrayBuilder.BuildExpression` | HealthDSL/HealthDataSample.swift:81-83 | a single sample becomes the one-element list of exactly that sample |
| `SampleArrayBuilder.BuildOptional` | HealthDSL/HealthDataSample.swift:85-87 | an absent group gives the empty list and a present group gives itself |
| `SampleArrayBuilder.FlattenWithSkippedGroup` | HealthDSL/HealthDataSample.swift:77-87 | a sample, a skipped group and a block of two samples flatten to the three samples in order |
| `PreviewCatalog.Entry` | HealthDSL/HealthDataSample.swift:94-98 | a catalog entry has the supplied identifier and type, the value in the type's unit, and exactly the block's period and devices |
| `PreviewCatalog.PreviewEntry` | HealthDSL/HealthDataSample.swift:94-130 | entry k has the supplied identifier, its start date is the start reading, its end date is the end reading minus the listed offset, it has the k-th listed type, a value in its type's unit and a present device list |
| `PreviewCatalog.PreviewEntryDevices` | HealthDSL/HealthDataSample.swift:94-130 | an entry is recorded by iPhone and Apple Watch only if and only if it is one of the first four |
| `PreviewCatalog.PreviewSamples` | HealthDSL/HealthDataSample.swift:92-132 | the catalog has 8 entries, or 4 when `includeNonAppleSamples` is true; position i holds entry i built from the i-th supplied identifier and clock reading |
| `PreviewCatalog.PreviewSamplesEntries` | HealthDSL/HealthDataSample.swift:93-131 | the types by position are heart rate, oxygen saturation twice, distance, then step count and oxygen saturation twice over; each entry uses its supplied identifier and clock readings, has its value in its type's unit and has devices present |
| `PreviewCatalog.PreviewDevices` | HealthDSL/HealthDataSample.swift:93-131 | with `includeNonAppleSamples` set every sample is recorded by Apple devices only; in either catalog, a position holds an Apple-only sample exactly when it is below 4 |
| `PreviewCatalog.PreviewHeartRateInBpm` | HealthDSL/HealthDataSample.swift:94-98 | the first entry is heart rate rebound to "bpm" |
| `PreviewCatalog.PreviewAppleOnlyIsPrefix` | HealthDSL/HealthDataSample.swift:114-131 | the catalog with `includeNonAppleSamples` set is the first four entries of the full catalog |
| `PreviewCatalog.PreviewEntryShape` | HealthDSL/HealthDataSample.swift:94-130 | an entry's type, unit, value and devices do not depend on its identifier or clock reading |
| `PreviewCatalog.PreviewShapeStable` | HealthDSL/HealthDataSample.swift:92-132 | two evaluations of the catalog have equal lengths and equal type, unit, value and devices at every position |

## Left out

- `HealthDSL/ContentView.swift` is SwiftUI view code: the toggle, the
  list rendering and the `%.2f` formatting. It is not modelled. Its one
  decision passes `includeNonAppleSamples: true` when "show only Apple
  samples" is on.
- `UUID().uuidString` and `Date.now` are non-deterministic. They are
  replaced by the `supply` parameter of `PreviewSamples`. Each period
  reads the clock twice, once for its start and once for its end. The
  model takes both readings from the supply and does not relate them to
  each other or to other samples' readings. It does not capture that the
  readings are taken in evaluation order.
- The default argument `includeNonAppleSamples = false` is not modelled.
  Callers of `PreviewSamples` pass the flag explicitly.
- The `Double` value and Foundation's `Measurement`, `Unit`,
  `UnitFrequency` and `UnitLength` are not modelled as such. A value is
  a `real` with no arithmetic, and a unit is its symbol. The model does
  not check that units are compatible, and neither does the source.
- `String(localized:)` is a foreign lookup. Names are kept as their
  English keys.
- In the source, `fatalError()` in the unavailable overload can never
  run, because the compiler rejects every call to it. The model returns
  a `Failure` instead.
- The `Identifiable` conformances only expose `id` to SwiftUI. There is
  no behaviour to model.
- `Period` has no `startDate <= endDate` invariant, because the source
  does not enforce one. Seven of the eight catalog periods end one or
  two hours before the end reading, so they usually end before they
  start.

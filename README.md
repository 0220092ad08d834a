# go-concurrent-data-pipeline, modelled in Dafny

This models the concurrent data pipeline of galafis/go-concurrent-data-pipeline.

## How the pipeline works

- A producer goroutine emits sensor records.
- Validator workers check each value against the inclusive range [0, 1000].
- Transformer workers compute an anomaly score, which is 0.1 times the value; a score above 8 flags an anomaly.
- Transformer workers divert records with the unit "INVALID_UNIT" to the error channel.
- Two fan-out goroutines copy the processed stream and the error stream.
  - One copy goes to the loader and the error handler.
  - The other copy goes to the metrics collector.
- The collector counts processed records, errors and anomalies, and sums the processed values.
- `RunAdvancedPipeline` (`pkg/pipeline/run.go`) wires the stages together.
  - A channel with several writers is closed by a separate goroutine.
  - That goroutine waits on a `sync.WaitGroup` until every writer has returned.
- `src/main.go` holds an older copy of the stages. It has its own producer, and its workers close their output channels themselves.

## Shape of the model

- **Per-record rules are pure functions.** `Validation.Validate` and `Transformation.Transform` return a verdict: accept with an output, or reject with the failed record. `Routing` lifts a verdict list into the two output streams.
- **Go channels and WaitGroups are classes.**
  - `Channels.Channel` holds a FIFO buffer and a one-shot `closed` flag.
  - A send or close on a closed channel returns `false` where Go panics.
  - A receive on an empty open channel reports `WouldBlock` instead of waiting.
- **Each stage goroutine is a method with its loop.** Each loop is proved against the pure rules. The stage loops are `Validator`, `Transformer`, `Producer`, `MetricsCollector`, the fan-outs and the workers of `src/main.go`.
- **The collector's `select` is modelled as a fold.** It folds over the sequence of receives it observes. The fold's closed form shows that the metrics do not depend on how the two streams interleave.
- **The close-at-zero protocol is a state machine.** `CloseProtocol` proves the WaitGroup protocol of `run.go` safe for every schedule of the goroutines.
- **`PipelineRun.RunAdvancedPipeline` runs one schedule.** Each goroutine runs to completion when it is started. Its result is tied to the pure specification of what the loader and the error handler receive.
- **Clock readings and random draws are parameters.** A function from the record index to the reading or the draw stands in for them. The model admits every value the source can produce.

## Model

| member | source | states |
|---|---|---|
| Types.JsonNamesDistinct | pkg/pipeline/types.go:12-29 | the JSON tags of the record fields are pairwise distinct |
| Types.RecordNames | pkg/pipeline/types.go:12-21 | a DataRecord marshals its members in declaration order: id, timestamp, sensor_id, value, unit, location, status. "error" follows only when Error is non-empty (omitempty) |
| Types.ProcessedNames | pkg/pipeline/types.go:24-29 | a ProcessedRecord marshals the promoted DataRecord members first, then processed_at, anomaly_score, is_anomaly |
| Types.RecordWellFormed | pkg/pipeline/types.go:12-21 | the marshalled DataRecord has no duplicate member and a value for every member it lists |
| Types.ProcessedWellFormed | pkg/pipeline/types.go:24-29 | the same for ProcessedRecord |
| Types.RecordRoundTrip | pkg/pipeline/types.go:12-21 | decoding the marshalled DataRecord gives the record back |
| Types.ProcessedRoundTrip | pkg/pipeline/types.go:24-29 | decoding the marshalled ProcessedRecord gives the record back |
| Format.Decimal | pkg/pipeline/producer.go:19 | "%d" yields at least one character, all decimal digits; it yields one digit exactly below 10 |
| Format.ZeroPad | pkg/pipeline/producer.go:19 | "%04d" pads with zeros on the left up to width 4, keeps the digits as the suffix and never truncates |
| Format.RecordId | pkg/pipeline/producer.go:19 | "rec-%04d" is at least 8 characters long and starts with "rec-" |
| Format.DecimalValue | pkg/pipeline/producer.go:19 | reading the digits of "%d" back gives the number |
| Format.LeadingZerosValue | pkg/pipeline/producer.go:19 | leading zeros do not change the value of a digit string |
| Format.ZeroPadValue | pkg/pipeline/producer.go:19 | zero padding keeps the string all digits and keeps its value |
| Format.RecordIdRoundTrip | pkg/pipeline/producer.go:19 | parsing the ID of record i gives i |
| Format.RecordIdInjective | pkg/pipeline/producer.go:19 | distinct indices get distinct IDs |
| Channels.Channel.constructor | pkg/pipeline/run.go:14-23 | make(chan T, n) is empty and open |
| Channels.Channel.Send | pkg/pipeline/validator.go:20-23 | a send appends to the buffer, or panics (ok false, nothing changes) when the channel is closed |
| Channels.Channel.Close | pkg/pipeline/run.go:55 | a close sets the flag and keeps the buffer; a second close panics |
| Channels.Channel.Receive | pkg/pipeline/validator.go:15 | a receive yields the oldest buffered item, also after close; only a drained closed channel ends the range loop |
| Channels.WaitGroup.constructor | pkg/pipeline/run.go:25-30 | a zero WaitGroup has counter 0 |
| Channels.WaitGroup.Add | pkg/pipeline/run.go:41-43 | Add moves the counter by delta, or panics when it would go negative |
| Channels.WaitGroup.Done | pkg/pipeline/run.go:45-47 | Done decrements the counter, or panics at zero |
| Routing.Dispatch | pkg/pipeline/validator.go:17-25 | an accepted output is sent on the output channel and a rejected record on the error channel, never both. A send on a closed channel panics |
| Routing.RoutingConserves | pkg/pipeline/validator.go:17-25 | every verdict goes to exactly one of the two streams |
| Routing.AcceptedInOrder | pkg/pipeline/validator.go:15-27 | the accepted stream lists the accepted positions in increasing order; a position is in it iff its verdict accepts |
| Routing.RejectedInOrder | pkg/pipeline/validator.go:15-27 | the same for the rejected stream |
| Routing.RoutingSnoc | pkg/pipeline/validator.go:15-27 | one more verdict adds its record to exactly one stream, at the end |
| Routing.RoutingAppend | pkg/pipeline/validator.go:15-27 | routing distributes over concatenation of the input |
| Validation.Validate | pkg/pipeline/validator.go:17-25 | accepts iff 0 <= Value <= 1000 and then forwards the record unchanged. Otherwise it rejects with status "invalid" and the range error, changing nothing else |
| Validation.Validations | pkg/pipeline/validator.go:15-27 | the rule is applied to every record in order |
| Validation.ValidationsAppend | pkg/pipeline/validator.go:15-27 | validating a concatenation is concatenating the validations |
| Validation.ValidationsStep | pkg/pipeline/validator.go:15-27 | one more record adds its own verdict at the end |
| Validation.ValidationsPrefix | pkg/pipeline/validator.go:15-27 | what a prefix of the input sends to each stream is a prefix of what the whole input sends there |
| Validation.ValidateIdempotent | pkg/pipeline/validator.go:17-19 | validating an output again gives the same verdict |
| Validation.Validator | pkg/pipeline/validator.go:14-29 | the loop drains its input; valid records go in order to validCh and invalid ones to errorCh. It returns when the input is closed, waits when it is open, panics iff it sends on a closed output, and closes nothing |
| Validation.ThreeRecordScenario | pkg/pipeline/pipeline_test.go:36-85 | values 50, -5 and 1001 give one valid record (the first) and two errors, each with a non-empty Error |
| Transformation.Score | pkg/pipeline/transformer.go:18-19 | the score exceeds 8 iff the value exceeds 80, and a positive value gives a positive score |
| Transformation.Transform | pkg/pipeline/transformer.go:18-36 | rejects iff the unit is "INVALID_UNIT", with status "transformation_error" and the unit error, changing nothing else. Otherwise the output has status "processed", the reading `at`, score = 0.1 * Value and IsAnomaly iff score > 8 |
| Transformation.TransformIdempotent | pkg/pipeline/transformer.go:22-36 | transforming an output again accepts a processed record as the same record and rejects a failed record as itself |
| Transformation.Transformations | pkg/pipeline/transformer.go:15-40 | the k-th record is transformed with the k-th clock reading |
| Transformation.TransformationsStep | pkg/pipeline/transformer.go:15-40 | one more record adds its own verdict at the end |
| Transformation.TransformationsSnoc | pkg/pipeline/transformer.go:15-40 | the same, stated on an appended record |
| Transformation.TransformationsPrefix | pkg/pipeline/transformer.go:15-40 | what a prefix of the input sends to each stream is a prefix of what the whole input sends there |
| Transformation.Transformer | pkg/pipeline/transformer.go:14-42 | the loop drains its input; processed records go in order to `out` and unit failures to errCh. It returns, waits or panics as the validator does, and closes nothing |
| Transformation.ThreeRecordScenario | pkg/pipeline/pipeline_test.go:87-143 | 50 and 90 in "unit_A" and 75 in "INVALID_UNIT" give two processed records with positive scores, only the second an anomaly, and one error |
| Production.ProducedRecord | pkg/pipeline/producer.go:18-31 | record i has ID rec-%04d, status "raw" and value 100 * draw. Every tenth record has value -1 and every eleventh the unit "INVALID_UNIT" |
| Production.Produced | pkg/pipeline/producer.go:17-35 | a run of n records is record 0 .. n-1 in order |
| Production.ProducedStep | pkg/pipeline/producer.go:17-35 | a run of n + 1 records extends the run of n by record n |
| Production.ProducedValueRange | pkg/pipeline/producer.go:20 | a value that is not overridden lies in [0, 100) |
| Production.ProducedIds | pkg/pipeline/producer.go:19 | every record's ID parses back to its index, so IDs are distinct and ordered |
| Production.Producer | pkg/pipeline/producer.go:15-38 | sends the records of the run in order and then closes `out`. It panics iff `out` was already closed |
| Production.TenRecords | pkg/pipeline/pipeline_test.go:8-33 | ten records are emitted, each with a non-empty ID; record 0 carries both injected faults |
| MetricsCollection.Step | pkg/pipeline/metricsCollector.go:20-37 | a processed record adds 1 to the processed count, its value to the total and 1 to the anomaly count if flagged; an error adds 1 to the error count; a close changes nothing |
| MetricsCollection.FoldClosedForm | pkg/pipeline/metricsCollector.go:18-39 | the metrics after any sequence of receives are the count, anomaly count and value sum of the processed records and the count of the errors |
| MetricsCollection.CollectorIgnoresInterleaving | pkg/pipeline/metricsCollector.go:18-39 | two schedules that deliver the same two streams give the same metrics |
| MetricsCollection.FoldMonotone | pkg/pipeline/metricsCollector.go:24-35 | the counters never decrease, the anomalies never exceed the processed records, and the total value never decreases while no processed value is negative |
| MetricsCollection.MetricsCollector | pkg/pipeline/metricsCollector.go:13-50 | over any schedule that does not receive from a channel after it reported closed, the loop returns the tally of both streams, and it finishes iff both channels were closed |
| MetricsCollection.StreamsInTurnFeasible | pkg/pipeline/pipeline_test.go:149-167 | delivering all processed records, a close, all errors and a close is a schedule the collector can observe |
| MetricsCollection.StreamsInTurnDelivers | pkg/pipeline/pipeline_test.go:149-167 | that schedule delivers exactly the two streams and both closes |
| MetricsCollection.FiveAndThree | pkg/pipeline/pipeline_test.go:145-184 | five processed records valued 0, 20, 40, 60, 80 (the last two anomalies) and three errors give counts 5, 3, 2 and total 200 |
| CloseProtocol.Running | pkg/pipeline/run.go:40-50 | the number of launched writers that have not returned is at most the number launched |
| CloseProtocol.StepSafe | pkg/pipeline/run.go:40-56 | an enabled step of a writer or the closer never panics and keeps the counter equal to the running writers. The channel is closed only when none runs |
| CloseProtocol.EveryScheduleSafe | pkg/pipeline/run.go:40-81 | no schedule sends after close, closes twice or drives a WaitGroup negative, and at the close every writer has returned |
| CloseProtocol.CloserProceeds | pkg/pipeline/run.go:52-56 | once every writer has returned the closer's Wait returns and it can close safely |
| CloseProtocol.TwoWritersSchedule | pkg/pipeline/run.go:40-56 | a schedule where the closer starts while a writer still sends is executable and ends closed; the closer cannot close before a launched writer returns |
| PipelineRun.CloseWhenReleased | pkg/pipeline/run.go:53-56 | the closer goroutine closes its channel iff the counter is zero, panicking if it was closed already |
| PipelineRun.FanOut | pkg/pipeline/run.go:85-93 | a fan-out copies its whole input, in order, to both outputs and closes both once the input is closed |
| PipelineRun.Drain | pkg/pipeline/run.go:108-119 | a consumer takes every buffered record, in order, and returns iff its input is closed |
| PipelineRun.StartValidators | pkg/pipeline/run.go:40-50 | the validator workers send the valid and invalid records of the input to validCh and errorCh, and every Add is matched by a Done |
| PipelineRun.StartTransformers | pkg/pipeline/run.go:59-69 | the transformer workers send the processed and failed records to processedCh and errorCh, and every Add is matched by a Done |
| PipelineRun.ProduceAndValidate | pkg/pipeline/run.go:33-56 | after the producer, the validators and validCh's closer, dataCh is closed and drained (it still holds the produced run with no workers), validCh is closed and holds the valid records, errorCh holds the invalid ones (both none with no workers), and all three counters are back at zero |
| PipelineRun.TransformAndClose | pkg/pipeline/run.go:59-81 | after the transformers and the two closers, validCh is drained (untouched with no workers), processedCh holds the processed records, errorCh has the failed ones appended, both are closed, and wg, transformerWg and errorWg are back at zero |
| PipelineRun.Distribute | pkg/pipeline/run.go:84-129 | the fan-outs, loader, error handler and collector run to the end: wg is released, processedCh and errorCh are drained, the four consumer channels are closed and drained, the loader gets processedCh, the error handler gets errorCh, and the metrics tally both |
| PipelineRun.RunAdvancedPipeline | pkg/pipeline/run.go:12-132 | the loader gets the processed records and the error handler the failed ones (none with no workers). The metrics tally exactly those. processed + errors equals the number of records produced when numWorkers > 0, and is 0 with no workers |
| PipelineRun.Conservation | tests/main_test.go:64-68 | every record produced reaches exactly one of loader and error handler |
| PipelineRun.SinkContents | tests/main_test.go:89-106 | every record the error handler gets carries an error and status "invalid" or "transformation_error". Every record the loader gets has status "processed" and a value in [0, 1000], and no error when none was produced with one |
| PipelineRun.ProducedRoute | pkg/pipeline/producer.go:26-31 | record i fails validation ("invalid") iff i % 10 == 0; of the rest it fails the unit check iff i % 11 == 0 |
| PipelineRun.HandledSnoc | pkg/pipeline/run.go:40-69 | one more record reaches the error handler iff validation or the unit check rejects it |
| PipelineRun.ErrorPathCount | pkg/pipeline/producer.go:26-31 | a run of n records sends to the error handler as many records as there are indices i < n with i % 10 == 0 or i % 11 == 0, and the rest to the loader |
| PipelineRun.ErrorPathIds | pkg/pipeline/producer.go:26-31 | record rec-i of a run of n reaches the error handler iff i % 10 == 0 or i % 11 == 0, and the loader iff neither holds |
| PipelineRun.FiftyRecords | tests/main_test.go:20-23 | fifty records give nine errors and forty-one processed records |
| LegacyMain.LegacyRecord | src/main.go:42-58 | record i has ID rec-%04d, timestamp = the reading taken for record i plus i seconds, sensor-k, Room-k, unit "Celsius" and value 10 + 100 * draw. Every seventh record has value -1 and every eleventh the unit "INVALID_UNIT" |
| LegacyMain.LegacyProduced | src/main.go:41-62 | a run of n records is record 0 .. n-1 in order |
| LegacyMain.LegacyProducedStep | src/main.go:41-62 | a run of n + 1 records extends the run of n by record n |
| LegacyMain.LegacyValueRange | src/main.go:46 | a value that is not overridden lies in [10, 110) |
| LegacyMain.LegacyLabels | src/main.go:45-48 | the sensor is sensor-1 .. sensor-5 and the location Room-1 .. Room-3 |
| LegacyMain.LegacyTimestampsIncrease | src/main.go:44 | with a clock that never goes backwards, later records carry strictly later timestamps |
| LegacyMain.LegacyRoute | src/main.go:52-58 | record i fails validation iff i % 7 == 0; of the rest it fails the unit check iff i % 11 == 0 |
| LegacyMain.Leave | src/main.go:39 | the deferred Done runs on return and on a panic, not while the goroutine waits, and panics at zero |
| LegacyMain.LegacyProducer | src/main.go:38-65 | sends the run in order, closes dataCh and calls Done. It returns iff dataCh was open and the counter positive |
| LegacyMain.LegacyValidator | src/main.go:68-85 | the validator loop, then close(validCh) and Done. Unless it panics (also while it waits on an open input), it has drained its input into validCh and errorCh as the package validator routes them. It returns iff its input was closed, validCh open, no error send failed and the counter positive. It panics whenever validCh was already closed once the input is drained |
| LegacyMain.LegacyTransformer | src/main.go:88-118 | the transformer loop, then close(out) and Done. Unless it panics, it has drained its input into `out` and errorCh as the package transformer routes them, with the same outcomes for `out` as the validator has for validCh |
| LegacyMain.LegacyMetricsCollector | src/main.go:174-217 | the same tally as the package collector, then Done once both channels have closed |
| LegacyMain.SharedOutputDoubleClose | src/main.go:234-243 | with two workers per stage, the second validator's close of validCh and the second transformer's close of processedCh panic |

## Left out

- Channel capacity and back-pressure are not modelled. A `Channel` has an unbounded buffer, so a send never blocks.
  - In the source every channel holds 100 records.
  - With no workers and more than 100 records, the package producer blocks for good and `RunAdvancedPipeline` never returns.
  - The model instead returns empty sinks for no workers.
- RunAdvancedPipeline: one schedule only; the goroutines run one after another.
  - Other interleavings can order the sinks differently when several workers share a channel.
  - Their safety is covered by `CloseProtocol.EveryScheduleSafe`.
  - The interleaving independence of the metrics is covered by `MetricsCollection.CollectorIgnoresInterleaving`.
  - The order of records in the sinks under other schedules is not modelled.
- `time.Now`, `rand.Float64` and `rand.Intn` are function parameters.
  - The producers' `time.Sleep` calls are left out, as is all logging.
  - The draws are assumed to lie in their documented ranges (`IsDraw`, `IsLegacyDraw`).
- `float64` is modelled as `real`. Rounding in `0.1 * Value`, in the comparison with 8 and in the running total is not modelled.
- Loader and ErrorHandler write JSON lines to files; `os.Create`, `json.Marshal` text and write errors are not modelled.
  - The model keeps what each one receives (`PipelineRun.Drain`).
  - It also keeps the JSON member layout of the records (`Types.RecordObject`, `Types.ProcessedObject`).
- The Metrics struct's declaring file is not part of this model. Its four fields are taken from their uses in `pkg/pipeline/metricsCollector.go`.
- The `src/main.go` wiring is not modelled as a working pipeline. That covers its `RunAdvancedPipeline`, `main`, `loader` and `errorHandler`.
  - Its workers close shared channels (see Findings).
  - Its loader and its metrics forwarder compete for processedCh.
- Production.TenRecords: no claim about SensorID and Location.
  - `pkg/pipeline/pipeline_test.go:20-25` expects both non-empty.
  - `pkg/pipeline/producer.go:18-24` leaves them empty, and the model follows the producer.
- PipelineRun.FiftyRecords: no claim that some record is an anomaly, as `tests/main_test.go:108-111` expects. Whether one is depends on the random draws.
- Validation.Validate: a record that passes keeps its status "raw". The code does not set a "valid" status, and the model follows the code.
- PipelineRun.FanOut: requires both outputs open. In the pipeline nothing else closes them; the deferred closes run in reverse order, second output first.

## Findings

| source | as written | input that shows it | evidently intended | confidence | as-written member | corrected member |
|---|---|---|---|---|---|---|
| src/main.go:83 | every validator goroutine closes the shared validCh, and every transformer closes the shared processedCh (src/main.go:116). The coordinator closes both again (src/main.go:248-249) | `RunAdvancedPipeline` with numWorkers = 2 (main passes 3), once dataCh is closed and drained: the second validator's close panics | close each shared channel once, after its last writer returns, as pkg/pipeline/run.go:52-56 does with a WaitGroup | high, not executed | LegacyMain.SharedOutputDoubleClose | CloseProtocol.EveryScheduleSafe |

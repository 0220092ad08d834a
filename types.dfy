// Records that flow through the pipeline, the metrics snapshot, and the
// field names the JSON encoder gives them (pkg/pipeline/types.go).

module Types {

  /** A clock reading (time.Time), in nanoseconds. The package pipeline
      only stores it; the legacy producer adds whole seconds to it and
      relies on its order. */
  type Time = int

  // Status labels the stages write.
  const StatusRaw := "raw"
  const StatusInvalid := "invalid"
  const StatusTransformationError := "transformation_error"
  const StatusProcessed := "processed"

  /** One sensor reading, with the status and error the stages attach to it. */
  datatype DataRecord = DataRecord(
    ID: string,
    Timestamp: Time,
    SensorID: string,
    Value: real,
    Unit: string,
    Location: string,
    Status: string,
    Error: string)

  /** A record after transformation: the whole DataRecord embedded by value,
      plus three fields of its own. */
  datatype ProcessedRecord = ProcessedRecord(
    Record: DataRecord,
    ProcessedAt: Time,
    AnomalyScore: real,
    IsAnomaly: bool)
  {
    // The embedded record's fields are promoted, as Go does for an embedded struct.
    function ID(): string { Record.ID }
    function Timestamp(): Time { Record.Timestamp }
    function SensorID(): string { Record.SensorID }
    function Location(): string { Record.Location }
    function Value(): real { Record.Value }
    function Unit(): string { Record.Unit }
    function Status(): string { Record.Status }
    function Error(): string { Record.Error }
  }

  /** The snapshot the metrics collector returns. */
  datatype Metrics = Metrics(
    ProcessedCount: int,
    ErrorCount: int,
    AnomalyCount: int,
    TotalValue: real)

  const ZeroMetrics := Metrics(0, 0, 0, 0.0)

  // ---------------------------------------------------------------------------
  // JSON encoding: a record becomes a list of (field, value) members in the
  // order of its struct tags; `error` carries `omitempty`. Each field is
  // written under the name its tag gives it.

  datatype Field =
    | IdField | TimestampField | SensorIdField | ValueField | UnitField | LocationField
    | StatusField | ErrorField | ProcessedAtField | AnomalyScoreField | IsAnomalyField

  /** The name a struct tag gives a field. */
  function JsonName(f: Field): string {
    match f
    case IdField => "id"
    case TimestampField => "timestamp"
    case SensorIdField => "sensor_id"
    case ValueField => "value"
    case UnitField => "unit"
    case LocationField => "location"
    case StatusField => "status"
    case ErrorField => "error"
    case ProcessedAtField => "processed_at"
    case AnomalyScoreField => "anomaly_score"
    case IsAnomalyField => "is_anomaly"
  }

  /** No two fields share a name, so a member is found by its name alone. */
  lemma JsonNamesDistinct(f: Field, g: Field)
    requires JsonName(f) == JsonName(g)
    ensures f == g
  {
    var n := JsonName(f);
    assert n[0] == JsonName(g)[0] && |n| == |JsonName(g)|;
    if |n| > 1 {
      assert n[1] == JsonName(g)[1];
    }
  }

  datatype JsonValue = JString(s: string) | JNumber(x: real) | JBool(b: bool) | JTime(t: Time)

  /** One written line: the members in the order they are written, and the
      value of each. */
  datatype JsonObject = JsonObject(order: seq<Field>, members: map<Field, JsonValue>)

  /** The member names of a line, in order. */
  function Names(fs: seq<Field>): seq<string> {
    if fs == [] then [] else [JsonName(fs[0])] + Names(fs[1..])
  }

  lemma {:induction false} NamesAppend(a: seq<Field>, b: seq<Field>)
    ensures Names(a + b) == Names(a) + Names(b)
  {
    if a == [] {
      assert a + b == b;
    } else {
      assert (a + b)[0] == a[0] && (a + b)[1..] == a[1..] + b;
      NamesAppend(a[1..], b);
    }
  }

  const RecordFieldList := [IdField, TimestampField, SensorIdField, ValueField, UnitField, LocationField, StatusField]
  const ProcessedFieldList := [ProcessedAtField, AnomalyScoreField, IsAnomalyField]

  function RecordFields(r: DataRecord): seq<Field> {
    RecordFieldList + (if r.Error == "" then [] else [ErrorField])
  }

  function RecordMembers(r: DataRecord): map<Field, JsonValue> {
    var m := map[IdField := JString(r.ID), TimestampField := JTime(r.Timestamp),
                 SensorIdField := JString(r.SensorID), ValueField := JNumber(r.Value),
                 UnitField := JString(r.Unit), LocationField := JString(r.Location),
                 StatusField := JString(r.Status)];
    if r.Error == "" then m else m[ErrorField := JString(r.Error)]
  }

  /** What json.Marshal writes for a DataRecord. */
  function RecordObject(r: DataRecord): JsonObject {
    JsonObject(RecordFields(r), RecordMembers(r))
  }

  /** What is written for a ProcessedRecord: the embedded record's members
      flattened into the same object, then the three of its own. */
  function ProcessedObject(p: ProcessedRecord): JsonObject {
    JsonObject(
      RecordFields(p.Record) + ProcessedFieldList,
      RecordMembers(p.Record)[ProcessedAtField := JTime(p.ProcessedAt)]
                             [AnomalyScoreField := JNumber(p.AnomalyScore)]
                             [IsAnomalyField := JBool(p.IsAnomaly)])
  }

  /** A line lists each of its members once, and nothing else. */
  ghost predicate WellFormed(obj: JsonObject) {
    (forall i, j :: 0 <= i < j < |obj.order| ==> obj.order[i] != obj.order[j]) &&
    (forall f :: f in obj.members <==> f in obj.order)
  }

  const RecordNameList := ["id", "timestamp", "sensor_id", "value", "unit", "location", "status"]
  const ProcessedNameList := ["processed_at", "anomaly_score", "is_anomaly"]

  /** A DataRecord line carries exactly the eight tagged names, in struct
      order, with `error` left out when it is empty. */
  lemma RecordNames(r: DataRecord)
    ensures Names(RecordObject(r).order) == RecordNameList + (if r.Error == "" then [] else ["error"])
  {
    assert Names(RecordFieldList) == RecordNameList;
    assert Names([ErrorField]) == ["error"];
    NamesAppend(RecordFieldList, if r.Error == "" then [] else [ErrorField]);
  }

  /** A ProcessedRecord line carries the embedded record's names, flattened,
      followed by its own three. */
  lemma ProcessedNames(p: ProcessedRecord)
    ensures Names(ProcessedObject(p).order) == Names(RecordObject(p.Record).order) + ProcessedNameList
  {
    assert Names(ProcessedFieldList) == ProcessedNameList;
    NamesAppend(RecordFields(p.Record), ProcessedFieldList);
  }

  /** A DataRecord line lists each member once and carries nothing unlisted. */
  lemma RecordWellFormed(r: DataRecord)
    ensures WellFormed(RecordObject(r))
  {
    var fs := RecordFields(r);
    forall i, j | 0 <= i < j < |fs| ensures fs[i] != fs[j] {
      assert fs[i] == RecordFieldList[i];
      if j >= |RecordFieldList| {
        assert fs[j] == ErrorField;
      }
    }
  }

  /** So does a ProcessedRecord line: its own three fields are not among the
      embedded record's. */
  lemma ProcessedWellFormed(p: ProcessedRecord)
    ensures WellFormed(ProcessedObject(p))
  {
    RecordWellFormed(p.Record);
    var rs := RecordFields(p.Record);
    var fs := ProcessedObject(p).order;
    assert forall f :: f in rs ==> f !in ProcessedFieldList;
    forall i, j | 0 <= i < j < |fs| ensures fs[i] != fs[j] {
      if j < |rs| {
        assert fs[i] == rs[i] && fs[j] == rs[j];
      } else if i >= |rs| {
        assert fs[i] == ProcessedFieldList[i - |rs|] && fs[j] == ProcessedFieldList[j - |rs|];
      } else {
        assert fs[i] in rs && fs[j] in ProcessedFieldList;
      }
    }
  }

  datatype Option<T> = None | Some(value: T)

  function StringAt(obj: JsonObject, f: Field): Option<string> {
    if f in obj.members && obj.members[f].JString? then Some(obj.members[f].s) else None
  }

  function NumberAt(obj: JsonObject, f: Field): Option<real> {
    if f in obj.members && obj.members[f].JNumber? then Some(obj.members[f].x) else None
  }

  function TimeAt(obj: JsonObject, f: Field): Option<Time> {
    if f in obj.members && obj.members[f].JTime? then Some(obj.members[f].t) else None
  }

  function BoolAt(obj: JsonObject, f: Field): Option<bool> {
    if f in obj.members && obj.members[f].JBool? then Some(obj.members[f].b) else None
  }

  /** A strict decoder of what the encoder writes: every member but `error`
      must be present with the right kind, and a missing `error` reads as the
      empty string. (json.Unmarshal itself is laxer: it leaves any missing
      member at its zero value.) */
  function DecodeRecord(obj: JsonObject): Option<DataRecord> {
    var id, ts, sensor := StringAt(obj, IdField), TimeAt(obj, TimestampField), StringAt(obj, SensorIdField);
    var value, unit := NumberAt(obj, ValueField), StringAt(obj, UnitField);
    var location, status := StringAt(obj, LocationField), StringAt(obj, StatusField);
    var err := StringAt(obj, ErrorField);
    if id.Some? && ts.Some? && sensor.Some? && value.Some? && unit.Some? && location.Some? && status.Some? then
      Some(DataRecord(id.value, ts.value, sensor.value, value.value, unit.value, location.value, status.value,
                      if err.Some? then err.value else ""))
    else
      None
  }

  function DecodeProcessed(obj: JsonObject): Option<ProcessedRecord> {
    var r, at := DecodeRecord(obj), TimeAt(obj, ProcessedAtField);
    var score, flag := NumberAt(obj, AnomalyScoreField), BoolAt(obj, IsAnomalyField);
    if r.Some? && at.Some? && score.Some? && flag.Some? then
      Some(ProcessedRecord(r.value, at.value, score.value, flag.value))
    else
      None
  }

  /** Reading back a written line gives the record that was written, so
      leaving out an empty `error` loses nothing. */
  lemma RecordRoundTrip(r: DataRecord)
    ensures DecodeRecord(RecordObject(r)) == Some(r)
  {
  }

  /** The same holds for a processed record, whose members follow the
      flattened record's. */
  lemma ProcessedRoundTrip(p: ProcessedRecord)
    ensures DecodeProcessed(ProcessedObject(p)) == Some(p)
  {
  }
}

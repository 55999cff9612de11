/**
 * The already-decoded request and response records of the Kapacitor UDF
 * session protocol, restricted to the parts the prophet handler reads or
 * writes. Wire framing and serialisation belong to the host library.
 */
module Protocol {

  /** The value types an option may declare in the `info` response. */
  datatype ValueType = BoolType | IntType | DoubleType | StringType | DurationType

  /** One value of an `init` option: a protobuf `oneof`. */
  datatype OptionValue =
    | BoolValue(b: bool)
    | IntValue(i: int)
    | DoubleValue(d: real)
    | StringValue(s: string)
    | DurationValue(ns: int)

  /** Reading `stringValue` of a value that holds another member yields the protobuf default. */
  function StringOf(v: OptionValue): string {
    if v.StringValue? then v.s else ""
  }

  /** Reading `intValue` of a value that holds another member yields the protobuf default. */
  function IntOf(v: OptionValue): int {
    if v.IntValue? then v.i else 0
  }

  /** Reading `doubleValue` of a value that holds another member yields the protobuf default. */
  function DoubleOf(v: OptionValue): real {
    if v.DoubleValue? then v.d else 0.0
  }

  /** A named option of the `init` request, with its list of values. */
  datatype InitOption = InitOption(name: string, values: seq<OptionValue>)

  datatype EdgeType = StreamEdge | BatchEdge

  datatype OptionInfo = OptionInfo(valueTypes: seq<ValueType>)

  /**
   * The reply to `info`. The protocol's `provides` field is named `produces`
   * here, because `provides` is a reserved word of Dafny.
   */
  datatype InfoResponse = InfoResponse(wants: EdgeType, produces: EdgeType, options: map<string, OptionInfo>)

  datatype InitResponse = InitResponse(success: bool, error: string)

  datatype RestoreResponse = RestoreResponse(success: bool, error: string)

  /** The `begin_batch` message: series name, group, tags and the batch size. */
  datatype BatchBegin = BatchBegin(name: string, group: string, tags: map<string, string>, size: int, byName: bool)

  /** A `point` message; only the parts the handler reads or writes. */
  datatype BatchPoint = BatchPoint(time: int, name: string, group: string, tags: map<string, string>, fieldsDouble: map<string, real>)

  /** The `end_batch` message. */
  datatype BatchEnd = BatchEnd(name: string, group: string, tmax: int, tags: map<string, string>)

  /** A response written back to the host. */
  datatype Response =
    | InfoResp(info: InfoResponse)
    | InitResp(init: InitResponse)
    | SnapshotResp(snapshot: string)
    | RestoreResp(restore: RestoreResponse)
    | BeginResp(begin: BatchBegin)
    | PointResp(point: BatchPoint)
    | EndResp(end: BatchEnd)

  /**
   * Reading `fieldsDouble[name]` of a point: a protobuf map yields 0.0 for a
   * key it does not hold.
   */
  function FieldValue(fields: map<string, real>, name: string): real {
    if name in fields then fields[name] else 0.0
  }
}

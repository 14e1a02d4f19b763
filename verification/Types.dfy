/** The record types shared by the logger, the formatters and the outputs (package types). */
module Types {
  import opened Bytes

  /** A float64 or float32: NaN, an infinity, or a finite value with the text strconv gives it. */
  datatype Float = NaN | PosInf | NegInf | Finite(text: bytes)

  /** A Go interface value, by the cases the formatters switch on. */
  datatype Any =
    | Nil
    | AString(s: bytes)
    | ABool(b: bool)
    | AInt(i: int)
    | AUint(u: nat)
    | AFloat(f: Float)
    | AError(text: bytes)
    | AOther(printed: bytes)

  datatype FieldKind = KindUnknown | KindString | KindInt | KindInt64 | KindFloat64 | KindBool | KindError | KindAny

  datatype FieldValue = FieldValue(kind: FieldKind, int64: int, float64: Float, str: bytes, any: Any)

  const ZERO_FLOAT := Finite([0x30])

  function StringValue(s: bytes): FieldValue { FieldValue(KindString, 0, ZERO_FLOAT, s, Nil) }
  function IntValue(i: int): FieldValue { FieldValue(KindInt, i, ZERO_FLOAT, [], Nil) }
  function Int64Value(i: int): FieldValue { FieldValue(KindInt64, i, ZERO_FLOAT, [], Nil) }
  function Float64Value(f: Float): FieldValue { FieldValue(KindFloat64, 0, f, [], Nil) }
  function BoolValue(b: bool): FieldValue { FieldValue(KindBool, if b then 1 else 0, ZERO_FLOAT, [], Nil) }
  function ErrorValue(text: bytes): FieldValue { FieldValue(KindError, 0, ZERO_FLOAT, text, Nil) }
  function AnyValue(v: Any): FieldValue { FieldValue(KindAny, 0, ZERO_FLOAT, [], v) }

  /** A pre-declared key: its name and the pre-escaped member prefix. */
  datatype FieldKey = FieldKey(name: bytes, jsonFragment: bytes)

  datatype TypedFieldData = TypedFieldData(key: bytes, keyDesc: Option<FieldKey>, val: FieldValue, value: Any)

  const TRACE: nat := 0
  const DEBUG: nat := 1
  const INFO: nat := 2
  const WARN: nat := 3
  const ERROR: nat := 4
  const FATAL: nat := 5
  const PANIC: nat := 6

  /** A log entry. timestamp is the wall clock in unix nanoseconds, None for the zero time. */
  datatype LogEntry = LogEntry(
    level: nat,
    timestampUnix: int,
    timestamp: Option<int>,
    component: bytes,
    message: bytes,
    file: bytes,
    line: int,
    staticFields: seq<TypedFieldData>,
    staticFieldCount: nat,
    fields: seq<TypedFieldData>)

  const NO_FIELD := TypedFieldData([], None, FieldValue(KindUnknown, 0, ZERO_FLOAT, [], Nil), Nil)

  const ZERO_ENTRY := LogEntry(0, 0, None, [], [], [], 0, [], 0, [])

  /** An entry as adapters, samplers and maskers see it: its scalars and every field it emits. */
  datatype Record = Record(level: nat, nanos: int, component: bytes, message: bytes, file: bytes, line: int,
                           fields: seq<TypedFieldData>)

  /** Every field a formatter emits: the counted static ones, then the dynamic ones. */
  function AllFields(e: LogEntry): seq<TypedFieldData> {
    e.staticFields[..if e.staticFieldCount <= |e.staticFields| then e.staticFieldCount else |e.staticFields|] + e.fields
  }
}

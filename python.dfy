/** The Python-side values and exceptions that cross the boundary of the core,
    and the JSON encoder it calls, taken as a parameter. */
module Python {
  import opened Wrappers
  import opened Text

  /** The Python values that reach an encoder or a type test in the core. */
  datatype PyValue =
    | PyNone
    | PyBool(b: bool)
    | PyInt(i: int)
    | PyStr(s: string)
    | PyBytes(bytes: seq<byte>)
    | PyList(items: seq<PyValue>)
    | PyDict(entries: seq<(string, PyValue)>)
      /** a pydantic model, with the text its `model_dump_json()` gives */
    | PyModel(modelJson: string)
      /** any other object, with the text `str()` gives for it */
    | PyObject(typeName: string, text: string)

  /** gRPC status codes, as far as the core distinguishes them. */
  datatype GrpcCode = AlreadyExists | OtherCode(code: int)

  /** The exceptions the core raises or lets escape. */
  datatype PyError =
    | ValueError(message: string)
    | TypeError(message: string)
      /** whatever `json.dumps` raised (its TypeError or ValueError), propagated unchanged */
    | JsonEncodeError(message: string)
    | DedupeViolationErr(details: string)
    | RpcError(code: GrpcCode, details: string)

  type PyResult<T> = Result<T, PyError>

  /** `json.dumps` (Err with the exception text when the value cannot be
      encoded) and `str()`. Both belong to the standard library, not to the
      core, so every operation that encodes takes them as a parameter. */
  datatype Json = Json(dumps: PyValue -> Result<string, string>, str: PyValue -> string)

  /** `options.namespace or self.namespace`: Python's `or` keeps a per-call
      namespace only when it is given and non-empty, and otherwise falls
      back to the client's. */
  function NamespaceOr(optNamespace: Option<string>, clientNamespace: string): (r: string)
    ensures optNamespace.Some? && optNamespace.value != "" ==> r == optNamespace.value
    ensures optNamespace.None? || optNamespace.value == "" ==> r == clientNamespace
    ensures r == "" <==> (optNamespace.None? || optNamespace.value == "") && clientNamespace == ""
  {
    if optNamespace.Some? && optNamespace.value != "" then optNamespace.value else clientNamespace
  }

  /** The outcome of a gRPC call: the response, or the status it failed with. */
  datatype RpcOutcome<T> = RpcOk(response: T) | RpcFailed(code: GrpcCode, details: string)

  /** `google.protobuf.Timestamp`. */
  datatype Timestamp = Timestamp(seconds: int, nanos: int)

  /** The conversion the SDK applies to a POSIX time `t` (a float):
      `Timestamp(seconds=int(t), nanos=int(t % 1 * 1e9))`. `int()` truncates
      toward zero and `%` is Python's floored remainder. */
  function TimestampOf(t: real): (ts: Timestamp)
    ensures 0 <= ts.nanos < 1000000000
    ensures t >= 0.0 ==> (ts.seconds as real) + (ts.nanos as real) / 1000000000.0 <= t
                         < (ts.seconds as real) + (ts.nanos as real + 1.0) / 1000000000.0
  {
    var seconds := if t >= 0.0 then t.Floor else -((-t).Floor);
    var fraction := t - (t.Floor as real);
    Timestamp(seconds, (fraction * 1000000000.0).Floor)
  }
}

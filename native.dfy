/** The connection's native surface (`SQLiteBase`), as far as the function
    bridge uses it. Its readers and converters are foreign code whose bodies
    are not part of this model: they are uninterpreted functions carried in a
    `Surface`. Everything the bridge does to the engine or to user objects is
    appended to one log of effects, in order. */
module Native {
  import opened Values

  /** An opaque native value cell (`sqlite3_value*`). */
  datatype Cell = Cell(handle: nat)

  /** An opaque native callback context (`sqlite3_context*`). */
  datatype Context = Context(handle: nat)

  /** The engine's per-evaluation aggregate token, as returned by
      `AggregateContext`. */
  datatype Token = Token(handle: nat)

  /** The foreign functions the bridge calls for their value. */
  datatype Surface = Surface(
    valueType: Cell -> TypeAffinity,       // GetParamValueType
    int64Of: Cell -> int64,                // GetParamValueInt64
    doubleOf: Cell -> Double64,            // GetParamValueDouble
    textOf: Cell -> string,                // GetParamValueText
    bytesOf: Cell -> seq<byte>,            // the bytes GetParamValueBytes copies
    aggregateContext: Context -> Token,    // AggregateContext
    parseDate: string -> Instant,          // ToDateTime(string)
    formatDate: Instant -> string)         // ToString(DateTime)

  /** A result posted to a callback context by one of the `Return*` calls. */
  datatype NativeResult =
    | ReturnedNull
    | ReturnedInt64(i: int64)
    | ReturnedDouble(d: Double64)
    | ReturnedText(s: string)
    | ReturnedBlob(bytes: seq<byte>)
    | ReturnedError(message: string)

  /** The bridge's methods that the engine can be told to call back. */
  datatype Trampoline =
    | ScalarTrampoline
    | StepTrampoline
    | FinalTrampoline
    | CompareTrampoline
    | Compare16Trampoline

  /** One observable effect of the bridge. */
  datatype Effect =
    | Posted(context: Context, result: NativeResult)
    | FunctionCreated(name: string, nArgs: int32, needCollSeq: bool, binding: object,
                      invoke: Option<Trampoline>, step: Option<Trampoline>, final: Option<Trampoline>)
    | CollationCreated(name: string, binding: object,
                       compare: Option<Trampoline>, compare16: Option<Trampoline>)
    | Disposed(obj: HostValue)

  class SqliteBase {
    const surface: Surface
    var effects: seq<Effect>

    constructor (surface: Surface)
      ensures this.surface == surface && effects == []
    {
      this.surface := surface;
      effects := [];
    }

    /** ReturnNull / ReturnInt64 / ReturnDouble / ReturnText / ReturnBlob /
        ReturnError on a callback context. */
    method Return(context: Context, result: NativeResult)
      modifies this
      ensures effects == old(effects) + [Posted(context, result)]
    {
      effects := effects + [Posted(context, result)];
    }

    method CreateFunction(name: string, nArgs: int32, needCollSeq: bool, binding: object,
                          invoke: Option<Trampoline>, step: Option<Trampoline>, final: Option<Trampoline>)
      modifies this
      ensures effects == old(effects) + [FunctionCreated(name, nArgs, needCollSeq, binding, invoke, step, final)]
    {
      effects := effects + [FunctionCreated(name, nArgs, needCollSeq, binding, invoke, step, final)];
    }

    method CreateCollation(name: string, binding: object,
                           compare: Option<Trampoline>, compare16: Option<Trampoline>)
      modifies this
      ensures effects == old(effects) + [CollationCreated(name, binding, compare, compare16)]
    {
      effects := effects + [CollationCreated(name, binding, compare, compare16)];
    }

    /** `((IDisposable)obj).Dispose()` on a user object, recorded in the same
        log so that its order relative to posted results is visible. */
    method DisposeObject(obj: HostValue)
      requires IsDisposable(obj)
      modifies this
      ensures effects == old(effects) + [Disposed(obj)]
    {
      effects := effects + [Disposed(obj)];
    }

    /** GetParamValueBytes(cell, 0, buffer, 0, count): with a null buffer it
        reports the blob's length; otherwise it copies the first `count` bytes
        (fewer if the blob is shorter) into the buffer and reports how many. */
    method GetParamValueBytes(cell: Cell, buffer: array?<byte>, count: nat) returns (n: nat)
      requires buffer != null ==> count <= buffer.Length
      modifies buffer
      ensures buffer == null ==> n == |surface.bytesOf(cell)|
      ensures buffer != null ==> n <= count && n <= |surface.bytesOf(cell)|
      ensures buffer != null ==> n == count || n == |surface.bytesOf(cell)|
      ensures buffer != null ==> buffer[..n] == surface.bytesOf(cell)[..n]
      ensures buffer != null ==> buffer[n..] == old(buffer[n..])
    {
      var bytes := surface.bytesOf(cell);
      if buffer == null {
        return |bytes|;
      }
      n := if count < |bytes| then count else |bytes|;
      for i := 0 to n
        invariant buffer[..i] == bytes[..i]
        invariant buffer[i..] == old(buffer[i..])
      {
        buffer[i] := bytes[i];
      }
    }
  }
}

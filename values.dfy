/** Host-side values that cross the boundary between the embedded engine and
    user-defined functions, and the fixed-width integers the bridge uses. */
module Values {

  newtype int32 = x: int | -0x8000_0000 <= x < 0x8000_0000
  newtype int64 = x: int | -0x8000_0000_0000_0000 <= x < 0x8000_0000_0000_0000
  newtype byte = x: int | 0 <= x < 0x100

  const MinInt32: int32 := -0x8000_0000
  const MaxInt32: int32 := 0x7fff_ffff

  /** `c++` on a C# `int` in an unchecked context: wraps from the largest
      value to the smallest. */
  function Inc32(c: int32): (r: int32)
    ensures c < MaxInt32 ==> r as int == c as int + 1
    ensures c == MaxInt32 ==> r == MinInt32
  {
    if c == MaxInt32 then MinInt32 else c + 1
  }

  /** The C# `int` an unchecked computation of the mathematical value `x`
      ends with: `x` reduced modulo 2^32 into the signed range. */
  function Wrap32(x: int): (r: int32)
    ensures (r as int - x) % 0x1_0000_0000 == 0
    ensures MinInt32 as int <= x <= MaxInt32 as int ==> r as int == x
  {
    ((x + 0x8000_0000) % 0x1_0000_0000 - 0x8000_0000) as int32
  }

  /** Counting up one at a time with `++` agrees with unchecked addition: the
      increment of a wrapped value is the wrapped successor. */
  lemma IncWraps(x: int)
    ensures Inc32(Wrap32(x)) == Wrap32(x + 1)
  {
    var q, r := (x + 0x8000_0000) / 0x1_0000_0000, (x + 0x8000_0000) % 0x1_0000_0000;
    assert x + 1 + 0x8000_0000 == q * 0x1_0000_0000 + (r + 1);
    if r + 1 < 0x1_0000_0000 {
      assert (x + 1 + 0x8000_0000) % 0x1_0000_0000 == r + 1;
    } else {
      assert x + 1 + 0x8000_0000 == (q + 1) * 0x1_0000_0000;
      assert (x + 1 + 0x8000_0000) % 0x1_0000_0000 == 0;
    }
  }

  /** A double-precision value, kept as its bit pattern and never computed on. */
  datatype Double64 = Double64(bits: bv64)

  /** A host date/time value, kept as its tick count and never computed on. */
  datatype Instant = Instant(ticks: int)

  /** The engine's value classification (TypeAffinity, declared outside the
      modelled file): Uninitialized, Int64, Double, Text, Blob, Null, DateTime
      and None (here NoAffinity). */
  datatype TypeAffinity =
    | Uninitialized
    | Int64
    | Double
    | Text
    | Blob
    | Null
    | DateTime
    | NoAffinity

  /** The five classifications a native value cell can carry. */
  predicate IsStorageClass(a: TypeAffinity) {
    a == Null || a == Int64 || a == Double || a == Text || a == Blob
  }

  /** The runtime type of a host object, as far as the bridge inspects it. */
  datatype HostType =
    | LongType
    | DoubleType
    | StringType
    | ByteArrayType
    | DateTimeType
    | DBNullType
    | ExceptionType
    | ClassType(name: string)  // any other class, named by its full name

  /** A host `object`: `Nothing` is the null reference, `DBNull` is
      `DBNull.Value`, `ErrorVal` is an Exception-derived object carrying its
      message, and `ObjectVal` is an instance of any other class (a boxed int,
      a user's accumulator, ...), named by its class, possibly implementing
      IDisposable. */
  datatype HostValue =
    | Nothing
    | DBNull
    | Int64Val(i: int64)
    | DoubleVal(d: Double64)
    | TextVal(s: string)
    | BlobVal(bytes: seq<byte>)
    | DateTimeVal(t: Instant)
    | ErrorVal(message: string)
    | ObjectVal(cls: string, id: nat, disposable: bool)

  /** `obj.GetType()` for a non-null object. */
  function TypeOf(v: HostValue): HostType
    requires v != Nothing
  {
    match v
    case DBNull => DBNullType
    case Int64Val(_) => LongType
    case DoubleVal(_) => DoubleType
    case TextVal(_) => StringType
    case BlobVal(_) => ByteArrayType
    case DateTimeVal(_) => DateTimeType
    case ErrorVal(_) => ExceptionType
    case ObjectVal(cls, _, _) => ClassType(cls)
  }

  /** `obj as IDisposable != null`. */
  predicate IsDisposable(v: HostValue) {
    v.ObjectVal? && v.disposable
  }

  /** The only shapes a user function ever receives as an argument: DBNull.Value,
      a long, a double, a string or a byte array. */
  predicate IsParameterShape(v: HostValue) {
    v == DBNull || v.Int64Val? || v.DoubleVal? || v.TextVal? || v.BlobVal?
  }

  /** Exceptions thrown inside the bridge, as the callback's caller sees them. */
  datatype Fault =
    | NullReference        // a member access through a null field
    | Overflow             // `new object[n]` with n < 0
    | Argument             // ArgumentException: `Array.Copy` asked for more elements than exist
    | InvalidCast          // `(byte[])value` on a value that is not a byte array
    | UserException        // thrown by a user override

  datatype Result<T> = Ok(value: T) | Err(fault: Fault)

  /** How a callback ends: normally, or with an exception escaping to the engine. */
  datatype Outcome = Completed | Faulted(fault: Fault)

  datatype Option<T> = None | Some(value: T)
}

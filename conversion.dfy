/** The two directions of value conversion across the native boundary:
    reading an argument cell into a host value (ConvertParams, one element),
    and deciding which `Return*` call posts a host value (SetReturnValue). */
module Conversion {
  import opened Values
  import opened Native

  /** The host runtime's own conversions, which SetReturnValue calls without
      going through the connection: the static `SqliteConvert.TypeToAffinity`
      and the culture-dependent `Convert.ToInt64`, `Convert.ToDouble` and
      `ToString()`. They are foreign code, so each is an arbitrary function. */
  datatype Host = Host(
    typeToAffinity: HostType -> TypeAffinity,
    toInt64: HostValue -> int64,
    toDouble: HostValue -> Double64,
    toText: HostValue -> string)

  /** The host conversions behave as .NET defines them on the shapes that
      have a storage class of their own. */
  ghost predicate Conventional(h: Host) {
    && h.typeToAffinity(DBNullType) == Null
    && h.typeToAffinity(LongType) == Int64
    && h.typeToAffinity(DoubleType) == Double
    && h.typeToAffinity(StringType) == Text
    && h.typeToAffinity(ByteArrayType) == Blob
    && (forall i :: h.toInt64(Int64Val(i)) == i)
    && (forall d :: h.toDouble(DoubleVal(d)) == d)
    && (forall t :: h.toText(TextVal(t)) == t)
  }

  /** The host value ConvertParams stores for one argument cell, chosen by the
      cell's affinity. A blob is the full byte content of the cell (the method
      obtains it by the length probe and the fill); the DateTime case parses the
      cell's text; any other affinity leaves the array element at its default,
      the null reference. */
  function ToHostValue(s: Surface, c: Cell): (v: HostValue)
    ensures IsParameterShape(v) <==> IsStorageClass(s.valueType(c))
    ensures v == Nothing <==> (s.valueType(c) == Uninitialized || s.valueType(c) == NoAffinity)
  {
    match s.valueType(c)
    case Null => DBNull
    case Int64 => Int64Val(s.int64Of(c))
    case Double => DoubleVal(s.doubleOf(c))
    case Text => TextVal(s.textOf(c))
    case Blob => BlobVal(s.bytesOf(c))
    case DateTime => DateTimeVal(s.parseDate(s.textOf(c)))
    case Uninitialized => Nothing
    case NoAffinity => Nothing
  }

  /** The argument array ConvertParams builds from the first cells. */
  function ConvertAll(s: Surface, cells: seq<Cell>): (args: seq<HostValue>)
    ensures |args| == |cells|
    ensures forall i :: 0 <= i < |cells| ==> args[i] == ToHostValue(s, cells[i])
  {
    seq(|cells|, i requires 0 <= i < |cells| => ToHostValue(s, cells[i]))
  }

  /** What ConvertParams(nArgs, argsptr) produces, given the surface of the
      connection when `_base` is set and None when it is null: the array
      allocation fails on a negative count, the copy fails on a count larger
      than the argument array, the first cell read dereferences `_base`, and
      otherwise every one of the first `nArgs` cells is converted. */
  function ConvertParamsSpec(s: Option<Surface>, nArgs: int32, cells: seq<Cell>): (r: Result<seq<HostValue>>)
    ensures r.Ok? <==> 0 <= nArgs as int <= |cells| && (nArgs == 0 || s.Some?)
    ensures r.Ok? ==> |r.value| == nArgs as int
    ensures r == Err(Overflow) <==> nArgs < 0
    ensures r == Err(Argument) <==> 0 <= |cells| < nArgs as int
  {
    if nArgs < 0 then Err(Overflow)
    else if nArgs as int > |cells| then Err(Argument)
    else if nArgs == 0 then Ok([])
    else if s.None? then Err(NullReference)
    else Ok(ConvertAll(s.value, cells[..nArgs]))
  }

  /** The native value a cell of one of the five storage classes holds, as the
      `Return*` call that would post it back. */
  function NativeValueOf(s: Surface, c: Cell): NativeResult
    requires IsStorageClass(s.valueType(c))
  {
    match s.valueType(c)
    case Null => ReturnedNull
    case Int64 => ReturnedInt64(s.int64Of(c))
    case Double => ReturnedDouble(s.doubleOf(c))
    case Text => ReturnedText(s.textOf(c))
    case Blob => ReturnedBlob(s.bytesOf(c))
  }

  /** What SetReturnValue does with a host value: post one result (a
      DateTime as the text the connection formats it to), post nothing (an
      affinity outside the five), or throw on the byte-array cast. None of
      these choices consults the connection. */
  datatype PostDecision = Post(result: NativeResult) | PostDate(t: Instant) | PostNothing | CastFails

  predicate Posts(d: PostDecision) {
    d.Post? || d.PostDate?
  }

  /** SetReturnValue's precedence chain: null or DBNull, then DateTime, then
      Exception, then the affinity of the value's runtime type. */
  function ReturnFor(h: Host, v: HostValue): (d: PostDecision)
    ensures (d.Post? && d.result.ReturnedError?) <==> v.ErrorVal?
    ensures v.ErrorVal? ==> d == Post(ReturnedError(v.message))
    ensures d.PostDate? <==> v.DateTimeVal?
    ensures d.CastFails? <==>
      v != Nothing && v != DBNull && !v.DateTimeVal? && !v.ErrorVal? && !v.BlobVal?
      && h.typeToAffinity(TypeOf(v)) == Blob
    ensures d.PostNothing? <==>
      v != Nothing && v != DBNull && !v.DateTimeVal? && !v.ErrorVal?
      && !IsStorageClass(h.typeToAffinity(TypeOf(v)))
  {
    if v == Nothing || v == DBNull then Post(ReturnedNull)
    else if v.DateTimeVal? then PostDate(v.t)
    else if v.ErrorVal? then Post(ReturnedError(v.message))
    else
      match h.typeToAffinity(TypeOf(v))
      case Null => Post(ReturnedNull)
      case Int64 => Post(ReturnedInt64(h.toInt64(v)))
      case Double => Post(ReturnedDouble(h.toDouble(v)))
      case Text => Post(ReturnedText(h.toText(v)))
      case Blob => if v.BlobVal? then Post(ReturnedBlob(v.bytes)) else CastFails
      case _ => PostNothing
  }

  /** The log entries SetReturnValue leaves on a connection: at most one
      posted result, a DateTime formatted by that connection. */
  function PostEffects(s: Surface, context: Context, d: PostDecision): (es: seq<Effect>)
    ensures |es| <= 1
    ensures |es| == 1 <==> Posts(d)
    ensures d.Post? ==> es == [Posted(context, d.result)]
    ensures d.PostDate? ==> es == [Posted(context, ReturnedText(s.formatDate(d.t)))]
  {
    match d
    case Post(result) => [Posted(context, result)]
    case PostDate(t) => [Posted(context, ReturnedText(s.formatDate(t)))]
    case PostNothing => []
    case CastFails => []
  }

  /** How SetReturnValue ends: the byte-array cast is evaluated before `_base`
      is dereferenced, every posting call dereferences `_base`, and an
      affinity outside the five returns without touching it. */
  function SetReturnOutcome(d: PostDecision, attached: bool): (o: Outcome)
    ensures o == Completed <==> d.PostNothing? || (attached && Posts(d))
    ensures o == Faulted(InvalidCast) <==> d.CastFails?
    ensures o == Faulted(NullReference) <==> !attached && Posts(d)
  {
    if d.CastFails? then Faulted(InvalidCast)
    else if Posts(d) && !attached then Faulted(NullReference)
    else Completed
  }

  /** Reading a native value into a host argument and returning that argument
      unchanged posts back the very value that was read: null as null, an
      integer as the same integer, a double with the same bits, text as the
      same characters, a blob as the same bytes. */
  lemma {:induction false} ReadThenReturn(h: Host, s: Surface, c: Cell)
    requires Conventional(h)
    requires IsStorageClass(s.valueType(c))
    ensures ReturnFor(h, ToHostValue(s, c)) == Post(NativeValueOf(s, c))
  {
    match s.valueType(c)
    case Null =>
    case Int64 =>
      assert h.toInt64(Int64Val(s.int64Of(c))) == s.int64Of(c);
    case Double =>
      assert h.toDouble(DoubleVal(s.doubleOf(c))) == s.doubleOf(c);
    case Text =>
      assert h.toText(TextVal(s.textOf(c))) == s.textOf(c);
    case Blob =>
  }

  /** Every argument ConvertParams passes to a user function whose cells carry
      one of the five storage classes has one of the five parameter shapes. */
  lemma ArgumentsHaveParameterShapes(s: Surface, cells: seq<Cell>)
    requires forall i :: 0 <= i < |cells| ==> IsStorageClass(s.valueType(cells[i]))
    ensures forall v :: v in ConvertAll(s, cells) ==> IsParameterShape(v)
  {
    forall v | v in ConvertAll(s, cells) ensures IsParameterShape(v) {
      var i :| 0 <= i < |cells| && ConvertAll(s, cells)[i] == v;
    }
  }

  /** The precedence of SetReturnValue: a DateTime is always posted as the
      text the connection formats it to, and null or DBNull always as null,
      whatever affinity their types have. */
  lemma PrecedenceOverAffinity(h: Host, v: HostValue)
    ensures v == Nothing || v == DBNull ==> ReturnFor(h, v) == Post(ReturnedNull)
    ensures v.DateTimeVal? ==> ReturnFor(h, v) == PostDate(v.t)
  {
  }
}

/** Whole callback sequences run against one connection through the
    bindings' contracts: a SUM-like aggregate over three rows, the same
    aggregate over no rows, and a collation that reverses the order. */
module Scenarios {
  import opened Values
  import opened Native
  import opened Conversion
  import opened Aggregates
  import opened Functions
  import opened Registry

  const Bound: int := 1_000_000

  /** A connection whose argument cells hold small integers (the handle is the
      value). */
  const IntSurface: Surface := Surface(
    c => Int64, (c: Cell) => if c.handle < Bound then c.handle as int64 else 0, c => Double64(0),
    c => "", c => [], (ctx: Context) => Token(ctx.handle),
    s => Instant(0), t => "")

  /** Host conversions under which a long keeps its own affinity and value. */
  const IntHost: Host := Host(
    (t: HostType) => if t == LongType then Int64 else Null,
    (v: HostValue) => if v.Int64Val? then v.i else 0, v => Double64(0), v => "")

  function AsSmallInt(v: HostValue): int {
    if v.Int64Val? && -Bound < v.i as int < Bound then v.i as int else 0
  }

  /** SUM: Step adds the first argument to the running total kept in the
      context data; Final returns the total. */
  const Sum: Behaviour := Behaviour(
    args => Nothing,
    (args: seq<HostValue>, n: int32, d: HostValue) =>
      StepOutcome(Int64Val((AsSmallInt(d) + (if |args| > 0 then AsSmallInt(args[0]) else 0)) as int64), false),
    d => d,
    (a, b) => 0)

  const SumClass: FunctionClass := FunctionClass([SqliteFunctionAttribute("SUM", 1, Aggregate)], Sum, false)

  /** A fresh connection with SUM registered and bound. */
  method BindSum() returns (sqlbase: SqliteBase, f: SqliteFunction)
    ensures fresh(sqlbase) && fresh(f) && sqlbase.surface == IntSurface
    ensures f.Valid() && f.base == sqlbase && f.host == IntHost && f.behaviour == Sum && f.contextDataList == Some(map[])
  {
    sqlbase := new SqliteBase(IntSurface);
    var registry := new FunctionRegistry(IntHost);
    registry.RegisterFunction(SumClass);
    var bindings := registry.BindFunctions(sqlbase);
    f := bindings[0];
  }

  method StepRow(f: SqliteFunction, ctx: Context, value: nat, args: array<Cell>) returns (stepNumber: int32)
    requires f.Valid() && f.base != null && f.host == IntHost && f.behaviour == Sum && f.base.surface == IntSurface
    requires args.Length == 1 && value < 1000
    requires f.contextDataList.Some?
    requires AsSmallInt(Entry(f.contextDataList.value, Token(ctx.handle)).data) < 1000
    modifies f, args
    ensures f.Valid() && f.base == old(f.base) && f.base.effects == old(f.base.effects)
    ensures stepNumber == Entry(old(f.contextDataList.value), Token(ctx.handle)).count
    ensures f.contextDataList == Some(AfterStep(old(f.contextDataList.value), Token(ctx.handle),
      Int64Val((AsSmallInt(Entry(old(f.contextDataList.value), Token(ctx.handle)).data) + value) as int64)))
  {
    stepNumber := Entry(f.contextDataList.value, Token(ctx.handle)).count;
    args[0] := Cell(value);
    assert args[..] == [Cell(value)];
    var outcome := f.StepCallback(ctx, 1, args);
  }

  /** The SUM aggregate over the rows 1, 2, 3: the steps are numbered 1, 2, 3,
      Final posts 6, and the token's state is gone afterwards. */
  method SumOfOneTwoThree() returns (stepNumbers: seq<int32>, posted: seq<Effect>, leftover: bool)
    ensures stepNumbers == [1, 2, 3]
    ensures posted == [Posted(Context(7), ReturnedInt64(6))]
    ensures !leftover
  {
    var sqlbase, f := BindSum();
    var ctx := Context(7);
    var args := new Cell[1];
    var before := |sqlbase.effects|;

    var n1 := StepRow(f, ctx, 1, args);
    var n2 := StepRow(f, ctx, 2, args);
    var n3 := StepRow(f, ctx, 3, args);
    stepNumbers := [n1, n2, n3];
    assert f.contextDataList.value[Token(7)].data == Int64Val(6);

    var outcome := f.FinalCallback(ctx);
    posted := sqlbase.effects[before..];
    leftover := Token(7) in f.contextDataList.value;
  }

  /** The SUM aggregate over no rows: Final still runs once, receives null,
      and posts SQL NULL. */
  method SumOfNoRows() returns (posted: seq<Effect>)
    ensures posted == [Posted(Context(7), ReturnedNull)]
  {
    var sqlbase, f := BindSum();
    var before := |sqlbase.effects|;
    var outcome := f.FinalCallback(Context(7));
    posted := sqlbase.effects[before..];
  }

  /** Host conversions that know two user classes: a widget, whose affinity
      is none of the five, and a blob wrapper, whose affinity is Blob. */
  const WidgetHost: Host := Host(
    (t: HostType) => if t == ClassType("Widget") then NoAffinity else if t == ClassType("BlobWrapper") then Blob else Null,
    v => 0, v => Double64(0), v => "")

  /** A scalar function called with no arguments on a binding that has no
      connection: returning a widget completes, since that path never touches
      `_base`; returning a blob wrapper fails the byte-array cast first;
      returning a long dereferences `_base`. */
  method UnboundScalar() returns (widget: Outcome, wrapper: Outcome, long: Outcome)
    ensures widget == Completed
    ensures wrapper == Faulted(InvalidCast)
    ensures long == Faulted(NullReference)
  {
    var none := new Cell[0];
    var returning := (v: HostValue) => Behaviour(args => v, (args, n, d) => StepOutcome(d, false), d => Nothing, (a, b) => 0);
    var f := new SqliteFunction(WidgetHost, returning(ObjectVal("Widget", 1, false)), false);
    widget := f.ScalarCallback(Context(1), 0, none);
    f := new SqliteFunction(WidgetHost, returning(ObjectVal("BlobWrapper", 2, false)), false);
    wrapper := f.ScalarCallback(Context(1), 0, none);
    f := new SqliteFunction(WidgetHost, returning(Int64Val(5)), false);
    long := f.ScalarCallback(Context(1), 0, none);
  }

  /** Character-by-character comparison: -1, 0 or 1. */
  function OrdinalCompare(a: string, b: string): int32 {
    if a == [] && b == [] then 0
    else if a == [] then -1
    else if b == [] then 1
    else if a[0] < b[0] then -1
    else if a[0] > b[0] then 1
    else OrdinalCompare(a[1..], b[1..])
  }

  /** A collation whose Compare reverses the natural order of "a" and "b":
      both trampolines report "a" after "b". */
  method ReversedCollation() returns (narrow: int32, wide: int32)
    ensures narrow == 1 && wide == 1
  {
    var reversed := Behaviour(args => Nothing, (args, n, d) => StepOutcome(d, false), d => Nothing,
      (a, b) => OrdinalCompare(b, a));
    var f := new SqliteFunction(IntHost, reversed, false);
    narrow := f.CompareCallback(null, 1, "a", 1, "b");
    wide := f.CompareCallback16(null, 2, "a", 2, "b");
  }
}

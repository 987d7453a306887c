/** Two behaviours of Dispose(bool) as written, each exhibited on a concrete
    binding, beside the corrected disposal. */
module Findings {
  import opened Values
  import opened Native
  import opened Conversion
  import opened Functions
  import opened Registry

  /** A connection surface for the examples; its values are never consulted. */
  const Quiet: Surface := Surface(
    c => Null, c => 0, c => Double64(0), c => "", c => [], (ctx: Context) => Token(ctx.handle),
    s => Instant(0), t => "")

  /** Host conversions for the examples; they are never consulted either. */
  const QuietHost: Host := Host(ht => Null, v => 0, v => Double64(0), v => "")

  /** As written, disposing a binding twice throws: the first call nulls the
      store, and the second dereferences it. */
  method SecondDisposeFaults() returns (first: Outcome, second: Outcome)
    ensures first == Completed
    ensures second == Faulted(NullReference)
  {
    var f := new SqliteFunction(QuietHost, Defaults, false);
    ghost var order;
    first, order := f.Dispose(true);
    second, order := f.Dispose(true);
  }

  /** As written, a disposed collation binding still holds its wide-text
      compare trampoline, while the narrow-text one is released. */
  method Compare16SurvivesDispose() returns (compare: Option<Trampoline>, compare16: Option<Trampoline>)
    ensures compare == None
    ensures compare16 == Some(Compare16Trampoline)
  {
    var sqlbase := new SqliteBase(Quiet);
    var registry := new FunctionRegistry(QuietHost);
    registry.RegisterFunction(FunctionClass([SqliteFunctionAttribute("REVERSED", 2, Collation)], Defaults, false));
    var bindings := registry.BindFunctions(sqlbase);
    var f := bindings[0];
    var outcome, order := f.Dispose(true);
    compare, compare16 := f.compareFunc, f.compareFunc16;
  }

  /** The corrected disposal: a second call is harmless, and afterwards no
      trampoline of a collation binding is held. */
  method GuardedDisposeIsIdempotent() returns (compare: Option<Trampoline>, compare16: Option<Trampoline>, detached: bool)
    ensures compare == None && compare16 == None
    ensures detached
  {
    var sqlbase := new SqliteBase(Quiet);
    var registry := new FunctionRegistry(QuietHost);
    registry.RegisterFunction(FunctionClass([SqliteFunctionAttribute("REVERSED", 2, Collation)], Defaults, false));
    var bindings := registry.BindFunctions(sqlbase);
    var f := bindings[0];
    ghost var order := f.DisposeGuarded(true);
    order := f.DisposeGuarded(true);
    compare, compare16 := f.compareFunc, f.compareFunc16;
    detached := f.base == null && f.contextDataList == None;
  }
}

/** `SqliteFunction`: one binding of a user-defined scalar function, aggregate
    or collation to one connection. Its callbacks are what the engine calls;
    they convert the arguments, keep the aggregate store, call the user's
    overrides and post the result. */
module Functions {
  import opened Values
  import opened Native
  import opened Conversion
  import opened Aggregates

  /** The kind of user-defined function an attribute declares. */
  datatype FunctionType = Scalar | Aggregate | Collation

  /** How a user Step ends: the context data it left in its `ref` parameter
      (assignments made before a throw persist), and whether it threw. */
  datatype StepOutcome = StepOutcome(contextData: HostValue, threw: bool)

  /** The four virtual members a derived class overrides: Invoke, Step, Final
      and Compare. User code is foreign, so each is an arbitrary function. */
  datatype Behaviour = Behaviour(
    invoke: seq<HostValue> -> HostValue,
    step: (seq<HostValue>, int32, HostValue) -> StepOutcome,
    final: HostValue -> HostValue,
    compare: (string, string) -> int32)

  /** The base class's own members: Invoke and Final return null, Step does
      nothing, Compare returns 0. */
  const Defaults: Behaviour :=
    Behaviour(args => Nothing, (args, n, d) => StepOutcome(d, false), d => Nothing, (a, b) => 0)

  /** A class that overrides nothing returns SQL NULL from every scalar call
      and every aggregate, keeps no aggregate state, and orders all strings as
      equal. */
  lemma DefaultsPostNull(h: Host)
    ensures forall args :: ReturnFor(h, Defaults.invoke(args)) == Post(ReturnedNull)
    ensures forall d :: ReturnFor(h, Defaults.final(d)) == Post(ReturnedNull)
    ensures forall args, n, d :: Defaults.step(args, n, d) == StepOutcome(d, false)
    ensures forall a, b :: Defaults.compare(a, b) == 0
  {
  }

  /** FunctionType's declared values: Scalar 0, Aggregate 1, Collation 2. */
  function FunctionTypeValue(k: FunctionType): (v: int)
    ensures 0 <= v <= 2
  {
    match k
    case Scalar => 0
    case Aggregate => 1
    case Collation => 2
  }

  function FunctionTypeOf(v: int): Option<FunctionType> {
    if v == 0 then Some(Scalar)
    else if v == 1 then Some(Aggregate)
    else if v == 2 then Some(Collation)
    else None
  }

  /** The declared values identify the function kinds: reading a value back
      gives the kind it came from, and only 0, 1 and 2 name a kind. */
  lemma FunctionTypeValuesRoundTrip(k: FunctionType, v: int)
    ensures FunctionTypeOf(FunctionTypeValue(k)) == Some(k)
    ensures FunctionTypeOf(v).Some? <==> 0 <= v <= 2
    ensures FunctionTypeOf(v).Some? ==> FunctionTypeValue(FunctionTypeOf(v).value) == v
  {
  }

  /** The user Step as StepCallback runs it: a failed argument conversion
      throws before Step is reached, leaving the context data as it was. */
  function StepCall(b: Behaviour, args: Result<seq<HostValue>>, d: AggregateData): StepOutcome {
    if args.Err? then StepOutcome(d.data, true) else b.step(args.value, d.count, d.data)
  }

  /** How StepCallback ends once the store has been updated. */
  function StepOutcomeOf(args: Result<seq<HostValue>>, so: StepOutcome): Outcome {
    if args.Err? then Faulted(args.fault) else if so.threw then Faulted(UserException) else Completed
  }

  /** The five delegate fields that keep the binding's trampolines alive. */
  datatype Wiring = Wiring(invoke: Option<Trampoline>, step: Option<Trampoline>, final: Option<Trampoline>,
                           compare: Option<Trampoline>, compare16: Option<Trampoline>)

  /** The trampolines BindFunctions wires for each kind of function. */
  function WiringFor(kind: FunctionType): (w: Wiring)
    ensures w.invoke.Some? <==> kind == Scalar
    ensures w.step.Some? <==> kind == Aggregate
    ensures w.final.Some? <==> kind == Aggregate
    ensures w.compare.Some? <==> kind == Collation
    ensures w.compare16.Some? <==> kind == Collation
  {
    Wiring(
      if kind == Scalar then Some(ScalarTrampoline) else None,
      if kind == Aggregate then Some(StepTrampoline) else None,
      if kind == Aggregate then Some(FinalTrampoline) else None,
      if kind == Collation then Some(CompareTrampoline) else None,
      if kind == Collation then Some(Compare16Trampoline) else None)
  }

  class SqliteFunction {
    /** The host runtime's conversions SetReturnValue uses. */
    const host: Host
    /** The derived class's overrides. */
    const behaviour: Behaviour
    /** Whether the derived class extends SqliteFunctionEx. */
    const isEx: bool

    var base: SqliteBase?
    var contextDataList: Option<Store>
    var invokeFunc: Option<Trampoline>
    var stepFunc: Option<Trampoline>
    var finalFunc: Option<Trampoline>
    var compareFunc: Option<Trampoline>
    var compareFunc16: Option<Trampoline>
    /** The context of the callback in progress (`_context`). */
    var context: Option<Context>

    /** Aggregate state exists only while the binding is attached to a
        connection, and the store is dropped only together with `_base`. */
    ghost predicate Valid()
      reads this
    {
      && (contextDataList.None? ==> base == null)
      && (base == null ==> contextDataList.None? || contextDataList.value == map[])
    }

    function Wired(): Wiring
      reads this
    {
      Wiring(invokeFunc, stepFunc, finalFunc, compareFunc, compareFunc16)
    }

    /** The connection's surface while `_base` is set. */
    function Attached(): Option<Surface>
      reads this
    {
      if base == null then None else Some(base.surface)
    }

    /** The protected constructor: an empty store, nothing attached or wired. */
    constructor (host: Host, behaviour: Behaviour, isEx: bool)
      ensures Valid()
      ensures this.host == host && this.behaviour == behaviour && this.isEx == isEx
      ensures base == null && contextDataList == Some(map[]) && context == None
      ensures Wired() == Wiring(None, None, None, None, None)
    {
      this.host := host;
      this.behaviour := behaviour;
      this.isEx := isEx;
      base := null;
      contextDataList := Some(map[]);
      invokeFunc, stepFunc, finalFunc, compareFunc, compareFunc16 := None, None, None, None, None;
      context := None;
    }

    /** One iteration of ConvertParams' loop: the switch on the cell's
        affinity. */
    method ConvertCell(cell: Cell) returns (v: HostValue)
      requires base != null
      ensures v == ToHostValue(base.surface, cell)
    {
      match base.surface.valueType(cell) {
        case Null => v := DBNull;
        case Int64 => v := Int64Val(base.surface.int64Of(cell));
        case Double => v := DoubleVal(base.surface.doubleOf(cell));
        case Text => v := TextVal(base.surface.textOf(cell));
        case Blob =>
          var x := base.GetParamValueBytes(cell, null, 0);
          var blob := new byte[x];
          var copied := base.GetParamValueBytes(cell, blob, x);
          assert blob[..] == blob[..copied] == base.surface.bytesOf(cell);
          v := BlobVal(blob[..]);
        case DateTime => v := DateTimeVal(base.surface.parseDate(base.surface.textOf(cell)));
        case Uninitialized => v := Nothing;  // the array element keeps its default
        case NoAffinity => v := Nothing;
      }
    }

    /** ConvertParams: converts the first `nArgs` argument cells, working on a
        copy of the caller's array, which it never writes. A blob is read by
        the two-call protocol: a probe with a null buffer for its length, then
        a fill of a buffer of exactly that length. */
    method ConvertParams(nArgs: int32, argsptr: array<Cell>) returns (r: Result<seq<HostValue>>)
      ensures r == ConvertParamsSpec(Attached(), nArgs, argsptr[..])
    {
      if nArgs < 0 {
        return Err(Overflow);
      }
      var parms := new HostValue[nArgs](_ => Nothing);
      if nArgs as int > argsptr.Length {
        return Err(Argument);
      }
      var argint := new Cell[nArgs](i requires 0 <= i <= argsptr.Length reads argsptr =>
        if i < argsptr.Length then argsptr[i] else Cell(0));
      assert argint[..] == argsptr[..nArgs];
      for n := 0 to nArgs as int
        invariant base != null
          ==> forall i :: 0 <= i < n ==> parms[i] == ToHostValue(base.surface, argint[i])
        invariant base == null ==> n == 0
        invariant argint[..] == argsptr[..nArgs]
      {
        if base == null {
          return Err(NullReference);
        }
        parms[n] := ConvertCell(argint[n]);
      }
      r := Ok(parms[..]);
      assert nArgs == 0 ==> parms[..] == [];
      if base != null {
        assert parms[..] == ConvertAll(base.surface, argsptr[..nArgs]);
      }
    }

    /** SetReturnValue: posts at most one result, chosen by ReturnFor's
        precedence. The byte-array cast can throw instead, and only the
        posting calls go through `_base`. */
    method SetReturnValue(ctx: Context, returnValue: HostValue) returns (outcome: Outcome)
      modifies base
      ensures outcome == SetReturnOutcome(ReturnFor(host, returnValue), base != null)
      ensures base != null ==>
        base.effects == old(base.effects) + PostEffects(base.surface, ctx, ReturnFor(host, returnValue))
    {
      var decision := ReturnFor(host, returnValue);
      if decision.PostNothing? {
        return Completed;
      }
      if decision.CastFails? {
        // `(byte[])returnValue` is evaluated before the call on `_base`
        return Faulted(InvalidCast);
      }
      if base == null {
        return Faulted(NullReference);
      }
      match decision {
        case Post(result) => base.Return(ctx, result);
        case PostDate(t) => base.Return(ctx, ReturnedText(base.surface.formatDate(t)));
      }
      outcome := Completed;
    }

    /** ScalarCallback: records the context, converts the arguments, calls
        Invoke and posts its result. */
    method ScalarCallback(ctx: Context, nArgs: int32, argsptr: array<Cell>) returns (outcome: Outcome)
      requires Valid()
      modifies this, base
      ensures Valid()
      ensures base == old(base) && contextDataList == old(contextDataList) && Wired() == old(Wired())
      ensures context == Some(ctx)
      ensures
        var args := ConvertParamsSpec(Attached(), nArgs, argsptr[..]);
        if args.Err? then
          outcome == Faulted(args.fault) && (base != null ==> base.effects == old(base.effects))
        else
          var decision := ReturnFor(host, behaviour.invoke(args.value));
          && outcome == SetReturnOutcome(decision, base != null)
          && (base != null ==> base.effects == old(base.effects) + PostEffects(base.surface, ctx, decision))
    {
      context := Some(ctx);
      var args := ConvertParams(nArgs, argsptr);
      if args.Err? {
        return Faulted(args.fault);
      }
      outcome := SetReturnValue(ctx, behaviour.invoke(args.value));
    }

    /** CompareCallback: the narrow-text collation trampoline; it ignores the
        user data handle and the lengths. */
    function CompareCallback(ptr: object?, len1: int32, ptr1: string, len2: int32, ptr2: string): int32 {
      behaviour.compare(ptr1, ptr2)
    }

    /** CompareCallback16: the wide-text collation trampoline. */
    function CompareCallback16(ptr: object?, len1: int32, ptr1: string, len2: int32, ptr2: string): int32 {
      behaviour.compare(ptr1, ptr2)
    }

    /** StepCallback: finds or creates the token's entry, calls Step with the
        entry's counter and context data, and advances the counter whether or
        not Step (or the argument conversion before it) threw. */
    method StepCallback(ctx: Context, nArgs: int32, argsptr: array<Cell>) returns (outcome: Outcome)
      requires Valid()
      modifies this
      ensures Valid()
      ensures base == old(base) && Wired() == old(Wired())
      ensures base == null ==>
        outcome == Faulted(NullReference) && contextDataList == old(contextDataList) && context == old(context)
      ensures base != null ==>
        var t := base.surface.aggregateContext(ctx);
        var m := old(contextDataList).value;
        var args := ConvertParamsSpec(Some(base.surface), nArgs, argsptr[..]);
        var so := StepCall(behaviour, args, Entry(m, t));
        && contextDataList == Some(AfterStep(m, t, so.contextData))
        && outcome == StepOutcomeOf(args, so)
        && context == Some(ctx)
    {
      if base == null {
        return Faulted(NullReference);
      }
      var t := base.surface.aggregateContext(ctx);
      var m := contextDataList.value;
      var data := if t in m then m[t] else Fresh;
      context := Some(ctx);
      var args := ConvertParams(nArgs, argsptr);
      var so := StepCall(behaviour, args, data);
      // the `finally` block: the counter advances even when Step threw
      contextDataList := Some(m[t := AggregateData(Inc32(data.count), so.contextData)]);
      outcome := StepOutcomeOf(args, so);
    }

    /** FinalCallback: removes the token's entry (if any), calls Final with its
        context data (null when no Step ran), posts Final's result, and only
        then disposes the removed data if it is disposable. */
    method FinalCallback(ctx: Context) returns (outcome: Outcome)
      requires Valid()
      modifies this, base
      ensures Valid()
      ensures base == old(base) && Wired() == old(Wired())
      ensures base == null ==>
        outcome == Faulted(NullReference) && contextDataList == old(contextDataList) && context == old(context)
      ensures base != null ==>
        var t := base.surface.aggregateContext(ctx);
        var taken := Take(old(contextDataList).value, t);
        var decision := ReturnFor(host, behaviour.final(taken.data));
        && contextDataList == Some(taken.rest)
        && context == Some(ctx)
        && base.effects == old(base.effects) + PostEffects(base.surface, ctx, decision)
             + (if !decision.CastFails? && IsDisposable(taken.data) then [Disposed(taken.data)] else [])
        && outcome == (if decision.CastFails? then Faulted(InvalidCast) else Completed)
    {
      if base == null {
        return Faulted(NullReference);
      }
      var n := base.surface.aggregateContext(ctx);
      var obj := Nothing;
      var m := contextDataList.value;
      if n in m {
        obj := m[n].data;
        contextDataList := Some(m - {n});
      }
      context := Some(ctx);
      outcome := SetReturnValue(ctx, behaviour.final(obj));
      if outcome.Faulted? {
        return;
      }
      if IsDisposable(obj) {
        base.DisposeObject(obj);
      }
    }

    /** Dispose(bool): with `disposing` set, disposes the context data of every
        live entry that is disposable (in dictionary order), clears the store,
        then nulls `_InvokeFunc`, `_StepFunc`, `_FinalFunc`, `_CompareFunc`,
        `_base` and the store itself. `_CompareFunc16` is left as it was, and a
        second call faults on the null store. */
    method Dispose(disposing: bool) returns (outcome: Outcome, ghost order: seq<Token>)
      requires Valid()
      modifies this, base
      ensures Valid()
      ensures !disposing ==> outcome == Completed && unchanged(this) && (base != null ==> unchanged(base))
      ensures disposing && old(contextDataList).None? ==>
        outcome == Faulted(NullReference) && unchanged(this)
      ensures disposing && old(contextDataList).Some? ==>
        && outcome == Completed
        && Enumerates(old(contextDataList).value, order)
        && (old(base) != null ==>
              old(base).effects == old(base.effects) + DisposalsOf(old(contextDataList).value, order))
        && base == null && contextDataList == None
        && Wired() == Wiring(None, None, None, None, old(compareFunc16))
        && context == old(context)
    {
      order := [];
      if !disposing {
        return Completed, order;
      }
      if contextDataList.None? {
        return Faulted(NullReference), order;
      }
      var m := contextDataList.value;
      var remaining := m.Keys;
      while remaining != {}
        invariant remaining <= m.Keys
        invariant forall i :: 0 <= i < |order| ==> order[i] in m && order[i] !in remaining
        invariant forall i, j :: 0 <= i < j < |order| ==> order[i] != order[j]
        invariant forall t :: t in m ==> t in remaining || t in order
        invariant unchanged(this)
        invariant base != null ==> base.effects == old(base.effects) + DisposalsOf(m, order)
        decreases remaining
      {
        var t :| t in remaining;
        var d := m[t].data;
        if IsDisposable(d) {
          base.DisposeObject(d);
        }
        DisposalsOfAppend(m, order, t);
        order := order + [t];
        remaining := remaining - {t};
      }
      contextDataList := Some(map[]);

      invokeFunc := None;
      stepFunc := None;
      finalFunc := None;
      compareFunc := None;
      base := null;
      contextDataList := None;
      outcome := Completed;
    }

    /** The public Dispose(): Dispose(true), which disposes the context data
        of every aggregate still in progress. */
    method DisposeBinding() returns (outcome: Outcome, ghost order: seq<Token>)
      requires Valid()
      modifies this, base
      ensures Valid()
      ensures old(contextDataList).None? ==> outcome == Faulted(NullReference) && unchanged(this)
      ensures old(contextDataList).Some? ==>
        && outcome == Completed
        && Enumerates(old(contextDataList).value, order)
        && (old(base) != null ==>
              old(base).effects == old(base.effects) + DisposalsOf(old(contextDataList).value, order))
        && base == null && contextDataList == None
        && Wired() == Wiring(None, None, None, None, old(compareFunc16))
        && context == old(context)
    {
      outcome, order := Dispose(true);
    }

    /** Dispose(bool) as evidently intended: a second call does nothing, and
        `_CompareFunc16` is nulled with the other trampolines. */
    method DisposeGuarded(disposing: bool) returns (ghost order: seq<Token>)
      requires Valid()
      modifies this, base
      ensures Valid()
      ensures !disposing || old(contextDataList).None? ==> unchanged(this) && (base != null ==> unchanged(base))
      ensures disposing && old(contextDataList).Some? ==>
        && Enumerates(old(contextDataList).value, order)
        && (old(base) != null ==>
              old(base).effects == old(base.effects) + DisposalsOf(old(contextDataList).value, order))
        && base == null && contextDataList == None
        && Wired() == Wiring(None, None, None, None, None)
        && context == old(context)
    {
      order := [];
      if !disposing || contextDataList.None? {
        return;
      }
      var outcome;
      outcome, order := Dispose(true);
      compareFunc16 := None;
    }
  }

  /** Both collation trampolines forward to the same Compare override, and
      neither looks at its user data handle or length arguments. */
  lemma CompareCallbacksAgree(f: SqliteFunction, p: object?, q: object?, a: string, b: string,
                              l1: int32, l2: int32, k1: int32, k2: int32)
    ensures f.CompareCallback(p, l1, a, l2, b) == f.behaviour.compare(a, b)
    ensures f.CompareCallback16(q, k1, a, k2, b) == f.CompareCallback(p, l1, a, l2, b)
  {
  }
}

/** The catalog of declared user functions (`_registeredFunctions`) and the
    binder that attaches one fresh instance per catalog entry to a
    connection. The catalog is an explicit object here rather than a static
    list; a catalog entry carries the class to instantiate, whose overrides
    stand for the instance `Activator.CreateInstance` would build. */
module Registry {
  import opened Values
  import opened Native
  import opened Conversion
  import opened Functions

  /** A `SqliteFunctionAttribute`: the SQL name, the argument count (-1 for
      any number) and the kind of function. */
  datatype SqliteFunctionAttribute = SqliteFunctionAttribute(name: string, arguments: int32, funcType: FunctionType)

  /** A class deriving from SqliteFunction: the SqliteFunction attributes it
      carries, in declaration order; the overrides its instances have; whether
      it derives from SqliteFunctionEx. */
  datatype FunctionClass = FunctionClass(attributes: seq<SqliteFunctionAttribute>, behaviour: Behaviour, isEx: bool)

  /** A catalog entry: the attribute with `_instanceType` set to its class. */
  datatype Registration = Registration(attribute: SqliteFunctionAttribute, instanceType: FunctionClass)

  /** The entries RegisterFunction adds for a class: one per attribute, in
      order, each naming the class; none for a class without attributes. */
  function RegistrationsOf(typ: FunctionClass): (rs: seq<Registration>)
    ensures |rs| == |typ.attributes|
    ensures forall i :: 0 <= i < |rs| ==> rs[i].attribute == typ.attributes[i] && rs[i].instanceType == typ
  {
    seq(|typ.attributes|, i requires 0 <= i < |typ.attributes| => Registration(typ.attributes[i], typ))
  }

  /** The registration call BindFunctions makes for an entry bound to `f`:
      CreateCollation with both compare trampolines for a collation, otherwise
      CreateFunction with Invoke alone for a scalar or Step and Final for an
      aggregate. */
  function BindEffect(f: SqliteFunction, r: Registration): (e: Effect)
    ensures e.CollationCreated? <==> r.attribute.funcType == Collation
    ensures e.CollationCreated? ==>
      e == CollationCreated(r.attribute.name, f, Some(CompareTrampoline), Some(Compare16Trampoline))
    ensures e.FunctionCreated? ==>
      && e.name == r.attribute.name && e.nArgs == r.attribute.arguments && e.binding == f
      && e.needCollSeq == r.instanceType.isEx
      && (e.invoke.Some? <==> r.attribute.funcType == Scalar)
      && (e.step.Some? <==> r.attribute.funcType == Aggregate)
      && (e.final.Some? <==> r.attribute.funcType == Aggregate)
  {
    var a := r.attribute;
    var w := WiringFor(a.funcType);
    if a.funcType != Collation then
      FunctionCreated(a.name, a.arguments, r.instanceType.isEx, f, w.invoke, w.step, w.final)
    else
      CollationCreated(a.name, f, w.compare, w.compare16)
  }

  function BindEffects(fs: seq<SqliteFunction>, rs: seq<Registration>): (es: seq<Effect>)
    requires |fs| == |rs|
    ensures |es| == |rs|
    ensures forall i :: 0 <= i < |rs| ==> es[i] == BindEffect(fs[i], rs[i])
  {
    seq(|fs|, i requires 0 <= i < |fs| => BindEffect(fs[i], rs[i]))
  }

  /** A binding freshly attached for a catalog entry: the entry's overrides,
      the connection, an empty aggregate store, no callback in progress, and
      the trampolines of the entry's kind. */
  ghost predicate BoundFor(f: SqliteFunction, r: Registration, sqlbase: SqliteBase, host: Host)
    reads f
  {
    && f.Valid()
    && f.host == host
    && f.behaviour == r.instanceType.behaviour
    && f.isEx == r.instanceType.isEx
    && f.base == sqlbase
    && f.contextDataList == Some(map[])
    && f.context == None
    && f.Wired() == WiringFor(r.attribute.funcType)
  }

  /** One iteration of BindFunctions' loop: instantiate the entry's class,
      attach the connection, wire the trampolines of the entry's kind and
      register them. */
  method BindOne(pr: Registration, sqlbase: SqliteBase, host: Host) returns (f: SqliteFunction)
    modifies sqlbase
    ensures fresh(f) && BoundFor(f, pr, sqlbase, host)
    ensures sqlbase.effects == old(sqlbase.effects) + [BindEffect(f, pr)]
  {
    f := new SqliteFunction(host, pr.instanceType.behaviour, pr.instanceType.isEx);
    f.base := sqlbase;
    f.invokeFunc := if pr.attribute.funcType == Scalar then Some(ScalarTrampoline) else None;
    f.stepFunc := if pr.attribute.funcType == Aggregate then Some(StepTrampoline) else None;
    f.finalFunc := if pr.attribute.funcType == Aggregate then Some(FinalTrampoline) else None;
    f.compareFunc := if pr.attribute.funcType == Collation then Some(CompareTrampoline) else None;
    f.compareFunc16 := if pr.attribute.funcType == Collation then Some(Compare16Trampoline) else None;

    if pr.attribute.funcType != Collation {
      sqlbase.CreateFunction(pr.attribute.name, pr.attribute.arguments, f.isEx, f,
                             f.invokeFunc, f.stepFunc, f.finalFunc);
    } else {
      sqlbase.CreateCollation(pr.attribute.name, f, f.compareFunc, f.compareFunc16);
    }
  }

  /** The runtime's catalog, with the host conversions the bindings it
      creates use. */
  class FunctionRegistry {
    const host: Host
    var registered: seq<Registration>

    constructor (host: Host)
      ensures this.host == host && registered == []
    {
      this.host := host;
      registered := [];
    }

    /** RegisterFunction: appends one entry per SqliteFunction attribute of the
        class, in order. */
    method RegisterFunction(typ: FunctionClass)
      modifies this
      ensures registered == old(registered) + RegistrationsOf(typ)
    {
      var arAtt := typ.attributes;
      var u := |arAtt|;
      for y := 0 to u
        invariant registered == old(registered) + RegistrationsOf(typ)[..y]
      {
        // `as SqliteFunctionAttribute` cannot yield null: the attributes were
        // requested by that type.
        var at := arAtt[y];
        registered := registered + [Registration(at, typ)];
        assert RegistrationsOf(typ)[..y + 1] == RegistrationsOf(typ)[..y] + [Registration(at, typ)];
      }
      assert RegistrationsOf(typ)[..u] == RegistrationsOf(typ);
    }

    /** BindFunctions: one fresh, distinct binding per catalog entry, in
        catalog order, each wired by kind and registered with the connection
        by one CreateFunction or CreateCollation call, in the same order. */
    method BindFunctions(sqlbase: SqliteBase) returns (functions: seq<SqliteFunction>)
      modifies sqlbase
      ensures |functions| == |registered|
      ensures forall i :: 0 <= i < |functions| ==> fresh(functions[i]) && BoundFor(functions[i], registered[i], sqlbase, host)
      ensures forall i, j :: 0 <= i < j < |functions| ==> functions[i] != functions[j]
      ensures sqlbase.effects == old(sqlbase.effects) + BindEffects(functions, registered)
    {
      var lFunctions: seq<SqliteFunction> := [];
      for k := 0 to |registered|
        invariant |lFunctions| == k
        invariant forall i :: 0 <= i < k ==> fresh(lFunctions[i]) && BoundFor(lFunctions[i], registered[i], sqlbase, host)
        invariant forall i, j :: 0 <= i < j < k ==> lFunctions[i] != lFunctions[j]
        invariant sqlbase.effects == old(sqlbase.effects) + BindEffects(lFunctions, registered[..k])
      {
        var pr := registered[k];
        var f := BindOne(pr, sqlbase, host);
        assert BindEffects(lFunctions + [f], registered[..k + 1])
          == BindEffects(lFunctions, registered[..k]) + [BindEffect(f, pr)];
        lFunctions := lFunctions + [f];
      }
      assert registered[..|registered|] == registered;
      functions := lFunctions;
    }
  }
}

/** The per-binding aggregate-state store (`_contextDataList`): a map from the
    engine's aggregate token to the step counter and the user's context data.
    The functions here are the transitions StepCallback, FinalCallback and
    Dispose(true) make; the lemmas state the lifecycle the store guarantees. */
module Aggregates {
  import opened Values
  import opened Native

  /** `AggregateData`: `_count` starts at 1, `_data` at null. */
  datatype AggregateData = AggregateData(count: int32, data: HostValue)

  const Fresh: AggregateData := AggregateData(1, Nothing)

  type Store = map<Token, AggregateData>

  /** The entry StepCallback works on: the one stored for the token, or a
      fresh one when the token has not been seen. */
  function Entry(m: Store, t: Token): AggregateData {
    if t in m then m[t] else Fresh
  }

  /** The store after a StepCallback for `t` whose user Step left the context
      data at `data`: the entry is created if absent, its counter advances by
      one (as a 32-bit int), and no other token's entry changes. */
  function AfterStep(m: Store, t: Token, data: HostValue): (m': Store)
    ensures m'.Keys == m.Keys + {t}
    ensures t !in m ==> m'[t] == AggregateData(2, data)
    ensures t in m ==> m'[t] == AggregateData(Inc32(m[t].count), data)
    ensures forall u :: u in m && u != t ==> m'[u] == m[u]
  {
    var d := Entry(m, t);
    m[t := AggregateData(Inc32(d.count), data)]
  }

  /** What FinalCallback takes out of the store: the token's context data (the
      null reference when no Step ran) and the store without that token. */
  datatype Taken = Taken(data: HostValue, rest: Store)

  function Take(m: Store, t: Token): (r: Taken)
    ensures r.rest.Keys == m.Keys - {t}
    ensures forall u :: u in r.rest ==> r.rest[u] == m[u]
    ensures t in m ==> r.data == m[t].data
    ensures t !in m ==> r.data == Nothing
  {
    if t in m then Taken(m[t].data, m - {t}) else Taken(Nothing, m)
  }

  /** The store after a run of Step callbacks for one token; `updates[i]` is the
      context data the (i+1)-th user Step left behind. */
  function RunSteps(m: Store, t: Token, updates: seq<HostValue>): Store
    decreases |updates|
  {
    if updates == [] then m else RunSteps(AfterStep(m, t, updates[0]), t, updates[1..])
  }

  /** The `stepNumber` each of those Step callbacks passes to the user Step. */
  function StepNumbersSeen(m: Store, t: Token, updates: seq<HostValue>): seq<int32>
    decreases |updates|
  {
    if updates == [] then []
    else [Entry(m, t).count] + StepNumbersSeen(AfterStep(m, t, updates[0]), t, updates[1..])
  }

  /** StepNumbersConsecutive from any mathematical starting count whose
      32-bit form is the token's counter. */
  lemma {:induction false} StepNumbersFrom(m: Store, t: Token, updates: seq<HostValue>, start: int)
    requires Entry(m, t).count == Wrap32(start)
    ensures |StepNumbersSeen(m, t, updates)| == |updates|
    ensures forall i :: 0 <= i < |updates| ==> StepNumbersSeen(m, t, updates)[i] == Wrap32(start + i)
    decreases |updates|
  {
    if updates != [] {
      var m' := AfterStep(m, t, updates[0]);
      IncWraps(start);
      assert Entry(m', t).count == Wrap32(start + 1);
      StepNumbersFrom(m', t, updates[1..], start + 1);
    }
  }

  /** Step numbers are consecutive: starting from the counter the token has,
      the i-th step of a run receives that counter plus i, reduced to a
      32-bit int as the unchecked `_count++` does. */
  lemma StepNumbersConsecutive(m: Store, t: Token, updates: seq<HostValue>)
    ensures |StepNumbersSeen(m, t, updates)| == |updates|
    ensures forall i :: 0 <= i < |updates| ==>
      StepNumbersSeen(m, t, updates)[i] == Wrap32(Entry(m, t).count as int + i)
  {
    StepNumbersFrom(m, t, updates, Entry(m, t).count as int);
  }

  /** For a token the store has not seen, the k-th Step receives k, for every
      k the 32-bit counter can hold. */
  lemma StepNumbersStartAtOne(m: Store, t: Token, updates: seq<HostValue>)
    requires t !in m
    ensures |StepNumbersSeen(m, t, updates)| == |updates|
    ensures forall i :: 0 <= i < |updates| && i < MaxInt32 as int ==> StepNumbersSeen(m, t, updates)[i] as int == i + 1
  {
    StepNumbersConsecutive(m, t, updates);
  }

  /** RunStepsEffect from any mathematical starting count whose 32-bit form is
      the token's counter. */
  lemma {:induction false} RunStepsFrom(m: Store, t: Token, updates: seq<HostValue>, start: int)
    requires Entry(m, t).count == Wrap32(start)
    ensures var m' := RunSteps(m, t, updates);
      && (forall u :: u != t ==> (u in m' <==> u in m))
      && (forall u :: u in m && u != t ==> m'[u] == m[u])
      && (updates != [] ==> t in m' && m'[t] == AggregateData(Wrap32(start + |updates|), updates[|updates| - 1]))
      && (updates == [] ==> m' == m)
    decreases |updates|
  {
    if updates != [] {
      var m1 := AfterStep(m, t, updates[0]);
      IncWraps(start);
      assert Entry(m1, t).count == Wrap32(start + 1);
      RunStepsFrom(m1, t, updates[1..], start + 1);
      if |updates| > 1 {
        assert updates[1..][|updates[1..]| - 1] == updates[|updates| - 1];
      }
    }
  }

  /** A run of steps of any length for one token leaves every other token's
      entry as it was and, after at least one step, holds the data the last
      step left with the counter advanced once per step (as a 32-bit int). */
  lemma RunStepsEffect(m: Store, t: Token, updates: seq<HostValue>)
    ensures var m' := RunSteps(m, t, updates);
      && (forall u :: u != t ==> (u in m' <==> u in m))
      && (forall u :: u in m && u != t ==> m'[u] == m[u])
      && (updates != [] ==> t in m' && m'[t].data == updates[|updates| - 1])
      && (updates != [] ==> m'[t].count == Wrap32(Entry(m, t).count as int + |updates|))
      && (updates == [] ==> m' == m)
  {
    RunStepsFrom(m, t, updates, Entry(m, t).count as int);
  }

  /** The aggregate lifecycle of one token: after any number of steps, Final
      receives the data the last step left (null after no step), the token is
      gone afterwards, and a second Final would receive null, never stale
      data. */
  lemma FinalAfterSteps(m: Store, t: Token, updates: seq<HostValue>)
    requires t !in m
    ensures var taken := Take(RunSteps(m, t, updates), t);
      && taken.data == (if updates == [] then Nothing else updates[|updates| - 1])
      && t !in taken.rest
      && taken.rest == m
      && Take(taken.rest, t).data == Nothing
  {
    RunStepsEffect(m, t, updates);
    var m' := RunSteps(m, t, updates);
    var taken := Take(m', t);
    assert taken.rest.Keys == m.Keys;
  }

  /** The tokens whose context data Dispose(true) must dispose. */
  function DisposableTokens(m: Store): set<Token> {
    set t | t in m && IsDisposable(m[t].data)
  }

  /** The disposals Dispose(true) performs when it visits the store's tokens
      in `order`. */
  function DisposalsOf(m: Store, order: seq<Token>): seq<Effect>
    requires forall i :: 0 <= i < |order| ==> order[i] in m
  {
    if order == [] then []
    else (if IsDisposable(m[order[0]].data) then [Disposed(m[order[0]].data)] else [])
         + DisposalsOf(m, order[1..])
  }

  lemma DisposalsOfAppend(m: Store, order: seq<Token>, t: Token)
    requires forall i :: 0 <= i < |order| ==> order[i] in m
    requires t in m
    ensures DisposalsOf(m, order + [t]) ==
      DisposalsOf(m, order) + (if IsDisposable(m[t].data) then [Disposed(m[t].data)] else [])
    decreases |order|
  {
    if order != [] {
      assert (order + [t])[1..] == order[1..] + [t];
      DisposalsOfAppend(m, order[1..], t);
    }
  }

  /** An enumeration visits every token exactly once. */
  ghost predicate Enumerates(m: Store, order: seq<Token>) {
    && (forall i, j :: 0 <= i < j < |order| ==> order[i] != order[j])
    && (forall t :: t in m <==> t in order)
  }

  lemma DisposalsOfSubStore(m: Store, m': Store, order: seq<Token>)
    requires forall i :: 0 <= i < |order| ==> order[i] in m' && order[i] in m && m'[order[i]] == m[order[i]]
    ensures DisposalsOf(m', order) == DisposalsOf(m, order)
    decreases |order|
  {
    if order != [] {
      DisposalsOfSubStore(m, m', order[1..]);
    }
  }

  lemma EnumeratesTail(m: Store, order: seq<Token>)
    requires Enumerates(m, order) && order != []
    ensures Enumerates(m - {order[0]}, order[1..])
  {
    var rest := order[1..];
    forall u ensures u in m - {order[0]} <==> u in rest {
      if u in rest {
        var j :| 0 <= j < |rest| && rest[j] == u;
        assert order[j + 1] == u;
      }
      if u in m - {order[0]} {
        var j :| 0 <= j < |order| && order[j] == u;
        assert rest[j - 1] == u;
      }
    }
  }

  lemma DisposableTokensSplit(m: Store, t: Token)
    requires t in m
    ensures t !in DisposableTokens(m - {t})
    ensures IsDisposable(m[t].data) ==> DisposableTokens(m) == DisposableTokens(m - {t}) + {t}
    ensures !IsDisposable(m[t].data) ==> DisposableTokens(m) == DisposableTokens(m - {t})
  {
  }

  /** Whatever order the dictionary is enumerated in, Dispose(true) disposes
      the data of every live entry that is disposable, once per entry: one
      disposal per disposable token, each of a disposable token's data. */
  lemma {:induction false} DisposalsExactlyOnce(m: Store, order: seq<Token>)
    requires Enumerates(m, order)
    ensures |DisposalsOf(m, order)| == |DisposableTokens(m)|
    ensures forall t :: t in DisposableTokens(m) ==> Disposed(m[t].data) in DisposalsOf(m, order)
    decreases |order|
  {
    if order == [] {
      assert DisposableTokens(m) == {};
    } else {
      var t, rest := order[0], order[1..];
      var m' := m - {t};
      EnumeratesTail(m, order);
      DisposalsExactlyOnce(m', rest);
      forall i | 0 <= i < |rest| ensures rest[i] in m' && rest[i] in m && m'[rest[i]] == m[rest[i]] {
        assert order[i + 1] == rest[i];
      }
      DisposalsOfSubStore(m, m', rest);
      DisposableTokensSplit(m, t);
      assert DisposalsOf(m, order) ==
        (if IsDisposable(m[t].data) then [Disposed(m[t].data)] else []) + DisposalsOf(m', rest);
    }
  }
}

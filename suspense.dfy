// A wakeable: a thenable that is resolved or rejected synchronously, at most
// once, notifying the callbacks registered while it was unresolved; and the
// helper that reads several suspense caches in parallel.  Callbacks are
// identified by number; which of them throw is given to each call, and the
// calls they receive are recorded in a log.

module Suspense {
  import opened Basics

  datatype Status = Unresolved | Resolved | Rejected

  function StatusName(s: Status): string
  {
    match s
    case Unresolved => "unresolved"
    case Resolved => "resolved"
    case Rejected => "rejected"
  }

  datatype Data<T> = NoData | Value(value: T) | Error(error: string)

  datatype Callback = Callback(id: nat)

  /** One invocation of a callback, with the argument it received. */
  datatype Call<T> = Call(callback: Callback, argument: Data<T>)

  /** How a call on the wakeable ended. */
  datatype Outcome =
    | Done
    | AlreadySettled(message: string)
    | CallbackThrew(callback: Callback)

  /** The index of the first callback that throws, or the length of the list when none does. */
  function FirstThrower(callbacks: seq<Callback>, throwing: set<Callback>): (k: nat)
    ensures k <= |callbacks|
    ensures forall i :: 0 <= i < k ==> callbacks[i] !in throwing
    ensures k < |callbacks| ==> callbacks[k] in throwing
  {
    if callbacks == [] || callbacks[0] in throwing then 0 else 1 + FirstThrower(callbacks[1..], throwing)
  }

  /** The calls made to `callbacks`, in order, each with `argument`. */
  function CallsTo<T>(callbacks: seq<Callback>, argument: Data<T>): (r: seq<Call<T>>)
    ensures |r| == |callbacks|
    decreases |callbacks|
  {
    if callbacks == [] then []
    else CallsTo(callbacks[..|callbacks| - 1], argument) + [Call(callbacks[|callbacks| - 1], argument)]
  }

  /** Each callback is called once, in its place, with the same argument. */
  lemma {:induction false} CallsToAt<T>(callbacks: seq<Callback>, argument: Data<T>, i: nat)
    requires i < |callbacks|
    ensures CallsTo(callbacks, argument)[i] == Call(callbacks[i], argument)
    decreases |callbacks|
  {
    if i < |callbacks| - 1 {
      var init := callbacks[..|callbacks| - 1];
      CallsToAt(init, argument, i);
      assert init[i] == callbacks[i];
    }
  }

  lemma CallsToSnoc<T>(callbacks: seq<Callback>, i: nat, argument: Data<T>)
    requires i < |callbacks|
    ensures CallsTo(callbacks[..i + 1], argument) == CallsTo(callbacks[..i], argument) + [Call(callbacks[i], argument)]
  {
    assert callbacks[..i + 1][..i] == callbacks[..i];
  }

  /** `set.add(x)` on a set kept in insertion order. */
  function Add(s: seq<Callback>, x: Callback): (r: seq<Callback>)
    ensures Distinct(s) ==> Distinct(r)
    ensures forall y :: y in r <==> y in s || y == x
  {
    if x in s then s else s + [x]
  }

  class Wakeable<T> {
    var status: Status
    var data: Data<T>
    var resolveCallbacks: seq<Callback>
    var rejectCallbacks: seq<Callback>
    /** Every callback invocation so far. */
    var calls: seq<Call<T>>

    /** Data is present exactly once settled, of the kind the status says; the callback sets hold no repeats. */
    predicate Valid()
      reads this
    {
      (status == Unresolved <==> data.NoData?) &&
      (status == Resolved ==> data.Value?) &&
      (status == Rejected ==> data.Error?) &&
      Distinct(resolveCallbacks) && Distinct(rejectCallbacks)
    }

    /** `createWakeable`. */
    constructor ()
      ensures Valid()
      ensures status == Unresolved && resolveCallbacks == [] && rejectCallbacks == [] && calls == []
    {
      status := Unresolved;
      data := NoData;
      resolveCallbacks := [];
      rejectCallbacks := [];
      calls := [];
    }

    /**
     * `then`: while unresolved both callbacks are registered; once settled,
     * the matching callback is called at once with the data.
     */
    method Then(resolveCallback: Callback, rejectCallback: Callback, throwing: set<Callback>) returns (outcome: Outcome)
      requires Valid()
      modifies this
      ensures Valid()
      ensures status == old(status) && data == old(data)
      ensures old(status) == Unresolved ==>
        outcome == Done && calls == old(calls) &&
        resolveCallbacks == Add(old(resolveCallbacks), resolveCallback) &&
        rejectCallbacks == Add(old(rejectCallbacks), rejectCallback)
      ensures old(status) != Unresolved ==>
        resolveCallbacks == old(resolveCallbacks) && rejectCallbacks == old(rejectCallbacks)
      ensures old(status) == Resolved ==>
        calls == old(calls) + [Call(resolveCallback, data)] &&
        outcome == (if resolveCallback in throwing then CallbackThrew(resolveCallback) else Done)
      ensures old(status) == Rejected ==>
        calls == old(calls) + [Call(rejectCallback, data)] &&
        outcome == (if rejectCallback in throwing then CallbackThrew(rejectCallback) else Done)
    {
      match status
      case Unresolved =>
        resolveCallbacks := Add(resolveCallbacks, resolveCallback);
        rejectCallbacks := Add(rejectCallbacks, rejectCallback);
        outcome := Done;
      case Rejected =>
        calls := calls + [Call(rejectCallback, data)];
        outcome := if rejectCallback in throwing then CallbackThrew(rejectCallback) else Done;
      case Resolved =>
        calls := calls + [Call(resolveCallback, data)];
        outcome := if resolveCallback in throwing then CallbackThrew(resolveCallback) else Done;
    }

    /**
     * The `forEach` over the registered callbacks: each is called in turn
     * until one throws, which ends the loop (and the settling call).
     */
    method Notify(callbacks: seq<Callback>, argument: Data<T>, throwing: set<Callback>) returns (thrown: Option<Callback>)
      modifies this
      ensures thrown.Some? <==> FirstThrower(callbacks, throwing) < |callbacks|
      ensures calls == old(calls) + CallsTo(callbacks[..FirstThrower(callbacks, throwing) + (if thrown.Some? then 1 else 0)], argument)
      ensures thrown.Some? ==> thrown.value == callbacks[FirstThrower(callbacks, throwing)]
      ensures status == old(status) && data == old(data)
      ensures resolveCallbacks == old(resolveCallbacks) && rejectCallbacks == old(rejectCallbacks)
    {
      var k := FirstThrower(callbacks, throwing);
      thrown := None;
      var i := 0;
      while i < |callbacks| && thrown.None?
        invariant i <= |callbacks|
        invariant status == old(status) && data == old(data)
        invariant resolveCallbacks == old(resolveCallbacks) && rejectCallbacks == old(rejectCallbacks)
        invariant thrown.Some? ==> i == k + 1 && thrown.value == callbacks[k]
        invariant thrown.None? ==> i <= k
        invariant calls == old(calls) + CallsTo(callbacks[..i], argument)
      {
        CallsToSnoc(callbacks, i, argument);
        calls := calls + [Call(callbacks[i], argument)];
        if callbacks[i] in throwing {
          thrown := Some(callbacks[i]);
        }
        i := i + 1;
      }
      assert callbacks[..|callbacks|] == callbacks;
    }

    /**
     * `resolve`: throws when already settled, changing nothing; otherwise the
     * wakeable is resolved before any callback runs, the registered resolve
     * callbacks are called in order with the value, and both sets are cleared
     * unless a callback threw.
     */
    method Resolve(value: T, throwing: set<Callback>) returns (outcome: Outcome)
      requires Valid()
      modifies this
      ensures Valid()
      ensures old(status) != Unresolved ==>
        outcome == AlreadySettled("Wakeable has already been " + StatusName(old(status))) &&
        status == old(status) && data == old(data) && calls == old(calls) &&
        resolveCallbacks == old(resolveCallbacks) && rejectCallbacks == old(rejectCallbacks)
      ensures old(status) == Unresolved ==>
        status == Resolved && data == Value(value) &&
        var k := FirstThrower(old(resolveCallbacks), throwing);
        (k == |old(resolveCallbacks)| ==>
          outcome == Done && calls == old(calls) + CallsTo(old(resolveCallbacks), Value(value)) &&
          resolveCallbacks == [] && rejectCallbacks == []) &&
        (k < |old(resolveCallbacks)| ==>
          outcome == CallbackThrew(old(resolveCallbacks)[k]) &&
          calls == old(calls) + CallsTo(old(resolveCallbacks)[..k + 1], Value(value)) &&
          resolveCallbacks == old(resolveCallbacks) && rejectCallbacks == old(rejectCallbacks))
    {
      if status != Unresolved {
        return AlreadySettled("Wakeable has already been " + StatusName(status));
      }
      status := Resolved;
      data := Value(value);
      var thrown := Notify(resolveCallbacks, Value(value), throwing);
      if thrown.Some? {
        return CallbackThrew(thrown.value);
      }
      assert resolveCallbacks[..|resolveCallbacks|] == resolveCallbacks;
      rejectCallbacks := [];
      resolveCallbacks := [];
      outcome := Done;
    }

    /** `reject`: as `resolve`, with the error and the reject callbacks. */
    method Reject(error: string, throwing: set<Callback>) returns (outcome: Outcome)
      requires Valid()
      modifies this
      ensures Valid()
      ensures old(status) != Unresolved ==>
        outcome == AlreadySettled("Wakeable has already been " + StatusName(old(status))) &&
        status == old(status) && data == old(data) && calls == old(calls) &&
        resolveCallbacks == old(resolveCallbacks) && rejectCallbacks == old(rejectCallbacks)
      ensures old(status) == Unresolved ==>
        status == Rejected && data == Error(error) &&
        var k := FirstThrower(old(rejectCallbacks), throwing);
        (k == |old(rejectCallbacks)| ==>
          outcome == Done && calls == old(calls) + CallsTo(old(rejectCallbacks), Error(error)) &&
          resolveCallbacks == [] && rejectCallbacks == []) &&
        (k < |old(rejectCallbacks)| ==>
          outcome == CallbackThrew(old(rejectCallbacks)[k]) &&
          calls == old(calls) + CallsTo(old(rejectCallbacks)[..k + 1], Error(error)) &&
          resolveCallbacks == old(resolveCallbacks) && rejectCallbacks == old(rejectCallbacks))
    {
      if status != Unresolved {
        return AlreadySettled("Wakeable has already been " + StatusName(status));
      }
      status := Rejected;
      data := Error(error);
      var thrown := Notify(rejectCallbacks, Error(error), throwing);
      if thrown.Some? {
        return CallbackThrew(thrown.value);
      }
      assert rejectCallbacks[..|rejectCallbacks|] == rejectCallbacks;
      rejectCallbacks := [];
      resolveCallbacks := [];
      outcome := Done;
    }
  }

  /**
   * A wakeable settles once: after a resolve (even one whose callback threw),
   * a second resolve or a reject fails and leaves the value in place, and a
   * later `then` hands the value to its resolve callback.
   */
  method SettlesOnce<T>(w: Wakeable<T>, value: T, error: string, cb: Callback, throwing: set<Callback>)
    returns (second: Outcome, third: Outcome)
    requires w.Valid() && w.status == Unresolved
    modifies w
    ensures second == AlreadySettled("Wakeable has already been resolved")
    ensures w.status == Resolved && w.data == Value(value)
    ensures |w.calls| > 0 && w.calls[|w.calls| - 1] == Call(cb, Value(value))
  {
    var first := w.Resolve(value, throwing);
    second := w.Reject(error, throwing);
    third := w.Then(cb, cb, throwing);
  }

  /** Whether each callback passed to `suspendInParallel` returns a value or throws. */
  datatype CallbackResult<T> = Returns(value: T) | Raises(error: string)

  /** The value thrown last, if any callback threw. */
  function LastThrown<T>(results: seq<CallbackResult<T>>): (r: Option<string>)
    ensures r.None? <==> forall i :: 0 <= i < |results| ==> results[i].Returns?
    ensures r.Some? ==> exists i :: (0 <= i < |results| && results[i] == Raises(r.value) &&
      forall j :: i < j < |results| ==> results[j].Returns?)
  {
    LastThrownAmong(results, |results|)
  }

  /** The value thrown last among the first `n` callbacks. */
  function LastThrownAmong<T>(results: seq<CallbackResult<T>>, n: nat): (r: Option<string>)
    requires n <= |results|
    ensures r.None? <==> forall i :: 0 <= i < n ==> results[i].Returns?
    ensures r.Some? ==> exists i :: (0 <= i < n && results[i] == Raises(r.value) &&
      forall j :: i < j < n ==> results[j].Returns?)
    decreases n
  {
    if n == 0 then None
    else if results[n - 1].Raises? then Some(results[n - 1].error)
    else LastThrownAmong(results, n - 1)
  }

  /** The returned values, in order. */
  function Returned<T>(results: seq<CallbackResult<T>>): seq<T>
    decreases |results|
  {
    if results == [] then []
    else Returned(results[..|results| - 1]) + (if results[|results| - 1].Returns? then [results[|results| - 1].value] else [])
  }

  /** When nothing throws, every callback's value is returned, in order. */
  lemma {:induction false} ReturnedAll<T>(results: seq<CallbackResult<T>>)
    requires forall i :: 0 <= i < |results| ==> results[i].Returns?
    ensures |Returned(results)| == |results|
    ensures forall i :: 0 <= i < |results| ==> Returned(results)[i] == results[i].value
    decreases |results|
  {
    if results != [] {
      ReturnedAll(results[..|results| - 1]);
    }
  }

  /**
   * `suspendInParallel`: every callback is invoked, even after one throws;
   * the values come back in order when none threw, and otherwise the value
   * thrown last is rethrown.
   */
  method SuspendInParallel<T>(callbacks: seq<CallbackResult<T>>) returns (r: Result<seq<T>>, invoked: nat)
    ensures invoked == |callbacks|
    ensures LastThrown(callbacks).Some? ==> r == Throws(LastThrown(callbacks).value)
    ensures LastThrown(callbacks).None? ==> r == Ok(Returned(callbacks))
  {
    var values: seq<T> := [];
    var thrownValue: Option<string> := None;
    invoked := 0;
    for i := 0 to |callbacks|
      invariant invoked == i
      invariant values == Returned(callbacks[..i]) && thrownValue == LastThrownAmong(callbacks, i)
    {
      assert callbacks[..i + 1][..i] == callbacks[..i];
      invoked := invoked + 1;
      match callbacks[i]
      case Returns(v) => values := values + [v];
      case Raises(e) => thrownValue := Some(e);
    }
    assert callbacks[..|callbacks|] == callbacks;
    if thrownValue.Some? {
      return Throws(thrownValue.value), invoked;
    }
    r := Ok(values);
  }
}

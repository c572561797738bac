// Asynchronous values as tagged objects: { state: "pending" },
// { state: "fulfilled", value } and { state: "rejected", value }.

module AsyncValue {
  import opened Basics
  import opened JsValues

  function Pending(): (r: Json)
    ensures IsPending(r) && !IsFulfilled(r) && !IsRejected(r)
  {
    JObj([Member("state", JStr("pending"))])
  }

  function Fulfilled(value: Json): (r: Json)
    ensures IsFulfilled(r) && !IsPending(r) && !IsRejected(r)
    ensures Field(r, "value") == value
  {
    var fields := [Member("state", JStr("fulfilled")), Member("value", value)];
    assert fields[1..] == [Member("value", value)];
    assert "state"[0] != "value"[0];
    assert Get(fields, "value") == Get(fields[1..], "value") == Some(value);
    JObj(fields)
  }

  function Rejected(value: Json): (r: Json)
    ensures IsRejected(r) && !IsPending(r) && !IsFulfilled(r)
    ensures Field(r, "value") == value
  {
    var fields := [Member("state", JStr("rejected")), Member("value", value)];
    assert fields[1..] == [Member("value", value)];
    assert "state"[0] != "value"[0];
    assert Get(fields, "value") == Get(fields[1..], "value") == Some(value);
    JObj(fields)
  }

  /** `isPending`, `isFulfilled`, `isRejected`: a test of the `state` tag (reading it from null or undefined throws, so callers never pass those). */
  predicate IsPending(entry: Json)
  {
    Field(entry, "state") == JStr("pending")
  }

  predicate IsFulfilled(entry: Json)
  {
    Field(entry, "state") == JStr("fulfilled")
  }

  predicate IsRejected(entry: Json)
  {
    Field(entry, "state") == JStr("rejected")
  }

  /** At most one of the three tests holds of any value. */
  lemma TagsExclusive(entry: Json)
    ensures !(IsPending(entry) && IsFulfilled(entry))
    ensures !(IsPending(entry) && IsRejected(entry))
    ensures !(IsFulfilled(entry) && IsRejected(entry))
  {
  }

  /** An object carrying a string `state` member. */
  predicate IsStatusEntry(entry: Json)
  {
    entry.JObj? && HasKey(entry.fields, "state") && Field(entry, "state").JStr?
  }

  /**
   * `asSettled`: a status entry that is still pending becomes null; a
   * settled one, and any value that is not a status entry, is returned as it
   * is.
   */
  function AsSettled(entry: Json): (r: Json)
    ensures IsStatusEntry(entry) && IsPending(entry) ==> r == JNull
    ensures !(IsStatusEntry(entry) && IsPending(entry)) ==> r == entry
  {
    if IsStatusEntry(entry) then
      if !IsPending(entry) then entry else JNull
    else entry
  }

  /** Settled entries pass through `asSettled`, pending ones do not. */
  lemma AsSettledOfConstructors(value: Json)
    ensures AsSettled(Pending()) == JNull
    ensures AsSettled(Fulfilled(value)) == Fulfilled(value)
    ensures AsSettled(Rejected(value)) == Rejected(value)
  {
    assert IsStatusEntry(Pending());
  }

  /** `asSettled` applied twice is `asSettled` applied once. */
  lemma AsSettledIdempotent(entry: Json)
    ensures AsSettled(AsSettled(entry)) == AsSettled(entry)
  {
  }

  /**
   * `asyncActionAsValue`: a "start" action is pending, an "error" action is
   * rejected with its error, and any other is fulfilled with its value.
   */
  function AsyncActionAsValue(action: Json): (r: Json)
    ensures IsPending(r) <==> Field(action, "status") == JStr("start")
    ensures IsRejected(r) <==> Field(action, "status") == JStr("error")
    ensures IsFulfilled(r) <==> Field(action, "status") != JStr("start") && Field(action, "status") != JStr("error")
    ensures IsRejected(r) ==> Field(r, "value") == Field(action, "error")
    ensures IsFulfilled(r) ==> Field(r, "value") == Field(action, "value")
  {
    if Field(action, "status") == JStr("start") then Pending()
    else if Field(action, "status") == JStr("error") then Rejected(Field(action, "error"))
    else Fulfilled(Field(action, "value"))
  }
}

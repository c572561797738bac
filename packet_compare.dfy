// The structural comparison of a pause packet rebuilt from preloaded data (the
// expected side) with the packet the thread produced (the received side).  The
// expected side may carry more detail in three known places, which is
// tolerated.

module PacketCompare {
  import opened Basics
  import opened JsValues

  function KeySet(fields: seq<Member>): set<string>
  {
    set i | 0 <= i < |fields| :: fields[i].key
  }

  lemma KeySetAppend(fields: seq<Member>, m: Member)
    ensures KeySet(fields + [m]) == KeySet(fields) + {m.key}
  {
    var a := fields + [m];
    assert a[|fields|].key == m.key;
    forall k | k in KeySet(fields)
      ensures k in KeySet(a)
    {
      var i :| 0 <= i < |fields| && fields[i].key == k;
      assert a[i] == fields[i];
    }
  }

  /** Every object in `v` has distinct keys, as every JavaScript object does. */
  predicate WellFormed(v: Json)
  {
    match v
    case JArr(items) => forall i :: 0 <= i < |items| ==> WellFormed(items[i])
    case JObj(fields) =>
      (forall i, j :: 0 <= i < j < |fields| ==> fields[i].key != fields[j].key) &&
      (forall i :: 0 <= i < |fields| ==> WellFormed(fields[i].value))
    case _ => true
  }

  /** `maybeRemoveKey`: the key is dropped from the expected side when `a[type] == value` and only `a` has it. */
  function MaybeRemoveKey(a: seq<Member>, bkeys: set<string>, akeys: set<string>, typ: string, value: string, key: string): (r: set<string>)
    ensures r == akeys || r == akeys - {key}
    ensures key !in r <==> key !in akeys || (Field(JObj(a), typ) == JStr(value) && key !in bkeys)
    ensures forall k :: k != key ==> (k in r <==> k in akeys)
  {
    if Field(JObj(a), typ) == JStr(value) && key in akeys && key !in bkeys then akeys - {key} else akeys
  }

  /** The expected side's keys after the three tolerated differences are removed. */
  function ComparedKeys(a: seq<Member>, b: seq<Member>): set<string>
  {
    var bkeys := KeySet(b);
    var akeys := MaybeRemoveKey(a, bkeys, KeySet(a), "type", "object", "preview");
    var akeys := MaybeRemoveKey(a, bkeys, akeys, "kind", "ArrayLike", "items");
    MaybeRemoveKey(a, bkeys, akeys, "kind", "DOMEvent", "target")
  }

  /**
   * `compareObjects(a, b)`: primitives (and values of different shape) must be
   * identical, arrays must agree element-wise, and objects must have the same
   * keys, up to the tolerated ones, with agreeing values.  The key lists are
   * compared after sorting, which for objects with distinct keys is comparing
   * key sets.
   */
  predicate CompareObjects(a: Json, b: Json)
    decreases a
  {
    if !IsNonNullObject(a) || !IsNonNullObject(b) || a.JArr? != b.JArr? then a == b
    else if a.JArr? then
      |a.items| == |b.items| &&
      forall i :: 0 <= i < |a.items| ==> CompareObjects(a.items[i], b.items[i])
    else
      var keys := ComparedKeys(a.fields, b.fields);
      keys == KeySet(b.fields) &&
      forall i :: 0 <= i < |a.fields| && a.fields[i].key in keys ==>
        CompareObjects(a.fields[i].value, Field(b, a.fields[i].key))
  }

  /** In an object with distinct keys, a member's value is what the key looks up. */
  lemma FieldOfMember(fields: seq<Member>, i: int)
    requires 0 <= i < |fields|
    requires forall j, k :: 0 <= j < k < |fields| ==> fields[j].key != fields[k].key
    ensures Field(JObj(fields), fields[i].key) == fields[i].value
  {
    var r := Get(fields, fields[i].key);
    assert HasKey(fields, fields[i].key);
    var j :| 0 <= j < |fields| && fields[j] == Member(fields[i].key, r.value);
    assert j == i;
  }

  /** A well-formed packet compares equal to itself. */
  lemma {:induction false} CompareReflexive(a: Json)
    requires WellFormed(a)
    ensures CompareObjects(a, a)
    decreases a
  {
    match a
    case JArr(items) =>
      forall i | 0 <= i < |items|
        ensures CompareObjects(items[i], items[i])
      {
        CompareReflexive(items[i]);
      }
    case JObj(fields) =>
      assert ComparedKeys(fields, fields) == KeySet(fields);
      forall i | 0 <= i < |fields|
        ensures CompareObjects(fields[i].value, Field(a, fields[i].key))
      {
        FieldOfMember(fields, i);
        CompareReflexive(fields[i].value);
      }
    case _ =>
  }

  /** Appending a member under a new key leaves every existing lookup unchanged. */
  lemma FieldAfterAppend(fields: seq<Member>, m: Member, key: string)
    requires key != m.key || HasKey(fields, key)
    ensures Field(JObj(fields + [m]), key) == Field(JObj(fields), key)
  {
    GetAfterAppend(fields, m, key);
  }

  lemma {:induction false} GetAfterAppend(fields: seq<Member>, m: Member, key: string)
    requires key != m.key || HasKey(fields, key)
    ensures Get(fields + [m], key) == Get(fields, key)
    decreases |fields|
  {
    if fields == [] {
      assert [] + [m] == [m];
    } else {
      assert (fields + [m])[1..] == fields[1..] + [m];
      if fields[0].key != key {
        if HasKey(fields, key) {
          var i :| 0 <= i < |fields| && fields[i].key == key;
          assert fields[1..][i - 1] == fields[i];
        }
        GetAfterAppend(fields[1..], m, key);
      }
    }
  }

  /** The three tolerated differences: a member `key` the expected side may add when its `typ` member is `value`. */
  predicate ToleratedDetail(typ: string, value: string, key: string)
  {
    (typ, value, key) in {("type", "object", "preview"), ("kind", "ArrayLike", "items"), ("kind", "DOMEvent", "target")}
  }

  /**
   * An object whose `type` is "object" (or whose `kind` is "ArrayLike" or
   * "DOMEvent") that carries a preview (items, target) the received side lacks
   * still compares equal to the received side without it.
   */
  lemma ToleratesExtraDetail(fields: seq<Member>, typ: string, value: string, key: string, extra: Json)
    requires ToleratedDetail(typ, value, key)
    requires WellFormed(JObj(fields))
    requires Field(JObj(fields), typ) == JStr(value)
    requires !HasKey(fields, key)
    ensures CompareObjects(JObj(fields + [Member(key, extra)]), JObj(fields))
  {
    var m := Member(key, extra);
    var a := fields + [m];
    assert HasKey(fields, typ);
    FieldAfterAppend(fields, m, typ);
    KeySetAppend(fields, m);
    assert key !in KeySet(fields);
    assert ComparedKeys(a, fields) == KeySet(fields);
    forall i | 0 <= i < |a| && a[i].key in KeySet(fields)
      ensures CompareObjects(a[i].value, Field(JObj(fields), a[i].key))
    {
      assert i < |fields|;
      FieldOfMember(fields, i);
      CompareReflexive(fields[i].value);
    }
  }

  /** The tolerance is one-sided: a preview only the received side has is a mismatch. */
  lemma PreviewOnlyOnExpectedSide(fields: seq<Member>, preview: Json)
    requires !HasKey(fields, "preview")
    ensures !CompareObjects(JObj(fields), JObj(fields + [Member("preview", preview)]))
  {
    var b := fields + [Member("preview", preview)];
    KeySetAppend(fields, Member("preview", preview));
    assert "preview" !in KeySet(fields);
  }
}

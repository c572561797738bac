// Cached forms in preloaded pause data: an object whose `cached` field holds an
// actor id stands for the form stored earlier under that id.  Resolving a
// packet replaces each such reference, wherever it sits in the packet, by the
// stored form (which is not itself searched further).

module CachedForms {
  import opened Basics
  import opened JsValues

  /** `v && v.cached`: a reference to a cached form. */
  predicate IsCachedRef(v: Json)
  {
    v.JObj? && Truthy(Field(v, "cached"))
  }

  /**
   * `replaceCachedForm`: the stored form the reference names; a value that is
   * not a reference, or names no stored form (or a falsy one), throws.
   */
  function ReplaceCachedForm(forms: map<Json, Json>, v: Json): (r: Result<Json>)
    ensures r.Ok? <==> IsCachedRef(v) && Field(v, "cached") in forms && Truthy(forms[Field(v, "cached")])
    ensures r.Ok? ==> r.value == forms[Field(v, "cached")]
    ensures !IsCachedRef(v) ==> r == Throws("Expected cached form reference")
  {
    var id := Field(v, "cached");
    if !Truthy(id) then Throws("Expected cached form reference")
    else if id in forms && Truthy(forms[id]) then Ok(forms[id])
    else Throws("Unknown cached form")
  }

  /**
   * `replaceCachedFormReferences`, on values: every array element or object
   * member that is a reference is replaced by its stored form, every other one
   * is searched recursively, and non-objects are left as they are.  The first
   * unknown reference (in document order) throws.
   */
  function ReplaceRefs(forms: map<Json, Json>, v: Json): (r: Result<Json>)
    ensures r.Ok? && v.JArr? ==> r.value.JArr? && |r.value.items| == |v.items|
    ensures r.Ok? && v.JObj? ==> r.value.JObj? && Keys(r.value.fields) == Keys(v.fields)
    ensures !IsNonNullObject(v) ==> r == Ok(v)
    decreases v, 1
  {
    match v
    case JArr(items) =>
      (match ReplaceItems(forms, items)
       case Ok(items') => Ok(JArr(items'))
       case Throws(e) => Throws(e))
    case JObj(fields) =>
      (match ReplaceMembers(forms, fields)
       case Ok(fields') => Ok(JObj(fields'))
       case Throws(e) => Throws(e))
    case _ => Ok(v)
  }

  /** One array element or member value: replaced when it is a reference, searched otherwise. */
  function ReplaceChild(forms: map<Json, Json>, v: Json): (r: Result<Json>)
    ensures IsCachedRef(v) ==> (r.Ok? <==> Field(v, "cached") in forms && Truthy(forms[Field(v, "cached")]))
    ensures IsCachedRef(v) && r.Ok? ==> r.value == forms[Field(v, "cached")]
    ensures !IsCachedRef(v) ==> r == ReplaceRefs(forms, v)
    decreases v, 2
  {
    if IsCachedRef(v) then ReplaceCachedForm(forms, v) else ReplaceRefs(forms, v)
  }

  function ReplaceItems(forms: map<Json, Json>, items: seq<Json>): (r: Result<seq<Json>>)
    ensures r.Ok? ==> |r.value| == |items|
    decreases items
  {
    if items == [] then Ok([])
    else
      match ReplaceChild(forms, items[0])
      case Throws(e) => Throws(e)
      case Ok(first) =>
        match ReplaceItems(forms, items[1..])
        case Throws(e) => Throws(e)
        case Ok(rest) => Ok([first] + rest)
  }

  function ReplaceMembers(forms: map<Json, Json>, fields: seq<Member>): (r: Result<seq<Member>>)
    ensures r.Ok? ==> Keys(r.value) == Keys(fields)
    decreases fields
  {
    if fields == [] then Ok([])
    else
      match ReplaceChild(forms, fields[0].value)
      case Throws(e) => Throws(e)
      case Ok(first) =>
        match ReplaceMembers(forms, fields[1..])
        case Throws(e) => Throws(e)
        case Ok(rest) =>
          assert Keys([Member(fields[0].key, first)] + rest) == [fields[0].key] + Keys(rest);
          Ok([Member(fields[0].key, first)] + rest)
  }

  /**
   * Element by element: the array is resolved exactly when every element is,
   * and each element becomes its own replacement.
   */
  lemma {:induction false} ReplaceItemsAt(forms: map<Json, Json>, items: seq<Json>)
    ensures ReplaceItems(forms, items).Ok? <==> forall i :: 0 <= i < |items| ==> ReplaceChild(forms, items[i]).Ok?
    ensures ReplaceItems(forms, items).Ok? ==>
      forall i :: 0 <= i < |items| ==> ReplaceItems(forms, items).value[i] == ReplaceChild(forms, items[i]).value
    decreases items
  {
    if items != [] {
      ReplaceItemsAt(forms, items[1..]);
      var first := ReplaceChild(forms, items[0]);
      var rest := ReplaceItems(forms, items[1..]);
      assert forall i :: 0 < i < |items| ==> items[i] == items[1..][i - 1];
      if first.Ok? && rest.Ok? {
        var r := [first.value] + rest.value;
        assert ReplaceItems(forms, items) == Ok(r);
        assert forall i :: 0 < i < |items| ==> r[i] == rest.value[i - 1];
      }
    }
  }

  /** A failed array replacement fails with the error of its first failing element. */
  lemma {:induction false} ReplaceItemsFirstFailure(forms: map<Json, Json>, items: seq<Json>)
    requires ReplaceItems(forms, items).Throws?
    ensures exists i :: (0 <= i < |items| && ReplaceChild(forms, items[i]) == Throws(ReplaceItems(forms, items).error) &&
      forall j :: 0 <= j < i ==> ReplaceChild(forms, items[j]).Ok?)
    decreases items
  {
    var first := ReplaceChild(forms, items[0]);
    if first.Ok? {
      var rest := ReplaceItems(forms, items[1..]);
      assert ReplaceItems(forms, items) == Throws(rest.error);
      ReplaceItemsFirstFailure(forms, items[1..]);
      var i :| 0 <= i < |items[1..]| && ReplaceChild(forms, items[1..][i]) == Throws(rest.error) &&
        forall j :: 0 <= j < i ==> ReplaceChild(forms, items[1..][j]).Ok?;
      assert forall j :: 0 < j <= i ==> items[j] == items[1..][j - 1];
      assert ReplaceChild(forms, items[i + 1]) == Throws(rest.error);
    }
  }

  /** Member by member, as for arrays: every key is kept and every value becomes its own replacement. */
  lemma {:induction false} ReplaceMembersAt(forms: map<Json, Json>, fields: seq<Member>)
    ensures ReplaceMembers(forms, fields).Ok? <==> forall i :: 0 <= i < |fields| ==> ReplaceChild(forms, fields[i].value).Ok?
    ensures ReplaceMembers(forms, fields).Ok? ==>
      forall i :: 0 <= i < |fields| ==>
        ReplaceMembers(forms, fields).value[i] == Member(fields[i].key, ReplaceChild(forms, fields[i].value).value)
    decreases fields
  {
    if fields != [] {
      ReplaceMembersAt(forms, fields[1..]);
      var first := ReplaceChild(forms, fields[0].value);
      var rest := ReplaceMembers(forms, fields[1..]);
      assert forall i :: 0 < i < |fields| ==> fields[i] == fields[1..][i - 1];
      if first.Ok? && rest.Ok? {
        var r := [Member(fields[0].key, first.value)] + rest.value;
        assert ReplaceMembers(forms, fields) == Ok(r);
        assert forall i :: 0 < i < |fields| ==> r[i] == rest.value[i - 1];
      }
    }
  }

  /** A failed object replacement fails with the error of its first failing member value. */
  lemma {:induction false} ReplaceMembersFirstFailure(forms: map<Json, Json>, fields: seq<Member>)
    requires ReplaceMembers(forms, fields).Throws?
    ensures exists i :: (0 <= i < |fields| && ReplaceChild(forms, fields[i].value) == Throws(ReplaceMembers(forms, fields).error) &&
      forall j :: 0 <= j < i ==> ReplaceChild(forms, fields[j].value).Ok?)
    decreases fields
  {
    var first := ReplaceChild(forms, fields[0].value);
    if first.Ok? {
      var rest := ReplaceMembers(forms, fields[1..]);
      assert ReplaceMembers(forms, fields) == Throws(rest.error);
      ReplaceMembersFirstFailure(forms, fields[1..]);
      var i :| 0 <= i < |fields[1..]| && ReplaceChild(forms, fields[1..][i].value) == Throws(rest.error) &&
        forall j :: 0 <= j < i ==> ReplaceChild(forms, fields[1..][j].value).Ok?;
      assert forall j :: 0 < j <= i ==> fields[j] == fields[1..][j - 1];
      assert ReplaceChild(forms, fields[i + 1].value) == Throws(rest.error);
    }
  }

  /**
   * `replaceCachedFormReferences` on one array or object: it succeeds exactly
   * when every child does, each reference child becomes its stored form and
   * every other child is searched in turn; otherwise the first failing child's
   * error is thrown.
   */
  lemma ReplaceRefsChildren(forms: map<Json, Json>, v: Json)
    ensures v.JArr? ==> (ReplaceRefs(forms, v).Ok? <==> forall i :: 0 <= i < |v.items| ==> ReplaceChild(forms, v.items[i]).Ok?)
    ensures v.JArr? && ReplaceRefs(forms, v).Ok? ==>
      forall i :: 0 <= i < |v.items| ==> ReplaceRefs(forms, v).value.items[i] == ReplaceChild(forms, v.items[i]).value
    ensures v.JObj? ==> (ReplaceRefs(forms, v).Ok? <==> forall i :: 0 <= i < |v.fields| ==> ReplaceChild(forms, v.fields[i].value).Ok?)
    ensures v.JObj? && ReplaceRefs(forms, v).Ok? ==>
      forall i :: 0 <= i < |v.fields| ==>
        ReplaceRefs(forms, v).value.fields[i] == Member(v.fields[i].key, ReplaceChild(forms, v.fields[i].value).value)
    ensures v.JArr? && ReplaceRefs(forms, v).Throws? ==>
      exists i :: 0 <= i < |v.items| && ReplaceChild(forms, v.items[i]) == Throws(ReplaceRefs(forms, v).error)
    ensures v.JObj? && ReplaceRefs(forms, v).Throws? ==>
      exists i :: 0 <= i < |v.fields| && ReplaceChild(forms, v.fields[i].value) == Throws(ReplaceRefs(forms, v).error)
  {
    match v
    case JArr(items) =>
      ReplaceItemsAt(forms, items);
      if ReplaceItems(forms, items).Throws? {
        ReplaceItemsFirstFailure(forms, items);
      }
    case JObj(fields) =>
      ReplaceMembersAt(forms, fields);
      if ReplaceMembers(forms, fields).Throws? {
        ReplaceMembersFirstFailure(forms, fields);
      }
    case _ =>
  }

  /** No reference remains anywhere below the top of `v`. */
  predicate Resolved(v: Json)
    decreases v, 1
  {
    match v
    case JArr(items) => ResolvedItems(items)
    case JObj(fields) => ResolvedMembers(fields)
    case _ => true
  }

  predicate ResolvedChild(v: Json)
    decreases v, 2
  {
    !IsCachedRef(v) && Resolved(v)
  }

  predicate ResolvedItems(items: seq<Json>)
    decreases items
  {
    items == [] || (ResolvedChild(items[0]) && ResolvedItems(items[1..]))
  }

  predicate ResolvedMembers(fields: seq<Member>)
    decreases fields
  {
    fields == [] || (ResolvedChild(fields[0].value) && ResolvedMembers(fields[1..]))
  }

  /** Every stored form is resolved and is not itself a reference. */
  predicate StoreResolved(forms: map<Json, Json>)
  {
    forall id :: id in forms ==> ResolvedChild(forms[id])
  }

  /** With a resolved store, a successful replacement leaves no reference behind. */
  lemma {:induction false} ReplaceResolves(forms: map<Json, Json>, v: Json)
    requires StoreResolved(forms)
    requires ReplaceRefs(forms, v).Ok?
    ensures Resolved(ReplaceRefs(forms, v).value)
    decreases v, 1
  {
    match v
    case JArr(items) => ReplaceItemsResolves(forms, items);
    case JObj(fields) => ReplaceMembersResolves(forms, fields);
    case _ =>
  }

  lemma {:induction false} ReplaceChildResolves(forms: map<Json, Json>, v: Json)
    requires StoreResolved(forms)
    requires ReplaceChild(forms, v).Ok?
    ensures ResolvedChild(ReplaceChild(forms, v).value)
    decreases v, 2
  {
    if !IsCachedRef(v) {
      ReplaceResolves(forms, v);
      var r := ReplaceRefs(forms, v).value;
      if v.JObj? {
        assert !Truthy(Field(r, "cached")) by {
          KeysDetermineHasKey(v.fields, r.fields, "cached");
          if HasKey(r.fields, "cached") {
            ReplacedFieldOfNonRef(forms, v.fields, "cached");
          }
        }
      }
    }
  }

  lemma {:induction false} ReplaceItemsResolves(forms: map<Json, Json>, items: seq<Json>)
    requires StoreResolved(forms)
    requires ReplaceItems(forms, items).Ok?
    ensures ResolvedItems(ReplaceItems(forms, items).value)
    decreases items
  {
    if items != [] {
      ReplaceChildResolves(forms, items[0]);
      ReplaceItemsResolves(forms, items[1..]);
      var r := ReplaceItems(forms, items).value;
      assert r[1..] == ReplaceItems(forms, items[1..]).value;
    }
  }

  lemma {:induction false} ReplaceMembersResolves(forms: map<Json, Json>, fields: seq<Member>)
    requires StoreResolved(forms)
    requires ReplaceMembers(forms, fields).Ok?
    ensures ResolvedMembers(ReplaceMembers(forms, fields).value)
    decreases fields
  {
    if fields != [] {
      ReplaceChildResolves(forms, fields[0].value);
      ReplaceMembersResolves(forms, fields[1..]);
      var r := ReplaceMembers(forms, fields).value;
      assert r[1..] == ReplaceMembers(forms, fields[1..]).value;
    }
  }

  /** Members with the same keys have the same key set. */
  lemma KeysDetermineHasKey(a: seq<Member>, b: seq<Member>, key: string)
    requires Keys(a) == Keys(b)
    ensures HasKey(a, key) <==> HasKey(b, key)
  {
    if HasKey(a, key) {
      var i :| 0 <= i < |a| && a[i].key == key;
      assert Keys(a)[i] == Keys(b)[i];
    }
    if HasKey(b, key) {
      var i :| 0 <= i < |b| && b[i].key == key;
      assert Keys(a)[i] == Keys(b)[i];
    }
  }

  /**
   * A member whose value is not a reference keeps a non-reference, primitive
   * value unchanged: in particular a falsy `cached` member stays falsy.
   */
  lemma {:induction false} ReplacedFieldOfNonRef(forms: map<Json, Json>, fields: seq<Member>, key: string)
    requires ReplaceMembers(forms, fields).Ok?
    requires HasKey(fields, key) && !Truthy(Get(fields, key).value)
    ensures HasKey(ReplaceMembers(forms, fields).value, key)
    ensures !Truthy(Get(ReplaceMembers(forms, fields).value, key).value)
    decreases fields
  {
    var r := ReplaceMembers(forms, fields).value;
    if fields[0].key == key {
      assert r[0].key == key;
      assert HasKey(r, key);
    } else {
      assert HasKey(fields[1..], key) by {
        var i :| 0 <= i < |fields| && fields[i].key == key;
        assert fields[1..][i - 1] == fields[i];
      }
      ReplacedFieldOfNonRef(forms, fields[1..], key);
      var rest := ReplaceMembers(forms, fields[1..]).value;
      assert r[1..] == rest;
      var j :| 0 <= j < |rest| && rest[j].key == key;
      assert r[j + 1] == rest[j];
    }
  }

  /** A packet without references is left exactly as it is. */
  lemma {:induction false} ReplaceKeepsResolved(forms: map<Json, Json>, v: Json)
    requires Resolved(v)
    ensures ReplaceRefs(forms, v) == Ok(v)
    decreases v, 1
  {
    match v
    case JArr(items) => ReplaceItemsKeepsResolved(forms, items);
    case JObj(fields) => ReplaceMembersKeepsResolved(forms, fields);
    case _ =>
  }

  lemma {:induction false} ReplaceItemsKeepsResolved(forms: map<Json, Json>, items: seq<Json>)
    requires ResolvedItems(items)
    ensures ReplaceItems(forms, items) == Ok(items)
    decreases items
  {
    if items != [] {
      ReplaceKeepsResolved(forms, items[0]);
      ReplaceItemsKeepsResolved(forms, items[1..]);
      assert [items[0]] + items[1..] == items;
    }
  }

  lemma {:induction false} ReplaceMembersKeepsResolved(forms: map<Json, Json>, fields: seq<Member>)
    requires ResolvedMembers(fields)
    ensures ReplaceMembers(forms, fields) == Ok(fields)
    decreases fields
  {
    if fields != [] {
      ReplaceKeepsResolved(forms, fields[0].value);
      ReplaceMembersKeepsResolved(forms, fields[1..]);
      assert [Member(fields[0].key, fields[0].value)] + fields[1..] == fields;
    }
  }

  /** Resolving twice against a resolved store is the same as resolving once. */
  lemma ReplaceIdempotent(forms: map<Json, Json>, v: Json)
    requires StoreResolved(forms)
    requires ReplaceRefs(forms, v).Ok?
    ensures ReplaceRefs(forms, ReplaceRefs(forms, v).value) == ReplaceRefs(forms, v)
  {
    ReplaceResolves(forms, v);
    ReplaceKeepsResolved(forms, ReplaceRefs(forms, v).value);
  }
}

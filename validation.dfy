/**
 * The item checks shared by the legacy board validators in
 * lib/api/screen.js and lib/api/dash.js: `for (var i in items)` over the
 * widgets or graphs, throwing for the first required property that is
 * falsy.
 */
module Validation {
  import opened Wrappers
  import opened Js
  import Text

  /** Every required property of `item` is truthy. */
  predicate Complete(item: Value, required: seq<string>) {
    forall j :: 0 <= j < |required| ==> Truthy(Prop(item, required[j]))
  }

  /**
   * Every item a `for ... in` over `items` visits is complete: the elements
   * of an array, the values of an object; null has none.
   */
  predicate AllComplete(items: Value, required: seq<string>) {
    match items
    case Arr(elements) => forall i :: 0 <= i < |elements| ==> Complete(elements[i], required)
    case Obj(fields) => forall k :: k in fields ==> Complete(fields[k], required)
    case _ => true
  }

  /** The message `util.format('`' + where + '[%s]["' + field + '"]` is missing', key)`. */
  function Missing(where: string, key: string, field: string): string {
    "`" + where + "[" + key + "][\"" + field + "\"]` is missing"
  }

  /** The position of the first required property of `item`, from `from` on, that is falsy. */
  function FirstFalsy(item: Value, required: seq<string>, from: nat): (j: nat)
    requires from <= |required|
    ensures from <= j <= |required|
    ensures forall i :: from <= i < j ==> Truthy(Prop(item, required[i]))
    ensures j < |required| ==> !Truthy(Prop(item, required[j]))
    decreases |required| - from
  {
    if from == |required| || !Truthy(Prop(item, required[from])) then from
    else FirstFalsy(item, required, from + 1)
  }

  /**
   * The checks of the item under `key`, in order: the first read throws
   * when the item is null or undefined; otherwise the first falsy property
   * is reported as missing.
   */
  function ItemCheck(where: string, key: string, item: Value, required: seq<string>): (r: Option<Error>)
    ensures r.None? <==> Complete(item, required)
    ensures r.Some? && IsNullish(item) ==> r.value == TypeError(required[0])
    ensures r.Some? && !IsNullish(item) ==>
      var j := FirstFalsy(item, required, 0);
      j < |required| && r.value == Thrown(Missing(where, key, required[j]))
  {
    if |required| == 0 then None
    else if IsNullish(item) then Some(TypeError(required[0]))
    else
      var j := FirstFalsy(item, required, 0);
      if j == |required| then None else Some(Thrown(Missing(where, key, required[j])))
  }

  /** The checks of an array's elements from `from` on, in index order. */
  function ArrayCheck(where: string, elements: seq<Value>, from: nat, required: seq<string>): (r: Option<Error>)
    ensures r.None? <==> forall i :: from <= i < |elements| ==> Complete(elements[i], required)
    decreases |elements| - from
  {
    if from >= |elements| then None
    else match ItemCheck(where, Text.NatToString(from), elements[from], required)
      case Some(e) => Some(e)
      case None => ArrayCheck(where, elements, from + 1, required)
  }

  /** The error for an array is the one of its first incomplete element. */
  lemma {:induction false} FirstIncompleteReported(where: string, elements: seq<Value>, from: nat, i: nat, required: seq<string>)
    requires from <= i < |elements| && !Complete(elements[i], required)
    requires forall j :: from <= j < i ==> Complete(elements[j], required)
    ensures ArrayCheck(where, elements, from, required) == ItemCheck(where, Text.NatToString(i), elements[i], required)
    decreases i - from
  {
    if from < i {
      FirstIncompleteReported(where, elements, from + 1, i, required);
    }
  }

  /**
   * The checks of `for (var i in items)`: an array's elements in index
   * order; for an object, some incomplete value's error (the model does not
   * record the insertion order that decides which one comes first); null
   * has nothing to visit.
   */
  ghost function CollectionCheck(where: string, items: Value, required: seq<string>): (r: Option<Error>)
    ensures r.None? <==> AllComplete(items, required)
    ensures items.Arr? ==> r == ArrayCheck(where, items.items, 0, required)
    ensures items.Obj? && r.Some? ==>
      exists k :: k in items.fields && r == ItemCheck(where, k, items.fields[k], required)
  {
    match items
    case Arr(elements) => ArrayCheck(where, elements, 0, required)
    case Obj(fields) =>
      if exists k :: k in fields && !Complete(fields[k], required) then
        var k :| k in fields && !Complete(fields[k], required);
        ItemCheck(where, k, fields[k], required)
      else None
    case _ => None
  }
}

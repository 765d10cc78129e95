/**
 * The configuration store the controller drives (ConfigResource). Its
 * implementation is not part of this model: each of its four operations is an
 * arbitrary function fixed when the store is built, so the model takes nothing
 * for granted about what they compute. What the store does keep is the persisted
 * document, which only `Patch` replaces, and a ghost log of every call made
 * on it, in order.
 */
module Resource {

  /** A PHP value as the controller sees it: a scalar, null, or an ordered array. */
  datatype Value =
    | Null
    | Bool(b: bool)
    | Num(n: int)
    | Str(s: string)
    | Array(entries: seq<(string, Value)>)

  /** One call on the store, with its arguments. */
  datatype StoreCall =
    | FetchCall(returnTrees: bool)
    | PatchCall(params: Value, submitTrees: bool)
    | TraverseCall(params: Value)
    | NestCall(target: Value, key: string, value: Value)

  class ConfigResource {
    /** fetch: the persisted document in the flat or the tree shape. */
    const view: (Value, bool) -> Value
    /** patch: the persisted document after merging the submitted params. */
    const merge: (Value, Value, bool) -> Value
    /** patch: what the call returns to the controller. */
    const patchResult: (Value, Value, bool) -> Value
    /** traverseArray: the dot-separated (flat) form of a tree. */
    const flatten: Value -> Value
    /** createNestedKeyValuePair: the target array with one dotted key nested into it. */
    const nestInto: (Value, string, Value) -> Value

    var document: Value
    ghost var calls: seq<StoreCall>

    constructor (
      document: Value,
      view: (Value, bool) -> Value,
      merge: (Value, Value, bool) -> Value,
      patchResult: (Value, Value, bool) -> Value,
      flatten: Value -> Value,
      nestInto: (Value, string, Value) -> Value)
      ensures this.document == document && calls == []
      ensures this.view == view && this.merge == merge && this.patchResult == patchResult
      ensures this.flatten == flatten && this.nestInto == nestInto
    {
      this.document := document;
      this.view := view;
      this.merge := merge;
      this.patchResult := patchResult;
      this.flatten := flatten;
      this.nestInto := nestInto;
      calls := [];
    }

    method Fetch(returnTrees: bool) returns (doc: Value)
      modifies this
      ensures doc == view(document, returnTrees)
      ensures document == old(document)
      ensures calls == old(calls) + [FetchCall(returnTrees)]
    {
      doc := view(document, returnTrees);
      calls := calls + [FetchCall(returnTrees)];
    }

    method Patch(params: Value, submitTrees: bool) returns (result: Value)
      modifies this
      ensures result == patchResult(old(document), params, submitTrees)
      ensures document == merge(old(document), params, submitTrees)
      ensures calls == old(calls) + [PatchCall(params, submitTrees)]
    {
      result := patchResult(document, params, submitTrees);
      document := merge(document, params, submitTrees);
      calls := calls + [PatchCall(params, submitTrees)];
    }

    method TraverseArray(params: Value) returns (flat: Value)
      modifies this
      ensures flat == flatten(params)
      ensures document == old(document)
      ensures calls == old(calls) + [TraverseCall(params)]
    {
      flat := flatten(params);
      calls := calls + [TraverseCall(params)];
    }

    /** The PHP method updates its by-reference array argument; here the updated array is returned. */
    method CreateNestedKeyValuePair(target: Value, key: string, value: Value) returns (updated: Value)
      modifies this
      ensures updated == nestInto(target, key, value)
      ensures document == old(document)
      ensures calls == old(calls) + [NestCall(target, key, value)]
    {
      updated := nestInto(target, key, value);
      calls := calls + [NestCall(target, key, value)];
    }
  }

  // ---------------------------------------------------------------------
  // Folding createNestedKeyValuePair over an ordered array.
  // ---------------------------------------------------------------------

  /** The left fold of `step` over `entries`, in iteration order, starting from `acc`. */
  function NestAll(step: (Value, string, Value) -> Value, acc: Value, entries: seq<(string, Value)>): Value
    decreases |entries|
  {
    if entries == [] then acc
    else NestAll(step, step(acc, entries[0].0, entries[0].1), entries[1..])
  }

  /** The calls the fold makes: one per entry, each on the array built so far. */
  function NestTrace(step: (Value, string, Value) -> Value, acc: Value, entries: seq<(string, Value)>): seq<StoreCall>
    decreases |entries|
  {
    if entries == [] then []
    else [NestCall(acc, entries[0].0, entries[0].1)]
         + NestTrace(step, step(acc, entries[0].0, entries[0].1), entries[1..])
  }

  /** Folding one more entry applies `step` once more to the result so far, and logs that call. */
  lemma {:induction false} NestAllSnoc(step: (Value, string, Value) -> Value, acc: Value,
                                       entries: seq<(string, Value)>, e: (string, Value))
    ensures NestAll(step, acc, entries + [e]) == step(NestAll(step, acc, entries), e.0, e.1)
    ensures NestTrace(step, acc, entries + [e])
         == NestTrace(step, acc, entries) + [NestCall(NestAll(step, acc, entries), e.0, e.1)]
    decreases |entries|
  {
    if entries != [] {
      var next := step(acc, entries[0].0, entries[0].1);
      assert (entries + [e])[1..] == entries[1..] + [e];
      NestAllSnoc(step, next, entries[1..], e);
    }
  }

  /**
   * The fold calls createNestedKeyValuePair exactly once per entry, in order,
   * with that entry's key and value, on the array built from the entries before it.
   */
  lemma {:induction false} NestTraceAt(step: (Value, string, Value) -> Value, acc: Value,
                                       entries: seq<(string, Value)>, i: nat)
    requires i < |entries|
    ensures |NestTrace(step, acc, entries)| == |entries|
    ensures NestTrace(step, acc, entries)[i]
         == NestCall(NestAll(step, acc, entries[..i]), entries[i].0, entries[i].1)
    decreases |entries|
  {
    var next := step(acc, entries[0].0, entries[0].1);
    if i == 0 {
      if |entries| > 1 {
        NestTraceAt(step, next, entries[1..], 0);
      }
    } else {
      NestTraceAt(step, next, entries[1..], i - 1);
      assert entries[1..][..i - 1] == entries[..i][1..];
    }
  }

  /** Number of patch calls in a log. */
  function PatchCount(log: seq<StoreCall>): nat
  {
    if log == [] then 0 else (if log[0].PatchCall? then 1 else 0) + PatchCount(log[1..])
  }

  lemma {:induction false} PatchCountAppend(a: seq<StoreCall>, b: seq<StoreCall>)
    ensures PatchCount(a + b) == PatchCount(a) + PatchCount(b)
    decreases |a|
  {
    if a == [] {
      assert a + b == b;
    } else {
      assert (a + b)[1..] == a[1..] + b;
      PatchCountAppend(a[1..], b);
    }
  }

  /** The nesting fold never calls patch. */
  lemma {:induction false} NestTraceHasNoPatch(step: (Value, string, Value) -> Value, acc: Value,
                                               entries: seq<(string, Value)>)
    ensures PatchCount(NestTrace(step, acc, entries)) == 0
    decreases |entries|
  {
    if entries != [] {
      NestTraceHasNoPatch(step, step(acc, entries[0].0, entries[0].1), entries[1..]);
    }
  }
}

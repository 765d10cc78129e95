/**
 * The request dispatcher of the configuration API (AbstractConfigController).
 *
 * The `Accept` header chooses the shape of the response (tree when it names
 * the vendor type, flat otherwise), the `Content-Type` header the shape of a
 * PATCH body. GET is answered by the store's fetch. PATCH merges the submitted
 * params through the store's patch; when the two shapes agree, the patch result
 * is returned as it is, otherwise the submitted params are reshaped into the
 * accepted shape, never the patch result. Every other method is refused with a
 * 405 problem.
 */
module Controller {
  import opened Wrappers
  import opened Media
  import opened Resource

  /** The request methods of an HTTP request. */
  datatype Method = Options | Get | Head | Post | Put | Delete | Trace | Connect | Patch

  /**
   * What the controller reads from a request: its method, its two headers
   * (absent or present with a field value), the body params as the framework's
   * body-params plugin parses them, and the body content as `json_decode`
   * returns it (`Null` when the content is not valid JSON).
   */
  datatype Request = Request(
    verb: Method,
    accept: Option<string>,
    contentType: Option<string>,
    formParams: seq<(string, Value)>,
    decodedContent: Value)

  /** What getConfig yields: a store, or any other value, which is returned as it is. */
  datatype ConfigSource = Store(store: ConfigResource) | Other(value: Value)
  {
    function Footprint(): set<object>
    {
      if Store? then {store} else {}
    }
  }

  /** The controller's answer; the constructor records which branch produced it. */
  datatype Response =
    | Passthrough(value: Value)
    | Fetched(doc: Value)
    | Patched(doc: Value)
    | Flattened(doc: Value)
    | Nested(doc: Value)
    | Problem(status: nat, detail: string)

  const MethodNotAllowedDetail: string := "Only the methods GET and PATCH are allowed for this URI"

  /** `returnTrees`: whether the Accept header asks for the tree shape. */
  function ReturnTrees(req: Request): (r: bool)
    ensures r <==> req.accept.Some? && MediaToken(req.accept.value) == VendorTree
  {
    HeaderType(req.accept) != Json
  }

  /** `submitTrees`: whether the Content-Type header announces the tree shape. */
  function SubmitTrees(req: Request): (r: bool)
    ensures r <==> req.contentType.Some? && MediaToken(req.contentType.value) == VendorTree
  {
    HeaderType(req.contentType) != Json
  }

  /**
   * Each shape flag is set exactly when its header normalises to the vendor
   * type, so an absent header always means the flat shape.
   */
  lemma ShapeFlags(req: Request)
    ensures ReturnTrees(req) <==> HeaderType(req.accept) == VendorTree
    ensures SubmitTrees(req) <==> HeaderType(req.contentType) == VendorTree
    ensures req.accept.None? ==> !ReturnTrees(req)
    ensures req.contentType.None? ==> !SubmitTrees(req)
  {
  }

  /** getBodyParams: the decoded content for a tree body, the parsed body params otherwise. */
  function BodyParams(req: Request, useTrees: bool): (p: Value)
    ensures useTrees ==> p == req.decodedContent
    ensures !useTrees ==> p.Array? && p.entries == req.formParams
  {
    if useTrees then req.decodedContent else Array(req.formParams)
  }

  class ConfigController {
    /** getConfig */
    const config: ConfigSource

    constructor (config: ConfigSource)
      ensures this.config == config
    {
      this.config := config;
    }

    /**
     * processAction. Exactly one of: the non-store config passed through with
     * no store call; one fetch; one patch, whose result is returned as it is
     * when the two shapes agree, and otherwise followed by the reshaping of the
     * submitted params into the accepted shape (never of the patch result); a
     * 405 problem with no store call.
     */
    method ProcessAction(req: Request) returns (r: Response)
      modifies config.Footprint()
      ensures config.Other? ==> r == Passthrough(config.value)
      ensures config.Store? && req.verb == Method.Get ==>
        var store := config.store;
        && r == Fetched(store.view(old(store.document), ReturnTrees(req)))
        && store.document == old(store.document)
        && store.calls == old(store.calls) + [FetchCall(ReturnTrees(req))]
      ensures config.Store? && req.verb == Method.Patch ==>
        var store, sub := config.store, SubmitTrees(req);
        store.document == store.merge(old(store.document), BodyParams(req, sub), sub)
      ensures config.Store? && req.verb == Method.Patch && SubmitTrees(req) == ReturnTrees(req) ==>
        var store, sub := config.store, SubmitTrees(req);
        var params := BodyParams(req, sub);
        && r == Patched(store.patchResult(old(store.document), params, sub))
        && store.calls == old(store.calls) + [PatchCall(params, sub)]
      ensures config.Store? && req.verb == Method.Patch && SubmitTrees(req) && !ReturnTrees(req) ==>
        var store, params := config.store, req.decodedContent;
        && r == Flattened(store.flatten(params))
        && store.calls == old(store.calls) + [PatchCall(params, true), TraverseCall(params)]
      ensures config.Store? && req.verb == Method.Patch && !SubmitTrees(req) && ReturnTrees(req) ==>
        var store, entries := config.store, req.formParams;
        && r == Nested(NestAll(store.nestInto, Array([]), entries))
        && store.calls == old(store.calls) + [PatchCall(Array(entries), false)]
                          + NestTrace(store.nestInto, Array([]), entries)
      ensures config.Store? && req.verb != Method.Get && req.verb != Method.Patch ==>
        && r == Problem(405, MethodNotAllowedDetail)
        && config.store.document == old(config.store.document)
        && config.store.calls == old(config.store.calls)
    {
      var returnTrees := ReturnTrees(req);

      if config.Other? {
        return Passthrough(config.value);
      }
      var store := config.store;

      if req.verb == Method.Get {
        var doc := store.Fetch(returnTrees);
        r := Fetched(doc);
      } else if req.verb == Method.Patch {
        r := PatchAndReshape(store, req, SubmitTrees(req), returnTrees);
      } else {
        r := Problem(405, MethodNotAllowedDetail);
      }
    }
  }

  /**
   * The PATCH case of processAction: merge the submitted params through the
   * store. When the two shapes agree, the patch result is returned as it is;
   * otherwise the submitted params are reshaped into the accepted shape, never
   * the patch result.
   */
  method PatchAndReshape(store: ConfigResource, req: Request, submitTrees: bool, returnTrees: bool)
    returns (r: Response)
    modifies store
    ensures store.document == store.merge(old(store.document), BodyParams(req, submitTrees), submitTrees)
    ensures submitTrees == returnTrees ==>
      var params := BodyParams(req, submitTrees);
      && r == Patched(store.patchResult(old(store.document), params, submitTrees))
      && store.calls == old(store.calls) + [PatchCall(params, submitTrees)]
    ensures submitTrees && !returnTrees ==>
      var params := req.decodedContent;
      && r == Flattened(store.flatten(params))
      && store.calls == old(store.calls) + [PatchCall(params, true), TraverseCall(params)]
    ensures !submitTrees && returnTrees ==>
      var entries := req.formParams;
      && r == Nested(NestAll(store.nestInto, Array([]), entries))
      && store.calls == old(store.calls) + [PatchCall(Array(entries), false)]
                        + NestTrace(store.nestInto, Array([]), entries)
    ensures PatchCount(store.calls) == PatchCount(old(store.calls)) + 1
  {
    var params := BodyParams(req, submitTrees);
    var result := store.Patch(params, submitTrees);
    ghost var before := old(store.calls);
    PatchBranchesPatchOnce(store.nestInto, params, submitTrees, req.formParams);

    if submitTrees == returnTrees {
      PatchCountAppend(before, [PatchCall(params, submitTrees)]);
      return Patched(result);
    }

    if submitTrees && !returnTrees {
      var flat := store.TraverseArray(params);
      assert store.calls == before + [PatchCall(params, submitTrees), TraverseCall(params)];
      PatchCountAppend(before, [PatchCall(params, submitTrees), TraverseCall(params)]);
      return Flattened(flat);
    }

    var nested := NestSubmitted(store, req.formParams);
    ghost var made := [PatchCall(params, submitTrees)] + NestTrace(store.nestInto, Array([]), req.formParams);
    assert store.calls == before + made;
    PatchCountAppend(before, made);
    r := Nested(nested);
  }

  /**
   * The `foreach` of processAction's flat-to-tree branch: createNestedKeyValuePair
   * applied to each submitted entry in order, starting from an empty array.
   */
  method NestSubmitted(store: ConfigResource, entries: seq<(string, Value)>) returns (nested: Value)
    modifies store
    ensures nested == NestAll(store.nestInto, Array([]), entries)
    ensures store.calls == old(store.calls) + NestTrace(store.nestInto, Array([]), entries)
    ensures store.document == old(store.document)
  {
    nested := Array([]);
    var i := 0;
    while i < |entries|
      invariant 0 <= i <= |entries|
      invariant nested == NestAll(store.nestInto, Array([]), entries[..i])
      invariant store.calls == old(store.calls) + NestTrace(store.nestInto, Array([]), entries[..i])
      invariant store.document == old(store.document)
    {
      NestAllSnoc(store.nestInto, Array([]), entries[..i], entries[i]);
      assert entries[..i + 1] == entries[..i] + [entries[i]];
      nested := store.CreateNestedKeyValuePair(nested, entries[i].0, entries[i].1);
      i := i + 1;
    }
    assert entries[..i] == entries;
  }

  /**
   * Each PATCH branch logs exactly one patch call, first: alone, before one
   * traverseArray call, or before the createNestedKeyValuePair fold.
   */
  lemma {:induction false} PatchBranchesPatchOnce(step: (Value, string, Value) -> Value, params: Value, sub: bool,
                                                  entries: seq<(string, Value)>)
    ensures PatchCount([PatchCall(params, sub)]) == 1
    ensures PatchCount([PatchCall(params, sub), TraverseCall(params)]) == 1
    ensures PatchCount([PatchCall(params, sub)] + NestTrace(step, Array([]), entries)) == 1
  {
    assert [PatchCall(params, sub)][1..] == [];
    assert [PatchCall(params, sub), TraverseCall(params)][1..][1..] == [];
    PatchCountAppend([PatchCall(params, sub)], NestTrace(step, Array([]), entries));
    NestTraceHasNoPatch(step, Array([]), entries);
  }
}

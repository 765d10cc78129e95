# Configuration API controller — verified Dafny model

This project models the request handling of the Laminas API Tools
configuration controller (`AbstractConfigController`). The controller serves
one URI that reads and partially updates a configuration document. It
works with two media types:

- `application/json` for the flat shape (dot-separated keys);
- `application/vnd.laminascampus.v1.config+json` for the nested tree shape.

The model has two parts:

- **Media-type normalisation** (`getHeaderType`), module `Media`
  (`media_type.dfy`). An absent header means `application/json`. A present
  header is cut at its first `;`, trimmed, lower-cased and matched against
  the two known types. Any other token falls back to `application/json`.
  This code is pure, so it is modelled as functions with lemmas about them.
- **Request dispatch** (`processAction`), class `Controller.ConfigController`
  (`config_controller.dfy`). It derives `returnTrees` from `Accept` and
  `submitTrees` from `Content-Type`. A config that is not a store is returned
  as it is. GET returns the store's `fetch`. PATCH calls the store's `patch`.
  When the two shapes agree, the patch result is returned as it is;
  otherwise the submitted params are reshaped into the accepted shape, never
  the patch result. Every other method gets a 405 problem. This code is imperative: the flat-to-tree
  `foreach` is a `while` loop, proved equal to a left fold.

The store that the controller drives (`ConfigResource`) is modelled in module
`Resource` (`config_resource.dfy`). Its source is not part of this model, so:

- each of its operations is an arbitrary function value fixed when the store
  is built;
- its persisted document changes only through `Patch`;
- a ghost log `calls` records every call in order.

The controller's contracts can therefore say which store calls happen, how
many, in what order and with which arguments.

The number of store calls a PATCH makes depends on its branch. In the
flat-to-tree branch, `processAction` calls `patch` once and then
`createNestedKeyValuePair` once for each submitted entry, so a PATCH can make
any number of store calls. The only vendor type recognised is the literal
`application/vnd.laminascampus.v1.config+json`; no other vendor name or
version is accepted.

## Model

| member | source | states |
|---|---|---|
| `Media.HeaderType` | src/ZF/Configuration/AbstractConfigController.php:103-121 | The result is always one of exactly two strings, `application/json` or the vendor type. An absent header gives `application/json`. The result is the vendor type exactly when the header is present and its media-type token (the part before the first `;`, trimmed and lower-cased) is the vendor type. |
| `Media.BeforeSemicolon` | src/ZF/Configuration/AbstractConfigController.php:111-112 | The first element of `explode(';', v, 2)` is a prefix of `v` and contains no `;`. It is either all of `v`, or `v` continues with a `;` right after it. |
| `Media.TrimLeft` | src/ZF/Configuration/AbstractConfigController.php:113 | The result is a suffix of the input. Every character dropped is in PHP's default trim set. The result is empty or starts with a character outside that set. |
| `Media.TrimRight` | src/ZF/Configuration/AbstractConfigController.php:113 | The result is a prefix of the input. Every character dropped is in the trim set. The result is empty or ends with a character outside it. |
| `Media.Trim` | src/ZF/Configuration/AbstractConfigController.php:113 | `trim` returns a contiguous slice of its input. Every character cut off before or after the slice is in the trim set. The slice is empty, or both its ends are outside the trim set. |
| `Media.Lower` | src/ZF/Configuration/AbstractConfigController.php:113 | `strtolower` keeps the length and leaves no ASCII upper-case letter. Each upper-case letter becomes the letter 32 code points above it, its lower-case form. Every other character is kept. |
| `Media.MediaToken` | src/ZF/Configuration/AbstractConfigController.php:110-113 | The token compared against the known types is no longer than the field value. It contains no `;` and no upper-case letter. It is empty or has ends outside the trim set. |
| `Media.JsonRecognised` | src/ZF/Configuration/AbstractConfigController.php:114-117 | The header value `application/json` normalises to itself. |
| `Media.VendorTreeRecognised` | src/ZF/Configuration/AbstractConfigController.php:114-117 | The header value `application/vnd.laminascampus.v1.config+json` normalises to itself. |
| `Media.HeaderTypeIdempotent` | src/ZF/Configuration/AbstractConfigController.php:111-120 | Feeding the normalised type back in as a header value returns the same type, for every header. |
| `Media.BeforeSemicolonAppend` | src/ZF/Configuration/AbstractConfigController.php:111-112 | Anything from the first `;` onward does not change the first element of the explode. |
| `Media.ParametersIgnored` | src/ZF/Configuration/AbstractConfigController.php:110-113 | For every `t` and `p`, the header value `t;p` normalises exactly as `t` does. |
| `Media.SurroundingWhitespaceIgnored` | src/ZF/Configuration/AbstractConfigController.php:113 | A media type without `;`, padded on either side with characters of the trim set, normalises exactly as the bare media type does. |
| `Media.CaseInsensitive` | src/ZF/Configuration/AbstractConfigController.php:110-120 | Two header values that differ only in the case of ASCII letters normalise to the same type. |
| `Media.VendorUpToCaseRecognised` | src/ZF/Configuration/AbstractConfigController.php:110-117 | Any value whose part before `;` is the vendor type in some mix of upper and lower case normalises to the vendor type, whatever follows the `;`. |
| `Media.MixedCaseVendorWithCharset` | src/ZF/Configuration/AbstractConfigController.php:110-117 | The value `Application/VND.laminascampus.v1.config+json; charset=utf-8` normalises to the vendor type. |
| `Media.EmptyDegradesToJson` | src/ZF/Configuration/AbstractConfigController.php:118-119 | An empty header value normalises to `application/json`. |
| `Media.UnknownDegradesToJson` | src/ZF/Configuration/AbstractConfigController.php:118-119 | `text/html; q=0.9` normalises to `application/json`. |
| `Controller.ReturnTrees` | src/ZF/Configuration/AbstractConfigController.php:24-26 | `returnTrees` holds exactly when `Accept` is present and its media-type token is the vendor type. |
| `Controller.SubmitTrees` | src/ZF/Configuration/AbstractConfigController.php:37 | `submitTrees` holds exactly when `Content-Type` is present and its media-type token is the vendor type. |
| `Controller.BodyParams` | src/ZF/Configuration/AbstractConfigController.php:87-94 | With trees, the params are the decoded body content. Without, they are the array of parsed body params, in order. |
| `Controller.ShapeFlags` | src/ZF/Configuration/AbstractConfigController.php:24-37 | `returnTrees` holds exactly when `Accept` normalises to the vendor type. `submitTrees` holds exactly when `Content-Type` does. An absent header means the flat shape. |
| `Controller.ConfigController.ProcessAction` | src/ZF/Configuration/AbstractConfigController.php:20-62 | A config that is not a store is returned unchanged. GET makes one `fetch(returnTrees)` call, returns its result unmodified and leaves the document as it was. PATCH makes exactly one store `patch` call, as the first call, with the params chosen by `submitTrees`, and merges them into the document. Equal shapes return the patch result. Tree submitted and flat accepted returns `traverseArray(params)`. Flat submitted and tree accepted returns the `createNestedKeyValuePair` fold over the params from an empty array. Both reshapings use the params, never the patch result. Any other method returns problem 405 with the fixed detail, calls nothing and leaves the document as it was. |
| `Controller.PatchAndReshape` | src/ZF/Configuration/AbstractConfigController.php:36-56 | The PATCH case calls `patch(params, submitTrees)` first and merges the params into the document. When the two shapes agree, it returns the patch result as it is. Otherwise it reshapes the submitted params into the accepted shape, never the patch result. It adds exactly one patch call to the log. |
| `Controller.NestSubmitted` | src/ZF/Configuration/AbstractConfigController.php:52-56 | The `foreach` returns the left fold of `createNestedKeyValuePair` over the entries, in order, from an empty array. It logs one nesting call per entry and leaves the document unchanged. |
| `Controller.PatchBranchesPatchOnce` | src/ZF/Configuration/AbstractConfigController.php:34-56 | Each of the three PATCH call sequences holds exactly one patch call: patch alone, patch then `traverseArray`, or patch then the nesting fold. |
| `Resource.ConfigResource.Fetch` | src/ZF/Configuration/AbstractConfigController.php:35 | `fetch` returns the store's view of the current document in the requested shape. It changes nothing and logs itself. |
| `Resource.ConfigResource.Patch` | src/ZF/Configuration/AbstractConfigController.php:39 | `patch` replaces the document with the merge of the old document and the params. It returns the store's patch result and logs itself. |
| `Resource.ConfigResource.TraverseArray` | src/ZF/Configuration/AbstractConfigController.php:48 | `traverseArray` returns the store's flat form of the params. It leaves the document unchanged and logs itself. |
| `Resource.ConfigResource.CreateNestedKeyValuePair` | src/ZF/Configuration/AbstractConfigController.php:54 | The by-reference array comes back with one dotted key nested into it. The document is unchanged and the call is logged. |
| `Resource.NestAllSnoc` | src/ZF/Configuration/AbstractConfigController.php:52-55 | Folding one more entry applies `createNestedKeyValuePair` once more to the array built so far, and appends exactly that call to the log. This is what the loop's invariant rests on. |
| `Resource.NestTraceAt` | src/ZF/Configuration/AbstractConfigController.php:52-55 | The fold makes exactly one nesting call per entry. Call `i` carries entry `i`'s key and value, applied to the array built from the entries before it. |
| `Resource.NestTraceHasNoPatch` | src/ZF/Configuration/AbstractConfigController.php:52-55 | The nesting fold never calls `patch`. |

## Left out

- `ConfigResource` internals (`fetch`, `patch`, `traverseArray`, `createNestedKeyValuePair`): their source is not part of this model. They are arbitrary functions, and no flatten/nest round-trip law is stated about them.
- Laminas HTTP objects (`Headers::has/get`, `getFieldValue`, `getMethod`, `getContent`): a request is a plain value. It holds its method, each header as an optional field value, the parsed body params and the decoded body. The header-name lookup itself (case-insensitive in Laminas) is not modelled.
- The framework's `bodyParams()` plugin and PHP's `json_decode`, called by `getBodyParams` (lines 87-94), are foreign. The request carries both results: `formParams` for a flat body and `decodedContent` for a tree body (`Null` when decoding fails). `Controller.BodyParams` models only the choice between them.
- Exceptions: the store operations are total functions here, so a store call that throws is not modelled. One case is `traverseArray` on the `null` that `json_decode` returns for a malformed tree body (lines 48 and 93). The contracts of `ProcessAction` describe the calls that return.
- Request methods: `Method` lists the nine standard methods. An extension method would take the `default` branch (lines 57-60) and get the 405 problem, exactly like `Delete` does here.
- `setRequest` (lines 72-76): a test hook that stores the request. The model passes the request to `ProcessAction` directly.
- `getConfig` is abstract in the source. It is modelled as the controller's fixed `config` value, so a `getConfig` whose answer changes between calls is not modelled.
- `ApiProblemModel`/`ApiProblem` object construction: the 405 answer is the plain value `Problem(405, detail)`.
- PHP array keys are strings in the model; integer keys are not modelled.
- `Value` covers only null, booleans, integers, strings and string-keyed arrays. A float in a JSON body (such as `1.5`) and an object that `getConfig` may yield are not expressible. The controller only passes such values through, so no branch of `processAction` depends on them.
- `strtolower` is modelled as ASCII lower-casing, with no locale effects. `trim` strips exactly PHP's default set: space, tab, LF, CR, NUL and vertical tab.
- PHP strings are byte strings; the model uses Dafny `char` sequences, so multi-byte characters are single characters here.
- The `Response` constructors (`Fetched`, `Patched`, `Flattened`, `Nested`) tag which branch produced the value. In PHP all of them are the same plain array.

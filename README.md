# Ophion query builders, modelled in Dafny

Ophion clients compose graph-traversal queries fluently: a builder call
appends at most one step descriptor (a small dict) to the builder's step list
and returns the builder itself, and `render` turns the step list into the JSON
the server reads. The exceptions are:
- a traversal (`incoming`, `outgoing`, `inEdge`, `outEdge`) given two or more
  arguments appends nothing;
- `group` always raises;
- `searchVertex`/`searchEdge` with no argument raise;
- the conformance `property` with a rejected argument shape raises.

This project models the two builders of the repository:

- the primary Python client, `client/python/ophion.py`: literal tagging
  (`wrapValue`), the condition constructors (`eq` ... `without`), the `Ophion`
  entry points `query` and `mark`, every `OphionQuery` step method,
  `searchArgs`, and `render`, which replaces the sub-queries of a `match`
  step by their raw step lists;
- the conformance-suite client, `conformance/ophion.py`: its own step
  vocabulary (`V`/`E`, `addV`/`addE`/`to`, `cap`, `map`/`fold`, `drop`, ...),
  `property` with its argument check, and `render`, which wraps the steps as
  `{'query': steps}`.

Files:

- `py_values.dfy` (`PyValues`): Python values as they reach a builder
  (`None`, bool, int, float as an opaque token, str, list, dict as its ordered
  entries, and a reference to a live object), the exceptions the code can
  raise, `if not isinstance(x, list): x = [x]`, and what `json.dumps` accepts.
- `client_wrap.dfy` (`ClientWrap`): `wrapValue`, the tag-stripping reading
  of it, and the condition constructors.
- `client.dfy` (`Client`): the builder as a class whose `query` field is the
  step list, the `Ophion` object, and `render` as written, plus the
  corrected rendering, which renders every sub-query by the same algorithm,
  recursively.
- `client_render.dfy` (`ClientRender`): what `render` produces, where it
  fails, and where it agrees with the recursive rendering.
- `conformance.dfy` (`Conformance`): the conformance builder and its render.

A builder method is a Dafny method that `modifies this`. Most ensure
`query == old(query) + [step]` and that they return `this`, with the step
spelled out as the dict the source appends. The exceptions:
- the client traversals append `TraversalSteps(name, args)`, which is empty
  for two or more arguments (`Client.TraversalArity`);
- `Client.OphionQuery.Group` returns `Err(TypeError)` and cannot change the
  steps;
- `Client.OphionQuery.SearchVertex`, `SearchEdge` and
  `Conformance.OphionQuery.Property` return a `Result`, and on `Err` leave
  `query` unchanged.

`render` is a function that reads the builder, so it cannot change it, and two calls in a row give the same result.
A `match` step holds references to the sub-query objects themselves, not a
copy. Rendering reads their `query` fields at that moment, so steps appended
to a sub-query after `match` still show up, as in Python.

Two behaviours of the code that a reader might not expect, and that the model
keeps:

- `wrapValue` does not pass an already tagged value through. `{'n': 5}` is a
  dict, so it is wrapped again to `{'n': {'n': 5}}` (`ClientWrap.UnwrapWrap`
  shows that nothing is lost).
- The condition constructors build `{'eq': v}`, `{'between': {'lower': lo,
  'upper': hi}}` and so on without tagging anything. Tagging happens when
  `has` or `satisfies` wraps the whole condition.

## Model

| member | source | states |
|---|---|---|
| PyValues.AsList | client/python/ophion.py:144-145 | a list is kept as it is; any other value becomes the one-element list holding it |
| PyValues.AsListIdempotent | client/python/ophion.py:189-190 | normalising a label list twice gives what normalising once gives |
| PyValues.JsonKey | client/python/ophion.py:322 | definition of the dict keys `json.dumps` accepts: None, bool, int, float or str |
| PyValues.Serializable | client/python/ophion.py:322 | definition of the values `json.dumps` accepts: no object reference anywhere and only such keys; properties in `SerializableHasNoRefs` |
| PyValues.Hashable | conformance/ophion.py:136 | definition of the values a dict display accepts as key (not a list, not a dict); used by `Conformance.PropertyStep` |
| PyValues.SerializableHasNoRefs | client/python/ophion.py:322 | a value `json.dumps` accepts holds no reference to a live object |
| ClientWrap.Wrap | client/python/ophion.py:119-131 | definition of `wrapValue`; properties in `WrapShape`, `WrapWellTagged`, `UnwrapWrap` and `WrapInjective` |
| ClientWrap.Eq | client/python/ophion.py:48-49 | definition of `eq`, `{'eq': v}` with `v` untagged; properties in `WrapComparison` |
| ClientWrap.Neq | client/python/ophion.py:51-52 | definition of `neq`; properties in `WrapComparison` |
| ClientWrap.Gt | client/python/ophion.py:54-55 | definition of `gt`; properties in `WrapComparison` |
| ClientWrap.Gte | client/python/ophion.py:57-58 | definition of `gte`; properties in `WrapComparison` |
| ClientWrap.Lt | client/python/ophion.py:60-61 | definition of `lt`; properties in `WrapComparison` |
| ClientWrap.Lte | client/python/ophion.py:63-64 | definition of `lte`; properties in `WrapComparison` |
| ClientWrap.Bounds | client/python/ophion.py:66-73 | definition of the `{'lower': lo, 'upper': hi}` payload of the range conditions; properties in `WrapRange` |
| ClientWrap.Between | client/python/ophion.py:66-67 | definition of `between`; properties in `WrapRange` and `Client.HasBetweenExample` |
| ClientWrap.Inside | client/python/ophion.py:69-70 | definition of `inside`; properties in `WrapRange` |
| ClientWrap.Outside | client/python/ophion.py:72-73 | definition of `outside`; properties in `WrapRange` |
| ClientWrap.Within | client/python/ophion.py:75-77 | definition of `within`, `{'within': values}`; properties in `WrapSetCondition` |
| ClientWrap.Without | client/python/ophion.py:79-81 | definition of `without`; properties in `WrapSetCondition` |
| ClientWrap.WrapShape | client/python/ophion.py:119-131 | an int or bool is tagged `{'n': v}`, a float `{'r': v}`, a str `{'s': v}`; a list keeps its length and order with every element wrapped; a dict keeps its keys in order with every value wrapped; None and objects are returned unchanged |
| ClientWrap.WrapIsNotLiteral | client/python/ophion.py:119-131 | wrapping never yields a bare literal |
| ClientWrap.WrapWellTagged | client/python/ophion.py:119-131 | after wrapping, every literal value at any depth (list element or dict value; dict keys stay bare) sits alone under the tag of its kind |
| ClientWrap.UnwrapWrap | client/python/ophion.py:119-131 | stripping the tags gives back the original value, also for a dict that already looks tagged |
| ClientWrap.WrapInjective | client/python/ophion.py:119-131 | distinct values are wrapped to distinct values |
| ClientWrap.WrapComparison | client/python/ophion.py:48-64 | once wrapped, `eq`/`neq`/`gt`/`gte`/`lt`/`lte` keep their operator key and carry the operand wrapped |
| ClientWrap.WrapRange | client/python/ophion.py:66-73 | once wrapped, `between`/`inside`/`outside` carry both bounds wrapped under `lower` and `upper` |
| ClientWrap.WrapSetCondition | client/python/ophion.py:75-81 | once wrapped, `within`/`without` of a list carry every member wrapped, in order |
| Client.LabelsPayload | client/python/ophion.py:143-146 | definition of the `{'labels': [...]}` payload with a scalar normalised to a one-element list; properties in `LabelNormalisation` |
| Client.TraversalSteps | client/python/ophion.py:139-177 | definition of what a traversal appends for `*args`; properties in `TraversalArity` and `LabelNormalisation` |
| Client.ByPayload | client/python/ophion.py:200-202 | definition of the `{'key': label}` payload of `by`; properties in `Client.GroupStepReadBack` |
| Client.HasStep | client/python/ophion.py:263-275 | definition of the `has` step; properties in `HasStepShape` and `HasBetweenExample` |
| Client.TraversalArity | client/python/ophion.py:139-177 | a traversal appends one step with zero or one argument and none with two or more; with no argument the payload is `[]`; with one it is `{'labels': list}`, the list kept or the scalar put in a one-element list |
| Client.LabelNormalisation | client/python/ophion.py:139-217 | `incoming("x")` and `incoming(["x"])` append the same step, and so do `mark`, `select` and `values` |
| Client.HasStepShape | client/python/ophion.py:263-275 | the `has` payload holds the key first and then the wrapped value under `condition` when it is a dict and under `value` otherwise, never both; with no value, the key alone |
| Client.HasBetweenExample | client/python/ophion.py:263-275 | `has("age", between(1, 10))` stores a condition whose bounds are `{'n': 1}` and `{'n': 10}` |
| Client.SearchArgs | client/python/ophion.py:285-294 | succeeds exactly when there is at least one argument; with two or more, the dict is exactly `{'term': args[0], 'search': args[1]}` in that order; with one, exactly `{'search': args[0]}`; with none, IndexError |
| Client.GroupStep | client/python/ophion.py:247-249 | definition of the corrected `group` step, `{'group': {'bys': [{'key': b} for b in bys]}}`; properties in `Client.GroupStepReadBack` and `ClientRender.RenderAfterGroup` |
| Client.GroupStepReadBack | client/python/ophion.py:247-249 | read back under `group` and then `bys`, the corrected step is a list with exactly one dict per grouping key, in order, whose `key` is that grouping key |
| Client.OphionQuery.constructor | client/python/ophion.py:134-136 | a new builder holds no steps |
| Client.OphionQuery.Incoming | client/python/ophion.py:139-147 | appends exactly the traversal steps for its arguments (`in`) and returns the builder |
| Client.OphionQuery.Outgoing | client/python/ophion.py:149-157 | the same for `out` |
| Client.OphionQuery.InEdge | client/python/ophion.py:159-167 | the same for `inEdge` |
| Client.OphionQuery.OutEdge | client/python/ophion.py:169-177 | the same for `outEdge` |
| Client.OphionQuery.InVertex | client/python/ophion.py:179-181 | appends `{'inVertex': True}` after the earlier steps and returns the builder |
| Client.OphionQuery.OutVertex | client/python/ophion.py:183-185 | appends `{'outVertex': True}` |
| Client.OphionQuery.Mark | client/python/ophion.py:188-192 | appends `{'as': {'labels': list}}` with the label normalised |
| Client.OphionQuery.Select | client/python/ophion.py:194-198 | appends `{'select': {'labels': list}}` with the labels normalised |
| Client.OphionQuery.By | client/python/ophion.py:200-202 | appends `{'by': {'key': label}}` |
| Client.OphionQuery.Label | client/python/ophion.py:204-211 | appends `{'label': {}}` whatever it is given |
| Client.OphionQuery.Values | client/python/ophion.py:213-217 | appends `{'values': {'labels': list}}` with the labels normalised |
| Client.OphionQuery.Limit | client/python/ophion.py:219-221 | appends `{'limit': l}` |
| Client.OphionQuery.Order | client/python/ophion.py:223-225 | appends `{'order': {'key': o, 'ascending': asc}}` |
| Client.OphionQuery.Range | client/python/ophion.py:227-229 | appends `{'range': {'lower': begin, 'upper': end}}` |
| Client.OphionQuery.Count | client/python/ophion.py:231-233 | appends `{'count': True}` |
| Client.OphionQuery.Dedup | client/python/ophion.py:235-237 | appends `{'dedup': []}` |
| Client.OphionQuery.Path | client/python/ophion.py:239-241 | appends `{'path': True}` |
| Client.OphionQuery.Aggregate | client/python/ophion.py:243-245 | appends `{'aggregate': label}` |
| Client.OphionQuery.Group | client/python/ophion.py:247-249 | always raises TypeError, before anything is appended |
| Client.OphionQuery.GroupAsIntended | client/python/ophion.py:247-249 | appends the intended `group` step and returns the builder |
| Client.OphionQuery.GroupCount | client/python/ophion.py:251-257 | appends `{'groupCount': {}}` with no argument and `{'groupCount': {'key': first}}` otherwise |
| Client.OphionQuery.Satisfies | client/python/ophion.py:259-261 | appends `{'is': wrapped condition}` |
| Client.OphionQuery.Has | client/python/ophion.py:263-275 | appends the `has` step described by `HasStepShape` |
| Client.OphionQuery.HasNot | client/python/ophion.py:277-279 | appends `{'hasNot': key}` |
| Client.OphionQuery.Match | client/python/ophion.py:281-283 | appends `{'match': {'queries': queries}}` holding the sub-queries themselves |
| Client.OphionQuery.SearchVertex | client/python/ophion.py:296-299 | with an argument, appends `{'searchVertex': searchArgs(args)}`; with none, raises IndexError and leaves the steps unchanged |
| Client.OphionQuery.SearchEdge | client/python/ophion.py:301-304 | the same for `searchEdge` |
| Client.Ophion.constructor | client/python/ophion.py:39-41 | keeps the host and posts to `host + "/vertex/query"` |
| Client.Ophion.Query | client/python/ophion.py:44-45 | returns a new, empty builder |
| Client.Ophion.Mark | client/python/ophion.py:84-85 | returns a new builder whose only step is the normalised `as` step |
| Client.OphionQuery.Render | client/python/ophion.py:307-322 | definition of `render` as written, reading the live sub-queries; properties in `ClientRender.RenderStepsShape`, `RenderMatchOneLevel`, `RenderPlainQuery`, `RenderRejectsNestedBuilder` and `RenderAgreesOnOneLevel` |
| Client.OphionQuery.RenderNested | client/python/ophion.py:307-322 | definition of the corrected rendering, every sub-query rendered by the same algorithm, recursively; properties in `ClientRender.RenderNestedComposed` and `RenderAgreesOnOneLevel` |
| Client.RenderPayload | client/python/ophion.py:309-316 | definition of `subsubrender`; properties in `ClientRender.RenderKeepsPlainPayload` and `RenderMatchOneLevel` |
| Client.RawSteps | client/python/ophion.py:312 | definition of `v.query`, AttributeError for anything but a builder; properties in `ClientRender.RawStepListsShape` |
| Client.Expands | client/python/ophion.py:310-311 | definition of the test `subsubrender` makes before expanding a payload: a list or dict with `'queries'` in it; used as the hypothesis of `ClientRender.RenderKeepsPlainPayload`, `RenderPlainSteps`, `RenderPlainQuery` and `RenderAfterGroup` |
| Client.Iterate | client/python/ophion.py:312 | what `for v in x` yields (list items, dict keys, the characters of a str, TypeError otherwise) refers to no object `x` does not refer to |
| Client.NestedSteps | client/python/ophion.py:321 | definition of the corrected rendering of a step list; properties in `ClientRender.NestedStepsComposed`, `NestedStepsPlain` and `StepsAgree` |
| Client.NestedEntries | client/python/ophion.py:318-319 | definition of the corrected rendering of one step; properties in `ClientRender.NestedEntriesComposed`, `NestedEntriesPlain` and `EntriesAgree` |
| Client.NestedPayload | client/python/ophion.py:309-316 | definition of the corrected rendering of one payload; properties in `ClientRender.NestedPayloadComposed` and `PayloadsAgree` |
| Client.NestedSubQueries | client/python/ophion.py:312 | definition of the corrected rendering of a `match`'s sub-queries, each rendered in turn; properties in `ClientRender.NestedSubQueriesComposed` and `SubQueriesAgree` |
| Client.RawStepLists | client/python/ophion.py:312 | when every sub-query has a `query` attribute, yields one step list per sub-query |
| Client.RenderEntries | client/python/ophion.py:318-319 | a rendered step has as many entries as the step |
| Client.RenderSteps | client/python/ophion.py:321 | the rendered list has as many steps as the query |
| ClientRender.MatchPayload | client/python/ophion.py:282 | definition of the payload `match(queries)` stores, `{'queries': queries}`; used by `ClientRender.RenderMatchOneLevel` |
| ClientRender.RenderKeepsPlainPayload | client/python/ophion.py:309-316 | a payload with no `queries` in it is copied unchanged |
| ClientRender.RenderEntriesShape | client/python/ophion.py:318-319 | a step renders exactly when each of its payloads does, keeping every key in order |
| ClientRender.RenderStepsShape | client/python/ophion.py:318-321 | the query renders exactly when every payload does; the output keeps the number and order of steps and each step's keys |
| ClientRender.RenderPlainSteps | client/python/ophion.py:307-321 | with no `match` payload, the rendered steps are the steps themselves |
| ClientRender.RawStepListsOfQueries | client/python/ophion.py:312 | `[v.query for v in queries]` over builders gives each builder's current steps, in order |
| ClientRender.RenderMatchOneLevel | client/python/ophion.py:311-312 | a `match` payload renders to `{'queries': [...]}` holding each sub-query's raw steps, in order, not rendered again |
| ClientRender.RenderEmpty | client/python/ophion.py:307-322 | an empty builder renders to the empty list |
| ClientRender.RenderPlainQuery | client/python/ophion.py:307-322 | with no `match` payload, render yields the step list itself when `json.dumps` accepts it and TypeError otherwise |
| ClientRender.RenderAfterGroup | client/python/ophion.py:247-249 | after the corrected `group(bys)` on a builder without `match` steps, `render` yields the steps themselves and fails only where `json.dumps` refuses an earlier step or a grouping key |
| ClientRender.RawStepListsShape | client/python/ophion.py:312 | when it succeeds, the k-th raw step list is what `v.query` yields for the k-th item |
| ClientRender.RenderRejectsNestedBuilder | client/python/ophion.py:307-322 | when a sub-query of a `match` holds a step that refers to another builder, render raises |
| ClientRender.ThreeLevels | client/python/ophion.py:281-322 | a match inside a match fails to render as written and renders with the recursive algorithm |
| ClientRender.NestedMatchCounterexample | client/python/ophion.py:307-322 | builds such a query with the builder's own methods: `render` raises, the recursive rendering succeeds |
| ClientRender.NestedStepsComposed | client/python/ophion.py:307-322 | recursive rendering of a well-composed step list succeeds and every rendered step is accepted by `json.dumps` |
| ClientRender.NestedEntriesComposed | client/python/ophion.py:318-319 | the same for one step |
| ClientRender.NestedPayloadComposed | client/python/ophion.py:309-316 | the same for one payload |
| ClientRender.NestedSubQueriesComposed | client/python/ophion.py:312 | the same for the sub-queries of a `match` |
| ClientRender.RenderNestedComposed | client/python/ophion.py:307-322 | a query built from data `json.dumps` accepts (every step key, and every payload other than a `match` over builders) and whose matches nest at most `depth` deep renders recursively without error |
| ClientRender.NestedEntriesPlain | client/python/ophion.py:309-319 | recursive rendering copies a step without `match` payloads unchanged |
| ClientRender.NestedStepsPlain | client/python/ophion.py:307-321 | recursive rendering copies a step list without `match` payloads unchanged |
| ClientRender.SubQueriesAgree | client/python/ophion.py:312 | for sub-queries built from data `json.dumps` accepts and without matches of their own, taking their raw steps equals rendering them |
| ClientRender.PayloadsAgree | client/python/ophion.py:309-316 | on payloads built from data `json.dumps` accepts and nested at most one level, the two renderings agree |
| ClientRender.EntriesAgree | client/python/ophion.py:318-319 | the same for steps built from such data (every key accepted by `json.dumps`) |
| ClientRender.StepsAgree | client/python/ophion.py:321 | the same for step lists built from such data |
| ClientRender.RenderAgreesOnOneLevel | client/python/ophion.py:307-322 | for queries built from data `json.dumps` accepts (every step key, and every payload other than a `match` over builders) and nested at most one level, `render` succeeds and equals the recursive rendering |
| Conformance.PropertyStep | conformance/ophion.py:134-141 | two arguments give `{'property': {k: v}}`, or TypeError when the key is unhashable; one dict gives `{'property': d}` unchanged; any other shape gives "Argument Error" |
| Conformance.PropertyFormsAgree | conformance/ophion.py:134-141 | `property(k, v)` and `property({k: v})` append the same step |
| Conformance.Ophion.constructor | conformance/ophion.py:5-7 | keeps the host and posts to `host + "/v1/graph-query"` |
| Conformance.Ophion.Query | conformance/ophion.py:9-10 | returns a new, empty builder |
| Conformance.OphionQuery.constructor | conformance/ophion.py:32-34 | a new builder holds no steps |
| Conformance.OphionQuery.JsImport | conformance/ophion.py:36-38 | appends `{'import': src}` after the earlier steps and returns the builder |
| Conformance.OphionQuery.V | conformance/ophion.py:40-42 | appends `{'V': id}`, with id None by default |
| Conformance.OphionQuery.E | conformance/ophion.py:44-46 | appends `{'E': id}`, with id None by default |
| Conformance.OphionQuery.Label | conformance/ophion.py:48-50 | appends `{'label': label}` |
| Conformance.OphionQuery.Has | conformance/ophion.py:52-56 | appends `{'has': {'key': prop, 'within': list}}` with `within` normalised to a list |
| Conformance.OphionQuery.Values | conformance/ophion.py:58-62 | appends `{'values': {'labels': list}}` with the labels normalised |
| Conformance.OphionQuery.Cap | conformance/ophion.py:64-68 | appends `{'cap': list}` with the argument normalised |
| Conformance.OphionQuery.Incoming | conformance/ophion.py:70-72 | appends `{'in': label}`, the label stored as given and `""` by default |
| Conformance.OphionQuery.Outgoing | conformance/ophion.py:74-76 | appends `{'out': label}`, the same way |
| Conformance.OphionQuery.InEdge | conformance/ophion.py:78-80 | appends `{'inEdge': label}`, the same way |
| Conformance.OphionQuery.OutEdge | conformance/ophion.py:82-84 | appends `{'outEdge': label}`, the same way |
| Conformance.OphionQuery.InVertex | conformance/ophion.py:86-88 | appends `{'inVertex': label}` |
| Conformance.OphionQuery.OutVertex | conformance/ophion.py:90-92 | appends `{'outVertex': label}` |
| Conformance.OphionQuery.Mark | conformance/ophion.py:94-96 | appends `{'as': label}`, not normalised |
| Conformance.OphionQuery.Select | conformance/ophion.py:98-100 | appends `{'select': {'labels': labels}}`, not normalised |
| Conformance.OphionQuery.Limit | conformance/ophion.py:102-104 | appends `{'limit': l}` |
| Conformance.OphionQuery.Range | conformance/ophion.py:106-108 | appends the one two-key step `{'begin': b, 'end': e}` |
| Conformance.OphionQuery.Count | conformance/ophion.py:110-112 | appends `{'count': ''}` |
| Conformance.OphionQuery.GroupCount | conformance/ophion.py:114-116 | appends `{'groupCount': label}` |
| Conformance.OphionQuery.By | conformance/ophion.py:118-120 | appends `{'by': label}` |
| Conformance.OphionQuery.AddV | conformance/ophion.py:122-124 | appends `{'addV': id}` |
| Conformance.OphionQuery.AddE | conformance/ophion.py:126-128 | appends `{'addE': label}` |
| Conformance.OphionQuery.To | conformance/ophion.py:130-132 | appends `{'to': dst}` |
| Conformance.OphionQuery.Property | conformance/ophion.py:134-141 | succeeds exactly when the arguments are a hashable key and a value, or one dict, and then appends the property step; otherwise raises and leaves the steps unchanged |
| Conformance.OphionQuery.Map | conformance/ophion.py:143-145 | appends `{'map': func}` |
| Conformance.OphionQuery.Fold | conformance/ophion.py:147-149 | appends `{'fold': func}` |
| Conformance.OphionQuery.Drop | conformance/ophion.py:151-153 | appends `{'drop': ''}` |
| Conformance.OphionQuery.Render | conformance/ophion.py:155-157 | succeeds exactly when `json.dumps` accepts every step, and otherwise raises TypeError; reading `{'query': [...]}` back gives the steps unaltered |
| Conformance.FoldTestQuery | conformance/tests/ot_fold.py:6-14 | `addV("vertex1").property({...})` renders to `{'query': [{'addV': 'vertex1'}, {'property': {...}}]}`, with the dict unchanged |

## Left out

- HTTP: `Ophion.execute` and `Ophion.vertex` (client/python/ophion.py:88-117), `OphionQuery.execute` (line 325), and the conformance `execute`/`first` (conformance/ophion.py:12-29, 159-163). These send requests and parse responses over the network.
- The `parent` back-reference of both builders. It exists only to dispatch `execute`.
- The JSON text itself. `render` is modelled up to the value tree that `json.dumps` would encode, together with the condition under which `json.dumps` raises (an object, or a dict key that is not a string, number, boolean or None).
- Float semantics. A float is an opaque token, and nothing computes with it.
- Python tuples, sets and other containers are not values of the model. A builder argument is None, a bool, an int, a float, a str, a list, a dict or an object reference.
- Client.RawSteps: only `OphionQuery` objects are taken to have a `query` attribute. Any other object in a `match` list raises AttributeError in the model, even an unrelated object that happens to have such an attribute.
- Aliasing of arguments: every step method of both builders stores its arguments as values. In Python a list or dict passed to a step method is kept by reference, so mutating it afterwards changes the stored step. In the model it does not. After `l = ["a"]; q.mark(l); l.append("b")`, Python's step holds `["a", "b"]` and the model's holds `["a"]`. This concerns the client's `incoming`, `outgoing`, `inEdge`, `outEdge`, `mark`, `select`, `values` and `match`, and the conformance `label`, `has`, `values`, `cap`, `select` and `property`, among others. Builder objects are the exception: the sub-queries inside a `match` are still held by reference and read live.
- Python version of the primary client: client/python/ophion.py is modelled as Python 3.7 or later. Its dicts keep insertion order, so the order of the `has` entries is fixed, and `long` and `unicode` values, which `wrapValue` would leave untagged under Python 2, are not values of the model.
- Dict order in the conformance client: conformance/ophion.py is Python 2 code, and Python 2 dicts keep no insertion order. The order of the entries of its steps (`range`'s `begin` before `end`, the property dict in `Conformance.FoldTestQuery`) is a choice of the model, not something the source fixes.
- Client.OphionQuery.RenderNested: the corrected recursive rendering takes a depth bound and raises RecursionError when the bound is exhausted. This stands in for Python's recursion limit and for a query that contains itself.
- Client.OphionQuery.Label: the model takes no arguments, because the source ignores whatever it is given.
- client/python/mutations.py and conformance/tests/ot_fold.py are not part of this model beyond the one fold-test query reproduced in `Conformance.FoldTestQuery`. The JavaScript passed to `map`, `fold` and `js_import` is an opaque payload.

## Findings

| source | as written | input that shows it | evidently intended | confidence | as-written member | corrected member |
|---|---|---|---|---|---|---|
| client/python/ophion.py:312 | a `match` sub-query is replaced by its raw `v.query`, which is not rendered in turn | `O.query().match([O.query().match([O.query().incoming("x")])])`: the inner builder object stays in the output and `json.dumps` raises TypeError | sub-queries rendered by the same algorithm, recursively | high; not executed | ClientRender.NestedMatchCounterexample | ClientRender.RenderNestedComposed |
| client/python/ophion.py:248 | `map(lambda by: {'key': by})` is called without the sequence to map over | `group(["a"])` raises TypeError and appends nothing | `{'group': {'bys': [{'key': b} for b in bys]}}` | high; not executed | Client.OphionQuery.Group | ClientRender.RenderAfterGroup |

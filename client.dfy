/**
 * The primary client's query builder, client/python/ophion.py: the
 * `OphionQuery` step methods, the `Ophion` entry points, and `render` as
 * written (sub-queries expanded one level only).
 */
module Client {
  import opened PyValues
  import opened ClientWrap

  // ---------------------------------------------------------------------
  // The steps the builder methods append

  /** The `{'labels': [...]}` payload; a scalar label becomes a one-element list. */
  function LabelsPayload(labels: Value): Value
  {
    Dict([(Str("labels"), AsList(labels))])
  }

  /** What `incoming`/`outgoing`/`inEdge`/`outEdge` append for `*args`:
      `{name: []}` with no argument, `{name: {'labels': [...]}}` with one,
      and nothing at all with two or more. */
  function TraversalSteps(name: string, args: seq<Value>): (s: seq<Step>)
  {
    if |args| == 0 then [Single(name, List([]))]
    else if |args| == 1 then [Single(name, LabelsPayload(args[0]))]
    else []
  }

  /** A traversal appends one step when called with at most one argument and
      none otherwise; its payload always holds its labels as a list. */
  lemma TraversalArity(name: string, args: seq<Value>)
    ensures |TraversalSteps(name, args)| == (if |args| <= 1 then 1 else 0)
    ensures |args| == 0 ==> TraversalSteps(name, args)[0] == Single(name, List([]))
    ensures |args| == 1 ==> (var p := TraversalSteps(name, args)[0][0].1;
                             p.Dict? && |p.entries| == 1 && p.entries[0].0 == Str("labels") &&
                             p.entries[0].1.List? &&
                             (args[0].List? ==> p.entries[0].1 == args[0]) &&
                             (!args[0].List? ==> p.entries[0].1.items == [args[0]]))
  {
  }

  /** `incoming("x")` and `incoming(["x"])` append the same step. */
  lemma LabelNormalisation(name: string, lab: Value)
    requires !lab.List?
    ensures TraversalSteps(name, [lab]) == TraversalSteps(name, [List([lab])])
    ensures LabelsPayload(lab) == LabelsPayload(List([lab]))
  {
  }

  /** `has(key, *args)`: only the key with no value; a dict value (a condition)
      under `condition`; any other value under `value`; wrapped either way.
      Arguments after the first are ignored. */
  function HasStep(key: Value, args: seq<Value>): Step
  {
    if |args| == 0 then Single("has", Dict([(Str("key"), key)]))
    else if args[0].Dict? then Single("has", Dict([(Str("key"), key), (Str("condition"), Wrap(args[0]))]))
    else Single("has", Dict([(Str("key"), key), (Str("value"), Wrap(args[0]))]))
  }

  /** The `has` payload names the key first, then holds the wrapped argument
      under exactly one of `condition` and `value`, or neither when no value
      is given. */
  lemma HasStepShape(key: Value, args: seq<Value>)
    ensures var p := HasStep(key, args)[0].1;
      && p.Dict? && p.entries[0] == (Str("key"), key)
      && HasKey(p.entries, Str("condition")) == (|args| > 0 && args[0].Dict?)
      && HasKey(p.entries, Str("value")) == (|args| > 0 && !args[0].Dict?)
      && (|args| > 0 ==> |p.entries| == 2 && p.entries[1].1 == Wrap(args[0]))
      && (|args| == 0 ==> |p.entries| == 1)
  {
    if |args| > 0 {
      var p := HasStep(key, args)[0].1;
      assert p.entries[1].0 == if args[0].Dict? then Str("condition") else Str("value");
    }
  }

  /** `has("age", between(1, 10))` stores the condition with both bounds tagged. */
  lemma HasBetweenExample()
    ensures HasStep(Str("age"), [Between(Int(1), Int(10))]) ==
      Single("has", Dict([(Str("key"), Str("age")),
                          (Str("condition"), Dict([(Str("between"),
                             Dict([(Str("lower"), Dict([(Str("n"), Int(1))])),
                                   (Str("upper"), Dict([(Str("n"), Int(10))]))]))]))]))
  {
    WrapRange(Int(1), Int(10));
  }

  /** `searchArgs(args)`: with two or more arguments the first is the term and
      the second the search; with one it is the search alone; with none
      `args[0]` raises IndexError. */
  function SearchArgs(args: seq<Value>): (r: Result<Value>)
    ensures r.Ok? <==> |args| >= 1
    ensures r.Err? ==> r.error == IndexError
    ensures r.Ok? ==> r.value.Dict? && HasKey(r.value.entries, Str("search"))
    ensures r.Ok? ==> Lookup(r.value.entries, Str("search")) == (if |args| >= 2 then args[1] else args[0])
    ensures r.Ok? ==> (HasKey(r.value.entries, Str("term")) <==> |args| >= 2)
    ensures |args| >= 2 ==> Lookup(r.value.entries, Str("term")) == args[0]
    ensures r.Ok? ==> |r.value.entries| == (if |args| >= 2 then 2 else 1)
    ensures r.Ok? ==> r.value.entries[|r.value.entries| - 1].0 == Str("search")
    ensures |args| >= 2 ==> r.value.entries[0].0 == Str("term")
  {
    if |args| > 1 then
      var entries := [(Str("term"), args[0]), (Str("search"), args[1])];
      assert entries[1].0 == Str("search");
      Ok(Dict(entries))
    else if |args| == 1 then
      var entries := [(Str("search"), args[0])];
      assert entries[0].0 == Str("search");
      Ok(Dict(entries))
    else Err(IndexError)
  }

  /** The `{'key': label}` payload `by` appends. */
  function ByPayload(lab: Value): Value
  {
    Dict([(Str("key"), lab)])
  }

  /** The `group` step as evidently intended: one `{'key': b}` per grouping
      key, in order (the source passes no sequence to `map`, see `OphionQuery.Group`). */
  function GroupStep(bys: seq<Value>): Step
  {
    Single("group", Dict([(Str("bys"), List(seq(|bys|, i requires 0 <= i < |bys| => ByPayload(bys[i]))))]))
  }

  /** Reading the intended `group` step back through `Lookup`: under
      `group`, then `bys`, a list with one entry per grouping key, in order,
      each a dict whose `key` is that grouping key. */
  lemma GroupStepReadBack(bys: seq<Value>)
    ensures HasKey(GroupStep(bys), Str("group"))
    ensures var p := Lookup(GroupStep(bys), Str("group"));
      && p.Dict? && HasKey(p.entries, Str("bys"))
      && var l := Lookup(p.entries, Str("bys"));
      && l.List? && |l.items| == |bys|
      && forall i | 0 <= i < |bys| ::
           l.items[i].Dict? && HasKey(l.items[i].entries, Str("key"))
           && Lookup(l.items[i].entries, Str("key")) == bys[i]
  {
    var s := GroupStep(bys);
    assert s[0].0 == Str("group");
    var p := s[0].1;
    assert p.entries[0].0 == Str("bys");
    var l := p.entries[0].1;
    forall i | 0 <= i < |bys|
      ensures l.items[i].Dict? && HasKey(l.items[i].entries, Str("key"))
      ensures Lookup(l.items[i].entries, Str("key")) == bys[i]
    {
      assert l.items[i].entries[0].0 == Str("key");
    }
  }

  // ---------------------------------------------------------------------
  // The builder

  class OphionQuery {
    /** `self.query`: the steps appended so far. */
    var query: seq<Step>

    constructor ()
      ensures query == []
    {
      query := [];
    }

    method Incoming(args: seq<Value>) returns (r: OphionQuery)
      modifies this
      ensures r == this && query == old(query) + TraversalSteps("in", args)
    {
      query := query + TraversalSteps("in", args);
      r := this;
    }

    method Outgoing(args: seq<Value>) returns (r: OphionQuery)
      modifies this
      ensures r == this && query == old(query) + TraversalSteps("out", args)
    {
      query := query + TraversalSteps("out", args);
      r := this;
    }

    method InEdge(args: seq<Value>) returns (r: OphionQuery)
      modifies this
      ensures r == this && query == old(query) + TraversalSteps("inEdge", args)
    {
      query := query + TraversalSteps("inEdge", args);
      r := this;
    }

    method OutEdge(args: seq<Value>) returns (r: OphionQuery)
      modifies this
      ensures r == this && query == old(query) + TraversalSteps("outEdge", args)
    {
      query := query + TraversalSteps("outEdge", args);
      r := this;
    }

    method InVertex() returns (r: OphionQuery)
      modifies this
      ensures r == this && query == old(query) + [Single("inVertex", Bool(true))]
    {
      query := query + [Single("inVertex", Bool(true))];
      r := this;
    }

    method OutVertex() returns (r: OphionQuery)
      modifies this
      ensures r == this && query == old(query) + [Single("outVertex", Bool(true))]
    {
      query := query + [Single("outVertex", Bool(true))];
      r := this;
    }

    method Mark(lab: Value) returns (r: OphionQuery)
      modifies this
      ensures r == this && query == old(query) + [Single("as", LabelsPayload(lab))]
    {
      query := query + [Single("as", LabelsPayload(lab))];
      r := this;
    }

    method Select(labels: Value) returns (r: OphionQuery)
      modifies this
      ensures r == this && query == old(query) + [Single("select", LabelsPayload(labels))]
    {
      query := query + [Single("select", LabelsPayload(labels))];
      r := this;
    }

    method By(lab: Value) returns (r: OphionQuery)
      modifies this
      ensures r == this && query == old(query) + [Single("by", ByPayload(lab))]
    {
      query := query + [Single("by", ByPayload(lab))];
      r := this;
    }

    /** `label(*args)` ignores its arguments. */
    method Label() returns (r: OphionQuery)
      modifies this
      ensures r == this && query == old(query) + [Single("label", Dict([]))]
    {
      query := query + [Single("label", Dict([]))];
      r := this;
    }

    method Values(labels: Value) returns (r: OphionQuery)
      modifies this
      ensures r == this && query == old(query) + [Single("values", LabelsPayload(labels))]
    {
      query := query + [Single("values", LabelsPayload(labels))];
      r := this;
    }

    method Limit(l: Value) returns (r: OphionQuery)
      modifies this
      ensures r == this && query == old(query) + [Single("limit", l)]
    {
      query := query + [Single("limit", l)];
      r := this;
    }

    method Order(o: Value, asc: Value) returns (r: OphionQuery)
      modifies this
      ensures r == this && query == old(query) + [Single("order", Dict([(Str("key"), o), (Str("ascending"), asc)]))]
    {
      query := query + [Single("order", Dict([(Str("key"), o), (Str("ascending"), asc)]))];
      r := this;
    }

    method Range(begin: Value, end: Value) returns (r: OphionQuery)
      modifies this
      ensures r == this && query == old(query) + [Single("range", Bounds(begin, end))]
    {
      query := query + [Single("range", Bounds(begin, end))];
      r := this;
    }

    method Count() returns (r: OphionQuery)
      modifies this
      ensures r == this && query == old(query) + [Single("count", Bool(true))]
    {
      query := query + [Single("count", Bool(true))];
      r := this;
    }

    method Dedup() returns (r: OphionQuery)
      modifies this
      ensures r == this && query == old(query) + [Single("dedup", List([]))]
    {
      query := query + [Single("dedup", List([]))];
      r := this;
    }

    method Path() returns (r: OphionQuery)
      modifies this
      ensures r == this && query == old(query) + [Single("path", Bool(true))]
    {
      query := query + [Single("path", Bool(true))];
      r := this;
    }

    method Aggregate(lab: Value) returns (r: OphionQuery)
      modifies this
      ensures r == this && query == old(query) + [Single("aggregate", lab)]
    {
      query := query + [Single("aggregate", lab)];
      r := this;
    }

    /** `group(bys)` as written: `map` is called with the function alone, which
        raises TypeError before anything is appended. */
    method Group(bys: Value) returns (r: Result<OphionQuery>)
      ensures r == Err(TypeError)
    {
      r := Err(TypeError);
    }

    /** `group(bys)` as evidently intended: one step, one `{'key': b}` per key. */
    method GroupAsIntended(bys: seq<Value>) returns (r: OphionQuery)
      modifies this
      ensures r == this && query == old(query) + [GroupStep(bys)]
    {
      query := query + [GroupStep(bys)];
      r := this;
    }

    method GroupCount(args: seq<Value>) returns (r: OphionQuery)
      modifies this
      ensures r == this
      ensures query == old(query) + [Single("groupCount", if |args| == 0 then Dict([]) else ByPayload(args[0]))]
    {
      if |args| == 0 {
        query := query + [Single("groupCount", Dict([]))];
      } else {
        query := query + [Single("groupCount", ByPayload(args[0]))];
      }
      r := this;
    }

    method Satisfies(condition: Value) returns (r: OphionQuery)
      modifies this
      ensures r == this && query == old(query) + [Single("is", Wrap(condition))]
    {
      query := query + [Single("is", Wrap(condition))];
      r := this;
    }

    method Has(key: Value, args: seq<Value>) returns (r: OphionQuery)
      modifies this
      ensures r == this && query == old(query) + [HasStep(key, args)]
    {
      query := query + [HasStep(key, args)];
      r := this;
    }

    method HasNot(key: Value) returns (r: OphionQuery)
      modifies this
      ensures r == this && query == old(query) + [Single("hasNot", key)]
    {
      query := query + [Single("hasNot", key)];
      r := this;
    }

    /** `match(queries)` stores the sub-queries themselves, not a copy of
        their steps: steps appended to them later are rendered too. */
    method Match(queries: Value) returns (r: OphionQuery)
      modifies this
      ensures r == this && query == old(query) + [Single("match", Dict([(Str("queries"), queries)]))]
    {
      query := query + [Single("match", Dict([(Str("queries"), queries)]))];
      r := this;
    }

    /** `searchVertex(*args)`; with no argument `searchArgs` raises and
        nothing is appended. */
    method SearchVertex(args: seq<Value>) returns (r: Result<OphionQuery>)
      modifies this
      ensures r.Ok? <==> |args| >= 1
      ensures r.Ok? ==> r.value == this && query == old(query) + [Single("searchVertex", SearchArgs(args).value)]
      ensures r.Err? ==> r.error == IndexError && query == old(query)
    {
      var opts := SearchArgs(args);
      if opts.Err? {
        return Err(opts.error);
      }
      query := query + [Single("searchVertex", opts.value)];
      r := Ok(this);
    }

    method SearchEdge(args: seq<Value>) returns (r: Result<OphionQuery>)
      modifies this
      ensures r.Ok? <==> |args| >= 1
      ensures r.Ok? ==> r.value == this && query == old(query) + [Single("searchEdge", SearchArgs(args).value)]
      ensures r.Err? ==> r.error == IndexError && query == old(query)
    {
      var opts := SearchArgs(args);
      if opts.Err? {
        return Err(opts.error);
      }
      query := query + [Single("searchEdge", opts.value)];
      r := Ok(this);
    }

    /** `render()` as written, up to the JSON text: the rendered step list,
        or the exception raised while rendering or by `json.dumps`. */
    function Render(): Result<Value>
      reads this, StepsRefs(query)
    {
      var out :- RenderSteps(query);
      if Serializable(List(out)) then Ok(List(out)) else Err(TypeError)
    }

    /** The corrected rendering: sub-queries rendered by the same algorithm,
        recursively, to at most `depth` levels of nesting. */
    function RenderNested(depth: nat): Result<Value>
      reads *
    {
      var out :- NestedSteps(query, depth);
      if Serializable(List(out)) then Ok(List(out)) else Err(TypeError)
    }
  }

  /** The client object: entry points that create fresh builders. */
  class Ophion {
    const host: string
    const url: string

    constructor (host: string)
      ensures this.host == host && url == host + "/vertex/query"
    {
      this.host := host;
      url := host + "/vertex/query";
    }

    /** `query()`: a new, empty builder. */
    method Query() returns (q: OphionQuery)
      ensures fresh(q) && q.query == []
    {
      q := new OphionQuery();
    }

    /** `mark(lab)`: a new builder holding the one `as` step, as the
        branches of a `match` start. */
    method Mark(lab: Value) returns (q: OphionQuery)
      ensures fresh(q) && q.query == [Single("as", LabelsPayload(lab))]
    {
      q := new OphionQuery();
      q := q.Mark(lab);
    }
  }

  // ---------------------------------------------------------------------
  // Rendering as written

  function StepRefs(step: Step): set<object>
  {
    Refs(Dict(step))
  }

  function StepsRefs(steps: seq<Step>): set<object>
  {
    set i, o | 0 <= i < |steps| && o in StepRefs(steps[i]) :: o
  }

  function ItemsRefs(items: seq<Value>): set<object>
  {
    set i, o | 0 <= i < |items| && o in Refs(items[i]) :: o
  }

  /** `'queries' in payload` for a list or dict payload: the test `render`
      uses to spot a `match` payload. */
  predicate Expands(v: Value)
  {
    (v.List? && Str("queries") in v.items) || (v.Dict? && HasKey(v.entries, Str("queries")))
  }

  /** What `for v in x` yields: a list's items, a dict's keys, a string's
      characters; anything else is not iterable. */
  function Iterate(x: Value): (r: Result<seq<Value>>)
    ensures r.Ok? ==> ItemsRefs(r.value) <= Refs(x)
  {
    match x
    case List(items) => Ok(items)
    case Dict(entries) => Ok(Keys(entries))
    case Str(s) => Ok(seq(|s|, i requires 0 <= i < |s| => Str([s[i]])))
    case _ => Err(TypeError)
  }

  lemma LookupRefs(entries: seq<(Value, Value)>, k: Value)
    requires HasKey(entries, k)
    ensures Refs(Lookup(entries, k)) <= Refs(Dict(entries))
  {
  }

  /** `v.query`: the raw step list of a sub-query. */
  function RawSteps(v: Value): Result<Value>
    reads Refs(v)
  {
    if v.Ref? && v.obj is OphionQuery then Ok(StepsValue((v.obj as OphionQuery).query))
    else Err(AttributeError)
  }

  /** `[v.query for v in items]` */
  function RawStepLists(items: seq<Value>): (r: Result<seq<Value>>)
    reads ItemsRefs(items)
    ensures r.Ok? ==> |r.value| == |items|
  {
    if items == [] then Ok([])
    else
      assert ItemsRefs(items[1..]) <= ItemsRefs(items) by {
        forall o | o in ItemsRefs(items[1..]) ensures o in ItemsRefs(items) {
          var i :| 0 <= i < |items[1..]| && o in Refs(items[1..][i]);
          assert items[1..][i] == items[i + 1];
        }
      }
      var head :- RawSteps(items[0]);
      var tail :- RawStepLists(items[1..]);
      Ok([head] + tail)
  }

  /** `subsubrender`: a `match` payload becomes `{'queries': [...]}` holding
      each sub-query's raw steps; every other payload is kept. */
  function RenderPayload(v: Value): Result<Value>
    reads Refs(v)
  {
    match v
    case List(items) => if Str("queries") in items then Err(TypeError) else Ok(v)
    case Dict(entries) =>
      if HasKey(entries, Str("queries")) then
        LookupRefs(entries, Str("queries"));
        var items :- Iterate(Lookup(entries, Str("queries")));
        var subs :- RawStepLists(items);
        Ok(Dict([(Str("queries"), List(subs))]))
      else Ok(v)
    case _ => Ok(v)
  }

  /** `subrender`: every payload of one step, keys kept in order. */
  function RenderEntries(step: Step): (r: Result<Step>)
    reads StepRefs(step)
    ensures r.Ok? ==> |r.value| == |step|
  {
    if step == [] then Ok([])
    else
      assert Refs(step[0].1) <= StepRefs(step);
      assert StepRefs(step[1..]) <= StepRefs(step) by {
        forall o | o in StepRefs(step[1..]) ensures o in StepRefs(step) {
          if i :| 0 <= i < |step[1..]| && o in Refs(step[1..][i].0) {
            assert step[1..][i] == step[i + 1];
          } else {
            var i :| 0 <= i < |step[1..]| && o in Refs(step[1..][i].1);
            assert step[1..][i] == step[i + 1];
          }
        }
      }
      var payload :- RenderPayload(step[0].1);
      var rest :- RenderEntries(step[1..]);
      Ok([(step[0].0, payload)] + rest)
  }

  /** `[subrender(q) for q in self.query]` */
  function RenderSteps(steps: seq<Step>): (r: Result<seq<Value>>)
    reads StepsRefs(steps)
    ensures r.Ok? ==> |r.value| == |steps|
  {
    if steps == [] then Ok([])
    else
      assert StepsRefs(steps[1..]) <= StepsRefs(steps) by {
        forall o | o in StepsRefs(steps[1..]) ensures o in StepsRefs(steps) {
          var i :| 0 <= i < |steps[1..]| && o in StepRefs(steps[1..][i]);
          assert steps[1..][i] == steps[i + 1];
        }
      }
      var step :- RenderEntries(steps[0]);
      var rest :- RenderSteps(steps[1..]);
      Ok([Dict(step)] + rest)
  }

  // ---------------------------------------------------------------------
  // Rendering as intended (recursive, depth-bounded)

  function NestedSteps(steps: seq<Step>, depth: nat): Result<seq<Value>>
    reads *
    decreases depth, 3, |steps|
  {
    if steps == [] then Ok([])
    else
      var step :- NestedEntries(steps[0], depth);
      var rest :- NestedSteps(steps[1..], depth);
      Ok([Dict(step)] + rest)
  }

  function NestedEntries(step: Step, depth: nat): Result<Step>
    reads *
    decreases depth, 2, |step|
  {
    if step == [] then Ok([])
    else
      var payload :- NestedPayload(step[0].1, depth);
      var rest :- NestedEntries(step[1..], depth);
      Ok([(step[0].0, payload)] + rest)
  }

  function NestedPayload(v: Value, depth: nat): Result<Value>
    reads *
    decreases depth, 1, 0
  {
    match v
    case List(items) => if Str("queries") in items then Err(TypeError) else Ok(v)
    case Dict(entries) =>
      if HasKey(entries, Str("queries")) then
        var items :- Iterate(Lookup(entries, Str("queries")));
        var subs :- NestedSubQueries(items, depth);
        Ok(Dict([(Str("queries"), List(subs))]))
      else Ok(v)
    case _ => Ok(v)
  }

  /** `[render(v) for v in items]`, one level deeper; a nesting deeper than
      `depth` (which a query containing itself would be) is refused. */
  function NestedSubQueries(items: seq<Value>, depth: nat): Result<seq<Value>>
    reads *
    decreases depth, 0, |items|
  {
    if items == [] then Ok([])
    else if !(items[0].Ref? && items[0].obj is OphionQuery) then Err(AttributeError)
    else if depth == 0 then Err(RecursionError)
    else
      var head :- NestedSteps((items[0].obj as OphionQuery).query, depth - 1);
      var tail :- NestedSubQueries(items[1..], depth);
      Ok([List(head)] + tail)
  }
}

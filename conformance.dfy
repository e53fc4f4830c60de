/**
 * The conformance suite's query builder, conformance/ophion.py: a second
 * step vocabulary (graph mutation, JavaScript map/fold) whose `render`
 * wraps the step list as `{'query': steps}`.
 */
module Conformance {
  import opened PyValues

  /** `property(*args)`: a key and a value give `{'property': {k: v}}`, a
      single dict gives `{'property': d}`; an unhashable key makes the dict
      display raise TypeError; any other shape raises "Argument Error". */
  function PropertyStep(args: seq<Value>): (r: Result<Step>)
    ensures r.Ok? <==> (|args| == 2 && Hashable(args[0])) || (|args| == 1 && args[0].Dict?)
    ensures r.Err? ==> r.error == (if |args| == 2 then TypeError else ArgumentError)
    ensures r.Ok? ==> |r.value| == 1 && r.value[0].0 == Str("property")
    ensures r.Ok? && |args| == 1 ==> r.value[0].1 == args[0]
  {
    if |args| == 2 then
      if Hashable(args[0]) then Ok(Single("property", Dict([(args[0], args[1])]))) else Err(TypeError)
    else if |args| == 1 && args[0].Dict? then Ok(Single("property", args[0]))
    else Err(ArgumentError)
  }

  /** `property(k, v)` and `property({k: v})` append the same step. */
  lemma PropertyFormsAgree(k: Value, v: Value)
    requires Hashable(k)
    ensures PropertyStep([k, v]) == PropertyStep([Dict([(k, v)])])
  {
  }

  /** The steps a `{'query': [...]}` value carries: the inverse of
      `render`'s output. */
  function Unrender(out: Value): (steps: Result<seq<Step>>)
  {
    if out.Dict? && |out.entries| == 1 && out.entries[0].0 == Str("query")
       && out.entries[0].1.List?
       && forall i | 0 <= i < |out.entries[0].1.items| :: out.entries[0].1.items[i].Dict?
    then
      var items := out.entries[0].1.items;
      Ok(seq(|items|, i requires 0 <= i < |items| => items[i].entries))
    else Err(TypeError)
  }

  /** The connection object: it only knows where queries are posted. */
  class Ophion {
    const host: string
    const url: string

    constructor (host: string)
      ensures this.host == host && url == host + "/v1/graph-query"
    {
      this.host := host;
      url := host + "/v1/graph-query";
    }

    /** `query()`: a new, empty builder. */
    method Query() returns (q: OphionQuery)
      ensures fresh(q) && q.query == []
    {
      q := new OphionQuery();
    }
  }

  class OphionQuery {
    /** `self.query`: the steps appended so far. */
    var query: seq<Step>

    constructor ()
      ensures query == []
    {
      query := [];
    }

    method JsImport(src: Value) returns (r: OphionQuery)
      modifies this
      ensures r == this && query == old(query) + [Single("import", src)]
    {
      query := query + [Single("import", src)];
      r := this;
    }

    method V(id: Value := None) returns (r: OphionQuery)
      modifies this
      ensures r == this && query == old(query) + [Single("V", id)]
    {
      query := query + [Single("V", id)];
      r := this;
    }

    method E(id: Value := None) returns (r: OphionQuery)
      modifies this
      ensures r == this && query == old(query) + [Single("E", id)]
    {
      query := query + [Single("E", id)];
      r := this;
    }

    method Label(lab: Value) returns (r: OphionQuery)
      modifies this
      ensures r == this && query == old(query) + [Single("label", lab)]
    {
      query := query + [Single("label", lab)];
      r := this;
    }

    /** `has(prop, within)`: the accepted values always as a list. */
    method Has(prop: Value, within: Value) returns (r: OphionQuery)
      modifies this
      ensures r == this
      ensures query == old(query) + [Single("has", Dict([(Str("key"), prop), (Str("within"), AsList(within))]))]
    {
      query := query + [Single("has", Dict([(Str("key"), prop), (Str("within"), AsList(within))]))];
      r := this;
    }

    method Values(v: Value) returns (r: OphionQuery)
      modifies this
      ensures r == this && query == old(query) + [Single("values", Dict([(Str("labels"), AsList(v))]))]
    {
      query := query + [Single("values", Dict([(Str("labels"), AsList(v))]))];
      r := this;
    }

    method Cap(c: Value) returns (r: OphionQuery)
      modifies this
      ensures r == this && query == old(query) + [Single("cap", AsList(c))]
    {
      query := query + [Single("cap", AsList(c))];
      r := this;
    }

    /** The traversals store their label as given, `""` when none is. */
    method Incoming(lab: Value := Str("")) returns (r: OphionQuery)
      modifies this
      ensures r == this && query == old(query) + [Single("in", lab)]
    {
      query := query + [Single("in", lab)];
      r := this;
    }

    method Outgoing(lab: Value := Str("")) returns (r: OphionQuery)
      modifies this
      ensures r == this && query == old(query) + [Single("out", lab)]
    {
      query := query + [Single("out", lab)];
      r := this;
    }

    method InEdge(lab: Value := Str("")) returns (r: OphionQuery)
      modifies this
      ensures r == this && query == old(query) + [Single("inEdge", lab)]
    {
      query := query + [Single("inEdge", lab)];
      r := this;
    }

    method OutEdge(lab: Value := Str("")) returns (r: OphionQuery)
      modifies this
      ensures r == this && query == old(query) + [Single("outEdge", lab)]
    {
      query := query + [Single("outEdge", lab)];
      r := this;
    }

    method InVertex(lab: Value) returns (r: OphionQuery)
      modifies this
      ensures r == this && query == old(query) + [Single("inVertex", lab)]
    {
      query := query + [Single("inVertex", lab)];
      r := this;
    }

    method OutVertex(lab: Value) returns (r: OphionQuery)
      modifies this
      ensures r == this && query == old(query) + [Single("outVertex", lab)]
    {
      query := query + [Single("outVertex", lab)];
      r := this;
    }

    method Mark(lab: Value) returns (r: OphionQuery)
      modifies this
      ensures r == this && query == old(query) + [Single("as", lab)]
    {
      query := query + [Single("as", lab)];
      r := this;
    }

    method Select(labels: Value) returns (r: OphionQuery)
      modifies this
      ensures r == this && query == old(query) + [Single("select", Dict([(Str("labels"), labels)]))]
    {
      query := query + [Single("select", Dict([(Str("labels"), labels)]))];
      r := this;
    }

    method Limit(l: Value) returns (r: OphionQuery)
      modifies this
      ensures r == this && query == old(query) + [Single("limit", l)]
    {
      query := query + [Single("limit", l)];
      r := this;
    }

    /** `range(begin, end)` appends one two-key step, not a tagged one. */
    method Range(begin: Value, end: Value) returns (r: OphionQuery)
      modifies this
      ensures r == this && query == old(query) + [[(Str("begin"), begin), (Str("end"), end)]]
    {
      query := query + [[(Str("begin"), begin), (Str("end"), end)]];
      r := this;
    }

    method Count() returns (r: OphionQuery)
      modifies this
      ensures r == this && query == old(query) + [Single("count", Str(""))]
    {
      query := query + [Single("count", Str(""))];
      r := this;
    }

    method GroupCount(lab: Value) returns (r: OphionQuery)
      modifies this
      ensures r == this && query == old(query) + [Single("groupCount", lab)]
    {
      query := query + [Single("groupCount", lab)];
      r := this;
    }

    method By(lab: Value) returns (r: OphionQuery)
      modifies this
      ensures r == this && query == old(query) + [Single("by", lab)]
    {
      query := query + [Single("by", lab)];
      r := this;
    }

    method AddV(id: Value) returns (r: OphionQuery)
      modifies this
      ensures r == this && query == old(query) + [Single("addV", id)]
    {
      query := query + [Single("addV", id)];
      r := this;
    }

    method AddE(lab: Value) returns (r: OphionQuery)
      modifies this
      ensures r == this && query == old(query) + [Single("addE", lab)]
    {
      query := query + [Single("addE", lab)];
      r := this;
    }

    method To(dst: Value) returns (r: OphionQuery)
      modifies this
      ensures r == this && query == old(query) + [Single("to", dst)]
    {
      query := query + [Single("to", dst)];
      r := this;
    }

    /** Raises, appending nothing, unless given a key and value or one dict. */
    method Property(args: seq<Value>) returns (r: Result<OphionQuery>)
      modifies this
      ensures r.Ok? <==> PropertyStep(args).Ok?
      ensures r.Ok? ==> r.value == this && query == old(query) + [PropertyStep(args).value]
      ensures r.Err? ==> r.error == PropertyStep(args).error && query == old(query)
    {
      var step := PropertyStep(args);
      if step.Err? {
        return Err(step.error);
      }
      query := query + [step.value];
      r := Ok(this);
    }

    /** `map(func)`: the JavaScript source is an opaque payload. */
    method Map(func: Value) returns (r: OphionQuery)
      modifies this
      ensures r == this && query == old(query) + [Single("map", func)]
    {
      query := query + [Single("map", func)];
      r := this;
    }

    method Fold(func: Value) returns (r: OphionQuery)
      modifies this
      ensures r == this && query == old(query) + [Single("fold", func)]
    {
      query := query + [Single("fold", func)];
      r := this;
    }

    method Drop() returns (r: OphionQuery)
      modifies this
      ensures r == this && query == old(query) + [Single("drop", Str(""))]
    {
      query := query + [Single("drop", Str(""))];
      r := this;
    }

    /** `render()`: `json.dumps({'query': self.query})`, up to the JSON text. */
    function Render(): (r: Result<Value>)
      reads this
      ensures r.Ok? <==> forall i | 0 <= i < |query| :: Serializable(Dict(query[i]))
      ensures r.Err? ==> r.error == TypeError
      ensures r.Ok? ==> Unrender(r.value) == Ok(query)
    {
      var steps := StepsValue(query);
      var out := Dict([(Str("query"), steps)]);
      assert out.entries[0] == (Str("query"), steps) && JsonKey(out.entries[0].0);
      assert |steps.items| == |query| && forall i | 0 <= i < |query| :: steps.items[i] == Dict(query[i]);
      assert Serializable(steps) <==> forall i | 0 <= i < |query| :: Serializable(Dict(query[i]));
      assert Unrender(out).Ok? && Unrender(out).value == query;
      if Serializable(out) then Ok(out) else Err(TypeError)
    }
  }

  /** The first query of the fold test (conformance/tests/ot_fold.py:6-14):
      `addV("vertex1").property({...})` appends the dict unchanged and
      renders to `{'query': [{'addV': 'vertex1'}, {'property': {...}}]}`. */
  method FoldTestQuery() returns (out: Result<Value>)
    ensures out == Ok(Dict([(Str("query"), List([
      Dict([(Str("addV"), Str("vertex1"))]),
      Dict([(Str("property"), SampleProperties())])]))]))
  {
    var q := new OphionQuery();
    q := q.AddV(Str("vertex1"));
    var r := q.Property([SampleProperties()]);
    out := q.Render();
    assert q.query == [Single("addV", Str("vertex1")), Single("property", SampleProperties())];
    assert StepsValue(q.query).items == [Dict(q.query[0]), Dict(q.query[1])];
  }

  function SampleProperties(): Value
  {
    Dict([(Str("type"), Str("sample")),
          (Str("count"), Dict([(Str("AAA"), Int(1)), (Str("BBB"), Int(1)),
                               (Str("CCC"), Int(10)), (Str("EEE"), Int(10))]))])
  }
}

/**
 * What `render` in client/python/ophion.py does to a step list, and how the
 * one-level expansion it performs compares with rendering every sub-query
 * by the same algorithm, recursively.
 */
module ClientRender {
  import opened PyValues
  import opened Client

  /** The step list `match([q1, ..., qn])` receives. */
  function QueryRefs(qs: seq<OphionQuery>): seq<Value>
  {
    seq(|qs|, i requires 0 <= i < |qs| => Ref(qs[i]))
  }

  /** `[q.query for q in qs]`: the raw step lists of the builders. */
  function RawLists(qs: seq<OphionQuery>): seq<Value>
    reads qs
  {
    seq(|qs|, i requires 0 <= i < |qs| reads qs => StepsValue(qs[i].query))
  }

  /** The `match` payload for the given sub-queries. */
  function MatchPayload(qs: seq<OphionQuery>): Value
  {
    Dict([(Str("queries"), List(QueryRefs(qs)))])
  }

  // ---------------------------------------------------------------------
  // Rendering as written

  /** A payload that is not a `match` payload is copied as it is. */
  lemma RenderKeepsPlainPayload(v: Value)
    requires !Expands(v)
    ensures RenderPayload(v) == Ok(v)
  {
  }

  /** Rendering one step succeeds exactly when every payload does, and keeps
      the keys and their order. */
  lemma {:induction false} RenderEntriesShape(step: Step)
    ensures RenderEntries(step).Ok? <==> forall j | 0 <= j < |step| :: RenderPayload(step[j].1).Ok?
    ensures RenderEntries(step).Ok? ==>
      forall j | 0 <= j < |step| ::
        RenderEntries(step).value[j] == (step[j].0, RenderPayload(step[j].1).value)
  {
    if step != [] {
      RenderEntriesShape(step[1..]);
      assert forall j | 1 <= j < |step| :: step[1..][j - 1] == step[j];
    }
  }

  /** `render` keeps the number and order of the steps and the keys of each;
      it fails exactly when some payload fails to render. */
  lemma {:induction false} RenderStepsShape(steps: seq<Step>)
    ensures RenderSteps(steps).Ok? <==>
      forall i, j | 0 <= i < |steps| && 0 <= j < |steps[i]| :: RenderPayload(steps[i][j].1).Ok?
    ensures RenderSteps(steps).Ok? ==>
      forall i | 0 <= i < |steps| ::
        && RenderSteps(steps).value[i].Dict?
        && Keys(RenderSteps(steps).value[i].entries) == Keys(steps[i])
        && forall j | 0 <= j < |steps[i]| ::
             RenderSteps(steps).value[i].entries[j].1 == RenderPayload(steps[i][j].1).value
  {
    if steps != [] {
      RenderEntriesShape(steps[0]);
      RenderStepsShape(steps[1..]);
      assert forall i | 1 <= i < |steps| :: steps[1..][i - 1] == steps[i];
    }
  }

  /** Steps without a `match` payload are rendered unchanged. */
  lemma {:induction false} RenderPlainSteps(steps: seq<Step>)
    requires forall i, j | 0 <= i < |steps| && 0 <= j < |steps[i]| :: !Expands(steps[i][j].1)
    ensures RenderSteps(steps) == Ok(StepsValue(steps).items)
  {
    RenderStepsShape(steps);
    var out := RenderSteps(steps).value;
    forall i | 0 <= i < |steps| ensures out[i] == Dict(steps[i]) {
      assert |out[i].entries| == |steps[i]|;
      forall j | 0 <= j < |steps[i]| ensures out[i].entries[j] == steps[i][j] {
        assert Keys(out[i].entries)[j] == Keys(steps[i])[j];
      }
    }
    assert out == StepsValue(steps).items;
  }

  /** `[v.query for v in queries]` over builders: each one's raw step list. */
  lemma {:induction false} RawStepListsOfQueries(qs: seq<OphionQuery>)
    ensures RawStepLists(QueryRefs(qs)) == Ok(RawLists(qs))
  {
    if qs != [] {
      RawStepListsOfQueries(qs[1..]);
      assert QueryRefs(qs)[1..] == QueryRefs(qs[1..]);
      assert RawSteps(QueryRefs(qs)[0]) == Ok(StepsValue(qs[0].query));
      assert RawLists(qs) == [StepsValue(qs[0].query)] + RawLists(qs[1..]);
    } else {
      assert RawLists(qs) == [];
    }
  }

  /** A `match` payload renders to the sub-queries' raw step lists, in order:
      one level, the sub-queries' own steps are not rendered again. */
  lemma RenderMatchOneLevel(qs: seq<OphionQuery>)
    ensures RenderPayload(MatchPayload(qs)) ==
      Ok(Dict([(Str("queries"), List(RawLists(qs)))]))
  {
    var entries := [(Str("queries"), List(QueryRefs(qs)))];
    assert entries[0].0 == Str("queries");
    RawStepListsOfQueries(qs);
  }

  /** An empty builder renders to the empty list. */
  lemma RenderEmpty(q: OphionQuery)
    requires q.query == []
    ensures q.Render() == Ok(List([]))
  {
  }

  /** A builder without `match` steps renders to its own step list, which
      fails only when `json.dumps` refuses it. */
  lemma RenderPlainQuery(q: OphionQuery)
    requires forall i, j | 0 <= i < |q.query| && 0 <= j < |q.query[i]| :: !Expands(q.query[i][j].1)
    ensures q.Render() == if Serializable(StepsValue(q.query)) then Ok(StepsValue(q.query)) else Err(TypeError)
  {
    RenderPlainSteps(q.query);
  }

  /** After the intended `group(bys)` on a builder without `match` steps,
      `render` no longer raises because of `group`: it yields the steps
      themselves, and fails only where `json.dumps` refuses an earlier step
      or a grouping key. */
  lemma RenderAfterGroup(q: OphionQuery, steps: seq<Step>, bys: seq<Value>)
    requires q.query == steps + [GroupStep(bys)]
    requires forall i, j | 0 <= i < |steps| && 0 <= j < |steps[i]| :: !Expands(steps[i][j].1)
    ensures q.Render().Ok? <==>
      Serializable(StepsValue(steps)) && forall i | 0 <= i < |bys| :: Serializable(bys[i])
    ensures q.Render().Ok? ==> q.Render().value == StepsValue(q.query)
  {
    var g := GroupStep(bys);
    var l := g[0].1.entries[0].1;
    assert g[0].1.entries[0].0 == Str("bys");
    assert !Expands(g[0].1);
    forall i, j | 0 <= i < |q.query| && 0 <= j < |q.query[i]| ensures !Expands(q.query[i][j].1) {
      if i < |steps| {
        assert q.query[i] == steps[i];
      } else {
        assert q.query[i] == g;
      }
    }
    RenderPlainQuery(q);
    assert Serializable(l) <==> forall i | 0 <= i < |bys| :: Serializable(bys[i]) by {
      forall i | 0 <= i < |bys| ensures Serializable(l.items[i]) <==> Serializable(bys[i]) {
        assert l.items[i] == ByPayload(bys[i]);
        assert ByPayload(bys[i]).entries[0] == (Str("key"), bys[i]);
      }
    }
    assert Serializable(Dict(g)) <==> Serializable(l) by {
      assert g[0] == (Str("group"), g[0].1);
      assert g[0].1.entries[0] == (Str("bys"), l);
    }
    var all := StepsValue(q.query);
    var pre := StepsValue(steps);
    assert |all.items| == |pre.items| + 1;
    assert forall i | 0 <= i < |steps| :: all.items[i] == pre.items[i];
    assert all.items[|steps|] == Dict(g);
  }

  // ---------------------------------------------------------------------
  // Queries composed from plain data, to a given depth of nesting

  /** A payload `json.dumps` accepts and that `render` keeps as it is. */
  predicate Plain(v: Value)
  {
    Serializable(v) && !Expands(v)
  }

  /** `{'queries': [q1, ..., qn]}` with builders `qi`. */
  predicate ComposedMatch(v: Value)
  {
    && v.Dict? && |v.entries| == 1 && v.entries[0].0 == Str("queries") && v.entries[0].1.List?
    && forall k | 0 <= k < |v.entries[0].1.items| ::
         v.entries[0].1.items[k].Ref? && v.entries[0].1.items[k].obj is OphionQuery
  }

  /** The builders a `ComposedMatch` payload names. */
  function SubQuery(v: Value, k: nat): OphionQuery
    requires ComposedMatch(v) && k < |v.entries[0].1.items|
  {
    v.entries[0].1.items[k].obj as OphionQuery
  }

  /** Every step of the list is composed to `depth`. */
  predicate Composed(steps: seq<Step>, depth: nat)
    reads *
    decreases depth, 3
  {
    forall i | 0 <= i < |steps| :: ComposedStep(steps[i], depth)
  }

  /** Every key is one `json.dumps` accepts and every payload is composed. */
  predicate ComposedStep(step: Step, depth: nat)
    reads *
    decreases depth, 2
  {
    forall j | 0 <= j < |step| :: JsonKey(step[j].0) && ComposedPayload(step[j].1, depth)
  }

  /** Plain data, or, when `depth > 0`, a `match` over builders whose steps
      are composed in the same way to `depth - 1`. */
  predicate ComposedPayload(v: Value, depth: nat)
    reads *
    decreases depth, 1
  {
    || Plain(v)
    || (&& depth > 0
        && ComposedMatch(v)
        && forall k | 0 <= k < |v.entries[0].1.items| :: Composed(SubQuery(v, k).query, depth - 1))
  }

  // ---------------------------------------------------------------------
  // The recursive rendering renders every composed query

  lemma {:induction false} NestedStepsComposed(steps: seq<Step>, depth: nat)
    requires Composed(steps, depth)
    ensures NestedSteps(steps, depth).Ok?
    ensures forall i | 0 <= i < |NestedSteps(steps, depth).value| :: Serializable(NestedSteps(steps, depth).value[i])
    decreases depth, 3, |steps|
  {
    if steps != [] {
      NestedEntriesComposed(steps[0], depth);
      assert Composed(steps[1..], depth) by {
        forall i | 0 <= i < |steps[1..]| ensures ComposedStep(steps[1..][i], depth) {
          assert steps[1..][i] == steps[i + 1];
        }
      }
      NestedStepsComposed(steps[1..], depth);
    }
  }

  lemma {:induction false} NestedEntriesComposed(step: Step, depth: nat)
    requires ComposedStep(step, depth)
    ensures NestedEntries(step, depth).Ok?
    ensures Serializable(Dict(NestedEntries(step, depth).value))
    decreases depth, 2, |step|
  {
    if step != [] {
      NestedPayloadComposed(step[0].1, depth);
      assert ComposedStep(step[1..], depth) by {
        forall j | 0 <= j < |step[1..]| ensures JsonKey(step[1..][j].0) && ComposedPayload(step[1..][j].1, depth) {
          assert step[1..][j] == step[j + 1];
        }
      }
      NestedEntriesComposed(step[1..], depth);
      var rest := NestedEntries(step[1..], depth).value;
      var out := NestedEntries(step, depth).value;
      assert out == [(step[0].0, NestedPayload(step[0].1, depth).value)] + rest;
      forall j | 0 <= j < |out| ensures JsonKey(out[j].0) && Serializable(out[j].1) {
        if j > 0 {
          assert out[j] == rest[j - 1];
        }
      }
    }
  }

  lemma {:induction false} NestedPayloadComposed(v: Value, depth: nat)
    requires ComposedPayload(v, depth)
    ensures NestedPayload(v, depth).Ok?
    ensures Serializable(NestedPayload(v, depth).value)
    decreases depth, 1, 0
  {
    if !Plain(v) {
      assert v.entries[0].0 == Str("queries");
      var items := v.entries[0].1.items;
      forall k | 0 <= k < |items| ensures Composed((items[k].obj as OphionQuery).query, depth - 1) {
        assert SubQuery(v, k) == items[k].obj as OphionQuery;
      }
      NestedSubQueriesComposed(items, depth);
      var subs := NestedSubQueries(items, depth).value;
      assert NestedPayload(v, depth) == Ok(Dict([(Str("queries"), List(subs))]));
    }
  }

  lemma {:induction false} NestedSubQueriesComposed(items: seq<Value>, depth: nat)
    requires depth > 0
    requires forall k | 0 <= k < |items| :: items[k].Ref? && items[k].obj is OphionQuery
    requires forall k | 0 <= k < |items| :: Composed((items[k].obj as OphionQuery).query, depth - 1)
    ensures NestedSubQueries(items, depth).Ok?
    ensures forall k | 0 <= k < |NestedSubQueries(items, depth).value| ::
      Serializable(NestedSubQueries(items, depth).value[k])
    decreases depth, 0, |items|
  {
    if items != [] {
      var q := items[0].obj as OphionQuery;
      NestedStepsComposed(q.query, depth - 1);
      assert forall k | 1 <= k < |items| :: items[1..][k - 1] == items[k];
      NestedSubQueriesComposed(items[1..], depth);
      var tail := NestedSubQueries(items[1..], depth).value;
      var out := NestedSubQueries(items, depth).value;
      assert out == [List(NestedSteps(q.query, depth - 1).value)] + tail;
      forall k | 0 <= k < |out| ensures Serializable(out[k]) {
        if k > 0 {
          assert out[k] == tail[k - 1];
        }
      }
    }
  }

  /** A query composed from plain data and builders, nested to at most
      `depth` levels, renders recursively to a value `json.dumps` accepts.
      "Plain" includes that `json.dumps` accepts every step key and every
      payload other than a `match` over builders: a step holding an object
      reference anywhere else fails however shallow the nesting. */
  lemma RenderNestedComposed(q: OphionQuery, depth: nat)
    requires Composed(q.query, depth)
    ensures q.RenderNested(depth).Ok?
  {
    NestedStepsComposed(q.query, depth);
  }

  // ---------------------------------------------------------------------
  // Where the two renderings agree

  lemma {:induction false} NestedEntriesPlain(step: Step, depth: nat)
    requires forall j | 0 <= j < |step| :: !Expands(step[j].1)
    ensures NestedEntries(step, depth) == Ok(step)
  {
    if step != [] {
      assert forall j | 1 <= j < |step| :: step[1..][j - 1] == step[j];
      NestedEntriesPlain(step[1..], depth);
      assert step == [step[0]] + step[1..];
    }
  }

  lemma {:induction false} NestedStepsPlain(steps: seq<Step>, depth: nat)
    requires forall i, j | 0 <= i < |steps| && 0 <= j < |steps[i]| :: !Expands(steps[i][j].1)
    ensures NestedSteps(steps, depth) == Ok(StepsValue(steps).items)
  {
    if steps != [] {
      NestedEntriesPlain(steps[0], depth);
      assert forall i | 1 <= i < |steps| :: steps[1..][i - 1] == steps[i];
      NestedStepsPlain(steps[1..], depth);
      assert StepsValue(steps).items == [Dict(steps[0])] + StepsValue(steps[1..]).items;
    } else {
      assert StepsValue(steps).items == [];
    }
  }

  lemma {:induction false} SubQueriesAgree(items: seq<Value>, depth: nat)
    requires depth > 0
    requires forall k | 0 <= k < |items| :: items[k].Ref? && items[k].obj is OphionQuery
    requires forall k | 0 <= k < |items| :: Composed((items[k].obj as OphionQuery).query, 0)
    ensures RawStepLists(items) == NestedSubQueries(items, depth)
  {
    if items != [] {
      var q := items[0].obj as OphionQuery;
      forall i, j | 0 <= i < |q.query| && 0 <= j < |q.query[i]| ensures !Expands(q.query[i][j].1) {
        assert ComposedStep(q.query[i], 0);
      }
      NestedStepsPlain(q.query, depth - 1);
      assert forall k | 1 <= k < |items| :: items[1..][k - 1] == items[k];
      SubQueriesAgree(items[1..], depth);
    }
  }

  lemma PayloadsAgree(v: Value, depth: nat)
    requires depth > 0 && ComposedPayload(v, 1)
    ensures RenderPayload(v) == NestedPayload(v, depth)
  {
    if !Plain(v) {
      assert v.entries[0].0 == Str("queries");
      var items := v.entries[0].1.items;
      forall k | 0 <= k < |items| ensures Composed((items[k].obj as OphionQuery).query, 0) {
        assert SubQuery(v, k) == items[k].obj as OphionQuery;
      }
      SubQueriesAgree(items, depth);
    }
  }

  lemma {:induction false} EntriesAgree(step: Step, depth: nat)
    requires depth > 0 && ComposedStep(step, 1)
    ensures RenderEntries(step) == NestedEntries(step, depth)
  {
    if step != [] {
      PayloadsAgree(step[0].1, depth);
      assert ComposedStep(step[1..], 1) by {
        forall j | 0 <= j < |step[1..]| ensures JsonKey(step[1..][j].0) && ComposedPayload(step[1..][j].1, 1) {
          assert step[1..][j] == step[j + 1];
        }
      }
      EntriesAgree(step[1..], depth);
    }
  }

  lemma {:induction false} StepsAgree(steps: seq<Step>, depth: nat)
    requires depth > 0 && Composed(steps, 1)
    ensures RenderSteps(steps) == NestedSteps(steps, depth)
  {
    if steps != [] {
      EntriesAgree(steps[0], depth);
      assert Composed(steps[1..], 1) by {
        forall i | 0 <= i < |steps[1..]| ensures ComposedStep(steps[1..][i], 1) {
          assert steps[1..][i] == steps[i + 1];
        }
      }
      StepsAgree(steps[1..], depth);
    }
  }

  /** On every query built from data `json.dumps` accepts (every step key,
      and every payload other than a `match` over builders) whose `match`
      sub-queries are built the same way and hold no `match` themselves,
      the rendering as written and the recursive one give the same output,
      and it is output `json.dumps` accepts. */
  lemma RenderAgreesOnOneLevel(q: OphionQuery, depth: nat)
    requires depth > 0 && Composed(q.query, 1)
    ensures q.Render() == q.RenderNested(depth)
    ensures q.Render().Ok?
  {
    StepsAgree(q.query, depth);
    StepsAgree(q.query, 1);
    NestedStepsComposed(q.query, 1);
  }

  // ---------------------------------------------------------------------
  // Where the rendering as written fails

  lemma {:induction false} RawStepListsShape(items: seq<Value>)
    ensures RawStepLists(items).Ok? ==>
      forall k | 0 <= k < |items| :: RawSteps(items[k]) == Ok(RawStepLists(items).value[k])
  {
    if items != [] {
      RawStepListsShape(items[1..]);
      assert forall k | 1 <= k < |items| :: items[1..][k - 1] == items[k];
    }
  }

  /** As written, `render` fails on a query with a `match` one of whose
      sub-queries refers to a builder in its own steps (its own `match`):
      the sub-query's steps are emitted raw, and `json.dumps` refuses the
      builder object left in them. */
  lemma RenderRejectsNestedBuilder(q: OphionQuery, i: nat, j: nat, k: nat, m: nat)
    requires i < |q.query| && j < |q.query[i]|
    requires ComposedMatch(q.query[i][j].1) && k < |q.query[i][j].1.entries[0].1.items|
    requires m < |SubQuery(q.query[i][j].1, k).query|
    requires StepRefs(SubQuery(q.query[i][j].1, k).query[m]) != {}
    ensures q.Render().Err?
  {
    if RenderSteps(q.query).Ok? {
      RenderStepsShape(q.query);
      var out := RenderSteps(q.query).value;
      var v := q.query[i][j].1;
      var items := v.entries[0].1.items;
      var sub := SubQuery(v, k);
      assert v.entries[0].0 == Str("queries");
      var rendered := RenderPayload(v).value;
      var subs := RawStepLists(items).value;
      assert rendered == Dict([(Str("queries"), List(subs))]);
      RawStepListsShape(items);
      assert subs[k] == StepsValue(sub.query);
      RefsOfItem(subs[k].items, m);
      RefsOfItem(subs, k);
      RefsOfEntry(rendered.entries, 0);
      RefsOfEntry(out[i].entries, j);
      RefsOfItem(out, i);
      assert StepRefs(sub.query[m]) <= Refs(List(out));
      if Serializable(List(out)) {
        SerializableHasNoRefs(List(out));
      }
    }
  }

  /** The three-level query `match([match([incoming("x")])])`: rendered as
      written it fails; rendered recursively it succeeds. */
  lemma ThreeLevels(top: OphionQuery, mid: OphionQuery, inner: OphionQuery)
    requires inner.query == [Single("in", Dict([(Str("labels"), List([Str("x")]))]))]
    requires mid.query == [Single("match", Dict([(Str("queries"), List([Ref(inner)]))]))]
    requires top.query == [Single("match", Dict([(Str("queries"), List([Ref(mid)]))]))]
    ensures top.Render().Err?
    ensures top.RenderNested(2).Ok?
  {
    assert SubQuery(top.query[0][0].1, 0) == mid;
    assert StepRefs(mid.query[0]) != {} by {
      RefsOfItem([Ref(inner)], 0);
      RefsOfEntry([(Str("queries"), List([Ref(inner)]))], 0);
      RefsOfEntry(mid.query[0], 0);
    }
    RenderRejectsNestedBuilder(top, 0, 0, 0, 0);
    assert Composed(inner.query, 0) by {
      assert ComposedStep(inner.query[0], 0);
    }
    assert Composed(mid.query, 1) by {
      assert SubQuery(mid.query[0][0].1, 0) == inner;
      assert ComposedStep(mid.query[0], 1);
    }
    assert Composed(top.query, 2) by {
      assert ComposedStep(top.query[0], 2);
    }
    RenderNestedComposed(top, 2);
  }

  /** Builds that query with the builder's own methods. */
  method NestedMatchCounterexample() returns (written: Result<Value>, intended: Result<Value>)
    ensures written.Err?
    ensures intended.Ok?
  {
    var inner := new OphionQuery();
    inner := inner.Incoming([Str("x")]);
    var mid := new OphionQuery();
    mid := mid.Match(List([Ref(inner)]));
    var top := new OphionQuery();
    top := top.Match(List([Ref(mid)]));
    ThreeLevels(top, mid, inner);
    written := top.Render();
    intended := top.RenderNested(2);
  }
}

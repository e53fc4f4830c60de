/**
 * Literal tagging (`wrapValue`) and the condition constructors of the
 * primary client, client/python/ophion.py.
 */
module ClientWrap {
  import opened PyValues

  /** `wrapValue`: tags every literal with its kind, recursing through lists
      and dict values. A bool is tagged like an int (`isinstance(True, int)`).
      Anything else (None, an object) is returned as it is. */
  function Wrap(v: Value): Value
  {
    match v
    case Bool(_) => Dict([(Str("n"), v)])
    case Int(_) => Dict([(Str("n"), v)])
    case Float(_) => Dict([(Str("r"), v)])
    case Str(_) => Dict([(Str("s"), v)])
    case List(items) => List(seq(|items|, i requires 0 <= i < |items| => Wrap(items[i])))
    case Dict(entries) =>
      Dict(seq(|entries|, i requires 0 <= i < |entries| => (entries[i].0, Wrap(entries[i].1))))
    case _ => v
  }

  /** A bare literal: what `Wrap` must never leave untagged. */
  predicate Literal(v: Value)
  {
    v.Bool? || v.Int? || v.Float? || v.Str?
  }

  /** `x` is a literal of the kind whose tag is `k`: "n", "r" or "s". */
  predicate TagFits(k: Value, x: Value)
  {
    (k == Str("n") && (x.Int? || x.Bool?)) || (k == Str("r") && x.Float?) || (k == Str("s") && x.Str?)
  }

  /** A one-entry dict `{tag: literal}` as `Wrap` produces for a literal. */
  predicate IsTagged(v: Value)
  {
    v.Dict? && |v.entries| == 1 && TagFits(v.entries[0].0, v.entries[0].1)
  }

  /** Every literal in the tree sits alone under its own tag. */
  predicate WellTagged(v: Value)
  {
    match v
    case List(items) => forall i | 0 <= i < |items| :: WellTagged(items[i])
    case Dict(entries) =>
      IsTagged(v) || forall i | 0 <= i < |entries| :: WellTagged(entries[i].1)
    case _ => !Literal(v)
  }

  /** The read-back of `Wrap`'s output: strips the tags `Wrap` adds. */
  function Unwrap(v: Value): Value
  {
    match v
    case List(items) => List(seq(|items|, i requires 0 <= i < |items| => Unwrap(items[i])))
    case Dict(entries) =>
      if IsTagged(v) then entries[0].1
      else Dict(seq(|entries|, i requires 0 <= i < |entries| => (entries[i].0, Unwrap(entries[i].1))))
    case _ => v
  }

  /** `Wrap` never returns a bare literal. */
  lemma WrapIsNotLiteral(v: Value)
    ensures !Literal(Wrap(v))
  {
  }

  /** What `Wrap` does to each kind of value: a literal becomes the one-entry
      dict under its tag; a list keeps its length and order and a dict its
      keys and their order, with every element or value wrapped; anything
      else is unchanged. */
  lemma WrapShape(v: Value)
    ensures Literal(v) ==> IsTagged(Wrap(v)) && Wrap(v).entries[0].1 == v
    ensures (v.Int? || v.Bool?) ==> Wrap(v).entries[0].0 == Str("n")
    ensures v.Float? ==> Wrap(v).entries[0].0 == Str("r")
    ensures v.Str? ==> Wrap(v).entries[0].0 == Str("s")
    ensures v.List? ==> (Wrap(v).List? && |Wrap(v).items| == |v.items| &&
                         forall i | 0 <= i < |v.items| :: Wrap(v).items[i] == Wrap(v.items[i]))
    ensures v.Dict? ==> (Wrap(v).Dict? && Keys(Wrap(v).entries) == Keys(v.entries) &&
                         forall i | 0 <= i < |v.entries| :: Wrap(v).entries[i].1 == Wrap(v.entries[i].1))
    ensures v.None? || v.Ref? ==> Wrap(v) == v
  {
  }

  /** No literal reaches the wire untagged. */
  lemma {:induction false} WrapWellTagged(v: Value)
    ensures WellTagged(Wrap(v))
  {
    match v
    case List(items) =>
      forall i | 0 <= i < |items| ensures WellTagged(Wrap(v).items[i]) {
        WrapWellTagged(items[i]);
      }
    case Dict(entries) =>
      forall i | 0 <= i < |entries| ensures WellTagged(Wrap(v).entries[i].1) {
        WrapWellTagged(entries[i].1);
      }
    case _ =>
  }

  /** Tagging loses nothing: stripping the tags gives the value back, also
      for a dict that already looks tagged (`{'n': 5}` is wrapped again to
      `{'n': {'n': 5}}` and unwrapped to `{'n': 5}`). */
  lemma {:induction false} UnwrapWrap(v: Value)
    ensures Unwrap(Wrap(v)) == v
  {
    match v
    case List(items) =>
      var w := Wrap(v).items;
      forall i | 0 <= i < |items| ensures Unwrap(w[i]) == items[i] {
        UnwrapWrap(items[i]);
      }
    case Dict(entries) =>
      var w := Wrap(v).entries;
      if |w| == 1 {
        WrapIsNotLiteral(entries[0].1);
      }
      assert !IsTagged(Wrap(v));
      forall i | 0 <= i < |entries| ensures (w[i].0, Unwrap(w[i].1)) == entries[i] {
        UnwrapWrap(entries[i].1);
      }
    case _ =>
  }

  /** Tagging is injective: distinct values go on the wire distinctly. */
  lemma WrapInjective(a: Value, b: Value)
    requires Wrap(a) == Wrap(b)
    ensures a == b
  {
    UnwrapWrap(a);
    UnwrapWrap(b);
  }

  // The condition constructors (`Ophion.eq` ... `Ophion.without`). They tag
  // nothing themselves: `has` and `satisfies` wrap the whole condition.

  function Eq(v: Value): Value { Dict([(Str("eq"), v)]) }
  function Neq(v: Value): Value { Dict([(Str("neq"), v)]) }
  function Gt(v: Value): Value { Dict([(Str("gt"), v)]) }
  function Gte(v: Value): Value { Dict([(Str("gte"), v)]) }
  function Lt(v: Value): Value { Dict([(Str("lt"), v)]) }
  function Lte(v: Value): Value { Dict([(Str("lte"), v)]) }

  function Bounds(lower: Value, upper: Value): Value
  {
    Dict([(Str("lower"), lower), (Str("upper"), upper)])
  }

  function Between(lower: Value, upper: Value): Value { Dict([(Str("between"), Bounds(lower, upper))]) }
  function Inside(lower: Value, upper: Value): Value { Dict([(Str("inside"), Bounds(lower, upper))]) }
  function Outside(lower: Value, upper: Value): Value { Dict([(Str("outside"), Bounds(lower, upper))]) }

  function Within(values: Value): Value { Dict([(Str("within"), values)]) }
  function Without(values: Value): Value { Dict([(Str("without"), values)]) }

  /** Once wrapped, a comparison carries its operand tagged. */
  lemma WrapComparison(v: Value)
    ensures Wrap(Eq(v)) == Dict([(Str("eq"), Wrap(v))])
    ensures Wrap(Neq(v)) == Dict([(Str("neq"), Wrap(v))])
    ensures Wrap(Gt(v)) == Dict([(Str("gt"), Wrap(v))])
    ensures Wrap(Gte(v)) == Dict([(Str("gte"), Wrap(v))])
    ensures Wrap(Lt(v)) == Dict([(Str("lt"), Wrap(v))])
    ensures Wrap(Lte(v)) == Dict([(Str("lte"), Wrap(v))])
  {
  }

  /** Once wrapped, a range carries both bounds tagged. */
  lemma WrapRange(lower: Value, upper: Value)
    ensures Wrap(Between(lower, upper)) == Dict([(Str("between"), Bounds(Wrap(lower), Wrap(upper)))])
    ensures Wrap(Inside(lower, upper)) == Dict([(Str("inside"), Bounds(Wrap(lower), Wrap(upper)))])
    ensures Wrap(Outside(lower, upper)) == Dict([(Str("outside"), Bounds(Wrap(lower), Wrap(upper)))])
  {
    var b := Bounds(lower, upper);
    assert Wrap(b) == Bounds(Wrap(lower), Wrap(upper));
  }

  /** Once wrapped, a set condition given a list carries every member tagged,
      in order. */
  lemma WrapSetCondition(values: seq<Value>)
    ensures Wrap(Within(List(values))) == Within(List(seq(|values|, i requires 0 <= i < |values| => Wrap(values[i]))))
    ensures Wrap(Without(List(values))) == Without(List(seq(|values|, i requires 0 <= i < |values| => Wrap(values[i]))))
  {
  }
}

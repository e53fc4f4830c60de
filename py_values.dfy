/**
 * The Python data the query builders handle: literals, lists, dicts and
 * references to live objects (the sub-queries of a `match` step), together
 * with the failures a builder call or `json.dumps` can raise.
 */
module PyValues {

  /** A Python value as it reaches a builder or a step payload.
      `Bool` is kept apart from `Int` because Python prints it as `true`/`false`,
      although `isinstance(True, int)` holds. A float is an opaque token: the
      model does no arithmetic on it. A dict is its list of entries in
      insertion order; Python 3.7 and later keep that order, Python 2 does
      not, so for the Python 2 conformance client the order of entries is a
      choice of the model. `Ref` is any other object, held by reference. */
  datatype Value =
    | None
    | Bool(b: bool)
    | Int(i: int)
    | Float(token: string)
    | Str(s: string)
    | List(items: seq<Value>)
    | Dict(entries: seq<(Value, Value)>)
    | Ref(obj: object)

  /** The exceptions the modelled code can raise. */
  datatype Error =
    | TypeError       // wrong kind of argument or operand, or json.dumps refusing a value
    | AttributeError  // an object without the attribute asked for
    | IndexError      // a positional argument that is missing
    | ArgumentError   // the conformance builder's own "Argument Error"
    | RecursionError  // a query nested deeper than the rendering allows

  datatype Result<+T> = Ok(value: T) | Err(error: Error) {
    predicate IsFailure() { Err? }
    function PropagateFailure<U>(): Result<U> requires Err? { Err(error) }
    function Extract(): T requires Ok? { value }
  }

  /** One step of a query: the entries of a Python dict. */
  type Step = seq<(Value, Value)>

  /** The single-key step `{name: payload}` that almost every builder call appends. */
  function Single(name: string, payload: Value): Step
  {
    [(Str(name), payload)]
  }

  /** A step list as the plain Python list of dicts it is. */
  function StepsValue(steps: seq<Step>): Value
  {
    List(seq(|steps|, i requires 0 <= i < |steps| => Dict(steps[i])))
  }

  /** `if not isinstance(x, list): x = [x]` */
  function AsList(x: Value): (r: Value)
    ensures r.List?
    ensures x.List? ==> r == x
    ensures !x.List? ==> r.items == [x]
  {
    if x.List? then x else List([x])
  }

  /** Normalising twice is normalising once. */
  lemma AsListIdempotent(x: Value)
    ensures AsList(AsList(x)) == AsList(x)
  {
  }

  /** A value that may serve as a dict key (lists and dicts are unhashable). */
  predicate Hashable(k: Value)
  {
    !k.List? && !k.Dict?
  }

  function Keys(entries: seq<(Value, Value)>): seq<Value>
  {
    seq(|entries|, i requires 0 <= i < |entries| => entries[i].0)
  }

  /** `k in d` for a dict. */
  predicate HasKey(entries: seq<(Value, Value)>, k: Value)
  {
    exists i | 0 <= i < |entries| :: entries[i].0 == k
  }

  /** `d[k]`: the value stored under `k` (keys of a Python dict are distinct;
      the first entry is taken). */
  function Lookup(entries: seq<(Value, Value)>, k: Value): (v: Value)
    requires HasKey(entries, k)
    ensures exists i | 0 <= i < |entries| :: entries[i] == (k, v)
  {
    if entries[0].0 == k then entries[0].1 else Lookup(entries[1..], k)
  }

  /** Every object a value refers to, at any depth. */
  function Refs(v: Value): set<object>
  {
    match v
    case Ref(o) => {o}
    case List(items) => set i, o | 0 <= i < |items| && o in Refs(items[i]) :: o
    case Dict(entries) =>
      (set i, o | 0 <= i < |entries| && o in Refs(entries[i].0) :: o) +
      (set i, o | 0 <= i < |entries| && o in Refs(entries[i].1) :: o)
    case _ => {}
  }

  /** A list refers to every object its items refer to. */
  lemma RefsOfItem(items: seq<Value>, k: nat)
    requires k < |items|
    ensures Refs(items[k]) <= Refs(List(items))
  {
    forall o | o in Refs(items[k]) ensures o in Refs(List(items)) {
      assert 0 <= k < |items| && o in Refs(items[k]);
    }
  }

  /** A dict refers to every object its keys and values refer to. */
  lemma RefsOfEntry(entries: seq<(Value, Value)>, k: nat)
    requires k < |entries|
    ensures Refs(entries[k].0) <= Refs(Dict(entries))
    ensures Refs(entries[k].1) <= Refs(Dict(entries))
  {
    forall o | o in Refs(entries[k].1) ensures o in Refs(Dict(entries)) {
      assert 0 <= k < |entries| && o in Refs(entries[k].1);
    }
    forall o | o in Refs(entries[k].0) ensures o in Refs(Dict(entries)) {
      assert 0 <= k < |entries| && o in Refs(entries[k].0);
    }
  }

  /** A dict key `json.dumps` accepts. */
  predicate JsonKey(k: Value)
  {
    k.None? || k.Bool? || k.Int? || k.Float? || k.Str?
  }

  /** `json.dumps` succeeds on the value: it holds no object reference and
      every dict key is a string, number, boolean or None. */
  predicate Serializable(v: Value)
  {
    match v
    case Ref(_) => false
    case List(items) => forall i | 0 <= i < |items| :: Serializable(items[i])
    case Dict(entries) =>
      forall i | 0 <= i < |entries| :: JsonKey(entries[i].0) && Serializable(entries[i].1)
    case _ => true
  }

  /** A value json.dumps accepts holds no reference to a live object. */
  lemma {:induction false} SerializableHasNoRefs(v: Value)
    requires Serializable(v)
    ensures Refs(v) == {}
  {
    match v
    case List(items) =>
      forall i | 0 <= i < |items| ensures Refs(items[i]) == {} {
        SerializableHasNoRefs(items[i]);
      }
    case Dict(entries) =>
      forall i | 0 <= i < |entries| ensures Refs(entries[i].0) == {} && Refs(entries[i].1) == {} {
        SerializableHasNoRefs(entries[i].1);
      }
    case _ =>
  }
}

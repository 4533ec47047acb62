/**
  The declarative configuration schema: an ordered mapping from parameter
  name to a parameter spec (type tag, description, options, default), and
  the dynamically typed values that flow through the UI session.
 */
module Schema {
  import opened Wrappers

  /** The `type` entry of a parameter spec, as a closed set of tags.
      `TOther` stands for any Python type the UI has no widget for. */
  datatype ParamType = TStr | TFloat | TInt | TBool | TList | TOther

  /** A raw value as held in the UI session: a Python `str`, `int`,
      `float`, `bool` or `None`. */
  datatype RawValue = VStr(s: string) | VInt(i: int) | VReal(x: real) | VBool(b: bool) | VNone

  datatype ParamSpec = ParamSpec(tag: ParamType, description: string, options: Option<seq<RawValue>>, default: RawValue)

  /** A schema is ordered: the Python dict's insertion order. */
  type Schema = seq<(string, ParamSpec)>

  /** A resolved configuration, in insertion order. */
  type Config = seq<(string, RawValue)>

  predicate IsNumeric(t: ParamType) {
    t == TFloat || t == TInt
  }

  function Names<V>(entries: seq<(string, V)>): (ns: seq<string>)
    ensures |ns| == |entries|
    ensures forall k :: 0 <= k < |entries| ==> ns[k] == entries[k].0
  {
    seq(|entries|, k requires 0 <= k < |entries| => entries[k].0)
  }

  /** Dict keys are unique. */
  predicate DistinctNames<V>(entries: seq<(string, V)>) {
    forall j, k :: 0 <= j < k < |entries| ==> entries[j].0 != entries[k].0
  }

  /** Python dict lookup over an ordered association list. */
  function Lookup<V>(entries: seq<(string, V)>, name: string): (r: Option<V>)
    ensures r.None? <==> name !in Names(entries)
  {
    if |entries| == 0 then None
    else if entries[0].0 == name then Some(entries[0].1)
    else
      assert Names(entries) == [entries[0].0] + Names(entries[1..]);
      Lookup(entries[1..], name)
  }

  /** Python's `==` between two raw values: numbers (including booleans)
      compare by numeric value across types, everything else structurally. */
  predicate PyEq(a: RawValue, b: RawValue) {
    match (a, b)
    case (VStr(x), VStr(y)) => x == y
    case (VNone, VNone) => true
    case _ => NumericValue(a).Some? && NumericValue(b).Some? && NumericValue(a) == NumericValue(b)
  }

  function NumericValue(v: RawValue): (n: Option<real>) {
    match v
    case VInt(i) => Some(i as real)
    case VReal(x) => Some(x)
    case VBool(b) => Some(if b then 1.0 else 0.0)
    case _ => None
  }

  /** `a` is a subsequence of `b`: `b` with some elements removed. */
  predicate IsSubsequence<T(==)>(a: seq<T>, b: seq<T>)
    decreases |b|
  {
    |a| == 0 || (|b| > 0 && if a[0] == b[0] then IsSubsequence(a[1..], b[1..]) else IsSubsequence(a, b[1..]))
  }
}

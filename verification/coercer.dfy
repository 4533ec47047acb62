/**
  Reading a model's configuration back from the UI session
  (`_get_key` and `_get_config_from_session_state` in webui.py).

  Each schema parameter is looked up under `model + "-" + name`; a missing
  entry is skipped, a present one is normalised by its type tag, and any
  conversion error aborts the whole read.
 */
module Coercer {
  import opened Wrappers
  import opened Schema

  /** Python's `float(str)` and `int(str)`, left abstract: each either
      yields a number or raises. */
  datatype Parsers = Parsers(parseFloat: string -> Option<real>, parseInt: string -> Option<int>)

  /** The session key of parameter `config` of model `model`. */
  function GetKey(model: string, config: string): (k: string)
    ensures |k| == |model| + 1 + |config|
    ensures k[..|model|] == model && k[|model|] == '-' && k[|model| + 1..] == config
  {
    model + "-" + config
  }

  /** Recovers the parameter name from a key built for `model`. */
  function ConfigNameOfKey(model: string, key: string): (config: string)
    requires |key| > |model|
  {
    key[|model| + 1..]
  }

  lemma KeyNameRoundTrip(model: string, config: string)
    ensures ConfigNameOfKey(model, GetKey(model, config)) == config
  {
  }

  /** Under one model, distinct parameter names get distinct keys. */
  lemma KeyInjective(model: string, c1: string, c2: string)
    ensures GetKey(model, c1) == GetKey(model, c2) <==> c1 == c2
  {
  }

  /** Across models the keys are not unique: the separator may occur in
      both the model name and the parameter name. */
  lemma KeysCollideAcrossModels()
    ensures GetKey("a-b", "c") == GetKey("a", "b-c")
  {
  }

  /** The strings the UI uses for "no value". */
  predicate IsNullText(v: RawValue) {
    v == VStr("None") || v == VStr("")
  }

  /** Python's `int(x)` for a finite float: truncation toward zero. */
  function Truncate(x: real): (r: int)
    ensures 0.0 <= x ==> r as real <= x < r as real + 1.0
    ensures x < 0.0 ==> r as real - 1.0 < x <= r as real
  {
    if 0.0 <= x then x.Floor else -((-x).Floor)
  }

  /** `float(value)`; `None` means it raised. */
  function ToFloat(v: RawValue, p: Parsers): (r: Option<RawValue>)
    ensures v.VNone? ==> r.None?
    ensures v.VStr? ==> (r.Some? <==> p.parseFloat(v.s).Some?)
    ensures v.VStr? && r.Some? ==> r.value == VReal(p.parseFloat(v.s).value)
    ensures NumericValue(v).Some? ==> r == Some(VReal(NumericValue(v).value))
  {
    match v
    case VStr(s) => (match p.parseFloat(s) case Some(x) => Some(VReal(x)) case None => None)
    case VInt(i) => Some(VReal(i as real))
    case VReal(x) => Some(VReal(x))
    case VBool(b) => Some(VReal(if b then 1.0 else 0.0))
    case VNone => None
  }

  /** `int(value)`; `None` means it raised. */
  function ToInt(v: RawValue, p: Parsers): (r: Option<RawValue>)
    ensures v.VNone? ==> r.None?
    ensures v.VStr? ==> (r.Some? <==> p.parseInt(v.s).Some?)
    ensures v.VStr? && r.Some? ==> r.value == VInt(p.parseInt(v.s).value)
    ensures v.VInt? || v.VBool? ==> r.Some? && r.value.VInt? && r.value.i as real == NumericValue(v).value
    ensures v.VReal? ==> r == Some(VInt(Truncate(v.x)))
  {
    match v
    case VStr(s) => (match p.parseInt(s) case Some(n) => Some(VInt(n)) case None => None)
    case VInt(i) => Some(VInt(i))
    case VReal(x) => Some(VInt(Truncate(x)))
    case VBool(b) => Some(VInt(if b then 1 else 0))
    case VNone => None
  }

  /** A string the parser for `tag` rejects, or a null that skipped the
      null-text test: the cases in which conversion raises. */
  predicate Unconvertible(tag: ParamType, v: RawValue, p: Parsers) {
    v.VNone? || (v.VStr? && (if tag == TFloat then p.parseFloat(v.s).None? else p.parseInt(v.s).None?))
  }

  /** Normalises one session value by its parameter's type tag; `None`
      means the conversion raised. */
  function CoerceValue(tag: ParamType, v: RawValue, p: Parsers): (r: Option<RawValue>)
    ensures !IsNumeric(tag) ==> r.Some?
    ensures tag == TBool || tag == TList || tag == TOther ==> r == Some(v)
    ensures tag == TStr ==> (r == Some(VNone) <==> IsNullText(v) || v == VNone)
    ensures tag == TStr && !IsNullText(v) ==> r == Some(v)
    ensures IsNumeric(tag) ==> (r == Some(VNone) <==> IsNullText(v))
    ensures IsNumeric(tag) ==> (r.None? <==> !IsNullText(v) && Unconvertible(tag, v, p))
    ensures tag == TFloat && r.Some? ==> r.value.VNone? || r.value.VReal?
    ensures tag == TInt && r.Some? ==> r.value.VNone? || r.value.VInt?
    ensures tag == TFloat && v.VStr? && !IsNullText(v) && p.parseFloat(v.s).Some? ==> r == Some(VReal(p.parseFloat(v.s).value))
    ensures tag == TFloat && NumericValue(v).Some? ==> r == Some(VReal(NumericValue(v).value))
    ensures tag == TInt && v.VStr? && !IsNullText(v) && p.parseInt(v.s).Some? ==> r == Some(VInt(p.parseInt(v.s).value))
    ensures tag == TInt && (v.VInt? || v.VBool?) ==> r.Some? && r.value.VInt? && r.value.i as real == NumericValue(v).value
    ensures tag == TInt && v.VReal? ==> r == Some(VInt(Truncate(v.x)))
  {
    match tag
    case TStr => if IsNullText(v) then Some(VNone) else Some(v)
    case TFloat => if IsNullText(v) then Some(VNone) else ToFloat(v, p)
    case TInt => if IsNullText(v) then Some(VNone) else ToInt(v, p)
    case _ => Some(v)
  }

  /** Coercing an already coerced value changes nothing, except a numeric
      null: `float(None)` and `int(None)` raise. */
  lemma CoerceValueIdempotent(tag: ParamType, v: RawValue, p: Parsers)
    requires CoerceValue(tag, v, p).Some?
    ensures var w := CoerceValue(tag, v, p).value;
      CoerceValue(tag, w, p) == (if IsNumeric(tag) && w == VNone then None else Some(w))
  {
  }

  /** The parameter that made the read abort, and its raw value. */
  datatype ParseFailure = ParseFailure(name: string, raw: RawValue)

  /** The schema entry `param` is present in the session but cannot be
      converted. */
  predicate FailsOn(model: string, param: (string, ParamSpec), state: map<string, RawValue>, p: Parsers) {
    var key := GetKey(model, param.0);
    key in state && CoerceValue(param.1.tag, state[key], p).None?
  }

  /** The loop of `_get_config_from_session_state`, in schema order. */
  function ReadConfig(model: string, schema: Schema, state: map<string, RawValue>, p: Parsers): (r: Result<Config, ParseFailure>)
    decreases |schema|
  {
    if |schema| == 0 then Success([])
    else
      var name := schema[0].0;
      var key := GetKey(model, name);
      if key !in state then ReadConfig(model, schema[1..], state, p)
      else
        match CoerceValue(schema[0].1.tag, state[key], p)
        case None => Failure(ParseFailure(name, state[key]))
        case Some(v) =>
          match ReadConfig(model, schema[1..], state, p)
          case Failure(e) => Failure(e)
          case Success(rest) => Success([(name, v)] + rest)
  }

  /** `_get_config_from_session_state`: the resolved config, or `None`
      (after the error notification) when a conversion raised. */
  function GetConfigFromSessionState(model: string, schema: Schema, state: map<string, RawValue>, p: Parsers): (r: Option<Config>)
    ensures r.None? <==> exists i :: 0 <= i < |schema| && FailsOn(model, schema[i], state, p)
  {
    ReadFailsIff(model, schema, state, p);
    match ReadConfig(model, schema, state, p)
    case Success(c) => Some(c)
    case Failure(_) => None
  }

  /** The read aborts exactly when some parameter present in the session
      fails to convert. */
  lemma {:induction false} ReadFailsIff(model: string, schema: Schema, state: map<string, RawValue>, p: Parsers)
    ensures ReadConfig(model, schema, state, p).Failure? <==> exists i :: 0 <= i < |schema| && FailsOn(model, schema[i], state, p)
    decreases |schema|
  {
    if |schema| > 0 {
      ReadFailsIff(model, schema[1..], state, p);
      if exists i :: 0 <= i < |schema[1..]| && FailsOn(model, schema[1..][i], state, p) {
        var i :| 0 <= i < |schema[1..]| && FailsOn(model, schema[1..][i], state, p);
        assert FailsOn(model, schema[i + 1], state, p);
      }
      if exists i :: 0 <= i < |schema| && FailsOn(model, schema[i], state, p) {
        var i :| 0 <= i < |schema| && FailsOn(model, schema[i], state, p);
        if i > 0 {
          assert FailsOn(model, schema[1..][i - 1], state, p);
        }
      }
    }
  }

  /** The reported failure is the first failing parameter in schema order. */
  lemma {:induction false} ReadFailureIsFirst(model: string, schema: Schema, state: map<string, RawValue>, p: Parsers)
    requires ReadConfig(model, schema, state, p).Failure?
    ensures exists i :: (0 <= i < |schema| && FailsOn(model, schema[i], state, p)
      && ReadConfig(model, schema, state, p).error == ParseFailure(schema[i].0, state[GetKey(model, schema[i].0)])
      && forall j :: 0 <= j < i ==> !FailsOn(model, schema[j], state, p))
    decreases |schema|
  {
    var key := GetKey(model, schema[0].0);
    if key in state && CoerceValue(schema[0].1.tag, state[key], p).None? {
      assert FailsOn(model, schema[0], state, p);
    } else {
      ReadFailureIsFirst(model, schema[1..], state, p);
      var i :| 0 <= i < |schema[1..]| && FailsOn(model, schema[1..][i], state, p)
        && ReadConfig(model, schema[1..], state, p).error == ParseFailure(schema[1..][i].0, state[GetKey(model, schema[1..][i].0)])
        && forall j :: 0 <= j < i ==> !FailsOn(model, schema[1..][j], state, p);
      assert FailsOn(model, schema[i + 1], state, p);
      forall j | 0 <= j < i + 1
        ensures !FailsOn(model, schema[j], state, p)
      {
        if j > 0 {
          assert schema[j] == schema[1..][j - 1];
        }
      }
    }
  }

  /** The resolved names are schema names, in schema order. */
  lemma {:induction false} ReadKeepsSchemaOrder(model: string, schema: Schema, state: map<string, RawValue>, p: Parsers)
    requires ReadConfig(model, schema, state, p).Success?
    ensures IsSubsequence(Names(ReadConfig(model, schema, state, p).value), Names(schema))
    decreases |schema|
  {
    if |schema| > 0 {
      var cfg := ReadConfig(model, schema, state, p).value;
      var rest := ReadConfig(model, schema[1..], state, p);
      ReadKeepsSchemaOrder(model, schema[1..], state, p);
      assert Names(schema)[1..] == Names(schema[1..]);
      if GetKey(model, schema[0].0) in state {
        assert Names(cfg)[1..] == Names(rest.value);
      } else {
        SubsequenceSkip(Names(cfg), Names(schema));
      }
    }
  }

  lemma {:induction false} SubsequenceSkip<T>(a: seq<T>, b: seq<T>)
    requires |b| > 0 && IsSubsequence(a, b[1..])
    ensures IsSubsequence(a, b)
    decreases |a| + |b|
  {
    if |a| > 0 && a[0] == b[0] {
      SubsequenceTail(a, b[1..]);
    }
  }

  lemma {:induction false} SubsequenceTail<T>(a: seq<T>, b: seq<T>)
    requires |a| > 0 && IsSubsequence(a, b)
    ensures IsSubsequence(a[1..], b)
    decreases |a| + |b|
  {
    if a[0] != b[0] {
      SubsequenceTail(a, b[1..]);
      SubsequenceSkip(a[1..], b);
    } else if |a| > 1 {
      SubsequenceTail(a[1..], b[1..]);
      SubsequenceSkip(a[1..], b);
    }
  }

  lemma {:induction false} SubsequenceMembers<T>(a: seq<T>, b: seq<T>, x: T)
    requires IsSubsequence(a, b) && x in a
    ensures x in b
    decreases |b|
  {
    if a[0] == b[0] {
      if x != a[0] {
        SubsequenceMembers(a[1..], b[1..], x);
      }
    } else {
      SubsequenceMembers(a, b[1..], x);
    }
  }

  /** The contents of a successful read: a schema parameter is in the
      config exactly when its key is in the session, with its coerced
      value; a missing parameter is omitted, not filled from `default`. */
  lemma {:induction false} ReadContents(model: string, schema: Schema, state: map<string, RawValue>, p: Parsers)
    requires DistinctNames(schema)
    requires ReadConfig(model, schema, state, p).Success?
    ensures var cfg := ReadConfig(model, schema, state, p).value;
      forall i :: 0 <= i < |schema| ==>
        Lookup(cfg, schema[i].0) ==
          (var key := GetKey(model, schema[i].0);
           if key in state then CoerceValue(schema[i].1.tag, state[key], p) else None)
    decreases |schema|
  {
    if |schema| > 0 {
      var cfg := ReadConfig(model, schema, state, p).value;
      var rest := ReadConfig(model, schema[1..], state, p).value;
      ReadContents(model, schema[1..], state, p);
      ReadKeepsSchemaOrder(model, schema[1..], state, p);
      var n0 := schema[0].0;
      assert n0 !in Names(schema[1..]);
      if n0 in Names(rest) {
        SubsequenceMembers(Names(rest), Names(schema[1..]), n0);
      }
      forall i | 0 <= i < |schema|
        ensures Lookup(cfg, schema[i].0) ==
          (var key := GetKey(model, schema[i].0);
           if key in state then CoerceValue(schema[i].1.tag, state[key], p) else None)
      {
        if i > 0 {
          assert schema[i] == schema[1..][i - 1];
          assert schema[i].0 != n0;
        }
      }
    }
  }

  /** A session holding none of the schema's keys, whatever else it holds,
      resolves to an empty config, whatever the defaults. */
  lemma {:induction false} NoSchemaKeysGivesEmptyConfig(model: string, schema: Schema, state: map<string, RawValue>, p: Parsers)
    requires forall k :: 0 <= k < |schema| ==> GetKey(model, schema[k].0) !in state
    ensures ReadConfig(model, schema, state, p) == Success([])
    decreases |schema|
  {
    if |schema| > 0 {
      assert forall k :: 0 <= k < |schema[1..]| ==> schema[1..][k] == schema[k + 1];
      NoSchemaKeysGivesEmptyConfig(model, schema[1..], state, p);
    }
  }
}

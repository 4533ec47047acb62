/**
  Widget selection for configuration parameters (`_config_ui` and
  `_generate_config_ui` in webui.py), abstracted to the kind of widget and
  the value it is initialised with.
 */
module ConfigUi {
  import opened Wrappers
  import opened Schema
  import Coercer

  datatype Widget =
    | TextInput(value: RawValue)
    | SelectBox(choices: seq<RawValue>, index: nat)
    | NumberInput(value: RawValue)
    | Checkbox(value: RawValue)
    | NoWidget

  /** `options.index(default)` succeeds: a `list` parameter needs an
      options list holding an element equal to its default. */
  predicate Renderable(spec: ParamSpec) {
    spec.tag == TList ==> spec.options.Some? && exists o :: o in spec.options.value && PyEq(o, spec.default)
  }

  /** Python's `list.index`: the first position holding an equal element. */
  function IndexOf(xs: seq<RawValue>, x: RawValue): (i: nat)
    requires exists o :: o in xs && PyEq(o, x)
    ensures i < |xs| && PyEq(xs[i], x)
    ensures forall j :: 0 <= j < i ==> !PyEq(xs[j], x)
  {
    if PyEq(xs[0], x) then 0
    else
      var o :| o in xs && PyEq(o, x);
      assert o in xs[1..];
      1 + IndexOf(xs[1..], x)
  }

  /** The value a rendered widget starts with. */
  function Shown(w: Widget): (v: RawValue)
    requires !w.NoWidget?
    requires w.SelectBox? ==> w.index < |w.choices|
  {
    match w
    case TextInput(v) => v
    case SelectBox(cs, i) => cs[i]
    case NumberInput(v) => v
    case Checkbox(v) => v
  }

  /** `_config_ui`: the widget for one parameter. */
  function ConfigUi(spec: ParamSpec): (w: Widget)
    requires Renderable(spec)
    ensures w.SelectBox? <==> spec.tag == TList
    ensures w.Checkbox? <==> spec.tag == TBool
    ensures w.NumberInput? <==> IsNumeric(spec.tag) && spec.default != VNone
    ensures w.TextInput? <==> spec.tag == TStr || (IsNumeric(spec.tag) && spec.default == VNone)
    ensures w.NoWidget? <==> spec.tag == TOther
    ensures w.SelectBox? ==> (w.choices == spec.options.value && w.index < |w.choices|
      && PyEq(Shown(w), spec.default) && forall j :: 0 <= j < w.index ==> !PyEq(w.choices[j], spec.default))
    ensures !w.NoWidget? && !w.SelectBox? ==> Shown(w) == spec.default
  {
    match spec.tag
    case TStr => TextInput(spec.default)
    case TList => SelectBox(spec.options.value, IndexOf(spec.options.value, spec.default))
    case TFloat => if spec.default == VNone then TextInput(spec.default) else NumberInput(spec.default)
    case TInt => if spec.default == VNone then TextInput(spec.default) else NumberInput(spec.default)
    case TBool => Checkbox(spec.default)
    case TOther => NoWidget
  }

  predicate SchemaRenderable(schema: Schema) {
    forall k :: 0 <= k < |schema| ==> Renderable(schema[k].1)
  }

  /** `_generate_config_ui`: one keyed widget per parameter, in schema order;
      the widgets of one model carry pairwise distinct keys. */
  function GenerateConfigUi(model: string, schema: Schema): (ws: seq<(string, Widget)>)
    requires SchemaRenderable(schema)
    ensures |ws| == |schema|
    ensures forall k :: 0 <= k < |schema| ==> ws[k] == (Coercer.GetKey(model, schema[k].0), ConfigUi(schema[k].1))
    ensures DistinctNames(schema) ==> DistinctNames(ws)
  {
    seq(|schema|, k requires 0 <= k < |schema| => (Coercer.GetKey(model, schema[k].0), ConfigUi(schema[k].1)))
  }

  /** Python compares `1 == 1.0 == True`, so a select box may open on an
      option of another type than its default. */
  lemma SelectBoxMatchesAcrossTypes()
    ensures var spec := ParamSpec(TList, "", Some([VStr("a"), VReal(1.0)]), VBool(true));
      Renderable(spec) && ConfigUi(spec) == SelectBox([VStr("a"), VReal(1.0)], 1)
  {
    var spec := ParamSpec(TList, "", Some([VStr("a"), VReal(1.0)]), VBool(true));
    assert VReal(1.0) in spec.options.value && PyEq(VReal(1.0), VBool(true));
  }
}

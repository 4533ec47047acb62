/**
  The static tables of configs.py: the model registry in declaration
  order, the schemas of the basic tools and the advanced tools.
 */
module Configs {
  import opened Wrappers
  import opened Schema
  import ConfigUi

  /** A registry entry; the implementation class, its prose description
      and its `config_schema` belong to model classes outside this model. */
  datatype ModelEntry = ModelEntry(id: string, url: string)

  const AvailableModels: seq<ModelEntry> := [
    ModelEntry("openai/whisper", "https://github.com/openai/whisper"),
    ModelEntry("linto-ai/whisper-timestamped", "https://github.com/linto-ai/whisper-timestamped"),
    ModelEntry("ggerganov/whisper.cpp", "https://github.com/ggerganov/whisper.cpp\nhttps://github.com/abdeladim-s/pywhispercpp"),
    ModelEntry("guillaumekln/faster-whisper", "https://github.com/guillaumekln/faster-whisper"),
    ModelEntry("m-bain/whisperX", "https://github.com/m-bain/whisperX"),
    ModelEntry("jianfch/stable-ts", "https://github.com/jianfch/stable-ts"),
    ModelEntry("API/openai/whisper", "https://platform.openai.com/docs/guides/speech-to-text"),
    ModelEntry("HuggingFace", "https://huggingface.co/tasks/automatic-speech-recognition")
  ]

  function ModelIds(): (ids: seq<string>)
    ensures |ids| == |AvailableModels|
    ensures forall k :: 0 <= k < |ids| ==> ids[k] == AvailableModels[k].id
  {
    seq(|AvailableModels|, k requires 0 <= k < |AvailableModels| => AvailableModels[k].id)
  }

  /** The speech-to-text model the web UI transcribes with. */
  const SttModelName: string := "openai/whisper"

  /** A time component: a float parameter without options, default `0`
      (a Python `int`). */
  function TimeParam(description: string): (spec: ParamSpec) {
    ParamSpec(TFloat, description, None, VInt(0))
  }

  const SetTimeSchema: Schema := [
    ("h", TimeParam("hours: Integer or float values, may be positive or negative")),
    ("m", TimeParam("minutes: Integer or float values, may be positive or negative")),
    ("s", TimeParam("seconds: Integer or float values, may be positive or negative")),
    ("ms", TimeParam("milliseconds: Integer or float values, may be positive or negative"))
  ]

  const ShiftSchema: Schema := SetTimeSchema + [
    ("frames", ParamSpec(TInt, "When specified, must be an integer number of frames", None, VNone)),
    ("fps", ParamSpec(TFloat, "When specified, must be a positive number.", None, VNone))
  ]

  datatype Tool = Tool(description: string, schema: Schema)

  const BasicToolsConfigs: seq<(string, Tool)> := [
    ("set time", Tool("Set time to a subtitle", SetTimeSchema)),
    ("shift", Tool("Shift all subtitles by constant time amount", ShiftSchema))
  ]

  datatype AdvancedTool = AdvancedTool(languages: seq<string>)

  const AdvancedToolsConfigs: seq<(string, AdvancedTool)> := [
    ("google-translate", AdvancedTool([]))
  ]

  /** The registry lists exactly eight distinct identifiers, in
      declaration order. */
  lemma RegistryOrder()
    ensures ModelIds() == ["openai/whisper", "linto-ai/whisper-timestamped", "ggerganov/whisper.cpp",
                           "guillaumekln/faster-whisper", "m-bain/whisperX", "jianfch/stable-ts",
                           "API/openai/whisper", "HuggingFace"]
    ensures |ModelIds()| == 8
    ensures forall j, k :: 0 <= j < k < |ModelIds()| ==> ModelIds()[j] != ModelIds()[k]
  {
  }

  /** The model hard-coded in the UI is registered. */
  lemma SttModelRegistered()
    ensures SttModelName in ModelIds()
  {
    assert ModelIds()[0] == SttModelName;
  }

  /** `set time` takes `h`, `m`, `s`, `ms`: floats, no options, default 0. */
  lemma SetTimeSchemaShape()
    ensures Names(SetTimeSchema) == ["h", "m", "s", "ms"]
    ensures forall k :: 0 <= k < |SetTimeSchema| ==>
      SetTimeSchema[k].1.tag == TFloat && SetTimeSchema[k].1.options == None && SetTimeSchema[k].1.default == VInt(0)
  {
  }

  /** `shift` takes the four time components, then integer `frames` and
      float `fps`, both defaulting to `None`. */
  lemma ShiftSchemaShape()
    ensures Names(ShiftSchema) == ["h", "m", "s", "ms", "frames", "fps"]
    ensures ShiftSchema[..4] == SetTimeSchema
    ensures ShiftSchema[4].1.tag == TInt && ShiftSchema[4].1.default == VNone
    ensures ShiftSchema[5].1.tag == TFloat && ShiftSchema[5].1.default == VNone
  {
  }

  /** Every basic-tool parameter is numeric without options, and the
      names of each schema are distinct. */
  lemma BasicToolsNumeric()
    ensures Names(BasicToolsConfigs) == ["set time", "shift"]
    ensures forall t :: 0 <= t < |BasicToolsConfigs| ==>
      var schema := BasicToolsConfigs[t].1.schema;
      DistinctNames(schema) &&
      forall k :: 0 <= k < |schema| ==> IsNumeric(schema[k].1.tag) && schema[k].1.options == None
  {
  }

  /** Under dispatch the time components get number inputs and the
      null-defaulted `frames` and `fps` get text inputs. */
  lemma ShiftWidgets(model: string)
    ensures ConfigUi.SchemaRenderable(ShiftSchema)
    ensures forall k :: 0 <= k < |ShiftSchema| ==>
      ConfigUi.GenerateConfigUi(model, ShiftSchema)[k].1 ==
        (if k < 4 then ConfigUi.NumberInput(VInt(0)) else ConfigUi.TextInput(VNone))
  {
  }

  /** There is one advanced tool, `google-translate`, with no languages. */
  lemma AdvancedToolsShape()
    ensures Names(AdvancedToolsConfigs) == ["google-translate"]
    ensures AdvancedToolsConfigs[0].1.languages == []
  {
  }
}

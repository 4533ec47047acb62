# Subs AI web UI: configuration coercion, widget dispatch and subtitle session

A functional Dafny model of the pure logic in the Subs AI web UI (`src/subsai/webui.py`)
and the static tables it draws on (`src/subsai/configs.py`):

- **Config-schema coercer** (module `Coercer`). Each schema parameter is looked up in the
  UI session under `model + "-" + name`. A parameter with no session entry is skipped, and
  a present one is normalised by its type tag: `str`, `float` and `int` map `"None"` and
  `""` to null, and `float`/`int` otherwise convert. Any failed conversion aborts the whole
  read. Type tags are the closed datatype `Schema.ParamType`, and session values are the
  tagged union `Schema.RawValue` (`VStr | VInt | VReal | VBool | VNone`). Python's
  `float(str)` and `int(str)` are abstract partial functions (`Coercer.Parsers`).
- **Widget dispatch** (module `ConfigUi`). A total map from a parameter spec to a widget
  kind and its initial value. A `list` parameter needs an option equal to its default,
  because `options.index(default)` raises otherwise. Equality is Python's `==`, under
  which `1 == 1.0 == True`.
- **Subtitle session** (modules `Subtitles`, `SessionState`, `SessionObjects`). The
  session holds `transcribed_subs` and `original_subs`, which change through the
  Transcribe, Translate, "Reload Original subtitles" and grid text-edit actions. The
  translator and the transcriber are function parameters.
  - `SessionState` treats documents as values: it is the corrected behaviour, and the
    rest of the model uses it.
  - `SessionObjects` tracks Python object identity, as the code is written (see Findings).
- **Static tables** (module `Configs`): the registry identifiers in declaration order, and
  the `set time`, `shift` and `google-translate` tool configurations.

Facts about the code that the model keeps:

- A parameter missing from the session is omitted; it is not filled from its `default`.
- A `list` value is not checked against `options`.
- The conversion error carries no parameter name: `ParseFailure` records the first
  failing parameter only to pin down the schema order.
- The Transcribe button runs the transcription even when the config read failed. It then
  passes config `None`.
- `webui()` never calls `_generate_config_ui`, so no widget writes an
  `openai/whisper-<name>` key into the session. The only way such a key appears is a
  YouTube URL that happens to equal it, because the URL itself is stored as a session key
  (`src/subsai/webui.py:293`). In practice the Transcribe read therefore yields an empty
  config (`Coercer.NoSchemaKeysGivesEmptyConfig`), whatever other keys
  (`file_path`, `transcribed_subs`, ...) the session holds.
- Re-coercing a resolved config is not the identity for a numeric null, because
  `float(None)` and `int(None)` raise (`Coercer.CoerceValueIdempotent`).

## Model

| member | source | states |
|---|---|---|
| Coercer.GetKey | src/subsai/webui.py:41-49 | the key is the model name, then `-`, then the parameter name |
| Coercer.KeyNameRoundTrip | src/subsai/webui.py:41-49 | the parameter name can be read back from a key built for a known model |
| Coercer.KeyInjective | src/subsai/webui.py:41-49 | under one model, two keys are equal exactly when the parameter names are equal |
| Coercer.KeysCollideAcrossModels | src/subsai/webui.py:41-49 | keys are unique only per model: `a-b`/`c` and `a`/`b-c` give the same key |
| Coercer.Truncate | src/subsai/webui.py:118 | `int()` of a float truncates toward zero |
| Coercer.ToFloat | src/subsai/webui.py:113 | `float(value)`: raises on `None` and on a string the parser rejects; a parsed string gives its number; an int, float or bool keeps its numeric value (`True` is 1.0) |
| Coercer.ToInt | src/subsai/webui.py:118 | `int(value)`: raises on `None` and on a string the parser rejects; a parsed string gives its integer; an int is kept and a bool gives 1 or 0; a float is truncated toward zero |
| Coercer.CoerceValue | src/subsai/webui.py:105-119 | `str`: `"None"`/`""` become null, anything else is kept; `float`/`int`: `"None"`/`""` become null, and conversion fails exactly on a null or an unparsable string; otherwise a string becomes its parsed number, `float` keeps the numeric value of an int, float or bool, and `int` keeps an int, maps a bool to 1/0 and truncates a float toward zero; `bool`, `list` and other tags pass the value through |
| Coercer.CoerceValueIdempotent | src/subsai/webui.py:106-118 | coercing a coerced value again changes nothing, except that a numeric null then raises |
| Coercer.GetConfigFromSessionState | src/subsai/webui.py:91-126 | the result is `None` exactly when some parameter present in the session fails to convert |
| Coercer.ReadFailsIff | src/subsai/webui.py:101-126 | the read aborts exactly when some present parameter fails, so no partial config is returned |
| Coercer.ReadFailureIsFirst | src/subsai/webui.py:102-125 | the abort happens at the first failing parameter in schema order |
| Coercer.ReadKeepsSchemaOrder | src/subsai/webui.py:101-120 | the resolved names form a subsequence of the schema names, in schema order |
| Coercer.ReadContents | src/subsai/webui.py:102-122 | a parameter is in the config exactly when its key is in the session, with its coerced value; a missing one is not filled from `default` |
| Coercer.NoSchemaKeysGivesEmptyConfig | src/subsai/webui.py:102-122 | a session holding none of the schema's keys, whatever else it holds, gives an empty config, whatever the defaults |
| ConfigUi.IndexOf | src/subsai/webui.py:65 | `options.index(default)` is the first position holding an element equal to the default |
| ConfigUi.ConfigUi | src/subsai/webui.py:62-75 | `list` gives a select box opened on the default; a numeric tag gives a text input with a null default and a number input otherwise; `str` gives a text input; `bool` gives a checkbox; any other tag gives no widget; every widget except the select box starts at the default, and the select box opens on the first option Python-equal to the default (for example `1.0` for `True`) |
| ConfigUi.GenerateConfigUi | src/subsai/webui.py:78-88 | one widget per parameter, in schema order, keyed by the parameter's session key; for a schema with distinct names the keys are pairwise distinct, the uniqueness `_get_key` promises per model |
| ConfigUi.SelectBoxMatchesAcrossTypes | src/subsai/webui.py:64-66 | a default `True` selects the option `1.0`, by Python equality |
| Configs.RegistryOrder | src/subsai/configs.py:21-80 | the registry holds exactly eight distinct identifiers, from `openai/whisper` to `HuggingFace`, in declaration order |
| Configs.SttModelRegistered | src/subsai/configs.py:22 | the UI's transcription model `openai/whisper` is a registry key |
| Configs.SetTimeSchemaShape | src/subsai/configs.py:83-110 | `set time` is `h, m, s, ms`, each `float` with no options and default 0 |
| Configs.ShiftSchemaShape | src/subsai/configs.py:112-151 | `shift` is the four time components, then `frames` (`int`, default None), then `fps` (`float`, default None) |
| Configs.BasicToolsNumeric | src/subsai/configs.py:82-154 | the basic tools are `set time` and `shift`; each parameter is numeric with no options, and names are distinct |
| Configs.ShiftWidgets | src/subsai/configs.py:112-151 | under dispatch, `h/m/s/ms` get number inputs at 0, and `frames`/`fps` get text inputs at null |
| Configs.AdvancedToolsShape | src/subsai/configs.py:156-160 | the only advanced tool is `google-translate`, with an empty `languages` tuple |
| Subtitles.PyIndex | src/subsai/webui.py:389 | Python indexing: valid exactly for `-n <= i < n`, and negative indices count from the end |
| Subtitles.SetText | src/subsai/webui.py:385-390 | editing row `i` fails exactly when the index is out of range; otherwise only that row's text changes, and length and all timings are kept |
| Subtitles.SetTextIdempotent | src/subsai/webui.py:381-390 | re-applying the same grid edit changes nothing |
| SessionState.Translate | src/subsai/webui.py:321-343 | with no subtitles it is an error and nothing changes; otherwise the backup becomes the old subtitles and the translation is shown; a raising translator is reported as a translation failure and changes nothing |
| SessionState.Reload | src/subsai/webui.py:334-340 | shows the backup when there is one, and errors otherwise; the backup is never changed |
| SessionState.EditText | src/subsai/webui.py:381-393 | fails with no subtitles or a bad index and then changes nothing; never changes the backup |
| SessionState.Transcribe | src/subsai/webui.py:301-308 | a successful transcription replaces the shown subtitles and leaves the backup untouched; a failing one changes nothing |
| SessionState.TranslateThenReload | src/subsai/webui.py:321-340 | a reload after a translation brings back the translated-from subtitles |
| SessionState.ReloadIdempotent | src/subsai/webui.py:336-340 | reloading twice equals reloading once |
| SessionState.EditsPreserveTimings | src/subsai/webui.py:381-393 | any series of grid edits keeps presence, every timing and the backup |
| SessionState.ReloadUndoesEdits | src/subsai/webui.py:329-338 | after a translation, any series of edits is undone by a reload |
| SessionState.ReloadEditReload | src/subsai/webui.py:336-390 | edits made after a reload leave the backup intact, so a second reload restores it |
| SessionState.TranscribeDespiteConfigFailure | src/subsai/webui.py:302-307 | when the config read fails, the transcription still runs, with config `None` |
| SessionObjects.InitialValid | src/subsai/webui.py:262-265 | a fresh session has neither key set, shares no object and shows the empty value session |
| SessionObjects.TranslateAsWritten | src/subsai/webui.py:326-330 | with object identity: matches `Translate` on values; after success the shown object is not the backup, and a failure leaves both bindings and their sharing as they were |
| SessionObjects.ReloadAsWritten | src/subsai/webui.py:336-338 | with object identity: matches `Reload` on values, and the shown object then is the backup object |
| SessionObjects.EditAsWritten | src/subsai/webui.py:385-390 | the in-place edit matches `EditText` on the shown subtitles; it keeps the object identity, so while the shown object is the backup the backup changes too, edit after edit |
| SessionObjects.TranscribeAsWritten | src/subsai/webui.py:302-307 | with object identity: matches `Transcribe` on values; the fresh copy from the cache is not the backup, and a raising transcription leaves both bindings and their sharing as they were |
| SessionObjects.ReloadThenEditOverwritesBackup | src/subsai/webui.py:336-390 | as written, reload, then edit row 0, then reload shows the edited text; with value semantics the backup's text returns |

## Left out

- Streamlit rendering: page layout, AgGrid, the video player, the footer and notifications are UI. Only the widget kind and its initial value are modelled.
- The memoisation by `st.cache_data` and `st.cache_resource` is left out, because its semantics belong to the framework. The transcriber and translator are pure function parameters. `SessionObjects` assumes each cached transcription and each translation is a fresh document object.
- Model construction, transcription and Google translation are foreign calls. They are function parameters that either return a document or raise.
- The per-model `config_schema` objects live in model classes outside this model. A schema is a parameter, and the registry entries carry only identifier and URL, not the class or its prose description.
- File and network I/O is left out: upload to a temporary file, YouTube download and its URL memo, `_media_file_base64`, the file-size check, export through `subs.save`, and merge with video.
- `_subs_df` (pandas and `ms_to_str`) and `_vtt_base64` (base64 encoding) are library formatting.
- The CLI launcher `run()` is process plumbing.
- Coercer.CoerceValue: `float()` of a string is an abstract parser, and `float()` of an int is the exact rational value. IEEE rounding, `inf`, `nan` and the `OverflowError` of huge ints are not modelled.
- Coercer.GetConfigFromSessionState: a schema entry without a `type` key raises `KeyError`, which the source silently treats like a missing session entry. The model's specs always carry a tag.
- ConfigUi.ConfigUi: the warning printed for an unsupported tag is output only.
- SessionState.EditText: the grid returns a row index and the edited text. A malformed grid payload is represented only by an out-of-range index.

## Findings

| source | as written | input that shows it | evidently intended | confidence | as-written member | corrected member |
|---|---|---|---|---|---|---|
| src/subsai/webui.py:336-390 | "Reload Original subtitles" binds `transcribed_subs` to the very object held in `original_subs`; the grid edit then assigns `subs[i].text` in place, so the backup changes too | translate, reload, edit row 0 to new text, reload again: the edited text is shown instead of the original | the backup stays as it was before the translation, and each reload restores it | medium, not executed | SessionObjects.ReloadThenEditOverwritesBackup | SessionState.ReloadEditReload |

/**
  The subtitle state kept across reruns of the web UI: the subtitles on
  screen (`transcribed_subs`) and the backup taken before a translation
  (`original_subs`). A missing session key is `None`.

  Documents are values here: reloading the backup copies it, so a later
  edit of the displayed subtitles cannot reach the backup.
 */
module SessionState {
  import opened Wrappers
  import opened Schema
  import opened Subtitles
  import Coercer
  import Configs

  datatype Session = Session(transcribed: Option<Doc>, original: Option<Doc>)

  /** The error notifications of the transitions. */
  datatype UiError =
    | NoSubtitlesToTranslate
    | TranslationFailed
    | OriginalAlreadyLoaded
    | EditFailed
    | TranscriptionFailed

  /** The session after a transition, and the error shown if it failed. */
  datatype Step = Step(session: Session, error: Option<UiError>)

  /** The translation backend (document, target language); `None` when it
      raises. */
  type Translator = (Doc, string) -> Option<Doc>

  /** The cached transcription (media path, model, config); `None` when it
      raises. */
  type Transcriber = (string, string, Option<Config>) -> Option<Doc>

  /** A fresh session: neither key is set. */
  const Empty := Session(None, None)

  /** The "Translate" button. */
  function Translate(s: Session, target: string, translate: Translator): (r: Step)
    ensures r.error.None? <==> s.transcribed.Some? && translate(s.transcribed.value, target).Some?
    ensures s.transcribed.None? ==> r == Step(s, Some(NoSubtitlesToTranslate))
    ensures s.transcribed.Some? && translate(s.transcribed.value, target).None? ==> r == Step(s, Some(TranslationFailed))
    ensures r.error.Some? ==> r.session == s
    ensures r.error.None? ==> (r.session.original == s.transcribed
      && r.session.transcribed == translate(s.transcribed.value, target))
  {
    match s.transcribed
    case None => Step(s, Some(NoSubtitlesToTranslate))
    case Some(doc) =>
      match translate(doc, target)
      case None => Step(s, Some(TranslationFailed))
      case Some(translated) => Step(Session(Some(translated), s.transcribed), None)
  }

  /** The "Reload Original subtitles" button. */
  function Reload(s: Session): (r: Step)
    ensures r.error.None? <==> s.original.Some?
    ensures r.error.Some? ==> r == Step(s, Some(OriginalAlreadyLoaded))
    ensures r.session.original == s.original
    ensures s.original.Some? ==> r.session.transcribed == s.original
  {
    if s.original.Some? then Step(s.(transcribed := s.original), None)
    else Step(s, Some(OriginalAlreadyLoaded))
  }

  /** A text change of row `i` in the subtitle grid. */
  function EditText(s: Session, i: int, t: string): (r: Step)
    ensures r.error.None? <==> s.transcribed.Some? && -|s.transcribed.value| <= i < |s.transcribed.value|
    ensures r.error.Some? ==> r == Step(s, Some(EditFailed))
    ensures r.session.original == s.original
    ensures r.error.None? ==> r.session.transcribed == SetText(s.transcribed.value, i, t)
  {
    match s.transcribed
    case None => Step(s, Some(EditFailed))
    case Some(doc) =>
      match SetText(doc, i, t)
      case None => Step(s, Some(EditFailed))
      case Some(edited) => Step(s.(transcribed := Some(edited)), None)
  }

  /** The "Transcribe" button: the config is read from the session and the
      transcription runs even when that read failed (config `None`). */
  function Transcribe(s: Session, filePath: string, schema: Schema, state: map<string, RawValue>,
                      p: Coercer.Parsers, transcribe: Transcriber): (r: Step)
    ensures r.session.original == s.original
    ensures var config := Coercer.GetConfigFromSessionState(Configs.SttModelName, schema, state, p);
      match transcribe(filePath, Configs.SttModelName, config)
      case None => r == Step(s, Some(TranscriptionFailed))
      case Some(doc) => r == Step(Session(Some(doc), s.original), None)
  {
    var config := Coercer.GetConfigFromSessionState(Configs.SttModelName, schema, state, p);
    match transcribe(filePath, Configs.SttModelName, config)
    case None => Step(s, Some(TranscriptionFailed))
    case Some(doc) => Step(s.(transcribed := Some(doc)), None)
  }

  /** A translation followed by a reload brings back the subtitles that
      were translated. */
  lemma TranslateThenReload(s: Session, target: string, translate: Translator)
    requires Translate(s, target, translate).error.None?
    ensures var r := Reload(Translate(s, target, translate).session);
      r.error.None? && r.session == Session(s.transcribed, s.transcribed)
  {
  }

  /** Reloading twice is reloading once. */
  lemma ReloadIdempotent(s: Session)
    ensures Reload(Reload(s).session) == Step(Reload(s).session, Reload(s).error)
  {
  }

  /** Applies grid edits one after another; a failing edit changes nothing. */
  function RunEdits(s: Session, edits: seq<(int, string)>): (r: Session)
    decreases |edits|
  {
    if |edits| == 0 then s
    else RunEdits(EditText(s, edits[0].0, edits[0].1).session, edits[1..])
  }

  /** Any series of grid edits keeps the number of entries, every timing
      and the backup. */
  lemma {:induction false} EditsPreserveTimings(s: Session, edits: seq<(int, string)>)
    ensures RunEdits(s, edits).original == s.original
    ensures RunEdits(s, edits).transcribed.Some? <==> s.transcribed.Some?
    ensures s.transcribed.Some? ==> Timings(RunEdits(s, edits).transcribed.value) == Timings(s.transcribed.value)
    decreases |edits|
  {
    if |edits| > 0 {
      EditsPreserveTimings(EditText(s, edits[0].0, edits[0].1).session, edits[1..]);
    }
  }

  /** After a translation, any series of edits can be undone by a reload. */
  lemma ReloadUndoesEdits(s: Session, target: string, translate: Translator, edits: seq<(int, string)>)
    requires Translate(s, target, translate).error.None?
    ensures Reload(RunEdits(Translate(s, target, translate).session, edits)).session.transcribed == s.transcribed
  {
    EditsPreserveTimings(Translate(s, target, translate).session, edits);
  }

  /** Edits made after a reload do not reach the backup: reloading again
      shows the backup as it was. */
  lemma ReloadEditReload(s: Session, edits: seq<(int, string)>)
    requires s.original.Some?
    ensures Reload(RunEdits(Reload(s).session, edits)).session.transcribed == s.original
  {
    EditsPreserveTimings(Reload(s).session, edits);
  }

  /** When reading the config fails, the transcription still runs, with
      config `None`. */
  lemma TranscribeDespiteConfigFailure(s: Session, filePath: string, schema: Schema, state: map<string, RawValue>,
                                        p: Coercer.Parsers, transcribe: Transcriber, i: nat)
    requires i < |schema| && Coercer.FailsOn(Configs.SttModelName, schema[i], state, p)
    requires transcribe(filePath, Configs.SttModelName, None).Some?
    ensures Transcribe(s, filePath, schema, state, p, transcribe)
      == Step(Session(transcribe(filePath, Configs.SttModelName, None), s.original), None)
  {
  }
}

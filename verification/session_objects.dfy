/**
  The subtitle session state with Python's reference semantics, as the
  web UI is written. Session values are object references: the reload
  button stores the backup object itself as the displayed subtitles, and
  a grid edit then changes that object in place, so the edit also lands
  in the backup.
 */
module SessionObjects {
  import opened Wrappers
  import opened Schema
  import opened Subtitles
  import Coercer
  import SessionState

  /** `shared` records that `transcribed_subs` and `original_subs` refer
      to one and the same document object. */
  datatype ObjSession = ObjSession(transcribed: Option<Doc>, original: Option<Doc>, shared: bool)

  datatype ObjStep = ObjStep(session: ObjSession, error: Option<SessionState.UiError>)

  /** Two names for one object always show the same document. */
  predicate Valid(o: ObjSession) {
    o.shared ==> o.transcribed.Some? && o.transcribed == o.original
  }

  /** A fresh session holds no documents, so no object is shared. */
  const Initial := ObjSession(None, None, false)

  lemma InitialValid()
    ensures Valid(Initial) && View(Initial) == SessionState.Empty
  {
  }

  /** The document values the session shows, forgetting object identity. */
  function View(o: ObjSession): (s: SessionState.Session) {
    SessionState.Session(o.transcribed, o.original)
  }

  /** The "Translate" button: the old displayed object becomes the backup
      and the translation (a new object) is displayed. */
  function TranslateAsWritten(o: ObjSession, target: string, translate: SessionState.Translator): (r: ObjStep)
    requires Valid(o)
    ensures Valid(r.session)
    ensures View(r.session) == SessionState.Translate(View(o), target, translate).session
    ensures r.error == SessionState.Translate(View(o), target, translate).error
    ensures r.error.None? ==> !r.session.shared
    ensures r.error.Some? ==> r.session == o
  {
    var step := SessionState.Translate(View(o), target, translate);
    if step.error.Some? then ObjStep(o, step.error)
    else ObjStep(ObjSession(step.session.transcribed, step.session.original, false), None)
  }

  /** The "Reload Original subtitles" button: the displayed name is bound
      to the backup object itself. */
  function ReloadAsWritten(o: ObjSession): (r: ObjStep)
    requires Valid(o)
    ensures Valid(r.session)
    ensures View(r.session) == SessionState.Reload(View(o)).session
    ensures r.error == SessionState.Reload(View(o)).error
    ensures o.original.Some? ==> r.session.shared
  {
    if o.original.Some? then ObjStep(ObjSession(o.original, o.original, true), None)
    else ObjStep(o, Some(SessionState.OriginalAlreadyLoaded))
  }

  /** A grid edit, `subs[i].text = t` on the displayed object: when that
      object is also the backup, the backup changes with it. */
  function EditAsWritten(o: ObjSession, i: int, t: string): (r: ObjStep)
    requires Valid(o)
    ensures Valid(r.session)
    ensures r.error == SessionState.EditText(View(o), i, t).error
    ensures r.session.transcribed == SessionState.EditText(View(o), i, t).session.transcribed
    ensures !o.shared ==> View(r.session) == SessionState.EditText(View(o), i, t).session
    ensures o.shared ==> r.session.original == r.session.transcribed
    ensures r.session.shared == o.shared
  {
    match o.transcribed
    case None => ObjStep(o, Some(SessionState.EditFailed))
    case Some(doc) =>
      match SetText(doc, i, t)
      case None => ObjStep(o, Some(SessionState.EditFailed))
      case Some(edited) =>
        ObjStep(ObjSession(Some(edited), if o.shared then Some(edited) else o.original, o.shared), None)
  }

  /** The "Transcribe" button: the cache hands out a fresh copy, so the
      displayed object is no longer the backup. */
  function TranscribeAsWritten(o: ObjSession, filePath: string, schema: Schema, state: map<string, RawValue>,
                               p: Coercer.Parsers, transcribe: SessionState.Transcriber): (r: ObjStep)
    requires Valid(o)
    ensures Valid(r.session)
    ensures View(r.session) == SessionState.Transcribe(View(o), filePath, schema, state, p, transcribe).session
    ensures r.error == SessionState.Transcribe(View(o), filePath, schema, state, p, transcribe).error
    ensures r.error.None? ==> !r.session.shared
    ensures r.error.Some? ==> r.session == o
  {
    var step := SessionState.Transcribe(View(o), filePath, schema, state, p, transcribe);
    if step.error.Some? then ObjStep(o, step.error)
    else ObjStep(ObjSession(step.session.transcribed, o.original, false), None)
  }

  /** After a reload, editing row 0 rewrites the backup, and a second
      reload shows the edited text instead of the backup; with value
      semantics the backup keeps its text. */
  lemma ReloadThenEditOverwritesBackup(o: ObjSession, t: string)
    requires Valid(o) && o.original.Some? && |o.original.value| > 0 && t != o.original.value[0].text
    ensures var edited := EditAsWritten(ReloadAsWritten(o).session, 0, t).session;
      var shown := ReloadAsWritten(edited).session.transcribed;
      edited.original != o.original && shown.Some? && shown.value[0].text == t
    ensures var s := SessionState.EditText(SessionState.Reload(View(o)).session, 0, t).session;
      SessionState.Reload(s).session.transcribed == o.original
  {
  }
}

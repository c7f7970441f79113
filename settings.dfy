/**
 * The settings-persistence helper of the control panel: a small key -> value
 * preferences record kept in memory, loaded once from a settings file with a
 * fixed five-field fallback, and written back to that file on every change.
 *
 * The file is modelled abstractly (missing, unreadable, or holding a parsed
 * JSON document), and the storage medium decides, write by write, whether
 * a write succeeds.
 */
module Settings {

  /** A field value of the record: the record holds strings and integers. */
  datatype Value = Str(s: string) | Int(n: int)

  /** The preferences record: field name -> value. */
  type Document = map<string, Value>

  /** What the settings file parses to: a JSON object, or any other top-level
      JSON value (an array, a string, a number, true, false or null). */
  datatype Json = Object(doc: Document) | NonObject

  /** The settings file next to the application. Unreadable covers both an
      open that fails and content that does not parse. */
  datatype FileState = Missing | Unreadable | Holds(content: Json)

  /** The storage medium, seen from a write: it accepts the write, refuses to
      open the file for writing (the file is left as it was), or accepts the
      open, which truncates the file, and then fails while writing (what is
      left does not parse). */
  datatype Medium = Writable | OpenRefused | WriteInterrupted

  /** The exception a Python call raises, where the model keeps one. */
  datatype Raised = AttributeError

  /** The outcome of a call that may raise. */
  datatype Outcome<T> = Returned(value: T) | Threw(error: Raised)

  const LastTabKey: string := "last_tab"
  const DefaultTab: string := "Setting"

  /** The record used when there is no usable settings file. */
  function DefaultSettings(): Document
  {
    map[
      "last_tab" := Str("Setting"),
      "language" := Str("中文"),
      "theme" := Str("浅色主题"),
      "baudrate" := Str("9600"),
      "port" := Int(8080)
    ]
  }

  /** The default record has exactly the five fields, with these values. */
  lemma DefaultSettingsFields()
    ensures DefaultSettings().Keys == {"last_tab", "language", "theme", "baudrate", "port"}
    ensures DefaultSettings()[LastTabKey] == Str(DefaultTab)
    ensures DefaultSettings()["language"] == Str("中文")
    ensures DefaultSettings()["theme"] == Str("浅色主题")
    ensures DefaultSettings()["baudrate"] == Str("9600")
    ensures DefaultSettings()["port"] == Int(8080)
  {
  }

  /** Loading the settings file, as the rest of the model uses it: a file that
      parses to an object is taken as it is (no merge with the defaults, so a
      missing field stays missing); every other file gives the default
      record. Unlike the source, a file that parses to a non-object also
      gives the defaults (see LoadAsWritten). */
  function Load(f: FileState): (d: Document)
    ensures f.Holds? && f.content.Object? ==> d == f.content.doc
    ensures !(f.Holds? && f.content.Object?) ==> d == DefaultSettings()
  {
    match f
    case Holds(Object(doc)) => doc
    case _ => DefaultSettings()
  }

  /** A missing file and an unreadable file both load as the default record,
      whose last tab is "Setting". */
  lemma LoadWithoutFile(f: FileState)
    requires f == Missing || f == Unreadable
    ensures Load(f) == DefaultSettings()
    ensures LastTab(Load(f)) == Str(DefaultTab)
  {
  }

  /** The last tab a record names: its "last_tab" field, or "Setting" when the
      record has no such field. Whatever the field holds is returned, an
      integer included. */
  function LastTab(d: Document): (v: Value)
    ensures LastTabKey in d ==> v == d[LastTabKey]
    ensures LastTabKey !in d ==> v == Str(DefaultTab)
  {
    if LastTabKey in d then d[LastTabKey] else Str(DefaultTab)
  }

  /** The record with its "last_tab" field set to name; nothing else changes. */
  function WithLastTab(d: Document, name: string): (r: Document)
    ensures LastTab(r) == Str(name)
    ensures r.Keys == d.Keys + {LastTabKey}
    ensures forall k :: k in d && k != LastTabKey ==> r[k] == d[k]
  {
    d[LastTabKey := Str(name)]
  }

  /** The settings file after an attempt to write the record d to it. */
  function Written(f: FileState, d: Document, m: Medium): (f': FileState)
    ensures m == Writable ==> Load(f') == d
    ensures m == OpenRefused ==> f' == f
    ensures m == WriteInterrupted ==> Load(f') == DefaultSettings()
  {
    match m
    case Writable => Holds(Object(d))
    case OpenRefused => f
    case WriteInterrupted => Unreadable
  }

  /** The state a settings manager works on: its in-memory record and the
      settings file. */
  datatype Store = Store(settings: Document, file: FileState)

  /** Saving: the whole record is written to the file, and m is what the
      storage does with this one write; the boolean says whether the write
      succeeded. The record itself is never touched. */
  function SaveSpec(s: Store, m: Medium): (r: (Store, bool))
    ensures r.0.settings == s.settings
    ensures r.1 <==> m == Writable
    ensures r.1 ==> Load(r.0.file) == s.settings
    ensures !r.1 ==> Load(r.0.file) == Load(s.file) || Load(r.0.file) == DefaultSettings()
  {
    (Store(s.settings, Written(s.file, s.settings, m)), m == Writable)
  }

  /** Setting the last tab: update the record in memory, then save it with
      the write outcome m. */
  function SetLastTabSpec(s: Store, name: string, m: Medium): (r: Store)
    ensures LastTab(r.settings) == Str(name)
    ensures forall k :: k in s.settings && k != LastTabKey ==> k in r.settings && r.settings[k] == s.settings[k]
    ensures r.settings.Keys == s.settings.Keys + {LastTabKey}
    ensures m == Writable ==> LastTab(Load(r.file)) == Str(name)
    ensures m == OpenRefused ==> r.file == s.file
  {
    SaveSpec(Store(WithLastTab(s.settings, name), s.file), m).0
  }

  /** Round trip: after a successful save, loading the file gives back the
      record that was saved. */
  lemma SaveThenLoad(s: Store)
    ensures SaveSpec(s, Writable).1
    ensures Load(SaveSpec(s, Writable).0.file) == s.settings
  {
  }

  /** Round trip through set_last_tab: when its write succeeds, reloading the
      file gives the updated record, whose last tab is the new name. */
  lemma SetLastTabThenLoad(s: Store, name: string)
    ensures Load(SetLastTabSpec(s, name, Writable).file) == WithLastTab(s.settings, name)
    ensures LastTab(Load(SetLastTabSpec(s, name, Writable).file)) == Str(name)
  {
  }

  /** A failed save reports false and leaves the in-memory record alone. */
  lemma FailedSaveKeepsRecord(s: Store, m: Medium)
    requires m != Writable
    ensures !SaveSpec(s, m).1
    ensures SaveSpec(s, m).0.settings == s.settings
  {
  }

  /** Setting the same tab twice, with the same write outcome, is the same as
      setting it once. */
  lemma SetLastTabIdempotent(s: Store, name: string, m: Medium)
    ensures SetLastTabSpec(SetLastTabSpec(s, name, m), name, m) == SetLastTabSpec(s, name, m)
  {
    var once := SetLastTabSpec(s, name, m);
    assert WithLastTab(once.settings, name) == once.settings;
  }

  // ---------------------------------------------------------------------
  // The source as written, for a file that parses to a non-object.

  /** load_settings as written: whatever the file parses to is returned, an
      array or a string included. */
  function LoadAsWritten(f: FileState): (j: Json)
    ensures f.Holds? ==> j == f.content
    ensures !f.Holds? ==> j == Object(DefaultSettings())
  {
    match f
    case Holds(content) => content
    case _ => Object(DefaultSettings())
  }

  /** get_last_tab as written on what load_settings returned: the lookup
      method exists only on an object, so any other value raises. */
  function GetLastTabAsWritten(j: Json): (r: Outcome<Value>)
    ensures j.Object? ==> r == Returned(LastTab(j.doc))
    ensures j.NonObject? ==> r == Threw(AttributeError)
  {
    match j
    case Object(doc) => Returned(LastTab(doc))
    case NonObject => Threw(AttributeError)
  }

  /** A settings file holding, say, [] makes get_last_tab raise as written,
      and the window constructor calls it, so the application fails to start. */
  lemma NonObjectFileRaises()
    ensures GetLastTabAsWritten(LoadAsWritten(Holds(NonObject))) == Threw(AttributeError)
  {
  }

  /** The corrected Load agrees with the source whenever the source gets a
      record, and otherwise falls back to the defaults as for an unreadable
      file: the last tab is the source's wherever get_last_tab returns, and
      "Setting" wherever it raises. */
  lemma LoadCorrectsNonObject(f: FileState)
    ensures LoadAsWritten(f).Object? ==> Load(f) == LoadAsWritten(f).doc
    ensures LoadAsWritten(f).NonObject? ==> Load(f) == Load(Unreadable)
    ensures GetLastTabAsWritten(LoadAsWritten(f)).Returned? ==>
              LastTab(Load(f)) == GetLastTabAsWritten(LoadAsWritten(f)).value
    ensures GetLastTabAsWritten(LoadAsWritten(f)).Threw? ==> LastTab(Load(f)) == Str(DefaultTab)
  {
  }

  // ---------------------------------------------------------------------
  // The settings manager object.

  /** The settings manager: the in-memory record it owns and the settings
      file. Whether a write succeeds is the environment's decision at the
      time of the write, so the operations that write take it as m. */
  class SettingsManager {
    var settings: Document
    var file: FileState

    /** The manager's state as a value. */
    function Snapshot(): (s: Store)
      reads this
      ensures s.settings == settings && s.file == file
    {
      Store(settings, file)
    }

    /** Creating the manager loads the settings file once; the file itself is
        not touched (a missing file is not created). */
    constructor (f: FileState)
      ensures settings == Load(f) && file == f
    {
      settings := Load(f);
      file := f;
    }

    /** save_settings: writes the whole record; returns whether it succeeded.
        It never raises and the record in memory is never changed. */
    method SaveSettings(m: Medium) returns (ok: bool)
      modifies this`file
      ensures ok <==> m == Writable
      ensures ok ==> Load(file) == settings
      ensures (Snapshot(), ok) == SaveSpec(old(Snapshot()), m)
    {
      ok := m == Writable;
      file := Written(file, settings, m);
    }

    /** get_last_tab: the record's "last_tab" field, or "Setting". */
    function GetLastTab(): (v: Value)
      reads this
      ensures LastTabKey in settings ==> v == settings[LastTabKey]
      ensures LastTabKey !in settings ==> v == Str(DefaultTab)
    {
      LastTab(settings)
    }

    /** set_last_tab: overwrites the field in memory, then saves; a failed
        save is swallowed. Either way the new name is what get_last_tab
        returns and every other field is as it was. */
    method SetLastTab(name: string, m: Medium)
      modifies this
      ensures GetLastTab() == Str(name)
      ensures settings == old(settings)[LastTabKey := Str(name)]
      ensures forall k :: k in old(settings) && k != LastTabKey ==> settings[k] == old(settings)[k]
      ensures m == Writable ==> Load(file) == settings
      ensures m == OpenRefused ==> file == old(file)
      ensures Snapshot() == SetLastTabSpec(old(Snapshot()), name, m)
    {
      settings := settings[LastTabKey := Str(name)];
      var ok := SaveSettings(m);
    }
  }
}

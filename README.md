# Settings persistence of the I/O framework control panel

The control panel window (`UI/main_window.py`) remembers which of its four tabs
(Monitor, Functions, IO, Setting) was open last. A `SettingsManager` keeps a
small preferences record in memory. It loads the record once from a
`ui_settings.json` file next to the application. When that file is missing or
cannot be read or parsed, it uses a fixed five-field default record. Every tab
switch writes the tab's name into the record and saves the whole record back
to the file. At startup the window maps the saved name to a tab index.

This project models that logic in Dafny:

- `settings.dfy`, module `Settings`. It holds the record (`Document`, a map
  from field names to `Str`/`Int` values) and the settings file (`FileState`:
  `Missing`, `Unreadable`, or `Holds` a parsed JSON value). It also holds the
  storage medium's answer to one write (`Medium`): the write succeeds
  (`Writable`), cannot open the file (`OpenRefused`), or fails after the open
  has truncated the file (`WriteInterrupted`). Each write gets its own answer,
  so a session can see writes succeed and then fail. Loading, saving and setting the last tab are pure
  functions over a `Store` value. The `SettingsManager` class is proved
  against them.
- `tabs.dfy`, module `Tabs`. It holds the tab labels in the order the tabs
  are added, the tab widget's label lookup (`TabText`), and the restore
  mapping (`TabIndex`). It also holds the tab-switch handler as a function
  over a `Store`, sessions of tab switches (each with its own write outcome), startup (corrected and as
  written), and the `MainWindow` class, reduced to its settings manager and
  current tab index.

## Model

| member | source | states |
|---|---|---|
| Settings.DefaultSettingsFields | UI/main_window.py:20-26 | the default record has exactly the fields last_tab="Setting", language="中文", theme="浅色主题", baudrate="9600", port=8080 (an integer) |
| Settings.Load | UI/main_window.py:18-34 | a file that parses to an object is returned unchanged, with no merge of defaults; every other file gives exactly the default record |
| Settings.LoadWithoutFile | UI/main_window.py:20-34 | a missing file and an unreadable or unparsable file both give the default record, whose last tab is "Setting" |
| Settings.LastTab | UI/main_window.py:45-47 | the last tab is the stored last_tab value when the key is present, whatever its type, and "Setting" otherwise; it is total |
| Settings.WithLastTab | UI/main_window.py:51 | after the update the last tab is the new name, the key set gains only last_tab, and every other field keeps its value |
| Settings.Written | UI/main_window.py:36-43 | a successful write makes the file load back as exactly the record written; a refused open leaves the file as it was; an interrupted write leaves a file that loads as the defaults |
| Settings.SaveSpec | UI/main_window.py:36-43 | saving reports true exactly when this write succeeds, never changes the in-memory record, and on success the file loads back as that record; on failure the file loads as before or as the defaults |
| Settings.SetLastTabSpec | UI/main_window.py:49-55 | after set_last_tab the last tab is the name and all other fields are unchanged, whether or not the save worked; when the write succeeds the file's last tab is the name too, and a refused write leaves the file as it was |
| Settings.SaveThenLoad | UI/main_window.py:36-41 | round trip: when the write succeeds, save reports success and a later load returns the saved record |
| Settings.SetLastTabThenLoad | UI/main_window.py:49-52 | round trip: when its write succeeds, a reload after set_last_tab(x) gives the updated record, whose last tab is x |
| Settings.FailedSaveKeepsRecord | UI/main_window.py:36-43 | a save whose write fails returns false and leaves the in-memory record unchanged |
| Settings.SetLastTabIdempotent | UI/main_window.py:49-52 | setting the same tab twice, with the same write outcome, leaves the same record and file as setting it once |
| Settings.LoadAsWritten | UI/main_window.py:18-34 | load_settings as written returns whatever JSON value the file parses to, a non-object included, and the default record otherwise |
| Settings.GetLastTabAsWritten | UI/main_window.py:45-47 | get_last_tab as written returns the last tab of an object and raises AttributeError on any other parsed value |
| Settings.NonObjectFileRaises | UI/main_window.py:28-47 | a settings file that parses to a non-object makes get_last_tab raise after load_settings |
| Settings.LoadCorrectsNonObject | UI/main_window.py:18-34 | the corrected load equals the source's whenever the source yields an object and loads a non-object file like an unreadable one; its last tab is the source's get_last_tab result wherever that returns, and "Setting" wherever it raises |
| Settings.SettingsManager.constructor | UI/main_window.py:12-16 | the manager's record is the loaded file; the file itself is not touched |
| Settings.SettingsManager.SaveSettings | UI/main_window.py:36-43 | returns true exactly when this write succeeds, never raises, changes only the file, and on success the file loads back as the in-memory record |
| Settings.SettingsManager.GetLastTab | UI/main_window.py:45-47 | the stored last_tab value, or "Setting" when absent |
| Settings.SettingsManager.SetLastTab | UI/main_window.py:49-55 | afterwards get_last_tab returns the name, every other field is unchanged, a successful write makes the file load back as the new record, and a refused one leaves the file as it was |
| Tabs.TabText | UI/main_window.py:260 | the label of tab i is the i-th label in addTab order (Monitor, Functions, IO, Setting), and the empty string for an index of no tab |
| Tabs.TabIndex | UI/main_window.py:271-278 | the restore index is always in 0..3; each tab name maps to its own tab and every other value, integers included, to the first tab |
| Tabs.TabIndexInvertsTabText | UI/main_window.py:257-279 | saving the label of tab i and restoring from it selects tab i again |
| Tabs.DefaultTabIsSetting | UI/main_window.py:265-278 | with no settings file the restored tab is the Setting tab |
| Tabs.OnTabChangedSpec | UI/main_window.py:257-262 | an index of 0 or more saves that tab's label as the last tab, which then restores to that index; a negative index changes nothing |
| Tabs.Startup | UI/main_window.py:59-86 | corrected startup: the file is loaded and not written, and the current tab is the one the loaded last tab names, or the first tab |
| Tabs.SessionRestoresLastSwitch | UI/main_window.py:257-279 | over any sequence of tab changes, each with its own write outcome, the in-memory last tab follows the last switch of index 0 or more, and negative indices change nothing; when that last switch's write succeeded, the next startup reopens its tab, whatever happened to earlier writes |
| Tabs.LastSwitch | UI/main_window.py:257-262 | the position of the last tab change with an index of 0 or more: every later change has a negative index, and -1 means all of them do |
| Tabs.InterruptedWriteResetsPreferences | UI/main_window.py:36-52 | a tab switch whose write is interrupted after the truncating open, after any earlier successful writes, leaves a file that loads as the default record, so the next startup opens the Setting tab |
| Tabs.RefusedSessionKeepsFile | UI/main_window.py:36-43 | when every write of a session is refused at open, the session never changes the settings file |
| Tabs.StartupAsWritten | UI/main_window.py:74-86 | startup as written: the first tab's currentChanged(0) saves "Monitor" before the restore, so the window always opens on tab 0, and after a successful write the file holds "Monitor" |
| Tabs.StartupForgetsSavedTab | UI/main_window.py:74-86 | with a file whose last tab is "IO", the corrected startup opens tab 2 and the startup as written opens tab 0 |
| Tabs.MainWindow.constructor | UI/main_window.py:59-86 | the window's manager and current tab are exactly those of the corrected startup |
| Tabs.MainWindow.RestoreLastTab | UI/main_window.py:265-279 | selects the tab mapped from the stored last tab, always an index in 0..3, and only reads the settings |
| Tabs.MainWindow.OnTabChanged | UI/main_window.py:257-262 | for an index of 0 or more the manager saves that tab's label, which restores to the same index; a negative index leaves the manager unchanged |

## Findings

| source | as written | input that shows it | evidently intended | confidence | as-written member | corrected member |
|---|---|---|---|---|---|---|
| UI/main_window.py:28-47 | `load_settings` returns whatever the file parses to. `get_last_tab` then calls the dict lookup on it. | a settings file containing `[]`, a string or a number: the window constructor's `get_last_tab` raises AttributeError and the application does not start. Together with the second finding, as written the first failure comes earlier: `on_tab_changed(0)` from the first `addTab` reaches line 51, where assigning a key on a non-object raises TypeError | a file that parses but holds no record falls back to the defaults, like a corrupt file | high (not executed) | Settings.NonObjectFileRaises | Settings.LoadCorrectsNonObject |
| UI/main_window.py:74-86 | `currentChanged` is connected (line 76) before the tabs are added (lines 80-83). Inserting the first tab into an empty Qt tab widget makes it current and emits `currentChanged(0)`. `on_tab_changed(0)` therefore saves "Monitor" before `restore_last_tab` reads the last tab. | a file holding `{"last_tab": "IO"}`: the window opens on Monitor, not IO, and the file is rewritten with "Monitor" | startup reopens the tab that was open last (connect the handler after the restore) | medium: rests on the tab widget's behaviour when its first tab is inserted (not executed) | Tabs.StartupForgetsSavedTab | Tabs.SessionRestoresLastSwitch |

Each finding is stated with the other one corrected. The rest of the model
uses the corrected definitions: `Settings.Load` and `Tabs.Startup`, which the
`MainWindow` constructor follows.

## Left out

- Qt widget and layout construction (`create_monitor_tab`, `create_functions_tab`, `create_io_tab`, `create_setting_tab`) and `main`: declarative layout with no behaviour. Only the tab labels, in `addTab` order, are kept.
- Real file I/O and path resolution (`os.path`, `open`): the settings file is the abstract `FileState`, and the medium decides whether a write succeeds.
- JSON encoding details (`json.load`/`json.dump`, `ensure_ascii=False`, `indent=2`): a successful write followed by a parse is taken as an exact round trip, and any parse failure is the `Unreadable` case.
- JSON values other than strings and integers inside the record are not modelled. A float, a boolean or null behaves like an integer in every modelled operation: it is stored as it is and maps to the first tab. An array or an object stored as `last_tab` is not hashable, so `tab_mapping.get` at UI/main_window.py:278 raises TypeError and `restore_last_tab` fails the window constructor. The model does not capture that failure.
- A write that fails only after the whole text is written (on close) is not modelled. `WriteInterrupted` assumes what is left does not parse.
- The `print` diagnostics in `set_last_tab`, `on_tab_changed` and `restore_last_tab`: they are logging only.
- The Qt signal wiring. The signals are modelled only as the calls they cause: `OnTabChanged` takes the index Qt reports, and `TabText` indexes the fixed label list.
- Qt's own change of the current tab when the user clicks one is not modelled. `MainWindow.current` is set only by the restore.
- Tabs.SessionRestoresLastSwitch: requires every reported index to be below four, because Qt only reports indices of existing tabs (or -1).

/**
 * The main window's tab bookkeeping: the four tabs in the order they are
 * added, the name -> index mapping used to restore the last tab at startup,
 * and the handler that saves the tab name on every tab switch.
 */
module Tabs {
  import opened Settings

  /** The tab labels, in the order the window adds the tabs. */
  const TabLabels: seq<string> := ["Monitor", "Functions", "IO", "Setting"]

  /** The tab widget's label lookup: the label of an existing tab, and the
      empty string for an index that names no tab. */
  function TabText(index: int): (name: string)
    ensures 0 <= index < |TabLabels| ==> name == TabLabels[index]
    ensures !(0 <= index < |TabLabels|) ==> name == ""
  {
    if 0 <= index < |TabLabels| then TabLabels[index] else ""
  }

  /** The restore mapping from a stored last-tab value to a tab index: each of
      the four tab names to its own index, anything else (an unknown name,
      an integer) to the first tab. */
  function TabIndex(v: Value): (index: nat)
    ensures index < |TabLabels|
    ensures v.Str? && v.s in TabLabels ==> TabLabels[index] == v.s
    ensures !(v.Str? && v.s in TabLabels) ==> index == 0
  {
    if v == Str("Monitor") then 0
    else if v == Str("Functions") then 1
    else if v == Str("IO") then 2
    else if v == Str("Setting") then 3
    else 0
  }

  /** Saving a tab's label and restoring from it gives back the tab. */
  lemma TabIndexInvertsTabText(index: int)
    requires 0 <= index < |TabLabels|
    ensures TabIndex(Str(TabText(index))) == index
  {
  }

  /** The default last tab selects the Setting tab. */
  lemma DefaultTabIsSetting()
    ensures TabIndex(LastTab(Load(Missing))) == 3
    ensures TabText(3) == DefaultTab
  {
  }

  /** on_tab_changed: for an index of 0 or more, the tab's label becomes the
      last tab and is saved with the write outcome m; a negative index (no
      current tab) changes nothing. */
  function OnTabChangedSpec(s: Store, index: int, m: Medium): (r: Store)
    ensures index < 0 ==> r == s
    ensures index >= 0 ==> r == SetLastTabSpec(s, TabText(index), m)
    ensures 0 <= index < |TabLabels| ==> TabIndex(LastTab(r.settings)) == index
  {
    if index >= 0 then SetLastTabSpec(s, TabText(index), m) else s
  }

  /** One currentChanged report of the tab widget, with what the storage
      does with the write it may trigger. */
  datatype TabChange = TabChange(index: int, medium: Medium)

  /** A session: the tab changes handled one after the other. */
  function RunSession(s: Store, events: seq<TabChange>): (r: Store)
    decreases |events|
  {
    if events == [] then s
    else
      var last := events[|events| - 1];
      OnTabChangedSpec(RunSession(s, events[..|events| - 1]), last.index, last.medium)
  }

  /** The position of the last tab change with an index of 0 or more, or -1
      when there is none. */
  function LastSwitch(events: seq<TabChange>): (k: int)
    ensures -1 <= k < |events|
    ensures k >= 0 ==> events[k].index >= 0
    ensures forall j :: k < j < |events| ==> events[j].index < 0
    decreases |events|
  {
    if events == [] then -1
    else if events[|events| - 1].index >= 0 then |events| - 1
    else LastSwitch(events[..|events| - 1])
  }

  /** The window right after startup: the settings manager's state and the
      current tab. */
  datatype Window = Window(store: Store, current: int)

  /** Startup, with the currentChanged handler connected only after the last
      tab has been restored: the settings file is loaded once and not
      written, and the current tab is the one the loaded record names, or the
      first tab when it names none. */
  function Startup(f: FileState): (w: Window)
    ensures w.store == Store(Load(f), f)
    ensures 0 <= w.current < |TabLabels|
    ensures LastTab(Load(f)).Str? && LastTab(Load(f)).s in TabLabels ==> TabText(w.current) == LastTab(Load(f)).s
    ensures !(LastTab(Load(f)).Str? && LastTab(Load(f)).s in TabLabels) ==> w.current == 0
  {
    var loaded := Store(Load(f), f);
    Window(loaded, TabIndex(LastTab(loaded.settings)))
  }

  /** Across a session the in-memory last tab follows the last switch, and
      negative indices change nothing. When the write of that last switch
      succeeded, the next startup reopens its tab, whatever happened to the
      writes before it. */
  lemma {:induction false} SessionRestoresLastSwitch(s: Store, events: seq<TabChange>)
    requires forall j | 0 <= j < |events| :: events[j].index < |TabLabels|
    ensures LastSwitch(events) < 0 ==> RunSession(s, events) == s
    ensures LastSwitch(events) >= 0 ==>
              TabIndex(LastTab(RunSession(s, events).settings)) == events[LastSwitch(events)].index
    ensures LastSwitch(events) >= 0 && events[LastSwitch(events)].medium == Writable ==>
              Startup(RunSession(s, events).file).current == events[LastSwitch(events)].index
    decreases |events|
  {
    if events != [] {
      var prefix := events[..|events| - 1];
      var last := events[|events| - 1];
      SessionRestoresLastSwitch(s, prefix);
      var before := RunSession(s, prefix);
      if last.index >= 0 {
        TabIndexInvertsTabText(last.index);
        if last.medium == Writable {
          SetLastTabThenLoad(before, TabText(last.index));
        }
      }
    }
  }

  /** When the storage refuses every write of a session, the session never
      changes the settings file, so the next startup sees the file as it was
      (the in-memory last tab follows the switches all the same, as
      SessionRestoresLastSwitch states). */
  lemma {:induction false} RefusedSessionKeepsFile(s: Store, events: seq<TabChange>)
    requires forall j | 0 <= j < |events| :: events[j].medium == OpenRefused
    ensures RunSession(s, events).file == s.file
    decreases |events|
  {
    if events != [] {
      RefusedSessionKeepsFile(s, events[..|events| - 1]);
    }
  }

  /** A switch whose write is interrupted, after any number of successful
      ones, leaves a settings file that loads as the default record: every
      saved preference is lost on the next startup. */
  lemma InterruptedWriteResetsPreferences(s: Store, events: seq<TabChange>, index: int)
    requires 0 <= index < |TabLabels|
    ensures Load(RunSession(s, events + [TabChange(index, WriteInterrupted)]).file) == DefaultSettings()
    ensures Startup(RunSession(s, events + [TabChange(index, WriteInterrupted)]).file).current == 3
  {
  }

  // ---------------------------------------------------------------------
  // Startup as written: the handler is connected before the tabs are added.

  /** Startup as the window constructor is written: the currentChanged
      handler is connected first, so adding the first tab, which makes it the
      current tab and reports index 0, saves "Monitor" as the last tab (with
      the write outcome m) before the last tab is restored. */
  function StartupAsWritten(f: FileState, m: Medium): (w: Window)
    ensures w.current == 0
    ensures w.store.settings == WithLastTab(Load(f), "Monitor")
    ensures m == Writable ==> LastTab(Load(w.store.file)) == Str("Monitor")
  {
    var loaded := Store(Load(f), f);
    var afterFirstTab := OnTabChangedSpec(loaded, 0, m);
    Window(afterFirstTab, TabIndex(LastTab(afterFirstTab.settings)))
  }

  /** A file whose last tab is "IO": the corrected startup opens the IO tab,
      the one written opens Monitor and overwrites the saved "IO". */
  lemma StartupForgetsSavedTab()
    ensures Startup(Holds(Object(map[LastTabKey := Str("IO")]))).current == 2
    ensures StartupAsWritten(Holds(Object(map[LastTabKey := Str("IO")])), Writable).current == 0
  {
  }

  // ---------------------------------------------------------------------
  // The main window object.

  /** The main window, reduced to its settings manager and the tab widget's
      current index. */
  class MainWindow {
    const manager: SettingsManager
    var current: int

    /** The window constructor, in the corrected order: the four tabs are
        added (the first one becomes current), the last tab is restored, and
        only then is the tab-switch handler connected. */
    constructor (f: FileState)
      ensures fresh(manager)
      ensures Window(manager.Snapshot(), current) == Startup(f)
    {
      manager := new SettingsManager(f);
      current := 0;
      new;
      RestoreLastTab();
    }

    /** restore_last_tab: selects the tab the stored last tab names, or the
        first tab; the settings are only read. */
    method RestoreLastTab()
      modifies this`current
      ensures 0 <= current < |TabLabels|
      ensures current == TabIndex(manager.GetLastTab())
    {
      var lastTab := manager.GetLastTab();
      current := TabIndex(lastTab);
    }

    /** on_tab_changed: saves the label of the tab switched to, m being what
        the storage does with that write; a negative index is ignored. */
    method OnTabChanged(index: int, m: Medium)
      modifies manager
      ensures index < 0 ==> manager.Snapshot() == old(manager.Snapshot())
      ensures 0 <= index < |TabLabels| ==> TabIndex(manager.GetLastTab()) == index
      ensures manager.Snapshot() == OnTabChangedSpec(old(manager.Snapshot()), index, m)
    {
      if index >= 0 {
        var tabName := TabText(index);
        manager.SetLastTab(tabName, m);
      }
    }
  }
}

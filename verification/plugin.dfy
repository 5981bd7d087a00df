/**
 * The plugin object: its settings, the two stored timestamps, the two
 * status-bar elements, and the operations and event handlers that update
 * them. The host's active file is passed in as `active`; the date formatter
 * (moment's `format`) is the `format` field.
 */
module TimestampPlugin {
  import opened Wrappers
  import opened PluginSettings
  import opened DisplayCycle
  import opened StatusBar

  /** A note as the host reports it: its path and its creation and modification instants (epoch milliseconds). */
  datatype File = File(path: string, ctime: int, mtime: int)

  /** `moment(instant).format(pattern)`. */
  type Formatter = (int, string) -> string

  /** The enabled flags of a settings record, as the cycle sees them. */
  function FlagsOf(s: Settings): Flags {
    Flags(s.lastModifiedEnabled, s.createdEnabled)
  }

  /** The creation instant of the active file, if there is one. */
  function CreatedAt(active: Option<File>): Option<int> {
    if active.Some? then Some(active.value.ctime) else None
  }

  /** The modification instant of the active file, if there is one. */
  function ModifiedAt(active: Option<File>): Option<int> {
    if active.Some? then Some(active.value.mtime) else None
  }

  /** A stored timestamp after a refresh: the formatted instant when there is one, else what was stored. */
  function Refreshed(stored: Option<string>, instant: Option<int>, format: Formatter, pattern: string): Option<string> {
    if instant.Some? then Some(format(instant.value, pattern)) else stored
  }

  /** Refreshing twice with the same active file stores the same value as refreshing once. */
  lemma RefreshIdempotent(stored: Option<string>, instant: Option<int>, format: Formatter, pattern: string)
    ensures Refreshed(Refreshed(stored, instant, format, pattern), instant, format, pattern)
         == Refreshed(stored, instant, format, pattern)
  {
  }

  /**
   * Refresh then render of an enabled slot with an active file displays the
   * label followed by the formatted instant, provided the formatter returns
   * a non-empty string; an empty one leaves the element as it was.
   */
  lemma RefreshThenRender(prev: ItemState, stored: Option<string>, prepend: string, instant: int,
                          format: Formatter, pattern: string)
    ensures var ts := Refreshed(stored, Some(instant), format, pattern);
            format(instant, pattern) != "" ==>
              Rendered(prev, prepend, ts, true) == ItemState(prepend + format(instant, pattern), true, true)
    ensures var ts := Refreshed(stored, Some(instant), format, pattern);
            format(instant, pattern) == "" ==> Rendered(prev, prepend, ts, true) == prev
  {
  }

  /** With no active file a refresh keeps the stored value, so rendering shows the stale value again. */
  lemma NoActiveFileKeepsStale(prev: ItemState, stored: Option<string>, prepend: string,
                               format: Formatter, pattern: string)
    requires Truthy(stored)
    ensures Rendered(prev, prepend, Refreshed(stored, None, format, pattern), true).text == prepend + stored.value
  {
  }

  class LastModifiedTimestampInStatusBar {
    var settings: Settings
    var createdTimestamp: Option<string>
    var lastModifiedTimestamp: Option<string>
    /** What the plugin's data store holds: what `loadData` returns and `saveData` replaces. */
    var store: Persisted
    const lastModifiedEl: StatusBarItem
    const createdEl: StatusBarItem
    const format: Formatter

    /** The two elements are distinct objects. */
    predicate Valid() {
      lastModifiedEl != createdEl
    }

    predicate LastModifiedAgrees()
      reads this, lastModifiedEl
    {
      SlotAgrees(lastModifiedEl.State(), settings.lastModifiedPrepend, lastModifiedTimestamp,
                 settings.lastModifiedEnabled)
    }

    predicate CreatedAgrees()
      reads this, createdEl
    {
      SlotAgrees(createdEl.State(), settings.createdPrepend, createdTimestamp, settings.createdEnabled)
    }

    /** Every enabled slot with a timestamp displays exactly its label followed by its timestamp. */
    predicate Agrees()
      reads this, lastModifiedEl, createdEl
    {
      LastModifiedAgrees() && CreatedAgrees()
    }

    /**
     * A plugin instance before `onload`: both elements added, no timestamps,
     * and the data store as the host has it. Settings hold the defaults until
     * `onload` loads them.
     */
    constructor (persisted: Persisted, format: Formatter)
      ensures Valid() && Agrees()
      ensures fresh(lastModifiedEl) && fresh(createdEl)
      ensures lastModifiedEl.State() == ItemState("", true, false)
      ensures createdEl.State() == ItemState("", true, false)
      ensures createdTimestamp.None? && lastModifiedTimestamp.None?
      ensures settings == DefaultSettings && store == persisted && this.format == format
    {
      settings := DefaultSettings;
      createdTimestamp := None;
      lastModifiedTimestamp := None;
      store := persisted;
      this.format := format;
      lastModifiedEl := new StatusBarItem();
      createdEl := new StatusBarItem();
    }

    /** Moves the two enabled flags one step along the cycle, refreshes both slots and saves. */
    method CycleDisplayedStatus(active: Option<File>)
      requires Valid()
      modifies this`settings, this`store, this`lastModifiedTimestamp, this`createdTimestamp
      modifies lastModifiedEl, createdEl
      ensures FlagsOf(settings) == Next(FlagsOf(old(settings)))
      ensures settings == old(settings).(lastModifiedEnabled := settings.lastModifiedEnabled,
                                         createdEnabled := settings.createdEnabled)
      ensures lastModifiedTimestamp == Refreshed(old(lastModifiedTimestamp), ModifiedAt(active), format,
                                                 settings.lastModifiedTimestampFormat)
      ensures createdTimestamp == Refreshed(old(createdTimestamp), CreatedAt(active), format,
                                            settings.createdTimestampFormat)
      ensures lastModifiedEl.State() == Rendered(old(lastModifiedEl.State()), settings.lastModifiedPrepend,
                                                 lastModifiedTimestamp, settings.lastModifiedEnabled)
      ensures createdEl.State() == Rendered(old(createdEl.State()), settings.createdPrepend,
                                            createdTimestamp, settings.createdEnabled)
      ensures !settings.lastModifiedEnabled ==> !lastModifiedEl.shown
      ensures !settings.createdEnabled ==> !createdEl.shown
      ensures store == ToPersisted(settings)
      ensures Agrees()
    {
      if settings.lastModifiedEnabled && settings.createdEnabled {
        settings := settings.(lastModifiedEnabled := true);
        settings := settings.(createdEnabled := false);
      } else if settings.lastModifiedEnabled && !settings.createdEnabled {
        settings := settings.(lastModifiedEnabled := false);
        settings := settings.(createdEnabled := true);
      } else if !settings.lastModifiedEnabled && settings.createdEnabled {
        settings := settings.(lastModifiedEnabled := true);
        settings := settings.(createdEnabled := true);
      } else {
        settings := settings.(lastModifiedEnabled := true);
        settings := settings.(createdEnabled := false);
      }
      UpdateLastModified(active);
      UpdateCreated(active);
      SaveSettings();
    }

    /** Renders the last-modified slot into its element. */
    method UpdateLastModifiedDisplay()
      modifies lastModifiedEl
      ensures lastModifiedEl.State() == Rendered(old(lastModifiedEl.State()), settings.lastModifiedPrepend,
                                                 lastModifiedTimestamp, settings.lastModifiedEnabled)
      ensures LastModifiedAgrees()
    {
      if Truthy(lastModifiedTimestamp) && settings.lastModifiedEnabled {
        lastModifiedEl.SetText(settings.lastModifiedPrepend + lastModifiedTimestamp.value);
        lastModifiedEl.BindCycleHandler();
        if settings.lastModifiedEnabled {
          lastModifiedEl.Show();
        }
      }
      if !settings.lastModifiedEnabled {
        lastModifiedEl.Hide();
      }
    }

    /** Renders the created slot into its element. */
    method UpdateCreatedDisplay()
      modifies createdEl
      ensures createdEl.State() == Rendered(old(createdEl.State()), settings.createdPrepend,
                                            createdTimestamp, settings.createdEnabled)
      ensures CreatedAgrees()
    {
      if Truthy(createdTimestamp) && settings.createdEnabled {
        createdEl.SetText(settings.createdPrepend + createdTimestamp.value);
        createdEl.BindCycleHandler();
        if settings.createdEnabled {
          createdEl.Show();
        }
      }
      if !settings.createdEnabled {
        createdEl.Hide();
      }
    }

    /** Stores the active file's formatted creation instant; keeps the old value when no file is active. */
    method UpdateCreatedTimestamp(active: Option<File>)
      modifies this`createdTimestamp
      ensures active.None? ==> createdTimestamp == old(createdTimestamp)
      ensures active.Some? ==> createdTimestamp == Some(format(active.value.ctime, settings.createdTimestampFormat))
    {
      if active.Some? {
        var timestamp := format(active.value.ctime, settings.createdTimestampFormat);
        createdTimestamp := Some(timestamp);
      }
    }

    /** Refreshes and renders the created slot. */
    method UpdateCreated(active: Option<File>)
      modifies this`createdTimestamp, createdEl
      ensures createdTimestamp == Refreshed(old(createdTimestamp), CreatedAt(active), format,
                                            settings.createdTimestampFormat)
      ensures createdEl.State() == Rendered(old(createdEl.State()), settings.createdPrepend,
                                            createdTimestamp, settings.createdEnabled)
      ensures CreatedAgrees()
    {
      UpdateCreatedTimestamp(active);
      UpdateCreatedDisplay();
    }

    /** Refreshes and renders the last-modified slot. */
    method UpdateLastModified(active: Option<File>)
      modifies this`lastModifiedTimestamp, lastModifiedEl
      ensures lastModifiedTimestamp == Refreshed(old(lastModifiedTimestamp), ModifiedAt(active), format,
                                                 settings.lastModifiedTimestampFormat)
      ensures lastModifiedEl.State() == Rendered(old(lastModifiedEl.State()), settings.lastModifiedPrepend,
                                                 lastModifiedTimestamp, settings.lastModifiedEnabled)
      ensures LastModifiedAgrees()
    {
      UpdateLastModifiedTimestamp(active);
      UpdateLastModifiedDisplay();
    }

    /** Stores the active file's formatted modification instant; keeps the old value when no file is active. */
    method UpdateLastModifiedTimestamp(active: Option<File>)
      modifies this`lastModifiedTimestamp
      ensures active.None? ==> lastModifiedTimestamp == old(lastModifiedTimestamp)
      ensures active.Some? ==>
                lastModifiedTimestamp == Some(format(active.value.mtime, settings.lastModifiedTimestampFormat))
    {
      if active.Some? {
        lastModifiedTimestamp := Some(format(active.value.mtime, settings.lastModifiedTimestampFormat));
      }
    }

    /**
     * Plugin start-up: load the settings, then refresh each slot whose flag is
     * set. (The handlers it registers are `OnModify` and `OnActiveLeafChange`.)
     */
    method Onload(active: Option<File>)
      requires Valid()
      modifies this`settings, this`lastModifiedTimestamp, this`createdTimestamp, lastModifiedEl, createdEl
      ensures settings == Merge(store)
      ensures settings.lastModifiedEnabled ==>
                && lastModifiedTimestamp == Refreshed(old(lastModifiedTimestamp), ModifiedAt(active), format,
                                                      settings.lastModifiedTimestampFormat)
                && lastModifiedEl.State() == Rendered(old(lastModifiedEl.State()), settings.lastModifiedPrepend,
                                                      lastModifiedTimestamp, true)
      ensures !settings.lastModifiedEnabled ==>
                lastModifiedTimestamp == old(lastModifiedTimestamp) && lastModifiedEl.State() == old(lastModifiedEl.State())
      ensures settings.createdEnabled ==>
                && createdTimestamp == Refreshed(old(createdTimestamp), CreatedAt(active), format,
                                                 settings.createdTimestampFormat)
                && createdEl.State() == Rendered(old(createdEl.State()), settings.createdPrepend,
                                                 createdTimestamp, true)
      ensures !settings.createdEnabled ==>
                createdTimestamp == old(createdTimestamp) && createdEl.State() == old(createdEl.State())
      ensures Agrees()
    {
      LoadSettings();
      if settings.lastModifiedEnabled {
        UpdateLastModified(active);
      }
      if settings.createdEnabled {
        UpdateCreated(active);
      }
    }

    /** The vault `modify` handler: refresh the last-modified slot when it is enabled and the file is the active one. */
    method OnModify(file: File, active: Option<File>)
      requires Valid() && Agrees()
      modifies this`lastModifiedTimestamp, lastModifiedEl
      ensures settings.lastModifiedEnabled && active == Some(file) ==>
                && lastModifiedTimestamp == Some(format(file.mtime, settings.lastModifiedTimestampFormat))
                && lastModifiedEl.State() == Rendered(old(lastModifiedEl.State()), settings.lastModifiedPrepend,
                                                      lastModifiedTimestamp, true)
      ensures !(settings.lastModifiedEnabled && active == Some(file)) ==>
                lastModifiedTimestamp == old(lastModifiedTimestamp) && lastModifiedEl.State() == old(lastModifiedEl.State())
      ensures Agrees()
    {
      if settings.lastModifiedEnabled && Some(file) == active {
        UpdateLastModified(active);
      }
    }

    /** The `active-leaf-change` handler: refresh each slot whose flag is set. */
    method OnActiveLeafChange(active: Option<File>)
      requires Valid()
      modifies this`lastModifiedTimestamp, this`createdTimestamp, lastModifiedEl, createdEl
      ensures settings.lastModifiedEnabled ==>
                && lastModifiedTimestamp == Refreshed(old(lastModifiedTimestamp), ModifiedAt(active), format,
                                                      settings.lastModifiedTimestampFormat)
                && lastModifiedEl.State() == Rendered(old(lastModifiedEl.State()), settings.lastModifiedPrepend,
                                                      lastModifiedTimestamp, true)
      ensures !settings.lastModifiedEnabled ==>
                lastModifiedTimestamp == old(lastModifiedTimestamp) && lastModifiedEl.State() == old(lastModifiedEl.State())
      ensures settings.createdEnabled ==>
                && createdTimestamp == Refreshed(old(createdTimestamp), CreatedAt(active), format,
                                                 settings.createdTimestampFormat)
                && createdEl.State() == Rendered(old(createdEl.State()), settings.createdPrepend,
                                                 createdTimestamp, true)
      ensures !settings.createdEnabled ==>
                createdTimestamp == old(createdTimestamp) && createdEl.State() == old(createdEl.State())
      ensures Agrees()
    {
      if settings.lastModifiedEnabled {
        UpdateLastModified(active);
      }
      if settings.createdEnabled {
        UpdateCreated(active);
      }
    }

    /**
     * A click on one of the two elements. Its `onclick` is the cycle handler
     * once the element has been rendered with a timestamp; the handler cycles
     * only when cycling on click is enabled.
     */
    method Click(el: StatusBarItem, active: Option<File>)
      requires Valid()
      requires el == lastModifiedEl || el == createdEl
      modifies this`settings, this`store, this`lastModifiedTimestamp, this`createdTimestamp
      modifies lastModifiedEl, createdEl
      ensures old(el.cycleOnClick && settings.cycleOnClickEnabled) ==>
                && FlagsOf(settings) == Next(FlagsOf(old(settings)))
                && settings == old(settings).(lastModifiedEnabled := settings.lastModifiedEnabled,
                                              createdEnabled := settings.createdEnabled)
                && lastModifiedTimestamp == Refreshed(old(lastModifiedTimestamp), ModifiedAt(active), format,
                                                      settings.lastModifiedTimestampFormat)
                && createdTimestamp == Refreshed(old(createdTimestamp), CreatedAt(active), format,
                                                 settings.createdTimestampFormat)
                && lastModifiedEl.State() == Rendered(old(lastModifiedEl.State()), settings.lastModifiedPrepend,
                                                      lastModifiedTimestamp, settings.lastModifiedEnabled)
                && createdEl.State() == Rendered(old(createdEl.State()), settings.createdPrepend,
                                                 createdTimestamp, settings.createdEnabled)
                && store == ToPersisted(settings)
                && Agrees()
      ensures !old(el.cycleOnClick && settings.cycleOnClickEnabled) ==>
                && settings == old(settings) && store == old(store)
                && lastModifiedTimestamp == old(lastModifiedTimestamp) && createdTimestamp == old(createdTimestamp)
                && lastModifiedEl.State() == old(lastModifiedEl.State()) && createdEl.State() == old(createdEl.State())
    {
      if el.cycleOnClick && settings.cycleOnClickEnabled {
        CycleDisplayedStatus(active);
      }
    }

    /** `Object.assign({}, DEFAULT_SETTINGS, await this.loadData())`. */
    method LoadSettings()
      modifies this`settings
      ensures settings == Merge(store)
    {
      settings := Merge(store);
    }

    /** `saveData(this.settings)`: the store now holds the whole settings record. */
    method SaveSettings()
      modifies this`store
      ensures store == ToPersisted(settings)
      ensures Merge(store) == settings
    {
      store := ToPersisted(settings);
      SaveThenLoad(settings);
    }
  }

  /** Start-up with only a format persisted: the default label is kept and an empty formatted value is not shown. */
  method StartupWithPartialSettings() {
    var format: Formatter := (instant: int, pattern: string) => if pattern == "YYYY" then "2024" else "";
    var plugin := new LastModifiedTimestampInStatusBar(
      NothingPersisted.(lastModifiedTimestampFormat := Some("YYYY")), format);
    plugin.Onload(Some(File("note.md", 0, 1)));
    assert plugin.lastModifiedEl.text == "Last Modified: 2024" && plugin.lastModifiedEl.shown;
    assert plugin.createdTimestamp == Some("");
    assert plugin.createdEl.State() == ItemState("", true, false);
  }

  /** Start-up with no active file: no timestamp is stored and neither element is written. */
  method StartupWithoutActiveFile(format: Formatter) {
    var plugin := new LastModifiedTimestampInStatusBar(NothingPersisted, format);
    plugin.Onload(None);
    assert plugin.lastModifiedTimestamp.None? && plugin.createdTimestamp.None?;
    assert plugin.lastModifiedEl.State() == ItemState("", true, false);
    assert plugin.createdEl.State() == ItemState("", true, false);
  }
}

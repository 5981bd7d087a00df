/**
 * The plugin's settings record, its defaults, and how `loadSettings` merges
 * what was persisted over those defaults.
 */
module PluginSettings {
  import opened Wrappers

  /** One value per field of the settings interface. */
  datatype Settings = Settings(
    createdEnabled: bool,
    createdPrepend: string,
    createdTimestampFormat: string,
    lastModifiedEnabled: bool,
    lastModifiedPrepend: string,
    lastModifiedTimestampFormat: string,
    cycleOnClickEnabled: bool)

  /** The hard-coded defaults. */
  const DefaultSettings := Settings(
    createdEnabled := true,
    createdPrepend := "Created: ",
    createdTimestampFormat := "YYYY-MM-DD H:mm:ss",
    lastModifiedEnabled := true,
    lastModifiedPrepend := "Last Modified: ",
    lastModifiedTimestampFormat := "YYYY-MM-DD H:mm:ss",
    cycleOnClickEnabled := false)

  /**
   * A settings object as the plugin's data store holds it: any field may be
   * missing. A store with nothing saved yet (`loadData` yielding `null`) is
   * `NothingPersisted`.
   */
  datatype Persisted = Persisted(
    createdEnabled: Option<bool>,
    createdPrepend: Option<string>,
    createdTimestampFormat: Option<string>,
    lastModifiedEnabled: Option<bool>,
    lastModifiedPrepend: Option<string>,
    lastModifiedTimestampFormat: Option<string>,
    cycleOnClickEnabled: Option<bool>)

  const NothingPersisted := Persisted(None, None, None, None, None, None, None)

  /** Every field is present. */
  predicate Complete(p: Persisted) {
    && p.createdEnabled.Some? && p.createdPrepend.Some? && p.createdTimestampFormat.Some?
    && p.lastModifiedEnabled.Some? && p.lastModifiedPrepend.Some? && p.lastModifiedTimestampFormat.Some?
    && p.cycleOnClickEnabled.Some?
  }

  /** `Object.assign(target, source)`: each field present in `source` overwrites the one in `target`. */
  function Assign(target: Persisted, source: Persisted): Persisted {
    Persisted(
      if source.createdEnabled.Some? then source.createdEnabled else target.createdEnabled,
      if source.createdPrepend.Some? then source.createdPrepend else target.createdPrepend,
      if source.createdTimestampFormat.Some? then source.createdTimestampFormat else target.createdTimestampFormat,
      if source.lastModifiedEnabled.Some? then source.lastModifiedEnabled else target.lastModifiedEnabled,
      if source.lastModifiedPrepend.Some? then source.lastModifiedPrepend else target.lastModifiedPrepend,
      if source.lastModifiedTimestampFormat.Some? then source.lastModifiedTimestampFormat
      else target.lastModifiedTimestampFormat,
      if source.cycleOnClickEnabled.Some? then source.cycleOnClickEnabled else target.cycleOnClickEnabled)
  }

  /** What `saveData(settings)` writes: the whole record, every field present. */
  function ToPersisted(s: Settings): (p: Persisted)
    ensures Complete(p)
  {
    Persisted(
      Some(s.createdEnabled), Some(s.createdPrepend), Some(s.createdTimestampFormat),
      Some(s.lastModifiedEnabled), Some(s.lastModifiedPrepend), Some(s.lastModifiedTimestampFormat),
      Some(s.cycleOnClickEnabled))
  }

  /** Reads a settings record back out of a stored object that has every field. */
  function FromComplete(p: Persisted): Settings
    requires Complete(p)
  {
    Settings(
      p.createdEnabled.value, p.createdPrepend.value, p.createdTimestampFormat.value,
      p.lastModifiedEnabled.value, p.lastModifiedPrepend.value, p.lastModifiedTimestampFormat.value,
      p.cycleOnClickEnabled.value)
  }

  /**
   * `loadSettings`: `Object.assign({}, DEFAULT_SETTINGS, data)`. Field by
   * field, the persisted value wins when there is one and the default fills
   * in the rest.
   */
  function Merge(data: Persisted): (s: Settings)
    ensures s.createdEnabled == data.createdEnabled.GetOr(DefaultSettings.createdEnabled)
    ensures s.createdPrepend == data.createdPrepend.GetOr(DefaultSettings.createdPrepend)
    ensures s.createdTimestampFormat == data.createdTimestampFormat.GetOr(DefaultSettings.createdTimestampFormat)
    ensures s.lastModifiedEnabled == data.lastModifiedEnabled.GetOr(DefaultSettings.lastModifiedEnabled)
    ensures s.lastModifiedPrepend == data.lastModifiedPrepend.GetOr(DefaultSettings.lastModifiedPrepend)
    ensures s.lastModifiedTimestampFormat
         == data.lastModifiedTimestampFormat.GetOr(DefaultSettings.lastModifiedTimestampFormat)
    ensures s.cycleOnClickEnabled == data.cycleOnClickEnabled.GetOr(DefaultSettings.cycleOnClickEnabled)
  {
    FromComplete(Assign(Assign(NothingPersisted, ToPersisted(DefaultSettings)), data))
  }

  /** Loading what was saved gives back the settings that were saved. */
  lemma SaveThenLoad(s: Settings)
    ensures Merge(ToPersisted(s)) == s
  {
  }

  /** With nothing persisted the plugin runs on its defaults. */
  lemma NothingPersistedGivesDefaults()
    ensures Merge(NothingPersisted) == DefaultSettings
  {
  }

  /**
   * Persisting only the last-modified format keeps every other default,
   * among them the label "Last Modified: ".
   */
  lemma OnlyFormatPersisted(format: string)
    ensures Merge(NothingPersisted.(lastModifiedTimestampFormat := Some(format)))
         == DefaultSettings.(lastModifiedTimestampFormat := format)
    ensures Merge(NothingPersisted.(lastModifiedTimestampFormat := Some(format))).lastModifiedPrepend
         == "Last Modified: "
  {
  }
}

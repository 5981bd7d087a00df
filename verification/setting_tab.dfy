/**
 * The settings tab. Only the effect of each control's change callback is
 * modelled: write one settings field, save, then refresh the slot the field
 * belongs to.
 */
module SettingTab {
  import opened Wrappers
  import opened PluginSettings
  import opened StatusBar
  import opened TimestampPlugin

  class LastModifiedTimestampInStatusBarSettingTab {
    const plugin: LastModifiedTimestampInStatusBar

    constructor (plugin: LastModifiedTimestampInStatusBar)
      ensures this.plugin == plugin
    {
      this.plugin := plugin;
    }

    /** The last-modified "Enabled" toggle. */
    method OnLastModifiedEnabledChange(value: bool, active: Option<File>)
      requires plugin.Valid() && plugin.Agrees()
      modifies plugin`settings, plugin`store, plugin`lastModifiedTimestamp, plugin.lastModifiedEl
      ensures plugin.settings == old(plugin.settings).(lastModifiedEnabled := value)
      ensures plugin.store == ToPersisted(plugin.settings)
      ensures plugin.lastModifiedTimestamp
           == Refreshed(old(plugin.lastModifiedTimestamp), ModifiedAt(active), plugin.format,
                        plugin.settings.lastModifiedTimestampFormat)
      ensures plugin.lastModifiedEl.State()
           == Rendered(old(plugin.lastModifiedEl.State()), plugin.settings.lastModifiedPrepend,
                       plugin.lastModifiedTimestamp, value)
      ensures !value ==> !plugin.lastModifiedEl.shown
      ensures plugin.Agrees()
    {
      plugin.settings := plugin.settings.(lastModifiedEnabled := value);
      plugin.SaveSettings();
      plugin.UpdateLastModified(active);
    }

    /** The last-modified "Timestamp Format" text field. */
    method OnLastModifiedFormatChange(value: string, active: Option<File>)
      requires plugin.Valid() && plugin.Agrees()
      modifies plugin`settings, plugin`store, plugin`lastModifiedTimestamp, plugin.lastModifiedEl
      ensures plugin.settings == old(plugin.settings).(lastModifiedTimestampFormat := value)
      ensures plugin.store == ToPersisted(plugin.settings)
      ensures plugin.lastModifiedTimestamp
           == Refreshed(old(plugin.lastModifiedTimestamp), ModifiedAt(active), plugin.format, value)
      ensures plugin.lastModifiedEl.State()
           == Rendered(old(plugin.lastModifiedEl.State()), plugin.settings.lastModifiedPrepend,
                       plugin.lastModifiedTimestamp, plugin.settings.lastModifiedEnabled)
      ensures plugin.Agrees()
    {
      plugin.settings := plugin.settings.(lastModifiedTimestampFormat := value);
      plugin.SaveSettings();
      plugin.UpdateLastModified(active);
    }

    /** The last-modified "Title in Status Bar" text field. */
    method OnLastModifiedPrependChange(value: string, active: Option<File>)
      requires plugin.Valid() && plugin.Agrees()
      modifies plugin`settings, plugin`store, plugin`lastModifiedTimestamp, plugin.lastModifiedEl
      ensures plugin.settings == old(plugin.settings).(lastModifiedPrepend := value)
      ensures plugin.store == ToPersisted(plugin.settings)
      ensures plugin.lastModifiedTimestamp
           == Refreshed(old(plugin.lastModifiedTimestamp), ModifiedAt(active), plugin.format,
                        plugin.settings.lastModifiedTimestampFormat)
      ensures plugin.lastModifiedEl.State()
           == Rendered(old(plugin.lastModifiedEl.State()), value,
                       plugin.lastModifiedTimestamp, plugin.settings.lastModifiedEnabled)
      ensures plugin.Agrees()
    {
      plugin.settings := plugin.settings.(lastModifiedPrepend := value);
      plugin.SaveSettings();
      plugin.UpdateLastModified(active);
    }

    /** The created "Enabled" toggle. */
    method OnCreatedEnabledChange(value: bool, active: Option<File>)
      requires plugin.Valid() && plugin.Agrees()
      modifies plugin`settings, plugin`store, plugin`createdTimestamp, plugin.createdEl
      ensures plugin.settings == old(plugin.settings).(createdEnabled := value)
      ensures plugin.store == ToPersisted(plugin.settings)
      ensures plugin.createdTimestamp
           == Refreshed(old(plugin.createdTimestamp), CreatedAt(active), plugin.format,
                        plugin.settings.createdTimestampFormat)
      ensures plugin.createdEl.State()
           == Rendered(old(plugin.createdEl.State()), plugin.settings.createdPrepend,
                       plugin.createdTimestamp, value)
      ensures !value ==> !plugin.createdEl.shown
      ensures plugin.Agrees()
    {
      plugin.settings := plugin.settings.(createdEnabled := value);
      plugin.SaveSettings();
      plugin.UpdateCreated(active);
    }

    /** The created "Timestamp Format" text field. */
    method OnCreatedFormatChange(value: string, active: Option<File>)
      requires plugin.Valid() && plugin.Agrees()
      modifies plugin`settings, plugin`store, plugin`createdTimestamp, plugin.createdEl
      ensures plugin.settings == old(plugin.settings).(createdTimestampFormat := value)
      ensures plugin.store == ToPersisted(plugin.settings)
      ensures plugin.createdTimestamp
           == Refreshed(old(plugin.createdTimestamp), CreatedAt(active), plugin.format, value)
      ensures plugin.createdEl.State()
           == Rendered(old(plugin.createdEl.State()), plugin.settings.createdPrepend,
                       plugin.createdTimestamp, plugin.settings.createdEnabled)
      ensures plugin.Agrees()
    {
      plugin.settings := plugin.settings.(createdTimestampFormat := value);
      plugin.SaveSettings();
      plugin.UpdateCreated(active);
    }

    /** The created "Title in Status Bar" text field. */
    method OnCreatedPrependChange(value: string, active: Option<File>)
      requires plugin.Valid() && plugin.Agrees()
      modifies plugin`settings, plugin`store, plugin`createdTimestamp, plugin.createdEl
      ensures plugin.settings == old(plugin.settings).(createdPrepend := value)
      ensures plugin.store == ToPersisted(plugin.settings)
      ensures plugin.createdTimestamp
           == Refreshed(old(plugin.createdTimestamp), CreatedAt(active), plugin.format,
                        plugin.settings.createdTimestampFormat)
      ensures plugin.createdEl.State()
           == Rendered(old(plugin.createdEl.State()), value,
                       plugin.createdTimestamp, plugin.settings.createdEnabled)
      ensures plugin.Agrees()
    {
      plugin.settings := plugin.settings.(createdPrepend := value);
      plugin.SaveSettings();
      plugin.UpdateCreated(active);
    }

    /** The "Cycle Displayed Timestamp On Click" toggle: written and saved, nothing is refreshed. */
    method OnCycleOnClickEnabledChange(value: bool)
      requires plugin.Valid() && plugin.Agrees()
      modifies plugin`settings, plugin`store
      ensures plugin.settings == old(plugin.settings).(cycleOnClickEnabled := value)
      ensures plugin.store == ToPersisted(plugin.settings)
      ensures plugin.Agrees()
    {
      plugin.settings := plugin.settings.(cycleOnClickEnabled := value);
      plugin.SaveSettings();
    }
  }
}

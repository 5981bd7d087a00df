# Last-modified / created timestamp in the status bar — a verified model

This project models the Obsidian plugin "Last Modified Timestamp in Status Bar". The plugin keeps two
status-bar elements: one shows the active note's creation time, the other its last-modification time.
Each is labelled with a configurable prefix and formatted with a configurable moment.js pattern. The
model covers:

- the settings record, its defaults, and how `loadSettings` merges persisted values over the defaults
  (`settings.dfy`, module `PluginSettings`);
- the click cycle over the two enabled flags (`cycle.dfy`, module `DisplayCycle`);
- a status-bar element (`setText`, `show`, `hide`, `onclick`) and the display rule for one slot
  (`status_bar.dfy`, module `StatusBar`);
- the plugin object: stored timestamps, the refresh and display methods, `cycleDisplayedStatus`,
  `onload` and its two event handlers, the click handler, load and save (`plugin.dfy`, module
  `TimestampPlugin`);
- the settings tab's change callbacks (`setting_tab.dfy`, module `SettingTab`).

The plugin and the settings tab are classes whose methods update fields in place, as the source
does. Each method's postcondition gives the new state as a function of the old one. The functions
`Next`, `Merge`, `Rendered` and `Refreshed` specify those methods, and the lemmas are stated about
them.

Host inputs become parameters or fields:

- the active file (`getActiveFile()`) is a parameter `active: Option<File>`;
- moment's `format` is an opaque function value `format: (int, string) -> string`, fixed when the
  plugin is constructed;
- the data store behind `loadData`/`saveData` is the field `store`.

A stored timestamp is `Option<string>`. JavaScript truthiness is `Truthy`, under which both `null`
and `""` count as absent.

Three consequences of the code worth stating, because they are easy to get wrong:

- Four clicks from both-on do not come back to both-on: the cycle has period three, both →
  last-modified only → created only → both (`CyclePeriodThree`). Four clicks from both-on end at
  last-modified only (`FourCyclesFromBothOn`).
- Not all four flag states are reached by clicking. "Both off" is never the result of a click
  (`Next` ensures `r.lastModified || r.created`). It can only come from the settings toggles or a
  loaded settings record, and the next click leaves it for (true, false).
- Disabling and then re-enabling a slot restores its display only when a timestamp is stored
  (`ReenableRestores`). Without one, the element stays hidden (`ReenableWithoutTimestampStaysHidden`).

## Model

| member | source | states |
|---|---|---|
| `DisplayCycle.Position` | main.ts:41-57 | each state on the three-state cycle has one position in it |
| `DisplayCycle.Next` | main.ts:41-57 | the successor of any flag pair has at least one flag on, lies on the three-state cycle, and differs from the pair it came from |
| `DisplayCycle.NextInjectiveOnOrbit` | main.ts:42-53 | two different states on the cycle never have the same successor |
| `DisplayCycle.CycleN` | main.ts:41-57 | after one or more clicks, whatever the start, at least one flag is on and the state is on the cycle |
| `DisplayCycle.NextAdvances` | main.ts:42-53 | one click moves a state on the cycle one position forward, wrapping around |
| `DisplayCycle.CycleNOnOrbit` | main.ts:42-53 | n clicks from a state on the cycle move it n positions, modulo three |
| `DisplayCycle.CyclePeriodThree` | main.ts:42-53 | any multiple of three clicks returns every state on the cycle to itself |
| `DisplayCycle.PeriodIsExactlyThree` | main.ts:42-53 | one or two clicks never return a state on the cycle to itself |
| `DisplayCycle.BothOffEntersOrbit` | main.ts:54-57 | from both-off, the first click gives (true, false), and the states after that follow the cycle |
| `DisplayCycle.FourCyclesFromBothOn` | main.ts:42-53 | four clicks from both-on end at last-modified only |
| `PluginSettings.ToPersisted` | main.ts:164-166 | a save writes every settings field |
| `PluginSettings.Merge` | main.ts:160-162 | each loaded field is the persisted value when present, else the default |
| `PluginSettings.SaveThenLoad` | main.ts:160-166 | loading what was saved gives back the saved settings |
| `PluginSettings.NothingPersistedGivesDefaults` | main.ts:21-29 | with nothing persisted the settings are exactly the defaults |
| `PluginSettings.OnlyFormatPersisted` | main.ts:21-29 | persisting only the last-modified format keeps every other default, including the label "Last Modified: " |
| `StatusBar.Rendered` | main.ts:63-97 | enabled with a timestamp: text is label + timestamp, shown, cycle handler bound; disabled: hidden, text and handler kept; enabled without a timestamp (null or ""): untouched |
| `StatusBar.RenderedIdempotent` | main.ts:63-79 | rendering a slot twice is the same as rendering it once |
| `StatusBar.ReenableRestores` | main.ts:189-193 | with a timestamp stored, disabling and re-enabling a slot restores its display |
| `StatusBar.ReenableWithoutTimestampStaysHidden` | main.ts:63-79 | with no timestamp stored, a fresh element that is disabled and then re-enabled stays hidden |
| `TimestampPlugin.RefreshIdempotent` | main.ts:119-125 | refreshing twice with the same active file stores what refreshing once does |
| `TimestampPlugin.RefreshThenRender` | main.ts:114-125 | for an enabled slot with an active file, refresh then render displays label + formatted mtime when the formatted string is non-empty, and leaves the element as it was when it is empty |
| `TimestampPlugin.NoActiveFileKeepsStale` | main.ts:119-125 | with no active file, refresh then render displays the stale stored value again |
| `TimestampPlugin.LastModifiedTimestampInStatusBar.constructor` | main.ts:31-39 | before onload: two distinct fresh elements, empty and shown, no timestamps, store as persisted |
| `TimestampPlugin.LastModifiedTimestampInStatusBar.CycleDisplayedStatus` | main.ts:41-62 | flags become `Next` of the old flags and no other setting changes; both slots are refreshed and rendered, so a slot turned off is hidden; the new settings are saved |
| `TimestampPlugin.LastModifiedTimestampInStatusBar.UpdateLastModifiedDisplay` | main.ts:63-79 | the last-modified element becomes `Rendered` of its old state, so the enabled slot agrees with its label and timestamp |
| `TimestampPlugin.LastModifiedTimestampInStatusBar.UpdateCreatedDisplay` | main.ts:81-97 | the created element becomes `Rendered` of its old state |
| `TimestampPlugin.LastModifiedTimestampInStatusBar.UpdateCreatedTimestamp` | main.ts:99-107 | with no active file the stored value is kept; otherwise it is the ctime formatted with the created format |
| `TimestampPlugin.LastModifiedTimestampInStatusBar.UpdateCreated` | main.ts:109-112 | refreshes and renders the created slot; nothing of the last-modified slot changes |
| `TimestampPlugin.LastModifiedTimestampInStatusBar.UpdateLastModified` | main.ts:114-117 | refreshes and renders the last-modified slot; nothing of the created slot changes |
| `TimestampPlugin.LastModifiedTimestampInStatusBar.UpdateLastModifiedTimestamp` | main.ts:119-125 | with no active file the stored value is kept; otherwise it is the mtime formatted with the last-modified format |
| `TimestampPlugin.LastModifiedTimestampInStatusBar.Onload` | main.ts:127-158 | settings are merged from the store; each slot is refreshed and rendered exactly when its flag is set; afterwards every enabled slot with a timestamp agrees |
| `TimestampPlugin.LastModifiedTimestampInStatusBar.OnModify` | main.ts:129-133 | only the last-modified slot is refreshed, and only when it is enabled and the modified file is the active one; otherwise nothing changes |
| `TimestampPlugin.LastModifiedTimestampInStatusBar.OnActiveLeafChange` | main.ts:145-155 | each slot is refreshed and rendered exactly when its own flag is set |
| `TimestampPlugin.LastModifiedTimestampInStatusBar.Click` | main.ts:69-72 | a click cycles only when the element's handler is bound and cycling on click is enabled; it then refreshes both stored timestamps from the active file, renders both slots and saves; otherwise nothing changes |
| `TimestampPlugin.LastModifiedTimestampInStatusBar.LoadSettings` | main.ts:160-162 | settings become the merge of the store over the defaults |
| `TimestampPlugin.LastModifiedTimestampInStatusBar.SaveSettings` | main.ts:164-166 | the store holds the whole settings record, and loading it back gives the same settings |
| `SettingTab.LastModifiedTimestampInStatusBarSettingTab.constructor` | main.ts:172-175 | the tab acts on the given plugin |
| `SettingTab.LastModifiedTimestampInStatusBarSettingTab.OnLastModifiedEnabledChange` | main.ts:189-193 | writes the flag only, saves, refreshes and renders the last-modified slot (hidden when turned off) |
| `SettingTab.LastModifiedTimestampInStatusBarSettingTab.OnLastModifiedFormatChange` | main.ts:202-206 | writes the format only, saves, and refreshes with the new format |
| `SettingTab.LastModifiedTimestampInStatusBarSettingTab.OnLastModifiedPrependChange` | main.ts:214-218 | writes the label only, saves, and renders with the new label |
| `SettingTab.LastModifiedTimestampInStatusBarSettingTab.OnCreatedEnabledChange` | main.ts:228-232 | writes the flag only, saves, refreshes and renders the created slot (hidden when turned off) |
| `SettingTab.LastModifiedTimestampInStatusBarSettingTab.OnCreatedFormatChange` | main.ts:242-246 | writes the format only, saves, and refreshes with the new format |
| `SettingTab.LastModifiedTimestampInStatusBarSettingTab.OnCreatedPrependChange` | main.ts:254-258 | writes the label only, saves, and renders with the new label |
| `SettingTab.LastModifiedTimestampInStatusBarSettingTab.OnCycleOnClickEnabledChange` | main.ts:268-271 | writes the cycle-on-click flag only and saves; no slot is refreshed |

Every event method and every settings-tab callback also keeps the invariant `Agrees()`: each
enabled slot with a truthy timestamp displays exactly its label followed by that timestamp.

## Left out

- moment.js formatting: the formatter is an opaque function value; its tokens, locales and time
  zones are not modelled.
- `loadData`/`saveData` are modelled as synchronous reads and writes of `store`. Their
  asynchrony, their ordering relative to the refreshes, and their failures are not modelled.
- Persisted values of the wrong type, and extra keys in the stored JSON object (which
  `Object.assign` would also copy), are not modelled. Each persisted field is present with its
  declared type, or absent.
- The `modify` handler compares the modified file with the active one by object identity (`===`).
  The model compares `File` values (path and stat times).
- Re-creating a status-bar element when the field is `null` (main.ts:65-67, 83-85) is not modelled.
  Both elements are created in the constructor and are never null.
- Registering events, adding the settings tab and building its controls (`display`, `Setting`
  chains) are not modelled. The handlers and change callbacks are methods that the host is
  assumed to call.
- `lastModifiedRefreshInterval` (main.ts:36) is declared but never used, so there is no timer to
  model.
- `settings` is unset in the source until `onload`. The constructor gives it the defaults.
- A newly added status-bar element is assumed to be empty and displayed.

# Alt-Tab current monitor — a Dafny model

This project models the GNOME Shell extension "Alt-Tab current monitor". The
extension patches the Alt-Tab window switcher and the window cycler so that
they list only the windows on the "current" monitor. When the
`current-workspace-only` setting is on, they also list only the windows on
the active workspace.

The model covers four things:

- **The window filter** (`filterWindows`). It is a chain of two `Array.filter`
  calls. It is modelled with a generic `Filter` over sequences (module
  `JsArray`) and the two callbacks `OnMonitor` and `OnWorkspace`.
- **The current-monitor rule** (`getCurrentMonitor`). The pointer's monitor is
  used when `use-mouse-monitor` is set. Otherwise the focused window's monitor
  is used. When no window has focus, the primary monitor is used. The host's
  answers are parameters: the `Host` value holds them, including the monitor
  under the pointer.
- **The enable/disable lifecycle** (class
  `Extension.AltTabCurrentMonitorExtension`). It holds the cached flags, the
  list of listener ids, the saved switcher supplier and the settings object.
  The settings store is a small `Settings` class. It holds the two boolean
  keys and the signal handlers connected to it, by id. The two patched
  prototype slots are fields of `AltTabPopups`. They hold `Supplier` markers,
  which record which function is installed in each slot.
- **The preferences drop-down for the "other monitors" modifier key**
  (module `Prefs`). It has the fixed table of stored strings, the
  `findIndex` lookup from a stored string to a position, and the
  `notify::selected` write-back from a position to a stored string.

`filterWindows` filters on the monitor first and on the workspace second
(extension.ts:80-86); `WorkspaceFirstSameList` proves that the other order
gives the same list.

## Model

| member | source | states |
|---|---|---|
| `JsArray.Filter` | extension.ts:80-85 | `Array.filter`: the result is a subsequence of the input, so its order is kept. Every element passes the callback. Every passing element of the input is in the result |
| `JsArray.FilterCount` | extension.ts:80-85 | The filter result holds each passing element exactly as often as the input does, and no element more often than the input |
| `JsArray.SubsequenceMultiset` | extension.ts:80-85 | An in-order selection never holds an element more often than the sequence it was taken from |
| `JsArray.FilterAgreeing` | extension.ts:80-85 | Two callbacks that agree on every element of the input give the same filter result |
| `JsArray.FilterUnique` | extension.ts:80-88 | Being an in-order selection, holding only passing elements, and holding each passing element as often as the input together determine the filter result: any sequence that has them equals `Filter` |
| `JsArray.FilterKeepsAll` | extension.ts:80-85 | Filtering a sequence whose every element passes returns it unchanged |
| `JsArray.FilterFilter` | extension.ts:80-86 | Two filters in a row equal one filter on the conjunction of the two callbacks |
| `JsArray.FilterCommutes` | extension.ts:80-86 | The order of two filters in a row does not change the result |
| `JsArray.FindIndex` | prefs.ts:65 | `Array.findIndex`: the result is -1 exactly when no element passes. Otherwise it is a position whose element passes, and no earlier element passes |
| `Extension.GetCurrentMonitor` | extension.ts:91-108 | The three-way rule: the pointer's monitor if `useMouseMonitor` is set, else the focused window's monitor, else the primary monitor. It has no precondition, so it never fails |
| `Extension.FilterWindows` | extension.ts:77-89 | The result is a subsequence of the input. Every result window is on the current monitor, and on the active workspace when the flag is set. Every input window that meets these conditions is in the result |
| `Extension.FilterWindowsIsOneFilter` | extension.ts:80-88 | The two steps equal one filter on "on the current monitor, and on the active workspace if the flag is set". With the flag off the result is the monitor filter alone, so the workspace is never consulted |
| `Extension.SwitcherListCharacterised` | extension.ts:77-89 | Completeness and exactness together: a sequence that is an in-order selection of the input, holds only qualifying windows and holds each qualifying window as often as the input does is the switcher list |
| `Extension.WorkspaceFirstSameList` | extension.ts:80-86 | Filtering on the workspace first and on the monitor second gives the same list as the code's order |
| `Extension.FilterWindowsIdempotent` | extension.ts:77-89 | Filtering the filtered list again with the same monitor, workspace and flag returns it unchanged |
| `Extension.FocusedWindowListed` | extension.ts:99-103 | When the focused window decides the monitor, that window is in the switcher list whenever the host listed it (and, with the flag on, it is on the active workspace) |
| `Extension.Settings.Connect` | extension.ts:40 | Connecting a listener registers it under a positive id that was not in use. The setting values do not change |
| `Extension.Settings.Disconnect` | extension.ts:69 | Disconnecting removes exactly that id's handler |
| `Extension.AltTabCurrentMonitorExtension.constructor` | extension.ts:8-12 | The initial state: no settings object and no saved supplier, `useMouseMonitor` false, `currentWorkspaceOnly` true, no listener ids |
| `Extension.AltTabCurrentMonitorExtension.WindowList` | extension.ts:77-108 | What the patched suppliers return, given the cached flags. The result is an in-order selection of the host's list. Its windows are on the pointer's monitor when `useMouseMonitor` is set. Otherwise they are on the focused window's monitor, or on the primary monitor when no window has focus. They are on the active workspace when `currentWorkspaceOnly` is set. Every host window that meets these conditions is returned |
| `Extension.AltTabCurrentMonitorExtension.Enable` | extension.ts:14-50 | The cached flags equal the store's values. Exactly two new, distinct ids are appended to `settingsChangedId`, one listening to each key, and the earlier ids are kept. The switcher's supplier is saved. Both suppliers are replaced by filtering wrappers around what they were. From the disabled state, every held id is connected on the held store |
| `Extension.AltTabCurrentMonitorExtension.OnUseMouseMonitorChanged` | extension.ts:40-42 | `useMouseMonitor` becomes the store's current value. The frame allows no other field to change |
| `Extension.AltTabCurrentMonitorExtension.OnCurrentWorkspaceOnlyChanged` | extension.ts:46-48 | `currentWorkspaceOnly` becomes the store's current value. The frame allows no other field to change |
| `Extension.AltTabCurrentMonitorExtension.Disable` | extension.ts:52-75 | The id list is empty, and every id that was in it is disconnected from the store: the store's handlers are the old ones minus exactly those ids. The settings handle and the saved slot are cleared. The saved switcher supplier is put back, and the cycler gets the default tab-list supplier. The cached flags do not change. A second `Disable` changes nothing |
| `Prefs.ModifierIndex` | prefs.ts:64-65 | The stored string's position in the table, or -1 exactly when no entry stores it |
| `Prefs.ModifierTableShape` | prefs.ts:42-51 | The table has 8 entries. They store `""`, `Shift`, `Control`, `Alt`, `Super`, `Hyper`, `Caps Lock` and `Meta`, in that order. `""` ("Disabled") is at index 0 |
| `Prefs.ModifierValuesDistinct` | prefs.ts:42-51 | No two table entries store the same string, so a stored string has a unique position |
| `Prefs.ModifierRoundTrip` | prefs.ts:65-75 | Writing the entry for position `i` and looking it up again gives `i` |
| `Prefs.ModifierKeyRow.LoadSelected` | prefs.ts:62-68 | A stored string found in the table selects its entry. A string not in the table leaves the selection unchanged. The frame allows only `selected` to change |
| `Prefs.ModifierKeyRow.OnSelectedNotify` | prefs.ts:71-77 | A position inside the table writes that entry's string, which reads back as the same position. A position outside the table writes nothing |

## Left out

- Prototype patching of `AltTab.WindowSwitcherPopup` and `WindowCyclerPopup` is represented only by `Supplier` markers: `Filtering(inner)`, the saved original, and `NormalTabList`. What a supplier returns when called is not modelled. In the source, the switcher wrapper looks up the saved original through the extension's field each time it is called. The marker records the value saved at `enable`; after a single `enable` the two are the same.
- `disable` gives the cycler a new default function that calls `get_tab_list(NORMAL, null)`, not the function that was there before `enable`. The model records this as the `NormalTabList` marker. The host call itself is not modelled.
- Host queries are inputs, not calls: `global.get_pointer`, `get_monitor_index_for_rect` on a 1x1 rectangle at the pointer, `focus_window`, `get_primary_monitor` and `get_active_workspace`. Workspaces are compared by index rather than by object identity.
- Gio settings persistence and `bind` are not modelled. Signal dispatch is not modelled: the change listeners are methods that the host would call. `getSettings()` is the `Settings` argument of `Enable`.
- Adw/Gtk widget construction, translated captions, and the `use-mouse-monitor`, `prevent-focus-on-other-displays` and `enable-debugging` switch rows of the preferences page are UI only.
- Prefs.ModifierKeyRow: `selected` is an unbounded `int`. In Gtk it is an unsigned position, with 4294967295 meaning "no selection". The source's bounds check rejects that value, just as it rejects any other out-of-range position.
- Extension.AltTabCurrentMonitorExtension.Enable: no property is stated for calling `enable` twice without `disable` in between, beyond the exact new state. The source makes no promise there. A second `enable` saves the first wrapper as the "original", and both wrappers then call that saved field, so the switcher supplier calls itself without end. The model records only the nested marker `Filtering(Filtering(…))` and does not capture that self-call.

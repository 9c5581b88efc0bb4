# clash-dashboard settings and log pages, modelled in Dafny

This project models the sequential logic of two pages of the clash-dashboard
web control panel for the Clash proxy daemon.

- **Settings page** (`settings.dfy`, `coercion.dfy`). The page keeps a local
  record of four port fields: mixed, SOCKS5, HTTP and redir. The record is
  seeded with defaults. It is overwritten wholesale whenever the daemon's
  `general` configuration changes, and a missing remote value becomes 0. A
  keystroke sets one field to JavaScript's `+text` of the typed text. Leaving
  the field commits that one field through `updateConfig`, under the daemon's
  key (`port`, `socks-port`, `mixed-port`, `redir-port`), and then refetches
  `general`. The proxy mode, log level and LAN switch commit one key each
  immediately. The clashX switches go through the native bridge. The page
  object `SettingsPage` has the four fields and a ghost log `calls` of every
  call it makes. The option lists and the clashX flag defaults are pure
  functions.
- **Log page** (`logs_view.dfy`, `scroll_anchor.dfy`, `log_render.dfy`). The
  page seeds its list from the shared log stream reader's `buffer()` and
  subscribes a `data` handler. The handler builds a new array: the old
  entries followed by the batch, each entry stamped with its own clock
  reading.
  On unmount the page unsubscribes that same handler. After every layout, the
  list element is scrolled to the bottom exactly when the height recorded by
  the previous layout equals `scrollTop + clientHeight`; the layout then
  records the current scroll height, or 0 when there is no element. The list
  is an `array`, so "the handler never writes an array it handed out before"
  is a frame property. The colour class of an entry comes from `classnames`
  over four exclusive conditions, and its label is its type upper-cased.

Three facts about the code shape the model:

- The page's list grows without bound (`src/containers/Logs/index.tsx:35`),
  and the reader's own retention is not modelled.
- The handler always overwrites `time`, reading the clock once per entry.
- For port text, the page stores `+text`. The model evaluates the integer
  forms and maps all other text to `NotInteger`.

## Model

| member | source | states |
|---|---|---|
| `NumberCoercion.ToNumber` | src/containers/Settings/index.tsx:203 | `+text` of the typed text: blank text is 0, and text that starts with a digit never gives a negative number |
| `NumberCoercion.ToNumberShowInt` | src/containers/Settings/index.tsx:200-204 | reading back the unchanged text an input box shows for an integer port value gives that same integer |
| `NumberCoercion.TrimStart` | src/containers/Settings/index.tsx:203 | the white space `+` ignores before the number: the result is a suffix, starts with no white space, and only white space was dropped |
| `NumberCoercion.TrimEnd` | src/containers/Settings/index.tsx:203 | the same for trailing white space |
| `Settings.ExternalKey` | src/containers/Settings/index.tsx:62-80 | the HTTP port is committed under `port`, SOCKS5 under `socks-port`, mixed under `mixed-port` and redir under `redir-port`, each key belonging to that field alone |
| `Settings.ExternalKeyInjective` | src/containers/Settings/index.tsx:62-80 | the four port fields are committed under four distinct daemon keys |
| `Settings.PortInfo.With` | src/containers/Settings/index.tsx:174 | `set(field, v)` gives the field the value `v` and leaves the other three fields unchanged |
| `Settings.Resynced` | src/containers/Settings/index.tsx:31-36 | after a `general` change, every port field is the remote value, or 0 when the value or `general` itself is absent |
| `Settings.Commit` | src/containers/Settings/index.tsx:38-46 | a commit issues one `updateConfig` whose object has exactly the one key with the chosen value, then a refetch of `general` only if the update succeeded |
| `Settings.SavePortSendsOnlyItsField` | src/containers/Settings/index.tsx:62-80 | saving a port sends its current local value under its own key, and no other port's key |
| `Settings.EditThenSave` | src/containers/Settings/index.tsx:198-205 | typing the decimal text of `n` into a port field and leaving it commits exactly `{key: n}`, then refetches |
| `Settings.HttpPort8080` | src/containers/Settings/index.tsx:62-65 | setting the HTTP port to "8080" and saving sends exactly `{ port: 8080 }` and one refetch |
| `Settings.SettingsPage.constructor` | src/containers/Settings/index.tsx:24-29 | the initial fields are mixed 0, SOCKS5 7891, HTTP 7890 and redir 7892, and no call has been made |
| `Settings.SettingsPage.Resync` | src/containers/Settings/index.tsx:31-36 | the resync effect overwrites all four fields with `Resynced(general)`, whatever edits came before, and makes no call |
| `Settings.SettingsPage.ChangePort` | src/containers/Settings/index.tsx:171-205 | a keystroke sets only the edited field, to `+text`; the other fields and the call log are unchanged |
| `Settings.SettingsPage.SavePort` | src/containers/Settings/index.tsx:62-80 | a blur appends the single-key update of the current local value, then the refetch if the update succeeded; the fields are unchanged |
| `Settings.SettingsPage.ProxyModeChange` | src/containers/Settings/index.tsx:38-41 | commits `{ mode }` at once, then the refetch; no local state changes |
| `Settings.SettingsPage.LogLevelChange` | src/containers/Settings/index.tsx:43-46 | commits `{ 'log-level': logLevel }` at once, then the refetch |
| `Settings.SettingsPage.AllowLanChange` | src/containers/Settings/index.tsx:82-85 | commits `{ 'allow-lan': state }` at once, then the refetch |
| `Settings.SettingsPage.StartAtLoginChange` | src/containers/Settings/index.tsx:48-51 | calls the bridge when there is one, then refetches the clashX data unless the bridge call failed |
| `Settings.SettingsPage.SystemProxyChange` | src/containers/Settings/index.tsx:53-56 | the same for the system-proxy switch |
| `Settings.SettingsPage.ChangeLanguage` | src/containers/Settings/index.tsx:58-60 | records one `setLang` call and commits nothing to the daemon |
| `Settings.ProxyModeOptions` | src/containers/Settings/index.tsx:98-108 | the modes are Global, Rule and Direct in that order, with Script fourth and last if and only if the core is premium; all captions are translation keys |
| `Settings.LogLevelOptions` | src/containers/Settings/index.tsx:110-116 | the levels debug, info, warning, error and silent in that order, each captioned by its own name except warning, captioned "warn" |
| `Settings.Flags` | src/containers/Settings/index.tsx:94-96 | each clashX flag is true exactly when the data is present and the flag in it is true; absent data gives all false |
| `ScrollAnchor.Anchor` | src/containers/Logs/index.tsx:27-28 | if the recorded height equals `scrollTop + clientHeight`, the view ends at the bottom (`scrollTop = scrollHeight - clientHeight`); otherwise nothing moves; the heights are never changed |
| `ScrollAnchor.Pass` | src/containers/Logs/index.tsx:30 | a layout pass records the current scroll height |
| `ScrollAnchor.PinnedFollowsContent` | src/containers/Logs/index.tsx:25-31 | a pinned view stays pinned and ends at the bottom of the last content over any number of layouts |
| `ScrollAnchor.ScrolledUpStaysPut` | src/containers/Logs/index.tsx:25-31 | a view scrolled up keeps its offset and stays unpinned while the content only grows |
| `LogRender.Selected` | src/containers/Logs/index.tsx:59-64 | `classnames` keeps a key exactly when its condition is true |
| `LogRender.SelectedAppend` | src/containers/Logs/index.tsx:59-64 | `classnames` keeps the keys in their order: selecting from a concatenation concatenates the selections |
| `LogRender.SelectedExactlyOne` | src/containers/Logs/index.tsx:59-64 | `classnames` with exactly one true condition yields exactly that class |
| `LogRender.SelectedNone` | src/containers/Logs/index.tsx:59-64 | `classnames` with no true condition yields no class |
| `LogRender.TypeClass` | src/containers/Logs/index.tsx:59-64 | debug is teal, error rose, warning pink, info sky, and any other type has no class |
| `LogRender.Upper` | src/containers/Logs/index.tsx:64 | the label has the type's length and each character upper-cased |
| `LogsView.Stamped` | src/containers/Logs/index.tsx:35 | a batch keeps its length and order, each entry equal to the input except `time`, which is the clock reading taken for that entry |
| `LogsView.StampedAppend` | src/containers/Logs/index.tsx:35 | stamping two batches in turn equals stamping their concatenation with the concatenated clock readings |
| `LogsView.LogsStreamReader.Subscribe` | src/containers/Logs/index.tsx:40 | subscribing adds the handler to the reader's `data` listeners |
| `LogsView.LogsStreamReader.Unsubscribe` | src/containers/Logs/index.tsx:45 | unsubscribing removes exactly that handler, and is a no-op when it is absent |
| `LogsView.LogsView.constructor` | src/containers/Logs/index.tsx:12-18 | the list and the render state start empty; the recorded height is the element's scroll height, or 0 when there is no element |
| `LogsView.LogsView.HandleLog` | src/containers/Logs/index.tsx:34-37 | the list becomes a new array holding the old entries then the stamped batch, and becomes the render state; the previous list, the previous render state and the reader's buffer are not written |
| `LogsView.LogsView.Attach` | src/containers/Logs/index.tsx:39-43 | on a page with no handler yet: with a reader, a new handler is subscribed and the list and render state are the reader's `buffer()`; without one, nothing is subscribed and the list stays |
| `LogsView.LogsView.Detach` | src/containers/Logs/index.tsx:45 | the cleanup removes exactly the handler the effect subscribed, so the page is no longer subscribed |
| `LogsView.LogsView.Deliver` | src/containers/Logs/index.tsx:33-46 | a dispatched batch is appended only while the page's handler is subscribed; otherwise the list is untouched |
| `LogsView.LogsView.Layout` | src/containers/Logs/index.tsx:25-31 | the element's geometry becomes `Anchor(recorded, geometry)`, and the recorded height becomes its scroll height, or 0 without an element |

## Left out

- Network I/O: `client.updateConfig`, the `general` and clashX fetch hooks and the native bridge are not executed. Each call is appended to the ghost log `SettingsPage.calls`. A call's success or failure is a parameter, and a failure ends the handler before its refetch.
- The refetch does not feed back into `Resync`. React re-runs the resync effect when `general` changes; here the caller invokes `SettingsPage.Resync` with the new snapshot.
- Clock: `new Date()` is read once per entry inside the `map` callback. The readings are the parameter `times` of `HandleLog` and `Deliver`, one per entry; nothing is assumed about their order.
- React scheduling: each handler and effect runs to completion when it is called, in the order called. Effects are not triggered automatically by renders.
- Rendering: JSX layout, styling, `dayjs` time formatting and the unused `InfoColors` table are not modelled. The external-controller label and its `setIdentity(false)` click handler (src/containers/Settings/index.tsx:207-214) are navigation, not settings state.
- i18n: `t(...)` captions are the opaque `Translated(key)`. `capitalize(mode)` and `camelCase(logLevel)` only choose which option shows as selected, and are not modelled.
- NumberCoercion.ToNumber: only white space, an optional sign and decimal digits are evaluated. JavaScript also converts fractions, exponents, `0x`/`0o`/`0b` prefixes and `Infinity`; here these give `NotInteger`, which also stands for NaN. Only eight white-space characters are trimmed. Double-precision rounding of integers beyond 2^53 is not modelled.
- LogRender.Upper: upper-cases ASCII letters only. JavaScript's `toUpperCase` also maps other scripts, and can change the length ("ß" becomes "SS").
- Scroll geometry is integral. The browser's clamping of `scrollTop` to `[0, scrollHeight - clientHeight]` is not modelled, and neither are fractional heights.
- The log stream reader in `@stores` is not part of this model. Its buffer is an abstract array that `buffer()` returns as it is, aliasing being the worst case. Its listeners are a set of handler objects for the one event name `data`. Its capacity, eviction and dispatch loop are not modelled. `LogsView.Deliver` stands for the reader calling this page's handler.
- A change of the reader's identity while the page is mounted (the effect's dependency) is not modelled. The reader of a `LogsView` is fixed; a new reader means a new page object.

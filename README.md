# electron-dl: save-path resolution and download lifecycle

A Dafny model of `index.js` of electron-dl. This is the glue that an Electron app
registers on a session's `will-download` event. For each new download item the
listener does four things:

- It picks a save path: the directory option or the downloads folder, then the
  filename option or a suggested name completed from the MIME type. That name
  then goes through the unused-filename helper.
- It sets the item's save path, unless `saveAs` defers the choice to the native
  dialog.
- On each `updated` tick it may cancel the item.
- On `done` it turns the item's final state into a callback. When
  `unregisterWhenDone` is set, it also removes itself from the session.

`download(win, url, opts)` registers such a listener once, with
`unregisterWhenDone` forced on. Its callback settles a promise.

The model has three modules:

- `Paths` (paths.dfy) holds the pure decisions of index.js:11-44.
  - `FilenameFromMime` is `getFilenameFromMime`.
  - `ChosenName`, `Directory` and `ResolveFilePath` make the path choice.
  - `ErrorTemplate` and `CanceledTemplate` apply the message-template defaults.
  - The foreign helpers are the fields of `Env`: `path.join`, `path.extname`,
    `extName.mime`, `unusedFilename.sync`, `app.getPath('downloads')`, whether a
    path exists on disk, and pupa's `{filename}` substitution. They are
    arbitrary functions, so every property proved holds whatever they compute.
    Two lemmas take an assumption about one helper as a precondition:
    `UnusedAvoidsCollisions` for unused-filename and `FillKeepsBraceFreeText`
    (a template with no `{` comes back unchanged) for pupa.
- `Emitter` (emitter.dfy) holds the session's listener array.
  - `on` appends.
  - `removeListener` drops the most recently added occurrence (`RemoveLast`).
- `Downloads` (downloads.dfy) holds the imperative side.
  - `Item` has `savePath` and `cancelled` fields.
  - `Session` holds `listeners: seq<Listener>`.
  - A `Listener` class is the registered closure. Its methods `WillDownload`
    (the listener body), `Updated` and `Done` are the two item handlers.
  - `Promise` is the promise returned by `download`.
  - `RegisterListener`, `OneShot` and `Download` model registration and the
    wrapper.

Option strings are modelled as `string`, with `""` standing for "absent or
empty". JavaScript treats both as false, and the code only tests these fields
for truth. Each boolean option is a `bool`. `typeof opts.onCancel === 'function'`
is the flag `hasOnCancel`. The value `onCancel()` returns on a tick is a
parameter of `Updated`.

The callback runs only for `interrupted`, `cancelled` and `completed`
(index.js:72-90). For any other `done` state there is no call, so the promise
of `download` stays pending even though the listener is removed
(index.js:91-93; `DoneEffectOf`, `DownloadLifecycle`).

The folder reveal on completion targets the path computed when the download
started (index.js:86). With `saveAs` set, that path was never given to the
item (index.js:46-48), so the revealed path need not be where the user saved
the file (`DoneEffectOf`, `DownloadLifecycle`).

## Model

| member | source | states |
|---|---|---|
| `Paths.FilenameFromMime` | index.js:11-19 | The name is kept as a prefix. The result equals the name exactly when the MIME lookup yields zero or several extensions. With exactly one extension, what is appended is `"."` plus that extension. |
| `Paths.ChosenName` | index.js:37 | A suggested name that has an extension is kept as is. A name without an extension becomes `FilenameFromMime` of it. So the name changes only when there is no extension and exactly one MIME extension, and then only by appending `"."` plus that extension. |
| `Paths.Directory` | index.js:30 | The directory is `opts.directory` when that is truthy. Otherwise it is the downloads folder. |
| `Paths.ErrorTemplate` | index.js:42 | The interrupted-message template is never empty. It is the caller's template when one is given. Otherwise it is the default, which contains `{filename}`. |
| `Paths.CanceledTemplate` | index.js:44 | The same for the canceled-message template and its default. |
| `Paths.DefaultTemplatesMentionFilename` | index.js:42-44 | Both default templates contain the `{filename}` placeholder. |
| `Paths.ResolveFilePath` | index.js:30-40 | With a filename option, the path is `join(dir, filename)` with no unused-filename step, whatever the item suggests. Without one, the path is `unused(join(dir, ChosenName(...)))`. |
| `Paths.ResolvedPathIsFree` | index.js:36-40 | Assume unused-filename keeps its promise. Then a path resolved without a filename option never exists on disk. It equals `join(dir, name)` whenever that path is free. |
| `Paths.ExplicitFilenameMayOverwrite` | index.js:34-35 | An explicit filename gets no collision check. Even when unused-filename keeps its promise, the resolved path can be an existing file. |
| `Emitter.RemoveLast` | index.js:92 | `removeListener` removes exactly one occurrence of the listener, if there is one, and keeps the multiset of the other listeners. An absent listener leaves the array unchanged. |
| `Emitter.RemoveLastSplit` | index.js:92 | Take a listener registered once, with any listeners added before and after it. Removing it leaves exactly the others, in their order. |
| `Emitter.RemovedOnceRegistered` | index.js:92-97 | A listener that occurs once is no longer present after removal. |
| `Downloads.Session.On` | index.js:97 | Registration appends the listener to the session's `will-download` listeners. |
| `Downloads.Session.RemoveListener` | index.js:92 | Removal leaves `RemoveLast` of the old listeners. |
| `Downloads.Listener.WillDownload` | index.js:29-48 | The captured path is `ResolveFilePath` of the options and the item. The captured templates are the defaulted ones. The item's save path becomes that path if and only if `saveAs` is off. The item's `cancelled` flag is untouched. |
| `Downloads.Listener.Updated` | index.js:60-64 | After a tick the item is cancelled exactly when it already was, or when `onCancel` is a function that answered true. The save path is unchanged. |
| `Downloads.DoneEffectOf` | index.js:72-90 | No callback exactly for an unknown state. The item is passed exactly for `completed`. `interrupted` gives an error from the filled error template and `cancelled` one from the filled cancel template. The folder reveal happens exactly when the state is `completed` and `openFolderWhenDone` is set, and it targets the captured `filePath`. |
| `Downloads.PlainMessageVerbatim` | index.js:73-79 | Assume the template helper keeps text that has no `{`. Then such a template reaches the error callback verbatim. |
| `Downloads.Listener.Done` | index.js:67-94 | The effect is `DoneEffectOf`. With `unregisterWhenDone`, this listener is removed in every state and no other listener is touched. Without it, the listeners are unchanged. The promise of a `download` listener is settled by `Settle`. |
| `Downloads.Settle` | index.js:109-115 | A pending promise is resolved exactly when the callback got the item, and rejected with the message exactly when it got an error. It stays pending when no callback came. A settled promise never changes. |
| `Downloads.RegisterListener` | index.js:21-98 | A fresh listener carrying the options and callback is appended to the session's listeners. |
| `Downloads.OneShot` | index.js:107 | `unregisterWhenDone` is on and every other option is the caller's. |
| `Downloads.Download` | index.js:106-118 | Returns a pending fresh promise and a fresh listener with the one-shot options that settles it. The listener is appended to the session. |
| `Downloads.DownloadLifecycle` | index.js:106-118 | Over a whole download, following the one-shot listener's handlers, with another listener registered on the same session after the download started, several things hold. The save path is the resolved one unless `saveAs` is set, and the item's `cancelled` flag is unchanged. The listeners end as the old ones plus the other listener, so the one-shot listener is gone and a later download cannot reach it. A reveal on completion with `openFolderWhenDone` targets the resolved path, whatever `saveAs` did. The promise resolves with the item exactly on `completed`. It is rejected exactly on `interrupted` or `cancelled`, with the filled template as message. |

## Left out

- Progress reporting (index.js:51-58, 68-70) is not modelled. This covers the `receivedBytes / totalBytes` ratio, `onProgress` and the window's progress bar. They are floating-point division and Electron UI calls.
- The webview/`hostWebContents` lookup and `BrowserWindow.fromWebContents` (index.js:23-28) are not modelled. They are Electron plumbing.
- `app.dock.downloadFinished` on macOS and the `process.platform` test (index.js:81-83) are not modelled. They are platform-specific foreign calls.
- The global `app.on('session-created', ...)` registration (index.js:100-104) is not modelled. It is event-loop wiring; on each new session it calls `RegisterListener` with `Discard`.
- Promise asynchrony is not modelled. `Promise` records only pending, resolved or rejected.
- `win.webContents.downloadURL(url)` (index.js:117) is not modelled. It is a host call that starts the download, so `Download` takes the window's session and no URL.
- `errorTitle` and the commented-out dialog calls (index.js:43, 74, 78) are not modelled. They have no effect.
- The internals of `path.join`, `path.extname`, ext-name's MIME table, unused-filename's filesystem probing and pupa's template language are not modelled. They are the uninterpreted fields of `Env`. Nothing is assumed about them beyond the two optional facts named above.
- The options are copied by value when a listener is registered. The code instead reads the caller's `opts` object each time the listener or a handler runs (index.js:30-46, 60, 85, 91), and the global registration keeps the caller's own object (index.js:100-102). So a change to that object after registration, which would affect later downloads, is not modelled.
- Options whose values are not strings or booleans are not modelled, for example a number passed as `directory`. Only their truthiness matters to the code.
- The host runtime's dispatch of events is not modelled. This includes the fact that every listener on a session sees every item. Concurrent `download` calls on one session can therefore bind a one-shot listener to another call's item. This follows from scoping the listener to the session, and the model does not exhibit it.
- The handlers are modelled as always running to the end. In the code a throw from a foreign call stops a handler early. `BrowserWindow.fromWebContents` (index.js:28) returns null for a webContents that no window owns; `win.isDestroyed()` then throws at index.js:52, before `onCancel` is polled (index.js:60-64), and at index.js:68, before the callback and the unregister (index.js:72-93). A throw from pupa (index.js:73, 77) or from `cb` also skips the unregister (index.js:91-93). So `Downloads.Listener.Updated` and `Downloads.Listener.Done`, including "this listener is removed in every state", hold only when none of these throws.
- `Downloads.DownloadLifecycle` runs only the one-shot listener's handlers on the item; listeners already on the session when the download starts would also receive it and could set the save path too.
- `Downloads.DownloadLifecycle` covers one `done` event and no `updated` ticks; the effect of a tick is stated by `Downloads.Listener.Updated` on its own.

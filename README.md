# iv host bridge, modelled in Dafny

This project models the bookkeeping core of the `iv` image viewer's host
process, `iv/view.py`. That core sits between the embedded web engine and the
page script that draws the image grid. The model covers five pieces.

- **Settings store** (`settings.dfy`, module `Settings`). The settings are
  cached per process. The first read starts from three defaults
  (`thumbnail_size` 128, `show_captions` true, `show_single_caption` true)
  and overlays the settings file when it holds a JSON object. An update
  shallow-merges a patch into the cached object and writes the whole object
  back. `ConfigStore` is the mutable store. `ReadConfig` and `UpdateConfig`
  are its specification on values.
- **Injected scripts** (`scripts.dfy`, module `Scripts`). A script record is
  built with its defaults: application world, document creation, runs on
  subframes. The per-session data script is also modelled. Inserting a batch
  into a profile's script collection first removes every entry named like a
  batch member, then appends the batch in order.
- **User-agent filter** (`user_agent.dfy`, module `UserAgent`). This is the
  whitespace split, the removal of tokens containing `QtWebEngine`, and the
  single-space join.
- **Message dispatch** (`bridge.dfy`, module `Bridge`). The page's answer is
  a batch of JSON objects. An empty answer or `[]` does nothing. Otherwise
  each message's `func` names a handler, resolved through an explicit
  seven-entry table. An unknown name is skipped. A known name runs its
  handler on the message minus `func`. `Page` holds the host state the
  handlers change: the last title emitted, the refresh requests emitted, the
  quit request, the dialogs shown and the settings store.
- **Teardown** (`session.dfy`, module `Session`). Constructing a `View` wires
  the page's two signals and the view's polling and crash signals.
  `BreakCycles` drops the page and disconnects all six signals. It can run
  only once.

Behaviour of the code that the model keeps:

- The first read caches the defaults before it reads the file. If the file
  does not decode, that read raises, but every later read returns the bare
  defaults. A later update then overwrites the undecodable file.
- The cache is merged before the file is written, so a failed write leaves
  the cache merged. If the file cannot be opened for writing, it stays as it
  was. Opening it for writing truncates it, though. A write that fails after
  the open leaves a strict prefix of the JSON text, which no longer decodes.
  The next process then loses every stored setting. `update_config` does not
  create the settings directory.
- A handler failure is not caught. The exception ends the batch. Messages
  before it keep their effects; messages after it do not run. A message
  without `func`, or with a non-string `func`, also raises and ends the
  batch. Only an unresolvable name is skipped.
- `unhandled_error` never shows its dialog; its guard is a constant false.
- `set_wallpaper` catches only a non-zero exit and a missing tool. Any other
  failure to start the tool raises and ends the batch.
- `files_data` reads the settings itself. When that read raises, no script
  is built, and a second attempt binds the bare defaults.

Things outside Dafny are parameters. URL-to-path conversion and the outcome
of the wallpaper tool are fields of `Bridge.Env`. The JSON text encoder is an
argument of `FilesData`. How writing the settings file goes is part of the
store's state (`Settings.WriteAccess`). The decoded batch is an argument next to the raw
answer text. JSON text is not modelled: the settings file holds a decoded
JSON value, and a successful write stores the merged object itself.

## Model

| member | source | states |
|---|---|---|
| `Settings.Merge` | iv/view.py:81 | Shallow update: the keys are the union, the patch's keys win, every other key keeps its value, nothing is removed |
| `Settings.ReadConfig` | iv/view.py:62-76 | A read never touches the file. Afterwards something is always cached. A cached read returns the cache and changes nothing. It fails exactly on a first read of an undecodable file, and then the bare defaults stay cached. A successful read returns what is cached. Default keys stay present |
| `Settings.UpdateConfig` | iv/view.py:79-84 | The cache becomes the read config merged with the patch. On success the file holds exactly that object. A decode failure happens exactly when the read fails. The store is then left exactly as the failed read left it: the bare defaults cached, the patch lost, the file unchanged. A write failure happens exactly when the read succeeds and the write does not go through. The file then stays if it could not be opened, and no longer decodes if the write failed after the open. Default keys stay present |
| `Settings.FirstReadWithoutFile` | iv/view.py:62-76 | With no settings file, the first read yields exactly {thumbnail_size:128, show_captions:true, show_single_caption:true} |
| `Settings.FirstReadOverlaysObject` | iv/view.py:69-73 | A file holding an object overrides or extends the defaults: its keys win, the other defaults remain |
| `Settings.FirstReadIgnoresNonObject` | iv/view.py:72-73 | A file holding a non-object leaves the defaults as they are |
| `Settings.CachedReadIgnoresFile` | iv/view.py:63-76 | Once cached, a read returns the cache whatever the file holds |
| `Settings.MergeLaw` | iv/view.py:79-81 | Two successive merges equal one merge with the merged patch |
| `Settings.MergeIdempotent` | iv/view.py:81 | Merging the same patch twice equals merging it once |
| `Settings.UpdateTwiceIsOnce` | iv/view.py:79-84 | When the read succeeds, repeating an update leaves the store exactly as one update does |
| `Settings.OverlayOnDefaults` | iv/view.py:64-73 | A config that already has the default keys is unchanged when overlaid on the defaults |
| `Settings.ReloadAfterUpdate` | iv/view.py:62-84 | After a successful update, a fresh process's first read returns exactly the merged config |
| `Settings.TruncatedWriteLosesSettings` | iv/view.py:62-84 | After a write that fails once the file is open, the next process's first read raises. From then on that process reads the bare defaults |
| `Settings.ConfigStore.constructor` | iv/view.py:63 | A new process has nothing cached |
| `Settings.ConfigStore.Read` | iv/view.py:62-76 | The result and the new store state are exactly `ReadConfig` of the old state |
| `Settings.ConfigStore.Update` | iv/view.py:79-84 | The fault and the new store state are exactly `UpdateConfig` of the old state and the patch |
| `Scripts.CreateScriptDefaults` | iv/view.py:31-39 | A script built without options keeps its name and source and runs in the application world, at document creation, on subframes |
| `Scripts.CreateScript` | iv/view.py:31-39 | Each argument lands in the field its setter names: source, name, world, injection point, subframes |
| `Scripts.FilesData` | iv/view.py:87-90 | The data script reads the settings itself, and the store moves on exactly as that read moves it. It raises exactly when the read raises, and then the bare defaults are what later reads see. Otherwise it is files-data.js with the defaults, binding image_data and then exactly the settings every later read returns |
| `Scripts.FilesDataRetry` | iv/view.py:62-90 | A data script whose settings read raised is built on the next attempt, binding the bare defaults |
| `Scripts.FilesDataSeesUpdate` | iv/view.py:79-90 | A data script built after a settings update binds the merged settings, even when writing the file failed |
| `Scripts.WithName` | iv/view.py:96 | The collection's find: exactly the entries with that name |
| `Scripts.Without` | iv/view.py:97 | The collection's remove: exactly the entries not equal to the removed one |
| `Scripts.RemoveNamed` | iv/view.py:95-97 | The entries kept are exactly those whose name is not removed |
| `Scripts.Replaced` | iv/view.py:93-99 | After inserting a batch, an entry is present exactly when it is an old entry under a name the batch does not use, or a batch member. The collection ends with the batch, in order |
| `Scripts.RemoveNamedAppend` | iv/view.py:95-97 | Removal by name works piecewise over a concatenation, so kept entries keep their relative order |
| `Scripts.OthersUntouched` | iv/view.py:93-99 | After inserting a batch, the entries under any name the batch does not use are exactly the old ones, in the old order |
| `Scripts.BatchNamesReplaced` | iv/view.py:93-99 | After inserting a batch, the entries under any name the batch uses are exactly the batch's entries of that name |
| `Scripts.InsertTwiceLeavesOne` | iv/view.py:93-99 | Inserting two same-named scripts in a row, such as files-data.js, leaves exactly one entry of that name: the later one |
| `Scripts.DataScriptOnce` | iv/view.py:87-112 | Setting up scripts twice on one collection, data script first and page script second, leaves exactly one files-data.js entry: the later data script |
| `Scripts.DropByName` | iv/view.py:96-97 | Removing every found entry of a name equals removing that name |
| `Scripts.RemoveExisting` | iv/view.py:96-97 | The inner loop leaves the collection without any entry of that name, the rest in order |
| `Scripts.InsertScripts` | iv/view.py:93-99 | The collection becomes the old entries whose names the batch does not use, followed by the batch in order |
| `Scripts.ScriptCollection.Remove` | iv/view.py:97 | Removes every entry equal to the given script |
| `Scripts.ScriptCollection.Insert` | iv/view.py:99 | Appends the script |
| `UserAgent.SkipSpaces` | iv/view.py:110 | Leading whitespace is dropped: the result is a suffix that starts with non-whitespace, and everything dropped is whitespace |
| `UserAgent.WordLength` | iv/view.py:110 | The length of the maximal whitespace-free prefix |
| `UserAgent.Split` | iv/view.py:110 | Every token is non-empty and free of whitespace |
| `UserAgent.SplitByCharacters` | iv/view.py:110 | The split equals an independent character-by-character scan. Whitespace separates, and a non-whitespace character continues the token of the next character, or starts its own before whitespace or the end |
| `UserAgent.SplitKeepsCharacters` | iv/view.py:110 | The tokens, concatenated, are exactly the string's non-whitespace characters in order |
| `UserAgent.Join` | iv/view.py:110 | A join is as long as its words plus one separator between each pair of neighbours, and begins with the first character of its first word |
| `UserAgent.JoinSpacing` | iv/view.py:110 | A join of tokens is empty exactly when there are no tokens, and its only whitespace characters are plain spaces |
| `UserAgent.ContainsAt` | iv/view.py:110 | `'QtWebEngine' in x` holds exactly when the marker occurs at some position of the token |
| `UserAgent.KeepTokens` | iv/view.py:110 | A token is kept exactly when it does not contain QtWebEngine |
| `UserAgent.SplitJoin` | iv/view.py:110 | Splitting a single-space join of tokens gives the tokens back |
| `UserAgent.FilterUserAgent` | iv/view.py:110 | The filtered user agent splits into exactly the tokens of the original that do not contain QtWebEngine, in their original order. It is empty exactly when no token is kept. Otherwise its length is the kept tokens' plus one per gap, and its only whitespace is plain spaces, so it is the single-space join |
| `UserAgent.NoEngineToken` | iv/view.py:110 | No token of the filtered user agent contains QtWebEngine |
| `UserAgent.FilterIdempotent` | iv/view.py:110 | Filtering twice gives the same result as filtering once |
| `Bridge.Basename` | iv/view.py:175 | The result is the suffix after the last '/': it contains no '/' and is the whole path or follows a '/' |
| `Bridge.BasenameUnique` | iv/view.py:175 | Those three properties determine the basename uniquely |
| `Bridge.Payload` | iv/view.py:158 | The handler's payload has every key of the message except func, each with its value |
| `Bridge.LocalPath` | iv/view.py:175 | The url is missing (KeyError) or not a string exactly when the path lookup fails with that error. Otherwise the path is the URL's local file |
| `Bridge.WallpaperDialogs` | iv/view.py:184-193 | One wallpaper-error dialog exactly when the tool exited non-zero or is not installed, with that outcome's text. None otherwise |
| `Bridge.Handle` | iv/view.py:168-196 | Each handler's effect, and nothing else changes. update_settings moves the store exactly as the settings update does and raises exactly its error. showing_grid clears the title. showing_image raises exactly when the url is missing or not a string, and otherwise sets the title to the basename of the local path. refresh_grid adds one refresh. set_wallpaper raises the url's error, or the tool's when it cannot be started. Otherwise it appends exactly the dialogs of the tool's outcome. exit_application requests quit. unhandled_error changes nothing. Only update_settings, showing_image and set_wallpaper can raise, and only update_settings changes anything when it raises |
| `Bridge.Deliver` | iv/view.py:151-159 | A message without func raises exactly MissingFunc. One with a non-string func raises exactly FuncNotString. An unresolved name changes nothing. Any raise other than a settings error leaves the host unchanged. Refreshes and dialogs only grow, quit stays requested, and the default keys stay |
| `Bridge.Dispatch` | iv/view.py:153-159 | An empty batch changes nothing. Over any batch, refreshes and dialogs only grow, quit stays requested, and the default keys stay |
| `Bridge.Received` | iv/view.py:151-159 | An empty answer or "[]" changes nothing. Any other answer dispatches the decoded batch. Either way refreshes and dialogs only grow, quit stays requested, and the default keys stay |
| `Bridge.DispatchOne` | iv/view.py:151-159 | A batch of one message has exactly that message's effect and fault |
| `Bridge.EmptyAnswerIsNoOp` | iv/view.py:152 | An empty answer or "[]" runs no handler and changes no state |
| `Bridge.HandlerGetsPayload` | iv/view.py:155-159 | A resolved message runs its table handler on the message minus func |
| `Bridge.DispatchAppend` | iv/view.py:153-159 | Messages run in array order: a batch is its prefix followed by its suffix, unless the prefix raised |
| `Bridge.DispatchSkipsUnknown` | iv/view.py:154-157 | A message whose name does not resolve is skipped, and the messages after it still run |
| `Bridge.FaultEndsBatch` | iv/view.py:153-159 | A message that raises ends the batch. Nothing after it runs, and earlier effects stay |
| `Bridge.RefreshesCounted` | iv/view.py:181-182 | A batch that runs to the end emits exactly one refresh per refresh_grid message |
| `Bridge.CatBasename` | iv/view.py:175 | The basename of /a/b/cat.png is cat.png |
| `Bridge.ImageUnknownRefresh` | iv/view.py:151-182 | The batch [showing_image of cat.png, an unknown name, refresh_grid] raises nothing. It ends with title cat.png and exactly one more refresh, and nothing else changes |
| `Bridge.Page.constructor` | iv/view.py:136-137 | A new page has emitted nothing, shares the given settings store, and has no connected signals |
| `Bridge.Page.BreakCycles` | iv/view.py:139-141 | Both page signals are disconnected; nothing else changes |
| `Bridge.Page.OnUpdateSettings` | iv/view.py:168-169 | The store takes the `UpdateConfig` state, and the settings error, if any, is the fault |
| `Bridge.Page.OnShowingGrid` | iv/view.py:171-172 | Title cleared. Nothing else changes, signal connections included |
| `Bridge.Page.OnShowingImage` | iv/view.py:174-175 | The state and fault are exactly those of `Handle` for showing_image. The signal connections stay |
| `Bridge.Page.OnRefreshGrid` | iv/view.py:181-182 | One more refresh. Nothing else changes, signal connections included |
| `Bridge.Page.OnSetWallpaper` | iv/view.py:184-193 | The state and fault are exactly those of `Handle` for set_wallpaper. The signal connections stay |
| `Bridge.Page.OnExitApplication` | iv/view.py:195-196 | Quit requested. Nothing else changes, signal connections included |
| `Bridge.Page.Call` | iv/view.py:155-159 | The handler named by the table runs with exactly the effect `Handle` gives it. The signal connections stay |
| `Bridge.Page.MessagesReceived` | iv/view.py:151-159 | The loop leaves the host state and fault exactly as `Received` gives them for the old state. The signal connections stay |
| `Session.View.constructor` | iv/view.py:204-212 | A fresh page on the given store; both page signals connected; the title-change trigger and render-process signal connected |
| `Session.View.Connect` | iv/view.py:201-202 | An owner connecting one of the view's own signals adds exactly that signal, and the page stays |
| `Session.View.OnTitleChanged` | iv/view.py:147-149 | While the trigger is connected, a poll dispatches the page's answer exactly as `Received` does. It keeps the page's connections, and an active view stays active |
| `Session.View.BreakCycles` | iv/view.py:214-220 | Only from the active state. Afterwards the page reference is null and all six signals are disconnected. The page's other state is untouched. The view is no longer active, so a second teardown cannot follow. With the title-change trigger disconnected, no new poll can start |
| `Session.PollThenTeardown` | iv/view.py:209-220 | An active view can take a poll and then be torn down. The poll's effect is exactly `Received`'s, and afterwards the page is dropped and every signal of view and page is disconnected |

## Left out

- `client_script` (iv/view.py:42-59). It compiles the page script with an external compiler, keyed on file modification times, and is cached. That is a subprocess, the filesystem and floats.
- `setup_profile` (iv/view.py:102-118) apart from the user-agent filter. Cache and storage paths, `safe_makedirs`, engine settings and the default profile are construction over the foreign engine. The user agent it reads is the argument of `FilterUserAgent`.
- `path_to_url` and `file_metadata` (iv/view.py:122-128). These are URL encoding and `os.stat` with float times.
- Console logging, `calljs`, `image_changed`, `refresh_files` and `render_process_terminated` (iv/view.py:143-145, 161-166, 222-234). These are logging, asynchronous calls into the page, and dialogs about the renderer.
- The asynchronous poll itself (iv/view.py:147-149). `View.OnTitleChanged` receives the page's answer as text, together with what it decodes to. An answer that does not decode to a list of objects is not part of this model. Neither is a non-text answer other than none, which the empty string stands for.
- JSON text. `json.loads`/`json.dumps` (indentation, key order, escaping) are taken as an exact round trip over the `Json` datatype. JSON floating-point numbers are not modelled.
- `Bridge.Deliver` resolves names through a seven-entry table. The code's `getattr` would also resolve any other attribute of the page object and call it. That is a deliberate narrowing.
- `QUrl(...).toLocalFile()` is an uninterpreted function in `Env`. A `url` that is not a string is taken to raise.
- The wallpaper tool is run through an uninterpreted function in `Env` that gives its outcome. A non-zero exit, a missing tool and any other failure to start it (`CouldNotStart`, which raises) are its outcomes. The text of that last error is opaque. Dialog texts are the untranslated strings.
- `QApplication.quit()` is a flag. Its effect on the event loop is not modelled, and messages after it in the batch still run.
- `Bridge.Host.title` holds the last title the page emitted. Forwarding it to the window and showing it are outside this file.
- Qt's script collection is foreign. Its `remove` is modelled as removing every equal entry. With removal of only the first equal entry the outcome of `insert_scripts` would be the same, because every found entry is removed.
- PyQt raises when a signal with no connection is disconnected. `View.BreakCycles` and `Page.BreakCycles` therefore require every signal to be connected. The view's own title and refresh signals are connected by its owner, outside this file, through `View.Connect`.
- `Settings.WriteAccess.FailsMidWrite` takes every write that fails after the open to leave a file that does not decode. A failure while closing, after every byte reached the disk, would leave a complete file. That case is not told apart.
- The poll and its answer are one step here (`View.OnTitleChanged`). In the code, an answer already requested when `View.break_cycles` runs still reaches `messages_received_from_js` (iv/view.py:148-149). The page lives on as the view's child, and nothing cancels the request. So `update_settings` or `exit_application` can still run after teardown. `Page.MessagesReceived` has no precondition on the connections, so it admits that call, but the model does not order it against the teardown.
- `Bridge.Dispatch`: its own contract gives only the empty batch and the effects that only grow. The effect message by message follows from `DispatchOne`, `DispatchAppend`, `Deliver`, `HandlerGetsPayload` and `Handle`, not from one formula over the whole batch.
- Re-entrant dispatch. `set_wallpaper` shows its errors in a modal `QMessageBox.critical` (iv/view.py:189, 192). Its nested event loop delivers queued events, including the queued title-change poll (iv/view.py:209) and the answers to earlier polls (iv/view.py:148-149). So a second batch can run while the first is paused inside `set_wallpaper`, and the effects of the two batches interleave. `Bridge.Dispatch` and `Page.MessagesReceived` run a batch to its end before anything else happens, so the model does not capture that interleaving.

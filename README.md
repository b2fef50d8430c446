# Audio player plugin — a verified model

`audioplayer.js` is a Cloud9 editor plugin that opens mp3, ogg and wav files in
tabs backed by an HTML `<audio>` element. Every editor instance (one per pane)
has a container and a current session. Every document has a session, holding
its widget and a remembered play state. The whole plugin shares three things:
the table of tab background colours, a `drawn` flag that keeps the CSS from
being inserted twice, and `watchedPaths`. That last one maps each watched file
path to the tab that registered it, so that deleting the file can close the tab.

The model is in Dafny:

- `wrappers.dfy`: an `Option` type, used for JavaScript's `undefined`.
- `paths.dfy` (module `Paths`): the URL-scheme test of `setPath` and `basename`, with their properties.
- `themes.dfy` (module `Themes`): the theme table and what `setTabBackground` does to a tab.
- `audioplayer.dfy` (module `AudioPlayer`): the plugin state.
  - It holds the drawn flag, the watched paths, the panes, the sessions, the documents, and a log of calls made to collaborators.
  - Each handler has a step function over this state, and each handler's properties are proved as lemmas.
  - It also has the class `Controller`, which holds the same state as fields. Its methods update those fields in place, as the handlers do. Each method's postcondition ties its new state to the step function.
- `scenarios.dfy` (module `Scenarios`): concrete runs of the handlers that show the two findings below, and the corrected handlers on the same runs.

How the model represents the plugin:

- **Collaborators.**
  - `vfs.url` is a function parameter.
  - Calls to `watcher.watch`, `watcher.unwatch`, `audio.load`, `audio.play`, `showAlert` and `ui.insertCss` are entries in the log.
  - An alert entry records the tab its acknowledgment closes.
- **The widget** is a record: `src`, the element's native `paused` flag, `display`, and the container it hangs in.
  - A container is named by its pane.
  - `appendChild` sets the widget's single parent, so a widget is never in two containers.
  - `load()` leaves the element paused, and `play()` unpauses it.
- **The invariant `Inv`** is kept by every handler. It has three parts:
  - Containers belong to drawn panes.
  - A widget that is shown is its pane's current session.
  - The CSS is inserted once, after the first draw. A path has been watched one more time than unwatched exactly while it is registered.

## Model

| member | source | states |
|---|---|---|
| Paths.WordRunIsLongest | audioplayer.js:67 | `WordRun` is the length of the longest prefix of word characters (`\w+`). |
| Paths.HasSchemeIff | audioplayer.js:67 | `HasScheme(s)` holds exactly when some non-empty prefix of word characters is followed by `://`, that is, when `^\w+://` matches. |
| Paths.BasenameIsLastSegment | audioplayer.js:76 | `Basename(path)` is a suffix of the path, contains no `/`, and is preceded by `/` unless it is the whole path. |
| Paths.BasenameOfJoin | audioplayer.js:76 | The basename of `dir + "/" + name` is `name` when `name` has no `/`. |
| Paths.BasenameOfPlainName | audioplayer.js:76 | A name without `/` is its own basename. |
| Paths.BasenameIdempotent | audioplayer.js:76 | Taking the basename twice gives the same result as taking it once. |
| Themes.UnknownThemeClearsStyle | audioplayer.js:182 | A theme missing from the table gives an undefined background and no dark class. |
| Themes.DarkClassOnlyForDark | audioplayer.js:32-39 | `"dark"`, `"flat-dark"` and `"dark-gray"` share one colour, but only `"dark"` gets the dark class. |
| Themes.LatestThemeWins | audioplayer.js:174-191 | After a series of theme changes the latest well-formed one alone decides the style. Malformed events in between change nothing. |
| AudioPlayer.ThemeChangeOnlyRestyles | audioplayer.js:174-191 | A theme change restyles the document's tab and nothing else. Sessions, panes, registrations, calls, the other documents, and the tab's id, path, title and tooltip stay the same. `Inv` and every container showing its current session are kept. |
| AudioPlayer.LatestThemeChangeWins | audioplayer.js:174-191 | On a tab, a theme change after any earlier event leaves the tab as that theme change alone would. |
| AudioPlayer.SetPathKeepsInvariant | audioplayer.js:58-84 | setPath keeps `Inv`, and keeps every container showing its current session. |
| AudioPlayer.SetPathChangesIffReloads | audioplayer.js:59-70 | setPath changes the state iff the document is well formed and its resolved URL differs from the widget's `src`. A malformed document or an unchanged URL is a no-op. |
| AudioPlayer.SetPathReloads | audioplayer.js:72-83 | A reload sets the widget's `src` to the resolved URL and leaves the element paused. The path is then registered, and an existing owner tab is kept. |
| AudioPlayer.SetPathTitles | audioplayer.js:76-77 | A reload sets the tooltip to the path and the title to the path's last segment. |
| AudioPlayer.SetPathCalls | audioplayer.js:73-83 | A reload calls `load` once, and calls `watcher.watch` once only if the path was unregistered. Without a reload there are no calls. No other call is made. |
| AudioPlayer.SetPathSessions | audioplayer.js:58-84 | setPath changes only the document's own session, only by a reload, and never a pane. |
| AudioPlayer.SetPathIdempotent | audioplayer.js:67-70 | A second setPath on the same document changes nothing. |
| AudioPlayer.SetPathWatchingKeepsInvariant | audioplayer.js:58-84 | The corrected setPath keeps `Inv` and every container showing its current session. |
| AudioPlayer.SetPathWatchingRegisters | audioplayer.js:79-83 | The corrected setPath leaves a well-formed document's path registered after every call. Its calls are `watcher.watch` for an unregistered path, now before the URL comparison and also without a reload, then `load` on a reload. Sessions, documents and panes end as setPath leaves them. |
| AudioPlayer.UnwatchKeepsInvariant | audioplayer.js:91-100 | unwatch keeps `Inv`. |
| AudioPlayer.UnwatchForgets | audioplayer.js:91-100 | unwatch removes that path's registration and no other. It calls `watcher.unwatch` once for a registered path and makes no call otherwise. Nothing else changes. Afterwards the path has been unwatched as often as watched, and a second unwatch changes nothing. A non-string path is a no-op, and so is an unregistered one. |
| AudioPlayer.DrawInsertsCssOnce | audioplayer.js:103-119 | However many panes are drawn, the CSS is inserted exactly once. The new container is empty, and the invariants are kept. |
| AudioPlayer.DocumentLoadKeepsInvariant | audioplayer.js:122-195 | documentLoad keeps `Inv`, and keeps every container showing its current session. |
| AudioPlayer.DocumentLoadOnce | audioplayer.js:122-195 | The first load creates a detached, paused widget with no remembered play state, styles the tab for the current theme and calls no collaborator. A later load changes nothing, whatever the theme is by then. |
| AudioPlayer.RememberKeepsInvariant | audioplayer.js:139-144 | The `playing`/`pause` listeners keep `Inv` and every container showing its current session. |
| AudioPlayer.DeleteKeepsInvariant | audioplayer.js:151-165 | A delete notification keeps `Inv` and every container showing its current session. |
| AudioPlayer.OneAlertPerDeletion | audioplayer.js:151-165 | However many delete listeners run, a registered path raises exactly one alert, closing the tab stored for it, and ends up unregistered. An unregistered path changes nothing. |
| AudioPlayer.UnloadKeepsInvariant | audioplayer.js:226-234 | documentUnload keeps `Inv` and every container showing its current session. |
| AudioPlayer.UnloadDetachesAndForgets | audioplayer.js:226-234 | documentUnload detaches the widget and removes the registration of the tab's current path, and no other. It calls `watcher.unwatch` once if that path was registered, and makes no other call. Panes, documents and the other sessions are unchanged. |
| AudioPlayer.RenameKeepsInvariant | audioplayer.js:145-148 | A rename followed by the tab's `setPath` listener keeps `Inv` and every container showing its current session. |
| AudioPlayer.RenameLeavesOldPathRegistered | audioplayer.js:145-148 | Renaming a tab from a registered path p to q leaves p registered to the same tab. q is registered when the URL changes. A later documentUnload removes only q's registration, so p's stays behind. |
| AudioPlayer.SwitchKeepsInvariant | audioplayer.js:201-214 | Hiding the previous session and attaching and showing the new one keeps `Inv`. The corrected hiding also keeps every container showing its current session. |
| AudioPlayer.ResumeKeepsInvariant | audioplayer.js:219-222 | Resuming playback keeps `Inv` and every container showing its current session. |
| AudioPlayer.ActivateKeepsInvariant | audioplayer.js:198-223 | documentActivate as written keeps `Inv`. |
| AudioPlayer.ActivateGuardedKeepsActiveShown | audioplayer.js:198-223 | The corrected documentActivate keeps `Inv` and every container showing its current session, and leaves the document's path registered. |
| AudioPlayer.ActivateShows | audioplayer.js:201-214 | After documentActivate the document is the pane's current session, and its widget hangs in the pane's container, shown. A different previous session is hidden but stays attached. No other session changes. |
| AudioPlayer.ActivatePlaysIff | audioplayer.js:216-222 | `play` is called once exactly when the session was last seen playing (`paused === false`) and the element is natively paused after setPath. Afterwards a playing session's element is not paused. |
| AudioPlayer.Controller.constructor | audioplayer.js:40-41 | The plugin starts with nothing drawn, watched or loaded, and the invariants hold. |
| AudioPlayer.Controller.SetPath | audioplayer.js:58-84 | The fields are updated in place exactly as `SetPathStep` describes. |
| AudioPlayer.Controller.SetPathWatching | audioplayer.js:58-84 | The corrected setPath, in place, as `SetPathWatchingStep`. |
| AudioPlayer.Controller.Unwatch | audioplayer.js:91-100 | unwatch in place, as `UnwatchStep`. |
| AudioPlayer.Controller.Draw | audioplayer.js:103-119 | The draw handler in place, as `DrawStep`. |
| AudioPlayer.Controller.DocumentLoad | audioplayer.js:122-195 | The documentLoad handler in place, as `DocumentLoadStep`. |
| AudioPlayer.Controller.SetTabBackground | audioplayer.js:174-188 | setTabBackground in place, as `SetTabBackgroundStep`. |
| AudioPlayer.Controller.OnPlaying | audioplayer.js:139-141 | The `playing` listener sets the session's remembered state to playing. |
| AudioPlayer.Controller.OnPause | audioplayer.js:142-144 | The `pause` listener sets the session's remembered state to paused. |
| AudioPlayer.Controller.OnDelete | audioplayer.js:151-165 | One delete listener in place, as `DeleteStep`. |
| AudioPlayer.Controller.DocumentUnload | audioplayer.js:226-234 | The documentUnload handler in place, as `UnloadStep`. |
| AudioPlayer.Controller.Rename | audioplayer.js:145-148 | A rename and the tab's `setPath` listener, in place, as `RenameStep`. |
| AudioPlayer.Controller.Switch | audioplayer.js:201-214 | The first steps of documentActivate in place, as `SwitchStep`. |
| AudioPlayer.Controller.Resume | audioplayer.js:219-222 | The last step of documentActivate in place, as `ResumeStep`. |
| AudioPlayer.Controller.DocumentActivate | audioplayer.js:198-223 | documentActivate as written, in place, as `ActivateStep`. |
| AudioPlayer.Controller.DocumentActivateGuarded | audioplayer.js:198-223 | The corrected documentActivate in place, as `ActivateGuardedStep`. |
| Scenarios.MovedTabIsNotWatched | audioplayer.js:68-70 | Song A is opened in pane 0, then moved to pane 1. Afterwards its path is not watched, and deleting the file changes nothing. The run is proved to reach this state. This holds for any resolver and any two different paths that both resolve to non-empty URLs. |
| Scenarios.MoveThenOpenHidesMovedWidget | audioplayer.js:202-204 | Opening song C in pane 0 after the move hides song A's widget, although it is pane 1's current session and hangs in pane 1's container. |
| Scenarios.MoveThenOpenGuarded | audioplayer.js:202-204 | With the corrected handlers the same run keeps song A shown in pane 1, and its path watched. |

## Left out

- Module plumbing: editor registration, `freezePublicAPI`, `plugin.load` and `register`. They are host wiring with no logic.
- The real DOM and CSS.
  - `createElement` and `setAttribute` are not modelled, nor the `playerwrapper` class or the contents of `style.css`.
  - A widget is reduced to its source, native paused flag, display and parent.
  - The tab's dark class is a boolean.
- The `error` listener and `showError` (audioplayer.js:135-137). Media decoding is foreign to the plugin.
- The browser pausing or playing the element by itself, other than through `load()` and `play()`. Only the `playing`/`pause` listeners' effect on the remembered state is modelled.
- URL normalisation by the `src` setter. The model compares the resolved URL with `src` as plain strings.
- The internals of `vfs.url` (a function parameter), `settings.get` (the current theme is a parameter of documentLoad), `watcher`, `layout.on` and the dialogs.
- Event subscription. The model does not register the theme-change and tab `setPath` listeners. A theme change is `SetTabBackgroundStep`. A rename is `RenameStep`: the host's new tab path, then `SetPathStep`.
- What the watcher reports when a watched file is renamed, for instance whether the old path counts as deleted. The watcher is not part of this model.
- The deferred acknowledgment of an alert. The alert entry records the tab it closes; closing the tab is not modelled.
- TypeErrors the handlers would throw. Each becomes a precondition, and the partial state change before the throw is not modelled:
  - documentUnload: `removeChild` throws when the widget is not in the container (audioplayer.js:230). `audioDoc.tab.path` throws when the tab is not an object (audioplayer.js:232), after the widget has been removed. `UnloadStep` requires the widget in the pane's container and a tab.
  - documentActivate before this instance's draw: `container` is undefined (audioplayer.js:210). Before the document's documentLoad: `appendChild(undefined)` throws (audioplayer.js:211). Both throw after the previous session was hidden and `currentSession` reassigned (audioplayer.js:202-207). `CanActivate` requires a drawn pane and a loaded document.
  - setPath on a document without a widget: `session.audio.src` throws (audioplayer.js:68). `SetPathStep` requires a widget for a well-formed document. The plugin calls setPath only after documentLoad.
  - documentLoad on a document whose tab is not an object: `audioDoc.tab.on` throws (audioplayer.js:146), after `session.audio` was created. `DocumentLoadStep` requires a tab.
- Each editor instance's draw handler runs once: `Draw` requires a pane that has not been drawn. Redrawing a pane's container is not modelled.
- `watchedPaths` and `tabBackgrounds` as plain JavaScript objects. Keys such as `"constructor"` or `"toString"` that hit inherited properties are not modelled, neither as paths nor as theme names.
- `unwatch` tests the stored tab's truthiness (audioplayer.js:95). Stored tabs are objects, so the model tests registration instead.
- Paths.Basename: takes the text after the last `/`. It does not strip a trailing `/` as Node's `path.basename` does. The plugin's paths name files, so they have no trailing `/`.
- AudioPlayer.Controller: `Inv` is proved about the step functions. It is not carried as a class invariant on the methods, so each method's contract is its step function alone.
- Themes.Restyle: an unknown theme gives an undefined background (audioplayer.js:182). One might expect the prior background to stay, but the code assigns `undefined`, and the model follows the code.

## Findings

| source | as written | input that shows it | evidently intended | confidence | as-written member | corrected member |
|---|---|---|---|---|---|---|
| audioplayer.js:202-204 | documentActivate hides the pane's previous `currentSession` wherever its widget now hangs. documentUnload does not clear `currentSession`. | Song A is activated in pane 0, moved to pane 1 (unloaded from pane 0, activated in pane 1), then song C is activated in pane 0. Song A's widget, pane 1's current session, is hidden. | Hide the previous widget only while it hangs in this pane's container. | not executed; high | Scenarios.MoveThenOpenHidesMovedWidget | AudioPlayer.ActivateGuardedKeepsActiveShown |
| audioplayer.js:68-83 | The early return for an unchanged URL also skips the watch registration. documentUnload (audioplayer.js:232-233) unwatched the path when the tab left its pane. | The same move. After it, song A's path is not watched, and deleting the file raises no alert and closes no tab. | Register the path on every setPath of a well-formed document, before the URL comparison. | not executed; medium | Scenarios.MovedTabIsNotWatched | AudioPlayer.SetPathWatchingRegisters |

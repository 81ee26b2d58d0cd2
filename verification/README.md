# IceCrystal web inspector: a model of its synchronisation engine

IceCrystal Engine ships a browser-based scene inspector (`Assets/Editor/app.js`).
It polls the engine's JSON API for the actor list and lets the user edit:

- actor names and tags;
- transforms;
- component properties;
- component enable flags.

Its synchronisation engine coordinates several pieces:

- an **editing flag** with a 500 ms grace delay, so a background refresh does not overwrite what the user is typing;
- a **periodic reconciliation** that re-reads the actor list and drops a selection whose actor has gone;
- a **selection and component cache**;
- a **per-field debounce table** that coalesces rapid edits;
- a **write pipeline** that is only open while the engine is paused (the **write gate** `enginePaused`).

This project models that engine as a pure state machine and proves what it guarantees. It also proves where it falls short.

- **Session** (`State.Session`): an immutable record of the script's globals. It holds:
  - the actor list, the selection and the component cache;
  - `isEditing`, `editTimeout` and `enginePaused`;
  - the debounce table;
  - the auto-refresh interval handle and period.

  It also holds two things the browser keeps for the script:
  - the pending timers, as a map from handle to a due time and a callback (grace clear, debounced write, refresh tick), on a virtual clock `now`;
  - the requests in flight, as a multiset.
- **Events** (`Protocol.Event`):
  - focus and blur of an input;
  - the clock advancing;
  - a due timer firing;
  - every click and input the page wires to the engine;
  - the answer to a request in flight.

  An answer is either a thrown request or an HTTP status with the body fields the script reads.
- `Engine.Step` handles one event. `Engine.Run` folds a trace of events into the final session, the requests sent and the control effects.
- Every `async` function is split at each request. A handler sends a request, and the answer is a separate event that may arrive after any other events. This is how a scene fetch issued before a focus can still land while the user types.
- The browser may fire due timers in any order. The model allows every order.

Modules follow the script's structure:

| module | what it holds |
|---|---|
| `Base` | shared definitions: `Option`, JSON values, truthiness |
| `Scene` | actors, components, transforms and their local patches |
| `Keys` | the debounce key strings |
| `Protocol` | requests, answers, events |
| `State` | the session, the timer helpers, the invariant, page load |
| `Editing`, `Refresh`, `Selection`, `Debounce`, `Writes`, `Gate` | one module per group of script functions |
| `Engine` | the dispatcher |
| `Invariant` and the `*Facts` modules | properties over whole traces |

## Model

All source paths are in `IceCrystalEngine/Assets/Editor/`.

| member | source | states |
|---|---|---|
| State.Init | IceCrystalEngine/Assets/Editor/app.js:9-46 | Page load: the probe and engine status requests are out, and one auto-refresh interval ticks every 2000 ms. A truthy stored interval becomes `refreshMs`, but the running interval keeps its 2000 ms period. The invariant holds. |
| Editing.StartEditing | IceCrystalEngine/Assets/Editor/app.js:571-577 | Focus sets the editing flag and cancels the timer recorded in `editTimeout`. Every other timer, including older grace timers, stays pending. Nothing else changes. |
| Editing.StopEditing | IceCrystalEngine/Assets/Editor/app.js:579-585 | Blur leaves the flag as it is. It schedules a grace timer due 500 ms later and records it in `editTimeout`, overwriting the old handle without cancelling that timer. |
| Editing.GraceExpired | IceCrystalEngine/Assets/Editor/app.js:581-584 | A grace timer, whichever blur scheduled it, clears the flag and is gone. |
| EditingFacts.StepEditingFlag | IceCrystalEngine/Assets/Editor/app.js:571-585 | Over every event kind, only a focus sets the flag and only a due grace timer clears it. |
| EditingFacts.StepNoNewGrace | IceCrystalEngine/Assets/Editor/app.js:579-585 | Only a blur creates a grace timer. |
| EditingFacts.NoGraceKeepsEditing | IceCrystalEngine/Assets/Editor/app.js:571-585 | With the flag set, no grace timer pending and no blur, the flag stays set along any trace. |
| EditingFacts.FocusHoldsWithoutBlur | IceCrystalEngine/Assets/Editor/app.js:571-577 | After a focus, the flag holds until the next blur, provided the only pending grace timer is the recorded one. `EditingFacts.ReachableGraceControlled` shows that proviso holds on the page. |
| EditingFacts.TwoBlursBreakDiscipline | IceCrystalEngine/Assets/Editor/app.js:404-405 | The page's focus discipline allows a blur only while an input has focus, so two blurs in a row, at any position of a trace, never happen. Every input wired to `stopEditing` on blur is wired to `startEditing` on focus. |
| EditingFacts.StepEditTimeout | IceCrystalEngine/Assets/Editor/app.js:571-585 | Only a blur moves `editTimeout`. Every other event, focus included, leaves the handle as it is. |
| EditingFacts.StepKeepsControlled | IceCrystalEngine/Assets/Editor/app.js:571-585 | Under the focus discipline, each event keeps every pending grace timer the recorded one, with none pending while an input has focus. A focus cancels the only grace timer there can be, and a blur creates it. |
| EditingFacts.ReachableGraceControlled | IceCrystalEngine/Assets/Editor/app.js:571-585 | In every session reachable from page load under the focus discipline, at most one grace timer is pending, and it is the one `editTimeout` records. |
| EditingFacts.FocusHoldsOnPage | IceCrystalEngine/Assets/Editor/app.js:571-585 | On the page, a focus holds until the next blur. After any trace from page load that keeps the focus discipline, a focus followed by any events but a blur leaves the editing flag set. |
| EditingFacts.SingleBlurIsControlled | IceCrystalEngine/Assets/Editor/app.js:579-585 | One blur from a state with no grace timers leaves only the recorded grace timer pending, so the next focus can cancel it. |
| EditingFacts.StaleGraceClearsFlag | IceCrystalEngine/Assets/Editor/app.js:571-585 | Why the focus discipline matters. Blur, blur, focus would leave the flag set, and once 500 ms pass the first blur's timer, whose handle was overwritten, would clear it while the input still has focus. The page never produces two blurs without a focus between them. |
| Refresh.LoadScene | IceCrystalEngine/Assets/Editor/app.js:215-226 | While editing, the tick returns before anything happens. Otherwise it requests the actor list. No request is sent exactly when the flag is set. |
| Refresh.SceneReplied | IceCrystalEngine/Assets/Editor/app.js:228-251 | A failed or thrown fetch changes nothing. A successful one replaces the actor list with `data.actors` or `[]`. A truthy selection that is no longer listed is cleared together with the component cache, and no selection is left dangling. A selection still listed is kept, with nothing reloaded. |
| Refresh.ConnectionReplied | IceCrystalEngine/Assets/Editor/app.js:104-126 | A successful probe starts a scene load, subject to the editing flag. Anything else sends nothing. |
| Refresh.StopAutoRefresh | IceCrystalEngine/Assets/Editor/app.js:997-1006 | The interval is cancelled and forgotten, and no interval remains. Every other pending timer, grace and debounce timers included, is kept unchanged. |
| Refresh.StartAutoRefresh | IceCrystalEngine/Assets/Editor/app.js:982-995 | The running interval is cancelled and a fresh one, ticking every `refreshMs` ms, takes its place. Every other pending timer is kept unchanged. |
| Refresh.StartAutoRefreshKeepsWf | IceCrystalEngine/Assets/Editor/app.js:982-995 | After a start, exactly one interval runs (the new one), and the invariant and debounce table are kept. |
| Refresh.ToggleAutoRefresh | IceCrystalEngine/Assets/Editor/app.js:1008-1014 | The toggle inverts `autoRefreshEnabled`. Turning off leaves no interval; turning on leaves exactly one. In both cases every pending timer that is not a refresh tick is kept unchanged. |
| Refresh.SaveSettings | IceCrystalEngine/Assets/Editor/app.js:1138-1160 | The new period is stored, and a running interval is restarted with it as the only interval. A stopped one stays stopped. Every pending timer that is not a refresh tick is kept unchanged. |
| Refresh.IntervalTick | IceCrystalEngine/Assets/Editor/app.js:987-990 | A tick re-arms the interval one period later and does what `loadScene` does. |
| RefreshFacts.NoSceneFetchWhileEditing | IceCrystalEngine/Assets/Editor/app.js:215-226 | Any event that sends `GET /actors` happened with the flag clear. It was the refresh button, a refresh tick or a successful probe. |
| RefreshFacts.SceneReplyIgnoresEditing | IceCrystalEngine/Assets/Editor/app.js:228-247 | The scene answer makes the same changes whether or not the user is editing. |
| RefreshFacts.RefreshLandsWhileEditing | IceCrystalEngine/Assets/Editor/app.js:234-235 | A fetch already in flight overwrites the actor list while the flag is set. |
| RefreshFacts.FailedRefreshChangesNothing | IceCrystalEngine/Assets/Editor/app.js:228-232 | A failed or thrown scene fetch only leaves the network. |
| RefreshFacts.ToggleTwiceRestarts | IceCrystalEngine/Assets/Editor/app.js:1008-1014 | Off then on leaves exactly one interval, at the current period. |
| RefreshFacts.StoredIntervalDeferred | IceCrystalEngine/Assets/Editor/app.js:34-40 | The stored interval is read after auto-refresh has started. The first interval ticks at 2000 ms, and only a restart picks up the stored value. |
| RefreshFacts.DroppedActorClearsSelection | IceCrystalEngine/Assets/Editor/app.js:238-246 | Actor 2 selected and a refresh listing only actor 1: the selection and the component cache are cleared. |
| RefreshFacts.KeptActorKeepsSelection | IceCrystalEngine/Assets/Editor/app.js:238-246 | The same refresh with actor 2 listed keeps the selection and the cache and reloads nothing. |
| Selection.SelectActor | IceCrystalEngine/Assets/Editor/app.js:345-350 | A click selects the id at once, whether or not it is listed, and requests its details. The component cache waits for the answer. |
| Selection.DetailsReplied | IceCrystalEngine/Assets/Editor/app.js:352-358 | Only a successful details answer goes on to the editor selection request. |
| Selection.EditorSelectReplied | IceCrystalEngine/Assets/Editor/app.js:360-374 | Any HTTP answer, whatever its status, goes on to the components request. A thrown one stops the chain. |
| Selection.ComponentsReplied | IceCrystalEngine/Assets/Editor/app.js:701-717 | A successful answer replaces the component cache with `data.components` or `[]`, whatever is selected now. Anything else keeps the cache. |
| Selection.ComponentsRepliedIntended | IceCrystalEngine/Assets/Editor/app.js:701-717 | The answer as the cache is meant to behave: it is applied only while its actor is still selected, and an answer for any other actor leaves the session unchanged. The cache only ever changes to the selected actor's successful answer. |
| Selection.ClearSelection | IceCrystalEngine/Assets/Editor/app.js:1032-1055 | With no selection nothing changes. Otherwise the selection is dropped and the component cache emptied. |
| CacheFacts.SelectionLoadsComponents | IceCrystalEngine/Assets/Editor/app.js:345-374 | A click on an actor, then its three answers in turn: the details read, the editor selection and the components read go out in that order. The actor ends up selected and the cache holds the components of the last answer. |
| CacheFacts.LateComponentsReplyApplies | IceCrystalEngine/Assets/Editor/app.js:701-711 | A components answer for an actor that is no longer selected still refills the cache. |
| CacheFacts.LateComponentsReplyDroppedIntended | IceCrystalEngine/Assets/Editor/app.js:701-711 | Select one actor, then another. The first actor's late answer leaves the cache unchanged under the intended answer, but fills the cache under the script as written. |
| Keys.TransformKeyInjective | IceCrystalEngine/Assets/Editor/app.js:636 | Each `transform_{actor}_{type}_{axis}` key names exactly one coordinate of one actor. |
| Keys.ComponentKeyInjective | IceCrystalEngine/Assets/Editor/app.js:854 | Each `component_{id}_{property}` key names exactly one property path of one component, even when the path contains `_`. |
| Keys.KeyKindsDisjoint | IceCrystalEngine/Assets/Editor/app.js:636 | A transform key never equals a component key. |
| Protocol.KeyOfIdentifiesField | IceCrystalEngine/Assets/Editor/app.js:853-854 | Two edits share a debounce key if and only if they write the same field. |
| Debounce.Schedule | IceCrystalEngine/Assets/Editor/app.js:635-648 | An input cancels its key's pending timer and points the key at a fresh timer, due in 300 ms, that runs the new write. Every other key keeps its timer. Nothing is sent. |
| Debounce.ScheduleTimers | IceCrystalEngine/Assets/Editor/app.js:639-644 | Scheduling adds exactly one timer. Every other timer afterwards was pending before, unchanged. |
| Debounce.ScheduleKeepsWf | IceCrystalEngine/Assets/Editor/app.js:853-864 | The superseded timer is gone, the key has exactly one pending timer and it runs the new write, other keys' timers are untouched, and the invariant holds. |
| Debounce.FireDebounced | IceCrystalEngine/Assets/Editor/app.js:644-647 | A firing debounce timer runs its own write, subject to the gate, and its key leaves the table. |
| DebounceFacts.StepDebounceTimers | IceCrystalEngine/Assets/Editor/app.js:635-648 | One event creates at most one debounce timer, only an input creates one, and a write runs only when its own timer fires. |
| DebounceFacts.LastWriteWins | IceCrystalEngine/Assets/Editor/app.js:635-648 | After an input on a field, and until the next input on it, the only write that can run for that field is the latest one. |
| DebounceFacts.SupersededEditNeverRuns | IceCrystalEngine/Assets/Editor/app.js:853-864 | Of two inputs on one field, the first never runs unless it equals the second. |
| DebounceFacts.RunKeepsPending | IceCrystalEngine/Assets/Editor/app.js:639-647 | A pending edit keeps its timer and handle through any events other than an input on its field or its own firing. |
| DebounceFacts.FiringRunsLatest | IceCrystalEngine/Assets/Editor/app.js:644-647 | When a field's pending timer fires, it runs that field's latest edit and the key and timer are removed. |
| Invariant.RunKeepsWf | IceCrystalEngine/Assets/Editor/app.js:571-647 | Any trace keeps the invariant: handles are not reused, the debounce table and debounce timers match one to one, at most one interval runs, and `editTimeout` names its grace timer while that timer is pending. |
| Invariant.ReachableWf | IceCrystalEngine/Assets/Editor/app.js:982-995 | In every session reachable from page load, each key has at most one debounce timer and at most one auto-refresh interval is pending. |
| Writes.UpdateActorProperty | IceCrystalEngine/Assets/Editor/app.js:591-613 | With the gate closed nothing is sent. With it open, exactly `{property, value}` is posted for that actor. The cache is untouched until the answer. |
| Writes.ActorPropertyReplied | IceCrystalEngine/Assets/Editor/app.js:615-632 | `success` patches the first cached actor with that id. Any other body, or a thrown request, leaves the list as it was. |
| Scene.PatchActor | IceCrystalEngine/Assets/Editor/app.js:621-625 | On the first actor with the id, the edited field takes the value and everything else is kept. An absent id changes nothing. |
| Writes.UpdateTransform | IceCrystalEngine/Assets/Editor/app.js:650-665 | With the gate closed nothing is sent. Otherwise the actor is re-read. |
| Writes.TransformFetched | IceCrystalEngine/Assets/Editor/app.js:662-679 | The posted transform equals the freshly read one with exactly the edited coordinate replaced. The gate is not consulted again. |
| Writes.TransformFetchedIntended | IceCrystalEngine/Assets/Editor/app.js:651-679 | The write-back as the gate means it: with the engine running, nothing is sent. With it paused, the same transform as `Writes.TransformFetched` is posted. Every post is for that actor. |
| Scene.SetAxis | IceCrystalEngine/Assets/Editor/app.js:667 | The edited coordinate takes the new value and the other eight keep theirs. |
| Scene.SetAxisOfGet | IceCrystalEngine/Assets/Editor/app.js:667 | Writing back the coordinate just read leaves the transform as it was. |
| Scene.SetAxisLastWins | IceCrystalEngine/Assets/Editor/app.js:667 | Two writes to one coordinate: the later one wins. |
| CacheFacts.TransformRaceLosesEdit | IceCrystalEngine/Assets/Editor/app.js:662-679 | Two edits on different coordinates whose reads return the same transform each post the other coordinate's old value. Whichever lands second undoes the first edit. |
| GateFacts.TransformWriteIgnoresGate | IceCrystalEngine/Assets/Editor/app.js:662-679 | An answered transform read is written back whatever the gate says by then. |
| GateFacts.IntendedTransformWriteHonoursGate | IceCrystalEngine/Assets/Editor/app.js:651-679 | With the engine running, neither the click nor the intended answer sends a write, while the answer as written does post the transform. |
| Writes.UpdateComponentProperty | IceCrystalEngine/Assets/Editor/app.js:866-899 | With the gate closed nothing is sent. Otherwise the property and value are posted. |
| Writes.ComponentPropertyReplied | IceCrystalEngine/Assets/Editor/app.js:901-925 | A body with `success` or `message` patches the cached component at the property path. A body with neither `success` nor `message`, an empty body or a thrown request leaves the cache as it was. |
| Scene.PatchComponent | IceCrystalEngine/Assets/Editor/app.js:906-918 | On the first component with the id, only its properties change, and only if it has a properties object. Every other component is kept. |
| Scene.PatchProperty | IceCrystalEngine/Assets/Editor/app.js:908-917 | A flat key is set. A two-part path `a.b` sets `props[a][b]`, creating `props[a]` when it is missing or falsy and keeping its other fields. A truthy primitive head is left alone. Other keys are kept. |
| Scene.SplitPathIffOneDot | IceCrystalEngine/Assets/Editor/app.js:909-910 | A path is treated as `a.b` exactly when it holds one `.`. |
| Scene.SplitPathJoin | IceCrystalEngine/Assets/Editor/app.js:909-910 | Splitting `a + "." + b` gives back `a` and `b`, for dot-free names. |
| CacheFacts.PatchThenRead | IceCrystalEngine/Assets/Editor/app.js:908-917 | A confirmed property write reads back as the value written, unless the path's head is a truthy primitive. |
| CacheFacts.FlatPatchKeepsOthers | IceCrystalEngine/Assets/Editor/app.js:916 | A flat write leaves every other flat key as it was. |
| Scene.FindFirst | IceCrystalEngine/Assets/Editor/app.js:621 | `find` lands on the first entry with the id, and on none exactly when no entry has it. |
| Writes.ToggleComponentEnabled | IceCrystalEngine/Assets/Editor/app.js:928-950 | With the gate closed nothing is sent and the checkbox is put back to `!enabled`. Otherwise the flag is posted. |
| Writes.EnabledReplied | IceCrystalEngine/Assets/Editor/app.js:952-975 | `success` sets the cached component's flag. On any other body, or a thrown request, the cache keeps the old flag and nothing restores the checkbox: the revert reads `event.target` after an `await`, where `event` is undefined, and throws. |
| CacheFacts.RejectedToggleKeepsUserValue | IceCrystalEngine/Assets/Editor/app.js:952-975 | A toggle the engine rejects, from click to answer: the post goes out, and no effect restores the checkbox. The cache keeps the old flag, so the checkbox and the cache disagree. |
| Writes.EnabledRepliedIntended | IceCrystalEngine/Assets/Editor/app.js:952-975 | The answer as the script means it, with the checkbox captured before the `await`. `success` sets the cached flag. Any other body, or a thrown request, restores the checkbox to `!enabled`. The session changes exactly as under `Writes.EnabledReplied`. |
| CacheFacts.RejectedToggleRestoredIntended | IceCrystalEngine/Assets/Editor/app.js:928-975 | Under the intended answer, a rejected toggle from click to answer sends the post and restores the checkbox exactly once. The cache keeps the old flag, so the checkbox and the cache agree. |
| Scene.SetEnabled | IceCrystalEngine/Assets/Editor/app.js:957-961 | Only the first matching component's enabled flag changes. An absent id changes nothing. |
| Writes.RunAction | IceCrystalEngine/Assets/Editor/app.js:644-646 | A debounced callback runs its write. With the gate open, a transform edit sends its transform read and a component edit sends its property post. With the gate closed it sends nothing. |
| GateFacts.GateClosedBlocksWrites | IceCrystalEngine/Assets/Editor/app.js:592-595 | While the engine runs, no event but an answer sends a write or starts one. |
| GateFacts.GateClosedWritesAreNoOps | IceCrystalEngine/Assets/Editor/app.js:929-938 | While the engine runs, the write events change nothing and send nothing. A refused enable toggle restores its checkbox. |
| GateFacts.GateClosedDropsDebounced | IceCrystalEngine/Assets/Editor/app.js:651-654 | A debounced edit firing while the engine runs is dropped. Nothing is sent and no cache changes. |
| Gate.TogglePause | IceCrystalEngine/Assets/Editor/app.js:154-159 | The button asks to resume when the inspector believes the engine is paused, and to pause otherwise. |
| Gate.PauseReplied | IceCrystalEngine/Assets/Editor/app.js:161-171 | An `ok` answer flips the flag the inspector holds now and reloads a truthy selection's details. Anything else changes nothing. |
| Gate.StatusReplied | IceCrystalEngine/Assets/Editor/app.js:178-189 | An `ok` status answer adopts the engine's `paused`. |
| GateFacts.DoublePauseDesyncs | IceCrystalEngine/Assets/Editor/app.js:154-171 | Two clicks before either answer both ask to pause. The two acknowledgements flip the flag twice, so the inspector believes the engine runs while it is paused. |
| Engine.FireTimer | IceCrystalEngine/Assets/Editor/app.js:581-584 | Only a pending, due timer runs. A one-shot timer is gone after it runs. |
| Engine.Answer | IceCrystalEngine/Assets/Editor/app.js:681-690 | No answer touches the timers, the debounce table or the editing flag, and no answer has an effect on a control. Only pause and status answers move the gate. The transform post's answer is only logged. |

## Left out

- **Rendering and logging** are not modelled. Their only effect is on the page, and the engine does not depend on it. This covers:
  - `renderActorList`, `renderInspector`, `renderComponents` and their markup;
  - the search filter, `escapeHtml` and the status displays (`updateStatus`, `updateLastUpdateTime`);
  - `addConsoleLog` and `clearConsole`.
- **The stats request:** `updateStats` sends `GET /stats` on every refresh tick (app.js:989), every refresh click (app.js:58) and after a successful probe (app.js:115). Its answer only fills counters on the page, so the model neither sends that request nor includes it in `sent`.
- **Page actions outside synchronisation** are not modelled: `exportScene`, `focusSelected` and the expand-all button.
- **Settings:** only the refresh interval is modelled. `loadSettings` becomes `Init`'s `stored` parameter, and `saveSettings` keeps only its interval part. The API port and debug fields are not used by the engine, and the modal's open/close is presentation.
- **Parsing:**
  - `parseInt` and `parseFloat` are left out. Inputs arrive already parsed, and `NaN` is not modelled.
  - Numbers are reals, so floating-point rounding is not represented.
  - A properties object is modelled as a map. A component whose `properties` is an array is not modelled.
- **Transport:**
  - `fetch` and `response.json()` are replaced by the answer events. A body that fails to parse, or a handler that throws on it, appears as a thrown request.
  - A missing `transform` in the transform read throws in the script, so nothing is sent.
- **The checkbox revert:** the script reverts the checkbox through the global `event.target`. With the gate closed this runs inside the change handler and works; the model emits a `CheckboxRestored` effect naming the component. After an `await` the global `event` is undefined and the revert throws, so the model emits nothing there. The resulting `TypeError` only reaches the console and the promise's rejection, and neither is modelled.
- **Disabled inputs:** the inspector disables its inputs while the engine runs, but the model lets every input event happen anyway. Every gate result therefore covers more than the page allows.
- **Debounced input values:** the debounced callback reads the input element when it fires. The model captures the value at input time, which assumes the element still holds the value of its last input event.
- **Timer ordering and drift:** due timers fire in any order. `setInterval` is re-armed exactly one period later, and browser minimum delays and clamping of nested timers are not modelled.
- **The transform write's answer** is only logged by the script, so the model ignores it.
- **Server and engine code:**
  - The HTTP server and its handlers in `Classes/Editor/WebEditorManager.cpp` are not part of this model.
  - The older editor embedded in that file is not part of this model.
  - The C++ engine is not part of this model.
- Invariant.ReachableWf: says nothing about grace timers, because it holds for every trace, including ones the page cannot produce. Two blurs with no focus between them would leave two grace timers pending. On the page's traces, `EditingFacts.ReachableGraceControlled` bounds them to the recorded one.
- Engine.FireTimer: does not state what each callback does. That is stated by `Editing.GraceExpired`, `Debounce.FireDebounced` and `Refresh.IntervalTick`, which it dispatches to.

## Where the code falls short of its intent

The script's comments and messages state what it means to do. In the places below it does something else. The model follows the script, and a lemma states each difference. For the toggle revert, the transform gate and the component cache, an `…Intended` member also states the behaviour the code means. These members stand beside the script's own behaviour: `Engine.Step` keeps the as-written answers.

- **No refresh while editing.** `loadScene` says it does not refresh while the user is editing (app.js:217). It checks the flag only before the fetch, so a fetch already in flight lands whatever the flag is by then. See `RefreshFacts.RefreshLandsWhileEditing` and `RefreshFacts.SceneReplyIgnoresEditing`. The flag is the only guard: no individual field is protected.
- **Reverting a rejected toggle.** `toggleComponentEnabled` means to put the checkbox back when the engine rejects the change or the request fails (app.js:965, 972). After the `await` the global `event` is undefined, so the revert throws and the checkbox keeps the user's value while the cache keeps the old flag. See `Writes.EnabledReplied` and `CacheFacts.RejectedToggleKeepsUserValue`. The intended answer, with the checkbox captured before the `await`, is `Writes.EnabledRepliedIntended`. `CacheFacts.RejectedToggleRestoredIntended` shows that it restores the checkbox. The revert with the gate closed (app.js:934) runs synchronously and works.
- **Only while paused.** The write functions refuse to edit while the engine runs (app.js:593, 652). A transform write checks this only before its read, so the write-back can happen after the engine resumed. See `GateFacts.TransformWriteIgnoresGate`. The intended write-back, which reads the gate again, is `Writes.TransformFetchedIntended`. `GateFacts.IntendedTransformWriteHonoursGate` shows that it never posts while the engine runs.
- **Updating one axis.** `updateTransform` means to update only the edited axis (app.js:666). It posts the whole transform as it read it, so two overlapping edits of one actor can undo one of them. See `CacheFacts.TransformRaceLosesEdit`.
- **The components of the selection.** `clearSelection` empties the component cache with the selection (app.js:1038-1039), so the cache is meant to hold the selected actor's components. A components answer is applied whatever is selected when it arrives. See `CacheFacts.LateComponentsReplyApplies`. The intended answer, applied only for the current selection, is `Selection.ComponentsRepliedIntended`. `CacheFacts.LateComponentsReplyDroppedIntended` shows that it drops a late answer. `selectActor` also sets the selection without checking that the actor is listed (`Selection.SelectActor`); a refresh then clears it.
- **Pause state.** The pause button chooses the endpoint from the inspector's flag (app.js:156) and flips that flag on each acknowledgement (app.js:163). Two quick clicks therefore leave the flag out of step with the engine. See `GateFacts.DoublePauseDesyncs`.
- **Stored refresh interval.** The stored interval is loaded after auto-refresh has started (app.js:35-40), so it takes effect only at the next restart. See `RefreshFacts.StoredIntervalDeferred`.

The grace delay does what its comment says (app.js:580). `stopEditing` overwrites `editTimeout` without cancelling the timer it held. That is harmless only because a focus always comes between two blurs, and that focus cancels the held timer. See `EditingFacts.FocusHoldsOnPage`, and `EditingFacts.StaleGraceClearsFlag` for what would happen otherwise.

# MERU front end: hotkeys, application state, window and notifications

A Dafny model of the per-tick controller of the MERU emulator front end. It
covers two Rust source files.

- `src/hotkey.rs` (module `HotKeys`, file `hotkey.dfy`):
  - the eleven hotkeys, their display labels and their default bindings;
  - `check_hotkey`, which turns "just pressed" and "held" into hotkey events and the turbo flag;
  - `process_hotkey`, which folds hotkey events into the save slot, the window scale and the
    application-state stack, calls the emulator, and sends notifications and window-control events.
- `src/app.rs` (module `App`, file `app.dfy`):
  - the application-state resource (`set` and `push`);
  - the window reconciler (`window_control_event`, `restore_window`);
  - the double-click detector (`process_double_click`);
  - the notification overlay (`message_event_system`, `message_update_system`).

The emulator is an outside collaborator (module `Core`, file `core.dfy`). It is reduced to the
calls the front end makes on it, what those calls record, two flags saying whether saving and
loading succeed, and its frame-buffer size. `wrappers.dfy` holds an `Option` type.

Each Bevy system is a method over the resources it takes. Each method is proved against a pure
fold over its event list: `Run` for hotkeys, `WindowRun` for window events, `ClickRun` for mouse
events, `ShowTick` and `Live` for notifications. The properties of the program are lemmas about
those folds.

Modelling choices:
- Times are whole milliseconds since start-up. The source uses `f64` seconds.
- Window sizes are whole pixels. The source uses `f32`.
- A panic (an `unwrap` of a missing emulator or a failed save, or the `usize` subtraction at
  scale 0) is a precondition. `Panics` and `Defined` state these preconditions, and
  `WindowEventDefined` does the same for the reconciler.
- The menu panel size (`MENU_WIDTH`, `MENU_HEIGHT`) is defined in `src/menu.rs`, which is not
  part of this model. The reconciler takes it as a parameter.

Behaviour of the code worth noting:
- `check_hotkey` sends a Turbo event like any other hotkey. `process_hotkey` then ignores it.
- `ChangeScale` resizes the window only in Running, not in Rewinding. It stores the new scale
  without clamping it.
- `Restore` needs an emulator even in the menu. So ScaleUp or ScaleDown without an emulator
  panics.
- Several notifications in one tick do not stack. See "## Findings".

## Model

| member | source | states |
|---|---|---|
| `Core.Emulator.Reset` | src/hotkey.rs:126 | `reset()` is recorded once; nothing else about the session changes |
| `Core.Emulator.SaveStateSlot` | src/hotkey.rs:132-134 | the result is the session's save outcome; only a successful save records the slot |
| `Core.Emulator.LoadStateSlot` | src/hotkey.rs:143-145 | the result is the session's load outcome; a failed load leaves the session unchanged |
| `Core.Emulator.PushAutoSave` | src/hotkey.rs:173 | one more auto-save; nothing else changes |
| `App.AppStateStack.constructor` | src/app.rs:71 | the state stack starts with the one given state and nothing suspended |
| `App.AppStateStack.Set` | src/hotkey.rs:179-181 | `set` replaces the active state and suspends nothing |
| `App.AppStateStack.Push` | src/hotkey.rs:174 | `push` suspends the active state beneath the new one |
| `App.UiState.constructor` | src/app.rs:158-161 | the save slot starts at 0 |
| `App.FullscreenState.constructor` | src/app.rs:166-167 | the window starts not full screen |
| `App.Config.constructor` | src/app.rs:175-179 | the configuration resource, of which this layer reads and writes only the window scale factor |
| `App.Window.constructor` | src/app.rs:32-39 | the window starts windowed at the given (menu) size |
| `App.Window.SetMode` | src/app.rs:191-195 | setting the mode leaves the resolution alone |
| `App.Window.SetResolution` | src/app.rs:276 | setting the resolution leaves the mode alone |
| `App.TargetSize` | src/app.rs:265-273 | the target size is the menu panel in Menu; in game it keeps the frame buffer's aspect ratio and, at scale ≥ 1, is at least the frame buffer |
| `App.WindowEventDefined` | src/app.rs:210-224 | with an emulator no window event panics and a toggle never does; a Restore without an emulator panics at the `unwrap` |
| `App.RestoreWindow` | src/app.rs:258-278 | the window gets the menu size in Menu and frame buffer × scale otherwise, unless it is full screen, when the resolution is kept |
| `App.WindowStep` | src/app.rs:185-231 | a toggle flips the flag exactly once and sets borderless iff the flag is set; a toggle re-applies geometry only with an emulator; ChangeScale stores the scale unclamped and resizes only in Running; the resolution only ever changes to the target size, and only while windowed; with an emulator, a windowed Restore, toggle, or ChangeScale in Running does set it to the target size |
| `App.ProcessWindowControlEvents` | src/app.rs:175-233 | the reconciler's new flag, scale, mode and resolution are the fold of `WindowStep`, with the state read once before the loop; `Restore`, and `ChangeScale` in Running, require an emulator |
| `App.ToggleTwiceRestoresMode` | src/app.rs:187-195 | two toggles give back the flag, the mode and the scale |
| `App.ModeTracksFullscreen` | src/app.rs:189-195 | over any event sequence the window mode stays borderless iff the flag is set |
| `App.RestoreSizesWindow` | src/app.rs:265-277 | a windowed `Restore` sizes the window to the menu in Menu and to frame buffer × scale in Running or Rewinding |
| `App.FullscreenKeepsResolution` | src/app.rs:275-277 | while full screen, no event other than a toggle changes the resolution |
| `App.LastClicked.constructor` | src/app.rs:64 | the last-click time starts at 0 |
| `App.ClickStep` | src/app.rs:243-254 | a left press less than 250 ms after the last click sends exactly one toggle and backdates the last click by 1000 ms; any other left press becomes the last click; other buttons and releases change nothing |
| `App.ProcessDoubleClick` | src/app.rs:237-256 | the new last-click time and the toggles sent are the fold of `ClickStep`, with every event of the tick seen at the same time |
| `App.DoubleClickWindowIsStrict` | src/app.rs:248 | clicks exactly 250 ms apart are not a double-click; 249 ms apart they are |
| `App.NoToggleRightAfterDoubleClick` | src/app.rs:248-250 | after a double-click, a press at any delay ≥ 0 does not toggle |
| `App.EarlyFirstClickToggles` | src/app.rs:64 | since the last-click time starts at 0, a first press before 250 ms toggles |
| `App.OnePressTick` | src/app.rs:244-253 | a tick holding one left press is one detector step, so the greedy-pairing result below applies to the system run once per tick |
| `App.DoubleClicksPairGreedily` | src/app.rs:243-254 | on a clock that never goes back, the detector toggles exactly as often as a greedy pairing of presses less than 250 ms apart, where no press belongs to two pairs |
| `App.MessageBoard.constructor` | src/app.rs:393-395 | the world starts with no message entities |
| `App.MessageEventSystem` | src/app.rs:398-462 | with a game screen, a tick with texts moves every existing message up one step and adds each text at the base line with start = now; without a screen nothing changes |
| `App.MessageUpdateSystem` | src/app.rs:464-474 | the messages left are those no older than 3000 ms, in order |
| `App.LiveIff` | src/app.rs:470-471 | a message survives iff `now - start <= 3000`, unchanged |
| `App.ExpiryIsStrict` | src/app.rs:470 | a message shown at 0 ms is present at 3000 ms and gone at 3001 ms |
| `App.ShowOneKeepsStacked` | src/app.rs:417-449 | one new message goes to the base line and every earlier one moves up exactly one step, so each keeps its own row |
| `App.LiveKeepsStacked` | src/app.rs:469-473 | expiry keeps every remaining message on its own row |
| `App.StackedStripsAreDisjoint` | src/app.rs:420-444 | when messages sit on distinct rows, their 16-pixel strips never share a pixel row, since each row is 20 pixels above the one below |
| `App.SameTickMessagesOverlap` | src/app.rs:417-449 | as written, two texts in one tick both land on the base line, so rows are no longer distinct, and every older message moves up exactly one step, not two |
| `App.ShowInOrderKeepsStacked` | src/app.rs:417-449 | shown one after another, any number of texts keeps every message on its own row, newest at the base line |
| `HotKeys.Ordinal` | src/hotkey.rs:24-37 | every hotkey has a position in the declaration order |
| `HotKeys.OrdinalOfAll` | src/hotkey.rs:24-37 | the hotkey at each position of the declaration order is the one with that ordinal |
| `HotKeys.Label` | src/hotkey.rs:39-56 | each display label is non-empty printable ASCII without leading or trailing space |
| `HotKeys.LabelsAreDistinct` | src/hotkey.rs:39-56 | no two hotkeys share a display label |
| `HotKeys.DefaultHotKeys` | src/hotkey.rs:60-87 | the default table has one entry per hotkey, in declaration order |
| `HotKeys.DefaultBindsEachHotKeyOnce` | src/hotkey.rs:64-85 | every hotkey is bound exactly once by default |
| `HotKeys.IsTurbo.constructor` | src/hotkey.rs:20 | the turbo flag starts false |
| `HotKeys.SelectKeepsOrder` | src/hotkey.rs:101-105 | filtering hotkeys in declaration order keeps exactly the chosen ones, in that order, each at most once |
| `HotKeys.CheckedEventsAreJustPressed` | src/hotkey.rs:101-105 | a tick's events are exactly the just-pressed hotkeys, Turbo included, each once, in declaration order |
| `HotKeys.CheckHotkey` | src/hotkey.rs:91-111 | the events sent are the just-pressed hotkeys in declaration order, and the turbo flag is whether Turbo is held |
| `HotKeys.Decimal` | src/hotkey.rs:135-138 | a slot number is shown as decimal digits, at least one, with no leading zero |
| `HotKeys.DecimalRoundTrip` | src/hotkey.rs:149-152 | the slot number in a notification reads back as the slot |
| `HotKeys.Panics` | src/hotkey.rs:131-192 | of the panics the model keeps, only StateSave (a failed save at line 134), Rewind (no emulator in Running, line 172) and ScaleDown (scale 0, line 192) can panic; with an emulator whose saves succeed, or outside Running without one, and a scale ≥ 1, nothing panics |
| `HotKeys.Step` | src/hotkey.rs:122-198 | one hotkey event sends at most one notification and at most one window event; only the slot keys change the slot, only the scale keys the scale, and only Rewind and Menu the state stack; only Reset, StateSave, StateLoad and Rewind change the session, only StateLoad logs an error, only Reset, the state keys and the slot keys send a notification, and only FullScreen and the scale keys send a window event; a scale ≥ 1 stays ≥ 1; emulator presence is unchanged |
| `HotKeys.ProcessHotkey` | src/hotkey.rs:113-199 | the new slot, scale, state stack and session, and what is sent, are the fold of `Step` over the tick's events, provided none panics |
| `HotKeys.ApplyHotkey` | src/hotkey.rs:123-197 | one loop iteration performs exactly `Step` on the resources |
| `HotKeys.PrevSlotSaturates` | src/hotkey.rs:163-168 | PrevSlot gives max(slot − 1, 0) and sends one "State slot changed" message with the new slot |
| `HotKeys.NextThenPrevRestoresSlot` | src/hotkey.rs:156-168 | NextSlot adds exactly 1 with no bound and no emulator and sends one "State slot changed: #n" notification whose number reads back as the new slot; PrevSlot after it restores the slot |
| `HotKeys.ResetWithEmulator` | src/hotkey.rs:124-129 | with an emulator, Reset restarts the machine once and sends exactly "Reset machine"; nothing else changes |
| `HotKeys.StateSaveWithEmulator` | src/hotkey.rs:130-140 | with an emulator, StateSave saves the current slot and sends one "State saved: #n" notification whose number reads back as the slot; nothing else changes |
| `HotKeys.ScaleKeys` | src/hotkey.rs:187-194 | ScaleUp adds 1 and ScaleDown gives max(scale − 1, 1), each sending exactly one Restore; down after up restores the scale |
| `HotKeys.RewindOnlyFromRunning` | src/hotkey.rs:170-176 | in Running, Rewind makes one auto-save and pushes Rewinding above Running; in Menu or Rewinding nothing changes |
| `HotKeys.MenuTransitions` | src/hotkey.rs:177-183 | Running is replaced by Menu; Menu becomes Running only with an emulator; Rewinding is left alone; nothing is suspended |
| `HotKeys.StateLoadFailure` | src/hotkey.rs:141-147 | a failed load sends exactly "Failed to load state", logs one error, and leaves slot, scale, state and session unchanged |
| `HotKeys.StateLoadSuccess` | src/hotkey.rs:148-153 | a successful load records the current slot and reports it in its message, whose number reads back as the slot; it logs no error, sends no window event and changes nothing else |
| `HotKeys.NoEmulatorNoSessionKeys` | src/hotkey.rs:124-155 | without an emulator, Reset, StateSave and StateLoad change nothing and send nothing |
| `HotKeys.TurboAndFullScreen` | src/hotkey.rs:184-196 | Turbo events are ignored; FullScreen only sends one toggle |
| `HotKeys.ScaleKeyWithoutEmulatorPanics` | src/hotkey.rs:187-193 | without an emulator, ScaleUp and ScaleDown still send Restore, which the reconciler cannot handle (it unwraps the missing emulator) |
| `HotKeys.ScaleUpGrowsWindowByOneFrame` | src/hotkey.rs:187-190 | in game and windowed, ScaleUp and its Restore grow the window by one frame buffer in each direction |
| `HotKeys.SafeRunsNeverPanic` | src/hotkey.rs:131-193 | no hotkey sequence panics when the scale is ≥ 1, saves succeed and the state is never Running without an emulator; this condition holds again afterwards. It relies on state transitions taking effect at once; the program's queued transitions would panic at line 179 on Rewind then Menu in one tick (see "## Left out") |
| `HotKeys.RunOutputsGrowByAtMostOne` | src/hotkey.rs:122-198 | a tick sends at most one notification and one window event per hotkey event, after those already sent |

## Left out

- `main`, `setup`, `set_window_icon`, `FpsPlugin` and `fps_system`: these are engine, font, icon and sprite set-up and frame-rate text, with no state logic.
- `setup_audio`: it acquires the audio device, and a missing device is a fatal start-up error.
- The binding evaluator: `pressed` and `just_pressed` live in the input module, which is not part of this model. `HotKeys.CheckHotkey` takes the sets of just-pressed and held hotkeys as inputs. Only the shape of the default bindings is modelled.
- User overrides of the bindings and configuration loading and saving: `src/config.rs` is not part of this model. Only the `scaling` field of the configuration is kept.
- Bevy's `State` rules: `set` and `push` take effect immediately in the model. In Bevy they are queued, and a second transition in the same tick (Rewind then Menu) would fail and its `unwrap` would panic. The queued transitions also change outcomes without a panic. If one run of `process_hotkey` reads Menu (from Menu, with an emulator) before Rewind, the program still sees Menu when Rewind runs and so ends in Running without an auto-save; the model auto-saves and ends in Rewinding. Within one tick `check_hotkey` sends Rewind before Menu, so this order arises only when the reader picks up events from more than one tick.
- Popping Rewinding back to Running happens in the rewinding module, which is not part of this model.
- Event queues and system order: each system takes its events as an explicit list. One tick of latency between systems is not modelled.
- `message_event_system` without a game screen returns before reading its events. Bevy keeps unread events for two ticks, so they could still be shown a tick later. The model drops them.
- The notification animation: the 100 ms CubicInOut easing, fonts, the background sprite and pixel positions. A message's offset is its target row. A message shown while an earlier move is still animating starts from the mid-animation position, and the model does not capture that.
- The order in which the message query yields entities: the model keeps messages in the order they were spawned.
- `images.get(..).unwrap()`, `pixel_font.single()` and `windows.get_primary_mut().unwrap()` are assumed to succeed.
- Integer widths: the slot and the scale are unbounded, so a `usize` overflow at the maximum is not modelled. ScaleDown at scale 0 is a precondition (it panics in a debug build). A release build would wrap instead.
- Logging: only the number of errors logged is kept, not their text.
- Emulator internals (reset, save-state files, the auto-save ring, frame-buffer contents) are outside the model.

## Findings

| source | as written | input that shows it | evidently intended | confidence | as-written member | corrected member |
|---|---|---|---|---|---|---|
| src/app.rs:417-449 | Spawning is deferred to the end of the tick, and every `ShowMessage` eases the same queried entities from their current transforms. So all messages sent in one tick start on the base line, on top of each other, and older messages move up only one step. | NextSlot and Reset pressed in the same tick, with an emulator: two notifications in one tick | each new message moves every earlier one up one row, including those sent earlier in the same tick | medium, not executed | `App.SameTickMessagesOverlap` | `App.ShowInOrderKeepsStacked` |

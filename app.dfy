/// The application shell of src/app.rs: the application-state resource, the
/// window reconciler (`window_control_event`, `restore_window`), the
/// double-click detector (`process_double_click`) and the notification
/// overlay (`message_event_system`, `message_update_system`).
///
/// Each Bevy system is a method over the resources it takes, proved against a
/// pure fold over its event list; the properties the program relies on are
/// lemmas about those folds. Times are whole milliseconds since start-up and
/// sizes are whole pixels.
module App {
  import opened Wrappers
  import opened Core

  // ---------------------------------------------------------------------------
  // Resources
  // ---------------------------------------------------------------------------

  datatype AppState = Menu | Running | Rewinding

  /// Bevy's `State<AppState>` resource: the active state and, beneath it, the
  /// states suspended by `push`. A stack of this shape can never be empty.
  class AppStateStack {
    var current: AppState
    var suspended: seq<AppState>

    /// `app.add_state(AppState::Menu)` starts the stack with one state.
    constructor (initial: AppState)
      ensures current == initial && suspended == []
    {
      current := initial;
      suspended := [];
    }

    /// `set`: replaces the active state; nothing is suspended.
    method Set(s: AppState)
      modifies this
      ensures current == s && suspended == old(suspended)
    {
      current := s;
    }

    /// `push`: suspends the active state beneath the new one.
    method Push(s: AppState)
      modifies this
      ensures current == s && suspended == old(suspended) + [old(current)]
    {
      suspended := suspended + [current];
      current := s;
    }
  }

  /// `UiState`: the selected save-state slot, a `usize` that starts at 0.
  class UiState {
    var stateSaveSlot: nat

    constructor ()
      ensures stateSaveSlot == 0
    {
      stateSaveSlot := 0;
    }
  }

  /// The part of the configuration this layer writes: the window scale factor
  /// (a `usize`).
  class Config {
    var scaling: nat

    constructor (scaling: nat)
      ensures this.scaling == scaling
    {
      this.scaling := scaling;
    }
  }

  /// `FullscreenState`: whether the window is borderless full screen; false
  /// by default.
  class FullscreenState {
    var on: bool

    constructor ()
      ensures !on
    {
      on := false;
    }
  }

  datatype WindowControlEvent = ToggleFullscreen | ChangeScale(scale: nat) | Restore

  datatype WindowMode = Windowed | BorderlessFullscreen

  /// The primary window, as far as this layer sets it.
  class Window {
    var mode: WindowMode
    var resolution: Size

    constructor (resolution: Size)
      ensures mode == Windowed && this.resolution == resolution
    {
      mode := Windowed;
      this.resolution := resolution;
    }

    method SetMode(m: WindowMode)
      modifies this
      ensures mode == m && resolution == old(resolution)
    {
      mode := m;
    }

    method SetResolution(size: Size)
      modifies this
      ensures resolution == size && mode == old(mode)
    {
      resolution := size;
    }
  }

  // ---------------------------------------------------------------------------
  // Window reconciler
  // ---------------------------------------------------------------------------

  /// The window size a state calls for: the menu panel's own size in the menu,
  /// the frame buffer magnified by the scale factor in game.
  function TargetSize(state: AppState, scaling: nat, frameBuffer: Size, menuSize: Size): (r: Size)
    ensures state == Menu ==> r == menuSize
    ensures state != Menu ==> r.width * frameBuffer.height == r.height * frameBuffer.width
    ensures state != Menu && scaling >= 1 ==>
              r.width >= frameBuffer.width && r.height >= frameBuffer.height
  {
    if state == Menu then menuSize
    else Size(frameBuffer.width * scaling, frameBuffer.height * scaling)
  }

  /// The window mode that goes with the full-screen flag.
  function ModeFor(fullscreen: bool): WindowMode
  {
    if fullscreen then BorderlessFullscreen else Windowed
  }

  /// `restore_window`: resizes the window to its target size, unless it is
  /// full screen, where the display decides the size.
  method RestoreWindow(emulator: Emulator, state: AppState, window: Window, fullscreen: bool,
                       scaling: nat, menuSize: Size)
    modifies window
    ensures window.mode == old(window.mode)
    ensures window.resolution ==
              if fullscreen then old(window.resolution)
              else TargetSize(state, scaling, emulator.frameBuffer, menuSize)
  {
    var size := TargetSize(state, scaling, emulator.frameBuffer, menuSize);
    if !fullscreen {
      window.SetResolution(size);
    }
  }

  /// What the window reconciler reads and writes: `FullscreenState`, the
  /// configured scale, and the window's mode and resolution.
  datatype WindowView = WindowView(fullscreen: bool, scaling: nat, mode: WindowMode, resolution: Size)

  function ViewOf(window: Window, fullscreenState: FullscreenState, config: Config): WindowView
    reads window, fullscreenState, config
  {
    WindowView(fullscreenState.on, config.scaling, window.mode, window.resolution)
  }

  /// The frame-buffer size of the emulator, if there is one.
  function FrameBufferOf(emulator: Emulator?): Option<Size>
    reads emulator
  {
    if emulator == null then None else Some(emulator.frameBuffer)
  }

  /// `restore_window` on values.
  function Restored(v: WindowView, state: AppState, frameBuffer: Size, menuSize: Size): WindowView
  {
    if v.fullscreen then v else v.(resolution := TargetSize(state, v.scaling, frameBuffer, menuSize))
  }

  /// An event the reconciler can handle without panicking: `Restore` unwraps
  /// the emulator, and so does `ChangeScale` when the state is Running.
  predicate WindowEventDefined(e: WindowControlEvent, state: AppState, frameBuffer: Option<Size>)
    ensures frameBuffer.Some? ==> WindowEventDefined(e, state, frameBuffer)
    ensures e.ToggleFullscreen? ==> WindowEventDefined(e, state, frameBuffer)
    ensures e.Restore? && frameBuffer.None? ==> !WindowEventDefined(e, state, frameBuffer)
  {
    match e
    case ToggleFullscreen => true
    case ChangeScale(_) => state == Running ==> frameBuffer.Some?
    case Restore => frameBuffer.Some?
  }

  /// One event of `window_control_event`. A toggle flips the flag and sets the
  /// matching window mode, and re-applies the geometry only when there is an
  /// emulator; a scale change is stored unclamped and resizes only when the
  /// state is Running. Whatever the event, the resolution only ever changes to
  /// the target size, and never while full screen.
  function WindowStep(v: WindowView, e: WindowControlEvent, state: AppState,
                      frameBuffer: Option<Size>, menuSize: Size): (r: WindowView)
    requires WindowEventDefined(e, state, frameBuffer)
    ensures r.fullscreen == (v.fullscreen != e.ToggleFullscreen?)
    ensures r.mode == if e.ToggleFullscreen? then ModeFor(r.fullscreen) else v.mode
    ensures r.scaling == if e.ChangeScale? then e.scale else v.scaling
    ensures r.resolution != v.resolution ==>
              !r.fullscreen && frameBuffer.Some? &&
              r.resolution == TargetSize(state, r.scaling, frameBuffer.value, menuSize)
    ensures e.ToggleFullscreen? && frameBuffer.None? ==> r.resolution == v.resolution
    ensures e.ChangeScale? && state != Running ==> r.resolution == v.resolution
    ensures frameBuffer.Some? && !r.fullscreen &&
            (e.Restore? || e.ToggleFullscreen? || (e.ChangeScale? && state == Running)) ==>
              r.resolution == TargetSize(state, r.scaling, frameBuffer.value, menuSize)
  {
    match e
    case ToggleFullscreen =>
      var toggled := v.(fullscreen := !v.fullscreen, mode := ModeFor(!v.fullscreen));
      if frameBuffer.Some? then Restored(toggled, state, frameBuffer.value, menuSize) else toggled
    case ChangeScale(scale) =>
      var rescaled := v.(scaling := scale);
      if state == Running then Restored(rescaled, state, frameBuffer.value, menuSize) else rescaled
    case Restore =>
      Restored(v, state, frameBuffer.value, menuSize)
  }

  predicate WindowEventsDefined(events: seq<WindowControlEvent>, state: AppState, frameBuffer: Option<Size>)
  {
    forall i :: 0 <= i < |events| ==> WindowEventDefined(events[i], state, frameBuffer)
  }

  /// The reconciler's events folded from the first to the last.
  function WindowRun(v: WindowView, events: seq<WindowControlEvent>, state: AppState,
                     frameBuffer: Option<Size>, menuSize: Size): WindowView
    requires WindowEventsDefined(events, state, frameBuffer)
  {
    if events == [] then v
    else
      var n := |events| - 1;
      WindowStep(WindowRun(v, events[..n], state, frameBuffer, menuSize), events[n], state, frameBuffer, menuSize)
  }

  /// `window_control_event`: the application state is read once, before the
  /// events are handled, and the events cannot change it.
  method ProcessWindowControlEvents(events: seq<WindowControlEvent>, window: Window,
                                    fullscreenState: FullscreenState, config: Config,
                                    appState: AppStateStack, emulator: Emulator?, menuSize: Size)
    requires WindowEventsDefined(events, appState.current, FrameBufferOf(emulator))
    modifies window, fullscreenState, config
    ensures ViewOf(window, fullscreenState, config) ==
              WindowRun(old(ViewOf(window, fullscreenState, config)), events, appState.current,
                        FrameBufferOf(emulator), menuSize)
  {
    var running := appState.current == Running;
    for i := 0 to |events|
      invariant ViewOf(window, fullscreenState, config) ==
                  WindowRun(old(ViewOf(window, fullscreenState, config)), events[..i], appState.current,
                            FrameBufferOf(emulator), menuSize)
    {
      assert events[..i + 1][..i] == events[..i];
      match events[i]
      case ToggleFullscreen =>
        fullscreenState.on := !fullscreenState.on;
        if fullscreenState.on {
          window.SetMode(BorderlessFullscreen);
        } else {
          window.SetMode(Windowed);
        }
        if emulator != null {
          RestoreWindow(emulator, appState.current, window, fullscreenState.on, config.scaling, menuSize);
        }
      case ChangeScale(scale) =>
        config.scaling := scale;
        if running {
          RestoreWindow(emulator, appState.current, window, fullscreenState.on, config.scaling, menuSize);
        }
      case Restore =>
        RestoreWindow(emulator, appState.current, window, fullscreenState.on, config.scaling, menuSize);
    }
    assert events[..|events|] == events;
  }

  /// Two toggles give back the flag and the window mode, provided the mode
  /// matched the flag to begin with.
  lemma ToggleTwiceRestoresMode(v: WindowView, state: AppState, frameBuffer: Option<Size>, menuSize: Size)
    requires v.mode == ModeFor(v.fullscreen)
    ensures var twice := WindowStep(WindowStep(v, ToggleFullscreen, state, frameBuffer, menuSize),
                                    ToggleFullscreen, state, frameBuffer, menuSize);
            twice.fullscreen == v.fullscreen && twice.mode == v.mode && twice.scaling == v.scaling
  {
  }

  /// Whatever the events, the window mode keeps matching the full-screen flag
  /// (it does at start-up: windowed and not full screen).
  lemma {:induction false} ModeTracksFullscreen(v: WindowView, events: seq<WindowControlEvent>, state: AppState,
                                                frameBuffer: Option<Size>, menuSize: Size)
    requires WindowEventsDefined(events, state, frameBuffer)
    requires v.mode == ModeFor(v.fullscreen)
    ensures var r := WindowRun(v, events, state, frameBuffer, menuSize); r.mode == ModeFor(r.fullscreen)
  {
    if events != [] {
      var n := |events| - 1;
      assert WindowEventsDefined(events[..n], state, frameBuffer) by {
        forall i | 0 <= i < n ensures WindowEventDefined(events[..n][i], state, frameBuffer) {
          assert events[..n][i] == events[i];
        }
      }
      ModeTracksFullscreen(v, events[..n], state, frameBuffer, menuSize);
    }
  }

  /// In game and windowed, `Restore` sizes the window to the frame buffer
  /// times the scale; in the menu, to the menu panel.
  lemma RestoreSizesWindow(v: WindowView, state: AppState, frameBuffer: Size, menuSize: Size)
    requires !v.fullscreen
    ensures var r := WindowStep(v, Restore, state, Some(frameBuffer), menuSize);
            r.resolution == if state == Menu then menuSize
                            else Size(frameBuffer.width * v.scaling, frameBuffer.height * v.scaling)
  {
  }

  /// While full screen, no event other than a toggle touches the resolution.
  lemma FullscreenKeepsResolution(v: WindowView, e: WindowControlEvent, state: AppState,
                                  frameBuffer: Option<Size>, menuSize: Size)
    requires WindowEventDefined(e, state, frameBuffer)
    requires v.fullscreen && !e.ToggleFullscreen?
    ensures WindowStep(v, e, state, frameBuffer, menuSize).resolution == v.resolution
  {
  }

  // ---------------------------------------------------------------------------
  // Double-click detection
  // ---------------------------------------------------------------------------

  datatype MouseButton = Left | Right | Middle | Other(code: nat)

  datatype ButtonState = Pressed | Released

  datatype MouseButtonInput = MouseButtonInput(button: MouseButton, state: ButtonState)

  /// Two left presses closer than this many milliseconds make a double-click.
  const DoubleClickWindow: int := 250

  /// After a double-click the last-click time is moved this far into the past,
  /// so that the next press cannot pair with the second click.
  const Backdate: int := 1000

  /// `LastClicked`: the time of the last registered left press; 0 at start-up.
  class LastClicked {
    var at: int

    constructor ()
      ensures at == 0
    {
      at := 0;
    }
  }

  /// The detector's state together with the events it has sent so far.
  datatype ClickState = ClickState(last: int, sent: seq<WindowControlEvent>)

  predicate IsLeftPress(ev: MouseButtonInput)
  {
    ev.button == Left && ev.state == Pressed
  }

  /// One mouse event of `process_double_click` at time `now`: a left press
  /// that comes less than `DoubleClickWindow` after the last one sends one
  /// toggle and backdates the last-click time; any other left press becomes
  /// the last click; every other event is ignored.
  function ClickStep(c: ClickState, ev: MouseButtonInput, now: int): (r: ClickState)
    ensures !IsLeftPress(ev) ==> r == c
    ensures IsLeftPress(ev) ==>
              (r.sent == c.sent + [ToggleFullscreen] <==> now - c.last < DoubleClickWindow) &&
              (r.sent == c.sent <==> now - c.last >= DoubleClickWindow)
    ensures IsLeftPress(ev) ==> r.last == if now - c.last < DoubleClickWindow then now - Backdate else now
  {
    if IsLeftPress(ev) then
      if now - c.last < DoubleClickWindow then ClickState(now - Backdate, c.sent + [ToggleFullscreen])
      else ClickState(now, c.sent)
    else c
  }

  /// The mouse events of one tick, all seen at the same time `now`.
  function ClickRun(c: ClickState, events: seq<MouseButtonInput>, now: int): ClickState
  {
    if events == [] then c
    else ClickStep(ClickRun(c, events[..|events| - 1], now), events[|events| - 1], now)
  }

  /// `process_double_click`.
  method ProcessDoubleClick(events: seq<MouseButtonInput>, now: int, lastClicked: LastClicked)
    returns (sent: seq<WindowControlEvent>)
    modifies lastClicked
    ensures ClickState(lastClicked.at, sent) == ClickRun(ClickState(old(lastClicked.at), []), events, now)
  {
    sent := [];
    for i := 0 to |events|
      invariant ClickState(lastClicked.at, sent) == ClickRun(ClickState(old(lastClicked.at), []), events[..i], now)
    {
      assert events[..i + 1][..i] == events[..i];
      var ev := events[i];
      if ev.button == Left && ev.state == Pressed {
        var diff := now - lastClicked.at;
        if diff < DoubleClickWindow {
          sent := sent + [ToggleFullscreen];
          lastClicked.at := now - Backdate;
        } else {
          lastClicked.at := now;
        }
      }
    }
    assert events[..|events|] == events;
  }

  const LeftPress := MouseButtonInput(Left, Pressed)

  /// Exactly `DoubleClickWindow` apart is not a double-click; one millisecond
  /// less is.
  lemma DoubleClickWindowIsStrict(last: int, sent: seq<WindowControlEvent>)
    ensures ClickStep(ClickState(last, sent), LeftPress, last + DoubleClickWindow).sent == sent
    ensures ClickStep(ClickState(last, sent), LeftPress, last + DoubleClickWindow - 1).sent
              == sent + [ToggleFullscreen]
  {
  }

  /// After a double-click, a press at any later time (or in the same tick)
  /// does not toggle again.
  lemma NoToggleRightAfterDoubleClick(c: ClickState, t: int, delay: nat)
    requires ClickStep(c, LeftPress, t).sent != c.sent
    ensures var after := ClickStep(c, LeftPress, t);
            ClickStep(after, LeftPress, t + delay).sent == after.sent
  {
  }

  /// Because the last-click time starts at 0, a first press before
  /// `DoubleClickWindow` after start-up already toggles.
  lemma EarlyFirstClickToggles(now: int)
    requires now < DoubleClickWindow
    ensures ClickStep(ClickState(0, []), LeftPress, now).sent == [ToggleFullscreen]
  {
  }

  /// A tick holding a single left press is one `ClickStep`, so `PressAt`
  /// below is `ProcessDoubleClick` run once per tick.
  lemma OnePressTick(c: ClickState, now: int)
    ensures ClickRun(c, [LeftPress], now) == ClickStep(c, LeftPress, now)
  {
    assert [LeftPress][..0] == [];
  }

  /// Presses at the given times, one per tick.
  function PressAt(start: int, times: seq<int>): ClickState
  {
    if times == [] then ClickState(start, [])
    else ClickStep(PressAt(start, times[..|times| - 1]), LeftPress, times[|times| - 1])
  }

  /// Reference definition of double-clicks, without the backdating trick:
  /// presses pair up greedily, the last press completes a pair when it comes
  /// within the window after the one before it (or after `start`, for the
  /// first press) and that one did not itself complete a pair.
  predicate LastPressPairs(start: int, times: seq<int>)
    requires times != []
  {
    var n := |times| - 1;
    var before := if n == 0 then start else times[n - 1];
    times[n] - before < DoubleClickWindow && (n == 0 || !LastPressPairs(start, times[..n]))
  }

  /// How many pairs the reference definition finds.
  function PairCount(start: int, times: seq<int>): nat
  {
    if times == [] then 0
    else PairCount(start, times[..|times| - 1]) + (if LastPressPairs(start, times) then 1 else 0)
  }

  /// Times that never go backwards, starting from `start`.
  predicate Monotone(start: int, times: seq<int>)
  {
    (times != [] ==> start <= times[0]) &&
    forall i :: 0 < i < |times| ==> times[i - 1] <= times[i]
  }

  /// On a clock that never goes backwards, the detector toggles exactly when
  /// the reference pairing completes a pair: the backdating makes the press
  /// after a double-click start afresh.
  lemma {:induction false} DoubleClicksPairGreedily(start: int, times: seq<int>)
    requires Monotone(start, times)
    ensures |PressAt(start, times).sent| == PairCount(start, times)
    ensures times != [] ==>
              PressAt(start, times).last ==
                if LastPressPairs(start, times) then times[|times| - 1] - Backdate else times[|times| - 1]
  {
    if times != [] {
      var n := |times| - 1;
      assert Monotone(start, times[..n]);
      DoubleClicksPairGreedily(start, times[..n]);
    }
  }

  // ---------------------------------------------------------------------------
  // Notification overlay
  // ---------------------------------------------------------------------------

  /// A message entity: its text, the time it was shown (`MessageText.start`)
  /// and the offset its transform is heading for, counted in 20-pixel steps
  /// above the base line at the bottom of the screen.
  datatype Message = Message(text: string, start: int, offset: nat)

  /// A message is despawned once it is older than this many milliseconds.
  const Lifetime: int := 3000

  /// The pixel height of one offset step.
  const StepPixels: nat := 20

  /// The pixel height of a message's text and of its backing strip.
  const LineHeight: nat := 16

  /// How far above the base line a message's transform is heading.
  function Lift(m: Message): nat
  {
    m.offset * StepPixels
  }

  /// The message entities alive in the world.
  class MessageBoard {
    var shown: seq<Message>

    constructor ()
      ensures shown == []
    {
      shown := [];
    }
  }

  /// Every message moved one step up.
  function Bumped(ms: seq<Message>): seq<Message>
  {
    seq(|ms|, i requires 0 <= i < |ms| => ms[i].(offset := ms[i].offset + 1))
  }

  /// The messages spawned for the given texts, all at the base line.
  function Spawned(texts: seq<string>, now: int): seq<Message>
  {
    seq(|texts|, i requires 0 <= i < |texts| => Message(texts[i], now, 0))
  }

  /// One tick of `message_event_system` as written. Spawning is deferred to
  /// the end of the tick and every text eases the same queried transforms, so
  /// the messages that were there move up exactly one step however many texts
  /// arrive, and all the new ones start on the base line.
  function ShowTick(ms: seq<Message>, texts: seq<string>, now: int): seq<Message>
  {
    if texts == [] then ms else Bumped(ms) + Spawned(texts, now)
  }

  /// `message_event_system`: nothing happens while there is no game screen.
  method MessageEventSystem(board: MessageBoard, events: seq<string>, now: int, screenPresent: bool)
    modifies board
    ensures board.shown == if screenPresent then ShowTick(old(board.shown), events, now) else old(board.shown)
  {
    if !screenPresent {
      return;
    }
    var queried := board.shown;
    var eased := queried;
    var spawned: seq<Message> := [];
    for i := 0 to |events|
      invariant eased == if i == 0 then queried else Bumped(queried)
      invariant spawned == Spawned(events[..i], now)
    {
      var moved: seq<Message> := [];
      for j := 0 to |queried|
        invariant |moved| == j
        invariant forall k :: 0 <= k < j ==> moved[k] == queried[k].(offset := queried[k].offset + 1)
      {
        moved := moved + [queried[j].(offset := queried[j].offset + 1)];
      }
      eased := moved;
      spawned := spawned + [Message(events[i], now, 0)];
    }
    assert events[..|events|] == events;
    board.shown := eased + spawned;
  }

  /// The messages that survive at time `now`, in their order.
  function Live(ms: seq<Message>, now: int): seq<Message>
  {
    if ms == [] then []
    else
      var n := |ms| - 1;
      Live(ms[..n], now) + (if now - ms[n].start > Lifetime then [] else [ms[n]])
  }

  /// `message_update_system`.
  method MessageUpdateSystem(board: MessageBoard, now: int)
    modifies board
    ensures board.shown == Live(old(board.shown), now)
  {
    var ms := board.shown;
    var kept: seq<Message> := [];
    for j := 0 to |ms|
      invariant kept == Live(ms[..j], now)
    {
      assert ms[..j + 1][..j] == ms[..j];
      if now - ms[j].start > Lifetime {
        // despawned
      } else {
        kept := kept + [ms[j]];
      }
    }
    assert ms[..|ms|] == ms;
    board.shown := kept;
  }

  /// A message survives exactly while it is at most `Lifetime` old, unchanged.
  lemma {:induction false} LiveIff(ms: seq<Message>, now: int, m: Message)
    ensures m in Live(ms, now) <==> m in ms && now - m.start <= Lifetime
  {
    if ms != [] {
      var n := |ms| - 1;
      LiveIff(ms[..n], now, m);
      assert ms == ms[..n] + [ms[n]];
    }
  }

  /// Shown at 0 ms, a message is still there at 3000 ms and gone at 3001 ms.
  lemma ExpiryIsStrict(text: string, offset: nat)
    ensures Live([Message(text, 0, offset)], Lifetime) == [Message(text, 0, offset)]
    ensures Live([Message(text, 0, offset)], Lifetime + 1) == []
  {
  }

  /// Every message on its own row, older messages above newer ones.
  predicate Stacked(ms: seq<Message>)
  {
    forall i, j :: 0 <= i < j < |ms| ==> ms[i].offset > ms[j].offset
  }

  /// One text in a tick: the new message goes to the base line and every
  /// other message moves up exactly one step, so the rows stay distinct.
  lemma ShowOneKeepsStacked(ms: seq<Message>, text: string, now: int)
    requires Stacked(ms)
    ensures var r := ShowTick(ms, [text], now);
            Stacked(r) && |r| == |ms| + 1 && r[|ms|] == Message(text, now, 0) &&
            forall i :: 0 <= i < |ms| ==> r[i] == ms[i].(offset := ms[i].offset + 1)
  {
  }

  /// Expiry removes messages without moving the others, so rows stay distinct.
  lemma {:induction false} LiveKeepsStacked(ms: seq<Message>, now: int)
    requires Stacked(ms)
    ensures Stacked(Live(ms, now))
  {
    if ms != [] {
      var n := |ms| - 1;
      var rest := Live(ms[..n], now);
      LiveKeepsStacked(ms[..n], now);
      forall m | m in rest ensures m.offset > ms[n].offset {
        LiveIff(ms[..n], now, m);
      }
    }
  }

  /// On a stacked board no two messages' 16-pixel strips share a pixel row,
  /// because one step (20 pixels) is taller than a strip.
  lemma StackedStripsAreDisjoint(ms: seq<Message>, i: int, j: int)
    requires Stacked(ms) && 0 <= i < j < |ms|
    ensures Lift(ms[j]) + LineHeight < Lift(ms[i])
  {
    assert ms[i].offset >= ms[j].offset + 1;
  }

  /// As written, two texts in the same tick land on the same row: both new
  /// messages sit on the base line, and the older ones move up only one step.
  lemma SameTickMessagesOverlap(ms: seq<Message>, first: string, second: string, now: int)
    ensures var r := ShowTick(ms, [first, second], now);
            |r| == |ms| + 2 && r[|ms|].offset == 0 && r[|ms| + 1].offset == 0 && !Stacked(r) &&
            forall i :: 0 <= i < |ms| ==> r[i].offset == ms[i].offset + 1
  {
    var r := ShowTick(ms, [first, second], now);
    assert r[|ms|].offset == r[|ms| + 1].offset;
  }

  /// The intended behaviour: each text is shown in turn, moving up every
  /// message already there, including those shown earlier in the same tick.
  function ShowInOrder(ms: seq<Message>, texts: seq<string>, now: int): seq<Message>
  {
    if texts == [] then ms
    else ShowTick(ShowInOrder(ms, texts[..|texts| - 1], now), [texts[|texts| - 1]], now)
  }

  /// Shown in turn, any number of texts keeps every message on its own row,
  /// and the last text is the one on the base line.
  lemma {:induction false} ShowInOrderKeepsStacked(ms: seq<Message>, texts: seq<string>, now: int)
    requires Stacked(ms)
    ensures var r := ShowInOrder(ms, texts, now);
            Stacked(r) && |r| == |ms| + |texts| &&
            (texts != [] ==> r[|r| - 1] == Message(texts[|texts| - 1], now, 0))
  {
    if texts != [] {
      var n := |texts| - 1;
      ShowInOrderKeepsStacked(ms, texts[..n], now);
      ShowOneKeepsStacked(ShowInOrder(ms, texts[..n], now), texts[n], now);
    }
  }
}

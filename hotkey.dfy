/// The hotkey layer of src/hotkey.rs: the eleven hotkeys, their labels and
/// default bindings, `check_hotkey` (which turns the binding predicates into
/// hotkey events and the turbo flag) and `process_hotkey` (which folds the
/// events into the save slot, the window scale, the application state, calls
/// on the emulator, notifications and window-control events).
module HotKeys {
  import opened Wrappers
  import opened Core
  import App

  // ---------------------------------------------------------------------------
  // The hotkeys and their default bindings
  // ---------------------------------------------------------------------------

  datatype HotKey =
    | Reset
    | Turbo
    | StateSave
    | StateLoad
    | NextSlot
    | PrevSlot
    | Rewind
    | Menu
    | FullScreen
    | ScaleUp
    | ScaleDown

  /// `all::<HotKey>()`: every hotkey, in declaration order.
  const AllHotKeys: seq<HotKey> :=
    [Reset, Turbo, StateSave, StateLoad, NextSlot, PrevSlot, Rewind, Menu, FullScreen, ScaleUp, ScaleDown]

  /// The position of a hotkey in the declaration order.
  function Ordinal(h: HotKey): (i: nat)
    ensures i < |AllHotKeys| && AllHotKeys[i] == h
  {
    match h
    case Reset => 0
    case Turbo => 1
    case StateSave => 2
    case StateLoad => 3
    case NextSlot => 4
    case PrevSlot => 5
    case Rewind => 6
    case Menu => 7
    case FullScreen => 8
    case ScaleUp => 9
    case ScaleDown => 10
  }

  /// Each hotkey occurs in `AllHotKeys` once, at its ordinal.
  lemma OrdinalOfAll(i: nat)
    requires i < |AllHotKeys|
    ensures Ordinal(AllHotKeys[i]) == i
  {
  }

  /// The `Display` text of a hotkey (the two misspellings are the program's).
  function Label(h: HotKey): (r: string)
    ensures 0 < |r| && forall i :: 0 <= i < |r| ==> ' ' <= r[i] <= '~'
    ensures r[0] != ' ' && r[|r| - 1] != ' '
  {
    match h
    case Reset => "Reset"
    case Turbo => "Turbo"
    case StateSave => "State Save"
    case StateLoad => "State Load"
    case NextSlot => "State Slot Next"
    case PrevSlot => "State Slot Prev"
    case Rewind => "Start Rewindng"
    case Menu => "Enter/Leave Menu"
    case FullScreen => "Fullsceen"
    case ScaleUp => "Window Scale +"
    case ScaleDown => "Window Scale -"
  }

  /// No two hotkeys share a label.
  lemma LabelsAreDistinct(a: HotKey, b: HotKey)
    requires Label(a) == Label(b)
    ensures a == b
  {
  }

  /// The keys the default bindings use.
  datatype KeyCode = LControl | R | Tab | S | L | N | P | Back | Escape | RAlt | Return | Plus | Equals | Minus

  /// The gamepad buttons the default bindings use.
  datatype GamepadButtonType = LeftTrigger2 | RightTrigger2

  /// A single input: a key, or a button of the gamepad with the given index.
  datatype InputLeaf = Key(code: KeyCode) | PadButton(pad: nat, button: GamepadButtonType)

  /// A binding: one input, all of several bindings together, or any of them.
  datatype BindingNode = Leaf(input: InputLeaf) | All(children: seq<BindingNode>) | Any(children: seq<BindingNode>)

  /// `HotKeys::default`: one binding per hotkey, in declaration order.
  function DefaultHotKeys(): (table: seq<(HotKey, BindingNode)>)
    ensures |table| == |AllHotKeys|
    ensures forall i :: 0 <= i < |table| ==> table[i].0 == AllHotKeys[i]
  {
    [ (Reset, All([Leaf(Key(LControl)), Leaf(Key(R))])),
      (Turbo, Any([Leaf(Key(Tab)), Leaf(PadButton(0, LeftTrigger2))])),
      (StateSave, All([Leaf(Key(LControl)), Leaf(Key(S))])),
      (StateLoad, All([Leaf(Key(LControl)), Leaf(Key(L))])),
      (NextSlot, All([Leaf(Key(LControl)), Leaf(Key(N))])),
      (PrevSlot, All([Leaf(Key(LControl)), Leaf(Key(P))])),
      (Rewind, Any([Leaf(Key(Back)), All([Leaf(PadButton(0, LeftTrigger2)), Leaf(PadButton(0, RightTrigger2))])])),
      (Menu, Leaf(Key(Escape))),
      (FullScreen, All([Leaf(Key(RAlt)), Leaf(Key(Return))])),
      (ScaleUp, All([Leaf(Key(LControl)), Any([Leaf(Key(Plus)), Leaf(Key(Equals))])])),
      (ScaleDown, All([Leaf(Key(LControl)), Leaf(Key(Minus))]))
    ]
  }

  /// The default table binds every hotkey exactly once.
  lemma DefaultBindsEachHotKeyOnce(h: HotKey)
    ensures var table := DefaultHotKeys();
            table[Ordinal(h)].0 == h &&
            forall i :: 0 <= i < |table| && table[i].0 == h ==> i == Ordinal(h)
  {
    var table := DefaultHotKeys();
    forall i | 0 <= i < |table| && table[i].0 == h ensures i == Ordinal(h) {
      OrdinalOfAll(i);
    }
  }

  // ---------------------------------------------------------------------------
  // check_hotkey
  // ---------------------------------------------------------------------------

  /// `IsTurbo`: whether the turbo hotkey is held this tick; false at start-up.
  class IsTurbo {
    var on: bool

    constructor ()
      ensures !on
    {
      on := false;
    }
  }

  /// The hotkeys of `hs` that are in `chosen`, in the order of `hs`.
  function Select(hs: seq<HotKey>, chosen: set<HotKey>): seq<HotKey>
  {
    if hs == [] then []
    else
      var n := |hs| - 1;
      Select(hs[..n], chosen) + (if hs[n] in chosen then [hs[n]] else [])
  }

  predicate InDeclarationOrder(hs: seq<HotKey>)
  {
    forall i, j :: 0 <= i < j < |hs| ==> Ordinal(hs[i]) < Ordinal(hs[j])
  }

  /// Selecting from hotkeys in declaration order keeps exactly the chosen ones,
  /// still in declaration order (and so each at most once).
  lemma {:induction false} SelectKeepsOrder(hs: seq<HotKey>, chosen: set<HotKey>)
    requires InDeclarationOrder(hs)
    ensures forall h :: h in Select(hs, chosen) <==> h in hs && h in chosen
    ensures InDeclarationOrder(Select(hs, chosen))
  {
    if hs != [] {
      var n := |hs| - 1;
      assert InDeclarationOrder(hs[..n]);
      SelectKeepsOrder(hs[..n], chosen);
      assert hs == hs[..n] + [hs[n]];
      forall h | h in Select(hs[..n], chosen) ensures Ordinal(h) < Ordinal(hs[n]) {
        var k :| 0 <= k < n && hs[k] == h;
      }
    }
  }

  /// The events of one tick are exactly the hotkeys whose binding was just
  /// pressed, each once, in declaration order, Turbo included.
  lemma CheckedEventsAreJustPressed(justPressed: set<HotKey>)
    ensures forall h :: h in Select(AllHotKeys, justPressed) <==> h in justPressed
    ensures InDeclarationOrder(Select(AllHotKeys, justPressed))
  {
    forall h ensures h in AllHotKeys {
      assert AllHotKeys[Ordinal(h)] == h;
    }
    forall i, j | 0 <= i < j < |AllHotKeys| ensures Ordinal(AllHotKeys[i]) < Ordinal(AllHotKeys[j]) {
      OrdinalOfAll(i);
      OrdinalOfAll(j);
    }
    SelectKeepsOrder(AllHotKeys, justPressed);
  }

  /// `check_hotkey`. The binding evaluator lives outside this model: for each
  /// hotkey, whether its binding was just pressed this tick, and whether it is
  /// held, arrive as the sets `justPressed` and `pressed`.
  method CheckHotkey(justPressed: set<HotKey>, pressed: set<HotKey>, isTurbo: IsTurbo)
    returns (events: seq<HotKey>)
    modifies isTurbo
    ensures events == Select(AllHotKeys, justPressed)
    ensures isTurbo.on == (Turbo in pressed)
  {
    events := [];
    for i := 0 to |AllHotKeys|
      invariant events == Select(AllHotKeys[..i], justPressed)
    {
      assert AllHotKeys[..i + 1][..i] == AllHotKeys[..i];
      var hotkey := AllHotKeys[i];
      if hotkey in justPressed {
        events := events + [hotkey];
      }
    }
    assert AllHotKeys[..|AllHotKeys|] == AllHotKeys;
    isTurbo.on := Turbo in pressed;
  }

  // ---------------------------------------------------------------------------
  // Decimal numbers in notifications
  // ---------------------------------------------------------------------------

  function Digit(d: nat): char
    requires d < 10
  {
    ('0' as int + d) as char
  }

  predicate IsDigit(ch: char)
  {
    '0' <= ch <= '9'
  }

  function DigitValue(ch: char): nat
    requires IsDigit(ch)
  {
    ch as int - '0' as int
  }

  /// `format!("{}", n)` for an unsigned number: its decimal digits, without
  /// leading zeros.
  function Decimal(n: nat): (s: string)
    ensures |s| >= 1
    ensures forall i :: 0 <= i < |s| ==> IsDigit(s[i])
    ensures s[0] == '0' ==> n == 0
  {
    if n < 10 then [Digit(n)] else Decimal(n / 10) + [Digit(n % 10)]
  }

  /// Reads a string of decimal digits back as a number.
  function ParseDecimal(s: string): nat
    requires forall i :: 0 <= i < |s| ==> IsDigit(s[i])
  {
    if s == [] then 0
    else ParseDecimal(s[..|s| - 1]) * 10 + DigitValue(s[|s| - 1])
  }

  /// The number in a notification can be read back.
  lemma {:induction false} DecimalRoundTrip(n: nat)
    ensures ParseDecimal(Decimal(n)) == n
  {
    if n >= 10 {
      DecimalRoundTrip(n / 10);
      var s := Decimal(n);
      assert s[..|s| - 1] == Decimal(n / 10);
    }
  }

  // ---------------------------------------------------------------------------
  // process_hotkey
  // ---------------------------------------------------------------------------

  const SlotChangedPrefix := "State slot changed: #"
  const StateSavedPrefix := "State saved: #"
  const StateLoadedPrefix := "State loaded: #"
  const ResetText := "Reset machine"
  const LoadFailedText := "Failed to load state"

  /// What `process_hotkey` sends: notifications (`ShowMessage`),
  /// window-control events, and how many errors it logged.
  datatype Outputs = Outputs(messages: seq<string>, windowEvents: seq<App.WindowControlEvent>, errorsLogged: nat)

  /// Everything `process_hotkey` reads and writes: the save slot, the window
  /// scale, the application-state stack, the emulator session if there is one,
  /// and what it has sent so far.
  datatype Controls = Controls(
    slot: nat,
    scaling: nat,
    current: App.AppState,
    suspended: seq<App.AppState>,
    session: Option<Session>,
    out: Outputs)

  function Say(c: Controls, text: string): Controls
  {
    c.(out := c.out.(messages := c.out.messages + [text]))
  }

  function Send(c: Controls, e: App.WindowControlEvent): Controls
  {
    c.(out := c.out.(windowEvents := c.out.windowEvents + [e]))
  }

  /// The hotkeys that panic in the given state: a save that fails is
  /// unwrapped; Rewind in Running unwraps the emulator; ScaleDown at scale 0
  /// underflows the unsigned subtraction.
  predicate Panics(c: Controls, h: HotKey)
    ensures Panics(c, h) ==> h in {StateSave, Rewind, ScaleDown}
    ensures c.session.Some? && c.session.value.saveSucceeds && c.scaling >= 1 ==> !Panics(c, h)
    ensures c.session.None? && c.current != App.Running && c.scaling >= 1 ==> !Panics(c, h)
  {
    match h
    case StateSave => c.session.Some? && !c.session.value.saveSucceeds
    case Rewind => c.current == App.Running && c.session.None?
    case ScaleDown => c.scaling == 0
    case _ => false
  }

  /// One hotkey event of `process_hotkey`. It sends at most one notification
  /// and at most one window event; only the slot keys change the slot, only
  /// the scale keys the scale and only Rewind and Menu the state stack; the
  /// scale never drops below 1 once it is at least 1. Only the session keys
  /// and Rewind touch the emulator, only a failed load logs an error, only the
  /// session and slot keys send a notification, and only FullScreen and the
  /// scale keys send a window event.
  function Step(c: Controls, h: HotKey): (r: Controls)
    requires !Panics(c, h)
    ensures r.session.Some? == c.session.Some?
    ensures c.out.messages <= r.out.messages && |r.out.messages| <= |c.out.messages| + 1
    ensures c.out.windowEvents <= r.out.windowEvents && |r.out.windowEvents| <= |c.out.windowEvents| + 1
    ensures r.slot != c.slot ==> h == NextSlot || h == PrevSlot
    ensures r.scaling != c.scaling ==> h == ScaleUp || h == ScaleDown
    ensures r.current != c.current || r.suspended != c.suspended ==> h == Rewind || h == Menu
    ensures r.session != c.session ==> h in {Reset, StateSave, StateLoad, Rewind}
    ensures r.out.errorsLogged != c.out.errorsLogged ==> h == StateLoad
    ensures r.out.messages != c.out.messages ==> h in {Reset, StateSave, StateLoad, NextSlot, PrevSlot}
    ensures r.out.windowEvents != c.out.windowEvents ==> h in {FullScreen, ScaleUp, ScaleDown}
    ensures c.scaling >= 1 ==> r.scaling >= 1
    ensures r.session.Some? ==> r.session.value.saveSucceeds == c.session.value.saveSucceeds
  {
    match h
    case Reset =>
      if c.session.Some? then
        var s := c.session.value;
        Say(c.(session := Some(s.(resets := s.resets + 1))), ResetText)
      else c
    case StateSave =>
      if c.session.Some? then
        var s := c.session.value;
        Say(c.(session := Some(s.(savedSlots := s.savedSlots + [c.slot]))), StateSavedPrefix + Decimal(c.slot))
      else c
    case StateLoad =>
      if c.session.Some? then
        var s := c.session.value;
        if s.loadSucceeds then
          Say(c.(session := Some(s.(loadedSlots := s.loadedSlots + [c.slot]))), StateLoadedPrefix + Decimal(c.slot))
        else
          var failed := Say(c, LoadFailedText);
          failed.(out := failed.out.(errorsLogged := failed.out.errorsLogged + 1))
      else c
    case NextSlot =>
      var next := c.(slot := c.slot + 1);
      Say(next, SlotChangedPrefix + Decimal(next.slot))
    case PrevSlot =>
      var prev := c.(slot := if c.slot == 0 then 0 else c.slot - 1);
      Say(prev, SlotChangedPrefix + Decimal(prev.slot))
    case Rewind =>
      if c.current == App.Running then
        var s := c.session.value;
        c.(session := Some(s.(autoSaves := s.autoSaves + 1)),
           current := App.Rewinding, suspended := c.suspended + [c.current])
      else c
    case Menu =>
      if c.current == App.Running then c.(current := App.Menu)
      else if c.current == App.Menu && c.session.Some? then c.(current := App.Running)
      else c
    case FullScreen =>
      Send(c, App.ToggleFullscreen)
    case ScaleUp =>
      Send(c.(scaling := c.scaling + 1), App.Restore)
    case ScaleDown =>
      Send(c.(scaling := if c.scaling - 1 < 1 then 1 else c.scaling - 1), App.Restore)
    case Turbo =>
      c
  }

  /// A sequence of hotkey events none of which panics.
  predicate Defined(c: Controls, hs: seq<HotKey>)
    decreases |hs|, 0
  {
    hs == [] || (Defined(c, hs[..|hs| - 1]) && !Panics(Run(c, hs[..|hs| - 1]), hs[|hs| - 1]))
  }

  /// The hotkey events of one tick folded from the first to the last.
  function Run(c: Controls, hs: seq<HotKey>): Controls
    requires Defined(c, hs)
    decreases |hs|, 1
  {
    if hs == [] then c else Step(Run(c, hs[..|hs| - 1]), hs[|hs| - 1])
  }

  lemma {:induction false} DefinedPrefix(c: Controls, hs: seq<HotKey>, k: nat)
    requires Defined(c, hs) && k <= |hs|
    ensures Defined(c, hs[..k])
    decreases |hs| - k
  {
    if k < |hs| {
      var n := |hs| - 1;
      DefinedPrefix(c, hs[..n], k);
      assert hs[..n][..k] == hs[..k];
    } else {
      assert hs[..k] == hs;
    }
  }

  /// `process_hotkey`: the hotkey events of one tick, applied in order.
  method ProcessHotkey(events: seq<HotKey>, config: App.Config, appState: App.AppStateStack,
                       emulator: Emulator?, ui: App.UiState)
    returns (out: Outputs)
    requires Defined(Snapshot(ui, config, appState, emulator, Outputs([], [], 0)), events)
    modifies config, appState, emulator, ui
    ensures Snapshot(ui, config, appState, emulator, out)
              == Run(old(Snapshot(ui, config, appState, emulator, Outputs([], [], 0))), events)
  {
    out := Outputs([], [], 0);
    ghost var start := Snapshot(ui, config, appState, emulator, out);
    for i := 0 to |events|
      invariant Defined(start, events[..i])
      invariant Snapshot(ui, config, appState, emulator, out) == Run(start, events[..i])
    {
      DefinedPrefix(start, events, i + 1);
      assert events[..i + 1][..i] == events[..i];
      out := ApplyHotkey(events[i], config, appState, emulator, ui, out);
    }
    assert events[..|events|] == events;
  }

  /// The body of `process_hotkey`'s loop: the effect of one hotkey event.
  method ApplyHotkey(hotkey: HotKey, config: App.Config, appState: App.AppStateStack,
                     emulator: Emulator?, ui: App.UiState, out: Outputs)
    returns (out': Outputs)
    requires !Panics(Snapshot(ui, config, appState, emulator, out), hotkey)
    modifies config, appState, emulator, ui
    ensures Snapshot(ui, config, appState, emulator, out')
              == Step(old(Snapshot(ui, config, appState, emulator, out)), hotkey)
  {
    out' := out;
    match hotkey
    case Reset =>
      if emulator != null {
        emulator.Reset();
        out' := out.(messages := out.messages + [ResetText]);
      }
    case StateSave =>
      if emulator != null {
        var ok := emulator.SaveStateSlot(ui.stateSaveSlot);
        out' := out.(messages := out.messages + [StateSavedPrefix + Decimal(ui.stateSaveSlot)]);
      }
    case StateLoad =>
      if emulator != null {
        var ok := emulator.LoadStateSlot(ui.stateSaveSlot);
        if !ok {
          out' := out.(messages := out.messages + [LoadFailedText], errorsLogged := out.errorsLogged + 1);
        } else {
          out' := out.(messages := out.messages + [StateLoadedPrefix + Decimal(ui.stateSaveSlot)]);
        }
      }
    case NextSlot =>
      ui.stateSaveSlot := ui.stateSaveSlot + 1;
      out' := out.(messages := out.messages + [SlotChangedPrefix + Decimal(ui.stateSaveSlot)]);
    case PrevSlot =>
      ui.stateSaveSlot := if ui.stateSaveSlot == 0 then 0 else ui.stateSaveSlot - 1;
      out' := out.(messages := out.messages + [SlotChangedPrefix + Decimal(ui.stateSaveSlot)]);
    case Rewind =>
      if appState.current == App.Running {
        emulator.PushAutoSave();
        appState.Push(App.Rewinding);
      }
    case Menu =>
      if appState.current == App.Running {
        appState.Set(App.Menu);
      } else if appState.current == App.Menu && emulator != null {
        appState.Set(App.Running);
      }
    case FullScreen =>
      out' := out.(windowEvents := out.windowEvents + [App.ToggleFullscreen]);
    case ScaleUp =>
      config.scaling := config.scaling + 1;
      out' := out.(windowEvents := out.windowEvents + [App.Restore]);
    case ScaleDown =>
      config.scaling := if config.scaling - 1 < 1 then 1 else config.scaling - 1;
      out' := out.(windowEvents := out.windowEvents + [App.Restore]);
    case Turbo =>
  }

  /// The resources `process_hotkey` works on, seen as one value.
  function Snapshot(ui: App.UiState, config: App.Config, appState: App.AppStateStack,
                    emulator: Emulator?, out: Outputs): Controls
    reads ui, config, appState, emulator
  {
    Controls(ui.stateSaveSlot, config.scaling, appState.current, appState.suspended,
             if emulator == null then None else Some(emulator.View()), out)
  }

  // ---------------------------------------------------------------------------
  // Properties of process_hotkey
  // ---------------------------------------------------------------------------

  /// PrevSlot decrements the slot but not below 0, and reports the new slot.
  lemma PrevSlotSaturates(c: Controls)
    ensures var r := Step(c, PrevSlot);
            r.slot == (if c.slot == 0 then 0 else c.slot - 1) &&
            r.out.messages == c.out.messages + [SlotChangedPrefix + Decimal(r.slot)] &&
            r.out.windowEvents == c.out.windowEvents
  {
  }

  /// NextSlot has no upper bound and needs no emulator, so PrevSlot undoes it.
  /// Its notification carries the new slot.
  lemma NextThenPrevRestoresSlot(c: Controls)
    ensures var r := Step(c, NextSlot);
            r.slot == c.slot + 1 &&
            |r.out.messages| == |c.out.messages| + 1 &&
            var text := r.out.messages[|c.out.messages|];
            text[..|SlotChangedPrefix|] == SlotChangedPrefix &&
            ParseDecimal(text[|SlotChangedPrefix|..]) == c.slot + 1 &&
            r.out.windowEvents == c.out.windowEvents && r.out.errorsLogged == c.out.errorsLogged
    ensures Step(Step(c, NextSlot), PrevSlot).slot == c.slot
  {
    var r := Step(c, NextSlot);
    var text := r.out.messages[|c.out.messages|];
    assert text[|SlotChangedPrefix|..] == Decimal(c.slot + 1);
    DecimalRoundTrip(c.slot + 1);
  }

  /// With an emulator, Reset restarts the machine once and reports
  /// "Reset machine"; nothing else changes.
  lemma ResetWithEmulator(c: Controls)
    requires c.session.Some?
    ensures var r := Step(c, Reset);
            var s := c.session.value;
            r.session == Some(s.(resets := s.resets + 1)) &&
            r.out.messages == c.out.messages + [ResetText] &&
            r.out.windowEvents == c.out.windowEvents && r.out.errorsLogged == c.out.errorsLogged &&
            r.slot == c.slot && r.scaling == c.scaling &&
            r.current == c.current && r.suspended == c.suspended
  {
  }

  /// With an emulator whose save succeeds, StateSave saves the current slot
  /// and reports it in a notification the slot can be read back from; nothing
  /// else changes.
  lemma StateSaveWithEmulator(c: Controls)
    requires c.session.Some? && c.session.value.saveSucceeds
    ensures var r := Step(c, StateSave);
            var s := c.session.value;
            r.session == Some(s.(savedSlots := s.savedSlots + [c.slot])) &&
            |r.out.messages| == |c.out.messages| + 1 &&
            var text := r.out.messages[|c.out.messages|];
            text[..|StateSavedPrefix|] == StateSavedPrefix &&
            ParseDecimal(text[|StateSavedPrefix|..]) == c.slot &&
            r.out.windowEvents == c.out.windowEvents && r.out.errorsLogged == c.out.errorsLogged &&
            r.slot == c.slot && r.scaling == c.scaling &&
            r.current == c.current && r.suspended == c.suspended
  {
    var r := Step(c, StateSave);
    var text := r.out.messages[|c.out.messages|];
    assert text[|StateSavedPrefix|..] == Decimal(c.slot);
    DecimalRoundTrip(c.slot);
  }

  /// ScaleUp adds one and ScaleDown takes one away but not below 1; each sends
  /// exactly one Restore.
  lemma ScaleKeys(c: Controls)
    requires c.scaling >= 1
    ensures var up := Step(c, ScaleUp);
            up.scaling == c.scaling + 1 && up.out.windowEvents == c.out.windowEvents + [App.Restore]
    ensures var down := Step(c, ScaleDown);
            down.scaling == (if c.scaling == 1 then 1 else c.scaling - 1) &&
            down.out.windowEvents == c.out.windowEvents + [App.Restore]
    ensures Step(Step(c, ScaleUp), ScaleDown).scaling == c.scaling
  {
  }

  /// Rewind acts only in Running: one auto-save, then Rewinding is pushed
  /// above Running. In Menu or Rewinding it changes nothing.
  lemma RewindOnlyFromRunning(c: Controls)
    requires !Panics(c, Rewind)
    ensures c.current == App.Running ==>
              var r := Step(c, Rewind);
              r.current == App.Rewinding && r.suspended == c.suspended + [App.Running] &&
              r.session == Some(c.session.value.(autoSaves := c.session.value.autoSaves + 1)) &&
              r.out == c.out && r.slot == c.slot && r.scaling == c.scaling
    ensures c.current != App.Running ==> Step(c, Rewind) == c
  {
  }

  /// Menu replaces Running by Menu without suspending it; from Menu it goes to
  /// Running only with an emulator; in Rewinding it does nothing.
  lemma MenuTransitions(c: Controls)
    ensures var r := Step(c, Menu);
            r.suspended == c.suspended && r.out == c.out && r.session == c.session &&
            r.current == match c.current
                         case Running => App.Menu
                         case Menu => if c.session.Some? then App.Running else App.Menu
                         case Rewinding => App.Rewinding
  {
  }

  /// A failed load reports exactly "Failed to load state", logs one error and
  /// changes neither the slot, the scale, the state nor the session.
  lemma StateLoadFailure(c: Controls)
    requires c.session.Some? && !c.session.value.loadSucceeds
    ensures var r := Step(c, StateLoad);
            r.out.messages == c.out.messages + [LoadFailedText] &&
            r.out.errorsLogged == c.out.errorsLogged + 1 &&
            r.out.windowEvents == c.out.windowEvents &&
            r.slot == c.slot && r.scaling == c.scaling && r.current == c.current &&
            r.suspended == c.suspended && r.session == c.session
  {
  }

  /// A successful load records the current slot and reports it, readably, in
  /// its notification; it logs no error, sends no window event and changes
  /// nothing else.
  lemma StateLoadSuccess(c: Controls)
    requires c.session.Some? && c.session.value.loadSucceeds
    ensures var r := Step(c, StateLoad);
            |r.out.messages| == |c.out.messages| + 1 &&
            var text := r.out.messages[|c.out.messages|];
            text[..|StateLoadedPrefix|] == StateLoadedPrefix &&
            ParseDecimal(text[|StateLoadedPrefix|..]) == c.slot &&
            r.session == Some(c.session.value.(loadedSlots := c.session.value.loadedSlots + [c.slot])) &&
            r.out.windowEvents == c.out.windowEvents && r.out.errorsLogged == c.out.errorsLogged &&
            r.slot == c.slot && r.scaling == c.scaling &&
            r.current == c.current && r.suspended == c.suspended
  {
    var r := Step(c, StateLoad);
    var text := r.out.messages[|c.out.messages|];
    assert text[|StateLoadedPrefix|..] == Decimal(c.slot);
    DecimalRoundTrip(c.slot);
  }

  /// Without an emulator, Reset, StateSave and StateLoad do nothing at all.
  lemma NoEmulatorNoSessionKeys(c: Controls, h: HotKey)
    requires c.session.None? && (h == Reset || h == StateSave || h == StateLoad)
    ensures Step(c, h) == c
  {
  }

  /// Turbo events are ignored here; FullScreen only asks for a toggle.
  lemma TurboAndFullScreen(c: Controls)
    ensures Step(c, Turbo) == c
    ensures Step(c, FullScreen) == Send(c, App.ToggleFullscreen)
  {
  }

  /// Without an emulator, ScaleUp and ScaleDown still send Restore, which the
  /// window reconciler cannot handle without one: it panics.
  lemma ScaleKeyWithoutEmulatorPanics(c: Controls, h: HotKey)
    requires c.session.None? && c.scaling >= 1 && (h == ScaleUp || h == ScaleDown)
    ensures var r := Step(c, h);
            r.out.windowEvents == c.out.windowEvents + [App.Restore] &&
            !App.WindowEventDefined(App.Restore, r.current, None)
  {
  }

  /// In game and windowed, ScaleUp followed by the Restore it sends grows the
  /// window by exactly one frame buffer in each direction.
  lemma ScaleUpGrowsWindowByOneFrame(c: Controls, v: App.WindowView, menuSize: Size)
    requires c.session.Some? && c.current != App.Menu && !v.fullscreen && v.scaling == c.scaling
    ensures var r := Step(c, ScaleUp);
            var fb := c.session.value.frameBuffer;
            var w := App.WindowStep(v.(scaling := r.scaling), App.Restore, r.current, Some(fb), menuSize);
            w.resolution == Size(fb.width * c.scaling + fb.width, fb.height * c.scaling + fb.height)
  {
  }

  /// The states in which no hotkey can panic: a scale of at least 1, saves
  /// that succeed, and never Running without an emulator.
  predicate Safe(c: Controls)
  {
    c.scaling >= 1 &&
    (c.session.Some? ==> c.session.value.saveSucceeds) &&
    (c.session.None? ==> c.current != App.Running)
  }

  /// From a safe state, every sequence of hotkey events runs without a panic
  /// and ends in a safe state: in particular the scale stays at least 1. This
  /// relies on state transitions taking effect at once; the queued transitions
  /// of the program reject a second one in the same tick (Rewind then Menu from
  /// Running), and that `unwrap` panic is not modelled.
  lemma {:induction false} SafeRunsNeverPanic(c: Controls, hs: seq<HotKey>)
    requires Safe(c)
    ensures Defined(c, hs) && Safe(Run(c, hs))
  {
    if hs != [] {
      var n := |hs| - 1;
      SafeRunsNeverPanic(c, hs[..n]);
    }
  }

  /// Each hotkey event adds at most one notification and at most one window
  /// event, after those already sent.
  lemma {:induction false} RunOutputsGrowByAtMostOne(c: Controls, hs: seq<HotKey>)
    requires Defined(c, hs)
    ensures var r := Run(c, hs);
            c.out.messages <= r.out.messages && |r.out.messages| <= |c.out.messages| + |hs| &&
            c.out.windowEvents <= r.out.windowEvents && |r.out.windowEvents| <= |c.out.windowEvents| + |hs|
  {
    if hs != [] {
      var n := |hs| - 1;
      RunOutputsGrowByAtMostOne(c, hs[..n]);
    }
  }
}

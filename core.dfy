/// The emulation session the front end drives. Its internals (CPU and device
/// emulation, save-state files, the auto-save ring, the frame buffer's pixels)
/// are outside this model: a session is reduced to the calls the front end
/// makes on it, what those calls record, and the size of its frame buffer.
module Core {
  /// A width and a height in pixels.
  datatype Size = Size(width: nat, height: nat)

  /// Everything the front end can observe of a session: the frame-buffer size,
  /// how often `reset` and `push_auto_save` were called, the slots saved and
  /// loaded so far, and whether saving and loading a slot succeed.
  datatype Session = Session(
    frameBuffer: Size,
    resets: nat,
    autoSaves: nat,
    savedSlots: seq<nat>,
    loadedSlots: seq<nat>,
    saveSucceeds: bool,
    loadSucceeds: bool)

  /// The `Emulator` resource. Whether a save or a load succeeds depends on
  /// the file system; here it is a fixed flag of the session.
  class Emulator {
    var frameBuffer: Size
    var resets: nat
    var autoSaves: nat
    var savedSlots: seq<nat>
    var loadedSlots: seq<nat>
    var saveSucceeds: bool
    var loadSucceeds: bool

    function View(): Session
      reads this
    {
      Session(frameBuffer, resets, autoSaves, savedSlots, loadedSlots, saveSucceeds, loadSucceeds)
    }

    constructor (frameBuffer: Size, saveSucceeds: bool, loadSucceeds: bool)
      ensures View() == Session(frameBuffer, 0, 0, [], [], saveSucceeds, loadSucceeds)
    {
      this.frameBuffer := frameBuffer;
      this.resets := 0;
      this.autoSaves := 0;
      this.savedSlots := [];
      this.loadedSlots := [];
      this.saveSucceeds := saveSucceeds;
      this.loadSucceeds := loadSucceeds;
    }

    /// `reset()`: restarts the machine.
    method Reset()
      modifies this
      ensures View() == old(View()).(resets := old(resets) + 1)
    {
      resets := resets + 1;
    }

    /// `save_state_slot(slot, config)`: `ok` is false for the error result.
    method SaveStateSlot(slot: nat) returns (ok: bool)
      modifies this
      ensures ok == saveSucceeds
      ensures View() == if ok then old(View()).(savedSlots := old(savedSlots) + [slot]) else old(View())
    {
      ok := saveSucceeds;
      if ok {
        savedSlots := savedSlots + [slot];
      }
    }

    /// `load_state_slot(slot, config)`: on failure the session is left as it was.
    method LoadStateSlot(slot: nat) returns (ok: bool)
      modifies this
      ensures ok == loadSucceeds
      ensures View() == if ok then old(View()).(loadedSlots := old(loadedSlots) + [slot]) else old(View())
    {
      ok := loadSucceeds;
      if ok {
        loadedSlots := loadedSlots + [slot];
      }
    }

    /// `push_auto_save()`: records the current machine state for rewinding.
    method PushAutoSave()
      modifies this
      ensures View() == old(View()).(autoSaves := old(autoSaves) + 1)
    {
      autoSaves := autoSaves + 1;
    }
  }
}

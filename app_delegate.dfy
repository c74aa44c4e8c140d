/** The app delegate (ComfyNotes/AppDelegate.swift): the overlay panel's
    interaction flags, the launcher hotkey's registration constants and the
    signature check of its event handler. */
module AppDelegate {
  import opened Wrappers
  import opened FourCharCode

  /** Carbon's modifier masks (`shiftKey` is bit 9, `controlKey` bit 12). */
  const ShiftKeyMask: bv32 := 0x0200
  const ControlKeyMask: bv32 := 0x1000
  /** Carbon's virtual key code of the space bar. */
  const SpaceKeyCode: UInt32 := 0x31
  const NoErr: int := 0

  datatype EventHotKeyId = EventHotKeyId(signature: UInt32, id: UInt32)

  /** The arguments `registerGlobalHotkey` hands to `RegisterEventHotKey`. */
  datatype HotKeyRegistration = HotKeyRegistration(keyCode: UInt32, modifiers: UInt32, hotKeyId: EventHotKeyId)

  /** The launcher binding: Control+Shift+Space, signature "cmfy", id 1. */
  method LauncherRegistration() returns (r: HotKeyRegistration)
    ensures r.keyCode == 0x31
    ensures r.modifiers == 0x1200
    ensures r.hotKeyId == EventHotKeyId(0x636D6679, 1)
  {
    var signature := FourCharCodeValue("cmfy");
    CmfyCode();
    r := HotKeyRegistration(SpaceKeyCode, (ControlKeyMask | ShiftKeyMask) as int, EventHotKeyId(signature.value, 1));
  }

  /** The installed event handler. `param` is what `GetEventParameter` wrote
      into `hotKeyID`; `None` means it failed and `hotKeyID` kept its zero
      value. `recognized` is the branch that reacts to the launcher hotkey
      (it only logs there). Only the signature is compared, never the id. */
  method HandleHotKeyEvent(param: Option<EventHotKeyId>) returns (status: int, recognized: bool)
    ensures status == NoErr
    ensures recognized <==> param.Some? && param.value.signature == 0x636D6679
  {
    var hotKeyId := if param.Some? then param.value else EventHotKeyId(0, 0);
    var signature := FourCharCodeValue("cmfy");
    CmfyCode();
    recognized := hotKeyId.signature == signature.value;
    status := NoErr;
  }

  /** The overlay window: an `NSPanel` whose key and main eligibility follow
      `isInteractionEnabled`. */
  class FloatingPanel {
    var isInteractionEnabled: bool
    var ignoresMouseEvents: bool

    constructor ()
      ensures isInteractionEnabled
      ensures !ignoresMouseEvents
    {
      isInteractionEnabled := true;
      ignoresMouseEvents := false;
    }

    function CanBecomeKey(): (r: bool)
      reads this
      ensures r == isInteractionEnabled
    {
      isInteractionEnabled
    }

    function CanBecomeMain(): (r: bool)
      reads this
      ensures r == CanBecomeKey()
    {
      isInteractionEnabled
    }
  }

  class AppDelegate {
    /** `FloatingPanel!`: nil until the app has finished launching. */
    var window: FloatingPanel?
    var launcherHotKey: Option<HotKeyRegistration>

    constructor ()
      ensures window == null
      ensures launcherHotKey == None
    {
      window := null;
      launcherHotKey := None;
    }

    /** Records the binding handed to the OS; `RegisterEventHotKey`'s status
        is ignored by the app. */
    method RegisterGlobalHotkey()
      modifies this`launcherHotKey
      ensures launcherHotKey == Some(HotKeyRegistration(0x31, 0x1200, EventHotKeyId(0x636D6679, 1)))
    {
      var registration := LauncherRegistration();
      launcherHotKey := Some(registration);
    }

    /** `applicationDidFinishLaunching`: registers the hotkey and creates the
        panel, interactive and not click-through. */
    method ApplicationDidFinishLaunching()
      modifies this
      ensures launcherHotKey == Some(HotKeyRegistration(0x31, 0x1200, EventHotKeyId(0x636D6679, 1)))
      ensures window != null && fresh(window)
      ensures window.isInteractionEnabled && window.CanBecomeKey() && window.CanBecomeMain()
      ensures !window.ignoresMouseEvents
    {
      RegisterGlobalHotkey();
      var panel := new FloatingPanel();
      panel.ignoresMouseEvents := false;
      window := panel;
    }

    /** The Command+Shift+1 handler: flips click-through and nothing else, so
        two presses restore the previous state. The handler is installed
        after the panel exists. */
    method ToggleInteraction()
      requires window != null
      modifies window
      ensures window.ignoresMouseEvents == !old(window.ignoresMouseEvents)
      ensures window.isInteractionEnabled == old(window.isInteractionEnabled)
      ensures window.CanBecomeKey() == old(window.CanBecomeKey())
      ensures window.CanBecomeMain() == old(window.CanBecomeMain())
    {
      window.ignoresMouseEvents := !window.ignoresMouseEvents;
    }
  }
}

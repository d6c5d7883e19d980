/**
 The window's handlers as the running program executes them.  Writing a
 check box's IsChecked raises its Checked or Unchecked event synchronously,
 and only when the value changes; the handler for that event runs before the
 statement after the write.  The functions below compose the handler bodies
 of module MainWindow through those nested events.

 Termination: a cascade only moves down the strata
   2 (protection box unchecked) -> 1 (keylogger box unchecked) -> 0 (protection box checked),
 and within a stratum each round trip flips the protection box once.
 */
module Cascade {
  import opened Win32
  import opened Wrappers
  import opened CaseRule
  import opened KeyboardHook
  import opened HookCallback
  import opened MainWindow

  /** 1 while the protection box can still be checked (stratum 0). */
  function CanCheck(w: Window): nat {
    if w.antiChecked then 0 else 1
  }

  /** 1 while the protection box can still be unchecked (stratum 2). */
  function CanUncheck(w: Window): nat {
    if w.antiChecked then 1 else 0
  }

  /** EnableAntiKeylogger, including the Checked event its write of the protection box raises. */
  function Enable(w: Window): Window
    decreases 0, CanCheck(w), 0
  {
    var r := EnableAntiKeylogger(w);
    if w.antiChecked then r else OnProtectionChecked(r)
  }

  /** antiKeyloggerCheckBox_Checked and what it raises. */
  function OnProtectionChecked(w: Window): Window
    decreases 0, CanCheck(w), 1
  {
    if !w.enabled then Enable(w) else w
  }

  /** keyloggerCheckBox_Unchecked and what it raises. */
  function OnKeyloggerUnchecked(w: Window): Window
    decreases 1, 0, 0
  {
    var r := KeyloggerUncheckedHandler(w);
    if w.antiChecked then r else OnProtectionChecked(r)
  }

  /** DisableAntiKeylogger, including the Unchecked event its write of the protection box raises. */
  function Disable(w: Window): Window
    decreases 2, CanUncheck(w), 0
  {
    var r := DisableAntiKeylogger(w);
    if w.antiChecked then OnProtectionUnchecked(r) else r
  }

  /** antiKeyloggerCheckBox_Unchecked and what it raises. */
  function OnProtectionUnchecked(w: Window): Window
    decreases 2, CanUncheck(w), 1
  {
    var r := if w.enabled then Disable(w) else w;
    if r.keyloggerChecked then OnKeyloggerUnchecked(r.(keyloggerChecked := false)) else r
  }

  /** Everything the user and the timers can do to an open window. */
  datatype Action =
    | ClickProtectionBox
    | ClickKeyloggerBox
    | ClickEnableButton
    | ClickDisableButton
    | ClickMinimize
    | StartupTimerElapsed
    | RehookTimerElapsed(returned: Handle)

  /** One action, with every event it raises. */
  function Step(w: Window, a: Action): Window {
    match a
    case ClickProtectionBox =>
      if w.antiChecked then OnProtectionUnchecked(w.(antiChecked := false))
      else OnProtectionChecked(w.(antiChecked := true))
    case ClickKeyloggerBox =>
      if w.keyloggerChecked then OnKeyloggerUnchecked(w.(keyloggerChecked := false))
      else KeyloggerCheckedHandler(w.(keyloggerChecked := true))
    case ClickEnableButton => if !w.enabled then Enable(w) else w
    case ClickDisableButton => if w.enabled then Disable(w) else w
    case ClickMinimize => MinimizeWindow(w)
    case StartupTimerElapsed => StartupTimerFires(w)
    case RehookTimerElapsed(returned) => RehookTimerFires(w, returned)
  }

  function Run(w: Window, actions: seq<Action>): Window
    decreases |actions|
  {
    if |actions| == 0 then w else Run(Step(w, actions[0]), actions[1..])
  }

  /**
   The protection invariant of an open window: the enabled flag mirrors the
   protection box, keystrokes are let through only when the keylogger box is
   checked and the protection box is not, exactly one KeyPress handler is
   attached, and no hook registration is orphaned.
   */
  predicate Protected(w: Window) {
    && w.enabled == w.antiChecked
    && (!Swallowing(w) ==> w.keyloggerChecked && !w.antiChecked)
    && Hooker(w).subscribers == 1
    && Hooker(w).callbackStored
    && NoOrphans(w.keyboardHook)
    && w.countdown >= 0
  }

  /** The Checked event EnableAntiKeylogger raises finds the window enabled and does nothing more. */
  lemma EnableCascadeIsAtomic(w: Window)
    ensures Enable(w) == EnableAntiKeylogger(w)
  {
  }

  /**
   Disabling with the keylogger box clear is just DisableAntiKeylogger.  With
   the keylogger box checked the cascade clears that box, whose Unchecked
   handler re-checks the protection box, which enables protection again:
   the window ends enabled and swallowing.
   */
  lemma DisableCascade(w: Window)
    requires w.enabled && w.antiChecked
    ensures !w.keyloggerChecked ==> Disable(w) == DisableAntiKeylogger(w)
    ensures w.keyloggerChecked ==>
      var r := Disable(w);
      r.enabled && r.antiChecked && Swallowing(r) && !r.keyloggerChecked && OnlyPolicyChanged(w, r)
  {
    var r := DisableAntiKeylogger(w);
    if w.keyloggerChecked {
      var k := KeyloggerUncheckedHandler(r.(keyloggerChecked := false));
      assert OnProtectionUnchecked(r) == OnKeyloggerUnchecked(r.(keyloggerChecked := false));
      assert OnKeyloggerUnchecked(r.(keyloggerChecked := false)) == OnProtectionChecked(k);
      assert OnProtectionChecked(k) == Enable(k);
    }
  }

  /**
   Unchecking the protection box of a protected window either disables
   protection with swallowing still on (keylogger box clear), or bounces
   back to enabled with the keylogger box cleared (keylogger box checked).
   */
  lemma UncheckProtectionCascades(w: Window)
    requires Protected(w) && w.antiChecked
    ensures var r := Step(w, ClickProtectionBox);
      && Swallowing(r) && !r.keyloggerChecked && OnlyPolicyChanged(w, r)
      && (w.keyloggerChecked ==> r.enabled && r.antiChecked)
      && (!w.keyloggerChecked ==> !r.enabled && !r.antiChecked)
  {
    var u := w.(antiChecked := false);
    var d := DisableAntiKeylogger(u);
    assert Disable(u) == d;
    if w.keyloggerChecked {
      var k := KeyloggerUncheckedHandler(d.(keyloggerChecked := false));
      assert OnKeyloggerUnchecked(d.(keyloggerChecked := false)) == OnProtectionChecked(k);
      assert OnProtectionChecked(k) == Enable(k);
    }
  }

  /** A freshly loaded window is protected, whatever the markup checked initially. */
  lemma LoadedIsProtected(returned: Handle, anti: bool, keylogger: bool)
    ensures Protected(Loaded(MainWindow.Construct(returned, anti, keylogger)))
  {
  }

  /** Every action preserves the protection invariant. */
  lemma StepPreservesProtection(w: Window, a: Action)
    requires Protected(w)
    ensures Protected(Step(w, a))
  {
    match a
    case ClickProtectionBox =>
      if w.antiChecked {
        UncheckProtectionCascades(w);
      } else {
        var u := w.(antiChecked := true);
        assert OnProtectionChecked(u) == Enable(u);
      }
    case ClickKeyloggerBox =>
      if w.keyloggerChecked {
        var u := KeyloggerUncheckedHandler(w.(keyloggerChecked := false));
        if !w.antiChecked {
          assert OnProtectionChecked(u) == Enable(u);
        }
      }
    case ClickDisableButton =>
      if w.enabled {
        DisableCascade(w);
      }
    case ClickEnableButton =>
      EnableCascadeIsAtomic(w);
    case ClickMinimize =>
    case StartupTimerElapsed =>
    case RehookTimerElapsed(returned) =>
      if w.rehookTimerRunning {
        assert Step(w, a) == RehookTimerTick(w, returned);
      }
  }

  /** Any run of actions from a protected window keeps it protected. */
  lemma {:induction false} RunPreservesProtection(w: Window, actions: seq<Action>)
    requires Protected(w)
    ensures Protected(Run(w, actions))
    decreases |actions|
  {
    if |actions| > 0 {
      StepPreservesProtection(w, actions[0]);
      RunPreservesProtection(Step(w, actions[0]), actions[1..]);
    }
  }

  /**
   What the window's callback does in a protected window.  The window's only
   KeyPress handler never sets Handled.  Keystrokes reach the handler, and
   events are passed down the chain, only in logging mode (protection box
   clear, keylogger box checked); a disabled window with the keylogger box
   clear still consumes everything.
   */
  lemma KeystrokesOnlyOnRequest(w: Window, code: Int32, wParam: Int32, a: Answers, culture: Culture)
    requires Protected(w)
    ensures var o := Callback(Hooker(w), code, wParam, a.(handled := false), culture);
      && (o.keyPress.Some? ==> w.keyloggerChecked && !w.antiChecked && !w.enabled)
      && (w.antiChecked ==> o == Outcome(None, false, 0))
      && (o.calledNext <==> !Swallowing(w))
      && (o.calledNext ==> w.keyloggerChecked && !w.antiChecked)
      && (!w.keyloggerChecked ==> o == Outcome(None, false, 0))
  {
  }

  /** Logging mode is reachable: clear the protection box, then check the keylogger box. */
  lemma LoggingModeReachable(returned: Handle, anti: bool)
    ensures var r := Run(Loaded(MainWindow.Construct(returned, anti, false)), [ClickProtectionBox, ClickKeyloggerBox]);
      !Swallowing(r) && r.keyloggerChecked && !r.antiChecked && !r.enabled
  {
    var w := Loaded(MainWindow.Construct(returned, anti, false));
    var acts := [ClickProtectionBox, ClickKeyloggerBox];
    assert acts[1..] == [ClickKeyloggerBox] && acts[1..][1..] == [];
    var u := w.(antiChecked := false);
    assert Disable(u) == DisableAntiKeylogger(u);
    var s1 := Step(w, ClickProtectionBox);
    assert !s1.keyloggerChecked && !s1.antiChecked && !s1.enabled;
  }

  /** Closing a protected window leaves no hook registration behind. */
  lemma ClosingReleasesHook(w: Window)
    requires Protected(w)
    ensures WindowClosing(w).keyboardHook.live == {}
  {
  }
}

/**
 The protection policy of MainWindow: its event handlers as transitions on a
 record of the flags they read and write.  Each handler here is the effect of
 its own statements only; the Checked/Unchecked events its property writes
 raise in turn are composed in module Cascade.  Balloon tips, images, window
 visibility and the captured-keystrokes text box are presentation and are not
 part of the record.
 */
module MainWindow {
  import opened Win32
  import opened KeyboardHook

  /** The window's start-up countdown before it minimizes itself. */
  const MinimizeCountDownStart: int := 4

  datatype Window = Window(
    enabled: bool,              // IsAntiKeyloggerEnabled
    antiChecked: bool,          // antiKeyloggerCheckBox.IsChecked
    keyloggerChecked: bool,     // keyloggerCheckBox.IsChecked
    keyboardHook: HookSystem,   // the keyboardHook object and the OS registrations of its callback
    startupTimerEnabled: bool,  // startupTimer.IsEnabled
    countdown: int,             // minimizeCountDown
    rehookTimerRunning: bool)   // rehookTimer has been started

  function Hooker(w: Window): Interceptor {
    w.keyboardHook.interceptor
  }

  predicate Swallowing(w: Window) {
    Hooker(w).swallowKeystrokes
  }

  function WithSwallow(w: Window, swallow: bool): Window {
    w.(keyboardHook := w.keyboardHook.(interceptor := SetSwallow(Hooker(w), swallow)))
  }

  /** The three protection flags are the only ones that differ. */
  predicate OnlyPolicyChanged(w: Window, r: Window) {
    && r.keyboardHook.live == w.keyboardHook.live
    && Hooker(r).hookId == Hooker(w).hookId
    && Hooker(r).callbackStored == Hooker(w).callbackStored
    && Hooker(r).subscribers == Hooker(w).subscribers
    && r.startupTimerEnabled == w.startupTimerEnabled
    && r.countdown == w.countdown
    && r.rehookTimerRunning == w.rehookTimerRunning
  }

  /**
   The window once its constructor has run: the field initialiser created the
   hook in swallow mode (SetWindowsHookEx answering `returned`) and the
   constructor attached the KeyPress handler.  The two check boxes start as
   the window's markup sets them, which is not part of this model.
   */
  function Construct(returned: Handle, antiInitially: bool, keyloggerInitially: bool): (w: Window)
    ensures Swallowing(w) && Hooker(w).hookId == returned && Hooker(w).subscribers == 1
    ensures NoOrphans(w.keyboardHook)
    ensures !w.enabled && !w.startupTimerEnabled && !w.rehookTimerRunning
    ensures w.countdown == MinimizeCountDownStart
  {
    var hook := SysHook(HookSystem(Fresh(), {}), true, returned);
    Window(false, antiInitially, keyloggerInitially,
           hook.(interceptor := Subscribe(hook.interceptor)),
           false, MinimizeCountDownStart, false)
  }

  /** EnableAntiKeylogger: enabled, swallowing, protection box checked. */
  function EnableAntiKeylogger(w: Window): (r: Window)
    ensures r.enabled && r.antiChecked && Swallowing(r)
    ensures r.keyloggerChecked == w.keyloggerChecked && OnlyPolicyChanged(w, r)
  {
    WithSwallow(w.(enabled := true), true).(antiChecked := true)
  }

  /**
   DisableAntiKeylogger: disabled, protection box cleared, and swallowing
   stays on unless the keylogger box asks for keystrokes to be shown.
   */
  function DisableAntiKeylogger(w: Window): (r: Window)
    ensures !r.enabled && !r.antiChecked
    ensures Swallowing(r) <==> !w.keyloggerChecked
    ensures r.keyloggerChecked == w.keyloggerChecked && OnlyPolicyChanged(w, r)
  {
    WithSwallow(w.(enabled := false), !w.keyloggerChecked).(antiChecked := false)
  }

  /** Window_Loaded: enable protection and start the start-up timer. */
  function Loaded(w: Window): (r: Window)
    ensures r.enabled && r.antiChecked && Swallowing(r) && r.startupTimerEnabled
    ensures r.keyloggerChecked == w.keyloggerChecked && r.countdown == w.countdown
    ensures r.keyboardHook.live == w.keyboardHook.live && Hooker(r).hookId == Hooker(w).hookId
    ensures Hooker(r).subscribers == Hooker(w).subscribers
  {
    EnableAntiKeylogger(w).(startupTimerEnabled := true)
  }

  /** The enable button: enables only when not already enabled. */
  function EnableButtonClick(w: Window): (r: Window)
    ensures r.enabled
    ensures w.enabled ==> r == w
    ensures !w.enabled ==> r.antiChecked && Swallowing(r) && r.keyloggerChecked == w.keyloggerChecked
    ensures OnlyPolicyChanged(w, r)
  {
    if !w.enabled then EnableAntiKeylogger(w) else w
  }

  /** The disable button: disables only when enabled. */
  function DisableButtonClick(w: Window): (r: Window)
    ensures !r.enabled
    ensures !w.enabled ==> r == w
    ensures w.enabled ==> !r.antiChecked && (Swallowing(r) <==> !w.keyloggerChecked)
    ensures OnlyPolicyChanged(w, r)
  {
    if w.enabled then DisableAntiKeylogger(w) else w
  }

  /** antiKeyloggerCheckBox_Checked, run on the window whose box has just become checked. */
  function AntiCheckedHandler(w: Window): (r: Window)
    ensures r.enabled
    ensures w.enabled ==> r == w
    ensures !w.enabled ==> r.antiChecked && Swallowing(r)
    ensures r.keyloggerChecked == w.keyloggerChecked && OnlyPolicyChanged(w, r)
  {
    if !w.enabled then EnableAntiKeylogger(w) else w
  }

  /**
   antiKeyloggerCheckBox_Unchecked: disables if enabled, and in every case
   clears the keylogger box.
   */
  function AntiUncheckedHandler(w: Window): (r: Window)
    ensures !r.enabled && !r.keyloggerChecked
    ensures w.enabled ==> !r.antiChecked && (Swallowing(r) <==> !w.keyloggerChecked)
    ensures !w.enabled ==> r.antiChecked == w.antiChecked && Swallowing(r) == Swallowing(w)
    ensures OnlyPolicyChanged(w, r)
  {
    var disabled := if w.enabled then DisableAntiKeylogger(w) else w;
    disabled.(keyloggerChecked := false)
  }

  /** keyloggerCheckBox_Checked: swallow exactly when the protection box is checked. */
  function KeyloggerCheckedHandler(w: Window): (r: Window)
    ensures Swallowing(r) == w.antiChecked
    ensures r.enabled == w.enabled && r.antiChecked == w.antiChecked && r.keyloggerChecked == w.keyloggerChecked
    ensures OnlyPolicyChanged(w, r)
  {
    WithSwallow(w, w.antiChecked)
  }

  /** keyloggerCheckBox_Unchecked: swallow, and check the protection box. */
  function KeyloggerUncheckedHandler(w: Window): (r: Window)
    ensures Swallowing(r) && r.antiChecked
    ensures r.enabled == w.enabled && r.keyloggerChecked == w.keyloggerChecked
    ensures OnlyPolicyChanged(w, r)
  {
    WithSwallow(w, true).(antiChecked := true)
  }

  /** MinimizeWindow: the start-up timer stops for good and the re-hook timer starts. */
  function MinimizeWindow(w: Window): (r: Window)
    ensures !r.startupTimerEnabled && r.rehookTimerRunning
    ensures r.(startupTimerEnabled := w.startupTimerEnabled, rehookTimerRunning := w.rehookTimerRunning) == w
  {
    w.(startupTimerEnabled := false, rehookTimerRunning := true)
  }

  /** startupTimer_Tick: count down to zero, then minimize on the following tick. */
  function StartupTimerTick(w: Window): (r: Window)
    ensures w.countdown != 0 ==> r == w.(countdown := w.countdown - 1)
    ensures w.countdown == 0 ==> !r.startupTimerEnabled && r.rehookTimerRunning && r.countdown == 0
    ensures r.enabled == w.enabled && r.antiChecked == w.antiChecked && r.keyloggerChecked == w.keyloggerChecked
    ensures r.keyboardHook == w.keyboardHook
  {
    if w.countdown == 0 then MinimizeWindow(w) else w.(countdown := w.countdown - 1)
  }

  /** The start-up timer raises Tick only while it is enabled. */
  function StartupTimerFires(w: Window): Window {
    if w.startupTimerEnabled then StartupTimerTick(w) else w
  }

  /** `n` seconds of the start-up timer. */
  function StartupTicks(w: Window, n: nat): Window
    decreases n
  {
    if n == 0 then w else StartupTicks(StartupTimerFires(w), n - 1)
  }

  /**
   From a running start-up timer at countdown c >= 0: after n <= c ticks the
   countdown reads c - n and the timer still runs; tick c + 1 minimizes, and
   from then on further ticks change nothing.
   */
  lemma {:induction false} StartupCountdown(w: Window, n: nat)
    requires w.startupTimerEnabled && !w.rehookTimerRunning && w.countdown >= 0
    ensures n <= w.countdown ==> StartupTicks(w, n) == w.(countdown := w.countdown - n)
    ensures n > w.countdown ==>
      StartupTicks(w, n) == w.(countdown := 0, startupTimerEnabled := false, rehookTimerRunning := true)
    decreases n
  {
    if n > 0 {
      if w.countdown == 0 {
        StoppedTimerIsQuiet(MinimizeWindow(w), n - 1);
      } else {
        StartupCountdown(w.(countdown := w.countdown - 1), n - 1);
      }
    }
  }

  /** Once stopped, the start-up timer raises no more ticks. */
  lemma {:induction false} StoppedTimerIsQuiet(w: Window, n: nat)
    requires !w.startupTimerEnabled
    ensures StartupTicks(w, n) == w
    decreases n
  {
    if n > 0 {
      StoppedTimerIsQuiet(w, n - 1);
    }
  }

  /** After Window_Loaded the window minimizes on the fifth tick, not before. */
  lemma MinimizesOnFifthTick(returned: Handle, anti: bool, keylogger: bool)
    ensures var w := Loaded(Construct(returned, anti, keylogger));
      && (forall n: nat :: n <= 4 ==> StartupTicks(w, n).startupTimerEnabled && !StartupTicks(w, n).rehookTimerRunning)
      && !StartupTicks(w, 5).startupTimerEnabled && StartupTicks(w, 5).rehookTimerRunning
  {
    var w := Loaded(Construct(returned, anti, keylogger));
    forall n: nat | n <= 4
      ensures StartupTicks(w, n).startupTimerEnabled && !StartupTicks(w, n).rehookTimerRunning
    {
      StartupCountdown(w, n);
    }
    StartupCountdown(w, 5);
  }

  /**
   rehookTimer_Tick: only with the protection box checked and the start-up
   timer disabled, detach the KeyPress handler, Unhook, re-attach it and
   Hook(true), SetWindowsHookEx answering `returned`.
   */
  function RehookTimerTick(w: Window, returned: Handle): (r: Window)
    ensures !(w.antiChecked && !w.startupTimerEnabled) ==> r == w
    ensures w.antiChecked && !w.startupTimerEnabled ==>
      && Swallowing(r) && Hooker(r).hookId == returned && Hooker(r).callbackStored
      && (Hooker(w).subscribers > 0 ==> Hooker(r).subscribers == Hooker(w).subscribers)
      && (Hooker(w).subscribers == 0 ==> Hooker(r).subscribers == 1)
      && (NoOrphans(w.keyboardHook) ==> NoOrphans(r.keyboardHook))
    ensures r.enabled == w.enabled && r.antiChecked == w.antiChecked && r.keyloggerChecked == w.keyloggerChecked
    ensures r.startupTimerEnabled == w.startupTimerEnabled && r.countdown == w.countdown
    ensures r.rehookTimerRunning == w.rehookTimerRunning
  {
    if w.antiChecked && !w.startupTimerEnabled then
      var detached := w.keyboardHook.(interceptor := Unsubscribe(Hooker(w)));
      var unhooked := SysUnhook(detached);
      var reattached := unhooked.(interceptor := Subscribe(unhooked.interceptor));
      w.(keyboardHook := SysHook(reattached, true, returned))
    else
      w
  }

  /** The re-hook timer raises Tick only once started. */
  function RehookTimerFires(w: Window, returned: Handle): Window {
    if w.rehookTimerRunning then RehookTimerTick(w, returned) else w
  }

  /** Window_Closing (its hook part): Unhook, which also turns swallowing off. */
  function WindowClosing(w: Window): (r: Window)
    ensures !Swallowing(r) && Hooker(r).hookId == NullHandle && !Hooker(r).callbackStored
    ensures NoOrphans(w.keyboardHook) ==> r.keyboardHook.live == {}
    ensures r.enabled == w.enabled && r.antiChecked == w.antiChecked && r.keyloggerChecked == w.keyloggerChecked
  {
    w.(keyboardHook := SysUnhook(w.keyboardHook))
  }

  /**
   Taken alone, the protection box's Unchecked handler can leave swallowing
   off with the keylogger box cleared; in the running window the keylogger
   box's own Unchecked handler then fires and turns swallowing back on
   (Cascade.UncheckProtectionCascades).
   */
  lemma UncheckedHandlerAloneExposes(w: Window)
    requires w.enabled && !w.antiChecked && w.keyloggerChecked && Swallowing(w)
    ensures var r := AntiUncheckedHandler(w); !Swallowing(r) && !r.keyloggerChecked && !r.antiChecked
  {
  }
}

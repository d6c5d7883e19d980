# WOWAntiKeylogger keyboard hook and protection policy, in Dafny

This project models the two pieces of decision logic in WOWAntiKeylogger:

* **GlobalKeyboardHook**. This object installs a system-wide low-level keyboard hook.
  * For every keyboard event it either swallows the event, or raises a `KeyPress` with the translated character and passes the event on.
  * It has a `SwallowKeystrokes` mode, and `Hook`/`Unhook` operations that install and remove the hook.
* **MainWindow**. Its checkbox, button and timer handlers drive the swallow mode:
  * "anti-keylogger" is the protection box.
  * "keylogger" is the demonstration box, which shows the captured keystrokes.
  * A start-up countdown minimizes the window.
  * A re-hook timer periodically unhooks and hooks again, so the hook stays first in the OS chain.

Win32 calls are oracles: the model takes their answers as values. These calls are `SetWindowsHookEx`, `CallNextHookEx`, `ToAscii`, `GetKeyboardState` and `GetKeyState`. The one exception is `UnhookWindowsHookEx`: the model assumes it always releases the handle it is given (see "## Left out").
* `HookCallback.Answers` carries what `ToAscii`, `GetKeyState` and `CallNextHookEx` return during one callback. It also carries the `Handled` flag that the subscribers leave set.
* The handle that `SetWindowsHookEx` returns is a parameter of `Hook`. It may be the null handle.
* `Char.IsLetter` and `Char.ToUpper` depend on the culture. They are supplied as a `CaseRule.Culture`. Statements about concrete characters assume only that the culture agrees with ASCII on letters and digits.

Modules, one per file:

| file | module | models |
|---|---|---|
| win32.dfy | Win32 | integer widths, handles, message and virtual-key constants |
| wrappers.dfy | Wrappers | `Option` |
| case_rule.dfy | CaseRule | the Shift-XOR-Caps Lock uppercase rule |
| keyboard_hook.dfy | KeyboardHook | object state, `Hook`, `Unhook`, constructor, swallow setter, OS registrations |
| hook_callback.dfy | HookCallback | `HookCallback` as a pure decision |
| key_stream.dfy | KeyStream | a run of events through the callback |
| main_window.dfy | MainWindow | each window handler's own statements, timers, closing |
| cascade.dfy | Cascade | handlers composed through the Checked/Unchecked events they raise; the protection invariant |

## Behaviour of the code worth knowing

* **Swallowing returns 0.**
  * In swallow mode the callback returns 0. It does not call `CallNextHookEx`, and it does not return a non-zero "handled" value.
  * This also holds for a negative hook code, because the swallow test comes before the `code >= 0` test.
  * For a low-level hook, returning 0 without calling the next hook skips the later hooks in the chain. Those later hooks are where a keylogger would sit. The target window still receives the key.
* **A disabled window can still swallow.** Disabling protection with the keylogger box clear leaves swallow mode on, so events are passed down the chain only in logging mode.
* **Two-character translations are dropped.** When `ToAscii` reports two characters, no `KeyPress` is raised and the event is passed on, because the test is `== 1`.
* **Caps Lock counts as on when its `GetKeyState` value is non-zero.** This includes the key being held down while its toggle is off (0xFF80). It is not only the toggle bit.
* **Shift is tested on bit 7 (`& 0x80`), not on the SHORT's sign bit.** This works because Windows answers 0xFF80 or 0xFF81 when a key is down.
* **Enter raises a `KeyPress` whenever `ToAscii` reports it as one character.** That character is a carriage return. Nothing in the callback filters out non-printable characters.
* **The protection handlers write check boxes, and those writes raise more handlers.**
  * Disabling protection while the keylogger box is checked clears that box.
  * Clearing it re-checks the protection box, and that enables protection again.
  * The window ends enabled and swallowing (`Cascade.DisableCascade`).
  * Logging mode is reached by clearing the protection box first and then checking the keylogger box (`Cascade.LoggingModeReachable`).

## Model

| member | source | states |
|---|---|---|
| CaseRule.CaseAdjust | WOWAntiKeylogger/GlobalKeyboardHook.cs:135-141 | only a letter can change; it changes only while exactly one of Shift-down and Caps Lock-on holds, and then only into the culture's uppercase of itself |
| CaseRule.ShiftTestReadsBitSeven | WOWAntiKeylogger/GlobalKeyboardHook.cs:136 | the Shift test accepts GetKeyState's down answers 0xFF80/0xFF81 and rejects a bare sign bit 0x8000 |
| CaseRule.CapsHeldButUntoggledCountsAsOn | WOWAntiKeylogger/GlobalKeyboardHook.cs:137 | Caps Lock held with its toggle bit clear (0xFF80) still counts as on |
| CaseRule.LowercaseLetterRule | WOWAntiKeylogger/GlobalKeyboardHook.cs:135-141 | an ASCII lowercase letter comes out as its uppercase exactly when Shift XOR Caps Lock, and unchanged exactly otherwise |
| CaseRule.DigitsAndUppercaseUnchanged | WOWAntiKeylogger/GlobalKeyboardHook.cs:138-141 | digits and ASCII uppercase letters are never changed, so the rule never lowercases |
| CaseRule.CaseTable | WOWAntiKeylogger/GlobalKeyboardHook.cs:135-141 | the literal table: 'a' with Shift gives 'A', with Caps Lock gives 'A', with both gives 'a', with neither gives 'a'; '5' never changes |
| KeyboardHook.Hook | WOWAntiKeylogger/GlobalKeyboardHook.cs:94-100 | after Hook the mode is the requested one, the stored handle is whatever the OS returned (null included), and the callback is kept alive; subscribers are untouched |
| KeyboardHook.Unhook | WOWAntiKeylogger/GlobalKeyboardHook.cs:105-111 | after Unhook the handle is null, swallowing is off and no callback is stored; subscribers are untouched |
| KeyboardHook.Construct | WOWAntiKeylogger/GlobalKeyboardHook.cs:75-78 | a new object is installed at once in the requested mode, with the OS's handle and no subscriber |
| KeyboardHook.SetSwallow | WOWAntiKeylogger/GlobalKeyboardHook.cs:113 | the swallow mode changes without touching the installation or the subscribers |
| KeyboardHook.Subscribe | WOWAntiKeylogger/GlobalKeyboardHook.cs:68 | attaching a KeyPress handler adds exactly one listener and changes nothing else |
| KeyboardHook.Unsubscribe | WOWAntiKeylogger/MainWindow.xaml.cs:87 | detaching removes one listener if any is attached, and is a no-op otherwise |
| KeyboardHook.UnhookIdempotent | WOWAntiKeylogger/GlobalKeyboardHook.cs:105-111 | a second Unhook gives the same state as the first |
| KeyboardHook.HookIgnoresPriorInstallation | WOWAntiKeylogger/GlobalKeyboardHook.cs:94-100 | Hook has no guard: the result does not depend on any earlier handle, mode or stored callback |
| KeyboardHook.RehookForgetsUnhook | WOWAntiKeylogger/GlobalKeyboardHook.cs:94-111 | Unhook followed by Hook leaves the object's fields as Hook alone does; only the OS registrations differ |
| KeyboardHook.ConstructNoOrphans | WOWAntiKeylogger/GlobalKeyboardHook.cs:75-78 | constructing on a clean OS leaves every live registration reachable through the stored handle |
| KeyboardHook.UnhookReleasesAll | WOWAntiKeylogger/GlobalKeyboardHook.cs:105-108 | from an orphan-free state Unhook releases every registration, and repeating it changes nothing |
| KeyboardHook.RehookNoOrphans | WOWAntiKeylogger/MainWindow.xaml.cs:87-92 | the periodic Unhook-then-Hook never orphans a registration |
| KeyboardHook.DoubleHookOrphansFirst | WOWAntiKeylogger/GlobalKeyboardHook.cs:94-100 | a second Hook without Unhook overwrites the first handle, and that registration survives the next Unhook |
| HookCallback.Callback | WOWAntiKeylogger/GlobalKeyboardHook.cs:122-157 | the precedence: swallow mode consumes with 0; otherwise KeyPress is raised exactly for a listened-to single-character key-down with the case-adjusted byte; Handled consumes that event with 1; everything else returns the next hook's answer |
| HookCallback.CallbackSpecDeterminesOutcome | WOWAntiKeylogger/GlobalKeyboardHook.cs:122-157 | the precedence specification is complete: any outcome meeting it is the callback's |
| HookCallback.SwallowConsumesEverything | WOWAntiKeylogger/GlobalKeyboardHook.cs:124-156 | in swallow mode every event, of any code and message, gets 0 with no KeyPress and no next-hook call |
| HookCallback.NonKeyDownPassedOn | WOWAntiKeylogger/GlobalKeyboardHook.cs:126-153 | not swallowing, a negative code or a non-WM_KEYDOWN message raises nothing and returns the next hook's answer |
| HookCallback.SysKeyDownPassedOn | WOWAntiKeylogger/GlobalKeyboardHook.cs:128-153 | WM_SYSKEYDOWN is passed on like any non-key-down message |
| HookCallback.OnlySingleCharacterRaises | WOWAntiKeylogger/GlobalKeyboardHook.cs:133-153 | a ToAscii answer other than 1 (dead key, none, two characters) raises nothing and is passed on |
| HookCallback.NoSubscriberPassesOn | WOWAntiKeylogger/GlobalKeyboardHook.cs:143-153 | with no subscriber, even a translated key-down is only passed on |
| HookCallback.RaisedKeyPressAndHandled | WOWAntiKeylogger/GlobalKeyboardHook.cs:143-153 | a raised KeyPress carries the case-adjusted byte; Handled gives 1 without the next hook, otherwise the next hook's answer |
| HookCallback.ResultIsZeroOneOrNext | WOWAntiKeylogger/GlobalKeyboardHook.cs:147-156 | the answer is 0, 1 or the next hook's, and the chain stops exactly in swallow mode or on a handled KeyPress |
| KeyStream.OutcomesPointwise | WOWAntiKeylogger/GlobalKeyboardHook.cs:122-157 | in a run of events each event's fate depends on that event alone |
| KeyStream.EachRaisingEventDispatchedOnce | WOWAntiKeylogger/GlobalKeyboardHook.cs:126-146 | a run raises exactly one character for each listened-to single-character key-down and none for any other event |
| KeyStream.SwallowedRunIsSilent | WOWAntiKeylogger/GlobalKeyboardHook.cs:124-156 | a whole run in swallow mode raises nothing and passes nothing on |
| KeyStream.HandledOverrideIsPerEvent | WOWAntiKeylogger/GlobalKeyboardHook.cs:145-148 | a handled event is consumed and the next unhandled key-down is passed on again |
| KeyStream.TypingScenario | WOWAntiKeylogger/GlobalKeyboardHook.cs:130-153 | 'a', Shift+'a', '5', Enter with no handler setting Handled give "aA5" (plus carriage return if ToAscii reports Enter as one character), all passed on |
| MainWindow.Construct | WOWAntiKeylogger/MainWindow.xaml.cs:19-29 | the window starts hooked in swallow mode with exactly one KeyPress handler, countdown 4, both timers idle |
| MainWindow.EnableAntiKeylogger | WOWAntiKeylogger/MainWindow.xaml.cs:222-229 | enabled, swallowing and protection box checked; the keylogger box, hook installation and timers untouched |
| MainWindow.DisableAntiKeylogger | WOWAntiKeylogger/MainWindow.xaml.cs:251-262 | disabled and protection box cleared; swallowing stays on exactly when the keylogger box is clear |
| MainWindow.Loaded | WOWAntiKeylogger/MainWindow.xaml.cs:31-41 | after loading the window is enabled, swallowing, protection box checked, start-up timer running |
| MainWindow.EnableButtonClick | WOWAntiKeylogger/MainWindow.xaml.cs:111-115 | the result is always enabled; an already enabled window is unchanged |
| MainWindow.DisableButtonClick | WOWAntiKeylogger/MainWindow.xaml.cs:117-121 | the result is always disabled; an already disabled window is unchanged |
| MainWindow.AntiCheckedHandler | WOWAntiKeylogger/MainWindow.xaml.cs:153-157 | checking the protection box leaves the window enabled, enabling (and swallowing) only if it was not |
| MainWindow.AntiUncheckedHandler | WOWAntiKeylogger/MainWindow.xaml.cs:159-165 | unchecking the protection box leaves the window disabled and always clears the keylogger box |
| MainWindow.KeyloggerCheckedHandler | WOWAntiKeylogger/MainWindow.xaml.cs:167-172 | checking the keylogger box makes swallowing equal to the protection box's state |
| MainWindow.KeyloggerUncheckedHandler | WOWAntiKeylogger/MainWindow.xaml.cs:190-195 | unchecking the keylogger box turns swallowing on and checks the protection box |
| MainWindow.MinimizeWindow | WOWAntiKeylogger/MainWindow.xaml.cs:283-294 | minimizing disables the start-up timer, starts the re-hook timer and changes nothing else |
| MainWindow.StartupTimerTick | WOWAntiKeylogger/MainWindow.xaml.cs:63-75 | a tick decrements a non-zero countdown, and at zero minimizes instead; protection and hook untouched |
| MainWindow.StartupCountdown | WOWAntiKeylogger/MainWindow.xaml.cs:63-75 | from countdown c, n <= c ticks leave c - n with the timer running; tick c + 1 minimizes and later ticks do nothing |
| MainWindow.StoppedTimerIsQuiet | WOWAntiKeylogger/MainWindow.xaml.cs:286-287 | a stopped start-up timer changes nothing however long it waits |
| MainWindow.MinimizesOnFifthTick | WOWAntiKeylogger/MainWindow.xaml.cs:22-75 | after loading, ticks 1 to 4 do not minimize and tick 5 does |
| MainWindow.RehookTimerTick | WOWAntiKeylogger/MainWindow.xaml.cs:77-96 | acts only with the protection box checked and the start-up timer disabled; then the hook is reinstalled swallowing with the new handle, the listener count is kept (or becomes 1 from 0), and no registration is orphaned |
| MainWindow.WindowClosing | WOWAntiKeylogger/MainWindow.xaml.cs:43-47 | closing unhooks: null handle, swallowing off, and from an orphan-free state no live registration |
| MainWindow.UncheckedHandlerAloneExposes | WOWAntiKeylogger/MainWindow.xaml.cs:159-165 | the protection box's Unchecked handler taken alone can leave swallowing off with neither box asking for it |
| Cascade.EnableCascadeIsAtomic | WOWAntiKeylogger/MainWindow.xaml.cs:222-229 | the Checked event raised inside EnableAntiKeylogger does nothing more |
| Cascade.DisableCascade | WOWAntiKeylogger/MainWindow.xaml.cs:251-262 | disabling with the keylogger box clear is DisableAntiKeylogger; with it checked the raised events re-enable protection and clear that box |
| Cascade.UncheckProtectionCascades | WOWAntiKeylogger/MainWindow.xaml.cs:159-165 | clicking off the protection box keeps swallowing on: protection is disabled if the keylogger box was clear, and bounces back if it was checked |
| Cascade.LoadedIsProtected | WOWAntiKeylogger/MainWindow.xaml.cs:19-41 | a loaded window satisfies the protection invariant whatever the boxes started as |
| Cascade.StepPreservesProtection | WOWAntiKeylogger/MainWindow.xaml.cs:111-201 | every click and timer tick, with all the events it raises, preserves the protection invariant |
| Cascade.RunPreservesProtection | WOWAntiKeylogger/MainWindow.xaml.cs:111-201 | any sequence of clicks and ticks preserves the protection invariant |
| Cascade.KeystrokesOnlyOnRequest | WOWAntiKeylogger/MainWindow.xaml.cs:57-61 | in a protected window keystrokes reach the window's handler, and events are passed on, only in logging mode (protection box clear, keylogger box checked); with either the protection box checked or the keylogger box clear, a disabled window included, everything is consumed with 0 |
| Cascade.LoggingModeReachable | WOWAntiKeylogger/MainWindow.xaml.cs:159-172 | clearing the protection box and then checking the keylogger box turns swallowing off |
| Cascade.ClosingReleasesHook | WOWAntiKeylogger/MainWindow.xaml.cs:43-47 | closing a protected window leaves no hook registration behind |

The protection invariant (`Cascade.Protected`) has five parts:
* The enabled flag equals the protection box.
* Swallowing is off only when the keylogger box is checked and the protection box is clear.
* Exactly one KeyPress handler is attached, and the callback is stored.
* No hook registration is orphaned.
* The countdown is never negative.

## Left out

- Win32 semantics. The model does not interpret `SetWindowsHookEx`, `CallNextHookEx`, `ToAscii`, `GetKeyboardState`, `GetKeyState` or `LoadLibrary`. Their behaviour lives in the OS. Their answers are parameters.
- A failing `UnhookWindowsHookEx`. The model assumes it always releases the handle it is given. The code ignores its answer and clears the handle anyway. A failed call would leave a registration that nothing can reach. `KeyboardHook.UnhookReleasesAll`, `KeyboardHook.RehookNoOrphans`, `Cascade.ClosingReleasesHook` and the no-orphan part of `Cascade.Protected` hold only under this assumption.
- The `KBDLLHOOKSTRUCT` fields: virtual-key code, scan code, flags, time and extra info. They only flow into `ToAscii` and `CallNextHookEx`, so they are represented by those answers.
- Whether and how often the OS invokes the callback. The model describes one invocation. A registration orphaned by a double `Hook` would keep invoking the same object's callback, but that delivery is not modelled.
- `Char.IsLetter` and `Char.ToUpper` are Unicode and culture tables. They are a `Culture` parameter.
- CaseRule.LowercaseLetterRule: stated only for cultures that agree with ASCII on letters and digits. Turkish casing of 'i' is not covered.
- CaseRule.DigitsAndUppercaseUnchanged: stated only for cultures that agree with ASCII on letters and digits.
- KeyboardHook.Subscribe: counts handlers. It does not track delegate identity, because the window attaches and detaches only one handler.
- The finalizer and the garbage-collection lifetime of the `hookProc` delegate. This is runtime memory management.
- Threading. The unsynchronised `SwallowKeystrokes` flag is read on the hook thread and written on the UI thread. Each operation is modelled as atomic.
- `DispatcherTimer` intervals and wall-clock time. A tick is a discrete event.
- Presentation: balloon tips, lock images, window state and visibility, the tray icon, dragging, `Process.Start` and the captured-keystrokes text box. The text box covers the `KeyPress` handler's append and the clearing on unchecking the keylogger box.
- The `IsChecked` state of the enable and disable toggle buttons. Nothing reads it.
- The check boxes' initial values and any events raised while the markup loads. They are parameters of `MainWindow.Construct`, because the markup is not part of this model. `Window_Loaded` makes the protection state the same either way.
- `bool?` check-box values. They are plain booleans, and the null-to-`bool` casts are not modelled.
- The `keyloggerCheckBox != null` tests. The box exists once the window is constructed.
- `exitButton_Click`, `mainExitButton_MouseUp`, `openConfigButton_Click` and `trayIcon_DoubleClick`. They only close or show the window. The hook part of closing is `MainWindow.WindowClosing`.
- The single-instance check in `App.xaml.cs`. It enumerates processes and shows a message box, which is OS I/O with no decision logic.

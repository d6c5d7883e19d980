/**
 HookCallback, the procedure the OS calls for every low-level keyboard event,
 as a pure function of the object's state, the hook code, the message, and
 the answers the Win32 calls and the KeyPress subscribers give during the
 call.  The KBDLLHOOKSTRUCT fields only flow into ToAscii and CallNextHookEx,
 so they are represented by those calls' answers.
 */
module HookCallback {
  import opened Win32
  import opened Wrappers
  import opened CaseRule
  import opened KeyboardHook

  /** What the outside world answers during one invocation of the callback. */
  datatype Answers = Answers(
    translated: Int32,     // ToAscii's return: negative dead key, 0, 1 or 2 characters
    firstByte: Byte,       // inBuffer[0] after ToAscii
    shiftState: KeyState,  // GetKeyState(VK_SHIFT)
    capsState: KeyState,   // GetKeyState(VK_CAPITAL)
    handled: bool,         // KeyPressEventArgs.Handled once every subscriber has run
    nextHook: Int32)       // CallNextHookEx's return value

  /** The callback's observable effect: the KeyPress raised, whether the chain continued, the return value. */
  datatype Outcome = Outcome(keyPress: Option<char>, calledNext: bool, result: Int32)

  /** Not swallowing, and the event is a key-down ToAscii turns into exactly one character. */
  predicate TranslatesKeyDown(i: Interceptor, code: Int32, wParam: Int32, a: Answers) {
    !i.swallowKeystrokes && code >= 0 && wParam == WM_KEYDOWN && a.translated == 1
  }

  /** KeyPress is raised: a single-character key-down while somebody listens. */
  predicate RaisesKeyPress(i: Interceptor, code: Int32, wParam: Int32, a: Answers) {
    TranslatesKeyDown(i, code, wParam, a) && i.subscribers > 0
  }

  /** The character a raised KeyPress carries: the first ToAscii byte after the case rule. */
  function KeyChar(a: Answers, culture: Culture): char {
    CaseAdjust((a.firstByte as int) as char, a.shiftState, a.capsState, culture)
  }

  /**
   The decision the callback makes, stated as precedence rather than as code:
   swallow mode consumes every event and answers 0; otherwise a KeyPress is
   raised exactly for a listened-to single-character key-down, a subscriber's
   Handled consumes that one event with answer 1, and everything else is
   passed down the chain with the next hook's answer.
   */
  ghost predicate CallbackSpec(i: Interceptor, code: Int32, wParam: Int32, a: Answers, culture: Culture, o: Outcome) {
    && (o.keyPress.Some? <==> RaisesKeyPress(i, code, wParam, a))
    && (o.keyPress.Some? ==> o.keyPress.value == KeyChar(a, culture))
    && (o.calledNext <==> !i.swallowKeystrokes && !(RaisesKeyPress(i, code, wParam, a) && a.handled))
    && (o.calledNext ==> o.result == a.nextHook)
    && (!o.calledNext ==> o.result == if i.swallowKeystrokes then 0 else 1)
  }

  /** HookCallback(code, wParam, lParam) with the given answers. */
  function Callback(i: Interceptor, code: Int32, wParam: Int32, a: Answers, culture: Culture): (o: Outcome)
    ensures CallbackSpec(i, code, wParam, a, culture, o)
  {
    var forward := (key: Option<char>) => Outcome(key, true, a.nextHook);
    if !i.swallowKeystrokes then
      if code >= 0 then
        if wParam == WM_KEYDOWN then
          if a.translated == 1 then
            var key := KeyChar(a, culture);
            if i.subscribers > 0 then
              if a.handled then Outcome(Some(key), false, 1) else forward(Some(key))
            else forward(None)
          else forward(None)
        else forward(None)
      else forward(None)
    else
      Outcome(None, false, 0)
  }

  /** The precedence specification leaves no freedom: it determines the outcome. */
  lemma CallbackSpecDeterminesOutcome(i: Interceptor, code: Int32, wParam: Int32, a: Answers, culture: Culture, o: Outcome)
    requires CallbackSpec(i, code, wParam, a, culture, o)
    ensures o == Callback(i, code, wParam, a, culture)
  {
  }

  /**
   While swallowing, every event, whatever its code and message, is consumed
   with answer 0: no KeyPress and no call to the next hook, even for a
   negative code.
   */
  lemma SwallowConsumesEverything(i: Interceptor, code: Int32, wParam: Int32, a: Answers, culture: Culture)
    requires i.swallowKeystrokes
    ensures Callback(i, code, wParam, a, culture) == Outcome(None, false, 0)
  {
  }

  /** Not swallowing, a negative code or any message but WM_KEYDOWN is passed on untouched. */
  lemma NonKeyDownPassedOn(i: Interceptor, code: Int32, wParam: Int32, a: Answers, culture: Culture)
    requires !i.swallowKeystrokes && (code < 0 || wParam != WM_KEYDOWN)
    ensures Callback(i, code, wParam, a, culture) == Outcome(None, true, a.nextHook)
  {
  }

  /** WM_SYSKEYDOWN (a key pressed with Alt) is not a key-down for the callback. */
  lemma SysKeyDownPassedOn(i: Interceptor, code: Int32, a: Answers, culture: Culture)
    requires !i.swallowKeystrokes
    ensures Callback(i, code, WM_SYSKEYDOWN, a, culture) == Outcome(None, true, a.nextHook)
  {
  }

  /**
   Only a ToAscii answer of exactly one character raises KeyPress: a dead key,
   no translation and a two-character translation are all passed on silently.
   */
  lemma OnlySingleCharacterRaises(i: Interceptor, code: Int32, wParam: Int32, a: Answers, culture: Culture)
    requires !i.swallowKeystrokes && a.translated != 1
    ensures Callback(i, code, wParam, a, culture) == Outcome(None, true, a.nextHook)
  {
  }

  /** With nobody listening, even a translated key-down is just passed on. */
  lemma NoSubscriberPassesOn(i: Interceptor, code: Int32, wParam: Int32, a: Answers, culture: Culture)
    requires !i.swallowKeystrokes && i.subscribers == 0
    ensures Callback(i, code, wParam, a, culture) == Outcome(None, true, a.nextHook)
  {
  }

  /**
   A raised KeyPress carries the case-adjusted first byte; a subscriber that
   sets Handled consumes the event with answer 1, otherwise it goes on with
   the next hook's answer.
   */
  lemma RaisedKeyPressAndHandled(i: Interceptor, code: Int32, wParam: Int32, a: Answers, culture: Culture)
    requires RaisesKeyPress(i, code, wParam, a)
    ensures var o := Callback(i, code, wParam, a, culture);
      && o.keyPress == Some(KeyChar(a, culture))
      && (a.handled ==> !o.calledNext && o.result == 1)
      && (!a.handled ==> o.calledNext && o.result == a.nextHook)
  {
  }

  /** The callback answers 0, 1 or the next hook's answer, and 0 without a call only in swallow mode. */
  lemma ResultIsZeroOneOrNext(i: Interceptor, code: Int32, wParam: Int32, a: Answers, culture: Culture)
    ensures var o := Callback(i, code, wParam, a, culture);
      && (o.result == 0 || o.result == 1 || o.result == a.nextHook)
      && (!o.calledNext <==> i.swallowKeystrokes || (o.keyPress.Some? && a.handled))
  {
  }
}

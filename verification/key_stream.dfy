/**
 A run of keyboard events delivered, one callback at a time, to an
 interceptor whose state does not change in between.  The callback keeps no
 memory across events, so a subscriber's Handled affects one event only.
 */
module KeyStream {
  import opened Win32
  import opened Wrappers
  import opened CaseRule
  import opened KeyboardHook
  import opened HookCallback

  /** One low-level keyboard event and the answers given while it is handled. */
  datatype KeyEvent = KeyEvent(code: Int32, wParam: Int32, answers: Answers)

  function Outcomes(i: Interceptor, evs: seq<KeyEvent>, culture: Culture): (os: seq<Outcome>)
    ensures |os| == |evs|
    decreases |evs|
  {
    if |evs| == 0 then []
    else [Callback(i, evs[0].code, evs[0].wParam, evs[0].answers, culture)] + Outcomes(i, evs[1..], culture)
  }

  /** The characters subscribers receive, in order. */
  function KeyPresses(os: seq<Outcome>): seq<char>
    decreases |os|
  {
    if |os| == 0 then []
    else (if os[0].keyPress.Some? then [os[0].keyPress.value] else []) + KeyPresses(os[1..])
  }

  /** Each event's fate depends on that event alone. */
  lemma {:induction false} OutcomesPointwise(i: Interceptor, evs: seq<KeyEvent>, culture: Culture, k: nat)
    requires k < |evs|
    ensures Outcomes(i, evs, culture)[k] == Callback(i, evs[k].code, evs[k].wParam, evs[k].answers, culture)
    decreases |evs|
  {
    if k > 0 {
      OutcomesPointwise(i, evs[1..], culture, k - 1);
    }
  }

  /** How many of the events raise a KeyPress. */
  function CountRaised(i: Interceptor, evs: seq<KeyEvent>): nat
    decreases |evs|
  {
    if |evs| == 0 then 0
    else (if RaisesKeyPress(i, evs[0].code, evs[0].wParam, evs[0].answers) then 1 else 0) + CountRaised(i, evs[1..])
  }

  /** Every listened-to single-character key-down is dispatched exactly once, and nothing else is. */
  lemma {:induction false} EachRaisingEventDispatchedOnce(i: Interceptor, evs: seq<KeyEvent>, culture: Culture)
    ensures |KeyPresses(Outcomes(i, evs, culture))| == CountRaised(i, evs)
    decreases |evs|
  {
    if |evs| > 0 {
      var os := Outcomes(i, evs, culture);
      assert os[1..] == Outcomes(i, evs[1..], culture);
      EachRaisingEventDispatchedOnce(i, evs[1..], culture);
    }
  }

  /** In swallow mode a whole run raises nothing and passes nothing down the chain. */
  lemma {:induction false} SwallowedRunIsSilent(i: Interceptor, evs: seq<KeyEvent>, culture: Culture)
    requires i.swallowKeystrokes
    ensures KeyPresses(Outcomes(i, evs, culture)) == []
    ensures forall k :: 0 <= k < |evs| ==> !Outcomes(i, evs, culture)[k].calledNext
    decreases |evs|
  {
    if |evs| > 0 {
      SwallowedRunIsSilent(i, evs[1..], culture);
    }
  }

  /**
   Handled is a per-event override: an event a subscriber handles is
   consumed, and the next translated key-down whose Handled stays false is
   passed on again, with swallow mode off throughout.
   */
  lemma HandledOverrideIsPerEvent(i: Interceptor, evs: seq<KeyEvent>, culture: Culture, k: nat)
    requires k + 1 < |evs|
    requires RaisesKeyPress(i, evs[k].code, evs[k].wParam, evs[k].answers) && evs[k].answers.handled
    requires RaisesKeyPress(i, evs[k + 1].code, evs[k + 1].wParam, evs[k + 1].answers) && !evs[k + 1].answers.handled
    ensures !Outcomes(i, evs, culture)[k].calledNext && Outcomes(i, evs, culture)[k].result == 1
    ensures Outcomes(i, evs, culture)[k + 1].calledNext
  {
    OutcomesPointwise(i, evs, culture, k);
    OutcomesPointwise(i, evs, culture, k + 1);
  }

  /** A plain key-down with the given translation and Shift state; Caps Lock off, Handled left false. */
  function KeyDown(translated: Int32, firstByte: Byte, shift: KeyState): KeyEvent {
    KeyEvent(0, WM_KEYDOWN, Answers(translated, firstByte, shift, 0, false, 0))
  }

  /**
   End to end with swallow mode off and one subscriber that never handles:
   'a', Shift+'a' and '5' are raised as "aA5"; Enter raises a KeyPress only
   if ToAscii reports it as one character (carriage return), and every event
   is passed on.
   */
  lemma TypingScenario(i: Interceptor, culture: Culture, enterTranslated: Int32)
    requires !i.swallowKeystrokes && i.subscribers == 1 && AsciiConsistent(culture)
    ensures var evs := [KeyDown(1, 0x61, 0), KeyDown(1, 0x61, 0xFF80), KeyDown(1, 0x35, 0), KeyDown(enterTranslated, 0x0D, 0)];
      && KeyPresses(Outcomes(i, evs, culture)) == (if enterTranslated == 1 then "aA5\r" else "aA5")
      && forall k :: 0 <= k < |evs| ==> Outcomes(i, evs, culture)[k].calledNext
  {
    var evs := [KeyDown(1, 0x61, 0), KeyDown(1, 0x61, 0xFF80), KeyDown(1, 0x35, 0), KeyDown(enterTranslated, 0x0D, 0)];
    CaseTable(culture);
    assert KeyChar(evs[0].answers, culture) == 'a';
    assert KeyChar(evs[1].answers, culture) == 'A';
    assert KeyChar(evs[2].answers, culture) == '5';
    assert KeyChar(evs[3].answers, culture) == '\r';
    var o0 := Callback(i, 0, WM_KEYDOWN, evs[0].answers, culture);
    var o1 := Callback(i, 0, WM_KEYDOWN, evs[1].answers, culture);
    var o2 := Callback(i, 0, WM_KEYDOWN, evs[2].answers, culture);
    var o3 := Callback(i, 0, WM_KEYDOWN, evs[3].answers, culture);
    assert evs[1..][1..][1..][1..] == [];
    assert Outcomes(i, evs[1..][1..][1..], culture) == [o3];
    assert Outcomes(i, evs[1..][1..], culture) == [o2, o3];
    assert Outcomes(i, evs[1..], culture) == [o1, o2, o3];
    assert Outcomes(i, evs, culture) == [o0, o1, o2, o3];
    assert [o0, o1, o2, o3][1..] == [o1, o2, o3] && [o1, o2, o3][1..] == [o2, o3] && [o2, o3][1..] == [o3];
    assert KeyPresses([o3]) == if enterTranslated == 1 then "\r" else "";
    assert KeyPresses([o2, o3]) == "5" + KeyPresses([o3]);
    assert KeyPresses([o1, o2, o3]) == "A" + KeyPresses([o2, o3]);
    assert KeyPresses([o0, o1, o2, o3]) == "a" + KeyPresses([o1, o2, o3]);
  }
}

/**
 The case rule the hook callback applies to a translated character: a letter
 is uppercased exactly when "Shift is down" and "Caps Lock is on" disagree.
 Both tests read the raw GetKeyState bits; Char.IsLetter and Char.ToUpper are
 culture-dependent Unicode tables and are supplied as a `Culture`.
 */
module CaseRule {
  import opened Win32

  /** Char.IsLetter and Char.ToUpper of the culture the process runs under. */
  datatype Culture = Culture(isLetter: char -> bool, toUpper: char -> char)

  /** Shift counts as down when bit 7 of its GetKeyState value is set. */
  predicate ShiftDown(state: KeyState) {
    state & 0x80 == 0x80
  }

  /** Caps Lock counts as on when its GetKeyState value is non-zero in any bit. */
  predicate CapsOn(state: KeyState) {
    state != 0
  }

  /**
   The character handed to subscribers for the translated character `key`.
   Only a letter can change, only while exactly one of Shift and Caps Lock is
   active, and then only into the culture's uppercase of itself.
   */
  function CaseAdjust(key: char, shift: KeyState, caps: KeyState, culture: Culture): (c: char)
    ensures c != key ==> culture.isLetter(key) && ShiftDown(shift) != CapsOn(caps)
    ensures c != key ==> c == culture.toUpper(key)
    ensures culture.isLetter(key) && ShiftDown(shift) != CapsOn(caps) ==> c == culture.toUpper(key)
  {
    if (CapsOn(caps) != ShiftDown(shift)) && culture.isLetter(key) then culture.toUpper(key) else key
  }

  predicate IsAsciiLower(c: char) { 'a' <= c <= 'z' }
  predicate IsAsciiUpper(c: char) { 'A' <= c <= 'Z' }
  predicate IsAsciiDigit(c: char) { '0' <= c <= '9' }

  /** The ASCII uppercase of an ASCII lowercase letter. */
  function AsciiUpper(c: char): (u: char)
    requires IsAsciiLower(c)
    ensures IsAsciiUpper(u) && u as int + 32 == c as int
  {
    (c as int - 32) as char
  }

  /**
   A culture whose tables agree with ASCII on the 52 ASCII letters and the ten
   digits: every .NET culture except those with special casing of 'i'.
   */
  ghost predicate AsciiConsistent(culture: Culture) {
    && (forall c :: IsAsciiLower(c) ==> culture.isLetter(c) && culture.toUpper(c) == AsciiUpper(c))
    && (forall c :: IsAsciiUpper(c) ==> culture.isLetter(c) && culture.toUpper(c) == c)
    && (forall c :: IsAsciiDigit(c) ==> !culture.isLetter(c))
  }

  /** A culture defined on ASCII only, witnessing that AsciiConsistent can be met. */
  function AsciiCulture(): Culture {
    Culture(c => IsAsciiLower(c) || IsAsciiUpper(c), c => if IsAsciiLower(c) then AsciiUpper(c) else c)
  }

  lemma AsciiCultureIsConsistent()
    ensures AsciiConsistent(AsciiCulture())
  {
  }

  /**
   The Shift test reads bit 7, not the SHORT's sign bit: GetKeyState's usual
   "down" answers 0xFF80 and 0xFF81 pass it, a bare 0x8000 would not.
   */
  lemma ShiftTestReadsBitSeven()
    ensures ShiftDown(0xFF80) && ShiftDown(0xFF81) && !ShiftDown(0x8000) && !ShiftDown(1)
  {
  }

  /**
   Caps Lock held down while its toggle is off (GetKeyState answers 0xFF80,
   toggle bit 0 clear) still counts as on, because the test is `!= 0` rather
   than a test of the toggle bit.
   */
  lemma CapsHeldButUntoggledCountsAsOn()
    ensures (0xFF80 as KeyState) & 1 == 0 && CapsOn(0xFF80)
  {
  }

  /** An ASCII lowercase letter comes out uppercase exactly when Shift XOR Caps Lock. */
  lemma LowercaseLetterRule(key: char, shift: KeyState, caps: KeyState, culture: Culture)
    requires AsciiConsistent(culture) && IsAsciiLower(key)
    ensures var c := CaseAdjust(key, shift, caps, culture);
      && (c == AsciiUpper(key) <==> ShiftDown(shift) != CapsOn(caps))
      && (c == key <==> ShiftDown(shift) == CapsOn(caps))
  {
  }

  /** Digits and ASCII uppercase letters are never changed: the rule never lowercases. */
  lemma DigitsAndUppercaseUnchanged(key: char, shift: KeyState, caps: KeyState, culture: Culture)
    requires AsciiConsistent(culture) && (IsAsciiDigit(key) || IsAsciiUpper(key))
    ensures CaseAdjust(key, shift, caps, culture) == key
  {
  }

  /**
   The literal case table: Shift down is GetKeyState's 0xFF80, Caps Lock on is
   its toggled value 0x0001, both off is 0.
   */
  lemma CaseTable(culture: Culture)
    requires AsciiConsistent(culture)
    ensures CaseAdjust('a', 0xFF80, 0, culture) == 'A'
    ensures CaseAdjust('a', 0, 1, culture) == 'A'
    ensures CaseAdjust('a', 0xFF80, 1, culture) == 'a'
    ensures CaseAdjust('a', 0, 0, culture) == 'a'
    ensures forall shift: KeyState, caps: KeyState :: CaseAdjust('5', shift, caps, culture) == '5'
  {
    assert IsAsciiLower('a') && AsciiUpper('a') == 'A';
    assert IsAsciiDigit('5');
  }
}

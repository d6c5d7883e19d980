/**
 The Win32 vocabulary the keyboard hook is written against: fixed-width
 integers, the opaque hook handle, and the message constants the
 callback compares against.  Only the values are modelled; the calls that consume
 them are oracles supplied by the caller of each operation.
 */
module Win32 {

  /** A C# `int`: the hook code, the message identifier, ToAscii's and CallNextHookEx's results. */
  newtype Int32 = x: int | -0x8000_0000 <= x < 0x8000_0000

  /** A C# `byte`: one cell of the buffer ToAscii writes. */
  newtype Byte = x: int | 0 <= x < 0x100

  /** The raw 16 bits of the SHORT returned by GetKeyState. */
  type KeyState = bv16

  /** An `IntPtr` hook handle; zero is the null handle SetWindowsHookEx returns on failure. */
  type Handle = int

  const NullHandle: Handle := 0

  /** Window messages a low-level keyboard hook receives as `wParam`. */
  const WM_KEYDOWN: Int32 := 0x100
  const WM_SYSKEYDOWN: Int32 := 0x104
}

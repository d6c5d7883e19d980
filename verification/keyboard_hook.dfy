/**
 The state of a GlobalKeyboardHook object and its install/uninstall lifecycle.
 SetWindowsHookEx, UnhookWindowsHookEx and LoadLibrary are not modelled as
 calls: the handle SetWindowsHookEx returns is a parameter of `Hook`, and the
 registrations the OS keeps are tracked as a set of live handles.
 */
module KeyboardHook {
  import opened Win32

  /** The fields of one GlobalKeyboardHook instance. */
  datatype Interceptor = Interceptor(
    hookId: Handle,           // handle of the installed hook, NullHandle when none
    swallowKeystrokes: bool,  // the SwallowKeystrokes property
    callbackStored: bool,     // the hookProc delegate field is non-null
    subscribers: nat)         // handlers attached to the KeyPress event

  /** The object as its field initialisers leave it, before the constructor body. */
  function Fresh(): Interceptor {
    Interceptor(NullHandle, false, false, 0)
  }

  /**
   Hook(swallow), where SetWindowsHookEx answered `returned` (NullHandle on
   failure).  There is no guard against an earlier installation: the mode and
   whatever handle the OS returned are stored unconditionally.
   */
  function Hook(i: Interceptor, swallow: bool, returned: Handle): (r: Interceptor)
    ensures r.swallowKeystrokes == swallow && r.hookId == returned && r.callbackStored
    ensures r.subscribers == i.subscribers
  {
    i.(swallowKeystrokes := swallow, hookId := returned, callbackStored := true)
  }

  /** Unhook(): the handle, the swallow mode and the stored callback are all cleared. */
  function Unhook(i: Interceptor): (r: Interceptor)
    ensures r.hookId == NullHandle && !r.swallowKeystrokes && !r.callbackStored
    ensures r.subscribers == i.subscribers
  {
    i.(hookId := NullHandle, swallowKeystrokes := false, callbackStored := false)
  }

  /** The constructor GlobalKeyboardHook(swallow): installs at once, with no subscriber yet. */
  function Construct(swallow: bool, returned: Handle): (r: Interceptor)
    ensures r.swallowKeystrokes == swallow && r.hookId == returned && r.callbackStored
    ensures r.subscribers == 0
  {
    Hook(Fresh(), swallow, returned)
  }

  /** The SwallowKeystrokes setter: the mode changes, the installation does not. */
  function SetSwallow(i: Interceptor, swallow: bool): (r: Interceptor)
    ensures r.swallowKeystrokes == swallow
    ensures r.hookId == i.hookId && r.callbackStored == i.callbackStored && r.subscribers == i.subscribers
  {
    i.(swallowKeystrokes := swallow)
  }

  /** `KeyPress += handler`. */
  function Subscribe(i: Interceptor): (r: Interceptor)
    ensures r.subscribers == i.subscribers + 1 && r.subscribers > 0
    ensures r.(subscribers := i.subscribers) == i
  {
    i.(subscribers := i.subscribers + 1)
  }

  /** `KeyPress -= handler`: removing a handler that is not attached changes nothing. */
  function Unsubscribe(i: Interceptor): (r: Interceptor)
    ensures i.subscribers > 0 ==> r.subscribers + 1 == i.subscribers
    ensures i.subscribers == 0 ==> r == i
    ensures r.(subscribers := i.subscribers) == i
  {
    if i.subscribers > 0 then i.(subscribers := i.subscribers - 1) else i
  }

  /** Unhook is idempotent: a second call finds nothing left to clear. */
  lemma UnhookIdempotent(i: Interceptor)
    ensures Unhook(Unhook(i)) == Unhook(i)
  {
  }

  /**
   Hook remembers nothing of an earlier installation: two objects that differ
   only in their handle, mode and stored callback end up identical.
   */
  lemma HookIgnoresPriorInstallation(i: Interceptor, j: Interceptor, swallow: bool, returned: Handle)
    requires i.subscribers == j.subscribers
    ensures Hook(i, swallow, returned) == Hook(j, swallow, returned)
  {
  }

  /**
   Re-hooking after an Unhook leaves the object's fields as Hook alone does;
   only the OS registrations differ (see DoubleHookOrphansFirst).
   */
  lemma RehookForgetsUnhook(i: Interceptor, swallow: bool, returned: Handle)
    ensures Hook(Unhook(i), swallow, returned) == Hook(i, swallow, returned)
  {
  }

  /**
   An interceptor together with the hook registrations the OS holds for its
   callback.  SetWindowsHookEx returning a non-null handle adds a live
   registration; UnhookWindowsHookEx removes the one it is given.
   */
  datatype HookSystem = HookSystem(interceptor: Interceptor, live: set<Handle>)

  function SysHook(s: HookSystem, swallow: bool, returned: Handle): HookSystem {
    var live := if returned == NullHandle then s.live else s.live + {returned};
    HookSystem(Hook(s.interceptor, swallow, returned), live)
  }

  function SysUnhook(s: HookSystem): HookSystem {
    HookSystem(Unhook(s.interceptor), s.live - {s.interceptor.hookId})
  }

  /** Every live registration is the one the object can still unhook. */
  predicate NoOrphans(s: HookSystem) {
    s.live <= {s.interceptor.hookId} && NullHandle !in s.live
  }

  /** The object's lifetime from a clean OS: constructing it leaves no orphan. */
  lemma ConstructNoOrphans(swallow: bool, returned: Handle)
    ensures NoOrphans(SysHook(HookSystem(Fresh(), {}), swallow, returned))
  {
  }

  /** Unhook from an orphan-free state releases every registration, and stays so when repeated. */
  lemma UnhookReleasesAll(s: HookSystem)
    requires NoOrphans(s)
    ensures SysUnhook(s).live == {} && NoOrphans(SysUnhook(s))
    ensures SysUnhook(SysUnhook(s)) == SysUnhook(s)
  {
  }

  /** Unhook followed by Hook (the periodic re-hook) keeps the state orphan-free. */
  lemma RehookNoOrphans(s: HookSystem, swallow: bool, returned: Handle)
    requires NoOrphans(s)
    ensures NoOrphans(SysHook(SysUnhook(s), swallow, returned))
  {
  }

  /**
   A second Hook without an Unhook in between orphans the first registration:
   the object forgets its handle, and a later Unhook cannot release it.
   */
  lemma DoubleHookOrphansFirst(s: HookSystem, first: Handle, second: Handle, swallow: bool)
    requires s.live == {} && first != NullHandle && second != NullHandle && first != second
    ensures var once := SysHook(s, swallow, first);
      && NoOrphans(once)
      && !NoOrphans(SysHook(once, swallow, second))
      && first in SysUnhook(SysHook(once, swallow, second)).live
  {
  }
}

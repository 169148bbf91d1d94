/**
 * The abstract Windows platform the library talks to.
 *
 * The desktop is a value: the top-level windows in enumeration order, the
 * attributes of each window, the foreground window, the taskbar window, and
 * logs of the calls made and the input batches submitted. The platform's
 * non-deterministic answers (which window ends up in the foreground after a
 * SetForegroundWindow, whether an AttachThreadInput succeeds, what
 * VkKeyScanW answers under the current keyboard layout) come from an
 * `Oracle`; each answer may depend on how many calls were made before it.
 */
module Win32 {

  type u16 = x: int | 0 <= x < 0x1_0000
  type u32 = x: int | 0 <= x < 0x1_0000_0000

  /** A Win32 SHORT, the result type of VkKeyScanW. */
  type Short = x: int | -0x8000 <= x < 0x8000

  /** A window handle; 0 is the null handle. */
  type Hwnd = nat

  const Null: Hwnd := 0

  /** What GetWindowThreadProcessId, IsWindowVisible, IsIconic, IsHungAppWindow
      and GetWindow(_, GW_OWNER) report about one window. */
  datatype WindowInfo = WindowInfo(
    pid: u32,
    tid: u32,
    visible: bool,
    minimized: bool,
    hung: bool,
    owner: Hwnd)

  /** What those queries report for a handle that names no window. */
  const NoWindow := WindowInfo(0, 0, false, false, false, Null)

  /** The two thread ids of an AttachThreadInput call, attaching `from` to `to`. */
  datatype ThreadPair = ThreadPair(from: u32, to: u32)

  /** The KEYBDINPUT record. */
  datatype KeybdInput = KeybdInput(wVk: u16, wScan: u16, dwFlags: u32, time: u32, dwExtraInfo: nat)

  /** The INPUT record, with its union always holding the keyboard variant. */
  datatype Input = Input(kind: u32, ki: KeybdInput)

  const INPUT_KEYBOARD: u32 := 1
  const KEYEVENTF_KEYUP: u32 := 0x0002

  /** The state-changing platform calls, as recorded in the desktop's log. */
  datatype Call =
    | ShowRestore(hwnd: Hwnd)                 // ShowWindow(hwnd, SW_RESTORE)
    | Attach(pair: ThreadPair, ok: bool)      // AttachThreadInput(from, to, TRUE) and its outcome
    | Detach(pair: ThreadPair)                // AttachThreadInput(from, to, FALSE)
    | SetForeground(hwnd: Hwnd)               // SetForegroundWindow(hwnd)

  /** The platform's answers. The argument of each function is the position in
      the call log at which the call is made. */
  datatype Oracle = Oracle(
    foregroundAfter: nat -> Hwnd,
    attachSucceeds: nat -> bool,
    keyScan: u16 -> Short)

  datatype DesktopState = DesktopState(
    windows: seq<Hwnd>,                 // EnumWindows order
    info: map<Hwnd, WindowInfo>,
    foreground: Hwnd,                   // what GetForegroundWindow returns; may be Null
    tray: Hwnd,                         // what FindWindowA("Shell_TrayWnd", NULL) returns; may be Null
    currentThread: u32,                 // GetCurrentThreadId
    attached: multiset<ThreadPair>,     // input queues currently attached
    log: seq<Call>,
    sent: seq<seq<Input>>)              // batches given to SendInput

  function Info(d: DesktopState, h: Hwnd): WindowInfo {
    if h in d.info then d.info[h] else NoWindow
  }

  /** A desktop the platform can present: EnumWindows never reports the null
      handle, and the window queries know nothing about it. */
  predicate WellFormed(d: DesktopState) {
    Null !in d.windows && Null !in d.info
  }

  /** ShowWindow(h, SW_RESTORE): the window is no longer minimized. */
  function ShowWindowRestore(d: DesktopState, h: Hwnd): DesktopState {
    d.(info := d.info[h := Info(d, h).(minimized := false)], log := d.log + [ShowRestore(h)])
  }

  /** AttachThreadInput(from, to, TRUE), whose outcome the oracle decides. */
  function AttachThreadInput(d: DesktopState, o: Oracle, p: ThreadPair): (bool, DesktopState) {
    var ok := o.attachSucceeds(|d.log|);
    (ok, d.(attached := if ok then d.attached + multiset{p} else d.attached,
            log := d.log + [Attach(p, ok)]))
  }

  /** AttachThreadInput(from, to, FALSE); the library ignores its outcome. */
  function DetachThreadInput(d: DesktopState, p: ThreadPair): DesktopState {
    d.(attached := d.attached - multiset{p}, log := d.log + [Detach(p)])
  }

  /** SetForegroundWindow(h): the oracle decides which window is in the
      foreground once the call has settled. */
  function SetForegroundWindow(d: DesktopState, o: Oracle, h: Hwnd): DesktopState {
    d.(foreground := o.foregroundAfter(|d.log|), log := d.log + [SetForeground(h)])
  }

  /** SendInput: the batch is queued on the input stream as one unit. */
  function SendInput(d: DesktopState, batch: seq<Input>): DesktopState {
    d.(sent := d.sent + [batch])
  }
}

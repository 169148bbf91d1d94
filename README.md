# innerput on Windows, modelled in Dafny

innerput sends key chords to a child process. On Windows, `send_chord` first
brings the child's top-level window to the foreground. Then it submits a
single input batch: a key-down record for every key of the chord, followed by
a key-up record for every key.

This project models that core:
- the translation of keys to virtual-key codes and INPUT records
  (src/win32/keyboard.rs, with the `Key` enum of src/lib.rs);
- the window queries and the foreground-activation protocol
  (src/win32/window.rs);
- `send_chord` itself (src/win32/mod.rs).

## Layout

- `results.dfy`, module `Results`: Rust's `Result`.
- `win32.dfy`, module `Win32`: the platform. The Windows desktop is a
  `DesktopState` value holding:
  - the windows in enumeration order, with each window's process, thread,
    visibility, minimized state, hung state and owner;
  - the foreground window and the taskbar window;
  - the calling thread;
  - the multiset of attached input-queue pairs;
  - a log of the state-changing calls;
  - the input batches submitted so far.

  Each Win32 call the library makes that changes the desktop
  (ShowWindow, AttachThreadInput, SetForegroundWindow, SendInput) is a
  function from one desktop to the next. The platform's unpredictable
  answers come from an `Oracle`:
  - which window holds the foreground after a SetForegroundWindow;
  - whether an attach succeeds;
  - the VkKeyScanW answer of the current keyboard layout.

  The first two are indexed by the position of the call in the log.
- `keyboard.dfy`, module `Keyboard`: the `Key` enum and `get_keycode`,
  `keycode_from_char` and `make_input`, as functions.
- `window_spec.dfy`, module `WindowSpec`: every operation of window.rs as a
  function on `DesktopState`, and the lemmas about them.
- `window.dfy`, module `Window`: class `Desktop`, whose fields are that
  state. Its methods run window.rs step by step: the EnumWindows callback
  loop, the `for i in 0..5` retry loop with its `break`/`continue`, and the
  detaches. Each method is proved to end in the result and the state that
  the `WindowSpec` function computes, so the `WindowSpec` lemmas hold of
  the methods.
- `chord.dfy`, module `Chord`: `send_chord` as a function on the desktop,
  its lemmas, and a method over `Window.Desktop` proved equal to it.

## How the model follows the code

In these places the code does something surprising, and the model follows
the code:

- **Hung check first.** `activate_top_level_window` tests whether the target
  is hung before it tests whether the target is already in the foreground
  (window.rs:163-171). A hung target therefore fails even when it is already
  in the foreground (`WindowSpec.ActivateHungTarget`).
- **Restore before attaching.** The target is restored before the input
  queues are attached (window.rs:178).
- **Detaches in attach order.** The detaches run in the order of the
  attaches, not in the reverse order (window.rs:199-205).
- **The retry loop never fails.** It runs over `0..5` and tests `i != 5`, so
  its `return Err(SetForegroundWindowFailed)` arm is never taken
  (window.rs:189-197). The loop ends after at most five attempts whatever
  their outcome, and activation goes on to detach.
  - `WindowSpec.RetryLoop` keeps the arm and proves that the loop always
    yields Ok.
  - `Window.Desktop.ActivateTopLevelWindow` has `assert false` in that arm.
- **The result comes from restoring the original foreground.** The outcome
  of an activation that gets past the first tests is the outcome of
  `foreground_window.try_set_foreground()` (window.rs:210). That call hands
  the foreground back to the window that had it. It is not the outcome of
  the attempts on the target. It also runs unconditionally, not only on
  failure.
- **No error for a missing foreground window.** When GetForegroundWindow
  reports no window, the taskbar window is used, and that handle may be
  null too (window.rs:125-137).

## Model

| member | source | states |
|---|---|---|
| Keyboard.EncodeUtf16 | src/win32/keyboard.rs:41-45 | A character gives one UTF-16 unit equal to its scalar value exactly when it is in the Basic Multilingual Plane. Otherwise it gives a high surrogate followed by a low surrogate. |
| Keyboard.Utf16RoundTrip | src/win32/keyboard.rs:45 | Decoding the units that `encode_utf16` writes gives back the character's scalar value. |
| Keyboard.LowByte | src/win32/keyboard.rs:53 | The low byte of the SHORT that VkKeyScanW returns is at most 0xFF and agrees with the SHORT modulo 256, also for negative answers. |
| Keyboard.KeycodeFromChar | src/win32/keyboard.rs:38-54 | Fails with `CharConversionFailed(text)` exactly when the text is empty or its first character needs two UTF-16 units. Otherwise it gives the low byte of the layout's answer for that first character. |
| Keyboard.GetKeycode | src/win32/keyboard.rs:56-77 | A named key always has a code. `Char(c)` fails exactly when `c` is outside the Basic Multilingual Plane, and the error carries the one-character string. Otherwise `Char(c)` gives the low byte of the layout's answer for `c`. |
| Keyboard.NamedKeyCodes | src/win32/keyboard.rs:20-36 | The virtual-key code of each of the 17 named keys, independent of the keyboard layout. |
| Keyboard.NamedKeyCodesDistinct | src/win32/keyboard.rs:20-36 | No two different named keys share a virtual-key code. |
| Keyboard.UsLayoutCodes | src/win32/keyboard.rs:116-120 | Under the model's US layout, 's' and '1' map to 0x53 and 0x31, and so does 'S'. '€', which that layout cannot type, maps to 0xFF. |
| Keyboard.UnmappedIsFF | src/win32/keyboard.rs:53 | Under any layout, a Basic Multilingual Plane character for which VkKeyScanW answers -1 gets the code 0xFF rather than an error. |
| Keyboard.KeyInput | src/win32/keyboard.rs:82-97 | No contract of its own: the keyboard INPUT record with the given code and flags and zero scan code, time and extra info. `Keyboard.MakeInput` and `Chord.Success` state its fields per key. |
| Keyboard.MakeInput | src/win32/keyboard.rs:79-100 | Succeeds exactly when every key has a code. It then gives one keyboard INPUT record per key, in key order, carrying that key's code and the given flags, with scan code, time and extra info 0. |
| Keyboard.MakeInputFirstError | src/win32/keyboard.rs:79-100 | A failure carries the error of the first key that has no code. |
| Keyboard.MakeInputErrorIgnoresFlags | src/win32/keyboard.rs:79-100 | Whether `make_input` fails, and with which error, does not depend on the flags. |
| Keyboard.ControlCRecords | src/win32/keyboard.rs:79-100 | Under the US layout: the records for [Control, Char('c')] are those of 0x11 and 0x43, in that order. |
| WindowSpec.ForegroundWindow | src/win32/window.rs:125-137 | The foreground window if there is one, else the taskbar window. A null result means both are null. |
| WindowSpec.FirstMatch | src/win32/window.rs:139-156 | The position of the first window at or after `from` that belongs to the process and is visible. No window before it matches. It is the window count when none matches. |
| WindowSpec.Matches | src/win32/window.rs:143 | The callback's test: the window belongs to the process and is visible. A match is always a window the platform knows, owned by that process. `WindowSpec.FirstMatch` and `Window.Desktop.GetTopLevelWindow` depend on it. |
| WindowSpec.FindTopLevelWindow | src/win32/window.rs:139-156 | Ok gives the first visible window of the process in enumeration order. Err is `FindTopLevelWindowFailed(pid)`, and when no handle is null, no window matches. |
| WindowSpec.FindTopLevelWindowComplete | src/win32/window.rs:139-156 | On a desktop whose window list and queries never mention the null handle, the null handle reports no window, and the lookup fails exactly when no window of the process is visible. |
| WindowSpec.TrySetForeground | src/win32/window.rs:62-83 | Makes exactly the one SetForegroundWindow call, and its only error is `SetForegroundWindowFailed`. `WindowSpec.TrySetForegroundSuccess` states when it succeeds. |
| WindowSpec.TrySetForegroundSuccess | src/win32/window.rs:62-83 | One SetForegroundWindow call, and nothing else changes. The result is Ok exactly when the window is now in the foreground, or when the foreground has moved to a window it owns. Err is `SetForegroundWindowFailed`. |
| WindowSpec.TrySetForegroundSound | src/win32/window.rs:75-79 | After an Ok, the window or a window it owns holds the foreground. |
| WindowSpec.TrySetForegroundLast | src/win32/window.rs:62-83 | Exactly one call is logged, SetForegroundWindow of the window. The call succeeds whenever the platform puts that non-null window in the foreground. |
| WindowSpec.RestoreIfMinimized | src/win32/window.rs:100-104 | Afterwards the window is not minimized. ShowWindow(SW_RESTORE) is called only when the window was minimized. Otherwise nothing changes. Either way no other window's attributes change, and nothing but the window attributes and the call log changes. |
| WindowSpec.RestoreIfMinimizedIdempotent | src/win32/window.rs:100-104 | Restoring twice is the same as restoring once. |
| WindowSpec.RetryLoop | src/win32/window.rs:189-197 | The retry loop always ends in Ok: its error arm is unreachable. |
| WindowSpec.RetryLoopAttempts | src/win32/window.rs:189-197 | From iteration `i` the loop makes between 1 and 5 - `i` attempts and ends in the state after them. Every attempt before the last one failed. The loop stops before the fifth attempt only when the last attempt succeeded. |
| WindowSpec.TriesFrame | src/win32/window.rs:189-197 | `n` attempts change only the foreground window, and they log `n` SetForegroundWindow calls on the target. |
| WindowSpec.RetryLoopFrame | src/win32/window.rs:189-197 | The whole loop logs 1 to 5 SetForegroundWindow calls on the target and changes nothing but the foreground. |
| WindowSpec.AttachInputs | src/win32/window.rs:180-184 | The calling thread is attached to the foreground thread unless the foreground window is hung. Then the foreground thread is attached to the target thread. Exactly the attaches that succeeded are added to the attached pairs. |
| WindowSpec.DetachInputs | src/win32/window.rs:199-205 | Exactly the attaches that succeeded are undone, in attach order, and nothing else changes. |
| WindowSpec.Protocol | src/win32/window.rs:173-210 | Its last call is SetForegroundWindow of the original foreground window, and its only error is `SetForegroundWindowFailed`. `WindowSpec.ProtocolTrace` gives its whole call sequence. |
| WindowSpec.Activate | src/win32/window.rs:158-211 | Fails only with `FindTopLevelWindowFailed(pid)`, `TargetWindowHung` or `SetForegroundWindowFailed`, and the first two leave the desktop untouched. `WindowSpec.ActivateNotFound`, `WindowSpec.ActivateHungTarget` and `WindowSpec.ActivateAlreadyForeground` give the early exits, and `WindowSpec.ActivateTrace` and the lemmas after it give the protocol. |
| WindowSpec.ActivateNotFound | src/win32/window.rs:159 | With no visible window of the process, activation fails with `FindTopLevelWindowFailed(pid)` and changes nothing. |
| WindowSpec.ActivateHungTarget | src/win32/window.rs:163-165 | A hung target fails with `TargetWindowHung` and changes nothing, even when it is the foreground window. |
| WindowSpec.ActivateAlreadyForeground | src/win32/window.rs:169-171 | A target that is not hung and already in the foreground gives Ok with no call. |
| WindowSpec.StageFacts | src/win32/window.rs:178-205 | Across the stages: the log is the restore, then the attaches, the attempts and the detaches. The attached pairs return to what they were, and only the target's minimized flag changes. |
| WindowSpec.ProtocolTrace | src/win32/window.rs:173-210 | The protocol's complete call sequence. Between 1 and 5 attempts are made on the target. No attach of the calling thread happens when the foreground window is hung. The attached pairs and the sent input are unchanged. The result is that of the final try on the original foreground window. |
| WindowSpec.ActivateTrace | src/win32/window.rs:158-211 | The same, for `activate_top_level_window` past its first tests. |
| WindowSpec.ProtocolCallsTried | src/win32/window.rs:180-184 | The attaches tried, in order: the calling thread's unless the foreground window is hung, then the foreground thread's. |
| WindowSpec.ProtocolCallsMade | src/win32/window.rs:180-184 | The attaches that succeeded, in order. |
| WindowSpec.ProtocolCallsUndone | src/win32/window.rs:199-205 | The detaches, in order: one per succeeded attach. |
| WindowSpec.ActivateDetachesEachAttach | src/win32/window.rs:180-205 | Every attach that succeeded is detached once, in attach order, and no failed attach is detached. The attached pairs end as they began. |
| WindowSpec.ActivateAttachOrder | src/win32/window.rs:180-184 | Exactly these attaches are tried: current to foreground thread unless that window is hung, then foreground to target thread. |
| WindowSpec.ActivateResultIsRestore | src/win32/window.rs:207-210 | The last call is SetForegroundWindow of the original foreground window, and the result is that call's success test. It is Ok when the platform gives that window the foreground back. On Ok, the foreground holds that window or one it owns. |
| WindowSpec.ActivateRestoresTarget | src/win32/window.rs:178 | After the protocol the target is not minimized, and no other window's attributes changed. |
| WindowSpec.ActivateSendsNothing | src/win32/window.rs:158-211 | Activation submits no input. |
| Window.Desktop.GetForegroundWindow | src/win32/window.rs:125-137 | Returns `ForegroundWindow` of the current desktop and changes nothing. |
| Window.Desktop.GetTopLevelWindow | src/win32/window.rs:139-156 | The callback loop returns `FindTopLevelWindow`. It visits the windows up to and including the first match, or all of them. |
| Window.Desktop.TrySetForeground | src/win32/window.rs:62-83 | Ends in the result and state of `WindowSpec.TrySetForeground`. |
| Window.Desktop.RestoreIfMinimized | src/win32/window.rs:100-104 | Ends in the state of `WindowSpec.RestoreIfMinimized`. |
| Window.Desktop.ActivateTopLevelWindow | src/win32/window.rs:158-211 | Ends in the result and state of `WindowSpec.Activate`, so every `Activate` lemma above holds of it. |
| Window.Desktop.SendInput | src/win32/keyboard.rs:102-110 | Appends the batch, as one unit, to the submitted input. |
| Chord.SendChordOutcome | src/win32/mod.rs:38-48 | Returns `WindowError` exactly when activation fails. Any failure leaves the desktop as activation left it. A success follows a successful activation and appends exactly one batch, with no other change. `Chord.Success` gives the batch. |
| Chord.ActivationFailure | src/win32/mod.rs:39 | A failed activation is returned as `WindowError` and nothing is sent. |
| Chord.KeyFailure | src/win32/mod.rs:39-42 | When some key has no code, the window has been activated and nothing is sent. The error is `KeyboardError` of the first key without a code. |
| Chord.Success | src/win32/mod.rs:41-47 | Ok exactly when activation succeeds and every key has a code. Exactly one batch of 2n records is then sent: the key-down records of the keys in chord order, then their key-up records in the same order. |
| Chord.BatchShape | src/win32/mod.rs:41-44 | When every key has a code, the press records followed by the release records hold 2n records: the key-down record of each key in chord order, then the key-up records in the same order. |
| Chord.ControlC | src/win32/mod.rs:38-48 | Under the US layout, with an activation that succeeds, [Control, Char('c')] sends the single batch Control down, C down, Control up, C up. |
| Chord.SendChord | src/win32/mod.rs:38-48 | Ends in the result and state of `SendChordOutcome`. |

## Left out

- **Win32 calls.** FFI calls are not modelled as code. They are the functions
  of `Win32` over the desktop value, and the platform's decisions are the
  `Oracle` parameter. The model does not capture the OS's
  foreground-lock policy, a desktop that other processes change while an
  activation runs, or ShowWindow's effects other than un-minimizing.
- **Oracle answers.** A SetForegroundWindow or attach outcome depends only
  on the call's position in the log. That is a deterministic schedule, which
  is enough to express any sequence of answers for one run.
- **Sleeps.** The 10 ms sleep after each SetForegroundWindow (window.rs:20,
  71) is left out, since time is not modelled.
- **The `enum_windows` trampoline** (window.rs:107-123) is left out. The
  raw-pointer closure passing is replaced by the loop of
  `Window.Desktop.GetTopLevelWindow`, which calls the callback's body
  directly.
- **The `Window` wrapper.** The window struct and `process::Child` are
  modelled by a handle and a process id.
- **The current thread id.** GetCurrentThreadId is a field of the desktop.
- **SendInput's arguments.** Its count and record-size arguments, and its
  return value, which the library ignores, are left out.
- **Error messages.** The `thiserror` messages and the `#[from]`
  conversions are left out. The `WindowActivationFailed` variant
  (window.rs:30-31) is never constructed, so it is not modelled.
- **Key variants.** `Key::Meta` and `Key::Code(u16)` (lib.rs:20, 27) have no
  arm in the `match` of `get_keycode` (keyboard.rs:56-77), which covers only
  the other keys. The model's `Key` holds exactly the keys that `get_keycode`
  maps.
- **Keyboard layout.** The real layout tables behind VkKeyScanW are not
  modelled; the layout is a parameter. `Keyboard.UsKeyScan` is a small US
  layout covering letters, digits and space, enough to state the library's
  own examples.
- **Platform gating.** The `cfg` selection of the platform module
  (lib.rs:3-6) and the `Keyboard` trait (lib.rs:31-33) are left out. The
  trait is a signature only, and it declares an `Option` result where
  mod.rs:35-38 implements a `Keyboard<Error>` returning `Result`.
  `Chord.SendChord` models the implementation in mod.rs.
- Win32.DetachThreadInput: a detach is assumed always to release its
  pair, while an attach succeeds only when the platform says so. The library
  ignores the outcome of `AttachThreadInput(.., FALSE)` (window.rs:199-205),
  so the claims that the attached input queues end as they began
  (`WindowSpec.StageFacts`, `WindowSpec.ProtocolTrace`,
  `WindowSpec.ActivateTrace`, `WindowSpec.ActivateDetachesEachAttach`) hold
  under that assumption. That every succeeded attach is detached once, in
  attach order, is stated on the call log and does not depend on it.
- **In-place vector operations.** `press.append(release)` is modelled on
  values: the batch is the concatenation of the two record sequences.

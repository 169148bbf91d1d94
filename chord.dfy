/**
 * `send_chord` of src/win32/mod.rs: bring the target process's window to
 * the foreground, then submit one batch holding a key-down record for every
 * key followed by a key-up record for every key.
 */
module Chord {
  import opened Results
  import opened Win32
  import Keyboard
  import WindowSpec
  import Window

  /** The library's error, wrapping the error of the step that failed. */
  datatype Error =
    | WindowError(window: WindowSpec.Error)
    | KeyboardError(keyboard: Keyboard.Error)

  /** The outcome of `send_chord`, and the desktop it leaves. */
  function SendChordOutcome(d: DesktopState, o: Oracle, keys: seq<Keyboard.Key>, pid: u32)
    : (res: (Result<(), Error>, DesktopState))
    ensures (res.0.Err? && res.0.error.WindowError?) <==> WindowSpec.Activate(d, o, pid).0.Err?
    ensures res.0.Err? ==> res.1 == WindowSpec.Activate(d, o, pid).1
    ensures res.0.Ok? ==> WindowSpec.Activate(d, o, pid).0.Ok? && |res.1.sent| > 0
    ensures res.0.Ok? ==> var d1 := WindowSpec.Activate(d, o, pid).1;
      res.1 == d1.(sent := d1.sent + [res.1.sent[|res.1.sent| - 1]])
  {
    var (activated, d1) := WindowSpec.Activate(d, o, pid);
    if activated.Err? then (Err(WindowError(activated.error)), d1)
    else
      match Keyboard.MakeInput(keys, 0, o.keyScan)
      case Err(e) => (Err(KeyboardError(e)), d1)
      case Ok(press) =>
        match Keyboard.MakeInput(keys, KEYEVENTF_KEYUP, o.keyScan)
        case Err(e) => (Err(KeyboardError(e)), d1)
        case Ok(release) => (Ok(()), SendInput(d1, press + release))
  }

  /** A failed activation is reported as such, and no input is sent. */
  lemma ActivationFailure(d: DesktopState, o: Oracle, keys: seq<Keyboard.Key>, pid: u32)
    requires WindowSpec.Activate(d, o, pid).0.Err?
    ensures SendChordOutcome(d, o, keys, pid)
      == (Err(WindowError(WindowSpec.Activate(d, o, pid).0.error)), WindowSpec.Activate(d, o, pid).1)
    ensures SendChordOutcome(d, o, keys, pid).1.sent == d.sent
  {
    WindowSpec.ActivateSendsNothing(d, o, pid);
  }

  /** A key without a code is reported with the error of the first such key,
      after the window was activated, and no input is sent. */
  lemma KeyFailure(d: DesktopState, o: Oracle, keys: seq<Keyboard.Key>, pid: u32)
    requires WindowSpec.Activate(d, o, pid).0.Ok?
    requires exists i :: 0 <= i < |keys| && Keyboard.GetKeycode(keys[i], o.keyScan).Err?
    ensures var (r, d') := SendChordOutcome(d, o, keys, pid);
      && d' == WindowSpec.Activate(d, o, pid).1
      && d'.sent == d.sent
      && r.Err? && r.error.KeyboardError?
      && exists i :: (0 <= i < |keys| && Keyboard.GetKeycode(keys[i], o.keyScan).Err?
        && (forall j :: 0 <= j < i ==> Keyboard.GetKeycode(keys[j], o.keyScan).Ok?)
        && r.error.keyboard == Keyboard.GetKeycode(keys[i], o.keyScan).error)
  {
    WindowSpec.ActivateSendsNothing(d, o, pid);
    Keyboard.MakeInputFirstError(keys, 0, o.keyScan);
  }

  /** `send_chord` succeeds exactly when the activation succeeds and every key
      has a code; it then sends one batch of 2n records: the key-down records
      of the n keys in order, then their key-up records in the same order. */
  lemma Success(d: DesktopState, o: Oracle, keys: seq<Keyboard.Key>, pid: u32)
    ensures SendChordOutcome(d, o, keys, pid).0.Ok?
      <==> (WindowSpec.Activate(d, o, pid).0.Ok?
            && forall i :: 0 <= i < |keys| ==> Keyboard.GetKeycode(keys[i], o.keyScan).Ok?)
    ensures var res := SendChordOutcome(d, o, keys, pid);
      var d' := res.1;
      var d1 := WindowSpec.Activate(d, o, pid).1;
      res.0.Ok? ==>
        && d'.sent == d.sent + [d'.sent[|d'.sent| - 1]]
        && d' == d1.(sent := d'.sent)
        && var batch := d'.sent[|d'.sent| - 1];
        && |batch| == 2 * |keys|
        && forall i :: 0 <= i < |keys| ==>
          var vk := Keyboard.GetKeycode(keys[i], o.keyScan).value;
          && batch[i] == Keyboard.KeyInput(vk, 0)
          && batch[|keys| + i] == Keyboard.KeyInput(vk, KEYEVENTF_KEYUP)
  {
    WindowSpec.ActivateSendsNothing(d, o, pid);
    var d1 := WindowSpec.Activate(d, o, pid).1;
    var press := Keyboard.MakeInput(keys, 0, o.keyScan);
    var release := Keyboard.MakeInput(keys, KEYEVENTF_KEYUP, o.keyScan);
    if SendChordOutcome(d, o, keys, pid).0.Ok? {
      assert WindowSpec.Activate(d, o, pid).0.Ok? && press.Ok? && release.Ok?;
      BatchShape(keys, o.keyScan);
      var batch := press.value + release.value;
      var d' := SendInput(d1, batch);
      var last := SendChordOutcome(d, o, keys, pid).1.sent[|d'.sent| - 1];
      assert SendChordOutcome(d, o, keys, pid).1 == d';
      assert last == batch;
      forall i | 0 <= i < |keys|
        ensures last[i] == Keyboard.KeyInput(Keyboard.GetKeycode(keys[i], o.keyScan).value, 0)
        ensures last[|keys| + i] == Keyboard.KeyInput(Keyboard.GetKeycode(keys[i], o.keyScan).value, KEYEVENTF_KEYUP)
      {
      }
    }
  }

  /** The batch of `send_chord`: the key-down records of the keys in order,
      then their key-up records in the same order. */
  lemma BatchShape(keys: seq<Keyboard.Key>, scan: u16 -> Short)
    requires forall i :: 0 <= i < |keys| ==> Keyboard.GetKeycode(keys[i], scan).Ok?
    ensures Keyboard.MakeInput(keys, 0, scan).Ok? && Keyboard.MakeInput(keys, KEYEVENTF_KEYUP, scan).Ok?
    ensures var batch := Keyboard.MakeInput(keys, 0, scan).value + Keyboard.MakeInput(keys, KEYEVENTF_KEYUP, scan).value;
      && |batch| == 2 * |keys|
      && forall i :: 0 <= i < |keys| ==>
        var vk := Keyboard.GetKeycode(keys[i], scan).value;
        && batch[i] == Keyboard.KeyInput(vk, 0)
        && batch[|keys| + i] == Keyboard.KeyInput(vk, KEYEVENTF_KEYUP)
  {
    var batch := Keyboard.MakeInput(keys, 0, scan).value + Keyboard.MakeInput(keys, KEYEVENTF_KEYUP, scan).value;
    forall i | 0 <= i < |keys|
      ensures batch[i] == Keyboard.KeyInput(Keyboard.GetKeycode(keys[i], scan).value, 0)
      ensures batch[|keys| + i] == Keyboard.KeyInput(Keyboard.GetKeycode(keys[i], scan).value, KEYEVENTF_KEYUP)
    {
    }
  }

  /** Control+C under the US layout: Control down, C down, Control up, C up. */
  lemma ControlC(d: DesktopState, o: Oracle, pid: u32)
    requires o.keyScan == Keyboard.UsKeyScan
    requires WindowSpec.Activate(d, o, pid).0.Ok?
    ensures SendChordOutcome(d, o, [Keyboard.Control, Keyboard.Char('c')], pid).0 == Ok(())
    ensures SendChordOutcome(d, o, [Keyboard.Control, Keyboard.Char('c')], pid).1.sent
      == d.sent + [[Keyboard.KeyInput(0x11, 0), Keyboard.KeyInput(0x43, 0),
                    Keyboard.KeyInput(0x11, KEYEVENTF_KEYUP), Keyboard.KeyInput(0x43, KEYEVENTF_KEYUP)]]
  {
    var keys := [Keyboard.Control, Keyboard.Char('c')];
    var d1 := WindowSpec.Activate(d, o, pid).1;
    WindowSpec.ActivateSendsNothing(d, o, pid);
    Keyboard.ControlCRecords(0);
    Keyboard.ControlCRecords(KEYEVENTF_KEYUP);
    var batch := [Keyboard.KeyInput(0x11, 0), Keyboard.KeyInput(0x43, 0)]
      + [Keyboard.KeyInput(0x11, KEYEVENTF_KEYUP), Keyboard.KeyInput(0x43, KEYEVENTF_KEYUP)];
    assert Keyboard.MakeInput(keys, 0, o.keyScan) == Ok([Keyboard.KeyInput(0x11, 0), Keyboard.KeyInput(0x43, 0)]);
    assert Keyboard.MakeInput(keys, KEYEVENTF_KEYUP, o.keyScan)
      == Ok([Keyboard.KeyInput(0x11, KEYEVENTF_KEYUP), Keyboard.KeyInput(0x43, KEYEVENTF_KEYUP)]);
    assert SendChordOutcome(d, o, keys, pid) == (Ok(()), SendInput(d1, batch));
    assert batch == [Keyboard.KeyInput(0x11, 0), Keyboard.KeyInput(0x43, 0),
                     Keyboard.KeyInput(0x11, KEYEVENTF_KEYUP), Keyboard.KeyInput(0x43, KEYEVENTF_KEYUP)];
  }

  /** `Innerput::send_chord`. `press.append(release)` moves the key-up records
      onto the end of `press` and leaves `release` empty. */
  method SendChord(desk: Window.Desktop, keys: seq<Keyboard.Key>, pid: u32) returns (r: Result<(), Error>)
    modifies desk
    ensures (r, desk.State()) == SendChordOutcome(old(desk.State()), desk.oracle, keys, pid)
  {
    var activated := desk.ActivateTopLevelWindow(pid);
    if activated.Err? {
      return Err(WindowError(activated.error));
    }
    var pressed := Keyboard.MakeInput(keys, 0, desk.oracle.keyScan);
    if pressed.Err? {
      return Err(KeyboardError(pressed.error));
    }
    var press := pressed.value;
    var released := Keyboard.MakeInput(keys, KEYEVENTF_KEYUP, desk.oracle.keyScan);
    if released.Err? {
      return Err(KeyboardError(released.error));
    }
    var release := released.value;
    press, release := press + release, [];
    desk.SendInput(press);
    r := Ok(());
  }
}

/**
 * src/win32/window.rs run step by step against a desktop that changes in
 * place. Every method ends in the state, and returns the result, that the
 * function of the same name in `WindowSpec` computes, so the lemmas proved
 * there hold of these methods.
 */
module Window {
  import opened Results
  import opened Win32
  import WindowSpec

  /** The desktop as the library sees it through the Win32 API. */
  class Desktop {
    const windows: seq<Hwnd>
    var info: map<Hwnd, WindowInfo>
    var foreground: Hwnd
    const tray: Hwnd
    const currentThread: u32
    var attached: multiset<ThreadPair>
    var log: seq<Call>
    var sent: seq<seq<Input>>
    const oracle: Oracle

    function State(): DesktopState
      reads this
    {
      DesktopState(windows, info, foreground, tray, currentThread, attached, log, sent)
    }

    constructor (s: DesktopState, o: Oracle)
      ensures State() == s && oracle == o
    {
      windows, info, foreground, tray := s.windows, s.info, s.foreground, s.tray;
      currentThread, attached, log, sent := s.currentThread, s.attached, s.log, s.sent;
      oracle := o;
    }

    method Assign(s: DesktopState)
      requires s.windows == windows && s.tray == tray && s.currentThread == currentThread
      modifies this
      ensures State() == s
    {
      info, foreground, attached, log, sent := s.info, s.foreground, s.attached, s.log, s.sent;
    }

    // The platform calls that change the desktop.

    method ShowWindowRestore(h: Hwnd)
      modifies this
      ensures State() == Win32.ShowWindowRestore(old(State()), h)
    {
      Assign(Win32.ShowWindowRestore(State(), h));
    }

    method AttachThreadInput(p: ThreadPair) returns (ok: bool)
      modifies this
      ensures (ok, State()) == Win32.AttachThreadInput(old(State()), oracle, p)
    {
      var res := Win32.AttachThreadInput(State(), oracle, p);
      ok := res.0;
      Assign(res.1);
    }

    method DetachThreadInput(p: ThreadPair)
      modifies this
      ensures State() == Win32.DetachThreadInput(old(State()), p)
    {
      Assign(Win32.DetachThreadInput(State(), p));
    }

    method SetForegroundWindow(h: Hwnd)
      modifies this
      ensures State() == Win32.SetForegroundWindow(old(State()), oracle, h)
    {
      Assign(Win32.SetForegroundWindow(State(), oracle, h));
    }

    method SendInput(batch: seq<Input>)
      modifies this
      ensures State() == Win32.SendInput(old(State()), batch)
    {
      Assign(Win32.SendInput(State(), batch));
    }

    // window.rs

    /** `get_foreground_window`. */
    method GetForegroundWindow() returns (w: Hwnd)
      ensures w == WindowSpec.ForegroundWindow(State())
      ensures w == Null ==> foreground == Null && tray == Null
    {
      w := foreground;
      if w == Null {
        w := tray;
      }
    }

    /** `get_top_level_window`: EnumWindows runs the callback on each window
        in turn until the callback answers false, which it does at the first
        visible window of `pid`, after recording its handle. */
    method GetTopLevelWindow(pid: u32) returns (r: Result<Hwnd, WindowSpec.Error>, ghost visited: nat)
      ensures r == WindowSpec.FindTopLevelWindow(State(), pid)
      ensures var first := WindowSpec.FirstMatch(State(), pid, 0);
        visited == if first < |windows| then first + 1 else |windows|
    {
      var resultHwnd := Null;
      var i := 0;
      var more := true;
      while i < |windows| && more
        invariant 0 <= i <= |windows|
        invariant forall j :: 0 <= j < (if more then i else i - 1) ==> !WindowSpec.Matches(State(), windows[j], pid)
        invariant more ==> resultHwnd == Null
        invariant !more ==> 1 <= i && resultHwnd == windows[i - 1] && WindowSpec.Matches(State(), windows[i - 1], pid)
      {
        var window := windows[i];
        if Info(State(), window).pid == pid && Info(State(), window).visible {
          resultHwnd := window;
          more := false;
        }
        i := i + 1;
      }
      visited := i;
      var first := WindowSpec.FirstMatch(State(), pid, 0);
      assert first == (if more then |windows| else i - 1);
      if resultHwnd != Null {
        r := Ok(resultHwnd);
      } else {
        r := Err(WindowSpec.FindTopLevelWindowFailed(pid));
      }
    }

    /** `Window::try_set_foreground`. */
    method TrySetForeground(h: Hwnd) returns (r: Result<(), WindowSpec.Error>)
      modifies this
      ensures (r, State()) == WindowSpec.TrySetForeground(old(State()), oracle, h)
    {
      var previous := GetForegroundWindow();
      SetForegroundWindow(h);
      var now := GetForegroundWindow();
      if now == h || (now != previous && h == Info(State(), now).owner) {
        r := Ok(());
      } else {
        r := Err(WindowSpec.SetForegroundWindowFailed);
      }
    }

    /** `Window::restore_if_minimized`. */
    method RestoreIfMinimized(h: Hwnd)
      modifies this
      ensures State() == WindowSpec.RestoreIfMinimized(old(State()), h)
    {
      if Info(State(), h).minimized {
        ShowWindowRestore(h);
      }
    }

    /** `activate_top_level_window`. The arm of the retry loop that returns
        an error is dead: `i` stays below 5 in `0..5`. */
    method ActivateTopLevelWindow(pid: u32) returns (r: Result<(), WindowSpec.Error>)
      modifies this
      ensures (r, State()) == WindowSpec.Activate(old(State()), oracle, pid)
    {
      var found;
      ghost var visited;
      found, visited := GetTopLevelWindow(pid);
      if found.Err? {
        return Err(found.error);
      }
      var window := found.value;
      if Info(State(), window).hung {
        return Err(WindowSpec.TargetWindowHung);
      }
      if foreground == window {
        return Ok(());
      }
      ghost var d := State();
      var foregroundWindow := GetForegroundWindow();
      var foregroundThread := Info(State(), foregroundWindow).tid;
      var targetThread := Info(State(), window).tid;
      var current := currentThread;
      var p1 := ThreadPair(current, foregroundThread);
      var p2 := ThreadPair(foregroundThread, targetThread);

      RestoreIfMinimized(window);
      ghost var d1 := State();
      var didAttachCurrentToForeground := false;
      if !Info(State(), foregroundWindow).hung {
        didAttachCurrentToForeground := AttachThreadInput(p1);
      }
      var didAttachForegroundToTarget := AttachThreadInput(p2);
      ghost var d2 := State();
      assert (didAttachCurrentToForeground, didAttachForegroundToTarget, d2)
        == WindowSpec.AttachInputs(d1, oracle, p1, p2, Info(d1, foregroundWindow).hung);

      ghost var d3 := WindowSpec.RetryLoop(d2, oracle, window, 0).1;
      for i := 0 to 5
        invariant WindowSpec.RetryLoop(State(), oracle, window, i).1 == d3
      {
        var t := TrySetForeground(window);
        if t.Ok? {
          break;
        } else if i != 5 {
          continue;
        } else {
          assert false;
        }
      }

      if didAttachCurrentToForeground {
        DetachThreadInput(p1);
      }
      if didAttachForegroundToTarget {
        DetachThreadInput(p2);
      }
      assert State() == WindowSpec.DetachInputs(d3, p1, didAttachCurrentToForeground, p2, didAttachForegroundToTarget);
      r := TrySetForeground(foregroundWindow);
      WindowSpec.ActivateRunsProtocol(d, oracle, pid);
    }
  }
}

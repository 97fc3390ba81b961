/** The OpenCV video viewer (simple_video_viewer.py): pipeline probing, the
    display loop with its failure watchdog and keyboard commands, cleanup,
    and the exit code of `main`.

    Each turn of the loop is a read of the capture and the raw value
    `cv2.waitKey` returned. The window itself, screenshots and the help
    text are output the model does not keep. */
module SimpleVideoViewer {
  import opened Wrappers
  import opened Capture

  /** What follows the UDP source in each of the three UDP pipelines. */
  const UdpTails: seq<string> :=
    [" ! application/x-rtp,media=video,clock-rate=90000,encoding-name=H264,payload=96 ! rtph264depay ! h264parse ! avdec_h264 ! videoconvert ! appsink drop=1 max-buffers=1 sync=false",
     " ! application/x-rtp ! rtph264depay ! h264parse ! avdec_h264 ! videoconvert ! appsink max-buffers=1 drop=1",
     " ! h264parse ! avdec_h264 ! videoconvert ! appsink"]

  const TestPattern: string :=
    "videotestsrc pattern=ball ! video/x-raw,width=640,height=480,framerate=30/1 ! videoconvert ! appsink"

  /** The four candidates, in the order they are tried. */
  function Pipelines(port: nat): seq<string>
  {
    Candidates(port, UdpTails, TestPattern)
  }

  // -------------------------------------------------------------------------
  // keys

  const KeyQuit: int := 113        // 'q'
  const KeyFullscreen: int := 102  // 'f'
  const KeyScreenshot: int := 115  // 's'
  const KeyHelp: int := 104        // 'h'

  /** `cv2.waitKey(1) & 0xFF`: the low byte of the raw value, so the -1 of
      "no key" becomes 255. */
  function KeyCode(raw: int): (k: int)
    ensures 0 <= k < 256
    ensures (raw - k) % 256 == 0
    ensures 0 <= raw < 256 ==> k == raw
  {
    raw % 256
  }

  lemma NoKeyIsNoCommand()
    ensures KeyCode(-1) == 255
    ensures KeyCode(-1) !in {KeyQuit, KeyFullscreen, KeyScreenshot, KeyHelp}
  {
  }

  /** One turn of the loop: the read and the raw key value. */
  datatype Turn = Turn(read: FrameRead, key: int)

  /** Why the loop ended: 'q', thirty failed reads in a row, a read that
      raised (the exception leaves `run`), or the turns ran out with the
      viewer still running. */
  datatype Exit = Quit | GaveUp | Raised | Pending

  datatype LoopEnd = LoopEnd(
    counters: Counters, currentFps: nat, fullscreen: bool, shown: seq<Shown>,
    exit: Exit, keysRead: nat)

  /** What one turn did, and whether it ended the loop. */
  datatype TurnOut = TurnOut(counters: Counters, currentFps: nat, fullscreen: bool, shown: seq<Shown>, stop: Option<Exit>)

  /** One turn of the loop: read, show the frame or a placeholder, then
      handle the key ('q' quits, 'f' toggles the fullscreen flag, 's' and
      'h' only write output). A read that raises, or the thirtieth failure,
      ends the loop before the key is read. */
  function TurnStep(c: Counters, currentFps: nat, fullscreen: bool, turn: Turn): (t: TurnOut)
    ensures t.stop != Some(Pending)
    ensures t.stop == Some(Raised) <==> turn.read.ReadRaised?
    ensures t.stop == Some(Quit) <==>
              !turn.read.ReadRaised? && !ReadStep(c, turn.read).halt && KeyCode(turn.key) == KeyQuit
    ensures t.stop.None? ==> KeyCode(turn.key) != KeyQuit &&
                             t.fullscreen == (fullscreen != (KeyCode(turn.key) == KeyFullscreen))
    ensures t.stop.Some? ==> t.fullscreen == fullscreen
    ensures t.stop == Some(Raised) || t.stop == Some(GaveUp) ==> t.shown == []
    ensures t.stop.None? || t.stop == Some(Quit) ==> |t.shown| == 1
    ensures forall j :: 0 <= j < |t.shown| && t.shown[j].Placeholder? ==> 1 <= t.shown[j].failures < MaxFailures
  {
    if turn.read.ReadRaised? then TurnOut(c, currentFps, fullscreen, [], Some(Raised))
    else
      var o := ReadStep(c, turn.read);
      var fps := if o.report.Some? then o.report.value else currentFps;
      if o.halt then TurnOut(o.counters, fps, fullscreen, [], Some(GaveUp))
      else
        var key := KeyCode(turn.key);
        if key == KeyQuit then TurnOut(o.counters, fps, fullscreen, [o.shown.value], Some(Quit))
        else TurnOut(o.counters, fps, if key == KeyFullscreen then !fullscreen else fullscreen, [o.shown.value], None)
  }

  /** The `while self.running` loop over the turns. `keysRead` counts the
      turns whose key was handled. */
  function Display(c: Counters, currentFps: nat, fullscreen: bool, turns: seq<Turn>): (e: LoopEnd)
    ensures e.keysRead <= |turns|
    ensures e.exit == Pending ==> e.keysRead == |turns|
    ensures e.exit == GaveUp || e.exit == Raised ==> e.keysRead < |turns|
    decreases |turns|
  {
    if turns == [] then LoopEnd(c, currentFps, fullscreen, [], Pending, 0)
    else
      var t := TurnStep(c, currentFps, fullscreen, turns[0]);
      if t.stop.Some? then LoopEnd(t.counters, t.currentFps, t.fullscreen, t.shown, t.stop.value, if t.stop == Some(Quit) then 1 else 0)
      else
        var rest := Display(t.counters, t.currentFps, t.fullscreen, turns[1..]);
        LoopEnd(rest.counters, rest.currentFps, rest.fullscreen, t.shown + rest.shown, rest.exit, rest.keysRead + 1)
  }

  /** The loop quits at the first 'q' it reads, and only there; every
      placeholder it shows counts from 1 to 29 failures. */
  lemma {:induction false} DisplayQuitsAtFirstQ(c: Counters, currentFps: nat, fullscreen: bool, turns: seq<Turn>)
    ensures var e := Display(c, currentFps, fullscreen, turns);
            && (e.exit == Quit ==> e.keysRead > 0 && KeyCode(turns[e.keysRead - 1].key) == KeyQuit)
            && (forall j :: 0 <= j < e.keysRead - 1 ==> KeyCode(turns[j].key) != KeyQuit)
            && (e.exit != Quit ==> forall j :: 0 <= j < e.keysRead ==> KeyCode(turns[j].key) != KeyQuit)
            && (e.exit == Pending ==> forall j :: 0 <= j < |turns| ==> KeyCode(turns[j].key) != KeyQuit)
            && (forall j :: 0 <= j < |e.shown| && e.shown[j].Placeholder? ==> 1 <= e.shown[j].failures < MaxFailures)
    decreases |turns|
  {
    if turns != [] {
      var t := TurnStep(c, currentFps, fullscreen, turns[0]);
      if t.stop.None? {
        DisplayQuitsAtFirstQ(t.counters, t.currentFps, t.fullscreen, turns[1..]);
        var rest := Display(t.counters, t.currentFps, t.fullscreen, turns[1..]);
        assert forall j :: 0 < j < |turns| ==> turns[j] == turns[1..][j - 1];
        var e := Display(c, currentFps, fullscreen, turns);
        assert e.shown == t.shown + rest.shown;
        assert forall j :: 0 <= j < |e.shown| ==> e.shown[j] == if j < |t.shown| then t.shown[j] else rest.shown[j - |t.shown|];
      }
    }
  }

  /** Whether an odd number of the turns pressed 'f'. */
  function Flips(turns: seq<Turn>): bool
  {
    if turns == [] then false else (KeyCode(turns[0].key) == KeyFullscreen) != Flips(turns[1..])
  }

  lemma {:induction false} FlipsAppend(a: seq<Turn>, b: seq<Turn>)
    ensures Flips(a + b) == (Flips(a) != Flips(b))
  {
    if a == [] {
      assert a + b == b;
    } else {
      assert (a + b)[1..] == a[1..] + b;
      FlipsAppend(a[1..], b);
    }
  }

  /** Two presses of 'f' in a row cancel out. */
  lemma TwoPressesCancel(a: seq<Turn>, f1: Turn, f2: Turn, b: seq<Turn>)
    requires KeyCode(f1.key) == KeyFullscreen && KeyCode(f2.key) == KeyFullscreen
    ensures Flips(a + [f1, f2] + b) == Flips(a + b)
  {
    FlipsAppend(a + [f1, f2], b);
    FlipsAppend(a, [f1, f2]);
    FlipsAppend(a, b);
    assert [f1, f2][1..] == [f2];
    assert [f2][1..] == [];
    assert Flips([f2]) == true;
    assert Flips([f1, f2]) == false;
  }

  /** The fullscreen flag at the end is the one at the start, toggled once
      per 'f' among the keys the loop handled. */
  lemma {:induction false} FullscreenParity(c: Counters, currentFps: nat, fullscreen: bool, turns: seq<Turn>)
    ensures var e := Display(c, currentFps, fullscreen, turns);
            e.fullscreen == (fullscreen != Flips(turns[..e.keysRead]))
    decreases |turns|
  {
    var e := Display(c, currentFps, fullscreen, turns);
    if turns == [] {
      assert turns[..0] == [];
    } else {
      var t := TurnStep(c, currentFps, fullscreen, turns[0]);
      if t.stop.Some? {
        assert turns[..0] == [];
        assert turns[..1] == [turns[0]] && turns[..1][1..] == [];
      } else {
        FullscreenParity(t.counters, t.currentFps, t.fullscreen, turns[1..]);
        var rest := Display(t.counters, t.currentFps, t.fullscreen, turns[1..]);
        assert turns[..e.keysRead][1..] == turns[1..][..rest.keysRead];
      }
    }
  }

  // -------------------------------------------------------------------------
  // run, cleanup and main

  /** What `run` did: returned a value, raised, or is still in its loop. */
  datatype RunResult = Returned(value: bool) | RunRaised | StillRunning

  /** The viewer's fields that `run` and `cleanup` change. */
  datatype ViewerState = ViewerState(
    running: bool, capPresent: bool, capReleased: bool, windowsOpen: bool,
    frameCount: nat, fps: Fps, currentFps: nat, shown: seq<Shown>)

  datatype Ran = Ran(state: ViewerState, result: RunResult, fullscreen: bool)

  /** `cleanup`: clear the flag, release the capture if there is one, close the windows. */
  function Cleanup(s: ViewerState): (t: ViewerState)
    ensures !t.running && !t.windowsOpen
    ensures t.capReleased == (s.capReleased || s.capPresent)
    ensures t == s.(running := false, capReleased := t.capReleased, windowsOpen := false)
  {
    s.(running := false, capReleased := s.capReleased || s.capPresent, windowsOpen := false)
  }

  /** `run` after the pipeline is chosen: `opens` says whether the capture opened. */
  function RunSpec(s: ViewerState, opens: bool, turns: seq<Turn>): (r: Ran)
    ensures r.result == Returned(false) <==> !opens
    ensures !opens ==> r.state == s.(capPresent := true)
    ensures opens ==>
              var e := Display(Counters(0, s.frameCount, s.fps), s.currentFps, false, turns);
              && (r.result == Returned(true) <==> e.exit == Quit || e.exit == GaveUp)
              && (r.result == RunRaised <==> e.exit == Raised)
              && (r.result == Returned(true) ==> !r.state.running && !r.state.windowsOpen && r.state.capReleased)
              && (r.result != Returned(true) ==> r.state.running && r.state.capReleased == s.capReleased && r.state.windowsOpen == s.windowsOpen)
              && r.state.frameCount == e.counters.frames && r.state.fps == e.counters.fps
              && r.state.currentFps == e.currentFps && r.state.shown == s.shown + e.shown
              && r.fullscreen == e.fullscreen
  {
    var withCap := s.(capPresent := true);
    if !opens then Ran(withCap, Returned(false), false)
    else
      var e := Display(Counters(0, s.frameCount, s.fps), s.currentFps, false, turns);
      var looped := withCap.(running := true, frameCount := e.counters.frames, fps := e.counters.fps,
                             currentFps := e.currentFps, shown := s.shown + e.shown);
      match e.exit
      case Quit => Ran(Cleanup(looped), Returned(true), e.fullscreen)
      case GaveUp => Ran(Cleanup(looped), Returned(true), e.fullscreen)
      case Raised => Ran(looped, RunRaised, e.fullscreen)
      case Pending => Ran(looped, StillRunning, e.fullscreen)
  }

  /** How the body of `main` after the GStreamer check ended. */
  datatype MainOutcome = ViewerReturned(success: bool) | KeyboardInterrupt | OtherException

  /** The exit code of `main`. */
  function MainExitCode(gstreamer: bool, outcome: MainOutcome): (code: int)
    ensures code == 0 || code == 1
    ensures !gstreamer ==> code == 1
    ensures gstreamer ==> (code == 0 <==> outcome == ViewerReturned(true) || outcome == KeyboardInterrupt)
  {
    if !gstreamer then 1
    else match outcome
      case ViewerReturned(success) => if success then 0 else 1
      case KeyboardInterrupt => 0
      case OtherException => 1
  }

  /** A viewer whose capture opened ends with exit code 0 when it quits or
      gives up, and with 1 when a read raised; one whose capture did not
      open ends with 1. */
  lemma ExitCodeOfRun(s: ViewerState, opens: bool, turns: seq<Turn>)
    ensures var r := RunSpec(s, opens, turns);
            r.result.Returned? ==> MainExitCode(true, ViewerReturned(r.result.value)) == (if opens then 0 else 1)
    ensures RunSpec(s, opens, turns).result == RunRaised ==> MainExitCode(true, OtherException) == 1
  {
  }

  class DroneVideoViewer {
    const udpPort: nat
    var running: bool
    var capPresent: bool
    var capReleased: bool
    var windowsOpen: bool
    var frameCount: nat
    var fpsCounter: nat
    var lastFpsTime: real
    var currentFps: nat
    var shown: seq<Shown>

    function State(): ViewerState
      reads this
    {
      ViewerState(running, capPresent, capReleased, windowsOpen, frameCount, Fps(fpsCounter, lastFpsTime), currentFps, shown)
    }

    /** The constructor opens the window; there is no capture yet. */
    constructor (port: nat, now: real)
      ensures udpPort == port
      ensures State() == ViewerState(false, false, false, true, 0, Fps(0, now), 0, [])
    {
      udpPort := port;
      running := false;
      capPresent := false;
      capReleased := false;
      windowsOpen := true;
      frameCount := 0;
      fpsCounter := 0;
      lastFpsTime := now;
      currentFps := 0;
      shown := [];
    }

    /** `setup_gstreamer_pipeline`: as in the Qt viewer, except that a
        capture that did not open is released too. */
    method SetupPipeline(probes: seq<Probe>) returns (pipeline: string, released: seq<nat>)
      requires |probes| == 4
      ensures pipeline == Pipelines(udpPort)[Selected(probes)]
      ensures released == Released(probes, Probed(probes), true)
    {
      var candidates := Pipelines(udpPort);
      released := [];
      var i := 0;
      while i < |candidates|
        invariant 0 <= i <= 4
        invariant forall j :: 0 <= j < i ==> probes[j] != OpenedWithFrame
        invariant released == Released(probes, i, true)
      {
        if probes[i] == OpenedWithFrame {
          ProbedUpToFirstWorking(probes, i);
          released := released + [i];
          pipeline := candidates[i];
          return;
        } else if probes[i] == OpenedNoFrame || probes[i] == NotOpened {
          released := released + [i];
        }
        i := i + 1;
      }
      pipeline := candidates[3];
    }

    /** `calculate_fps` at time `now`: a report sets `current_fps`. */
    method CalculateFps(now: real)
      modifies this`fpsCounter, this`lastFpsTime, this`currentFps
      ensures var t := FpsStep(Fps(old(fpsCounter), old(lastFpsTime)), now);
              && Fps(fpsCounter, lastFpsTime) == t.fps
              && currentFps == (if t.report.Some? then t.report.value else old(currentFps))
    {
      fpsCounter := fpsCounter + 1;
      if now - lastFpsTime >= 1.0 {
        currentFps := fpsCounter;
        fpsCounter := 0;
        lastFpsTime := now;
      }
    }

    /** One turn of the loop body. */
    method TakeTurn(failures: nat, fullscreen: bool, turn: Turn) returns (next: nat, full: bool, stop: Option<Exit>)
      modifies this`frameCount, this`fpsCounter, this`lastFpsTime, this`currentFps, this`shown
      ensures var t := TurnStep(Counters(failures, old(frameCount), Fps(old(fpsCounter), old(lastFpsTime))), old(currentFps), fullscreen, turn);
              && Counters(next, frameCount, Fps(fpsCounter, lastFpsTime)) == t.counters
              && currentFps == t.currentFps && full == t.fullscreen && stop == t.stop
              && shown == old(shown) + t.shown
    {
      next, full := failures, fullscreen;
      if turn.read.ReadRaised? {
        return next, full, Some(Raised);
      }
      if turn.read.Good? {
        next := 0;
        frameCount := frameCount + 1;
        CalculateFps(turn.read.now);
        shown := shown + [Frame];
      } else {
        next := failures + 1;
        if next >= MaxFailures {
          return next, full, Some(GaveUp);
        }
        shown := shown + [Placeholder(next)];
      }
      var key := KeyCode(turn.key);
      if key == KeyQuit {
        return next, full, Some(Quit);
      } else if key == KeyFullscreen {
        full := !full;
      }
      stop := None;
    }

    /** The display loop, from no failures and a windowed display. */
    method Loop(turns: seq<Turn>) returns (exit: Exit, fullscreen: bool)
      modifies this`frameCount, this`fpsCounter, this`lastFpsTime, this`currentFps, this`shown
      ensures var e := Display(Counters(0, old(frameCount), Fps(old(fpsCounter), old(lastFpsTime))), old(currentFps), false, turns);
              && exit == e.exit && fullscreen == e.fullscreen
              && frameCount == e.counters.frames
              && Fps(fpsCounter, lastFpsTime) == e.counters.fps
              && currentFps == e.currentFps
              && shown == old(shown) + e.shown
    {
      ghost var whole := Display(Counters(0, frameCount, Fps(fpsCounter, lastFpsTime)), currentFps, false, turns);
      ghost var shown0 := shown;
      ghost var done: seq<Shown> := [];
      var failures: nat := 0;
      fullscreen := false;
      var i := 0;
      exit := Pending;
      while i < |turns|
        invariant 0 <= i <= |turns|
        invariant failures < MaxFailures && exit == Pending
        invariant shown == shown0 + done
        invariant whole == Continue(done, i,
                                    Display(Counters(failures, frameCount, Fps(fpsCounter, lastFpsTime)), currentFps, fullscreen, turns[i..]))
        decreases |turns| - i
      {
        ghost var c := Counters(failures, frameCount, Fps(fpsCounter, lastFpsTime));
        ghost var t := TurnStep(c, currentFps, fullscreen, turns[i]);
        ghost var full0 := fullscreen;
        ghost var fps0 := currentFps;
        assert turns[i..][0] == turns[i];
        var stop;
        failures, fullscreen, stop := TakeTurn(failures, fullscreen, turns[i]);
        if stop.Some? {
          assert whole == Continue(done, i, LoopEnd(t.counters, t.currentFps, t.fullscreen, t.shown, t.stop.value,
                                                    if t.stop == Some(Quit) then 1 else 0));
          exit := stop.value;
          break;
        }
        DisplayStep(done, i, c, fps0, full0, turns[i..]);
        assert turns[i..][1..] == turns[i + 1..];
        done := done + t.shown;
        i := i + 1;
      }
      assert exit == Pending ==> turns[i..] == [] && done + [] == done;
    }

    /** `run`, after the pipeline is chosen. */
    method Run(opens: bool, turns: seq<Turn>) returns (result: RunResult, fullscreen: bool)
      modifies this
      ensures var r := RunSpec(old(State()), opens, turns);
              State() == r.state && result == r.result && fullscreen == r.fullscreen
    {
      capPresent := true;
      if !opens {
        return Returned(false), false;
      }
      running := true;
      var exit;
      exit, fullscreen := Loop(turns);
      if exit == Raised {
        return RunRaised, fullscreen;
      }
      if exit == Pending {
        return StillRunning, fullscreen;
      }
      CleanupNow();
      result := Returned(true);
    }

    /** `cleanup`. */
    method CleanupNow()
      modifies this`running, this`capReleased, this`windowsOpen
      ensures State() == Cleanup(old(State()))
    {
      running := false;
      if capPresent {
        capReleased := true;
      }
      windowsOpen := false;
    }
  }

  /** A loop end seen from a later turn. */
  function Continue(shown: seq<Shown>, keys: nat, e: LoopEnd): LoopEnd
  {
    e.(shown := shown + e.shown, keysRead := keys + e.keysRead)
  }

  lemma DisplayStep(shown: seq<Shown>, keys: nat, c: Counters, currentFps: nat, fullscreen: bool, turns: seq<Turn>)
    requires turns != [] && TurnStep(c, currentFps, fullscreen, turns[0]).stop.None?
    ensures var t := TurnStep(c, currentFps, fullscreen, turns[0]);
            Continue(shown, keys, Display(c, currentFps, fullscreen, turns)) ==
            Continue(shown + t.shown, keys + 1, Display(t.counters, t.currentFps, t.fullscreen, turns[1..]))
  {
    var t := TurnStep(c, currentFps, fullscreen, turns[0]);
    var rest := Display(t.counters, t.currentFps, t.fullscreen, turns[1..]);
    assert shown + (t.shown + rest.shown) == (shown + t.shown) + rest.shown;
  }
}

/** The Qt video viewer (video_viewer.py): the capture thread with its
    pipeline probing, failure watchdog and frame-rate counter, and the
    window's start, stop and port controls.

    The thread's signals are logs the model appends to: the frames and
    placeholders emitted, the frame rates reported and the status texts.
    The stream ends (the loop's `running` flag cleared by `stop`) when the
    given samples run out. */
module VideoViewer {
  import opened Wrappers
  import opened Capture

  const TestPattern: string := "videotestsrc pattern=ball ! videoconvert ! appsink"

  /** What follows the source in each of the three UDP pipelines. */
  const UdpTails: seq<string> :=
    [" ! application/x-rtp,media=video,clock-rate=90000,encoding-name=H264,payload=96 ! rtph264depay ! h264parse ! avdec_h264 ! videoconvert ! appsink drop=1 max-buffers=1",
     " ! application/x-rtp ! rtph264depay ! h264parse ! avdec_h264 ! videoconvert ! appsink",
     " ! h264parse ! avdec_h264 ! videoconvert ! appsink"]

  /** The four candidate pipelines for a port, in the order they are tried:
      three decoders of the UDP stream, then the test pattern. */
  function Pipelines(port: nat): seq<string>
  {
    Candidates(port, UdpTails, TestPattern)
  }

  /** How opening the chosen pipeline in `run` went. */
  datatype MainCapture = CaptureRaises | CaptureClosed | CaptureOpen

  /** Why the capture loop ended: `stop` cleared `running`, thirty samples in
      a row failed, or a read raised. */
  datatype Exit = Stopped | GaveUp | Failed

  datatype LoopEnd = LoopEnd(counters: Counters, shown: seq<Shown>, reports: seq<nat>, exit: Exit, consumed: nat)

  function ReportOf(r: Option<nat>): seq<nat>
  {
    if r.Some? then [r.value] else []
  }

  /** The `while self.running` loop over the given samples. */
  function CaptureLoop(c: Counters, samples: seq<FrameRead>): (e: LoopEnd)
    ensures e.consumed <= |samples|
    ensures e.exit == Stopped ==> e.consumed == |samples|
    ensures e.exit != Stopped ==> e.consumed > 0
    ensures e.exit == Failed ==> samples[e.consumed - 1].ReadRaised?
    ensures e.exit == GaveUp ==> e.counters.failures >= MaxFailures && samples[e.consumed - 1].Bad?
    ensures e.exit == GaveUp && c.failures < MaxFailures ==> e.counters.failures == MaxFailures
    ensures e.exit == Stopped && c.failures < MaxFailures ==> e.counters.failures < MaxFailures
    ensures forall j :: 0 <= j < |e.shown| && e.shown[j].Placeholder? ==> 1 <= e.shown[j].failures < MaxFailures
    ensures forall j :: 0 <= j < |e.reports| ==> e.reports[j] > 0
    decreases |samples|
  {
    if samples == [] then LoopEnd(c, [], [], Stopped, 0)
    else if samples[0].ReadRaised? then LoopEnd(c, [], [], Failed, 1)
    else
      var o := ReadStep(c, samples[0]);
      if o.halt then LoopEnd(o.counters, [], [], GaveUp, 1)
      else
        var rest := CaptureLoop(o.counters, samples[1..]);
        assert rest.consumed > 0 ==> samples[1..][rest.consumed - 1] == samples[rest.consumed];
        LoopEnd(rest.counters, [o.shown.value] + rest.shown, ReportOf(o.report) + rest.reports, rest.exit, rest.consumed + 1)
  }

  /** A loop end seen from a later read: what was shown and reported and
      how many reads were consumed before it are put in front. */
  function Resume(shown: seq<Shown>, reports: seq<nat>, consumed: nat, e: LoopEnd): LoopEnd
  {
    LoopEnd(e.counters, shown + e.shown, reports + e.reports, e.exit, consumed + e.consumed)
  }

  lemma LoopStep(shown: seq<Shown>, reports: seq<nat>, consumed: nat, c: Counters, samples: seq<FrameRead>)
    requires samples != [] && !samples[0].ReadRaised? && !ReadStep(c, samples[0]).halt
    ensures var o := ReadStep(c, samples[0]);
            Resume(shown, reports, consumed, CaptureLoop(c, samples)) ==
            Resume(shown + [o.shown.value], reports + ReportOf(o.report), consumed + 1, CaptureLoop(o.counters, samples[1..]))
  {
    var o := ReadStep(c, samples[0]);
    var rest := CaptureLoop(o.counters, samples[1..]);
    assert shown + ([o.shown.value] + rest.shown) == (shown + [o.shown.value]) + rest.shown;
    assert reports + (ReportOf(o.report) + rest.reports) == (reports + ReportOf(o.report)) + rest.reports;
  }

  /** The frame count grows by exactly the good samples the loop consumed. */
  lemma {:induction false} CaptureLoopCountsFrames(c: Counters, samples: seq<FrameRead>)
    ensures var e := CaptureLoop(c, samples);
            e.counters.frames == c.frames + GoodReads(samples[..e.consumed])
    decreases |samples|
  {
    var e := CaptureLoop(c, samples);
    if samples == [] {
    } else if samples[0].ReadRaised? {
      assert samples[..1] == [samples[0]];
    } else {
      var o := ReadStep(c, samples[0]);
      if o.halt {
        assert samples[..1] == [samples[0]];
      } else {
        CaptureLoopCountsFrames(o.counters, samples[1..]);
        var rest := CaptureLoop(o.counters, samples[1..]);
        assert samples[..e.consumed] == [samples[0]] + samples[1..][..rest.consumed];
        GoodReadsAppend([samples[0]], samples[1..][..rest.consumed]);
      }
    }
  }

  /** Starting from `c.failures` failures, giving up takes the remaining
      30 - c.failures bad samples in a row, either from the start or right
      after some good read. */
  lemma {:induction false} GaveUpAfterBadRun(c: Counters, samples: seq<FrameRead>)
    requires c.failures < MaxFailures
    ensures var e := CaptureLoop(c, samples);
            e.exit == GaveUp ==>
              (e.consumed == MaxFailures - c.failures && forall j :: 0 <= j < e.consumed ==> samples[j].Bad?) ||
              (exists k :: 0 <= k && k + MaxFailures + 1 == e.consumed && samples[k].Good? &&
                 forall j :: k < j < e.consumed ==> samples[j].Bad?)
    decreases |samples|
  {
    var e := CaptureLoop(c, samples);
    if samples == [] || samples[0].ReadRaised? {
    } else {
      var o := ReadStep(c, samples[0]);
      if !o.halt {
        GaveUpAfterBadRun(o.counters, samples[1..]);
        var rest := CaptureLoop(o.counters, samples[1..]);
        if e.exit == GaveUp {
          if rest.consumed == MaxFailures - o.counters.failures && forall j :: 0 <= j < rest.consumed ==> samples[1..][j].Bad? {
            if samples[0].Good? {
              assert forall j :: 0 < j < e.consumed ==> samples[j].Bad? by {
                forall j | 0 < j < e.consumed ensures samples[j].Bad? { assert samples[j] == samples[1..][j - 1]; }
              }
            } else {
              assert forall j :: 0 <= j < e.consumed ==> samples[j].Bad? by {
                forall j | 0 < j < e.consumed ensures samples[j].Bad? { assert samples[j] == samples[1..][j - 1]; }
              }
            }
          } else {
            var k :| 0 <= k && k + MaxFailures + 1 == rest.consumed && samples[1..][k].Good? &&
                     forall j :: k < j < rest.consumed ==> samples[1..][j].Bad?;
            assert forall j :: k + 1 < j < e.consumed ==> samples[j].Bad? by {
              forall j | k + 1 < j < e.consumed ensures samples[j].Bad? { assert samples[j] == samples[1..][j - 1]; }
            }
          }
        }
      }
    }
  }

  /** From a fresh loop (no failures yet), giving up means the last thirty
      samples consumed all failed. */
  lemma GaveUpAfterThirtyBad(c: Counters, samples: seq<FrameRead>)
    requires c.failures == 0
    ensures var e := CaptureLoop(c, samples);
            e.exit == GaveUp ==>
              e.consumed >= MaxFailures && forall j :: e.consumed - MaxFailures <= j < e.consumed ==> samples[j].Bad?
  {
    GaveUpAfterBadRun(c, samples);
  }

  /** The observable state of the capture thread. */
  datatype ThreadState = ThreadState(
    running: bool, frameCount: nat, fps: Fps,
    shown: seq<Shown>, reports: seq<nat>, statuses: seq<string>)

  /** `run`: open the chosen pipeline and loop; `running` is set only once
      the capture opened and stays set when the loop gives up or fails. */
  function ThreadRun(s: ThreadState, capture: MainCapture, samples: seq<FrameRead>, errorText: string): (t: ThreadState)
    ensures |t.statuses| > |s.statuses| + 1
    ensures t.statuses[..|s.statuses| + 1] == s.statuses + ["Initializing video capture..."]
    ensures t.statuses[|t.statuses| - 1] == "Video capture stopped"
    ensures capture != CaptureOpen ==> t == s.(statuses := t.statuses)
    ensures capture == CaptureOpen ==>
              var e := CaptureLoop(Counters(0, s.frameCount, s.fps), samples);
              && (t.running <==> e.exit != Stopped)
              && t.frameCount == e.counters.frames
              && t.fps == e.counters.fps
              && t.shown == s.shown + e.shown
              && t.reports == s.reports + e.reports
              && t.statuses[|s.statuses| + 1] == "Video capture started"
  {
    var init := s.statuses + ["Initializing video capture..."];
    match capture
    case CaptureRaises => s.(statuses := init + ["Error: " + errorText, "Video capture stopped"])
    case CaptureClosed => s.(statuses := init + ["Failed to open video pipeline", "Video capture stopped"])
    case CaptureOpen =>
      var e := CaptureLoop(Counters(0, s.frameCount, s.fps), samples);
      ThreadState(e.exit != Stopped, e.counters.frames, e.counters.fps, s.shown + e.shown, s.reports + e.reports,
                  init + ["Video capture started"] + (if e.exit == Failed then ["Error: " + errorText] else []) +
                  ["Video capture stopped"])
  }

  class VideoStreamThread {
    const udpPort: nat
    var running: bool
    var frameCount: nat
    var fpsCounter: nat
    var lastFpsTime: real
    var shown: seq<Shown>
    var fpsReports: seq<nat>
    var statuses: seq<string>

    function State(): ThreadState
      reads this
    {
      ThreadState(running, frameCount, Fps(fpsCounter, lastFpsTime), shown, fpsReports, statuses)
    }

    constructor (port: nat, now: real)
      ensures udpPort == port
      ensures State() == ThreadState(false, 0, Fps(0, now), [], [], [])
    {
      udpPort := port;
      running := false;
      frameCount := 0;
      fpsCounter := 0;
      lastFpsTime := now;
      shown := [];
      fpsReports := [];
      statuses := [];
    }

    /** `setup_gstreamer_pipeline`: probe the candidates in order and return
        the first that yields a frame, else the test pattern. A capture that
        opened is released; one that failed to open is not. */
    method SetupPipeline(probes: seq<Probe>) returns (pipeline: string, released: seq<nat>)
      requires |probes| == 4
      ensures pipeline == Pipelines(udpPort)[Selected(probes)]
      ensures released == Released(probes, Probed(probes), false)
    {
      var candidates := Pipelines(udpPort);
      released := [];
      var i := 0;
      while i < |candidates|
        invariant 0 <= i <= 4
        invariant forall j :: 0 <= j < i ==> probes[j] != OpenedWithFrame
        invariant released == Released(probes, i, false)
      {
        if probes[i] == OpenedWithFrame {
          ProbedUpToFirstWorking(probes, i);
          released := released + [i];
          pipeline := candidates[i];
          return;
        } else if probes[i] == OpenedNoFrame {
          released := released + [i];
        }
        i := i + 1;
      }
      pipeline := candidates[3];
    }

    /** `calculate_fps` at time `now`. */
    method CalculateFps(now: real)
      modifies this`fpsCounter, this`lastFpsTime, this`fpsReports
      ensures var t := FpsStep(old(Fps(fpsCounter, lastFpsTime)), now);
              Fps(fpsCounter, lastFpsTime) == t.fps && fpsReports == old(fpsReports) + ReportOf(t.report)
    {
      fpsCounter := fpsCounter + 1;
      if now - lastFpsTime >= 1.0 {
        fpsReports := fpsReports + [fpsCounter];
        fpsCounter := 0;
        lastFpsTime := now;
      }
    }

    /** `run`, after the pipeline is chosen. */
    method Run(capture: MainCapture, samples: seq<FrameRead>, errorText: string)
      modifies this
      ensures State() == ThreadRun(old(State()), capture, samples, errorText)
    {
      ghost var before := State();
      statuses := statuses + ["Initializing video capture..."];
      if capture == CaptureRaises {
        statuses := statuses + ["Error: " + errorText, "Video capture stopped"];
        return;
      }
      if capture == CaptureClosed {
        statuses := statuses + ["Failed to open video pipeline", "Video capture stopped"];
        return;
      }
      statuses := statuses + ["Video capture started"];
      running := true;
      var exit := Stream(samples);
      if exit == Stopped {
        // the samples ran out: `stop` cleared the flag
        running := false;
      }
      ghost var started := statuses;
      if exit == Failed {
        statuses := statuses + ["Error: " + errorText];
      }
      statuses := statuses + ["Video capture stopped"];
      assert statuses == started + (if exit == Failed then ["Error: " + errorText] else []) + ["Video capture stopped"];
      assert started == before.statuses + ["Initializing video capture..."] + ["Video capture started"];
    }

    /** One read that returned, in the loop body: the counters, the frame
        or placeholder emitted and the frame rate reported. */
    method Consume(failures: nat, read: FrameRead) returns (next: nat, halt: bool)
      requires !read.ReadRaised?
      modifies this`frameCount, this`fpsCounter, this`lastFpsTime, this`shown, this`fpsReports
      ensures var o := ReadStep(Counters(failures, old(frameCount), Fps(old(fpsCounter), old(lastFpsTime))), read);
              && halt == o.halt
              && Counters(next, frameCount, Fps(fpsCounter, lastFpsTime)) == o.counters
              && shown == old(shown) + (if o.halt then [] else [o.shown.value])
              && fpsReports == old(fpsReports) + ReportOf(o.report)
    {
      if read.Good? {
        next := 0;
        frameCount := frameCount + 1;
        CalculateFps(read.now);
        shown := shown + [Frame];
        halt := false;
      } else {
        next := failures + 1;
        halt := next >= MaxFailures;
        if !halt {
          shown := shown + [Placeholder(next)];
        }
      }
    }

    /** The `while self.running` loop of `run`, from no failures. */
    method Stream(samples: seq<FrameRead>) returns (exit: Exit)
      modifies this`frameCount, this`fpsCounter, this`lastFpsTime, this`shown, this`fpsReports
      ensures var e := CaptureLoop(Counters(0, old(frameCount), Fps(old(fpsCounter), old(lastFpsTime))), samples);
              && exit == e.exit
              && frameCount == e.counters.frames
              && Fps(fpsCounter, lastFpsTime) == e.counters.fps
              && shown == old(shown) + e.shown
              && fpsReports == old(fpsReports) + e.reports
    {
      ghost var whole := CaptureLoop(Counters(0, frameCount, Fps(fpsCounter, lastFpsTime)), samples);
      ghost var shown0 := shown;
      ghost var reports0 := fpsReports;
      ghost var doneShown: seq<Shown> := [];
      ghost var doneReports: seq<nat> := [];
      var failures: nat := 0;
      var i := 0;
      exit := Stopped;
      while i < |samples|
        invariant 0 <= i <= |samples|
        invariant failures < MaxFailures && exit == Stopped
        invariant shown == shown0 + doneShown && fpsReports == reports0 + doneReports
        invariant whole == Resume(doneShown, doneReports, i,
                                  CaptureLoop(Counters(failures, frameCount, Fps(fpsCounter, lastFpsTime)), samples[i..]))
        decreases |samples| - i
      {
        ghost var c := Counters(failures, frameCount, Fps(fpsCounter, lastFpsTime));
        var read := samples[i];
        assert samples[i..][0] == read;
        if read.ReadRaised? {
          assert doneShown + [] == doneShown && doneReports + [] == doneReports;
          exit := Failed;
          break;
        }
        ghost var o := ReadStep(c, read);
        var halt;
        failures, halt := Consume(failures, read);
        if halt {
          assert doneShown + [] == doneShown && doneReports + [] == doneReports;
          exit := GaveUp;
          break;
        }
        LoopStep(doneShown, doneReports, i, c, samples[i..]);
        assert samples[i..][1..] == samples[i + 1..];
        doneShown := doneShown + [o.shown.value];
        doneReports := doneReports + ReportOf(o.report);
        i := i + 1;
      }
      assert exit == Stopped ==> samples[i..] == [] && doneShown + [] == doneShown && doneReports + [] == doneReports;
    }

    /** `stop`: clear the flag (and wait for the loop to finish). */
    method Stop()
      modifies this`running
      ensures !running
    {
      running := false;
    }
  }

  // -------------------------------------------------------------------------
  // the window

  /** The spin box's range: the only ports `change_port` receives. */
  predicate ValidPort(port: nat)
  {
    1000 <= port <= 65535
  }

  /** What the window's controls act on: the window's port, the port and
      `running` flag of its current thread, the two buttons, whether the
      "stopped" text is shown and whether the window is full screen. */
  datatype ViewerState = ViewerState(
    udpPort: nat, threadPort: nat, threadRunning: bool,
    startEnabled: bool, stopEnabled: bool, stoppedText: bool, fullScreen: bool)

  predicate Buttons(s: ViewerState)
  {
    s.startEnabled != s.stopEnabled
  }

  /** The thread streams the port the window shows. */
  predicate PortsAgree(s: ViewerState)
  {
    s.threadPort == s.udpPort
  }

  /** `start_video`; `opens` says whether the started thread's capture
      opened, which is when its `running` flag is set. */
  function StartVideo(s: ViewerState, opens: bool): (t: ViewerState)
    ensures s.threadRunning ==> t == s
    ensures !s.threadRunning ==> !t.startEnabled && t.stopEnabled && t.threadRunning == opens
    ensures t.udpPort == s.udpPort && t.threadPort == s.threadPort && t.fullScreen == s.fullScreen
  {
    if !s.threadRunning then s.(threadRunning := opens, startEnabled := false, stopEnabled := true) else s
  }

  /** `stop_video`. */
  function StopVideo(s: ViewerState): (t: ViewerState)
    ensures !s.threadRunning ==> t == s
    ensures s.threadRunning ==> !t.threadRunning && t.startEnabled && !t.stopEnabled && t.stoppedText
    ensures t.udpPort == s.udpPort && t.threadPort == s.threadPort && t.fullScreen == s.fullScreen
  {
    if s.threadRunning then s.(threadRunning := false, startEnabled := true, stopEnabled := false, stoppedText := true)
    else s
  }

  /** `change_port` as written: only a running stream gets a thread on the
      new port. */
  function ChangePortAsWritten(s: ViewerState, port: nat, opens: bool): (t: ViewerState)
    ensures t.udpPort == port
    ensures !s.threadRunning ==> t == s.(udpPort := port)
    ensures s.threadRunning ==> t.threadPort == port && t == StartVideo(StopVideo(s).(udpPort := port, threadPort := port), opens)
  {
    var shown := s.(udpPort := port);
    if s.threadRunning then StartVideo(StopVideo(shown).(threadPort := port), opens) else shown
  }

  /** Changing the port of a stopped viewer and then starting it streams
      the old port while the window shows the new one. */
  lemma ChangePortWhileStoppedStreamsOldPort()
    ensures var s := ViewerState(5600, 5600, false, true, false, true, false);
            var t := StartVideo(ChangePortAsWritten(s, 5601, true), true);
            t.threadRunning && t.udpPort == 5601 && t.threadPort == 5600 && !PortsAgree(t)
  {
  }

  /** `change_port` corrected: a stopped viewer also gets a new thread on
      the new port, which starts with the next `start_video`. */
  function ChangePort(s: ViewerState, port: nat, opens: bool): (t: ViewerState)
    ensures t.udpPort == port && t.threadPort == port
    ensures !s.threadRunning ==> t == s.(udpPort := port, threadPort := port)
    ensures s.threadRunning ==> t == StartVideo(StopVideo(s).(udpPort := port, threadPort := port), opens)
  {
    var shown := s.(udpPort := port, threadPort := port);
    if s.threadRunning then StartVideo(StopVideo(shown), opens) else shown
  }

  /** `toggle_fullscreen`: only the window mode changes. */
  function ToggleFullscreen(s: ViewerState): (t: ViewerState)
    ensures t.fullScreen != s.fullScreen
    ensures t.(fullScreen := s.fullScreen) == s
  {
    s.(fullScreen := !s.fullScreen)
  }

  /** Toggling twice gives back the window mode it started in. */
  lemma ToggleTwice(s: ViewerState)
    ensures ToggleFullscreen(ToggleFullscreen(s)) == s
  {
  }

  /** The window just built: both buttons enabled, the thread on the
      window's port, then the automatic `start_video`. */
  function Initial(port: nat, opens: bool): (s: ViewerState)
    ensures PortsAgree(s) && Buttons(s) && s.udpPort == port
  {
    StartVideo(ViewerState(port, port, false, true, true, false, false), opens)
  }

  /** Every control keeps the buttons opposite once they are, and, with the
      corrected port change, the thread on the window's port. */
  lemma ControlsKeepInvariants(s: ViewerState, port: nat, opens: bool)
    requires Buttons(s) && PortsAgree(s)
    ensures Buttons(StartVideo(s, opens)) && PortsAgree(StartVideo(s, opens))
    ensures Buttons(StopVideo(s)) && PortsAgree(StopVideo(s))
    ensures Buttons(ChangePort(s, port, opens)) && PortsAgree(ChangePort(s, port, opens))
    ensures Buttons(ToggleFullscreen(s)) && PortsAgree(ToggleFullscreen(s))
  {
  }

  /** Python's `int()` of a real: truncation toward zero. */
  function Truncate(x: real): (n: int)
    ensures x >= 0.0 ==> n as real <= x < n as real + 1.0
    ensures x < 0.0 ==> n as real - 1.0 < x <= n as real
  {
    if x >= 0.0 then x.Floor else -((-x).Floor)
  }

  datatype Clock = Clock(hours: int, minutes: int, seconds: int)

  /** The uptime shown by `update_ui`: whole seconds since the window
      started, split with floor division and remainder. */
  function Uptime(now: real, startTime: real): (c: Clock)
    ensures var u := Truncate(now - startTime);
            c.hours * 3600 + c.minutes * 60 + c.seconds == u
    ensures 0 <= c.minutes < 60 && 0 <= c.seconds < 60
    ensures now >= startTime ==> c.hours >= 0
  {
    var u := Truncate(now - startTime);
    Clock(u / 3600, (u % 3600) / 60, u % 60)
  }

  /** The window, holding its thread's port and flag. */
  class Viewer {
    var udpPort: nat
    var threadPort: nat
    var threadRunning: bool
    var startEnabled: bool
    var stopEnabled: bool
    var stoppedText: bool
    var fullScreen: bool

    function State(): ViewerState
      reads this
    {
      ViewerState(udpPort, threadPort, threadRunning, startEnabled, stopEnabled, stoppedText, fullScreen)
    }

    ghost predicate Valid()
      reads this
    {
      Buttons(State()) && PortsAgree(State())
    }

    constructor (port: nat, opens: bool)
      ensures Valid()
      ensures State() == Initial(port, opens)
    {
      udpPort := port;
      threadPort := port;
      threadRunning := opens;
      startEnabled := false;
      stopEnabled := true;
      stoppedText := false;
      fullScreen := false;
    }

    method OnStartVideo(opens: bool)
      requires Valid()
      modifies this
      ensures Valid()
      ensures State() == StartVideo(old(State()), opens)
    {
      if !threadRunning {
        threadRunning := opens;
        startEnabled := false;
        stopEnabled := true;
      }
    }

    method OnStopVideo()
      requires Valid()
      modifies this
      ensures Valid()
      ensures State() == StopVideo(old(State()))
    {
      if threadRunning {
        threadRunning := false;
        startEnabled := true;
        stopEnabled := false;
        stoppedText := true;
      }
    }

    method OnChangePort(port: nat, opens: bool)
      requires Valid() && ValidPort(port)
      modifies this
      ensures Valid()
      ensures State() == ChangePort(old(State()), port, opens)
    {
      udpPort := port;
      threadPort := port;
      if threadRunning {
        OnStopVideo();
        OnStartVideo(opens);
      }
    }

    method OnToggleFullscreen()
      requires Valid()
      modifies this
      ensures Valid()
      ensures State() == ToggleFullscreen(old(State()))
    {
      fullScreen := !fullScreen;
    }
  }
}

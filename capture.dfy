/** What the two video viewers (video_viewer.py and simple_video_viewer.py)
    share: probing the candidate GStreamer pipelines, one read of the
    capture loop with its consecutive-failure watchdog, and the frames-per-
    second counter. The capture device and the clock are parameters: a
    probe says how opening and reading a candidate went, a read says what
    `cap.read()` returned and the time the counter saw. */
module Capture {
  import opened Wrappers

  /** The number a string of decimal digits denotes, most significant first. */
  function DigitsValue(s: string): nat
    requires forall i :: 0 <= i < |s| ==> '0' <= s[i] <= '9'
  {
    if s == [] then 0 else DigitsValue(s[..|s| - 1]) * 10 + (s[|s| - 1] - '0') as nat
  }

  /** Decimal digits of a number, as an f-string prints an int: they denote
      the number, with no leading zero. */
  function Decimal(n: nat): (s: string)
    ensures |s| > 0
    ensures forall i :: 0 <= i < |s| ==> '0' <= s[i] <= '9'
    ensures DigitsValue(s) == n
    ensures s[0] != '0' || s == "0"
  {
    var d := [(n % 10) as char + '0'];
    if n < 10 then
      assert forall i :: 0 <= i < |d| ==> '0' <= d[i] <= '9';
      assert d[..0] == [];
      d
    else
      var front := Decimal(n / 10);
      var s := front + d;
      assert s[..|s| - 1] == front;
      s
  }

  /** Different numbers print differently. */
  lemma DecimalInjective(a: nat, b: nat)
    requires Decimal(a) == Decimal(b)
    ensures a == b
  {
  }

  // -------------------------------------------------------------------------
  // pipeline probing

  /** The start of every UDP pipeline: the source on the given port. */
  function UdpSource(port: nat): string
  {
    "udpsrc port=" + Decimal(port)
  }

  /** Different ports give different sources. */
  lemma UdpSourceInjective(a: nat, b: nat)
    requires UdpSource(a) == UdpSource(b)
    ensures a == b
  {
    var prefix := "udpsrc port=";
    assert Decimal(a) == UdpSource(a)[|prefix|..];
    assert Decimal(b) == UdpSource(b)[|prefix|..];
    DecimalInjective(a, b);
  }

  lemma PrefixOfConcat(a: string, b: string)
    ensures a <= a + b && (a + b)[|a|..] == b
  {
    assert (a + b)[..|a|] == a;
  }

  /** The four candidate pipelines for a port, in the order they are tried:
      the UDP source followed by each of a viewer's three decoder tails,
      then its test pattern. */
  function Candidates(port: nat, tails: seq<string>, fallback: string): (ps: seq<string>)
    requires |tails| == 3
    ensures |ps| == 4
    ensures forall i :: 0 <= i < 3 ==> UdpSource(port) <= ps[i] && ps[i][|UdpSource(port)|..] == tails[i]
    ensures ps[3] == fallback
  {
    var ps := seq(4, i requires 0 <= i < 4 => if i < 3 then UdpSource(port) + tails[i] else fallback);
    PrefixOfConcat(UdpSource(port), tails[0]);
    PrefixOfConcat(UdpSource(port), tails[1]);
    PrefixOfConcat(UdpSource(port), tails[2]);
    ps
  }

  /** How probing one candidate went. */
  datatype Probe =
    | Raises             // constructing the capture raised
    | NotOpened          // the capture did not open
    | OpenedReadRaises   // it opened, and the test read raised
    | OpenedNoFrame      // it opened, but the test read gave no frame
    | OpenedWithFrame    // it opened and gave a frame: this candidate works

  /** The number of candidates probed before the loop returns: up to and
      including the first that works, otherwise all of them. */
  function Probed(probes: seq<Probe>): (n: nat)
    ensures n <= |probes|
    ensures n < |probes| ==> n > 0 && probes[n - 1] == OpenedWithFrame
    ensures forall j :: 0 <= j < n - 1 ==> probes[j] != OpenedWithFrame
    ensures n == |probes| ==> forall j :: 0 <= j < |probes| - 1 ==> probes[j] != OpenedWithFrame
  {
    if probes == [] then 0
    else if probes[0] == OpenedWithFrame then 1
    else 1 + Probed(probes[1..])
  }

  /** The first working candidate ends the probing. */
  lemma ProbedUpToFirstWorking(probes: seq<Probe>, k: nat)
    requires k < |probes| && probes[k] == OpenedWithFrame
    requires forall j :: 0 <= j < k ==> probes[j] != OpenedWithFrame
    ensures Probed(probes) == k + 1
  {
  }

  /** The candidate chosen from the probes: the first that works, else the
      last one (the test pattern). */
  function Selected(probes: seq<Probe>): (k: nat)
    requires |probes| > 0
    ensures k < |probes|
    ensures probes[k] == OpenedWithFrame || k == |probes| - 1
    ensures forall j :: 0 <= j < k ==> probes[j] != OpenedWithFrame
    ensures (exists j :: 0 <= j < |probes| && probes[j] == OpenedWithFrame) ==> probes[k] == OpenedWithFrame
  {
    var n := Probed(probes);
    if n < |probes| then n - 1 else |probes| - 1
  }

  /** Whether the probe's capture is released. `unopened` says whether the
      viewer also releases a capture that did not open. */
  predicate ReleasesProbe(p: Probe, unopened: bool)
  {
    p == OpenedNoFrame || p == OpenedWithFrame || (unopened && p == NotOpened)
  }

  /** The indices of the probed candidates whose captures are released, in order. */
  function Released(probes: seq<Probe>, n: nat, unopened: bool): (r: seq<nat>)
    requires n <= |probes|
    ensures forall j: nat :: j in r <==> j < n && ReleasesProbe(probes[j], unopened)
    ensures forall a, b :: 0 <= a < b < |r| ==> r[a] < r[b]
  {
    if n == 0 then []
    else
      var front := Released(probes, n - 1, unopened);
      assert forall a :: 0 <= a < |front| ==> front[a] < n - 1 by {
        forall a | 0 <= a < |front| ensures front[a] < n - 1 {
          var j: nat := front[a];
          assert j in front;
        }
      }
      front + (if ReleasesProbe(probes[n - 1], unopened) then [n - 1] else [])
  }

  // -------------------------------------------------------------------------
  // the capture loop

  /** Consecutive read failures that end the capture loop. */
  const MaxFailures: nat := 30

  /** What `cap.read()` did: a frame (with the clock when it was counted),
      no frame, or an exception. */
  datatype FrameRead = Good(now: real) | Bad | ReadRaised

  /** The frames-per-second counter: frames since the last report and when
      that report was made. */
  datatype Fps = Fps(counter: nat, lastTime: real)

  datatype FpsTick = FpsTick(fps: Fps, report: Option<nat>)

  /** `calculate_fps`: count the frame; once a second has passed since the
      last report, report the count, reset it and restart the second. */
  function FpsStep(f: Fps, now: real): (t: FpsTick)
    ensures t.report.Some? <==> now - f.lastTime >= 1.0
    ensures t.report.Some? ==> t.report.value == f.counter + 1 && t.report.value > 0 && t.fps == Fps(0, now)
    ensures t.report.None? ==> t.fps == Fps(f.counter + 1, f.lastTime)
  {
    if now - f.lastTime >= 1.0 then FpsTick(Fps(0, now), Some(f.counter + 1))
    else FpsTick(Fps(f.counter + 1, f.lastTime), None)
  }

  /** The loop's counters. */
  datatype Counters = Counters(failures: nat, frames: nat, fps: Fps)

  /** What is put on screen for one read: the frame, or a placeholder
      showing the failure count. */
  datatype Shown = Frame | Placeholder(failures: nat)

  datatype ReadOutcome = ReadOutcome(counters: Counters, shown: Option<Shown>, report: Option<nat>, halt: bool)

  /** One read that returned (a good or a bad one): a good read resets the
      failure count and counts the frame; a bad read counts a failure, and
      the thirtieth in a row halts the loop before a placeholder is shown. */
  function ReadStep(c: Counters, read: FrameRead): (o: ReadOutcome)
    requires !read.ReadRaised?
    ensures read.Good? ==> o.counters.failures == 0 && o.counters.frames == c.frames + 1 &&
                           o.shown == Some(Frame) && !o.halt
    ensures read.Good? ==> var t := FpsStep(c.fps, read.now); o.counters.fps == t.fps && o.report == t.report
    ensures read.Bad? ==> o.counters == c.(failures := c.failures + 1) && o.report.None?
    ensures read.Bad? ==> (o.halt <==> c.failures + 1 >= MaxFailures)
    ensures read.Bad? && !o.halt ==> o.shown == Some(Placeholder(c.failures + 1))
    ensures o.halt ==> o.shown.None?
    // a placeholder always shows a count from 1 to 29
    ensures o.shown.Some? && o.shown.value.Placeholder? ==> 1 <= o.shown.value.failures < MaxFailures
  {
    if read.Good? then
      var t := FpsStep(c.fps, read.now);
      ReadOutcome(Counters(0, c.frames + 1, t.fps), Some(Frame), t.report, false)
    else
      var failures := c.failures + 1;
      if failures >= MaxFailures then ReadOutcome(c.(failures := failures), None, None, true)
      else ReadOutcome(c.(failures := failures), Some(Placeholder(failures)), None, false)
  }

  /** The number of good samples in a sequence of samples. */
  function GoodReads(samples: seq<FrameRead>): nat
  {
    if samples == [] then 0 else (if samples[0].Good? then 1 else 0) + GoodReads(samples[1..])
  }

  lemma GoodReadsAppend(a: seq<FrameRead>, b: seq<FrameRead>)
    ensures GoodReads(a + b) == GoodReads(a) + GoodReads(b)
  {
    if a == [] {
      assert a + b == b;
    } else {
      assert (a + b)[1..] == a[1..] + b;
      GoodReadsAppend(a[1..], b);
    }
  }
}

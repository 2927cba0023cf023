/**
 What holds of every window list that decoding produces, and when it does not depend on
 how the byte stream was cut into reads.
 */
module PcmWindowsTheorems {
  import opened PcmWindows

  // ---------- Shape of every result ----------

  /** `w` may follow windows ending in `last`. */
  predicate Follows(last: Window, w: Window)
  {
    last.startMs <= w.startMs && last.endMs <= w.endMs && last.endMs - 1 <= w.startMs
  }

  /** Windows in order: each starts at most 1 ms before the previous one ends, and only the
      last one may be empty. */
  predicate Ordered(ws: seq<Window>, rangeStart: int)
  {
    if ws == [] then true
    else
      var front, w := ws[..|ws| - 1], ws[|ws| - 1];
      && Ordered(front, rangeStart)
      && rangeStart <= w.startMs <= w.endMs
      && (front != [] ==> var last := front[|front| - 1]; last.startMs < last.endMs && Follows(last, w))
  }

  /** The windows of a decoded range, the last one reaching its end. */
  predicate Timeline(ws: seq<Window>, rangeStart: int, duration: int)
  {
    ws != [] && rangeStart < duration && ws[|ws| - 1].endMs == duration && Ordered(ws, rangeStart)
  }

  /** What every meter keeps: the open window starts where the last one ended. */
  predicate Closed(m: Meter, rangeStart: int)
  {
    && m.count <= m.total && m.level.samples == 2 * m.count
    && LastEnd(m, rangeStart) == rangeStart + Elapsed(m.total - m.count)
    && Ordered(m.windows, rangeStart)
    && (m.windows != [] ==> m.windows[|m.windows| - 1].startMs < m.windows[|m.windows| - 1].endMs)
  }

  lemma CloseKeepsClosed(m: Meter, g: Grid)
    requires ValidGrid(g) && m.count >= g.width && Closed(m, g.start)
    ensures Closed(Close(m, g), g.start)
  {
    var end := g.start + Elapsed(m.total);
    var start := if end - g.ms < g.start then g.start else end - g.ms;
    assert Elapsed(m.total) >= Elapsed(m.total - m.count) + g.ms - 1;
    var ws := m.windows + [WindowOf(start, end, m.level, g)];
    assert ws[..|ws| - 1] == m.windows;
  }

  lemma OpenKeepsClosed(m: Meter, level: Level, rangeStart: int)
    requires Closed(m, rangeStart) && level.samples == m.level.samples + 2
    ensures Closed(Meter(m.total + 1, m.count + 1, level, m.windows), rangeStart)
  {
  }

  lemma AddFrameCounts(level: Level, frame: Frame)
    ensures AddFrame(level, frame).samples == level.samples + 2
  {
  }

  lemma FrameKeepsClosed(m: Meter, frame: Frame, late: bool, g: Grid)
    requires ValidGrid(g) && Closed(m, g.start)
    ensures Closed(MeterFrame(m, frame, late, g), g.start)
  {
    var level := AddFrame(m.level, frame);
    AddFrameCounts(m.level, frame);
    OpenKeepsClosed(m, level, g.start);
    ClosedAfter(Meter(m.total + 1, m.count + 1, level, m.windows), late, g);
  }

  lemma ClosedAfter(next: Meter, late: bool, g: Grid)
    requires ValidGrid(g) && Closed(next, g.start)
    ensures Closed(if !late && next.count >= g.width then Close(next, g) else next, g.start)
  {
    if !late && next.count >= g.width { CloseKeepsClosed(next, g); }
  }

  lemma {:induction false} ClosedWindows(frames: seq<Frame>, n: nat, late: set<nat>, g: Grid)
    requires ValidGrid(g) && n <= |frames|
    ensures Measure(frames, n, late, g).total == n
    ensures Closed(Measure(frames, n, late, g), g.start)
  {
    if n > 0 {
      ClosedWindows(frames, n - 1, late, g);
      FrameKeepsClosed(Measure(frames, n - 1, late, g), frames[n - 1], n - 1 in late, g);
    }
  }

  /** Whatever the reads were, the decoded windows form a timeline of the range. */
  lemma DecodedTimeline(frames: seq<Frame>, n: nat, late: set<nat>, g: Grid)
    requires ValidGrid(g) && n <= |frames|
    ensures var r := Finish(Measure(frames, n, late, g), g);
            r.Metrics? ==> Timeline(r.windows, g.start, r.durationMs)
  {
    ClosedWindows(frames, n, late, g);
  }

  // ---------- Frames in step ----------

  /** Frames since the last boundary when `i` frames were read and none was late. */
  function Phase(i: nat, width: nat): (p: nat)
    requires width > 0
    ensures p < width
  {
    if i == 0 then 0 else if Phase(i - 1, width) + 1 >= width then 0 else Phase(i - 1, width) + 1
  }

  predicate ClosesWindow(i: nat, g: Grid)
    requires ValidGrid(g)
  {
    Phase(i, g.width) + 1 == g.width
  }

  predicate InStep(late: set<nat>, n: nat, g: Grid)
    requires ValidGrid(g)
  {
    forall i :: i in late && i < n ==> !ClosesWindow(i, g)
  }

  /** Each window starts at the previous end or 1 ms before it. */
  predicate Abutting(ws: seq<Window>, rangeStart: int)
  {
    if ws == [] then true
    else
      var front, w := ws[..|ws| - 1], ws[|ws| - 1];
      && Abutting(front, rangeStart)
      && (front == [] ==> w.startMs == rangeStart)
      && (front != [] ==> front[|front| - 1].endMs - 1 <= w.startMs <= front[|front| - 1].endMs)
  }

  /** Window `k` starts at the end of the one before, or exactly 1 ms earlier. */
  predicate AbutsAt(ws: seq<Window>, k: nat, rangeStart: int)
    requires k < |ws|
  {
    if k == 0 then ws[0].startMs == rangeStart
    else ws[k].startMs == ws[k - 1].endMs || ws[k].startMs == ws[k - 1].endMs - 1
  }

  predicate StartsAbut(ws: seq<Window>, rangeStart: int)
  {
    forall k :: 0 <= k < |ws| ==> AbutsAt(ws, k, rangeStart)
  }

  lemma {:induction false} AbuttingStarts(ws: seq<Window>, rangeStart: int)
    requires Abutting(ws, rangeStart)
    ensures StartsAbut(ws, rangeStart)
  {
    if ws != [] {
      var front := ws[..|ws| - 1];
      AbuttingStarts(front, rangeStart);
      forall k | 0 <= k < |front| ensures AbutsAt(ws, k, rangeStart) {
        assert AbutsAt(front, k, rangeStart);
      }
    }
  }

  function Times(k: nat, width: nat): nat
  {
    if k == 0 then 0 else Times(k - 1, width) + width
  }

  lemma {:induction false} TimesIsProduct(k: nat, width: nat)
    ensures Times(k, width) == k * width
  {
    if k > 0 { TimesIsProduct(k - 1, width); }
  }

  predicate Regular(m: Meter, g: Grid)
    requires ValidGrid(g)
  {
    && Closed(m, g.start) && m.count < g.width
    && Times(|m.windows|, g.width) + m.count == m.total
    && Abutting(m.windows, g.start)
  }

  lemma CloseKeepsRegular(m: Meter, g: Grid)
    requires ValidGrid(g) && m.count == g.width && Closed(m, g.start)
    requires Times(|m.windows|, g.width) + m.count == m.total
    requires Abutting(m.windows, g.start)
    ensures Regular(Close(m, g), g)
  {
    CloseKeepsClosed(m, g);
    var width, k := g.width, |m.windows|;
    assert g.ms - 1 <= Elapsed(m.total) - Elapsed(m.total - width) <= g.ms;
    var ws := Close(m, g).windows;
    assert ws[..k] == m.windows;
    if k == 0 { assert m.total == width && Elapsed(0) == 0; }
  }

  lemma FrameKeepsRegular(m: Meter, frame: Frame, g: Grid)
    requires ValidGrid(g) && Regular(m, g)
    ensures Regular(MeterFrame(m, frame, false, g), g)
    ensures MeterFrame(m, frame, false, g).count
         == if m.count + 1 >= g.width then 0 else m.count + 1
  {
    var level := AddFrame(m.level, frame);
    AddFrameCounts(m.level, frame);
    OpenKeepsClosed(m, level, g.start);
    var next := Meter(m.total + 1, m.count + 1, level, m.windows);
    if next.count >= g.width { CloseKeepsRegular(next, g); }
  }

  /** The meter of the uncut stream. */
  lemma {:induction false} UncutIsRegular(frames: seq<Frame>, n: nat, g: Grid)
    requires ValidGrid(g) && n <= |frames|
    ensures var m := Measure(frames, n, {}, g);
            m.total == n && Regular(m, g) && m.count == Phase(n, g.width)
  {
    if n > 0 {
      UncutIsRegular(frames, n - 1, g);
      var m := Measure(frames, n - 1, {}, g);
      FrameKeepsRegular(m, frames[n - 1], g);
      assert Measure(frames, n, {}, g) == MeterFrame(m, frames[n - 1], false, g);
    } else {
      assert Measure(frames, 0, {}, g) == Meter(0, 0, SILENCE, []);
      assert Elapsed(0) == 0;
    }
  }

  /** With no late closing frame the meter is that of the uncut stream. */
  lemma {:induction false} InStepMeter(frames: seq<Frame>, n: nat, late: set<nat>, g: Grid)
    requires ValidGrid(g) && n <= |frames| && InStep(late, n, g)
    ensures Measure(frames, n, late, g) == Measure(frames, n, {}, g)
  {
    if n > 0 {
      InStepMeter(frames, n - 1, late, g);
      NextInStep(frames, n - 1, late, g);
    }
  }

  lemma NextInStep(frames: seq<Frame>, i: nat, late: set<nat>, g: Grid)
    requires ValidGrid(g) && i < |frames| && (i in late ==> !ClosesWindow(i, g))
    requires Measure(frames, i, late, g) == Measure(frames, i, {}, g)
    ensures Measure(frames, i + 1, late, g) == Measure(frames, i + 1, {}, g)
  {
    UncutIsRegular(frames, i, g);
    if i in late { OpenWindowIgnoresLateness(Measure(frames, i, {}, g), frames[i], g); }
  }

  lemma OpenWindowIgnoresLateness(m: Meter, frame: Frame, g: Grid)
    requires ValidGrid(g) && m.count + 1 < g.width
    ensures MeterFrame(m, frame, true, g) == MeterFrame(m, frame, false, g)
  {
  }

  /** Frame-aligned reads: no frame is ever late. */
  lemma {:induction false} AlignedReadsAreNeverLate(chunks: seq<seq<Byte>>)
    requires forall k :: 0 <= k < |chunks| ==> |chunks[k]| % 4 == 0
    ensures Late(chunks) == {} && |Concat(chunks)| % 4 == 0
  {
    if chunks != [] {
      var front, last := chunks[..|chunks| - 1], chunks[|chunks| - 1];
      AlignedReadsAreNeverLate(front);
      assert Concat(chunks) == Concat(front) + last;
      AlignedSum(|Concat(front)|, |last|);
    }
  }

  lemma AlignedSum(a: nat, b: nat)
    requires a % 4 == 0 && b % 4 == 0
    ensures (a + b) % 4 == 0
  {
  }

  /** Frame-aligned reads give windows that depend on the bytes alone, as many as it takes
      to cover the frames, each starting at the previous end or exactly 1 ms before it. */
  lemma AlignedReadsAreCanonical(chunks: seq<seq<Byte>>, configuredMs: int, rangeStart: int, rmsOf: (nat, nat) -> real)
    requires forall k :: 0 <= k < |chunks| ==> |chunks[k]| % 4 == 0
    ensures var frames, g := FramesOf(Concat(chunks)), GridOf(configuredMs, rangeStart, rmsOf);
            var n := |frames|;
            var r := Finish(Measure(frames, n, Late(chunks), g), g);
            && r == Finish(Measure(frames, n, {}, g), g)
            && (r.Metrics? ==>
                  (|r.windows| - 1) * g.width < n <= |r.windows| * g.width
                  && StartsAbut(r.windows, rangeStart))
  {
    var frames, g := FramesOf(Concat(chunks)), GridOf(configuredMs, rangeStart, rmsOf);
    AlignedReadsAreNeverLate(chunks);
    UncutIsRegular(frames, |frames|, g);
    var m := Measure(frames, |frames|, {}, g);
    if Finish(m, g).Metrics? { RegularResult(m, g); }
  }

  lemma RegularResult(m: Meter, g: Grid)
    requires ValidGrid(g) && Regular(m, g) && Finish(m, g).Metrics?
    ensures var ws := Finish(m, g).windows;
            (|ws| - 1) * g.width < m.total <= |ws| * g.width && StartsAbut(ws, g.start)
  {
    AbuttingStarts(m.windows, g.start);
    RegularCover(|m.windows|, g.width, m.count);
    var ws, k := Finish(m, g).windows, |m.windows|;
    if m.count > 0 { AbutAppend(m.windows, ws[k], g.start); }
  }

  lemma AbutAppend(ws: seq<Window>, w: Window, rangeStart: int)
    requires StartsAbut(ws, rangeStart)
    requires w.startMs == if ws == [] then rangeStart else ws[|ws| - 1].endMs
    ensures StartsAbut(ws + [w], rangeStart)
  {
    forall k | 0 <= k < |ws| ensures AbutsAt(ws + [w], k, rangeStart) {
      assert AbutsAt(ws, k, rangeStart);
    }
  }

  lemma RegularCover(k: nat, width: nat, rest: nat)
    requires rest < width
    ensures var total := Times(k, width) + rest;
            (rest > 0 ==> k * width < total <= (k + 1) * width)
            && (rest == 0 && k > 0 ==> (k - 1) * width < total <= k * width)
  {
    TimesIsProduct(k, width);
    TimesIsProduct(k + 1, width);
    if k > 0 { TimesIsProduct(k - 1, width); }
  }

  // ---------- When late frames matter ----------

  /** The last frame of the stream may be late: its window is then closed by the end of the
      stream, and comes out the same when the previous window ended `g.ms` before it. */
  predicate LastWindowAgrees(n: nat, g: Grid)
    requires ValidGrid(g) && n >= g.width
  {
    Elapsed(n - g.width) == if Elapsed(n) < g.ms then 0 else Elapsed(n) - g.ms
  }

  predicate Harmless(late: set<nat>, n: nat, g: Grid)
    requires ValidGrid(g)
  {
    forall i :: i in late && i < n && ClosesWindow(i, g) ==>
      i + 1 == n && n >= g.width && LastWindowAgrees(n, g)
  }

  lemma {:induction false} PhaseIsSmall(i: nat, width: nat)
    requires width > 0
    ensures Phase(i, width) <= i
  {
    if i > 0 { PhaseIsSmall(i - 1, width); }
  }

  // What a window holds.

  /** The level of the frames from `lo` to `hi`. */
  function LevelOf(frames: seq<Frame>, lo: nat, hi: nat): Level
    requires lo <= hi <= |frames|
  {
    if lo == hi then SILENCE else AddFrame(LevelOf(frames, lo, hi - 1), frames[hi - 1])
  }

  predicate HasLevel(w: Window, level: Level, g: Grid)
  {
    w.peak == level.peak && w.rms == g.rmsOf(level.sumSquares, level.samples)
  }

  /** The open level is that of the frames read since the last window. */
  lemma {:induction false} OpenLevel(frames: seq<Frame>, n: nat, late: set<nat>, g: Grid)
    requires n <= |frames|
    ensures var m := Measure(frames, n, late, g); m.count <= n && m.level == LevelOf(frames, n - m.count, n)
  {
    if n > 0 { OpenLevel(frames, n - 1, late, g); }
  }

  lemma FrameCloses(m: Meter, frame: Frame, g: Grid)
    requires ValidGrid(g) && Closed(m, g.start) && m.count + 1 == g.width
    ensures var next := MeterFrame(m, frame, false, g);
            && |next.windows| == |m.windows| + 1 && next.count == 0 && next.windows[..|m.windows|] == m.windows
            && HasLevel(next.windows[|m.windows|], AddFrame(m.level, frame), g)
            && next.windows[|m.windows|].endMs == g.start + Elapsed(m.total + 1)
            && next.windows[|m.windows|].startMs
               == g.start + if Elapsed(m.total + 1) < g.ms then 0 else Elapsed(m.total + 1) - g.ms
  {
  }

  /** The window that the uncut stream closes at frame `j`, in its place ever after. */
  predicate KeepsWindow(m: Meter, base: Meter, frame: Frame, g: Grid)
  {
    var k := |base.windows|;
    |m.windows| > k && k < |MeterFrame(base, frame, false, g).windows|
    && m.windows[k] == MeterFrame(base, frame, false, g).windows[k]
  }

  lemma FrameKeepsWindow(m: Meter, next: Frame, base: Meter, frame: Frame, g: Grid)
    requires KeepsWindow(m, base, frame, g)
    ensures KeepsWindow(MeterFrame(m, next, false, g), base, frame, g)
  {
  }

  lemma {:induction false} UncutKeepsWindow(frames: seq<Frame>, n: nat, j: nat, g: Grid)
    requires ValidGrid(g) && n <= |frames| && j < n && ClosesWindow(j, g)
    ensures KeepsWindow(Measure(frames, n, {}, g), Measure(frames, j, {}, g), frames[j], g)
  {
    if n - 1 > j {
      UncutKeepsWindow(frames, n - 1, j, g);
      FrameKeepsWindow(Measure(frames, n - 1, {}, g), frames[n - 1], Measure(frames, j, {}, g), frames[j], g);
    } else {
      UncutIsRegular(frames, j, g);
      FrameCloses(Measure(frames, j, {}, g), frames[j], g);
    }
  }

  /** The window that the uncut stream closes at frame `j` has the loudness of exactly the
      frames of one width, and never changes. */
  lemma UncutWindowIsFull(frames: seq<Frame>, n: nat, j: nat, g: Grid)
    requires ValidGrid(g) && n <= |frames| && j < n && ClosesWindow(j, g)
    ensures j + 1 >= g.width
    ensures var k := |Measure(frames, j, {}, g).windows|;
            var m := Measure(frames, n, {}, g);
            && k < |m.windows| && m.windows[k].endMs == g.start + Elapsed(j + 1)
            && HasLevel(m.windows[k], LevelOf(frames, j + 1 - g.width, j + 1), g)
  {
    PhaseIsSmall(j, g.width);
    UncutKeepsWindow(frames, n, j, g);
    UncutIsRegular(frames, j, g);
    OpenLevel(frames, j, {}, g);
    FrameCloses(Measure(frames, j, {}, g), frames[j], g);
  }

  // A late closing frame can be heard.

  const QUIET: Frame := [0, 0, 0, 0]
  const LOUD: Frame := [0, 0x40, 0, 0x40]

  /** Silence with one loud frame. */
  function Burst(n: nat, at: nat): (frames: seq<Frame>)
    ensures |frames| == n && forall i :: 0 <= i < n ==> frames[i] == if i == at then LOUD else QUIET
  {
    seq(n, i => if i == at then LOUD else QUIET)
  }

  /** The reading with these late frames gives the result of the uncut stream. */
  predicate SameResult(frames: seq<Frame>, late: set<nat>, g: Grid)
  {
    Finish(Measure(frames, |frames|, late, g), g) == Finish(Measure(frames, |frames|, {}, g), g)
  }

  lemma {:induction false} SilenceHasNoPeak(frames: seq<Frame>, lo: nat, hi: nat)
    requires lo <= hi <= |frames| && forall i :: lo <= i < hi ==> frames[i] == QUIET
    ensures LevelOf(frames, lo, hi).peak == 0
  {
    if lo < hi { SilenceHasNoPeak(frames, lo, hi - 1); }
  }

  /** Window `k` has been loud: it is open and has a peak, or was closed with one. */
  predicate HeardIn(m: Meter, k: nat)
  {
    if |m.windows| > k then m.windows[k].peak > 0 else |m.windows| == k && m.count > 0 && m.level.peak > 0
  }

  lemma FrameKeepsHeard(m: Meter, frame: Frame, late: bool, k: nat, g: Grid)
    requires HeardIn(m, k)
    ensures HeardIn(MeterFrame(m, frame, late, g), k)
  {
  }

  lemma LoudFrameIsHeard(m: Meter, late: bool, g: Grid)
    ensures HeardIn(MeterFrame(m, LOUD, late, g), |m.windows|)
  {
  }

  /** The missed window takes in the frame after the one that should have closed it. */
  lemma {:induction false} NextFrameIsHeard(frames: seq<Frame>, n: nat, late: set<nat>, j: nat, g: Grid)
    requires ValidGrid(g) && j + 1 < n <= |frames| && frames[j + 1] == LOUD
    requires InStep(late, j, g) && j in late && ClosesWindow(j, g)
    ensures HeardIn(Measure(frames, n, late, g), |Measure(frames, j, {}, g).windows|)
  {
    if n == j + 2 {
      InStepMeter(frames, j, late, g);
      LateFrameCloses(Measure(frames, j, {}, g), frames[j], g);
      LoudFrameIsHeard(Measure(frames, j + 1, late, g), j + 1 in late, g);
    } else {
      NextFrameIsHeard(frames, n - 1, late, j, g);
      FrameKeepsHeard(Measure(frames, n - 1, late, g), frames[n - 1], n - 1 in late,
                      |Measure(frames, j, {}, g).windows|, g);
    }
  }

  lemma LateFrameCloses(m: Meter, frame: Frame, g: Grid)
    ensures MeterFrame(m, frame, true, g).windows == m.windows && MeterFrame(m, frame, true, g).count == m.count + 1
  {
  }

  lemma PeaksDiffer(late: Meter, uncut: Meter, k: nat, g: Grid)
    requires ValidGrid(g) && late.total == uncut.total >= g.width
    requires HeardIn(late, k) && k < |uncut.windows| && uncut.windows[k].peak == 0
    ensures Finish(late, g) != Finish(uncut, g)
  {
    var a, b := Finish(late, g), Finish(uncut, g);
    assert Elapsed(late.total) > 0;
    assert a.windows[k].peak > 0;
    assert b.windows[k].peak == 0;
  }

  /** A loud frame just after a late closing frame, with silence before, tells the readings apart. */
  lemma LoudFrameTells(frames: seq<Frame>, late: set<nat>, j: nat, g: Grid)
    requires ValidGrid(g) && j + 1 < |frames| && InStep(late, j, g) && j in late && ClosesWindow(j, g)
    requires frames[j + 1] == LOUD && forall i :: 0 <= i <= j ==> frames[i] == QUIET
    ensures !SameResult(frames, late, g)
  {
    var n := |frames|;
    QuietWindow(frames, j, g);
    NextFrameIsHeard(frames, n, late, j, g);
    ClosedWindows(frames, n, late, g);
    ClosedWindows(frames, n, {}, g);
    PeaksDiffer(Measure(frames, n, late, g), Measure(frames, n, {}, g), |Measure(frames, j, {}, g).windows|, g);
  }

  lemma QuietWindow(frames: seq<Frame>, j: nat, g: Grid)
    requires ValidGrid(g) && j < |frames| && ClosesWindow(j, g) && forall i :: 0 <= i <= j ==> frames[i] == QUIET
    ensures j + 1 >= g.width
    ensures var k := |Measure(frames, j, {}, g).windows|;
            var ws := Measure(frames, |frames|, {}, g).windows;
            k < |ws| && ws[k].peak == 0
  {
    UncutWindowIsFull(frames, |frames|, j, g);
    SilenceHasNoPeak(frames, j + 1 - g.width, j + 1);
  }

  /** The stream ends with the late closing frame: the two results differ at most in the
      start of the last window. */
  lemma LateLastFrame(base: Meter, frame: Frame, g: Grid)
    requires ValidGrid(g) && Closed(base, g.start)
    requires base.count + 1 == g.width
    ensures Finish(MeterFrame(base, frame, true, g), g)
         == Finish(MeterFrame(base, frame, false, g), g)
       <==> LastWindowAgrees(base.total + 1, g)
  {
    FrameCloses(base, frame, g);
    LateFrameCloses(base, frame, g);
    var k, n := |base.windows|, base.total + 1;
    var cut := Finish(MeterFrame(base, frame, true, g), g);
    var whole := Finish(MeterFrame(base, frame, false, g), g);
    assert Elapsed(n) > 0;
    assert cut.Metrics? && whole.Metrics?;
    assert cut.windows == base.windows + [cut.windows[k]];
    assert whole.windows == base.windows + [whole.windows[k]];
    assert cut.windows[k].startMs == g.start + Elapsed(n - g.width);
  }

  lemma LastFrameIsLate(frames: seq<Frame>, late: set<nat>, g: Grid)
    requires ValidGrid(g) && |frames| >= g.width
    requires InStep(late, |frames| - 1, g) && |frames| - 1 in late && ClosesWindow(|frames| - 1, g)
    ensures SameResult(frames, late, g) <==> LastWindowAgrees(|frames|, g)
  {
    var j := |frames| - 1;
    UncutIsRegular(frames, j, g);
    InStepMeter(frames, j, late, g);
    LateLastFrame(Measure(frames, j, {}, g), frames[j], g);
  }

  /** The least late closing frame up to `i`. */
  lemma {:induction false} LeastLateClose(late: set<nat>, i: nat, g: Grid) returns (j: nat)
    requires ValidGrid(g) && i in late && ClosesWindow(i, g)
    ensures j <= i && j in late && ClosesWindow(j, g) && InStep(late, j, g)
  {
    j := i;
    if !InStep(late, i, g) {
      var l :| l in late && l < i && ClosesWindow(l, g);
      j := LeastLateClose(late, l, g);
    }
  }

  lemma HarmlessReading(frames: seq<Frame>, late: set<nat>, g: Grid)
    requires ValidGrid(g) && Harmless(late, |frames|, g)
    ensures SameResult(frames, late, g)
  {
    var n := |frames|;
    if InStep(late, n, g) {
      InStepMeter(frames, n, late, g);
    } else {
      var i :| i in late && i < n && ClosesWindow(i, g);
      var j := LeastLateClose(late, i, g);
      LastFrameIsLate(frames, late, g);
    }
  }

  /** The first late closing frame of a reading that is not harmless. */
  lemma FirstHarm(n: nat, late: set<nat>, g: Grid) returns (j: nat)
    requires ValidGrid(g) && !Harmless(late, n, g)
    ensures j < n && j in late && ClosesWindow(j, g) && InStep(late, j, g) && j + 1 >= g.width
    ensures j + 1 == n ==> !LastWindowAgrees(n, g)
  {
    var i :| i in late && i < n && ClosesWindow(i, g) && !(i + 1 == n && n >= g.width && LastWindowAgrees(n, g));
    j := LeastLateClose(late, i, g);
    PhaseIsSmall(j, g.width);
  }

  /** A reading that is not harmless changes the result of some stream of that length. */
  lemma HarmfulReading(n: nat, late: set<nat>, g: Grid) returns (frames: seq<Frame>)
    requires ValidGrid(g) && !Harmless(late, n, g)
    ensures |frames| == n && !SameResult(frames, late, g)
  {
    var j := FirstHarm(n, late, g);
    frames := Burst(n, j + 1);
    if j + 1 < n {
      LoudFrameTells(frames, late, j, g);
    } else {
      LastFrameIsLate(frames, late, g);
    }
  }

  /** Cutting streams of `n` frames into such reads changes the result of none of them exactly
      when no read ends inside a frame that closes a window, save the very last frame when its
      window still starts where the previous one ended. */
  lemma ReadsDoNotMatterExactlyWhen(n: nat, late: set<nat>, g: Grid)
    requires ValidGrid(g)
    ensures (forall frames :: |frames| == n ==> SameResult(frames, late, g)) <==> Harmless(late, n, g)
  {
    if Harmless(late, n, g) {
      forall frames: seq<Frame> | |frames| == n
        ensures SameResult(frames, late, g)
      {
        HarmlessReading(frames, late, g);
      }
    } else {
      var frames := HarmfulReading(n, late, g);
      assert |frames| == n;
    }
  }

  // The same for reads of bytes.

  predicate SameLengths(chunks: seq<seq<Byte>>, others: seq<seq<Byte>>)
  {
    |chunks| == |others| && forall i :: 0 <= i < |chunks| ==> |chunks[i]| == |others[i]|
  }

  lemma {:induction false} LengthsTellLate(chunks: seq<seq<Byte>>, others: seq<seq<Byte>>)
    requires SameLengths(chunks, others)
    ensures |Concat(chunks)| == |Concat(others)| && Late(chunks) == Late(others)
  {
    if chunks != [] { LengthsTellLate(chunks[..|chunks| - 1], others[..|others| - 1]); }
  }

  /** The bytes in reads of the same lengths. */
  function Recut(chunks: seq<seq<Byte>>, bytes: seq<Byte>): (others: seq<seq<Byte>>)
    requires |bytes| == |Concat(chunks)|
    ensures SameLengths(chunks, others) && Concat(others) == bytes
  {
    if chunks == [] then []
    else
      var at := |Concat(chunks[..|chunks| - 1])|;
      Recut(chunks[..|chunks| - 1], bytes[..at]) + [bytes[at..]]
  }

  function BytesOf(frames: seq<Frame>): (bytes: seq<Byte>)
    ensures |bytes| == 4 * |frames|
  {
    if frames == [] then [] else BytesOf(frames[..|frames| - 1]) + frames[|frames| - 1]
  }

  lemma {:induction false} ByteAt(frames: seq<Frame>, i: nat)
    requires i < |frames|
    ensures BytesOf(frames)[4 * i..4 * i + 4] == frames[i]
  {
    var front := frames[..|frames| - 1];
    if i < |front| {
      ByteAt(front, i);
      assert BytesOf(frames)[..4 * |front|] == BytesOf(front);
      assert BytesOf(frames)[4 * i..4 * i + 4] == BytesOf(front)[4 * i..4 * i + 4];
    }
  }

  lemma FramesOfBytes(frames: seq<Frame>, rest: seq<Byte>)
    requires |rest| < 4
    ensures FramesOf(BytesOf(frames) + rest) == frames
  {
    var bytes := BytesOf(frames) + rest;
    forall i | 0 <= i < |frames| ensures FramesOf(bytes)[i] == frames[i] {
      ByteAt(frames, i);
      assert bytes[4 * i..4 * i + 4] == BytesOf(frames)[4 * i..4 * i + 4];
    }
  }

  /** The decoded range does not depend on how its bytes were read. */
  predicate ReadAsWhole(chunks: seq<seq<Byte>>, g: Grid)
  {
    SameResult(FramesOf(Concat(chunks)), Late(chunks), g)
  }

  lemma HarmlessLengths(chunks: seq<seq<Byte>>, others: seq<seq<Byte>>, g: Grid)
    requires ValidGrid(g) && Harmless(Late(chunks), |Concat(chunks)| / 4, g) && SameLengths(chunks, others)
    ensures ReadAsWhole(others, g)
  {
    LengthsTellLate(chunks, others);
    HarmlessReading(FramesOf(Concat(others)), Late(others), g);
  }

  lemma HarmfulLengths(chunks: seq<seq<Byte>>, g: Grid) returns (others: seq<seq<Byte>>)
    requires ValidGrid(g) && !Harmless(Late(chunks), |Concat(chunks)| / 4, g)
    ensures SameLengths(chunks, others) && !ReadAsWhole(others, g)
  {
    var n := |Concat(chunks)| / 4;
    var frames := HarmfulReading(n, Late(chunks), g);
    var rest := Concat(chunks)[4 * n..];
    FramesOfBytes(frames, rest);
    others := Recut(chunks, BytesOf(frames) + rest);
    LengthsTellLate(chunks, others);
  }

  /** For reads of given lengths: no stream comes out differently exactly when they are harmless. */
  lemma ReadLengthsAreHarmlessExactlyWhen(chunks: seq<seq<Byte>>, g: Grid)
    requires ValidGrid(g)
    ensures (forall others :: SameLengths(chunks, others) ==> ReadAsWhole(others, g))
            <==> Harmless(Late(chunks), |Concat(chunks)| / 4, g)
  {
    if Harmless(Late(chunks), |Concat(chunks)| / 4, g) {
      forall others | SameLengths(chunks, others) ensures ReadAsWhole(others, g) { HarmlessLengths(chunks, others, g); }
    } else {
      var others := HarmfulLengths(chunks, g);
    }
  }
}

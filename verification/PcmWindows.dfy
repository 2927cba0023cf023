/**
 Cutting decoded PCM into timed windows (decode_metrics_range in
 native_engine/src/audio_analysis.c).

 The decoder delivers the byte stream in reads of any length; a frame that spans two
 reads is completed in a carry buffer.  `Measure` says what the loop computes in terms
 of the whole stream and of the set of frames that were completed from the carry
 buffer; the lemmas say when that set does not matter and what every result looks like.
 */
module PcmWindows {

  type Byte = b: int | 0 <= b < 256

  /** One frame: a 16-bit little-endian sample for each of the two channels. */
  type Frame = f: seq<Byte> | |f| == 4 witness [0, 0, 0, 0]

  const FRAME_BYTES: nat := 4
  const DEFAULT_WINDOW_MS: int := 10

  /** What the loop sums up over the samples of the open window. */
  datatype Level = Level(peak: nat, sumSquares: nat, samples: nat)

  const SILENCE := Level(0, 0, 0)

  /** What a window keeps of them: the peak, and a level worked out from the sum of squares and
      the number of samples, which are not kept. */
  datatype Window = Window(startMs: int, endMs: int, peak: nat, rms: real)

  datatype Meter = Meter(total: nat, count: nat, level: Level, windows: seq<Window>)

  datatype Metrics = NoPcm | Metrics(windows: seq<Window>, durationMs: int)

  function WindowMs(configured: int): (ms: int)
    ensures 5 <= ms <= 100
  {
    var ms := if configured > 0 then configured else DEFAULT_WINDOW_MS;
    if ms < 5 then 5 else if ms > 100 then 100 else ms
  }

  /** The window grid of a range: window length in milliseconds and in frames (at the fixed
      rate of 44100 frames a second), the position of the range, and how a level is worked out
      from a sum of squares and a number of samples, in whatever arithmetic. */
  datatype Grid = Grid(ms: int, width: nat, start: int, rmsOf: (nat, nat) -> real)

  predicate ValidGrid(g: Grid)
  {
    5 <= g.ms <= 100 && 10 * g.width <= 441 * g.ms < 10 * g.width + 10
  }

  function GridOf(configuredMs: int, rangeStart: int, rmsOf: (nat, nat) -> real): (g: Grid)
    ensures ValidGrid(g)
  {
    var ms := WindowMs(configuredMs);
    Grid(ms, 44100 * ms / 1000, rangeStart, rmsOf)
  }

  /** Whole milliseconds played by `frames` frames. */
  function Elapsed(frames: nat): (ms: nat)
    ensures 441 * ms <= 10 * frames < 441 * (ms + 1)
  {
    frames * 1000 / 44100
  }

  // ---------- Samples ----------

  function Sample(low: Byte, high: Byte): int
  {
    var value := low + 256 * high;
    if value >= 0x8000 then value - 0x1_0000 else value
  }

  function AddSample(level: Level, value: int): Level
  {
    var size := if value < 0 then -value else value;
    Level(if size > level.peak then size else level.peak, level.sumSquares + value * value, level.samples + 1)
  }

  function AddFrame(level: Level, frame: Frame): Level
  {
    AddSample(AddSample(level, Sample(frame[0], frame[1])), Sample(frame[2], frame[3]))
  }

  function WindowOf(startMs: int, endMs: int, level: Level, g: Grid): Window
  {
    Window(startMs, endMs, level.peak, g.rmsOf(level.sumSquares, level.samples))
  }

  // ---------- Reference meaning ----------

  function Close(m: Meter, g: Grid): Meter
  {
    var end := g.start + Elapsed(m.total);
    var start := if end - g.ms < g.start then g.start else end - g.ms;
    m.(count := 0, level := SILENCE, windows := m.windows + [WindowOf(start, end, m.level, g)])
  }

  /** One more frame; a frame completed from the carry buffer never closes a window. */
  function MeterFrame(m: Meter, frame: Frame, late: bool, g: Grid): Meter
  {
    var next := Meter(m.total + 1, m.count + 1, AddFrame(m.level, frame), m.windows);
    if !late && next.count >= g.width then Close(next, g) else next
  }

  function FramesOf(bytes: seq<Byte>): (frames: seq<Frame>)
    ensures 4 * |frames| <= |bytes| < 4 * |frames| + 4
    ensures forall i :: 0 <= i < |frames| ==> frames[i] == bytes[4 * i..4 * i + 4]
  {
    seq(|bytes| / 4, i requires 0 <= i < |bytes| / 4 => bytes[4 * i..4 * i + 4])
  }

  /** The meter after the first `n` frames, those in `late` being completed from the carry. */
  function Measure(frames: seq<Frame>, n: nat, late: set<nat>, g: Grid): Meter
    requires n <= |frames|
  {
    if n == 0 then Meter(0, 0, SILENCE, [])
    else MeterFrame(Measure(frames, n - 1, late, g), frames[n - 1], n - 1 in late, g)
  }

  function LastEnd(m: Meter, rangeStart: int): int
  {
    if m.windows == [] then rangeStart else m.windows[|m.windows| - 1].endMs
  }

  /** What is reported at the end of the stream: a rest becomes a last window. */
  function Finish(m: Meter, g: Grid): Metrics
  {
    var duration := g.start + Elapsed(m.total);
    var windows := if m.count > 0 then m.windows + [WindowOf(LastEnd(m, g.start), duration, m.level, g)] else m.windows;
    if windows == [] || duration <= g.start then NoPcm else Metrics(windows, duration)
  }

  function Concat(chunks: seq<seq<Byte>>): seq<Byte>
  {
    if chunks == [] then [] else Concat(chunks[..|chunks| - 1]) + chunks[|chunks| - 1]
  }

  /** The frames that the reads complete in the carry buffer. */
  function Late(chunks: seq<seq<Byte>>): set<nat>
  {
    if chunks == [] then {}
    else
      var front := chunks[..|chunks| - 1];
      var before, after := |Concat(front)|, |Concat(chunks)|;
      Late(front) + if before % 4 != 0 && after / 4 > before / 4 then {before / 4} else {}
  }

  /** The first `k` reads end strictly inside frame `i`. */
  predicate CutAt(chunks: seq<seq<Byte>>, k: nat, i: nat)
    requires k <= |chunks|
  {
    4 * i < |Concat(chunks[..k])| < 4 * i + 4
  }

  predicate CutsInside(chunks: seq<seq<Byte>>, i: nat)
  {
    exists k :: 0 <= k <= |chunks| && CutAt(chunks, k, i)
  }

  lemma CutAtPrefix(chunks: seq<seq<Byte>>, k: nat, i: nat)
    requires k < |chunks|
    ensures CutAt(chunks[..|chunks| - 1], k, i) == CutAt(chunks, k, i)
  {
    assert chunks[..|chunks| - 1][..k] == chunks[..k];
  }

  lemma CutsInsideStep(chunks: seq<seq<Byte>>, i: nat)
    requires chunks != []
    ensures CutsInside(chunks, i) <==>
            CutsInside(chunks[..|chunks| - 1], i) || 4 * i < |Concat(chunks)| < 4 * i + 4
  {
    var n := |chunks|;
    var front := chunks[..n - 1];
    assert chunks[..n] == chunks;
    assert CutAt(chunks, n, i) <==> 4 * i < |Concat(chunks)| < 4 * i + 4;
    forall k: nat | k < n ensures CutAt(front, k, i) == CutAt(chunks, k, i) { CutAtPrefix(chunks, k, i); }
    if CutsInside(front, i) {
      var k :| 0 <= k <= n - 1 && CutAt(front, k, i);
      assert CutAt(chunks, k, i);
    }
    if CutsInside(chunks, i) {
      var k :| 0 <= k <= n && CutAt(chunks, k, i);
      if k < n { assert CutAt(front, k, i); }
    }
  }

  lemma {:induction false} CutIsBeforeTheEnd(chunks: seq<seq<Byte>>, i: nat)
    requires CutsInside(chunks, i)
    ensures 4 * i < |Concat(chunks)|
  {
    if chunks == [] {
      assert chunks[..0] == [];
    } else {
      CutsInsideStep(chunks, i);
      if CutsInside(chunks[..|chunks| - 1], i) { CutIsBeforeTheEnd(chunks[..|chunks| - 1], i); }
    }
  }

  /** A complete frame is late exactly when some read ends inside it. */
  lemma {:induction false} LateMeansCut(chunks: seq<seq<Byte>>, i: nat)
    ensures i in Late(chunks) <==> 4 * i + 4 <= |Concat(chunks)| && CutsInside(chunks, i)
  {
    if chunks != [] {
      var front := chunks[..|chunks| - 1];
      LateMeansCut(front, i);
      CutsInsideStep(chunks, i);
      if CutsInside(front, i) { CutIsBeforeTheEnd(front, i); }
      if 4 * i < |Concat(front)| < 4 * i + 4 {
        assert front[..|front|] == front;
        assert CutAt(front, |front|, i);
      }
    }
  }

  /** The meter depends on the frames measured and on which of them are late. */
  lemma {:induction false} MeasureAgrees(
      a: seq<Frame>, b: seq<Frame>, n: nat, late: set<nat>, later: set<nat>, g: Grid)
    requires n <= |a| && n <= |b| && forall i :: 0 <= i < n ==> a[i] == b[i]
    requires forall i: nat :: i < n ==> (i in late <==> i in later)
    ensures Measure(a, n, late, g) == Measure(b, n, later, g)
  {
    if n > 0 { MeasureAgrees(a, b, n - 1, late, later, g); }
  }

  // ---------- The decode loop ----------

  /** Decodes a range: the metrics, and the byte account of the loop. */
  method DecodeRange(chunks: seq<seq<Byte>>, configuredMs: int, rangeStart: int, rmsOf: (nat, nat) -> real)
    returns (metrics: Metrics, frames: nat, leftOver: nat)
    ensures 4 * frames + leftOver == |Concat(chunks)| && leftOver < FRAME_BYTES
    ensures frames == |FramesOf(Concat(chunks))|
    ensures var g := GridOf(configuredMs, rangeStart, rmsOf);
            metrics == Finish(Measure(FramesOf(Concat(chunks)), frames, Late(chunks), g), g)
  {
    var g := GridOf(configuredMs, rangeStart, rmsOf);
    var m, carry := ReadAll(chunks, g);
    frames, leftOver := m.total, |carry|;
    metrics := Flush(m, g);
  }

  /** The end of the stream: a rest becomes a last window. */
  method Flush(m: Meter, g: Grid) returns (metrics: Metrics)
    ensures metrics == Finish(m, g)
  {
    var windows := m.windows;
    if m.count > 0 {
      var end := g.start + Elapsed(m.total);
      var start := if |windows| > 0 then windows[|windows| - 1].endMs else g.start;
      windows := windows + [WindowOf(start, end, m.level, g)];
    }
    var duration := g.start + Elapsed(m.total);
    metrics := if |windows| == 0 || duration <= g.start then NoPcm else Metrics(windows, duration);
  }

  method ReadAll(chunks: seq<seq<Byte>>, g: Grid) returns (m: Meter, carry: seq<Byte>)
    ensures |carry| < FRAME_BYTES && Measured(Concat(chunks), Late(chunks), m, carry, g)
  {
    m, carry := Meter(0, 0, SILENCE, []), [];
    for k := 0 to |chunks|
      invariant |carry| < FRAME_BYTES
      invariant Measured(Concat(chunks[..k]), Late(chunks[..k]), m, carry, g)
    {
      OneMoreChunk(chunks, k);
      LateAfterFacts(Late(chunks[..k]), m.total, |carry|, |Concat(chunks[..k + 1])|);
      ghost var base, all := |Concat(chunks[..k])|, Concat(chunks[..k + 1]);
      ExtendMeasured(Concat(chunks[..k]), chunks[k], Late(chunks[..k]), Late(chunks[..k + 1]), m, carry, g);
      assert chunks[k] == all[base..];
      m, carry := ReadChunk(chunks[k], m, carry, g, all, Late(chunks[..k + 1]), base);
    }
    assert chunks[..|chunks|] == chunks;
  }

  lemma OneMoreChunk(chunks: seq<seq<Byte>>, k: nat)
    requires k < |chunks|
    ensures Concat(chunks[..k + 1]) == Concat(chunks[..k]) + chunks[k]
    ensures Late(chunks[..k + 1])
         == LateAfter(Late(chunks[..k]), |Concat(chunks[..k])|, |Concat(chunks[..k + 1])|)
  {
    assert chunks[..k + 1][..k] == chunks[..k];
  }

  /** The loop invariant: `carry` is the incomplete frame before position `at`. */
  predicate MeasuredTo(bytes: seq<Byte>, at: nat, late: set<nat>, m: Meter, carry: seq<Byte>, g: Grid)
  {
    && 4 * m.total + |carry| == at <= |bytes|
    && carry == bytes[4 * m.total..at]
    && m == Measure(FramesOf(bytes), m.total, late, g)
  }

  lemma FrameRead(bytes: seq<Byte>, at: nat, late: set<nat>, m: Meter, carry: seq<Byte>, frame: Frame, g: Grid)
    requires MeasuredTo(bytes, at, late, m, carry, g)
    requires 4 * m.total + 4 <= |bytes| && frame == bytes[4 * m.total..4 * m.total + 4]
    ensures MeasuredTo(bytes, 4 * m.total + 4, late, MeterFrame(m, frame, m.total in late, g), [], g)
  {
  }

  lemma SliceAt(all: seq<Byte>, base: nat, i: nat, j: nat)
    requires base <= |all| && i <= j <= |all| - base
    ensures all[base..][i..j] == all[base + i..base + j]
  {
  }

  lemma CarryGrows(all: seq<Byte>, base: nat, from: nat, take: nat)
    requires from <= base && base + take <= |all|
    ensures all[from..base] + all[base..][..take] == all[from..base + take]
  {
  }

  predicate Measured(bytes: seq<Byte>, late: set<nat>, m: Meter, carry: seq<Byte>, g: Grid)
  {
    MeasuredTo(bytes, |bytes|, late, m, carry, g) && forall i :: i in late ==> 4 * i + 4 <= |bytes|
  }

  ghost function LateAfter(late: set<nat>, before: nat, after: nat): set<nat>
  {
    late + if before % 4 != 0 && after / 4 > before / 4 then {before / 4} else {}
  }

  /** `later` is `late` plus the frame that a rest of the last read completes. */
  predicate NextLate(late: set<nat>, later: set<nat>, total: nat, rest: nat, after: nat)
  {
    && (rest > 0 && 4 * total + 4 <= after ==> total in later)
    && (forall i: nat :: i in later && i !in late ==> i == total && rest > 0)
    && (forall i: nat :: i < total ==> (i in late <==> i in later))
    && (forall i :: i in later ==> 4 * i + 4 <= after)
  }

  lemma LateAfterFacts(late: set<nat>, total: nat, rest: nat, after: nat)
    requires rest < 4 && 4 * total + rest <= after
    requires forall i :: i in late ==> 4 * i + 4 <= 4 * total + rest
    ensures NextLate(late, LateAfter(late, 4 * total + rest, after), total, rest, after)
  {
    assert (4 * total + rest) / 4 == total && (4 * total + rest) % 4 == rest;
  }

  lemma ExtendMeasured(bytes: seq<Byte>, more: seq<Byte>, late: set<nat>, later: set<nat>,
                       m: Meter, carry: seq<Byte>, g: Grid)
    requires Measured(bytes, late, m, carry, g)
    requires NextLate(late, later, m.total, |carry|, |bytes| + |more|)
    ensures MeasuredTo(bytes + more, |bytes|, later, m, carry, g)
  {
    var all := bytes + more;
    MeasureAgrees(FramesOf(bytes), FramesOf(all), m.total, late, later, g);
    assert carry == all[4 * m.total..|bytes|];
  }

  /** One read, `buffer`, the bytes of the stream from `base` on. */
  method ReadChunk(buffer: seq<Byte>, m0: Meter, carry0: seq<Byte>, g: Grid,
                   ghost all: seq<Byte>, ghost late: set<nat>, ghost base: nat)
    returns (m: Meter, carry: seq<Byte>)
    requires |carry0| < FRAME_BYTES && base <= |all| && buffer == all[base..]
    requires MeasuredTo(all, base, late, m0, carry0, g)
    requires carry0 != [] && m0.total * 4 + 4 <= |all| ==> m0.total in late
    requires forall i :: 4 * i >= base ==> i !in late
    ensures |carry| < FRAME_BYTES
    ensures MeasuredTo(all, |all|, late, m, carry, g)
  {
    var offset;
    m, carry, offset := CompleteCarry(buffer, m0, carry0, g, all, late, base);
    if carry == [] {
      m, offset := WholeFrames(buffer, offset, m, g, all, late, base);
      SliceAt(all, base, offset, |buffer|);
      carry := buffer[offset..];
    }
  }

  method CompleteCarry(buffer: seq<Byte>, m0: Meter, carry0: seq<Byte>, g: Grid,
                       ghost all: seq<Byte>, ghost late: set<nat>, ghost base: nat)
    returns (m: Meter, carry: seq<Byte>, offset: nat)
    requires |carry0| < FRAME_BYTES && base <= |all| && buffer == all[base..]
    requires MeasuredTo(all, base, late, m0, carry0, g)
    requires carry0 != [] && m0.total * 4 + 4 <= |all| ==> m0.total in late
    ensures offset <= |buffer| && |carry| < FRAME_BYTES && (carry != [] ==> offset == |buffer|)
    ensures MeasuredTo(all, base + offset, late, m, carry, g)
  {
    m, carry, offset := m0, carry0, 0;
    if |carry| > 0 {
      var need := FRAME_BYTES - |carry|;
      var take := if |buffer| < need then |buffer| else need;
      CarryGrows(all, base, 4 * m.total, take);
      carry := carry + buffer[..take];
      offset := take;
      if |carry| == FRAME_BYTES {
        FrameRead(all, base, late, m, carry0, carry, g);
        m := MeterFrame(m, carry, true, g);
        carry := [];
      }
    }
  }

  method WholeFrames(buffer: seq<Byte>, offset0: nat, m0: Meter, g: Grid,
                     ghost all: seq<Byte>, ghost late: set<nat>, ghost base: nat)
    returns (m: Meter, offset: nat)
    requires offset0 <= |buffer| && base <= |all| && buffer == all[base..]
    requires MeasuredTo(all, base + offset0, late, m0, [], g)
    requires forall i :: 4 * i >= base ==> i !in late
    ensures offset <= |buffer| < offset + FRAME_BYTES
    ensures MeasuredTo(all, base + offset, late, m, [], g)
  {
    m, offset := m0, offset0;
    while offset + FRAME_BYTES <= |buffer|
      invariant offset <= |buffer|
      invariant MeasuredTo(all, base + offset, late, m, [], g)
    {
      var frame := buffer[offset..offset + FRAME_BYTES];
      SliceAt(all, base, offset, offset + FRAME_BYTES);
      assert m.total !in late;
      FrameRead(all, base + offset, late, m, [], frame, g);
      offset := offset + FRAME_BYTES;
      m := MeterFrame(m, frame, false, g);
    }
  }
}

/**
 Cue, transition and end times of a track (apply_analysis,
 apply_long_track_partial_analysis and apply_long_track_fallback in
 native_engine/src/audio_analysis.c).

 `Planned`, `PlannedLong` and `FallenBack` say what the three procedures leave in the
 deck; the class carries them out field by field.  The theorems bound the times for
 every window list that decoding can produce and every setting.
 */
module CuePlan {
  import opened ActiveRuns
  import PcmWindows
  import Shape = PcmWindowsTheorems

  datatype Origin = Unplanned | Runtime | LongTrackPartial | LongTrackFallback

  /** The analysis settings of a track as they arrive; 0 or less means "use the default". */
  datatype Settings = Settings(
    windowMs: int, sustainMs: int, artifactMaxMs: int, artifactSilenceMs: int,
    gapStartDb: real, gapEndDb: real, triggerRelativeDb: real,
    fallbackMs: int, minMs: int, maxMs: int, noCrossfadeMaxMs: int)
  {
    function Positive(value: int, default: int): (r: int)
      requires default > 0
      ensures r > 0
    {
      if value > 0 then value else default
    }

    function Window(): int { Positive(windowMs, 10) }

    function Sustain(): int { Positive(sustainMs, 30) }

    function ArtifactMax(): int { Positive(artifactMaxMs, 300) }

    function ArtifactSilence(): int { Positive(artifactSilenceMs, 250) }

    function Fallback(): int { Positive(fallbackMs, 3000) }

    function MinFade(): (r: int) ensures r > 0 { Positive(minMs, 100) }

    function MaxFade(): (r: int) ensures r > 0 { Positive(maxMs, 6000) }

    function StartThreshold(): real { if gapStartDb < 0.0 then gapStartDb else -20.0 }

    function EndThreshold(): real { if gapEndDb < 0.0 then gapEndDb else -24.0 }

    function RelativeTrigger(): real { if triggerRelativeDb < 0.0 then triggerRelativeDb else -7.0 }

    function SustainWindows(): (n: nat)
      ensures n >= 1
    {
      (Sustain() + Window() - 1) / Window()
    }

    function MergeSilence(): int { if Sustain() > 120 then Sustain() else 120 }
  }

  datatype Cues = Cues(
    audioStart: int, playStart: int, cueIn: int, cueOut: int, transitionAt: int,
    effectiveEnd: int, sourceEnd: int, fadeOut: int,
    shortNoCrossfade: bool, ready: bool, failed: bool, origin: Origin,
    referenceDb: real, triggerDb: real, tailPeakDb: real, tailRmsDb: real,
    ignoredMs: int, trailingMs: int)

  // ---------- The audible part ----------

  /** Where the music ends: the windows kept, the artifact time dropped after them. */
  datatype Ending = Ending(endIndex: nat, ignoredMs: int, quiet: bool)

  /** `quiet` when no window is active at all. */
  function EndOf(s: Settings, ws: seq<LoudWindow>): (e: Ending)
    ensures e.endIndex <= |ws| && (ws != [] ==> e.endIndex > 0)
    ensures e.quiet ==> e.endIndex == |ws|
  {
    var runs := RunsUpTo(ws, s.EndThreshold(), |ws|);
    RunsAreOrdered(ws, s.EndThreshold(), |ws|);
    Kept(s, ws, Groups(ws, runs, s.MergeSilence()))
  }

  function Kept(s: Settings, ws: seq<LoudWindow>, groups: seq<Run>): (e: Ending)
    requires Spans(ws, groups)
    ensures e.endIndex <= |ws| && (ws != [] ==> e.endIndex > 0)
    ensures e.quiet ==> e.endIndex == |ws|
  {
    if groups == [] then Ending(|ws|, 0, true)
    else
      var chosen := ChosenGroup(ws, groups, |groups| - 1, s.ArtifactMax(), s.ArtifactSilence());
      Ending(groups[chosen].end, TotalDuration(ws, groups, chosen + 1), false)
  }

  method GroupRuns(ws: seq<LoudWindow>, runs: seq<Run>, mergeMs: int) returns (groups: seq<Run>)
    requires InRange(ws, runs)
    ensures groups == Groups(ws, runs, mergeMs)
  {
    var slots := new Run[|runs|](i requires 0 <= i < |runs| => runs[i]);
    assert slots[..|runs|] == runs;
    var count := MergeRuns(slots, |runs|, ws, mergeMs);
    groups := slots[..count];
  }

  method FindEnding(s: Settings, ws: seq<LoudWindow>) returns (e: Ending)
    ensures e == EndOf(s, ws)
  {
    var runs := CollectActiveRuns(ws, s.EndThreshold());
    RunsAreOrdered(ws, s.EndThreshold(), |ws|);
    var groups := GroupRuns(ws, runs, s.MergeSilence());
    e := KeepAudible(s, ws, groups);
  }

  method KeepAudible(s: Settings, ws: seq<LoudWindow>, groups: seq<Run>) returns (e: Ending)
    requires Spans(ws, groups)
    ensures e == Kept(s, ws, groups)
  {
    if |groups| == 0 {
      e := Ending(|ws|, 0, true);
    } else {
      var chosen, ignoredMs := DropTrailingArtifacts(ws, groups, s.ArtifactMax(), s.ArtifactSilence());
      e := Ending(groups[chosen].end, ignoredMs, false);
    }
  }

  function Limited(value: real, low: real, high: real): real
    requires low <= high
  {
    if value > high then high else if value < low then low else value
  }

  function Trigger(s: Settings, reference: real): real
  {
    Limited(reference + s.RelativeTrigger(), -120.0, 0.0)
  }

  // ---------- The transition ----------

  /** The start of the window after the last one of `lo..hi` that reaches `level`; `end` is
      where the search began. */
  function TriggerFrom(ws: seq<LoudWindow>, lo: nat, hi: nat, end: nat, level: real, otherwise: int): int
    requires lo <= hi <= end <= |ws|
    decreases hi
  {
    if hi == lo then otherwise
    else if ws[hi - 1].rmsDb >= level then (if hi < end then ws[hi].startMs else otherwise)
    else TriggerFrom(ws, lo, hi - 1, end, level, otherwise)
  }

  method FindTrigger(ws: seq<LoudWindow>, lo: nat, end: nat, level: real, otherwise: int) returns (triggerMs: int)
    requires lo <= end <= |ws|
    ensures triggerMs == TriggerFrom(ws, lo, end, end, level, otherwise)
  {
    triggerMs := otherwise;
    var index := end;
    while index > lo
      invariant lo <= index <= end && triggerMs == otherwise
      invariant TriggerFrom(ws, lo, index, end, level, otherwise) == TriggerFrom(ws, lo, end, end, level, otherwise)
    {
      if ws[index - 1].rmsDb >= level {
        if index < end { triggerMs := ws[index].startMs; }
        return;
      }
      index := index - 1;
    }
  }

  /** The trigger is the end of the last loud window of the span, when it is not the last of
      all; the fallback otherwise. */
  lemma {:induction false} TriggerFollowsTheLastLoud(
      ws: seq<LoudWindow>, lo: nat, hi: nat, end: nat, level: real, otherwise: int, k: nat)
    requires lo <= k < hi <= end <= |ws| && ws[k].rmsDb >= level
    requires forall j :: k < j < hi ==> ws[j].rmsDb < level
    ensures TriggerFrom(ws, lo, hi, end, level, otherwise) == if k + 1 < end then ws[k + 1].startMs else otherwise
  {
    if k + 1 < hi { TriggerFollowsTheLastLoud(ws, lo, hi - 1, end, level, otherwise, k); }
  }

  lemma {:induction false} NoTriggerInQuiet(ws: seq<LoudWindow>, lo: nat, hi: nat, end: nat, level: real,
                                            otherwise: int)
    requires lo <= hi <= end <= |ws| && forall j :: lo <= j < hi ==> ws[j].rmsDb < level
    ensures TriggerFrom(ws, lo, hi, end, level, otherwise) == otherwise
  {
    if lo < hi { NoTriggerInQuiet(ws, lo, hi - 1, end, level, otherwise); }
  }

  function FallbackTrigger(s: Settings, playStart: int, effectiveEnd: int): int
  {
    if effectiveEnd - s.Fallback() < playStart then playStart else effectiveEnd - s.Fallback()
  }

  /** The trigger moved so that the fade keeps to its limits and to the track. */
  function Crossfaded(s: Settings, playStart: int, effectiveEnd: int, trigger: int): int
  {
    var crossfade := effectiveEnd - trigger;
    var t1 := if crossfade < s.MinFade() then effectiveEnd - s.MinFade() else trigger;
    var t2 := if crossfade > s.MaxFade() then effectiveEnd - s.MaxFade() else t1;
    if t2 < playStart then playStart else t2
  }

  // ---------- The three plans ----------

  function FallenBack(s: Settings, c: Cues): Cues
  {
    var play := if c.playStart < 0 then 0 else c.playStart;
    var audio := if c.audioStart < 0 then 0 else c.audioStart;
    var source := if c.sourceEnd < play then play else c.sourceEnd;
    var effective := if c.effectiveEnd <= play || c.effectiveEnd > source then source else c.effectiveEnd;
    var t := effective - s.Fallback();
    var t1 := if t < play then play else t;
    var t2 := if t1 > effective then effective else t1;
    c.(audioStart := audio, playStart := play, sourceEnd := source, effectiveEnd := effective,
       cueIn := play, transitionAt := t2, cueOut := t2, shortNoCrossfade := false,
       ready := true, failed := false, origin := LongTrackFallback)
  }

  /** The windows played, and from where to where. */
  datatype Span = Span(startIndex: nat, endIndex: nat, playStart: int, effectiveEnd: int)

  function SpanOf(s: Settings, ws: seq<LoudWindow>, duration: int): (p: Span)
    requires ws != []
    ensures p.startIndex < p.endIndex <= |ws|
  {
    var ending := EndOf(s, ws);
    var start := if ending.quiet then 0 else FirstSustained(ws, s.StartThreshold(), s.SustainWindows(), 0);
    var from := if ending.endIndex <= start then 0 else start;
    var to := if ending.endIndex <= start then |ws| else ending.endIndex;
    if ws[to - 1].endMs <= ws[from].startMs then Span(from, to, 0, duration)
    else Span(from, to, ws[from].startMs, ws[to - 1].endMs)
  }

  function TrailingSilence(ws: seq<LoudWindow>, e: Ending, until: int): int
    requires e.endIndex <= |ws| && (ws != [] ==> e.endIndex > 0)
  {
    if e.quiet || e.endIndex >= |ws| then 0
    else if until - ws[e.endIndex - 1].endMs < 0 then 0 else until - ws[e.endIndex - 1].endMs
  }

  function Planned(s: Settings, c: Cues, ws: seq<LoudWindow>, duration: int): Cues
    requires ws != []
  {
    var e, p := EndOf(s, ws), SpanOf(s, ws, duration);
    var reference := Limited(Percentile75(Audible(ws, p.startIndex, p.endIndex)), -90.0, 0.0);
    var trigger := Trigger(s, reference);
    var first := TriggerFrom(ws, p.startIndex, p.endIndex, p.endIndex, trigger,
                             FallbackTrigger(s, p.playStart, p.effectiveEnd));
    var fade := Crossfaded(s, p.playStart, p.effectiveEnd, first);
    var length := p.effectiveEnd - p.playStart;
    var short := s.noCrossfadeMaxMs > 0 && 0 < length <= s.noCrossfadeMaxMs;
    var at := if short then p.effectiveEnd else fade;
    Cues(p.playStart, p.playStart, p.playStart, at, at, p.effectiveEnd, duration,
         if short then 0 else c.fadeOut, short, true, false, Runtime, reference, trigger,
         ws[|ws| - 1].peakDb, ws[|ws| - 1].rmsDb, e.ignoredMs, TrailingSilence(ws, e, duration))
  }

  /** The times of a long track from samples of its head and its tail. */
  function LongBounds(s: Settings, c: Cues, head: seq<LoudWindow>, tail: seq<LoudWindow>, tailDuration: int): Cues
    requires head != [] && tail != []
  {
    var play := head[FirstSustained(head, s.StartThreshold(), s.SustainWindows(), 0)].startMs;
    var source := if c.sourceEnd <= 0 then tailDuration else c.sourceEnd;
    var last := tail[EndOf(s, tail).endIndex - 1].endMs;
    c.(audioStart := play, playStart := play, cueIn := play,
       effectiveEnd := if last > source then source else last, sourceEnd := source)
  }

  function LongTransition(s: Settings, c: Cues, head: seq<LoudWindow>, tail: seq<LoudWindow>, knownEnd: int): Cues
    requires head != [] && tail != []
  {
    var start, e := FirstSustained(head, s.StartThreshold(), s.SustainWindows(), 0), EndOf(s, tail);
    var reference := Limited(Percentile75(Audible(head, start, |head|) + Audible(tail, 0, e.endIndex)), -90.0, 0.0);
    var trigger := Trigger(s, reference);
    var first := TriggerFrom(tail, 0, e.endIndex, e.endIndex, trigger,
                             FallbackTrigger(s, c.playStart, c.effectiveEnd));
    var at := Crossfaded(s, c.playStart, c.effectiveEnd, first);
    c.(shortNoCrossfade := false, transitionAt := at, cueOut := at, referenceDb := reference,
       triggerDb := trigger, ignoredMs := e.ignoredMs, trailingMs := TrailingSilence(tail, e, knownEnd),
       tailPeakDb := tail[|tail| - 1].peakDb, tailRmsDb := tail[|tail| - 1].rmsDb,
       ready := true, failed := false, origin := LongTrackPartial)
  }

  /** The plan of a long track; without samples, or with an empty span, the fallback. */
  function PlannedLong(s: Settings, c: Cues, head: seq<LoudWindow>, tail: seq<LoudWindow>, tailDuration: int): Cues
  {
    if head == [] || tail == [] then FallenBack(s, c)
    else
      var bounds := LongBounds(s, c, head, tail, tailDuration);
      if bounds.effectiveEnd <= bounds.playStart then FallenBack(s, bounds)
      else LongTransition(s, bounds, head, tail, c.sourceEnd)
  }

  /** The deck whose record the procedures overwrite. */
  class Deck {
    const settings: Settings
    var cues: Cues

    constructor (settings: Settings, cues: Cues)
      ensures this.settings == settings && this.cues == cues
    {
      this.settings := settings;
      this.cues := cues;
    }

    method ApplyLongTrackFallback()
      modifies this
      ensures cues == FallenBack(settings, old(cues))
    {
      if cues.playStart < 0 { cues := cues.(playStart := 0); }
      if cues.audioStart < 0 { cues := cues.(audioStart := 0); }
      if cues.sourceEnd < cues.playStart { cues := cues.(sourceEnd := cues.playStart); }
      if cues.effectiveEnd <= cues.playStart || cues.effectiveEnd > cues.sourceEnd {
        cues := cues.(effectiveEnd := cues.sourceEnd);
      }
      var transitionMs := cues.effectiveEnd - settings.Fallback();
      if transitionMs < cues.playStart { transitionMs := cues.playStart; }
      if transitionMs > cues.effectiveEnd { transitionMs := cues.effectiveEnd; }
      cues := cues.(cueIn := cues.playStart, transitionAt := transitionMs, cueOut := transitionMs,
                    shortNoCrossfade := false, ready := true, failed := false, origin := LongTrackFallback);
    }

    method ApplyAnalysis(ws: seq<LoudWindow>, duration: int)
      requires ws != []
      modifies this
      ensures cues == Planned(settings, old(cues), ws, duration)
    {
      var ending := FindEnding(settings, ws);
      var p := FindSpan(settings, ws, ending, duration);
      cues := cues.(audioStart := p.playStart, playStart := p.playStart, cueIn := p.playStart,
                    effectiveEnd := p.effectiveEnd, sourceEnd := duration,
                    ignoredMs := ending.ignoredMs, trailingMs := TrailingSilence(ws, ending, duration),
                    tailPeakDb := ws[|ws| - 1].peakDb, tailRmsDb := ws[|ws| - 1].rmsDb);
      cues := cues.(referenceDb := Limited(Percentile75(Audible(ws, p.startIndex, p.endIndex)), -90.0, 0.0));
      cues := cues.(triggerDb := Trigger(settings, cues.referenceDb));
      var triggerMs := FindTrigger(ws, p.startIndex, p.endIndex, cues.triggerDb,
                                   FallbackTrigger(settings, p.playStart, p.effectiveEnd));
      triggerMs := Crossfaded(settings, p.playStart, p.effectiveEnd, triggerMs);
      cues := cues.(shortNoCrossfade := false);
      var length := p.effectiveEnd - p.playStart;
      if settings.noCrossfadeMaxMs > 0 && length > 0 && length <= settings.noCrossfadeMaxMs {
        cues := cues.(shortNoCrossfade := true, fadeOut := 0);
        triggerMs := cues.effectiveEnd;
      }
      cues := cues.(transitionAt := triggerMs, cueOut := triggerMs, ready := true, failed := false, origin := Runtime);
    }

    method ApplyLongTrackPartial(head: seq<LoudWindow>, tail: seq<LoudWindow>, tailDuration: int)
      modifies this
      ensures cues == PlannedLong(settings, old(cues), head, tail, tailDuration)
    {
      if |head| == 0 || |tail| == 0 {
        ApplyLongTrackFallback();
        return;
      }
      var knownEnd := cues.sourceEnd;
      var startIndex, ending := SetLongBounds(head, tail, tailDuration);
      if cues.effectiveEnd <= cues.playStart {
        ApplyLongTrackFallback();
        return;
      }
      SetLongTransition(head, tail, startIndex, ending, knownEnd);
    }

    method SetLongBounds(head: seq<LoudWindow>, tail: seq<LoudWindow>, tailDuration: int)
      returns (startIndex: nat, ending: Ending)
      requires head != [] && tail != []
      modifies this
      ensures startIndex == FirstSustained(head, settings.StartThreshold(), settings.SustainWindows(), 0)
      ensures ending == EndOf(settings, tail)
      ensures cues == LongBounds(settings, old(cues), head, tail, tailDuration)
    {
      startIndex := SustainedStart(head, settings.StartThreshold(), settings.SustainWindows());
      ending := FindEnding(settings, tail);
      var play, effective := head[startIndex].startMs, tail[ending.endIndex - 1].endMs;
      if cues.sourceEnd <= 0 { cues := cues.(sourceEnd := tailDuration); }
      if effective > cues.sourceEnd { effective := cues.sourceEnd; }
      cues := cues.(audioStart := play, playStart := play, cueIn := play, effectiveEnd := effective);
    }

    method SetLongTransition(head: seq<LoudWindow>, tail: seq<LoudWindow>, startIndex: nat, ending: Ending,
                             knownEnd: int)
      requires head != [] && tail != []
      requires startIndex == FirstSustained(head, settings.StartThreshold(), settings.SustainWindows(), 0)
      requires ending == EndOf(settings, tail)
      modifies this
      ensures cues == LongTransition(settings, old(cues), head, tail, knownEnd)
    {
      var play, effective := cues.playStart, cues.effectiveEnd;
      cues := cues.(referenceDb := Limited(
        Percentile75(Audible(head, startIndex, |head|) + Audible(tail, 0, ending.endIndex)), -90.0, 0.0));
      cues := cues.(triggerDb := Trigger(settings, cues.referenceDb));
      var triggerMs := FindTrigger(tail, 0, ending.endIndex, cues.triggerDb,
                                   FallbackTrigger(settings, play, effective));
      triggerMs := Crossfaded(settings, play, effective, triggerMs);
      cues := cues.(shortNoCrossfade := false, transitionAt := triggerMs, cueOut := triggerMs,
                    ignoredMs := ending.ignoredMs, trailingMs := TrailingSilence(tail, ending, knownEnd),
                    tailPeakDb := tail[|tail| - 1].peakDb, tailRmsDb := tail[|tail| - 1].rmsDb,
                    ready := true, failed := false, origin := LongTrackPartial);
    }
  }

  method FindSpan(s: Settings, ws: seq<LoudWindow>, ending: Ending, duration: int) returns (p: Span)
    requires ws != [] && ending == EndOf(s, ws)
    ensures p == SpanOf(s, ws, duration)
  {
    var startIndex := SustainedStart(ws, s.StartThreshold(), s.SustainWindows());
    var endIndex := ending.endIndex;
    if ending.quiet { startIndex := 0; }
    if endIndex <= startIndex {
      startIndex := 0;
      endIndex := |ws|;
    }
    p := Span(startIndex, endIndex, ws[startIndex].startMs, ws[endIndex - 1].endMs);
    if p.effectiveEnd <= p.playStart {
      p := p.(playStart := 0, effectiveEnd := duration);
    }
  }

  // ---------- Bounds for every decodable window list ----------

  /** `ws` carries levels for the windows `times` that decoding produced. */
  predicate HasTimes(ws: seq<LoudWindow>, times: seq<PcmWindows.Window>)
  {
    |ws| == |times| && forall i :: 0 <= i < |ws| ==>
      ws[i].startMs == times[i].startMs && ws[i].endMs == times[i].endMs
  }

  /** The times are in order, and the fade is within its limits as far as the track allows. */
  predicate InOrder(c: Cues)
  {
    && 0 <= c.playStart <= c.transitionAt <= c.effectiveEnd <= c.sourceEnd
    && c.cueIn == c.playStart && c.cueOut == c.transitionAt && c.ready && !c.failed
  }

  predicate FadeWithinLimits(s: Settings, c: Cues)
  {
    var length, fade := c.effectiveEnd - c.playStart, c.effectiveEnd - c.transitionAt;
    (if s.MinFade() < length then s.MinFade() else length) <= fade <= s.MaxFade()
  }

  /** Starts and ends never go back, and stay inside the range. */
  predicate Steady(ws: seq<LoudWindow>, from: int, until: int)
  {
    forall i, j :: 0 <= i <= j < |ws| ==>
      from <= ws[i].startMs <= ws[j].startMs && ws[i].startMs <= ws[i].endMs <= ws[j].endMs <= until
  }

  lemma {:induction false} TimelineIsSteady(times: seq<PcmWindows.Window>, ws: seq<LoudWindow>, from: int)
    requires Shape.Ordered(times, from) && HasTimes(ws, times) && ws != []
    ensures Steady(ws, from, ws[|ws| - 1].endMs)
  {
    var n := |ws| - 1;
    if n > 0 {
      TimelineIsSteady(times[..n], ws[..n], from);
      assert times[..n][n - 1] == times[n - 1];
      forall i, j | 0 <= i <= j < |ws|
        ensures from <= ws[i].startMs <= ws[j].startMs
        ensures ws[i].startMs <= ws[i].endMs <= ws[j].endMs <= ws[n].endMs
      {
        assert ws[..n][n - 1] == ws[n - 1];
        if i < n { assert ws[..n][i] == ws[i]; }
        if j < n { assert ws[..n][j] == ws[j]; }
      }
    }
  }

  lemma CrossfadedIsBounded(s: Settings, playStart: int, effectiveEnd: int, trigger: int)
    requires playStart <= effectiveEnd
    ensures var t := Crossfaded(s, playStart, effectiveEnd, trigger);
            && playStart <= t <= effectiveEnd
            && (s.MinFade() <= s.MaxFade() ==>
                  (if s.MinFade() < effectiveEnd - playStart then s.MinFade() else effectiveEnd - playStart)
                  <= effectiveEnd - t <= s.MaxFade())
  {
  }

  lemma SpanIsInside(s: Settings, ws: seq<LoudWindow>, duration: int)
    requires ws != [] && duration > 0 && Steady(ws, 0, duration)
    ensures var p := SpanOf(s, ws, duration); 0 <= p.playStart < p.effectiveEnd <= duration
  {
  }

  /** Whole-track analysis: the cue times are in order and the track is not empty; the fade
      keeps its limits unless the short-track rule removes it. */
  lemma AnalysisIsInOrder(s: Settings, c: Cues, ws: seq<LoudWindow>, times: seq<PcmWindows.Window>, duration: int)
    requires Shape.Timeline(times, 0, duration) && HasTimes(ws, times)
    ensures var r := Planned(s, c, ws, duration);
            && InOrder(r) && r.playStart < r.effectiveEnd && r.sourceEnd == duration
            && r.audioStart == r.playStart && r.ignoredMs >= 0 && r.trailingMs >= 0
            && (s.MinFade() <= s.MaxFade() && !r.shortNoCrossfade ==> FadeWithinLimits(s, r))
            && (r.shortNoCrossfade <==> r.effectiveEnd - r.playStart <= s.noCrossfadeMaxMs)
            && (r.shortNoCrossfade ==> r.transitionAt == r.effectiveEnd && r.fadeOut == 0)
  {
    TimelineIsSteady(times, ws, 0);
    SpanIsInside(s, ws, duration);
    var p := SpanOf(s, ws, duration);
    var r := Planned(s, c, ws, duration);
    var first := TriggerFrom(ws, p.startIndex, p.endIndex, p.endIndex, r.triggerDb,
                             FallbackTrigger(s, p.playStart, p.effectiveEnd));
    CrossfadedIsBounded(s, p.playStart, p.effectiveEnd, first);
    IgnoredTimeIsPositive(s, ws, duration);
  }

  lemma {:induction false} TotalIsPositive(ws: seq<LoudWindow>, groups: seq<Run>, from: nat, duration: int)
    requires Spans(ws, groups) && Steady(ws, 0, duration)
    requires forall k :: 0 <= k < |groups| ==> groups[k].start < groups[k].end
    ensures TotalDuration(ws, groups, from) >= 0
    decreases |groups| - from
  {
    if from < |groups| { TotalIsPositive(ws, groups, from + 1, duration); }
  }

  predicate NonEmptyRuns(groups: seq<Run>)
  {
    forall k :: 0 <= k < |groups| ==> groups[k].start < groups[k].end
  }

  /** The last group grows to the end of a later run, or that run becomes a group. */
  lemma NextGroupIsNotEmpty(front: seq<Run>, next: Run)
    requires NonEmptyRuns(front) && front != [] && next.start < next.end && front[|front| - 1].end <= next.start
    ensures NonEmptyRuns(front[|front| - 1 := front[|front| - 1].(end := next.end)]) && NonEmptyRuns(front + [next])
  {
  }

  lemma {:induction false} GroupsAreNotEmpty(ws: seq<LoudWindow>, runs: seq<Run>, mergeMs: int, n: nat)
    requires InRange(ws, runs) && OrderedRuns(runs, n)
    ensures NonEmptyRuns(Groups(ws, runs, mergeMs))
  {
    if |runs| > 1 {
      var front, next := runs[..|runs| - 1], runs[|runs| - 1];
      GroupsAreNotEmpty(ws, front, mergeMs, n);
      assert front[|front| - 1].end < next.start;
      NextGroupIsNotEmpty(Groups(ws, front, mergeMs), next);
    }
  }

  lemma IgnoredTimeIsPositive(s: Settings, ws: seq<LoudWindow>, duration: int)
    requires Steady(ws, 0, duration)
    ensures EndOf(s, ws).ignoredMs >= 0
  {
    var runs := RunsUpTo(ws, s.EndThreshold(), |ws|);
    RunsAreOrdered(ws, s.EndThreshold(), |ws|);
    GroupsAreNotEmpty(ws, runs, s.MergeSilence(), |ws|);
    var groups := Groups(ws, runs, s.MergeSilence());
    forall from: nat ensures TotalDuration(ws, groups, from) >= 0 {
      TotalIsPositive(ws, groups, from, duration);
    }
  }

  /** The fallback is in order whatever the deck held, and fades over the fallback time as
      far as the track allows. */
  lemma FallbackIsInOrder(s: Settings, c: Cues)
    ensures InOrder(FallenBack(s, c))
    ensures var r := FallenBack(s, c);
            r.effectiveEnd - r.transitionAt
            == if r.effectiveEnd - r.playStart < s.Fallback() then r.effectiveEnd - r.playStart else s.Fallback()
  {
  }

  lemma LongTransitionIsInOrder(s: Settings, c: Cues, head: seq<LoudWindow>, tail: seq<LoudWindow>, knownEnd: int)
    requires head != [] && tail != []
    requires 0 <= c.playStart < c.effectiveEnd <= c.sourceEnd && c.cueIn == c.playStart
    ensures var r := LongTransition(s, c, head, tail, knownEnd);
            InOrder(r) && r.playStart < r.effectiveEnd && r.origin == LongTrackPartial
            && (s.MinFade() <= s.MaxFade() ==> FadeWithinLimits(s, r))
  {
    var e, r := EndOf(s, tail), LongTransition(s, c, head, tail, knownEnd);
    CrossfadedIsBounded(s, c.playStart, c.effectiveEnd,
      TriggerFrom(tail, 0, e.endIndex, e.endIndex, r.triggerDb, FallbackTrigger(s, c.playStart, c.effectiveEnd)));
  }

  /** Long tracks: in order as well; the order is strict unless the fallback was used. */
  lemma LongAnalysisIsInOrder(s: Settings, c: Cues, head: seq<LoudWindow>, tail: seq<LoudWindow>,
                              headTimes: seq<PcmWindows.Window>, tailDuration: int)
    requires head != [] ==> HasTimes(head, headTimes) && Shape.Ordered(headTimes, 0)
    ensures var r := PlannedLong(s, c, head, tail, tailDuration);
            && InOrder(r)
            && (r.origin == LongTrackFallback || r.origin == LongTrackPartial)
            && (r.origin == LongTrackPartial ==>
                  r.playStart < r.effectiveEnd && (s.MinFade() <= s.MaxFade() ==> FadeWithinLimits(s, r)))
  {
    if head == [] || tail == [] {
      FallbackIsInOrder(s, c);
    } else {
      TimelineIsSteady(headTimes, head, 0);
      var bounds := LongBounds(s, c, head, tail, tailDuration);
      if bounds.effectiveEnd <= bounds.playStart {
        FallbackIsInOrder(s, bounds);
      } else {
        LongTransitionIsInOrder(s, bounds, head, tail, c.sourceEnd);
      }
    }
  }
}

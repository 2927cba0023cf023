/**
 Where the music starts and ends (sustained_start, collect_active_runs, the in-place
 merge, the artifact loop and percentile_db of native_engine/src/audio_analysis.c).

 Window levels are arbitrary real numbers; positions are milliseconds.
 */
module ActiveRuns {

  datatype LoudWindow = LoudWindow(startMs: int, endMs: int, peakDb: real, rmsDb: real)

  /** The windows from `start` up to but not including `end`. */
  datatype Run = Run(start: nat, end: nat)

  predicate Active(w: LoudWindow, threshold: real)
  {
    w.peakDb >= threshold || w.rmsDb >= threshold
  }

  // ---------- Sustained start ----------

  predicate SustainedAt(ws: seq<LoudWindow>, threshold: real, length: nat, s: nat)
  {
    s + length <= |ws| && forall i :: s <= i < s + length ==> Active(ws[i], threshold)
  }

  /** The first window from `from` on that starts `length` active windows, or 0. */
  function FirstSustained(ws: seq<LoudWindow>, threshold: real, length: nat, from: nat): (r: nat)
    ensures r == 0 || (from <= r && SustainedAt(ws, threshold, length, r))
    ensures forall s :: from <= s && SustainedAt(ws, threshold, length, s) ==>
              r <= s && SustainedAt(ws, threshold, length, r)
    decreases |ws| - from
  {
    if from + length > |ws| then 0
    else if SustainedAt(ws, threshold, length, from) then from
    else FirstSustained(ws, threshold, length, from + 1)
  }

  method SustainedStart(ws: seq<LoudWindow>, threshold: real, length: nat) returns (start: nat)
    requires length >= 1
    ensures start == FirstSustained(ws, threshold, length, 0)
  {
    var run := 0;
    for index := 0 to |ws|
      invariant run <= index && run < length
      invariant forall i :: index - run <= i < index ==> Active(ws[i], threshold)
      invariant run < index ==> !Active(ws[index - run - 1], threshold)
      invariant forall s :: 0 <= s && s + length <= index ==> !SustainedAt(ws, threshold, length, s)
    {
      if Active(ws[index], threshold) {
        run := run + 1;
        if run >= length {
          start := index + 1 - run;
          assert SustainedAt(ws, threshold, length, start);
          forall s | 0 <= s < start ensures !SustainedAt(ws, threshold, length, s) {
            assert s <= start - 1 < s + length ==> !Active(ws[start - 1], threshold);
          }
          return;
        }
      } else {
        forall s | 0 <= s && s + length <= index + 1 ensures !SustainedAt(ws, threshold, length, s) {
          if s + length == index + 1 { assert !Active(ws[index], threshold); }
        }
        run := 0;
      }
    }
    start := 0;
  }

  // ---------- Active runs ----------

  /** The runs among the first `n` windows. */
  function RunsUpTo(ws: seq<LoudWindow>, threshold: real, n: nat): (runs: seq<Run>)
    requires n <= |ws|
    ensures n > 0 && Active(ws[n - 1], threshold) ==> runs != [] && runs[|runs| - 1].end == n
  {
    if n == 0 then []
    else
      var before := RunsUpTo(ws, threshold, n - 1);
      if !Active(ws[n - 1], threshold) then before
      else if n >= 2 && Active(ws[n - 2], threshold) then
        before[|before| - 1 := before[|before| - 1].(end := n)]
      else before + [Run(n - 1, n)]
  }

  method CollectActiveRuns(ws: seq<LoudWindow>, threshold: real) returns (runs: seq<Run>)
    ensures runs == RunsUpTo(ws, threshold, |ws|)
  {
    runs := [];
    var index := 0;
    while index < |ws|
      invariant index <= |ws|
      invariant runs == RunsUpTo(ws, threshold, index)
      invariant 0 < index < |ws| && Active(ws[index], threshold) ==> !Active(ws[index - 1], threshold)
    {
      if !Active(ws[index], threshold) {
        index := index + 1;
        continue;
      }
      var start := index;
      while index < |ws| && Active(ws[index], threshold)
        invariant start <= index <= |ws|
        invariant index == start ==> Active(ws[start], threshold)
        invariant index > start ==> Active(ws[index - 1], threshold)
        invariant RunsUpTo(ws, threshold, index) == if index == start then runs else runs + [Run(start, index)]
      {
        index := index + 1;
      }
      runs := runs + [Run(start, index)];
    }
  }

  /** A maximal active interval of the first `n` windows. */
  predicate MaximalRun(ws: seq<LoudWindow>, threshold: real, n: nat, r: Run)
    requires n <= |ws|
  {
    && r.start < r.end <= n
    && (forall i :: r.start <= i < r.end ==> Active(ws[i], threshold))
    && (r.start > 0 ==> !Active(ws[r.start - 1], threshold))
    && (r.end < n ==> !Active(ws[r.end], threshold))
  }

  predicate Covered(runs: seq<Run>, i: nat)
  {
    exists k :: 0 <= k < |runs| && runs[k].start <= i < runs[k].end
  }

  predicate OrderedRuns(runs: seq<Run>, n: nat)
  {
    && (forall k :: 0 <= k < |runs| ==> runs[k].start < runs[k].end <= n)
    && (forall j, k :: 0 <= j < k < |runs| ==> runs[j].end < runs[k].start)
  }

  lemma {:induction false} RunsAreOrdered(ws: seq<LoudWindow>, threshold: real, n: nat)
    requires n <= |ws|
    ensures OrderedRuns(RunsUpTo(ws, threshold, n), n)
    ensures n > 0 && !Active(ws[n - 1], threshold) ==> OrderedRuns(RunsUpTo(ws, threshold, n), n - 1)
  {
    if n > 0 {
      RunsAreOrdered(ws, threshold, n - 1);
      var before := RunsUpTo(ws, threshold, n - 1);
      if !Active(ws[n - 1], threshold) {
        assert OrderedRuns(before, n - 1);
      } else if n >= 2 && Active(ws[n - 2], threshold) {
        LastRunGrows(before, n);
      } else {
        NewRunFollows(before, n, n == 1 || !Active(ws[n - 2], threshold));
      }
    }
  }

  lemma LastRunGrows(runs: seq<Run>, n: nat)
    requires n > 0 && runs != [] && OrderedRuns(runs, n - 1) && runs[|runs| - 1].end == n - 1
    ensures OrderedRuns(runs[|runs| - 1 := runs[|runs| - 1].(end := n)], n)
  {
  }

  lemma NewRunFollows(runs: seq<Run>, n: nat, apart: bool)
    requires n > 0 && apart && OrderedRuns(runs, if n == 1 then 0 else n - 2)
    ensures OrderedRuns(runs + [Run(n - 1, n)], n)
  {
  }

  lemma StaysMaximal(ws: seq<LoudWindow>, threshold: real, n: nat, r: Run)
    requires 0 < n <= |ws| && MaximalRun(ws, threshold, n - 1, r)
    requires r.end < n - 1 || !Active(ws[n - 1], threshold)
    ensures MaximalRun(ws, threshold, n, r)
  {
  }

  lemma GrowsMaximal(ws: seq<LoudWindow>, threshold: real, n: nat, r: Run)
    requires 0 < n <= |ws| && MaximalRun(ws, threshold, n - 1, r)
    requires r.end == n - 1 && Active(ws[n - 1], threshold)
    ensures MaximalRun(ws, threshold, n, r.(end := n))
  {
  }

  lemma {:induction false} RunsAreMaximal(ws: seq<LoudWindow>, threshold: real, n: nat, k: nat)
    requires n <= |ws| && k < |RunsUpTo(ws, threshold, n)|
    ensures MaximalRun(ws, threshold, n, RunsUpTo(ws, threshold, n)[k])
  {
    if n > 0 {
      var before := RunsUpTo(ws, threshold, n - 1);
      RunsAreOrdered(ws, threshold, n - 1);
      if k < |before| {
        RunsAreMaximal(ws, threshold, n - 1, k);
        if before[k].end < n - 1 || !Active(ws[n - 1], threshold) {
          StaysMaximal(ws, threshold, n, before[k]);
        } else {
          assert MaximalRun(ws, threshold, n - 1, before[k]);
          assert Active(ws[n - 2], threshold);
          GrowsMaximal(ws, threshold, n, before[k]);
        }
      }
    }
  }

  lemma {:induction false} RunsCover(ws: seq<LoudWindow>, threshold: real, n: nat, i: nat)
    requires n <= |ws| && i < n && Active(ws[i], threshold)
    ensures Covered(RunsUpTo(ws, threshold, n), i)
  {
    var before, runs := RunsUpTo(ws, threshold, n - 1), RunsUpTo(ws, threshold, n);
    RunsAreOrdered(ws, threshold, n);
    if i < n - 1 {
      RunsCover(ws, threshold, n - 1, i);
      var k :| 0 <= k < |before| && before[k].start <= i < before[k].end;
      assert runs[k].start <= i < runs[k].end;
    } else {
      assert runs[|runs| - 1].start <= i < runs[|runs| - 1].end;
    }
  }

  /** Two maximal intervals around one window are the same. */
  lemma SameRun(ws: seq<LoudWindow>, threshold: real, n: nat, a: Run, b: Run, i: nat)
    requires n <= |ws| && MaximalRun(ws, threshold, n, a) && MaximalRun(ws, threshold, n, b)
    requires a.start <= i < a.end && b.start <= i < b.end
    ensures a == b
  {
    var atStarts := (a.start > 0 && Active(ws[a.start - 1], threshold))
        || (b.start > 0 && Active(ws[b.start - 1], threshold));
    var atEnds := (a.end < n && Active(ws[a.end], threshold)) || (b.end < n && Active(ws[b.end], threshold));
    assert !atStarts && !atEnds;
  }

  /** The collected runs are exactly the maximal active intervals, in order. */
  lemma RunsAreExactlyTheMaximalIntervals(ws: seq<LoudWindow>, threshold: real)
    ensures var runs := RunsUpTo(ws, threshold, |ws|);
            && (forall r :: r in runs <==> MaximalRun(ws, threshold, |ws|, r))
            && OrderedRuns(runs, |ws|)
  {
    var runs := RunsUpTo(ws, threshold, |ws|);
    RunsAreOrdered(ws, threshold, |ws|);
    forall r ensures r in runs <==> MaximalRun(ws, threshold, |ws|, r) {
      if r in runs {
        var k :| 0 <= k < |runs| && runs[k] == r;
        RunsAreMaximal(ws, threshold, |ws|, k);
      }
      if MaximalRun(ws, threshold, |ws|, r) {
        RunsCover(ws, threshold, |ws|, r.start);
        var k :| 0 <= k < |runs| && runs[k].start <= r.start < runs[k].end;
        RunsAreMaximal(ws, threshold, |ws|, k);
        SameRun(ws, threshold, |ws|, r, runs[k], r.start);
      }
    }
  }

  // ---------- Merging across short gaps ----------

  /** Runs that index `ws`, in order. */
  predicate InRange(ws: seq<LoudWindow>, runs: seq<Run>)
  {
    forall k :: 0 <= k < |runs| ==> runs[k].start < runs[k].end <= |ws|
  }

  function Gap(ws: seq<LoudWindow>, before: Run, after: Run): int
    requires before.start < before.end <= |ws| && after.start < after.end <= |ws|
  {
    ws[after.start].startMs - ws[before.end - 1].endMs
  }

  /** Runs joined whenever the gap to the previous one is at most `mergeMs`. */
  function Groups(ws: seq<LoudWindow>, runs: seq<Run>, mergeMs: int): (groups: seq<Run>)
    requires InRange(ws, runs)
    ensures |groups| <= |runs| && (groups == [] <==> runs == [])
    ensures runs != [] ==> groups[|groups| - 1].end == runs[|runs| - 1].end
    ensures forall k :: 0 <= k < |groups| ==> 0 < groups[k].end <= |ws| && groups[k].start < |ws|
  {
    if |runs| <= 1 then runs
    else
      var front := Groups(ws, runs[..|runs| - 1], mergeMs);
      var next := runs[|runs| - 1];
      if ws[next.start].startMs - ws[front[|front| - 1].end - 1].endMs <= mergeMs
      then front[|front| - 1 := front[|front| - 1].(end := next.end)]
      else front + [next]
  }

  lemma GroupsStep(ws: seq<LoudWindow>, runs: seq<Run>, r: nat, mergeMs: int)
    requires InRange(ws, runs) && 0 < r < |runs|
    ensures var front, w := Groups(ws, runs[..r], mergeMs), |Groups(ws, runs[..r], mergeMs)| - 1;
            Groups(ws, runs[..r + 1], mergeMs)
            == if ws[runs[r].start].startMs - ws[front[w].end - 1].endMs <= mergeMs
               then front[w := front[w].(end := runs[r].end)] else front + [runs[r]]
  {
    assert runs[..r + 1][..r] == runs[..r];
  }

  lemma WriteSlot(all: seq<Run>, w: nat, r: nat, v: Run)
    requires w <= r < |all|
    ensures all[w := v][..w] == all[..w] && all[w := v][..w + 1] == all[..w] + [v]
    ensures all[w := v][r + 1..] == all[r..][1..]
    ensures all[..w + 1][w := v] == all[..w] + [v]
  {
  }

  /** The loop invariant of the merge: `all` is the array, written up to `w` and read up
      to `r`. */
  predicate Merging(ws: seq<LoudWindow>, before: seq<Run>, all: seq<Run>, w: nat, r: nat, mergeMs: int)
    requires InRange(ws, before)
  {
    && w < r <= |all| == |before|
    && all[..w + 1] == Groups(ws, before[..r], mergeMs)
    && all[r..] == before[r..]
  }

  lemma MergeReads(ws: seq<LoudWindow>, before: seq<Run>, all: seq<Run>, w: nat, r: nat, mergeMs: int)
    requires InRange(ws, before) && Merging(ws, before, all, w, r, mergeMs) && r < |all|
    ensures all[r] == before[r] && all[w] == Groups(ws, before[..r], mergeMs)[w]
    ensures w == |Groups(ws, before[..r], mergeMs)| - 1
  {
    assert all[r] == all[r..][0] && before[r] == before[r..][0];
    assert all[w] == all[..w + 1][w];
  }

  /** The next groups, from the array before the next run is read. */
  lemma NextGroups(ws: seq<LoudWindow>, before: seq<Run>, all: seq<Run>, w: nat, r: nat, mergeMs: int)
    requires InRange(ws, before) && Merging(ws, before, all, w, r, mergeMs) && r < |all|
    requires all[r].start < |ws| && 0 < all[w].end <= |ws|
    ensures Groups(ws, before[..r + 1], mergeMs)
         == if ws[all[r].start].startMs - ws[all[w].end - 1].endMs <= mergeMs
            then all[..w + 1][w := all[w].(end := all[r].end)] else all[..w + 1] + [all[r]]
  {
    MergeReads(ws, before, all, w, r, mergeMs);
    GroupsStep(ws, before, r, mergeMs);
  }

  lemma MergeJoins(ws: seq<LoudWindow>, before: seq<Run>, all: seq<Run>, w: nat, r: nat, mergeMs: int)
    requires InRange(ws, before) && Merging(ws, before, all, w, r, mergeMs) && r < |all|
    requires all[r].start < |ws| && 0 < all[w].end <= |ws|
    requires ws[all[r].start].startMs - ws[all[w].end - 1].endMs <= mergeMs
    ensures Merging(ws, before, all[w := all[w].(end := all[r].end)], w, r + 1, mergeMs)
  {
    NextGroups(ws, before, all, w, r, mergeMs);
    WriteSlot(all, w, r, all[w].(end := all[r].end));
    assert before[r..][1..] == before[r + 1..];
  }

  lemma MergeSplits(ws: seq<LoudWindow>, before: seq<Run>, all: seq<Run>, w: nat, r: nat, mergeMs: int)
    requires InRange(ws, before) && Merging(ws, before, all, w, r, mergeMs) && r < |all|
    requires all[r].start < |ws| && 0 < all[w].end <= |ws|
    requires ws[all[r].start].startMs - ws[all[w].end - 1].endMs > mergeMs
    ensures Merging(ws, before, all[w + 1 := all[r]], w + 1, r + 1, mergeMs)
  {
    NextGroups(ws, before, all, w, r, mergeMs);
    WriteSlot(all, w + 1, r, all[r]);
    assert before[r..][1..] == before[r + 1..];
  }

  /** The merge as the source does it, in the array itself. */
  method MergeRuns(runs: array<Run>, count: nat, ws: seq<LoudWindow>, mergeMs: int) returns (merged: nat)
    requires count <= runs.Length && InRange(ws, runs[..count])
    modifies runs
    ensures merged <= count && runs[..merged] == Groups(ws, old(runs[..count]), mergeMs)
  {
    merged := count;
    if count > 1 {
      ghost var before := runs[..count];
      var writeIndex := 0;
      for readIndex := 1 to count
        invariant Merging(ws, before, runs[..count], writeIndex, readIndex, mergeMs)
      {
        ghost var all := runs[..count];
        MergeReads(ws, before, all, writeIndex, readIndex, mergeMs);
        var silenceMs := ws[runs[readIndex].start].startMs - ws[runs[writeIndex].end - 1].endMs;
        if silenceMs <= mergeMs {
          MergeJoins(ws, before, all, writeIndex, readIndex, mergeMs);
          runs[writeIndex] := runs[writeIndex].(end := runs[readIndex].end);
        } else {
          MergeSplits(ws, before, all, writeIndex, readIndex, mergeMs);
          writeIndex := writeIndex + 1;
          runs[writeIndex] := runs[readIndex];
        }
        assert runs[..count] == all[writeIndex := runs[writeIndex]];
      }
      merged := writeIndex + 1;
      assert before[..count] == before && runs[..merged] == runs[..count][..merged];
    }
  }

  /** The indices of the runs that follow a gap above `mergeMs`, and of the first run. */
  function Cuts(ws: seq<LoudWindow>, runs: seq<Run>, mergeMs: int): (cuts: seq<nat>)
    requires InRange(ws, runs)
    ensures runs != [] ==> cuts != [] && cuts[0] == 0
    ensures forall g :: 0 <= g < |cuts| ==> cuts[g] < |runs|
  {
    var n := |runs|;
    if n == 0 then []
    else if n == 1 then [0]
    else Cuts(ws, runs[..n - 1], mergeMs) + if Gap(ws, runs[n - 2], runs[n - 1]) > mergeMs then [n - 1] else []
  }

  lemma {:induction false} CutsAreTheGaps(ws: seq<LoudWindow>, runs: seq<Run>, mergeMs: int, i: nat)
    requires InRange(ws, runs) && 0 < i < |runs|
    ensures i in Cuts(ws, runs, mergeMs) <==> Gap(ws, runs[i - 1], runs[i]) > mergeMs
  {
    var n := |runs|;
    if i < n - 1 { CutsAreTheGaps(ws, runs[..n - 1], mergeMs, i); }
  }

  /** The end of group `g`: the run before the next cut. */
  function GroupEnd(cuts: seq<nat>, g: nat, n: nat): nat
    requires g < |cuts|
  {
    if g + 1 < |cuts| then cuts[g + 1] else n
  }

  /** Group `g` spans the runs from its cut up to the next one. */
  predicate SpansCut(runs: seq<Run>, groups: seq<Run>, cuts: seq<nat>, g: nat)
    requires |groups| == |cuts| && g < |cuts|
  {
    && cuts[g] < GroupEnd(cuts, g, |runs|) <= |runs|
    && groups[g] == Run(runs[cuts[g]].start, runs[GroupEnd(cuts, g, |runs|) - 1].end)
  }

  predicate SplitAtCuts(runs: seq<Run>, groups: seq<Run>, cuts: seq<nat>)
  {
    |groups| == |cuts| && forall g :: 0 <= g < |cuts| ==> SpansCut(runs, groups, cuts, g)
  }

  /** The groups split the runs exactly at the cuts. */
  lemma {:induction false} GroupsSplitAtCuts(ws: seq<LoudWindow>, runs: seq<Run>, mergeMs: int)
    requires InRange(ws, runs)
    ensures SplitAtCuts(runs, Groups(ws, runs, mergeMs), Cuts(ws, runs, mergeMs))
  {
    var n := |runs|;
    if n == 1 {
      assert SpansCut(runs, runs, [0], 0);
    } else if n > 1 {
      GroupsSplitAtCuts(ws, runs[..n - 1], mergeMs);
      LastGap(ws, runs, mergeMs);
    }
  }

  lemma LastGap(ws: seq<LoudWindow>, runs: seq<Run>, mergeMs: int)
    requires InRange(ws, runs) && |runs| > 1
    requires var front := runs[..|runs| - 1]; SplitAtCuts(front, Groups(ws, front, mergeMs), Cuts(ws, front, mergeMs))
    ensures SplitAtCuts(runs, Groups(ws, runs, mergeMs), Cuts(ws, runs, mergeMs))
  {
    var front, next := runs[..|runs| - 1], runs[|runs| - 1];
    var groups, cuts := Groups(ws, front, mergeMs), Cuts(ws, front, mergeMs);
    assert groups[|groups| - 1].end == runs[|runs| - 2].end;
    if Gap(ws, runs[|runs| - 2], next) > mergeMs {
      SplitLast(runs, groups, cuts);
    } else {
      JoinLast(runs, groups, cuts);
      assert cuts + [] == cuts;
    }
  }

  lemma SplitLast(runs: seq<Run>, groups: seq<Run>, cuts: seq<nat>)
    requires |runs| > 1 && cuts != [] && SplitAtCuts(runs[..|runs| - 1], groups, cuts)
    ensures SplitAtCuts(runs, groups + [runs[|runs| - 1]], cuts + [|runs| - 1])
  {
    var more, all := cuts + [|runs| - 1], groups + [runs[|runs| - 1]];
    forall g | 0 <= g < |more| ensures SpansCut(runs, all, more, g) {
      if g < |cuts| {
        assert SpansCut(runs[..|runs| - 1], groups, cuts, g);
        assert GroupEnd(more, g, |runs|) == GroupEnd(cuts, g, |runs| - 1);
      }
    }
  }

  lemma JoinLast(runs: seq<Run>, groups: seq<Run>, cuts: seq<nat>)
    requires |runs| > 1 && cuts != [] && SplitAtCuts(runs[..|runs| - 1], groups, cuts)
    ensures var w := |groups| - 1;
            SplitAtCuts(runs, groups[w := groups[w].(end := runs[|runs| - 1].end)], cuts)
  {
    var w := |groups| - 1;
    var all := groups[w := groups[w].(end := runs[|runs| - 1].end)];
    forall g | 0 <= g < |cuts| ensures SpansCut(runs, all, cuts, g) {
      assert SpansCut(runs[..|runs| - 1], groups, cuts, g);
    }
  }

  // ---------- Trailing artifacts ----------

  function Duration(ws: seq<LoudWindow>, r: Run): int
    requires r.start < |ws| && 0 < r.end <= |ws|
  {
    ws[r.end - 1].endMs - ws[r.start].startMs
  }

  predicate Spans(ws: seq<LoudWindow>, groups: seq<Run>)
  {
    forall k :: 0 <= k < |groups| ==> groups[k].start < |ws| && 0 < groups[k].end <= |ws|
  }

  /** Group `k` is short and comes after a long silence. */
  predicate IsArtifact(ws: seq<LoudWindow>, groups: seq<Run>, k: nat, maxMs: int, silenceMs: int)
    requires Spans(ws, groups) && 0 < k < |groups|
  {
    && Duration(ws, groups[k]) <= maxMs
    && ws[groups[k].start].startMs - ws[groups[k - 1].end - 1].endMs >= silenceMs
  }

  function TotalDuration(ws: seq<LoudWindow>, groups: seq<Run>, from: nat): int
    requires Spans(ws, groups)
    decreases |groups| - from
  {
    if from >= |groups| then 0 else Duration(ws, groups[from]) + TotalDuration(ws, groups, from + 1)
  }

  /** The last group that is not an artifact, or the first group; the groups after it are
      artifacts, and their total length is reported. */
  method DropTrailingArtifacts(ws: seq<LoudWindow>, groups: seq<Run>, maxMs: int, silenceMs: int)
    returns (chosen: nat, ignoredMs: int)
    requires Spans(ws, groups) && groups != []
    ensures chosen < |groups|
    ensures chosen > 0 ==> !IsArtifact(ws, groups, chosen, maxMs, silenceMs)
    ensures forall k :: chosen < k < |groups| ==> IsArtifact(ws, groups, k, maxMs, silenceMs)
    ensures ignoredMs == TotalDuration(ws, groups, chosen + 1)
    ensures chosen == ChosenGroup(ws, groups, |groups| - 1, maxMs, silenceMs)
  {
    chosen, ignoredMs := |groups| - 1, 0;
    while chosen > 0
      invariant chosen < |groups|
      invariant forall k :: chosen < k < |groups| ==> IsArtifact(ws, groups, k, maxMs, silenceMs)
      invariant ignoredMs == TotalDuration(ws, groups, chosen + 1)
      invariant ChosenGroup(ws, groups, chosen, maxMs, silenceMs)
                == ChosenGroup(ws, groups, |groups| - 1, maxMs, silenceMs)
    {
      var current, previous := groups[chosen], groups[chosen - 1];
      var duration := ws[current.end - 1].endMs - ws[current.start].startMs;
      var silence := ws[current.start].startMs - ws[previous.end - 1].endMs;
      if duration <= maxMs && silence >= silenceMs {
        ignoredMs := ignoredMs + duration;
        chosen := chosen - 1;
        continue;
      }
      break;
    }
  }

  function ChosenGroup(ws: seq<LoudWindow>, groups: seq<Run>, k: nat, maxMs: int, silenceMs: int): (chosen: nat)
    requires Spans(ws, groups) && k < |groups|
    ensures chosen <= k
  {
    if k > 0 && IsArtifact(ws, groups, k, maxMs, silenceMs)
    then ChosenGroup(ws, groups, k - 1, maxMs, silenceMs) else k
  }

  // ---------- Reference level ----------

  function Audible(ws: seq<LoudWindow>, start: nat, end: nat): seq<real>
    requires start <= end <= |ws|
  {
    if start == end then []
    else Audible(ws, start, end - 1) + if ws[end - 1].rmsDb >= -90.0 then [ws[end - 1].rmsDb] else []
  }

  function Insert(sorted: seq<real>, v: real): seq<real>
  {
    if sorted == [] || v <= sorted[0] then [v] + sorted else [sorted[0]] + Insert(sorted[1..], v)
  }

  function Ascending(values: seq<real>): seq<real>
  {
    if values == [] then [] else Insert(Ascending(values[1..]), values[0])
  }

  predicate IsAscending(values: seq<real>)
  {
    forall i, j :: 0 <= i < j < |values| ==> values[i] <= values[j]
  }

  function CountAtMost(values: seq<real>, v: real): (n: nat)
    ensures n <= |values|
  {
    if values == [] then 0 else CountAtMost(values[1..], v) + if values[0] <= v then 1 else 0
  }

  function CountAtLeast(values: seq<real>, v: real): (n: nat)
    ensures n <= |values|
  {
    if values == [] then 0 else CountAtLeast(values[1..], v) + if values[0] >= v then 1 else 0
  }

  lemma {:induction false} InsertCounts(sorted: seq<real>, v: real, x: real)
    ensures |Insert(sorted, v)| == |sorted| + 1
    ensures CountAtMost(Insert(sorted, v), x) == CountAtMost(sorted, x) + if v <= x then 1 else 0
    ensures CountAtLeast(Insert(sorted, v), x) == CountAtLeast(sorted, x) + if v >= x then 1 else 0
  {
    if sorted == [] || v <= sorted[0] {
      assert Insert(sorted, v)[1..] == sorted;
    } else {
      InsertCounts(sorted[1..], v, x);
      assert Insert(sorted, v)[1..] == Insert(sorted[1..], v);
    }
  }

  lemma {:induction false} InsertKeepsOrder(sorted: seq<real>, v: real)
    requires IsAscending(sorted)
    ensures IsAscending(Insert(sorted, v))
    ensures Insert(sorted, v)[0] == v || (sorted != [] && Insert(sorted, v)[0] == sorted[0])
  {
    if sorted != [] && v > sorted[0] {
      InsertKeepsOrder(sorted[1..], v);
      var rest := Insert(sorted[1..], v);
      assert sorted[0] <= rest[0];
      assert Insert(sorted, v) == [sorted[0]] + rest;
    }
  }

  lemma {:induction false} AscendingSorts(values: seq<real>)
    ensures IsAscending(Ascending(values)) && |Ascending(values)| == |values|
  {
    if values != [] {
      AscendingSorts(values[1..]);
      InsertKeepsOrder(Ascending(values[1..]), values[0]);
      InsertCounts(Ascending(values[1..]), values[0], 0.0);
    }
  }

  lemma {:induction false} AscendingCounts(values: seq<real>, x: real)
    ensures CountAtMost(Ascending(values), x) == CountAtMost(values, x)
    ensures CountAtLeast(Ascending(values), x) == CountAtLeast(values, x)
  {
    if values != [] {
      AscendingCounts(values[1..], x);
      InsertCounts(Ascending(values[1..]), values[0], x);
    }
  }

  lemma {:induction false} OrderedCounts(sorted: seq<real>, t: nat)
    requires IsAscending(sorted) && t < |sorted|
    ensures CountAtMost(sorted, sorted[t]) >= t + 1
    ensures CountAtLeast(sorted, sorted[t]) >= |sorted| - t
  {
    var rest := sorted[1..];
    if t > 0 {
      assert rest[t - 1] == sorted[t];
      OrderedCounts(rest, t - 1);
    } else if rest != [] {
      OrderedCounts(rest, 0);
      CountAtLeastFalls(rest, sorted[0], rest[0]);
    }
  }

  lemma {:induction false} CountAtLeastFalls(values: seq<real>, lo: real, hi: real)
    requires lo <= hi
    ensures CountAtLeast(values, lo) >= CountAtLeast(values, hi)
  {
    if values != [] { CountAtLeastFalls(values[1..], lo, hi); }
  }

  function Rank75(n: nat): nat
    requires n > 0
  {
    (3 * (n - 1) + 2) / 4
  }

  /** The 75th percentile by nearest rank; -24 dB when nothing is audible. */
  function Percentile75(values: seq<real>): (r: real)
    ensures values != [] ==> CountAtMost(values, r) >= Rank75(|values|) + 1
                             && CountAtLeast(values, r) >= |values| - Rank75(|values|)
  {
    if values == [] then -24.0
    else
      AscendingSorts(values);
      var r := Ascending(values)[Rank75(|values|)];
      OrderedCounts(Ascending(values), Rank75(|values|));
      AscendingCounts(values, r);
      r
  }
}

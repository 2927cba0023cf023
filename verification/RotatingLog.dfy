/**
 The rotating protocol log (JsonlProtocolLogger in audio_engine/protocol.py): a current
 file, numbered backups, and a write that rotates first when the line would not fit.
 */
module RotatingLog {

  /** A line and the number of bytes it takes on disk, the line break included. */
  datatype Line = Line(text: string, size: nat)

  datatype Current = Missing | Present(lines: seq<Line>)

  /** The files of the log: the current one and the backups by their number. */
  datatype Files = Files(current: Current, backups: map<nat, seq<Line>>)

  function Size(lines: seq<Line>): nat
  {
    if lines == [] then 0 else Size(lines[..|lines| - 1]) + lines[|lines| - 1].size
  }

  function CurrentLines(f: Files): seq<Line>
  {
    if f.current.Missing? then [] else f.current.lines
  }

  predicate NeedsRotation(f: Files, incoming: nat, maxBytes: nat, backupCount: nat)
  {
    backupCount > 0 && f.current.Present? && Size(f.current.lines) + incoming > maxBytes
  }

  /** Every backup moves up by one, the oldest is lost, and the current file becomes the
      first backup. */
  function Rotated(f: Files, backupCount: nat): Files
    requires backupCount > 0 && f.current.Present?
  {
    Files(Missing,
          map i | i in MovedUp(f.backups) + {1}
                  && if 1 <= i <= backupCount then i == 1 || i - 1 in f.backups else i in f.backups
            :: if i == 1 then f.current.lines else if 1 < i <= backupCount then f.backups[i - 1] else f.backups[i])
  }

  function MovedUp(backups: map<nat, seq<Line>>): set<nat>
  {
    backups.Keys + set i | i in backups :: i + 1
  }

  function Written(f: Files, line: Line, maxBytes: nat, backupCount: nat): Files
  {
    var r := if NeedsRotation(f, line.size, maxBytes, backupCount) then Rotated(f, backupCount) else f;
    r.(current := Present(CurrentLines(r) + [line]))
  }

  function Pruned(f: Files, maxBytes: nat, backupCount: nat): Files
  {
    f.(backups := map i | i in f.backups && 1 <= i <= backupCount && Size(f.backups[i]) <= maxBytes :: f.backups[i])
  }

  /** The logger, its files changed in place. */
  class Logger {
    const maxBytes: nat
    const backupCount: nat
    var files: Files

    constructor (found: Files, maxBytes: int, backupCount: int)
      ensures this.maxBytes == (if maxBytes < 1_000_000 then 1_000_000 else maxBytes)
      ensures this.backupCount == (if backupCount < 0 then 0 else backupCount)
      ensures files == Pruned(found, this.maxBytes, this.backupCount)
    {
      this.maxBytes := if maxBytes < 1_000_000 then 1_000_000 else maxBytes;
      this.backupCount := if backupCount < 0 then 0 else backupCount;
      files := found;
      new;
      Prune();
    }

    /** Looks at every backup left by an earlier run. */
    method Prune()
      modifies this
      ensures files == Pruned(old(files), maxBytes, backupCount)
    {
      var left := files.backups.Keys;
      while left != {}
        invariant files.current == old(files.current) && left <= old(files.backups).Keys
        invariant files.backups.Keys <= old(files.backups).Keys
        invariant forall i :: i in files.backups ==> files.backups[i] == old(files.backups)[i]
        invariant forall i :: i in left ==> i in files.backups
        invariant forall i :: i in old(files.backups).Keys - left ==>
          (i in files.backups <==> 1 <= i <= backupCount && Size(old(files.backups)[i]) <= maxBytes)
        decreases |left|
      {
        var i :| i in left;
        var oversized := Size(files.backups[i]) > maxBytes;
        if oversized || i < 1 || i > backupCount {
          files := files.(backups := files.backups - {i});
        }
        left := left - {i};
      }
    }

    /** Makes room for a new first backup: the oldest one is removed, the others move up. */
    static method ShiftBackups(before: map<nat, seq<Line>>, backupCount: nat) returns (backups: map<nat, seq<Line>>)
      requires backupCount > 0
      ensures 1 !in backups
      ensures forall i :: 1 < i <= backupCount ==>
        (i in backups <==> i - 1 in before) && (i - 1 in before ==> backups[i] == before[i - 1])
      ensures forall i :: i == 0 || i > backupCount ==>
        (i in backups <==> i in before) && (i in before ==> backups[i] == before[i])
    {
      backups := before - {backupCount};
      var index := backupCount - 1;
      while index > 0
        invariant 0 <= index < backupCount
        invariant forall i :: i <= index || i > backupCount ==>
          (i in backups <==> i in before) && (i in before ==> backups[i] == before[i])
        invariant forall i :: index + 1 < i <= backupCount ==>
          (i in backups <==> i - 1 in before) && (i - 1 in before ==> backups[i] == before[i - 1])
        invariant index + 1 !in backups
      {
        if index in backups {
          backups := backups[index + 1 := backups[index]] - {index};
        }
        index := index - 1;
      }
    }

    method RotateIfNeeded(incoming: nat)
      modifies this
      ensures files == if NeedsRotation(old(files), incoming, maxBytes, backupCount)
                       then Rotated(old(files), backupCount) else old(files)
    {
      if backupCount <= 0 || files.current.Missing? { return; }
      if Size(files.current.lines) + incoming <= maxBytes { return; }
      var backups := ShiftBackups(files.backups, backupCount);
      files := Files(Missing, backups[1 := files.current.lines]);
      assert files.backups == Rotated(old(files), backupCount).backups;
    }

    method WriteLine(line: Line)
      modifies this
      ensures files == Written(old(files), line, maxBytes, backupCount)
    {
      RotateIfNeeded(line.size);
      files := files.(current := Present(CurrentLines(files) + [line]));
    }
  }

  // ---------- What the files hold ----------

  /** The lines of the backups from number `n` down to 1. */
  function Archive(backups: map<nat, seq<Line>>, n: nat): seq<Line>
  {
    if n == 0 then [] else (if n in backups then backups[n] else []) + Archive(backups, n - 1)
  }

  /** Everything on disk, oldest first. */
  function OnDisk(f: Files, backupCount: nat): seq<Line>
  {
    Archive(f.backups, backupCount) + CurrentLines(f)
  }

  predicate IsSuffix(a: seq<Line>, b: seq<Line>)
  {
    |a| <= |b| && b[|b| - |a|..] == a
  }

  lemma {:induction false} RotatedArchive(f: Files, backupCount: nat, n: nat)
    requires f.current.Present? && n < backupCount
    ensures Archive(Rotated(f, backupCount).backups, n + 1) == Archive(f.backups, n) + f.current.lines
  {
    var r := Rotated(f, backupCount).backups;
    if n == 0 {
      assert Archive(r, 0) == [];
      assert 1 in r && r[1] == f.current.lines;
    } else {
      RotatedArchive(f, backupCount, n - 1);
      assert n in f.backups ==> n + 1 in MovedUp(f.backups);
      assert n + 1 in r <==> n in f.backups;
    }
  }

  /** A write adds its line at the end and loses exactly the oldest backup when it rotates,
      nothing otherwise. */
  lemma WriteAppends(f: Files, line: Line, maxBytes: nat, backupCount: nat)
    ensures var lost := if NeedsRotation(f, line.size, maxBytes, backupCount) && backupCount in f.backups
                        then f.backups[backupCount] else [];
            lost + OnDisk(Written(f, line, maxBytes, backupCount), backupCount) == OnDisk(f, backupCount) + [line]
  {
    if NeedsRotation(f, line.size, maxBytes, backupCount) {
      RotatedArchive(f, backupCount, backupCount - 1);
    }
  }

  function WrittenAll(f: Files, lines: seq<Line>, maxBytes: nat, backupCount: nat): Files
  {
    if lines == [] then f
    else Written(WrittenAll(f, lines[..|lines| - 1], maxBytes, backupCount), lines[|lines| - 1], maxBytes, backupCount)
  }

  lemma SuffixOfLonger(a: seq<Line>, b: seq<Line>, lost: seq<Line>, c: seq<Line>, line: Line)
    requires IsSuffix(a, b) && lost + c == a + [line]
    ensures IsSuffix(c, b + [line])
  {
    assert c == (a + [line])[|lost|..];
    assert (b + [line])[|b| - |a|..] == a + [line];
    assert (b + [line])[|b + [line]| - |c|..] == (b + [line])[|b| - |a|..][|lost|..];
  }

  lemma WriteKeepsSuffix(g: Files, line: Line, all: seq<Line>, maxBytes: nat, backupCount: nat)
    requires IsSuffix(OnDisk(g, backupCount), all)
    ensures IsSuffix(OnDisk(Written(g, line, maxBytes, backupCount), backupCount), all + [line])
  {
    WriteAppends(g, line, maxBytes, backupCount);
    var lost := if NeedsRotation(g, line.size, maxBytes, backupCount) && backupCount in g.backups
                then g.backups[backupCount] else [];
    SuffixOfLonger(OnDisk(g, backupCount), all, lost, OnDisk(Written(g, line, maxBytes, backupCount), backupCount),
                   line);
  }

  /** After any run of writes the files hold a contiguous suffix of all lines: those found
      at the start followed by those written. */
  lemma {:induction false} DiskIsASuffix(f: Files, lines: seq<Line>, maxBytes: nat, backupCount: nat)
    ensures IsSuffix(OnDisk(WrittenAll(f, lines, maxBytes, backupCount), backupCount), OnDisk(f, backupCount) + lines)
  {
    if lines == [] {
      assert OnDisk(f, backupCount) + lines == OnDisk(f, backupCount);
    } else {
      var front, line := lines[..|lines| - 1], lines[|lines| - 1];
      var start, g := OnDisk(f, backupCount), WrittenAll(f, front, maxBytes, backupCount);
      assert start + lines == start + front + [line] by { assert lines == front + [line]; }
      DiskIsASuffix(f, front, maxBytes, backupCount);
      WriteKeepsSuffix(g, line, start + front, maxBytes, backupCount);
    }
  }

  // ---------- Number and size of the files ----------

  predicate Numbered(f: Files, backupCount: nat)
  {
    forall i :: i in f.backups ==> 1 <= i <= backupCount
  }

  predicate Fits(f: Files, maxBytes: nat)
  {
    Size(CurrentLines(f)) <= maxBytes && forall i :: i in f.backups ==> Size(f.backups[i]) <= maxBytes
  }

  function FileCount(f: Files): nat
  {
    |f.backups| + if f.current.Present? then 1 else 0
  }

  lemma {:induction false} AtMostN(s: set<nat>, n: nat)
    requires forall i :: i in s ==> 1 <= i <= n
    ensures |s| <= n
  {
    if n == 0 {
      assert s == {};
    } else {
      AtMostN(s - {n}, n - 1);
    }
  }

  /** The number of files stays within backupCount + 1. */
  lemma {:induction false} FilesAreFew(f: Files, lines: seq<Line>, maxBytes: nat, backupCount: nat)
    requires Numbered(f, backupCount)
    ensures var g := WrittenAll(f, lines, maxBytes, backupCount);
            Numbered(g, backupCount) && FileCount(g) <= backupCount + 1
  {
    if lines != [] { FilesAreFew(f, lines[..|lines| - 1], maxBytes, backupCount); }
    AtMostN(WrittenAll(f, lines, maxBytes, backupCount).backups.Keys, backupCount);
  }

  lemma WriteFits(f: Files, line: Line, maxBytes: nat, backupCount: nat)
    requires Fits(f, maxBytes) && line.size <= maxBytes && backupCount > 0
    ensures Fits(Written(f, line, maxBytes, backupCount), maxBytes)
  {
    var g := Written(f, line, maxBytes, backupCount);
    var before := if NeedsRotation(f, line.size, maxBytes, backupCount) then [] else CurrentLines(f);
    assert CurrentLines(g) == before + [line];
    assert (before + [line])[..|before|] == before;
  }

  /** With at least one backup, no file outgrows the limit as long as no line does. */
  lemma {:induction false} FilesFit(f: Files, lines: seq<Line>, maxBytes: nat, backupCount: nat)
    requires backupCount > 0 && Fits(f, maxBytes)
    requires forall i :: 0 <= i < |lines| ==> lines[i].size <= maxBytes
    ensures Fits(WrittenAll(f, lines, maxBytes, backupCount), maxBytes)
  {
    if lines != [] {
      FilesFit(f, lines[..|lines| - 1], maxBytes, backupCount);
      WriteFits(WrittenAll(f, lines[..|lines| - 1], maxBytes, backupCount), lines[|lines| - 1], maxBytes, backupCount);
    }
  }

  /** Pruning brings the backups of any earlier run within number and size. */
  lemma PrunedIsInBounds(f: Files, maxBytes: nat, backupCount: nat)
    ensures Numbered(Pruned(f, maxBytes, backupCount), backupCount)
    ensures Fits(Pruned(f, maxBytes, backupCount), maxBytes) <==> Size(CurrentLines(f)) <= maxBytes
  {
  }

  /** With no backups allowed the log never rotates: one file holds every line. */
  lemma {:induction false} WithoutBackupsNothingIsLost(f: Files, lines: seq<Line>, maxBytes: nat)
    ensures CurrentLines(WrittenAll(f, lines, maxBytes, 0)) == CurrentLines(f) + lines
  {
    if lines != [] {
      WithoutBackupsNothingIsLost(f, lines[..|lines| - 1], maxBytes);
      assert CurrentLines(f) + lines[..|lines| - 1] + [lines[|lines| - 1]] == CurrentLines(f) + lines;
    }
  }
}

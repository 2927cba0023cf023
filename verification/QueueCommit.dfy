/**
 Moving the song that started from the queue into the history
 (storage/playback_repository.py): the row is chosen by the evidence the song carries, and
 one transaction writes the history, counts the play and removes the row.

 The queue is the list of `QueueTable`; runs mix commits with any edits of the queue.
 */
module QueueCommit {
  import opened QueueTable

  /** What the matching reads of a track: its stored path resolved with and without outer
      blanks (`hasPath` unless it is blank), and its normalised artist and title. */
  datatype File = File(hasPath: bool, trimmedTarget: string, target: string, artist: string, title: string)

  /** A queue row joined with its track. */
  datatype Entry = Entry(id: RowId, track: int, file: File)

  /** The song that started: ids, resolved path, normalised artist and title, any of them 0 or empty. */
  datatype Song = Song(id: int, track: int, path: string, artist: string, title: string, noHeadFallback: bool)

  /** The kinds of evidence, strongest first. */
  datatype Evidence = ById | ByTrack | ByPath | ByBaseName | ByMetadata

  function Rank(e: Evidence): nat
  {
    match e case ById => 0 case ByTrack => 1 case ByPath => 2 case ByBaseName => 3 case ByMetadata => 4
  }

  /** The last component of a path. */
  function BaseName(path: string): (name: string)
    ensures |name| <= |path| && path[|path| - |name|..] == name && '/' !in name
    ensures |name| < |path| ==> path[|path| - |name| - 1] == '/'
  {
    if path == [] || path[|path| - 1] == '/' then []
    else
      var front := BaseName(path[..|path| - 1]);
      assert path == path[..|path| - 1] + [path[|path| - 1]];
      front + [path[|path| - 1]]
  }

  predicate Holds(e: Evidence, song: Song, row: Entry)
  {
    match e
    case ById => song.id > 0 && row.id == song.id
    case ByTrack =>
      song.track > 0 && row.track == song.track
      && (song.path != "" ==> row.file.hasPath && row.file.trimmedTarget == song.path)
    case ByPath => song.path != "" && row.file.hasPath && row.file.target == song.path
    case ByBaseName =>
      song.path != "" && BaseName(song.path) != "" && row.file.hasPath
        && BaseName(row.file.target) == BaseName(song.path)
    case ByMetadata => SameMetadata(song, row.file)
  }

  /** The two tests of the source, by title and by artist. */
  predicate SameMetadata(song: Song, file: File)
  {
    || (song.title != "" && file.title != "" && song.title == file.title
        && (song.artist == "" || (file.artist != "" && song.artist == file.artist)))
    || (song.artist != "" && file.artist != "" && song.artist == file.artist
        && (song.title == "" || (file.title != "" && song.title == file.title)))
  }

  /** Path and base name count only when they single out one row. */
  predicate MustBeUnique(e: Evidence) { e.ByPath? || e.ByBaseName? }

  /** Row `i` is the one the evidence points at. */
  predicate PointsAt(rows: seq<Entry>, song: Song, e: Evidence, i: nat)
    requires i < |rows|
  {
    && Holds(e, song, rows[i])
    && (forall j :: 0 <= j < i ==> !Holds(e, song, rows[j]))
    && (MustBeUnique(e) ==> forall j :: i < j < |rows| ==> !Holds(e, song, rows[j]))
  }

  predicate Useless(rows: seq<Entry>, song: Song, e: Evidence)
  {
    forall i :: 0 <= i < |rows| ==> !PointsAt(rows, song, e, i)
  }

  predicate NothingStronger(rows: seq<Entry>, song: Song, rank: nat)
  {
    forall e :: Rank(e) < rank ==> Useless(rows, song, e)
  }

  datatype Choice = Found(index: nat, evidence: Evidence) | Head | NoMatch

  /** The row to commit: the one the strongest useful evidence points at, or else the head. */
  predicate IsChoice(rows: seq<Entry>, song: Song, c: Choice)
  {
    match c
    case Found(i, e) => i < |rows| && PointsAt(rows, song, e, i) && NothingStronger(rows, song, Rank(e))
    case Head => rows != [] && !song.noHeadFallback && NothingStronger(rows, song, 5)
    case NoMatch => (rows == [] || song.noHeadFallback) && NothingStronger(rows, song, 5)
  }

  /** Metadata match when everything the song states is what the track has. */
  lemma MetadataMatchesExactlyWhen(song: Song, file: File)
    ensures SameMetadata(song, file) <==>
            && (song.title != "" || song.artist != "")
            && (song.title != "" ==> file.title == song.title)
            && (song.artist != "" ==> file.artist == song.artist)
  {
    if song.title == "" { } else if song.artist == "" { }
  }

  /** There is one choice. */
  lemma ChoiceIsUnique(rows: seq<Entry>, song: Song, c: Choice, d: Choice)
    requires IsChoice(rows, song, c) && IsChoice(rows, song, d)
    ensures c == d
  {
    if c.Found? { FirstUseful(rows, song, c, if d.Found? then Rank(d.evidence) else 5); }
    if d.Found? { FirstUseful(rows, song, d, if c.Found? then Rank(c.evidence) else 5); }
    if c.Found? && d.Found? {
      SameRank(c.evidence, d.evidence);
      assert !(c.index < d.index) && !(d.index < c.index);
    }
  }

  lemma FirstUseful(rows: seq<Entry>, song: Song, c: Choice, rank: nat)
    requires c.Found? && IsChoice(rows, song, c)
    ensures NothingStronger(rows, song, rank) ==> rank <= Rank(c.evidence)
  {
    assert PointsAt(rows, song, c.evidence, c.index);
    assert !Useless(rows, song, c.evidence);
  }

  lemma SameRank(e: Evidence, f: Evidence)
    ensures Rank(e) == Rank(f) ==> e == f
  {
  }

  // ---------- Choosing ----------

  /** The first row the evidence holds of. */
  method FirstHolding(rows: seq<Entry>, song: Song, e: Evidence) returns (found: bool, at: nat)
    requires !MustBeUnique(e)
    ensures found ==> at < |rows| && PointsAt(rows, song, e, at)
    ensures !found ==> Useless(rows, song, e)
  {
    found, at := false, 0;
    for i := 0 to |rows|
      invariant forall j :: 0 <= j < i ==> !Holds(e, song, rows[j])
    {
      if Holds(e, song, rows[i]) { return true, i; }
    }
  }

  /** The row the evidence holds of, when there is exactly one. */
  method OnlyHolding(rows: seq<Entry>, song: Song, e: Evidence) returns (found: bool, at: nat)
    requires MustBeUnique(e)
    ensures found ==> at < |rows| && PointsAt(rows, song, e, at)
    ensures !found ==> Useless(rows, song, e)
  {
    var matches: seq<nat> := [];
    for i := 0 to |rows|
      invariant |matches| == 0 ==> forall j :: 0 <= j < i ==> !Holds(e, song, rows[j])
      invariant |matches| > 0 ==> matches[0] < i && Holds(e, song, rows[matches[0]])
                                  && forall j :: 0 <= j < matches[0] ==> !Holds(e, song, rows[j])
      invariant |matches| == 1 ==> forall j :: matches[0] < j < i ==> !Holds(e, song, rows[j])
      invariant |matches| > 1 ==> matches[0] < matches[1] < i && Holds(e, song, rows[matches[1]])
    {
      if Holds(e, song, rows[i]) { matches := matches + [i]; }
    }
    found := |matches| == 1;
    at := if found then matches[0] else 0;
  }

  /** _choose_queue_row */
  method Choose(rows: seq<Entry>, song: Song) returns (c: Choice)
    ensures IsChoice(rows, song, c)
  {
    var found, at := FirstHolding(rows, song, ById);
    if found { return Found(at, ById); }
    found, at := FirstHolding(rows, song, ByTrack);
    if found { return Found(at, ByTrack); }
    found, at := OnlyHolding(rows, song, ByPath);
    if found { return Found(at, ByPath); }
    found, at := OnlyHolding(rows, song, ByBaseName);
    if found { return Found(at, ByBaseName); }
    found, at := FirstHolding(rows, song, ByMetadata);
    if found { return Found(at, ByMetadata); }
    if song.noHeadFallback { return NoMatch; }
    return if |rows| > 0 then Head else NoMatch;
  }

  // ---------- Committing ----------

  datatype Play = Play(track: int, at: int)

  /** A station's database: the queue, the tracks it joins with and their play counts, the
      history, and the last queue id committed (0 at first). */
  datatype Base = Base(queue: Queue, files: map<int, File>, plays: map<int, nat>, history: seq<Play>, last: nat)

  /** Ids are fresh and in use once; every row has its track id; counts belong to tracks. */
  predicate Sound(b: Base)
  {
    WellFormed(b.queue) && b.files.Keys == b.plays.Keys
  }

  predicate WellFormed(q: Queue)
  {
    && AllDifferent(q.items)
    && (forall k :: k in q.items ==> 0 < k < q.nextId)
    && Ids(q.items) == q.tracks.Keys
  }

  /** The rows of the join: queue items whose track exists, in queue order. */
  function Joined(items: seq<RowId>, tracks: map<RowId, int>, files: map<int, File>): (rows: seq<Entry>)
    ensures forall i :: 0 <= i < |rows| ==>
      rows[i].id in items && rows[i].id in tracks && rows[i].track == tracks[rows[i].id] && rows[i].track in files
  {
    if items == [] then []
    else
      var front, id := Joined(items[..|items| - 1], tracks, files), items[|items| - 1];
      if id in tracks && tracks[id] in files then front + [Entry(id, tracks[id], files[tracks[id]])] else front
  }

  function Entries(b: Base): (rows: seq<Entry>)
  {
    Joined(b.queue.items, b.queue.tracks, b.files)
  }

  datatype Outcome =
    | EmptyQueue
    | NotMatched
    | AlreadyCommitted(id: RowId)
    | Committed(id: RowId, track: int)

  function OutcomeOf(rows: seq<Entry>, last: nat, song: Song, c: Choice): (o: Outcome)
    requires IsChoice(rows, song, c)
  {
    if rows == [] then EmptyQueue
    else if c.NoMatch? then NotMatched
    else
      var row := if c.Found? then rows[c.index] else rows[0];
      if row.id > 0 && last == row.id then AlreadyCommitted(row.id) else Committed(row.id, row.track)
  }

  /** The database after taking row `id` of `track` out of the queue. */
  function TakenOut(b: Base, id: RowId, track: int, at: int): Base
  {
    Base(Perform(b.queue, Remove([id])), b.files,
         if track > 0 && track in b.plays then b.plays[track := b.plays[track] + 1] else b.plays,
         if track > 0 then b.history + [Play(track, at)] else b.history, id)
  }

  /** What a commit does. */
  ghost predicate CommitStep(b: Base, song: Song, at: int, o: Outcome, after: Base)
  {
    exists c :: IsChoice(Entries(b), song, c) && o == OutcomeOf(Entries(b), b.last, song, c)
                && after == if o.Committed? then TakenOut(b, o.id, o.track, at) else b
  }

  lemma CommitTakes(b: Base, song: Song, at: int, c: Choice, o: Outcome)
    requires IsChoice(Entries(b), song, c) && o == OutcomeOf(Entries(b), b.last, song, c)
    ensures CommitStep(b, song, at, o, if o.Committed? then TakenOut(b, o.id, o.track, at) else b)
  {
  }

  /** The database connection; each method is one transaction under the station's lock. */
  class Ledger {
    var queue: Queue
    var files: map<int, File>
    var plays: map<int, nat>
    var history: seq<Play>
    var last: nat

    ghost function View(): Base
      reads this
    {
      Base(queue, files, plays, history, last)
    }

    /** commit_started_track */
    method CommitStartedTrack(song: Song, at: int) returns (o: Outcome)
      modifies this
      ensures CommitStep(old(View()), song, at, o, View())
    {
      ghost var before := View();
      var rows := Joined(queue.items, queue.tracks, files);
      if |rows| == 0 {
        CommitTakes(before, song, at, NoMatch, EmptyQueue);
        return EmptyQueue;
      }
      var c := Choose(rows, song);
      CommitTakes(before, song, at, c, OutcomeOf(rows, last, song, c));
      if c.NoMatch? { return NotMatched; }
      var row := if c.Found? then rows[c.index] else rows[0];
      if row.id > 0 && last == row.id { return AlreadyCommitted(row.id); }
      TakeOut(row.id, row.track, at);
      o := Committed(row.id, row.track);
    }

    /** The writes of a commit. */
    method TakeOut(id: RowId, track: int, at: int)
      modifies this
      ensures View() == TakenOut(old(View()), id, track, at)
    {
      if track > 0 {
        history := history + [Play(track, at)];
        plays := if track in plays then plays[track := plays[track] + 1] else plays;
      }
      last := id;
      queue := Perform(queue, Remove([id]));
    }
  }

  // ---------- One commit ----------

  lemma {:induction false} FilterOne(s: seq<RowId>, keep: set<RowId>, i: nat)
    requires i < |s| && s[i] !in keep && forall j :: 0 <= j < |s| && j != i ==> s[j] in keep
    ensures Filter(s, keep) == s[..i] + s[i + 1..]
  {
    var n := |s| - 1;
    if i == n {
      FilterAll(s[..n], keep);
    } else {
      FilterOne(s[..n], keep, i);
      DropBeforeLast(s, i);
    }
  }

  lemma DropBeforeLast(s: seq<RowId>, i: nat)
    requires i < |s| - 1
    ensures var n := |s| - 1; s[..i] + s[i + 1..] == s[..n][..i] + s[..n][i + 1..] + [s[n]]
  {
  }

  lemma PositiveOne(id: RowId)
    requires id > 0
    ensures Positive([id]) == [id] && Ids(Positive([id])) == {id}
  {
    assert [id][..0] == [];
  }

  lemma RemovingOne(q: Queue, id: RowId, i: nat)
    requires WellFormed(q) && StandsAt(q, id, i)
    ensures Perform(q, Remove([id])) == Queue(q.items[..i] + q.items[i + 1..], q.tracks - {id}, q.nextId)
  {
    assert q.items[i] in q.items;
    PositiveOne(id);
    FilterOne(q.items, Ids(q.items) - {id}, i);
  }

  /** Where a row stands in the queue. */
  predicate StandsAt(q: Queue, id: RowId, i: nat)
  {
    i < |q.items| && q.items[i] == id
  }

  /** Row `i` of the queue, of this id and track, is taken out, and its play recorded. */
  predicate RowTaken(b: Base, id: RowId, track: int, at: int, after: Base, i: nat)
  {
    && StandsAt(b.queue, id, i) && id in b.queue.tracks && b.queue.tracks[id] == track && track in b.plays
    && after.queue == Queue(b.queue.items[..i] + b.queue.items[i + 1..], b.queue.tracks - {id}, b.queue.nextId)
    && after.files == b.files && after.last == id
    && (track > 0 ==>
          after.history == b.history + [Play(track, at)] && after.plays == b.plays[track := b.plays[track] + 1])
    && (track <= 0 ==> after.history == b.history && after.plays == b.plays)
  }

  lemma TakesOneRow(b: Base, id: RowId, track: int, at: int) returns (i: nat)
    requires Sound(b) && id in b.queue.items && id in b.queue.tracks && b.queue.tracks[id] == track && track in b.plays
    ensures RowTaken(b, id, track, at, TakenOut(b, id, track, at), i)
  {
    i :| 0 <= i < |b.queue.items| && b.queue.items[i] == id;
    RemovingOne(b.queue, id, i);
  }

  lemma ChosenRowIsQueued(b: Base, song: Song, o: Outcome, c: Choice)
    requires Sound(b) && IsChoice(Entries(b), song, c) && o == OutcomeOf(Entries(b), b.last, song, c) && o.Committed?
    ensures o.id in b.queue.items && o.id in b.queue.tracks && b.queue.tracks[o.id] == o.track && o.track in b.plays
  {
    var row := if c.Found? then Entries(b)[c.index] else Entries(b)[0];
    assert row.id in b.queue.items;
  }

  /** A commit changes nothing, or takes exactly one row out, writes one history row and
      counts one play, of the same track. */
  lemma CommitMovesOneRow(b: Base, song: Song, at: int, o: Outcome, after: Base) returns (i: nat)
    requires Sound(b) && CommitStep(b, song, at, o, after)
    ensures !o.Committed? ==> after == b
    ensures o.Committed? ==> RowTaken(b, o.id, o.track, at, after, i)
  {
    i := 0;
    if o.Committed? {
      var c :| IsChoice(Entries(b), song, c) && o == OutcomeOf(Entries(b), b.last, song, c)
               && after == TakenOut(b, o.id, o.track, at);
      ChosenRowIsQueued(b, song, o, c);
      i := TakesOneRow(b, o.id, o.track, at);
    }
  }

  /** Some evidence points at a row. */
  predicate Supported(rows: seq<Entry>, song: Song)
  {
    !NothingStronger(rows, song, 5)
  }

  /** When the last committed row is gone, a commit succeeds exactly when the queue has a
      row and either some evidence points at one or the head may be taken. */
  lemma CommitsExactlyWhen(b: Base, song: Song, at: int, o: Outcome, after: Base)
    requires CommitStep(b, song, at, o, after) && b.last !in b.queue.items
    ensures o.Committed? <==> Entries(b) != [] && (!song.noHeadFallback || Supported(Entries(b), song))
    ensures o.EmptyQueue? <==> Entries(b) == []
  {
    var rows := Entries(b);
    var c :| IsChoice(rows, song, c) && o == OutcomeOf(rows, b.last, song, c);
    if c.Found? {
      assert PointsAt(rows, song, c.evidence, c.index);
      assert !Useless(rows, song, c.evidence);
    }
  }

  // ---------- Runs ----------

  datatype Event =
    | Edit
    | NewTrack(track: int, file: File)
    | Commit(song: Song, at: int, outcome: Outcome)

  /** Rows may go, move, or come with fresh ids. */
  predicate Edits(q: Queue, r: Queue)
  {
    && WellFormed(r) && q.nextId <= r.nextId
    && forall k :: k in r.items ==> k >= q.nextId || (k in q.items && k in q.tracks && r.tracks[k] == q.tracks[k])
  }

  ghost predicate Step(b: Base, e: Event, after: Base)
  {
    match e
    case Edit => Edits(b.queue, after.queue) && after == b.(queue := after.queue)
    case NewTrack(track, file) =>
      track !in b.plays && after == b.(files := b.files[track := file], plays := b.plays[track := 0])
    case Commit(song, at, o) => CommitStep(b, song, at, o, after)
  }

  ghost predicate Run(bases: seq<Base>, events: seq<Event>)
  {
    && |bases| == |events| + 1 && Sound(bases[0]) && bases[0].last < bases[0].queue.nextId
    && bases[0].last !in bases[0].queue.items
    && forall i :: 0 <= i < |events| ==> Step(bases[i], events[i], bases[i + 1])
  }

  lemma {:induction false} FilterDistinct(s: seq<RowId>, keep: set<RowId>)
    requires AllDifferent(s)
    ensures AllDifferent(Filter(s, keep))
  {
    if s != [] { FilterDistinct(s[..|s| - 1], keep); }
  }

  lemma ConcatDifferent(s: seq<RowId>, t: seq<RowId>)
    requires AllDifferent(s) && AllDifferent(t) && forall k :: k in s ==> k !in t
    ensures AllDifferent(s + t)
  {
    forall i, j | 0 <= i < j < |s + t| ensures (s + t)[i] != (s + t)[j] {
      if i < |s| <= j { assert s[i] in s && t[j - |s|] in t; }
    }
  }

  lemma AddRows(q: Queue, ids: seq<RowId>, added: map<RowId, int>, n: nat, items: seq<RowId>)
    requires WellFormed(q) && q.nextId > 0 && AllDifferent(ids) && added.Keys == Ids(ids)
    requires forall k :: k in ids ==> q.nextId <= k < q.nextId + n
    requires items == q.items + ids || items == ids + q.items
    ensures Edits(q, Queue(items, q.tracks + added, q.nextId + n))
  {
    if items == q.items + ids { ConcatDifferent(q.items, ids); } else { ConcatDifferent(ids, q.items); }
    assert Ids(items) == Ids(q.items) + Ids(ids);
  }

  lemma EnqueueEdits(q: Queue, tracks: seq<int>, place: Place)
    requires WellFormed(q) && q.nextId > 0
    ensures Edits(q, Perform(q, Enqueue(tracks, place)))
  {
    var wanted := Positive(tracks);
    var ids := NewIds(q.nextId, |wanted|, place);
    var added := NewTracks(q.nextId, wanted, place);
    assert added.Keys == Ids(ids);
    AddRows(q, ids, added, |wanted|, if place.AtEnd? then q.items + ids else ids + q.items);
  }

  lemma MoveEdits(q: Queue, ids: seq<int>)
    requires WellFormed(q)
    ensures Edits(q, Perform(q, Op.MoveToFront(ids)))
  {
    var listed, here := Distinct(ids), Ids(q.items);
    FilterDistinct(listed, here);
    FilterDistinct(q.items, here - Ids(listed));
    ConcatDifferent(Filter(listed, here), Filter(q.items, here - Ids(listed)));
  }

  /** Every operation on the queue, a plain reorder included, is such an edit. */
  lemma EveryOperationIsAnEdit(q: Queue, op: Op, r: Queue)
    requires WellFormed(q) && q.nextId > 0 && Performs(q, op, r)
    ensures Edits(q, r)
  {
    match op {
      case Enqueue(tracks, place) => EnqueueEdits(q, tracks, place);
      case Reorder(ids) => ReorderEdits(q, ids, r);
      case MoveToFront(ids) => MoveEdits(q, ids);
      case Remove(ids) => FilterDistinct(q.items, Ids(q.items) - Ids(Positive(ids)));
    }
  }

  lemma ReorderEdits(q: Queue, ids: seq<int>, r: Queue)
    requires WellFormed(q) && Reorders(q, ids, r)
    ensures Edits(q, r)
  {
    forall k | k in r.items ensures k in q.items {
      assert k in Ids(r.items);
      assert k in Ids(q.items);
    }
  }

  /** The rows committed so far are out of the queue, and their ids are not fresh. */
  predicate Gone(b: Base, id: RowId)
  {
    id < b.queue.nextId && id !in b.queue.items
  }

  /** A commit leaves rows of the queue in it, but not the one it commits. */
  lemma CommitLeaves(b: Base, e: Event, after: Base)
    requires Sound(b) && e.Commit? && Step(b, e, after)
    ensures Sound(after) && after.queue.nextId == b.queue.nextId
    ensures forall k :: k in after.queue.items ==> k in b.queue.items
    ensures e.outcome.Committed? ==> Gone(after, e.outcome.id) && after.last == e.outcome.id
    ensures !e.outcome.Committed? ==> after == b
  {
    var i := CommitMovesOneRow(b, e.song, e.at, e.outcome, after);
    if e.outcome.Committed? { RowIsOut(b, e.outcome.id, e.outcome.track, e.at, after, i); }
  }

  lemma RowIsOut(b: Base, id: RowId, track: int, at: int, after: Base, i: nat)
    requires Sound(b) && RowTaken(b, id, track, at, after, i)
    ensures Sound(after) && Gone(after, id) && forall k :: k in after.queue.items ==> k in b.queue.items
  {
    assert b.queue.items[i] in b.queue.items;
    RemovingOne(b.queue, id, i);
    PositiveOne(id);
    EveryOperationIsAnEdit(b.queue, Remove([id]), after.queue);
  }

  lemma StepKeepsSound(b: Base, e: Event, after: Base)
    requires Sound(b) && Step(b, e, after)
    ensures Sound(after) && b.queue.nextId <= after.queue.nextId
    ensures e.Commit? && e.outcome.Committed? ==> Gone(after, e.outcome.id) && after.last == e.outcome.id
    ensures !(e.Commit? && e.outcome.Committed?) ==> after.last == b.last
  {
    if e.Commit? { CommitLeaves(b, e, after); }
  }

  /** A row that left the queue stays out of it. */
  lemma StepKeepsGone(b: Base, e: Event, after: Base, id: RowId)
    requires Sound(b) && Step(b, e, after) && Gone(b, id)
    ensures Gone(after, id)
  {
    if e.Commit? { CommitLeaves(b, e, after); }
  }

  /** At every moment the database is sound and the last row committed is out of the queue. */
  lemma {:induction false} RunIsSound(bases: seq<Base>, events: seq<Event>, n: nat)
    requires Run(bases, events) && n <= |events|
    ensures Sound(bases[n]) && Gone(bases[n], bases[n].last)
  {
    if n > 0 {
      RunIsSound(bases, events, n - 1);
      StepKeepsSound(bases[n - 1], events[n - 1], bases[n]);
      StepKeepsGone(bases[n - 1], events[n - 1], bases[n], bases[n - 1].last);
    }
  }

  predicate CommitsAt(events: seq<Event>, i: nat)
  {
    i < |events| && events[i].Commit? && events[i].outcome.Committed?
  }

  lemma {:induction false} GoneStays(bases: seq<Base>, events: seq<Event>, m: nat, n: nat, id: RowId)
    requires Run(bases, events) && m <= n <= |events| && Gone(bases[m], id)
    ensures Gone(bases[n], id)
  {
    if m < n {
      GoneStays(bases, events, m, n - 1, id);
      GoneNext(bases, events, n - 1, id);
    }
  }

  lemma GoneNext(bases: seq<Base>, events: seq<Event>, n: nat, id: RowId)
    requires Run(bases, events) && n < |events| && Gone(bases[n], id)
    ensures Gone(bases[n + 1], id)
  {
    RunIsSound(bases, events, n);
    StepKeepsGone(bases[n], events[n], bases[n + 1], id);
  }

  lemma GoneAfterCommit(bases: seq<Base>, events: seq<Event>, i: nat, n: nat)
    requires Run(bases, events) && CommitsAt(events, i) && i < n <= |events|
    ensures Gone(bases[n], events[i].outcome.id)
  {
    RunIsSound(bases, events, i);
    StepKeepsSound(bases[i], events[i], bases[i + 1]);
    GoneStays(bases, events, i + 1, n, events[i].outcome.id);
  }

  /** No queue row is committed twice, and the check for a repeated commit never applies. */
  lemma EachRowIsCommittedOnce(bases: seq<Base>, events: seq<Event>, i: nat, j: nat)
    requires Run(bases, events) && i < j && CommitsAt(events, i) && CommitsAt(events, j)
    ensures events[i].outcome.id != events[j].outcome.id
  {
    GoneAfterCommit(bases, events, i, j);
    RunIsSound(bases, events, j);
    var e := events[j];
    var k := CommitMovesOneRow(bases[j], e.song, e.at, e.outcome, bases[j + 1]);
  }

  lemma RepeatCheckNeverApplies(bases: seq<Base>, events: seq<Event>, i: nat)
    requires Run(bases, events) && i < |events| && events[i].Commit?
    ensures !events[i].outcome.AlreadyCommitted?
  {
    RunIsSound(bases, events, i);
    var b, e := bases[i], events[i];
    assert CommitStep(b, e.song, e.at, e.outcome, bases[i + 1]);
    var c :| IsChoice(Entries(b), e.song, c) && e.outcome == OutcomeOf(Entries(b), b.last, e.song, c);
    if !c.NoMatch? && Entries(b) != [] {
      var row := if c.Found? then Entries(b)[c.index] else Entries(b)[0];
      assert row.id in b.queue.items;
    }
  }

  /** The plays the commits of a run record, in order. */
  function Played(events: seq<Event>): seq<Play>
  {
    if events == [] then []
    else
      var before, e := Played(events[..|events| - 1]), events[|events| - 1];
      if e.Commit? && e.outcome.Committed? && e.outcome.track > 0 then before + [Play(e.outcome.track, e.at)]
        else before
  }

  function PlayCount(b: Base, track: int): nat
  {
    if track in b.plays then b.plays[track] else 0
  }

  function Times(history: seq<Play>, track: int): nat
  {
    if history == [] then 0
    else Times(history[..|history| - 1], track) + if history[|history| - 1].track == track then 1 else 0
  }

  /** The history grows by the commits of the run, in order, and each track's play count by
      its number of plays among them. */
  lemma {:induction false} HistoryIsTheCommits(bases: seq<Base>, events: seq<Event>, track: int)
    requires Run(bases, events)
    ensures bases[|events|].history == bases[0].history + Played(events)
    ensures PlayCount(bases[|events|], track) == PlayCount(bases[0], track) + Times(Played(events), track)
    decreases |events|
  {
    if events == [] {
      assert bases[0].history + [] == bases[0].history;
    } else {
      var n := |events| - 1;
      HistoryIsTheCommits(bases[..n + 1], events[..n], track);
      RunIsSound(bases, events, n);
      HistoryStep(bases[n], events[n], bases[n + 1], bases[0].history, Played(events[..n]), track);
    }
  }

  lemma HistoryStep(b: Base, e: Event, after: Base, first: seq<Play>, played: seq<Play>, track: int)
    requires Sound(b) && Step(b, e, after) && b.history == first + played
    ensures e.Commit? && e.outcome.Committed? && e.outcome.track > 0 ==>
      && after.history == first + (played + [Play(e.outcome.track, e.at)])
      && PlayCount(after, track) - PlayCount(b, track)
         == Times(played + [Play(e.outcome.track, e.at)], track) - Times(played, track)
    ensures !(e.Commit? && e.outcome.Committed? && e.outcome.track > 0) ==>
      after.history == b.history && PlayCount(after, track) == PlayCount(b, track)
  {
    if e.Commit? {
      var i := CommitMovesOneRow(b, e.song, e.at, e.outcome, after);
      if e.outcome.Committed? {
        assert (played + [Play(e.outcome.track, e.at)])[..|played|] == played;
      }
    }
  }

  /** The song's own row was committed at `i`, and the same song starts again at `j`. */
  predicate StartsAgain(events: seq<Event>, i: nat, j: nat)
  {
    && i < j < |events| && CommitsAt(events, i) && events[i].song.id == events[i].outcome.id
    && events[j].Commit? && events[j].song == events[i].song
  }

  /** Its id points at no row any more. */
  lemma OwnRowIsGone(bases: seq<Base>, events: seq<Event>, i: nat, j: nat)
    requires Run(bases, events) && StartsAgain(events, i, j)
    ensures Useless(Entries(bases[j]), events[j].song, ById)
  {
    GoneAfterCommit(bases, events, i, j);
    forall k | 0 <= k < |Entries(bases[j])| ensures Entries(bases[j])[k].id != events[j].song.id {
      assert Entries(bases[j])[k].id in bases[j].queue.items;
    }
  }

  /** No evidence but the id points at a row. */
  predicate OnlyIdCould(rows: seq<Entry>, song: Song)
  {
    Useless(rows, song, ByTrack) && Useless(rows, song, ByPath) && Useless(rows, song, ByBaseName)
      && Useless(rows, song, ByMetadata)
  }

  /** A song that starts again never commits its own row.  It falls back on the head exactly
      when the queue has a row, the song does not rule that out, and neither track, path, base
      name nor metadata points at a row; then the head is committed. */
  lemma SecondStartTakesTheHead(bases: seq<Base>, events: seq<Event>, i: nat, j: nat)
    requires Run(bases, events) && StartsAgain(events, i, j)
    ensures var rows, song, o := Entries(bases[j]), events[j].song, events[j].outcome;
            && (o.Committed? ==> o.id != events[i].outcome.id)
            && (IsChoice(rows, song, Head) <==> rows != [] && !song.noHeadFallback && OnlyIdCould(rows, song))
            && (IsChoice(rows, song, Head) ==> o == Committed(rows[0].id, rows[0].track))
  {
    var b, e := bases[j], events[j];
    OwnRowIsGone(bases, events, i, j);
    RunIsSound(bases, events, j);
    OnlyIdMeansNothing(Entries(b), e.song);
    if e.outcome.Committed? { EachRowIsCommittedOnce(bases, events, i, j); }
    if IsChoice(Entries(b), e.song, Head) {
      assert CommitStep(b, e.song, e.at, e.outcome, bases[j + 1]);
      HeadIsCommitted(b, e.song, e.at, e.outcome, bases[j + 1]);
    }
  }

  lemma OnlyIdMeansNothing(rows: seq<Entry>, song: Song)
    requires Useless(rows, song, ById)
    ensures NothingStronger(rows, song, 5) <==> OnlyIdCould(rows, song)
  {
    assert Rank(ByTrack) < 5 && Rank(ByPath) < 5 && Rank(ByBaseName) < 5 && Rank(ByMetadata) < 5;
  }

  lemma HeadIsCommitted(b: Base, song: Song, at: int, o: Outcome, after: Base)
    requires Gone(b, b.last) && CommitStep(b, song, at, o, after) && IsChoice(Entries(b), song, Head)
    ensures o == Committed(Entries(b)[0].id, Entries(b)[0].track)
  {
    CommitsExactlyWhen(b, song, at, o, after);
    var c :| IsChoice(Entries(b), song, c) && o == OutcomeOf(Entries(b), b.last, song, c);
    ChoiceIsUnique(Entries(b), song, c, Head);
  }

  // A run in which that happens.

  const OnlyItsId := Song(1, 0, "", "", "", false)

  lemma OnlyIdHolds(e: Evidence, row: Entry)
    ensures Holds(e, OnlyItsId, row) <==> e.ById? && row.id == 1
  {
  }

  /** It points at its row when that is first, and at nothing when it is gone. */
  lemma ChoiceById(rows: seq<Entry>)
    requires rows != [] && forall i :: 0 < i < |rows| ==> rows[i].id != 1
    ensures IsChoice(rows, OnlyItsId, if rows[0].id == 1 then Found(0, ById) else Head)
  {
    forall e: Evidence, i: nat | i < |rows|
      ensures Holds(e, OnlyItsId, rows[i]) <==> e.ById? && i == 0 && rows[0].id == 1
    {
      OnlyIdHolds(e, rows[i]);
    }
  }

  lemma JoinedOne(id: RowId, tracks: map<RowId, int>, files: map<int, File>)
    requires id in tracks && tracks[id] in files
    ensures Joined([id], tracks, files) == [Entry(id, tracks[id], files[tracks[id]])]
  {
    assert [id][..0] == [];
    assert Joined([], tracks, files) == [];
  }

  lemma JoinedTwo(a: RowId, b: RowId, tracks: map<RowId, int>, files: map<int, File>)
    requires a in tracks && tracks[a] in files && b in tracks && tracks[b] in files
    ensures Joined([a, b], tracks, files)
            == [Entry(a, tracks[a], files[tracks[a]]), Entry(b, tracks[b], files[tracks[b]])]
  {
    assert [a, b][..1] == [a];
    JoinedOne(a, tracks, files);
  }

  /** The song starts with its row at the head of the queue. */
  lemma FirstStart(b: Base, tracks: map<RowId, int>) returns (once: Base)
    requires tracks.Keys == {1, 2} && b.queue == Queue([1, 2], tracks, 3) && b.last == 0
    requires tracks[1] in b.files && tracks[2] in b.files
    ensures CommitStep(b, OnlyItsId, 0, Committed(1, tracks[1]), once)
    ensures once.queue == Queue([2], tracks - {1}, 3) && once.files == b.files && once.last == 1
  {
    JoinedTwo(1, 2, tracks, b.files);
    ChoiceById(Entries(b));
    CommitTakes(b, OnlyItsId, 0, Found(0, ById), Committed(1, tracks[1]));
    once := TakenOut(b, 1, tracks[1], 0);
    RemovingOne(b.queue, 1, 0);
    assert [1, 2][..0] + [1, 2][1..] == [2];
  }

  /** It starts again, with the other row at the head. */
  lemma SecondStart(once: Base, track: int) returns (twice: Base)
    requires once.queue.items == [2] && 2 in once.queue.tracks && once.queue.tracks[2] == track
    requires track in once.files && once.last == 1
    ensures CommitStep(once, OnlyItsId, 0, Committed(2, track), twice) && IsChoice(Entries(once), OnlyItsId, Head)
  {
    JoinedOne(2, once.queue.tracks, once.files);
    ChoiceById(Entries(once));
    CommitTakes(once, OnlyItsId, 0, Head, Committed(2, track));
    twice := TakenOut(once, 2, track, 0);
  }

  lemma TwoSteps(b: Base, first: Event, once: Base, second: Event, twice: Base)
    requires Sound(b) && b.last < b.queue.nextId && b.last !in b.queue.items
    requires Step(b, first, once) && Step(once, second, twice)
    ensures Run([b, once, twice], [first, second])
  {
  }

  /** Two rows, and nothing played so far. */
  lemma TwoRows(tracks: map<RowId, int>, files: map<int, File>) returns (b: Base)
    requires tracks.Keys == {1, 2} && tracks[1] in files && tracks[2] in files
    ensures Sound(b) && b.queue == Queue([1, 2], tracks, 3) && b.files == files && b.last == 0
  {
    b := Base(Queue([1, 2], tracks, 3), files, map k | k in files :: 0, [], 0);
    assert Ids([1, 2]) == {1, 2};
  }

  /** The second start of a song takes the row behind it, whatever that is. */
  lemma SecondStartMayTakeTheHead(tracks: map<RowId, int>, files: map<int, File>)
      returns (bases: seq<Base>, events: seq<Event>)
    requires tracks.Keys == {1, 2} && tracks[1] in files && tracks[2] in files
    ensures Run(bases, events) && StartsAgain(events, 0, 1)
    ensures IsChoice(Entries(bases[1]), events[1].song, Head) && events[1].outcome == Committed(2, tracks[2])
  {
    var b := TwoRows(tracks, files);
    var once := FirstStart(b, tracks);
    var twice := SecondStart(once, tracks[2]);
    var first, second := Commit(OnlyItsId, 0, Committed(1, tracks[1])), Commit(OnlyItsId, 0, Committed(2, tracks[2]));
    TwoSteps(b, first, once, second, twice);
    bases, events := [b, once, twice], [first, second];
  }
}

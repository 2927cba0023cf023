/**
 The persistent play queue (storage/playback_repository.py): a table of rows with a
 numeric position, read in the order of position and id.

 `Queue` is the same queue as a plain list of row ids.  Every operation of the table is
 proved to be an operation on that list (append, prepend, bring to the front, filter), so
 any sequence of operations on the table is a sequence of list operations.
 */
module QueueTable {

  type RowId = nat

  datatype Row = Row(track: int, position: int)

  type Rows = map<RowId, Row>

  /** ORDER BY position ASC, id ASC */
  predicate Precedes(rows: Rows, a: RowId, b: RowId)
    requires a in rows && b in rows
  {
    rows[a].position < rows[b].position || (rows[a].position == rows[b].position && a < b)
  }

  /** Rows, each before the next ones. */
  predicate Ascending(rows: Rows, s: seq<RowId>)
  {
    && (forall i :: 0 <= i < |s| ==> s[i] in rows)
    && (forall i, j :: 0 <= i < j < |s| ==> Precedes(rows, s[i], s[j]))
  }

  /** `s` lists the rows in order. */
  predicate IsOrder(rows: Rows, s: seq<RowId>)
  {
    Ascending(rows, s) && forall k :: k in rows ==> k in s
  }

  // ---------- The order of a table ----------

  lemma EmptyOrder(rows: Rows, s: seq<RowId>)
    requires IsOrder(rows, s)
    ensures s == [] <==> rows == map[]
  {
    if s != [] { assert s[0] in rows; }
  }

  /** A table has exactly one order: two orders agree. */
  lemma {:induction false} OrderIsUnique(rows: Rows, s: seq<RowId>, t: seq<RowId>)
    requires IsOrder(rows, s) && IsOrder(rows, t)
    ensures s == t
    decreases |s|
  {
    EmptyOrder(rows, s);
    EmptyOrder(rows, t);
    if s != [] {
      var i :| 0 <= i < |t| && t[i] == s[0];
      var j :| 0 <= j < |s| && s[j] == t[0];
      assert i == 0;
      DropFirst(rows, s);
      DropFirst(rows, t);
      OrderIsUnique(rows - {s[0]}, s[1..], t[1..]);
    }
  }

  lemma DropFirst(rows: Rows, s: seq<RowId>)
    requires IsOrder(rows, s) && s != []
    ensures IsOrder(rows - {s[0]}, s[1..])
  {
    var rest := rows - {s[0]};
    forall i | 0 <= i < |s[1..]| ensures s[1..][i] in rest {
      assert Precedes(rows, s[0], s[i + 1]);
    }
    forall k | k in rest ensures k in s[1..] {
      var i :| 0 <= i < |s| && s[i] == k;
      assert s[1..][i - 1] == k;
    }
  }

  lemma {:induction false} FirstRow(rows: Rows) returns (first: RowId)
    requires rows != map[]
    ensures first in rows && forall k :: k in rows && k != first ==> Precedes(rows, first, k)
    decreases |rows|
  {
    var k :| k in rows;
    var rest := rows - {k};
    if rest == map[] {
      first := k;
      assert forall j :: j in rows && j != k ==> j in rest;
    } else {
      assert rest.Keys == rows.Keys - {k};
      assert |rest.Keys| < |rows.Keys|;
      var f := FirstRow(rest);
      first := if Precedes(rows, k, f) then k else f;
      forall j | j in rows && j != first ensures Precedes(rows, first, j) {
        if j != k { assert j in rest; if j != f { assert Precedes(rest, f, j); } }
      }
    }
  }

  /** Every table has an order. */
  lemma {:induction false} OrderExists(rows: Rows) returns (s: seq<RowId>)
    ensures IsOrder(rows, s)
    decreases |rows|
  {
    if rows == map[] {
      s := [];
    } else {
      var first := FirstRow(rows);
      var rest := rows - {first};
      assert rest.Keys == rows.Keys - {first};
      assert |rest.Keys| < |rows.Keys|;
      var t := OrderExists(rest);
      s := [first] + t;
      PutFirst(rows, first, t);
    }
  }

  lemma PutFirst(rows: Rows, first: RowId, t: seq<RowId>)
    requires first in rows && IsOrder(rows - {first}, t)
    requires forall k :: k in rows && k != first ==> Precedes(rows, first, k)
    ensures IsOrder(rows, [first] + t)
  {
    var rest, s := rows - {first}, [first] + t;
    SameRowsSameOrder(rest, rows, t);
    forall i, j | 0 <= i < j < |s| ensures Precedes(rows, s[i], s[j]) {
      assert t[j - 1] in rest;
      if i > 0 { assert Precedes(rows, t[i - 1], t[j - 1]); }
    }
    forall k | k in rows ensures k in s {
      if k != first { assert k in rest && k in t; }
    }
  }

  function Filter(s: seq<RowId>, keep: set<RowId>): (r: seq<RowId>)
    ensures forall k :: k in r <==> k in s && k in keep
  {
    if s == [] then []
    else Filter(s[..|s| - 1], keep) + if s[|s| - 1] in keep then [s[|s| - 1]] else []
  }

  lemma {:induction false} FilterKeepsOrder(rows: Rows, s: seq<RowId>, keep: set<RowId>)
    requires Ascending(rows, s)
    ensures Ascending(rows, Filter(s, keep))
  {
    if s != [] {
      var front, last := s[..|s| - 1], s[|s| - 1];
      FilterKeepsOrder(rows, front, keep);
      var r := Filter(front, keep);
      forall i | 0 <= i < |r| ensures r[i] in rows && Precedes(rows, r[i], last) {
        assert r[i] in front;
      }
      AppendLast(rows, r, last);
      assert last in rows;
    }
  }

  lemma AppendLast(rows: Rows, s: seq<RowId>, last: RowId)
    requires Ascending(rows, s) && last in rows
    requires forall i :: 0 <= i < |s| ==> Precedes(rows, s[i], last)
    ensures Ascending(rows, s + [last]) && Ascending(rows, s + [])
  {
    assert s + [] == s;
  }

  /** Rows that keep their positions keep their order. */
  lemma SameRowsSameOrder(rows: Rows, others: Rows, s: seq<RowId>)
    requires Ascending(rows, s)
    requires forall i :: 0 <= i < |s| ==> s[i] in others && others[s[i]].position == rows[s[i]].position
    ensures Ascending(others, s)
  {
    forall i, j | 0 <= i < j < |s| ensures Precedes(others, s[i], s[j]) { assert Precedes(rows, s[i], s[j]); }
  }

  /** The part of the table with the ids in `keep`. */
  function Part(rows: Rows, keep: set<RowId>): Rows
  {
    map k | k in rows && k in keep :: rows[k]
  }

  lemma PartOrder(rows: Rows, s: seq<RowId>, keep: set<RowId>)
    requires IsOrder(rows, s)
    ensures IsOrder(Part(rows, keep), Filter(s, keep))
  {
    var r, part := Filter(s, keep), Part(rows, keep);
    FilterKeepsOrder(rows, s, keep);
    forall i | 0 <= i < |r| ensures r[i] in part && part[r[i]].position == rows[r[i]].position { assert r[i] in r; }
    SameRowsSameOrder(rows, part, r);
  }

  // ---------- The queue as a list ----------

  datatype Place = AtEnd | AtFront

  datatype Op =
    | Enqueue(tracks: seq<int>, place: Place)
    | Reorder(ids: seq<int>)
    | MoveToFront(ids: seq<int>)
    | Remove(ids: seq<int>)

  /** The queue as the user sees it: row ids with their tracks, and the next free id. */
  datatype Queue = Queue(items: seq<RowId>, tracks: map<RowId, int>, nextId: RowId)

  function Positive(values: seq<int>): (r: seq<nat>)
    ensures forall i :: 0 <= i < |r| ==> r[i] > 0
  {
    if values == [] then []
    else Positive(values[..|values| - 1]) + if values[|values| - 1] > 0 then [values[|values| - 1]] else []
  }

  /** The positive values, each once, in the order of their first appearance. */
  function Distinct(values: seq<int>): (r: seq<nat>)
    ensures forall i, j :: 0 <= i < j < |r| ==> r[i] != r[j]
    ensures forall v: nat :: v in r <==> v in values && v > 0
  {
    if values == [] then []
    else
      var front, v := Distinct(values[..|values| - 1]), values[|values| - 1];
      if v > 0 && v !in front then front + [v] else front
  }

  /** Where the row inserted as number `i` of `n` stands among the new ones: rows for the
      front are inserted last to first. */
  function Slot(i: nat, n: nat, place: Place): (slot: nat)
    requires i < n
    ensures slot < n
  {
    if place.AtEnd? then i else n - 1 - i
  }

  /** The ids given to `n` new rows, in the order of the tracks. */
  function NewIds(nextId: RowId, n: nat, place: Place): (ids: seq<RowId>)
    ensures |ids| == n && forall i :: 0 <= i < n ==> ids[i] == nextId + Slot(i, n, place)
  {
    seq(n, i requires 0 <= i < n => nextId + Slot(i, n, place))
  }

  lemma OneMoreId(nextId: RowId, n: nat)
    ensures NewIds(nextId, n + 1, AtEnd) == NewIds(nextId, n, AtEnd) + [nextId + n]
    ensures NewIds(nextId, n + 1, AtFront) == [nextId + n] + NewIds(nextId, n, AtFront)
  {
  }

  function NewTracks(nextId: RowId, wanted: seq<int>, place: Place): (tracks: map<RowId, int>)
  {
    map id | id in NewIds(nextId, |wanted|, place) :: wanted[Slot(id - nextId, |wanted|, place)]
  }

  /** What the operations but the plain reorder do to the list: append, prepend, bring to the
      front, filter. */
  function Perform(q: Queue, op: Op): Queue
    requires !op.Reorder?
  {
    match op
    case Enqueue(tracks, place) =>
      var wanted := Positive(tracks);
      var ids := NewIds(q.nextId, |wanted|, place);
      Queue(if place.AtEnd? then q.items + ids else ids + q.items,
            q.tracks + NewTracks(q.nextId, wanted, place), q.nextId + |wanted|)
    case MoveToFront(ids) =>
      var listed := Distinct(ids);
      var here := Ids(q.items);
      q.(items := Filter(listed, here) + Filter(q.items, here - Ids(listed)))
    case Remove(ids) =>
      var gone, here := Ids(Positive(ids)), Ids(q.items);
      q.(items := Filter(q.items, here - gone), tracks := map k | k in q.tracks && k !in gone :: q.tracks[k])
  }

  predicate AllDifferent(s: seq<RowId>)
  {
    forall i, j :: 0 <= i < j < |s| ==> s[i] != s[j]
  }

  /** A plain reorder keeps the items; the listed ones come in the listed order and the others
      in theirs.  How the two mix depends on the positions, which the list does not have. */
  predicate Reorders(q: Queue, ids: seq<int>, r: Queue)
  {
    var listed, here := Distinct(ids), Ids(q.items);
    && r.tracks == q.tracks && r.nextId == q.nextId && Ids(r.items) == here && AllDifferent(r.items)
    && Filter(r.items, Ids(listed)) == Filter(listed, here)
    && Filter(r.items, here - Ids(listed)) == Filter(q.items, here - Ids(listed))
  }

  /** `op` may turn the list `q` into `r`. */
  predicate Performs(q: Queue, op: Op, r: Queue)
  {
    if op.Reorder? then Reorders(q, op.ids, r) else r == Perform(q, op)
  }

  // ---------- The table ----------

  /** The table: its rows and the next automatic id. */
  datatype Table = Table(rows: Rows, nextId: RowId)

  function Ids(s: seq<nat>): set<nat> { set k | k in s }

  function Tracks(rows: Rows): map<RowId, int>
  {
    map k | k in rows :: rows[k].track
  }

  /** The rows after inserting tracks 10 positions apart, upwards or downwards from `from`. */
  function Inserted(t: Table, tracks: seq<int>, from: int, step: int): Table
  {
    if tracks == [] then t
    else
      var before := Inserted(t, tracks[..|tracks| - 1], from, step);
      Table(before.rows[before.nextId := Row(tracks[|tracks| - 1], from + step * |tracks|)], before.nextId + 1)
  }

  function Reversed(s: seq<int>): (r: seq<int>)
    ensures |r| == |s| && forall i :: 0 <= i < |s| ==> r[i] == s[|s| - 1 - i]
  {
    seq(|s|, i requires 0 <= i < |s| => s[|s| - 1 - i])
  }

  /** `p` is COALESCE(MIN(position), 0), or COALESCE(MAX(position), 0). */
  predicate IsLowest(rows: Rows, p: int)
  {
    if rows == map[] then p == 0
    else (forall k :: k in rows ==> p <= rows[k].position) && exists k :: k in rows && rows[k].position == p
  }

  predicate IsHighest(rows: Rows, p: int)
  {
    if rows == map[] then p == 0
    else (forall k :: k in rows ==> rows[k].position <= p) && exists k :: k in rows && rows[k].position == p
  }

  /** The rows with the listed ones renumbered 1, 2, 3 and so on; absent ids use up a number. */
  function Renumbered(rows: Rows, ids: seq<RowId>): Rows
  {
    if ids == [] then rows
    else
      var before, id := Renumbered(rows, ids[..|ids| - 1]), ids[|ids| - 1];
      if id in before then before[id := before[id].(position := |ids|)] else before
  }

  /** What an operation may leave in the table. */
  ghost predicate Next(t: Table, op: Op, u: Table)
  {
    match op
    case Enqueue(tracks, AtEnd) =>
      exists from :: IsHighest(t.rows, from) && u == Inserted(t, Positive(tracks), from, 10)
    case Enqueue(tracks, AtFront) =>
      exists from :: IsLowest(t.rows, from) && u == Inserted(t, Reversed(Positive(tracks)), from, -10)
    case Reorder(ids) =>
      u == t.(rows := Renumbered(t.rows, Distinct(ids)))
    case MoveToFront(ids) =>
      if Distinct(ids) == [] then u == t
      else exists current ::
        IsOrder(t.rows, current) && u == t.(rows := Renumbered(t.rows, Distinct(FrontFirst(ids, current))))
    case Remove(ids) =>
      u == t.(rows := Part(t.rows, t.rows.Keys - Ids(Positive(ids))))
  }

  /** The listed ids, then the others as they stand. */
  function FrontFirst(ids: seq<int>, current: seq<RowId>): seq<RowId>
  {
    Distinct(ids) + Filter(current, Ids(current) - Ids(Distinct(ids)))
  }

  /** A move reports success: a positive id was given and some row was renumbered. */
  predicate Moves(rows: Rows, ids: seq<int>, current: seq<RowId>)
  {
    Distinct(ids) != [] && Filter(Distinct(FrontFirst(ids, current)), rows.Keys) != []
  }

  /** The database connection, its table changed in place. */
  class Store {
    var rows: Rows
    var nextId: RowId

    ghost function View(): Table
      reads this
    {
      Table(rows, nextId)
    }

    constructor ()
      ensures View() == Table(map[], 1)
    {
      rows, nextId := map[], 1;
    }

    /** The lowest and the highest position, 0 for the empty table. */
    method Extremes() returns (low: int, high: int)
      ensures IsLowest(rows, low) && IsHighest(rows, high)
    {
      low, high := 0, 0;
      var left := rows.Keys;
      while left != {}
        invariant left <= rows.Keys
        invariant left == rows.Keys ==> low == 0 && high == 0
        invariant forall k :: k in rows.Keys - left ==> low <= rows[k].position <= high
        invariant left != rows.Keys ==> (exists k :: k in rows && rows[k].position == low)
                                        && (exists k :: k in rows && rows[k].position == high)
        decreases |left|
      {
        var k :| k in left;
        var p := rows[k].position;
        var first := left == rows.Keys;
        if first || p < low { low := p; }
        if first || p > high { high := p; }
        left := left - {k};
      }
    }

    /** enqueue_track_ids: new rows go beyond the last one or, last track first, before the
        first one; their ids come back in the order of the tracks. */
    method EnqueueTracks(trackIds: seq<int>, place: Place) returns (created: seq<RowId>)
      modifies this
      ensures created == NewIds(old(nextId), |Positive(trackIds)|, place)
      ensures Next(old(View()), Enqueue(trackIds, place), View())
    {
      var wanted := Positive(trackIds);
      var low, high := Extremes();
      if place.AtEnd? {
        created := InsertAll(wanted, high, 10);
      } else {
        created := InsertAll(Reversed(wanted), low, -10);
        created := Reversed(created);
      }
    }

    method InsertAll(tracks: seq<int>, from: int, step: int) returns (created: seq<RowId>)
      modifies this
      ensures View() == Inserted(old(View()), tracks, from, step)
      ensures created == NewIds(old(nextId), |tracks|, AtEnd)
    {
      var position := from;
      created := [];
      ghost var before := View();
      for i := 0 to |tracks|
        invariant View() == Inserted(before, tracks[..i], from, step)
        invariant nextId == before.nextId + i && position == from + step * i
        invariant created == NewIds(before.nextId, i, AtEnd)
      {
        position := position + step;
        assert tracks[..i + 1][..i] == tracks[..i];
        assert step * (i + 1) == step * i + step;
        rows := rows[nextId := Row(tracks[i], position)];
        created := created + [nextId];
        nextId := nextId + 1;
      }
      assert tracks[..|tracks|] == tracks;
    }

    /** reorder_queue: the number of rows renumbered is returned. */
    method Reorder(ids: seq<int>) returns (updated: nat)
      modifies `rows
      ensures Next(old(View()), Op.Reorder(ids), View())
      ensures updated == |Filter(Distinct(ids), old(rows).Keys)|
    {
      var listed := Distinct(ids);
      updated := 0;
      ghost var before := rows;
      for i := 0 to |listed|
        invariant rows == Renumbered(before, listed[..i]) && rows.Keys == before.Keys
        invariant updated == |Filter(listed[..i], before.Keys)|
      {
        assert listed[..i + 1][..i] == listed[..i];
        if listed[i] in rows {
          rows := rows[listed[i] := rows[listed[i]].(position := i + 1)];
          updated := updated + 1;
        }
      }
      assert listed[..|listed|] == listed;
    }

    /** move_queue_items_to_front: `current` is the queue as it was read, before the table was
        locked; whatever it is, the move is a reorder. */
    method MoveToFront(ids: seq<int>, current: seq<RowId>) returns (moved: bool)
      modifies `rows
      ensures moved <==> Moves(old(rows), ids, current)
      ensures Distinct(ids) == [] ==> rows == old(rows)
      ensures Distinct(ids) != [] ==> Next(old(View()), Op.Reorder(FrontFirst(ids, current)), View())
      ensures IsOrder(old(rows), current) ==> Next(old(View()), Op.MoveToFront(ids), View())
    {
      var listed := Distinct(ids);
      moved := false;
      if |listed| > 0 {
        var rest := Unlisted(current, listed);
        assert listed + rest == FrontFirst(ids, current);
        var updated := Reorder(FrontFirst(ids, current));
        moved := updated > 0;
      }
    }

    static method Unlisted(current: seq<RowId>, listed: seq<RowId>) returns (rest: seq<RowId>)
      ensures rest == Filter(current, Ids(current) - Ids(listed))
    {
      rest := [];
      for i := 0 to |current|
        invariant rest == Filter(current[..i], Ids(current) - Ids(listed))
      {
        assert current[..i + 1][..i] == current[..i];
        if current[i] !in listed { rest := rest + [current[i]]; }
        else { assert rest + [] == rest; }
      }
      assert current[..|current|] == current;
    }

    /** remove_queue_items: the number of rows that were there is returned. */
    method RemoveItems(ids: seq<int>) returns (removed: nat)
      modifies `rows
      ensures Next(old(View()), Remove(ids), View()) && removed + |rows| == |old(rows)|
    {
      var gone := Positive(ids);
      removed := 0;
      ghost var all := rows;
      assert rows == Part(all, all.Keys - Ids(gone[..0]));
      for i := 0 to |gone|
        invariant rows == Part(all, all.Keys - Ids(gone[..i]))
        invariant removed + |rows| == |all|
      {
        DropOne(all, gone, i);
        if gone[i] in rows {
          assert (rows - {gone[i]}).Keys == rows.Keys - {gone[i]};
          rows := rows - {gone[i]};
          removed := removed + 1;
        } else {
          assert rows - {gone[i]} == rows;
        }
      }
      assert gone[..|gone|] == gone;
    }
  }

  lemma AllInTable(rows: Rows, current: seq<RowId>)
    requires IsOrder(rows, current)
    ensures Ids(current) == rows.Keys
  {
    forall k | k in current ensures k in rows { }
  }

  lemma DropOne(all: Rows, gone: seq<nat>, i: nat)
    requires i < |gone|
    ensures Part(all, all.Keys - Ids(gone[..i + 1])) == Part(all, all.Keys - Ids(gone[..i])) - {gone[i]}
  {
    assert gone[..i + 1] == gone[..i] + [gone[i]];
  }

  // ---------- Table operations are list operations ----------

  /** The table holds the queue `q`. */
  predicate Shows(t: Table, q: Queue)
  {
    && IsOrder(t.rows, q.items) && q.tracks == Tracks(t.rows) && q.nextId == t.nextId && t.nextId > 0
    && forall k :: k in t.rows ==> 0 < k < t.nextId
  }

  lemma {:induction false} FilterConcat(a: seq<RowId>, b: seq<RowId>, keep: set<RowId>)
    ensures Filter(a + b, keep) == Filter(a, keep) + Filter(b, keep)
  {
    if b == [] {
      assert a + b == a;
    } else {
      assert (a + b)[..|a + b| - 1] == a + b[..|b| - 1];
      FilterConcat(a, b[..|b| - 1], keep);
    }
  }

  lemma {:induction false} FilterAll(s: seq<RowId>, keep: set<RowId>)
    requires forall i :: 0 <= i < |s| ==> s[i] in keep
    ensures Filter(s, keep) == s
  {
    if s != [] {
      FilterAll(s[..|s| - 1], keep);
      assert s == s[..|s| - 1] + [s[|s| - 1]];
    }
  }

  lemma {:induction false} DistinctOfDistinct(s: seq<int>)
    requires forall i :: 0 <= i < |s| ==> s[i] > 0
    requires forall i, j :: 0 <= i < j < |s| ==> s[i] != s[j]
    ensures Distinct(s) == s
  {
    if s != [] {
      var front := s[..|s| - 1];
      DistinctOfDistinct(front);
      assert s[|s| - 1] !in front;
    }
  }

  // Insertion.

  function RawTracks(start: RowId, tracks: seq<int>): map<RowId, int>
  {
    map id | id in NewIds(start, |tracks|, AtEnd) :: tracks[id - start]
  }

  lemma NewTracksAreRaw(start: RowId, wanted: seq<int>)
    ensures NewTracks(start, wanted, AtEnd) == RawTracks(start, wanted)
    ensures NewTracks(start, wanted, AtFront) == RawTracks(start, Reversed(wanted))
  {
    var n := |wanted|;
    forall id | start <= id < start + n ensures id in NewIds(start, n, AtEnd) && id in NewIds(start, n, AtFront) {
      assert NewIds(start, n, AtEnd)[id - start] == id;
      assert NewIds(start, n, AtFront)[n - 1 - (id - start)] == id;
    }
  }

  lemma TracksOfInsert(rows: Rows, id: RowId, row: Row)
    ensures Tracks(rows[id := row]) == Tracks(rows)[id := row.track]
  {
  }

  lemma PutAfterMerge(a: map<RowId, int>, b: map<RowId, int>, id: RowId, track: int)
    ensures (a + b)[id := track] == a + b[id := track]
  {
  }

  lemma OneMoreTrack(start: RowId, tracks: seq<int>)
    requires tracks != []
    ensures var n := |tracks| - 1; RawTracks(start, tracks) == RawTracks(start, tracks[..n])[start + n := tracks[n]]
  {
    OneMoreId(start, |tracks| - 1);
  }

  lemma {:induction false} InsertedTracks(t: Table, tracks: seq<int>, from: int, step: int)
    ensures var u := Inserted(t, tracks, from, step);
            u.nextId == t.nextId + |tracks| && Tracks(u.rows) == Tracks(t.rows) + RawTracks(t.nextId, tracks)
  {
    if tracks != [] {
      var front := tracks[..|tracks| - 1];
      InsertedTracks(t, front, from, step);
      OneMoreTrack(t.nextId, tracks);
      var before := Inserted(t, front, from, step);
      TracksOfInsert(before.rows, before.nextId, Row(tracks[|front|], from + step * |tracks|));
      PutAfterMerge(Tracks(t.rows), RawTracks(t.nextId, front), before.nextId, tracks[|front|]);
    }
  }

  /** All ids are in use, and all positions are at most, or at least, `p`. */
  predicate UpTo(t: Table, p: int)
  {
    t.nextId > 0 && forall k :: k in t.rows ==> 0 < k < t.nextId && t.rows[k].position <= p
  }

  predicate DownTo(t: Table, p: int)
  {
    t.nextId > 0 && forall k :: k in t.rows ==> 0 < k < t.nextId && p <= t.rows[k].position
  }

  function AddRow(t: Table, row: Row): Table
  {
    Table(t.rows[t.nextId := row], t.nextId + 1)
  }

  /** One more row above, or below, all the others, after `n` new ones. */
  lemma AddAbove(t: Table, start: RowId, n: nat, order: seq<RowId>, row: Row, p: int)
    requires IsOrder(t.rows, order + NewIds(start, n, AtEnd)) && t.nextId == start + n
    requires UpTo(t, p) && p < row.position
    ensures IsOrder(AddRow(t, row).rows, order + NewIds(start, n + 1, AtEnd)) && UpTo(AddRow(t, row), row.position)
  {
    var ids := NewIds(start, n, AtEnd);
    AppendRow(t.rows, order + ids, t.nextId, row);
    OneMoreId(start, n);
    assert order + ids + [start + n] == order + NewIds(start, n + 1, AtEnd);
  }

  lemma AddBelow(t: Table, start: RowId, n: nat, order: seq<RowId>, row: Row, p: int)
    requires IsOrder(t.rows, NewIds(start, n, AtFront) + order) && t.nextId == start + n
    requires DownTo(t, p) && row.position < p
    ensures IsOrder(AddRow(t, row).rows, NewIds(start, n + 1, AtFront) + order) && DownTo(AddRow(t, row), row.position)
  {
    var ids := NewIds(start, n, AtFront);
    PrependRow(t.rows, ids + order, t.nextId, row);
    OneMoreId(start, n);
    assert [start + n] + (ids + order) == NewIds(start, n + 1, AtFront) + order;
  }

  /** Rows inserted upwards from above all positions come last. */
  lemma {:induction false} InsertedUpwards(t: Table, order: seq<RowId>, tracks: seq<int>, from: int)
    requires IsOrder(t.rows, order) && UpTo(t, from)
    ensures IsOrder(Inserted(t, tracks, from, 10).rows, order + NewIds(t.nextId, |tracks|, AtEnd))
    ensures UpTo(Inserted(t, tracks, from, 10), from + 10 * |tracks|)
    ensures Inserted(t, tracks, from, 10).nextId == t.nextId + |tracks|
  {
    if tracks == [] {
      assert order + NewIds(t.nextId, 0, AtEnd) == order;
    } else {
      var front, n := tracks[..|tracks| - 1], |tracks| - 1;
      InsertedUpwards(t, order, front, from);
      AddAbove(Inserted(t, front, from, 10), t.nextId, n, order, Row(tracks[n], from + 10 * |tracks|), from + 10 * n);
    }
  }

  /** Rows inserted downwards from below all positions come first, the last one foremost. */
  lemma {:induction false} InsertedDownwards(t: Table, order: seq<RowId>, tracks: seq<int>, from: int)
    requires IsOrder(t.rows, order) && DownTo(t, from)
    ensures IsOrder(Inserted(t, tracks, from, -10).rows, NewIds(t.nextId, |tracks|, AtFront) + order)
    ensures DownTo(Inserted(t, tracks, from, -10), from - 10 * |tracks|)
    ensures Inserted(t, tracks, from, -10).nextId == t.nextId + |tracks|
  {
    if tracks == [] {
      assert NewIds(t.nextId, 0, AtFront) + order == order;
    } else {
      var front, n := tracks[..|tracks| - 1], |tracks| - 1;
      InsertedDownwards(t, order, front, from);
      AddBelow(Inserted(t, front, from, -10), t.nextId, n, order, Row(tracks[n], from - 10 * |tracks|), from - 10 * n);
    }
  }

  lemma AppendRow(rows: Rows, order: seq<RowId>, id: RowId, row: Row)
    requires IsOrder(rows, order) && id !in rows
    requires forall k :: k in rows ==> rows[k].position < row.position
    ensures IsOrder(rows[id := row], order + [id])
  {
    SameRowsSameOrder(rows, rows[id := row], order);
    AppendLast(rows[id := row], order, id);
  }

  lemma PrependRow(rows: Rows, order: seq<RowId>, id: RowId, row: Row)
    requires IsOrder(rows, order) && id !in rows
    requires forall k :: k in rows ==> row.position < rows[k].position
    ensures IsOrder(rows[id := row], [id] + order)
  {
    SameRowsSameOrder(rows, rows[id := row], order);
    var s := [id] + order;
    forall i, j | 0 <= i < j < |s| ensures Precedes(rows[id := row], s[i], s[j]) {
      if i > 0 { assert Precedes(rows[id := row], order[i - 1], order[j - 1]); }
    }
  }

  lemma ShownAfterInsert(t: Table, q: Queue, u: Table, items: seq<RowId>, added: map<RowId, int>, n: nat)
    requires Shows(t, q) && IsOrder(u.rows, items) && Tracks(u.rows) == Tracks(t.rows) + added
    requires u.nextId == t.nextId + n && forall k :: k in u.rows ==> 0 < k < u.nextId
    ensures Shows(u, Queue(items, q.tracks + added, q.nextId + n))
  {
  }

  lemma AppendRefines(t: Table, q: Queue, tracks: seq<int>, from: int)
    requires Shows(t, q) && IsHighest(t.rows, from)
    ensures Shows(Inserted(t, Positive(tracks), from, 10), Perform(q, Enqueue(tracks, AtEnd)))
  {
    var wanted := Positive(tracks);
    NewTracksAreRaw(t.nextId, wanted);
    InsertedTracks(t, wanted, from, 10);
    InsertedUpwards(t, q.items, wanted, from);
    ShownAfterInsert(t, q, Inserted(t, wanted, from, 10), q.items + NewIds(t.nextId, |wanted|, AtEnd),
                     NewTracks(t.nextId, wanted, AtEnd), |wanted|);
  }

  lemma PrependRefines(t: Table, q: Queue, tracks: seq<int>, from: int)
    requires Shows(t, q) && IsLowest(t.rows, from)
    ensures Shows(Inserted(t, Reversed(Positive(tracks)), from, -10), Perform(q, Enqueue(tracks, AtFront)))
  {
    var wanted := Positive(tracks);
    NewTracksAreRaw(t.nextId, wanted);
    InsertedTracks(t, Reversed(wanted), from, -10);
    InsertedDownwards(t, q.items, Reversed(wanted), from);
    ShownAfterInsert(t, q, Inserted(t, Reversed(wanted), from, -10), NewIds(t.nextId, |wanted|, AtFront) + q.items,
                     NewTracks(t.nextId, wanted, AtFront), |wanted|);
  }

  // Removal.

  lemma RemoveRefines(t: Table, q: Queue, ids: seq<int>, u: Table)
    requires Shows(t, q) && Next(t, Remove(ids), u)
    ensures Shows(u, Perform(q, Remove(ids)))
  {
    AllInTable(t.rows, q.items);
    PartOrder(t.rows, q.items, t.rows.Keys - Ids(Positive(ids)));
  }

  // Renumbering.

  /** Renumbering touches positions of listed rows only: the last listing counts. */
  lemma {:induction false} RenumberedRows(rows: Rows, ids: seq<RowId>)
    requires forall i, j :: 0 <= i < j < |ids| ==> ids[i] != ids[j]
    ensures var r := Renumbered(rows, ids);
            && r.Keys == rows.Keys && Tracks(r) == Tracks(rows)
            && (forall k :: k in rows && k !in ids ==> r[k] == rows[k])
            && (forall i :: 0 <= i < |ids| && ids[i] in rows ==> r[ids[i]].position == i + 1)
  {
    if ids != [] { RenumberedRows(rows, ids[..|ids| - 1]); }
  }

  lemma {:induction false} ListedAscend(rows: Rows, ids: seq<RowId>, all: seq<RowId>)
    requires ids <= all && forall i, j :: 0 <= i < j < |all| ==> all[i] != all[j]
    ensures Ascending(Renumbered(rows, all), Filter(ids, rows.Keys))
  {
    RenumberedRows(rows, all);
    if ids != [] {
      var n := |ids| - 1;
      ListedAscend(rows, ids[..n], all);
      var r, before := Renumbered(rows, all), Filter(ids[..n], rows.Keys);
      if ids[n] in rows {
        forall i | 0 <= i < |before| ensures Precedes(r, before[i], ids[n]) {
          assert before[i] in ids[..n];
          var j :| 0 <= j < n && ids[..n][j] == before[i];
          assert all[j] == before[i] && all[n] == ids[n];
        }
        AppendLast(r, before, ids[n]);
      } else {
        assert before + [] == before;
      }
    }
  }

  /** The listed ids and the others are all different, and cover the table. */
  lemma FrontFirstIsDistinct(rows: Rows, ids: seq<int>, current: seq<RowId>)
    requires IsOrder(rows, current) && forall k :: k in rows ==> k > 0
    ensures Distinct(FrontFirst(ids, current)) == FrontFirst(ids, current)
    ensures forall k :: k in rows ==> k in FrontFirst(ids, current)
  {
    var listed, rest := Distinct(ids), Filter(current, Ids(current) - Ids(Distinct(ids)));
    FilterKeepsOrder(rows, current, Ids(current) - Ids(listed));
    DistinctArePositive(ids);
    var all := listed + rest;
    forall i | 0 <= i < |rest| ensures rest[i] > 0 && rest[i] !in listed { assert rest[i] in rest; }
    forall i, j | 0 <= i < j < |rest| ensures rest[i] != rest[j] { assert Precedes(rows, rest[i], rest[j]); }
    forall i, j | 0 <= i < j < |all| ensures all[i] != all[j] {
      if i < |listed| <= j { assert listed[i] in listed; }
    }
    DistinctOfDistinct(all);
  }

  lemma {:induction false} DistinctArePositive(ids: seq<int>)
    ensures forall i :: 0 <= i < |Distinct(ids)| ==> Distinct(ids)[i] > 0
  {
    if ids != [] { DistinctArePositive(ids[..|ids| - 1]); }
  }

  lemma MoveRefines(t: Table, q: Queue, ids: seq<int>, current: seq<RowId>)
    requires Shows(t, q) && IsOrder(t.rows, current) && Distinct(ids) != []
    ensures Shows(t.(rows := Renumbered(t.rows, Distinct(FrontFirst(ids, current)))), Perform(q, Op.MoveToFront(ids)))
  {
    OrderIsUnique(t.rows, q.items, current);
    AllInTable(t.rows, current);
    FrontFirstIsDistinct(t.rows, ids, current);
    var all, listed, rest := FrontFirst(ids, current), Distinct(ids),
        Filter(current, Ids(current) - Ids(Distinct(ids)));
    RenumberedRows(t.rows, all);
    ListedAscend(t.rows, all, all);
    FilterConcat(listed, rest, t.rows.Keys);
    forall i | 0 <= i < |rest| ensures rest[i] in t.rows { assert rest[i] in rest; }
    FilterAll(rest, t.rows.Keys);
  }

  /** Every row is renumbered, so a move with a positive id reports success on any non-empty
      queue, even when none of the ids is in it. */
  lemma MoveReportsExactlyWhen(rows: Rows, ids: seq<int>, current: seq<RowId>)
    requires IsOrder(rows, current) && forall k :: k in rows ==> k > 0
    ensures Moves(rows, ids, current) <==> Distinct(ids) != [] && rows != map[]
  {
    FrontFirstIsDistinct(rows, ids, current);
    var touched := Filter(Distinct(FrontFirst(ids, current)), rows.Keys);
    if rows != map[] {
      var k :| k in rows;
      assert k in touched;
    }
    forall i | 0 <= i < |touched| ensures touched[i] in rows { assert touched[i] in touched; }
    assert touched != [] ==> touched[0] in rows;
  }

  /** So a move of items that are not in the queue reports success and moves nothing. */
  lemma AbsentItemsAreMoved(t: Table, q: Queue, ids: seq<int>)
    requires Shows(t, q) && t.rows != map[] && Distinct(ids) != []
    requires forall i :: 0 <= i < |Distinct(ids)| ==> Distinct(ids)[i] !in t.rows
    ensures Moves(t.rows, ids, q.items) && Perform(q, Op.MoveToFront(ids)) == q
  {
    MoveReportsExactlyWhen(t.rows, ids, q.items);
    AbsentItemsAreNotMoved(q, ids, Distinct(ids));
  }

  lemma AbsentItemsAreNotMoved(q: Queue, ids: seq<int>, listed: seq<RowId>)
    requires listed == Distinct(ids) && forall i :: 0 <= i < |listed| ==> listed[i] !in q.items
    ensures Perform(q, Op.MoveToFront(ids)) == q
  {
    FilterAll(q.items, Ids(q.items) - Ids(listed));
    FilterNone(listed, Ids(q.items));
    assert [] + q.items == q.items;
  }

  lemma {:induction false} FilterNone(s: seq<RowId>, keep: set<RowId>)
    requires forall i :: 0 <= i < |s| ==> s[i] !in keep
    ensures Filter(s, keep) == []
  {
    if s != [] { FilterNone(s[..|s| - 1], keep); }
  }

  /** It is so once a track has been added. */
  lemma MoveMayMoveNothing(track: int) returns (t: Table, q: Queue)
    requires track > 0
    ensures Next(Table(map[], 1), Enqueue([track], AtEnd), t) && Shows(t, q)
    ensures Moves(t.rows, [2], q.items) && Perform(q, Op.MoveToFront([2])) == q
  {
    var empty, first := Table(map[], 1), Queue([], map[], 1);
    assert Positive([track]) == [track];
    t := Inserted(empty, Positive([track]), 0, 10);
    assert IsHighest(empty.rows, 0);
    AppendRefines(empty, first, [track], 0);
    q := Perform(first, Enqueue([track], AtEnd));
    OneRow(track, t);
    assert 1 in t.rows;
    AbsentItemsAreMoved(t, q, [2]);
  }

  lemma OneRow(track: int, t: Table)
    requires track > 0 && t == Inserted(Table(map[], 1), [track], 0, 10)
    ensures t == Table(map[1 := Row(track, 10)], 2) && Distinct([2]) == [2]
  {
    assert [track][..0] == [];
  }

  lemma MoveStepRefines(t: Table, q: Queue, ids: seq<int>, u: Table)
    requires Shows(t, q) && Next(t, Op.MoveToFront(ids), u)
    ensures Shows(u, Perform(q, Op.MoveToFront(ids)))
  {
    if Distinct(ids) == [] {
      FilterAll(q.items, Ids(q.items) - Ids([]));
      assert Filter([], Ids(q.items)) + q.items == q.items;
    } else {
      var current :| IsOrder(t.rows, current)
                     && u == t.(rows := Renumbered(t.rows, Distinct(FrontFirst(ids, current))));
      MoveRefines(t, q, ids, current);
    }
  }

  lemma EnqueueStepRefines(t: Table, q: Queue, tracks: seq<int>, place: Place, u: Table)
    requires Shows(t, q) && Next(t, Enqueue(tracks, place), u)
    ensures Shows(u, Perform(q, Enqueue(tracks, place)))
  {
    if place.AtEnd? {
      var from :| IsHighest(t.rows, from) && u == Inserted(t, Positive(tracks), from, 10);
      AppendRefines(t, q, tracks, from);
    } else {
      var from :| IsLowest(t.rows, from) && u == Inserted(t, Reversed(Positive(tracks)), from, -10);
      PrependRefines(t, q, tracks, from);
    }
  }

  lemma FilteredIsIn(s: seq<RowId>, keep: set<RowId>)
    ensures forall i :: 0 <= i < |Filter(s, keep)| ==> Filter(s, keep)[i] in keep && Filter(s, keep)[i] in s
  {
    forall i | 0 <= i < |Filter(s, keep)| ensures Filter(s, keep)[i] in keep && Filter(s, keep)[i] in s {
      assert Filter(s, keep)[i] in Filter(s, keep);
    }
  }

  /** The listed rows, in the listed order, are the order of their part of the table. */
  lemma ListedPart(rows: Rows, listed: seq<RowId>)
    requires forall i, j :: 0 <= i < j < |listed| ==> listed[i] != listed[j]
    ensures IsOrder(Part(Renumbered(rows, listed), Ids(listed)), Filter(listed, rows.Keys))
  {
    var r, first := Renumbered(rows, listed), Filter(listed, rows.Keys);
    RenumberedRows(rows, listed);
    ListedAscend(rows, listed, listed);
    FilteredIsIn(listed, rows.Keys);
    SameRowsSameOrder(r, Part(r, Ids(listed)), first);
  }

  lemma OtherPart(rows: Rows, listed: seq<RowId>)
    requires forall i, j :: 0 <= i < j < |listed| ==> listed[i] != listed[j]
    ensures Part(Renumbered(rows, listed), rows.Keys - Ids(listed)) == Part(rows, rows.Keys - Ids(listed))
  {
    RenumberedRows(rows, listed);
  }

  /** What a plain reorder does when not every row is listed: the listed rows come in the
      listed order, and the others keep theirs. */
  lemma ReorderKeepsTheRest(rows: Rows, before: seq<RowId>, ids: seq<int>, after: seq<RowId>)
    requires IsOrder(rows, before) && IsOrder(Renumbered(rows, Distinct(ids)), after)
    ensures Filter(after, Ids(Distinct(ids))) == Filter(Distinct(ids), rows.Keys)
    ensures Filter(after, rows.Keys - Ids(Distinct(ids))) == Filter(before, rows.Keys - Ids(Distinct(ids)))
  {
    var listed := Distinct(ids);
    var r, mine, others := Renumbered(rows, listed), Ids(listed), rows.Keys - Ids(listed);
    ListedPart(rows, listed);
    OtherPart(rows, listed);
    PartOrder(r, after, mine);
    PartOrder(r, after, others);
    PartOrder(rows, before, others);
    OrderIsUnique(Part(r, mine), Filter(after, mine), Filter(listed, rows.Keys));
    OrderIsUnique(Part(rows, others), Filter(after, others), Filter(before, others));
  }

  lemma OrdersDiffer(rows: Rows, s: seq<RowId>)
    requires IsOrder(rows, s)
    ensures AllDifferent(s)
  {
    forall i, j | 0 <= i < j < |s| ensures s[i] != s[j] { assert Precedes(rows, s[i], s[j]); }
  }

  lemma ReorderRefines(t: Table, q: Queue, ids: seq<int>, u: Table) returns (r: Queue)
    requires Shows(t, q) && Next(t, Op.Reorder(ids), u)
    ensures Reorders(q, ids, r) && Shows(u, r)
  {
    var after := OrderExists(u.rows);
    r := Queue(after, q.tracks, q.nextId);
    RenumberedRows(t.rows, Distinct(ids));
    AllInTable(t.rows, q.items);
    AllInTable(u.rows, after);
    OrdersDiffer(u.rows, after);
    ReorderKeepsTheRest(t.rows, q.items, ids, after);
  }

  lemma StepRefines(t: Table, q: Queue, op: Op, u: Table) returns (r: Queue)
    requires Shows(t, q) && Next(t, op, u)
    ensures Performs(q, op, r) && Shows(u, r)
  {
    if op.Reorder? {
      r := ReorderRefines(t, q, op.ids, u);
    } else {
      r := Perform(q, op);
      match op {
        case Enqueue(tracks, place) => EnqueueStepRefines(t, q, tracks, place, u);
        case MoveToFront(ids) => MoveStepRefines(t, q, ids, u);
        case Remove(ids) => RemoveRefines(t, q, ids, u);
      }
    }
  }

  /** A table shows one list. */
  lemma ShowsOneQueue(t: Table, q: Queue, r: Queue)
    requires Shows(t, q) && Shows(t, r)
    ensures q == r
  {
    OrderIsUnique(t.rows, q.items, r.items);
  }

  ghost predicate Run(tables: seq<Table>, ops: seq<Op>)
  {
    |tables| == |ops| + 1 && forall i :: 0 <= i < |ops| ==> NextAt(tables, ops, i)
  }

  ghost predicate NextAt(tables: seq<Table>, ops: seq<Op>, i: nat)
    requires i < |ops| && i + 1 < |tables|
  {
    Next(tables[i], ops[i], tables[i + 1])
  }

  /** The first tables show these lists, and the list operations lead from each to the next. */
  predicate Refines(tables: seq<Table>, ops: seq<Op>, queues: seq<Queue>)
  {
    && |queues| <= |tables| <= |ops| + 1
    && (forall i :: 0 <= i < |queues| ==> Shows(tables[i], queues[i]))
    && (forall i :: 0 < i < |queues| ==> Performs(queues[i - 1], ops[i - 1], queues[i]))
  }

  lemma RefinesMore(tables: seq<Table>, ops: seq<Op>, queues: seq<Queue>, r: Queue)
    requires Refines(tables, ops, queues) && 0 < |queues| < |tables|
    requires Shows(tables[|queues|], r) && Performs(queues[|queues| - 1], ops[|queues| - 1], r)
    ensures Refines(tables, ops, queues + [r])
  {
  }

  lemma {:induction false} FirstTablesRefine(tables: seq<Table>, ops: seq<Op>, q: Queue, n: nat)
      returns (queues: seq<Queue>)
    requires Run(tables, ops) && Shows(tables[0], q) && n <= |ops|
    ensures |queues| == n + 1 && queues[0] == q && Refines(tables, ops, queues)
  {
    if n == 0 {
      queues := [q];
    } else {
      queues := FirstTablesRefine(tables, ops, q, n - 1);
      queues := NextTableRefines(tables, ops, queues);
    }
  }

  lemma NextTableRefines(tables: seq<Table>, ops: seq<Op>, queues: seq<Queue>) returns (more: seq<Queue>)
    requires Run(tables, ops) && Refines(tables, ops, queues) && 0 < |queues| < |tables|
    ensures Refines(tables, ops, more) && |more| == |queues| + 1 && more[0] == queues[0]
  {
    var n := |queues|;
    var t, q, op, u := tables[n - 1], queues[n - 1], ops[n - 1], tables[n];
    assert NextAt(tables, ops, n - 1);
    var r := StepRefines(t, q, op, u);
    RefinesMore(tables, ops, queues, r);
    more := queues + [r];
  }

  /** For every sequence of operations, the tables show lists that the list operations lead
      through. */
  lemma TableRefinesQueue(tables: seq<Table>, ops: seq<Op>, q: Queue) returns (queues: seq<Queue>)
    requires Run(tables, ops) && Shows(tables[0], q)
    ensures |queues| == |tables| && queues[0] == q && Refines(tables, ops, queues)
  {
    queues := FirstTablesRefine(tables, ops, q, |ops|);
  }
}

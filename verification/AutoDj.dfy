/**
 The AutoDJ refill (autodj/service.py): tracks are picked category by category in the order
 of a rotation, whose position is kept in the database between refills
 (storage/playback_repository.py).
 */
module AutoDj {
  import opened Decimals

  datatype Option<T> = None | Some(value: T)

  /** One row of the rotation. */
  datatype Slot = Slot(category: int, norules: bool)

  /** A track's normalised artist and title, empty when unknown. */
  datatype Tag = Tag(artist: string, title: string)

  datatype Past = Past(track: int, at: int)

  /** Minutes without repeating an artist, a title or a track; 0 switches the rule off. */
  datatype Rules = Rules(artist: nat, title: nat, track: nat)

  /** What a pick reads besides the queue; times are in seconds. */
  datatype World = World(rules: Rules, tags: map<int, Tag>, categories: map<int, seq<int>>,
                         history: seq<Past>, playing: Tag, now: int)

  function TagOf(w: World, track: int): Tag
  {
    if track in w.tags then w.tags[track] else Tag("", "")
  }

  function Candidates(w: World, category: int): seq<int>
  {
    if category in w.categories then w.categories[category] else []
  }

  predicate Recent(w: World, past: Past, minutes: nat) { past.at >= w.now - 60 * minutes }

  predicate TrackRepeats(w: World, track: int)
  {
    exists i :: 0 <= i < |w.history| && Recent(w, w.history[i], w.rules.track) && w.history[i].track == track
  }

  predicate ArtistRepeats(w: World, queue: seq<int>, artist: string)
  {
    || artist == w.playing.artist
    || (exists i :: 0 <= i < |queue| && TagOf(w, queue[i]).artist == artist)
    || exists i :: 0 <= i < |w.history| && Recent(w, w.history[i], w.rules.artist)
                   && TagOf(w, w.history[i].track).artist == artist
  }

  predicate TitleRepeats(w: World, queue: seq<int>, title: string)
  {
    || title == w.playing.title
    || (exists i :: 0 <= i < |queue| && TagOf(w, queue[i]).title == title)
    || exists i :: 0 <= i < |w.history| && Recent(w, w.history[i], w.rules.title)
                   && TagOf(w, w.history[i].track).title == title
  }

  /** The rules keep this track out: it is queued, picked before in this refill, or repeats
      too early.  Earlier picks of the same refill count by track only. */
  predicate Blocked(w: World, queue: seq<int>, picked: set<int>, track: int)
  {
    || track <= 0 || track in queue || track in picked
    || (w.rules.track > 0 && TrackRepeats(w, track))
    || (w.rules.artist > 0 && TagOf(w, track).artist != "" && ArtistRepeats(w, queue, TagOf(w, track).artist))
    || (w.rules.title > 0 && TagOf(w, track).title != "" && TitleRepeats(w, queue, TagOf(w, track).title))
  }

  /** What may be picked for a slot, and when nothing is. */
  predicate PickOf(w: World, queue: seq<int>, picked: set<int>, slot: Slot, r: Option<int>)
  {
    var candidates := Candidates(w, slot.category);
    if slot.norules then
      match r
      case None => forall t :: t in candidates ==> t <= 0
      case Some(track) =>
        && track > 0 && track in candidates
        && (track in queue || track in picked ==> forall t :: t in candidates && t > 0 ==> t in queue || t in picked)
    else
      match r
      case None => forall t :: t in candidates ==> Blocked(w, queue, picked, t)
      case Some(track) => track in candidates && !Blocked(w, queue, picked, track)
  }

  function RecentTracks(w: World, n: nat): set<int>
    requires n <= |w.history|
  {
    set i | 0 <= i < n && Recent(w, w.history[i], w.rules.track) :: w.history[i].track
  }

  function RecentArtists(w: World, n: nat): set<string>
    requires n <= |w.history|
  {
    set i | 0 <= i < n && Recent(w, w.history[i], w.rules.artist) :: TagOf(w, w.history[i].track).artist
  }

  function RecentTitles(w: World, n: nat): set<string>
    requires n <= |w.history|
  {
    set i | 0 <= i < n && Recent(w, w.history[i], w.rules.title) :: TagOf(w, w.history[i].track).title
  }

  lemma OneMorePast(w: World, n: nat)
    requires n < |w.history|
    ensures RecentTracks(w, n + 1) ==
            RecentTracks(w, n) + if Recent(w, w.history[n], w.rules.track) then {w.history[n].track} else {}
    ensures RecentArtists(w, n + 1) ==
            RecentArtists(w, n)
            + if Recent(w, w.history[n], w.rules.artist) then {TagOf(w, w.history[n].track).artist} else {}
    ensures RecentTitles(w, n + 1) ==
            RecentTitles(w, n)
            + if Recent(w, w.history[n], w.rules.title) then {TagOf(w, w.history[n].track).title} else {}
  {
  }

  /** The three sets of what was played recently. */
  method ReadHistory(w: World) returns (tracks: set<int>, artists: set<string>, titles: set<string>)
    ensures forall t :: t in tracks <==> TrackRepeats(w, t)
    ensures artists == RecentArtists(w, |w.history|) && titles == RecentTitles(w, |w.history|)
  {
    tracks, artists, titles := {}, {}, {};
    for i := 0 to |w.history|
      invariant tracks == RecentTracks(w, i) && artists == RecentArtists(w, i) && titles == RecentTitles(w, i)
    {
      OneMorePast(w, i);
      var past := w.history[i];
      if Recent(w, past, w.rules.track) { tracks := tracks + {past.track}; }
      if Recent(w, past, w.rules.artist) { artists := artists + {TagOf(w, past.track).artist}; }
      if Recent(w, past, w.rules.title) { titles := titles + {TagOf(w, past.track).title}; }
    }
  }

  /** An order of the candidates, any of them. */
  method Shuffled(s: seq<int>) returns (r: seq<int>)
    ensures multiset(r) == multiset(s)
  {
    r := s;
    for i := 0 to |s|
      invariant |r| == |s| && multiset(r) == multiset(s)
    {
      var j: nat :| i <= j < |r|;
      r := r[i := r[j]][j := r[i]];
    }
  }

  /** _pick_track_for_category */
  method PickTrack(w: World, queue: seq<int>, picked: set<int>, slot: Slot) returns (r: Option<int>)
    ensures PickOf(w, queue, picked, slot, r)
  {
    var candidates := Candidates(w, slot.category);
    var shuffled := Shuffled(candidates);
    assert forall t :: t in shuffled <==> t in multiset(shuffled);
    assert forall t :: t in candidates <==> t in multiset(candidates);
    if slot.norules {
      r := PickAny(queue, picked, shuffled);
    } else {
      r := PickAllowed(w, queue, picked, shuffled);
    }
  }

  method PickAny(queue: seq<int>, picked: set<int>, shuffled: seq<int>) returns (r: Option<int>)
    ensures r.None? ==> forall t :: t in shuffled ==> t <= 0
    ensures r.Some? ==> r.value > 0 && r.value in shuffled
    ensures r.Some? && (r.value in queue || r.value in picked) ==>
              forall t :: t in shuffled && t > 0 ==> t in queue || t in picked
  {
    var usable: seq<int>, eligible: seq<int> := [], [];
    for i := 0 to |shuffled|
      invariant forall t :: t in usable <==> t in shuffled[..i] && t > 0
      invariant forall t :: t in eligible <==> t in usable && t !in queue && t !in picked
    {
      if shuffled[i] > 0 {
        usable := usable + [shuffled[i]];
        if shuffled[i] !in queue && shuffled[i] !in picked { eligible := eligible + [shuffled[i]]; }
      }
    }
    assert shuffled[..|shuffled|] == shuffled;
    if |usable| == 0 { return None; }
    var choices := if |eligible| > 0 then eligible else usable;
    var i: nat :| i < |choices|;
    assert choices[i] in choices;
    r := Some(choices[i]);
  }

  method PickAllowed(w: World, queue: seq<int>, picked: set<int>, shuffled: seq<int>) returns (r: Option<int>)
    ensures r.None? ==> forall t :: t in shuffled ==> Blocked(w, queue, picked, t)
    ensures r.Some? ==> r.value in shuffled && !Blocked(w, queue, picked, r.value)
  {
    var tracks, artists, titles := ReadHistory(w);
    var queueArtists := set i | 0 <= i < |queue| :: TagOf(w, queue[i]).artist;
    var queueTitles := set i | 0 <= i < |queue| :: TagOf(w, queue[i]).title;
    if w.playing.artist != "" { artists := artists + {w.playing.artist}; }
    if w.playing.title != "" { titles := titles + {w.playing.title}; }
    assert forall a :: a != "" ==> (a in queueArtists || a in artists <==> ArtistRepeats(w, queue, a));
    assert forall a :: a != "" ==> (a in queueTitles || a in titles <==> TitleRepeats(w, queue, a));
    for i := 0 to |shuffled|
      invariant forall j :: 0 <= j < i ==> Blocked(w, queue, picked, shuffled[j])
    {
      var t := shuffled[i];
      if t <= 0 || t in queue || t in picked { continue; }
      if w.rules.track > 0 && t in tracks { continue; }
      var tag := TagOf(w, t);
      if w.rules.artist > 0 && tag.artist != "" && (tag.artist in queueArtists || tag.artist in artists) { continue; }
      if w.rules.title > 0 && tag.title != "" && (tag.title in queueTitles || tag.title in titles) { continue; }
      return Some(t);
    }
    r := None;
  }

  // ---------- One refill ----------

  /** The tracks picked by a series of tries, as a set and in order. */
  function Taken(tried: seq<Option<int>>): set<int>
  {
    set i | 0 <= i < |tried| && tried[i].Some? :: tried[i].value
  }

  function Tracks(tried: seq<Option<int>>): seq<int>
  {
    if tried == [] then []
    else
      var before, last := Tracks(tried[..|tried| - 1]), tried[|tried| - 1];
      if last.Some? then before + [last.value] else before
  }

  /** The remainder, by repeated subtraction. */
  function Mod(a: nat, n: nat): (r: nat)
    requires n > 0
    ensures r < n
  {
    if a < n then a else Mod(a - n, n)
  }

  /** `k` full rounds of `n` tries. */
  function Rounds(n: nat, k: nat): nat
  {
    if k == 0 then 0 else Rounds(n, k - 1) + n
  }

  lemma {:induction false} RoundsIs(n: nat, k: nat)
    ensures Rounds(n, k) == n * k
  {
    if k > 0 {
      RoundsIs(n, k - 1);
      assert n * k == n * (k - 1) + n;
    }
  }

  lemma {:induction false} ModOfRounds(n: nat, k: nat, r: nat)
    requires r < n
    ensures Mod(Rounds(n, k) + r, n) == r
  {
    if k > 0 { ModOfRounds(n, k - 1, r); }
  }

  lemma ModIsRemainder(a: nat, n: nat)
    requires n > 0
    ensures Mod(a, n) == a % n
  {
    RemainderIsMod(a, n, a / n, a % n);
  }

  lemma RemainderIsMod(a: nat, n: nat, q: nat, r: nat)
    requires r < n && a == n * q + r
    ensures Mod(a, n) == r
  {
    RoundsIs(n, q);
    ModOfRounds(n, q, r);
  }

  lemma {:induction false} ModAdd(a: nat, b: nat, n: nat)
    requires n > 0
    ensures Mod(Mod(a, n) + b, n) == Mod(a + b, n)
  {
    if a >= n { ModAdd(a - n, b, n); }
  }

  /** The rotation slot of try number `a`. */
  function SlotAt(start: nat, n: nat, a: nat): (slot: nat)
    requires n > 0
    ensures slot < n
  {
    Mod(start + a, n)
  }

  predicate Tries(w: World, queue: seq<int>, rotation: seq<Slot>, start: nat, tried: seq<Option<int>>)
    requires rotation != []
  {
    if tried == [] then true
    else
      var n := |tried| - 1;
      Tries(w, queue, rotation, start, tried[..n])
      && PickOf(w, queue, Taken(tried[..n]), rotation[SlotAt(start, |rotation|, n)], tried[n])
  }

  lemma {:induction false} TryAt(w: World, queue: seq<int>, rotation: seq<Slot>, start: nat, tried: seq<Option<int>>,
                                 a: nat)
    requires rotation != [] && Tries(w, queue, rotation, start, tried) && a < |tried|
    ensures PickOf(w, queue, Taken(tried[..a]), rotation[SlotAt(start, |rotation|, a)], tried[a])
    decreases |tried|
  {
    var n := |tried| - 1;
    if a < n {
      TryAt(w, queue, rotation, start, tried[..n], a);
      assert tried[..n][..a] == tried[..a];
    }
  }

  /** The number of tries a refill may take: a round for each missing row. */
  function MaxTries(n: nat, needed: nat): nat
  {
    Rounds(n, if needed > 1 then needed else 1)
  }

  /** Slots are tried one after the other until enough is picked or the tries are used up. */
  predicate Refill(w: World, queue: seq<int>, rotation: seq<Slot>, start: nat, needed: nat, tried: seq<Option<int>>)
    requires rotation != []
  {
    && Tries(w, queue, rotation, start, tried)
    && |tried| <= MaxTries(|rotation|, needed) && |Tracks(tried)| <= needed
    && (|Tracks(tried)| == needed || |tried| == MaxTries(|rotation|, needed))
    && (tried != [] ==> |Tracks(tried[..|tried| - 1])| < needed)
  }

  /** What is enqueued for a pick. */
  datatype Item = Item(track: int, slot: Slot, rotationIndex: nat)

  function Items(rotation: seq<Slot>, start: nat, tried: seq<Option<int>>): (items: seq<Item>)
    requires rotation != []
    ensures |items| == |Tracks(tried)|
    ensures forall i :: 0 <= i < |items| ==>
      && items[i].track == Tracks(tried)[i]
      && items[i].rotationIndex < |rotation| && items[i].slot == rotation[items[i].rotationIndex]
  {
    if tried == [] then []
    else
      var n := |tried| - 1;
      var before, at := Items(rotation, start, tried[..n]), SlotAt(start, |rotation|, n);
      if tried[n].Some? then before + [Item(tried[n].value, rotation[at], at)] else before
  }

  lemma OneMoreTry(tried: seq<Option<int>>, r: Option<int>)
    ensures Tracks(tried + [r]) == Tracks(tried) + if r.Some? then [r.value] else []
    ensures Taken(tried + [r]) == Taken(tried) + if r.Some? then {r.value} else {}
  {
    assert (tried + [r])[..|tried|] == tried;
    assert Tracks(tried) + [] == Tracks(tried);
    forall i | 0 <= i < |tried| ensures (tried + [r])[i] == tried[i] { }
    assert (tried + [r])[|tried|] == r;
  }

  lemma TriesExtend(w: World, queue: seq<int>, rotation: seq<Slot>, start: nat, tried: seq<Option<int>>, r: Option<int>)
    requires rotation != [] && Tries(w, queue, rotation, start, tried)
    requires PickOf(w, queue, Taken(tried), rotation[SlotAt(start, |rotation|, |tried|)], r)
    ensures Tries(w, queue, rotation, start, tried + [r])
  {
    assert (tried + [r])[..|tried|] == tried;
  }

  /** The state of the loop of a refill after some tries. */
  predicate Underway(w: World, queue: seq<int>, rotation: seq<Slot>, start: nat, needed: nat,
                     tried: seq<Option<int>>, picked: seq<Item>, pickedIds: set<int>)
    requires rotation != []
  {
    && Tries(w, queue, rotation, start, tried) && pickedIds == Taken(tried)
    && picked == Items(rotation, start, tried) && |Tracks(tried)| <= needed
    && (tried != [] ==> |Tracks(tried[..|tried| - 1])| < needed)
  }

  lemma TryGoesOn(w: World, queue: seq<int>, rotation: seq<Slot>, start: nat, needed: nat,
                  tried: seq<Option<int>>, picked: seq<Item>, pickedIds: set<int>, r: Option<int>)
    requires rotation != [] && Underway(w, queue, rotation, start, needed, tried, picked, pickedIds)
    requires |picked| < needed
    requires PickOf(w, queue, pickedIds, rotation[SlotAt(start, |rotation|, |tried|)], r)
    ensures var at := SlotAt(start, |rotation|, |tried|);
            Underway(w, queue, rotation, start, needed, tried + [r],
                     if r.Some? then picked + [Item(r.value, rotation[at], at)] else picked,
                     if r.Some? then pickedIds + {r.value} else pickedIds)
  {
    TriesExtend(w, queue, rotation, start, tried, r);
    OneMoreTry(tried, r);
    OneMoreItem(rotation, start, tried, r);
    assert picked + [] == picked;
  }

  /** The loop of a refill. */
  method TrySlots(w: World, queue: seq<int>, rotation: seq<Slot>, start: nat, needed: nat)
      returns (picked: seq<Item>, index: nat)
    requires rotation != [] && needed > 0
    ensures Refilled(w, queue, rotation, start, needed, picked, index)
  {
    picked, index := [], start;
    var pickedIds: set<int>, attempts := {}, 0;
    var limit := TryLimit(|rotation|, needed);
    ghost var tried: seq<Option<int>> := [];
    while |picked| < needed && attempts < limit
      invariant |tried| == attempts <= limit && index == start + attempts
      invariant Underway(w, queue, rotation, start, needed, tried, picked, pickedIds)
      decreases limit - attempts
    {
      ModIsRemainder(index, |rotation|);
      var at := index % |rotation|;
      index := index + 1;
      attempts := attempts + 1;
      var r := PickTrack(w, queue, pickedIds, rotation[at]);
      TryGoesOn(w, queue, rotation, start, needed, tried, picked, pickedIds, r);
      tried := tried + [r];
      if r.None? { continue; }
      pickedIds := pickedIds + {r.value};
      picked := picked + [Item(r.value, rotation[at], at)];
    }
    RefillDone(w, queue, rotation, start, needed, tried, picked, pickedIds);
  }

  /** max(len(rotation), len(rotation) * max(1, needed)) */
  method TryLimit(n: nat, needed: nat) returns (limit: nat)
    requires needed > 0
    ensures limit == MaxTries(n, needed)
  {
    RoundsIs(n, needed);
    limit := n * if needed > 1 then needed else 1;
    if n > limit { limit := n; }
  }

  lemma RefillDone(w: World, queue: seq<int>, rotation: seq<Slot>, start: nat, needed: nat,
                   tried: seq<Option<int>>, picked: seq<Item>, pickedIds: set<int>)
    requires rotation != [] && Underway(w, queue, rotation, start, needed, tried, picked, pickedIds)
    requires |tried| <= MaxTries(|rotation|, needed)
    requires |picked| == needed || |tried| == MaxTries(|rotation|, needed)
    ensures Refilled(w, queue, rotation, start, needed, picked, start + |tried|)
  {
    assert Refill(w, queue, rotation, start, needed, tried);
  }

  lemma OneMoreItem(rotation: seq<Slot>, start: nat, tried: seq<Option<int>>, r: Option<int>)
    requires rotation != []
    ensures (tried + [r])[..|tried + [r]| - 1] == tried
    ensures var at := SlotAt(start, |rotation|, |tried|);
            Items(rotation, start, tried + [r]) ==
            Items(rotation, start, tried) + if r.Some? then [Item(r.value, rotation[at], at)] else []
  {
    assert (tried + [r])[..|tried|] == tried;
    assert Items(rotation, start, tried) + [] == Items(rotation, start, tried);
  }

  // ---------- When a refill falls short ----------

  predicate Fruitless(tried: seq<Option<int>>, lo: nat, hi: nat)
  {
    lo <= hi <= |tried| && forall a :: lo <= a < hi ==> tried[a].None?
  }

  lemma {:induction false} FruitlessTakesNothing(tried: seq<Option<int>>, lo: nat, hi: nat)
    requires Fruitless(tried, lo, hi)
    ensures Taken(tried[..hi]) == Taken(tried[..lo]) && Tracks(tried[..hi]) == Tracks(tried[..lo])
  {
    if lo < hi {
      FruitlessTakesNothing(tried, lo, hi - 1);
      assert tried[..hi] == tried[..hi - 1] + [tried[hi - 1]];
      OneMoreTry(tried[..hi - 1], tried[hi - 1]);
    }
  }

  lemma {:induction false} TracksGrow(tried: seq<Option<int>>, lo: nat, hi: nat)
    requires lo <= hi <= |tried|
    ensures |Tracks(tried[..lo])| <= |Tracks(tried[..hi])|
    ensures !Fruitless(tried, lo, hi) ==> |Tracks(tried[..lo])| < |Tracks(tried[..hi])|
  {
    if lo < hi {
      TracksGrow(tried, lo, hi - 1);
      assert tried[..hi] == tried[..hi - 1] + [tried[hi - 1]];
      OneMoreTry(tried[..hi - 1], tried[hi - 1]);
    }
  }

  /** Of `k` full rounds, one picks nothing or `k` tracks are picked. */
  lemma {:induction false} SomeRoundIsFruitless(tried: seq<Option<int>>, n: nat, k: nat) returns (lo: nat)
    requires Rounds(n, k) <= |tried| && |Tracks(tried[..Rounds(n, k)])| < k
    ensures lo + n <= |tried| && Fruitless(tried, lo, lo + n)
  {
    lo := Rounds(n, k - 1);
    if !Fruitless(tried, lo, lo + n) {
      TracksGrow(tried, lo, lo + n);
      lo := SomeRoundIsFruitless(tried, n, k - 1);
    }
  }

  /** Any `n` tries in a row reach every slot. */
  lemma RoundReaches(start: nat, n: nat, lo: nat, slot: nat) returns (a: nat)
    requires slot < n
    ensures lo <= a < lo + n && SlotAt(start, n, a) == slot
  {
    var first := Mod(start + lo, n);
    var ahead := if first <= slot then slot - first else slot + n - first;
    a := lo + ahead;
    ModAdd(start + lo, ahead, n);
    assert first + ahead == slot || Mod(first + ahead, n) == Mod(slot, n);
  }

  /** Nothing can be picked for any slot. */
  predicate Exhausted(w: World, queue: seq<int>, picked: set<int>, rotation: seq<Slot>)
  {
    forall s :: 0 <= s < |rotation| ==> PickOf(w, queue, picked, rotation[s], None)
  }

  lemma FruitlessRoundExhausts(w: World, queue: seq<int>, rotation: seq<Slot>, start: nat, tried: seq<Option<int>>,
                               lo: nat)
    requires rotation != [] && Tries(w, queue, rotation, start, tried)
    requires Fruitless(tried, lo, lo + |rotation|)
    ensures Exhausted(w, queue, Taken(tried[..lo]), rotation)
  {
    forall s | 0 <= s < |rotation| ensures PickOf(w, queue, Taken(tried[..lo]), rotation[s], None) {
      var a := RoundReaches(start, |rotation|, lo, s);
      FruitlessTakesNothing(tried, lo, a);
      TryAt(w, queue, rotation, start, tried, a);
    }
  }

  lemma {:induction false} ExhaustedStays(w: World, queue: seq<int>, rotation: seq<Slot>, start: nat,
                                          tried: seq<Option<int>>, lo: nat, hi: nat)
    requires rotation != [] && Tries(w, queue, rotation, start, tried) && lo <= hi <= |tried|
    requires Exhausted(w, queue, Taken(tried[..lo]), rotation)
    ensures Fruitless(tried, lo, hi)
  {
    if lo < hi {
      ExhaustedStays(w, queue, rotation, start, tried, lo, hi - 1);
      FruitlessTakesNothing(tried, lo, hi - 1);
      var slot := rotation[SlotAt(start, |rotation|, hi - 1)];
      TryAt(w, queue, rotation, start, tried, hi - 1);
      assert PickOf(w, queue, Taken(tried[..lo]), slot, None);
    }
  }

  /** A refill falls short only when, with its own picks counted, no slot of the rotation
      has anything to pick: the limit on the tries never cuts a refill short. */
  lemma ShortRefillIsExhausted(w: World, queue: seq<int>, rotation: seq<Slot>, start: nat, needed: nat,
                               tried: seq<Option<int>>)
    requires rotation != [] && Refill(w, queue, rotation, start, needed, tried) && |Tracks(tried)| < needed
    ensures Exhausted(w, queue, Taken(tried), rotation)
  {
    var n := |rotation|;
    assert tried[..|tried|] == tried;
    var lo := SomeRoundIsFruitless(tried, n, needed);
    FruitlessRoundExhausts(w, queue, rotation, start, tried, lo);
    ExhaustedStays(w, queue, rotation, start, tried, lo, |tried|);
    FruitlessTakesNothing(tried, lo, |tried|);
  }

  /** So one norules slot with a track keeps every refill complete. */
  lemma NoRulesSlotFillsTheQueue(w: World, queue: seq<int>, rotation: seq<Slot>, start: nat, needed: nat,
                                 tried: seq<Option<int>>, slot: nat, track: int)
    requires rotation != [] && Refill(w, queue, rotation, start, needed, tried)
    requires slot < |rotation| && rotation[slot].norules && track > 0 && track in Candidates(w, rotation[slot].category)
    ensures |Tracks(tried)| == needed
  {
    if |Tracks(tried)| < needed { ShortRefillIsExhausted(w, queue, rotation, start, needed, tried); }
  }

  // ---------- What a refill enqueues ----------

  lemma TakenAt(tried: seq<Option<int>>, a: nat)
    requires a < |tried| && tried[a].Some?
    ensures tried[a].value in Taken(tried)
  {
  }

  /** A slot may give a track that is queued or picked already exactly when it is a norules
      slot and its category has tracks, but no other one left. */
  lemma RepeatsExactlyWhenNothingElse(w: World, queue: seq<int>, picked: set<int>, slot: Slot)
    ensures (exists t :: (t in queue || t in picked) && PickOf(w, queue, picked, slot, Some(t)))
            <==> && slot.norules && (exists t :: t in Candidates(w, slot.category) && t > 0)
                 && forall t :: t in Candidates(w, slot.category) && t > 0 ==> t in queue || t in picked
  {
    var candidates := Candidates(w, slot.category);
    if slot.norules && (exists t :: t in candidates && t > 0)
       && forall t :: t in candidates && t > 0 ==> t in queue || t in picked {
      var t :| t in candidates && t > 0;
      assert PickOf(w, queue, picked, slot, Some(t));
    }
  }

  /** So a track comes twice in one refill only from such a slot. */
  lemma RefillRepeatsOnlyThen(w: World, queue: seq<int>, rotation: seq<Slot>, start: nat,
                              tried: seq<Option<int>>, a: nat, b: nat)
    requires rotation != [] && Tries(w, queue, rotation, start, tried)
    requires a < b < |tried| && tried[a].Some? && tried[a] == tried[b]
    ensures var slot := rotation[SlotAt(start, |rotation|, b)];
            slot.norules && forall t :: t in Candidates(w, slot.category) && t > 0 ==>
              t in queue || t in Taken(tried[..b])
  {
    TakenAt(tried[..b], a);
    TryAt(w, queue, rotation, start, tried, b);
  }

  // ---------- The artist and the title rule within a refill ----------

  datatype Rule = ArtistRule | TitleRule

  predicate IsOn(w: World, rule: Rule)
  {
    if rule.ArtistRule? then w.rules.artist > 0 else w.rules.title > 0
  }

  /** What the rule does not repeat: the track's artist or its title. */
  function NameOf(w: World, rule: Rule, track: int): string
  {
    if rule.ArtistRule? then TagOf(w, track).artist else TagOf(w, track).title
  }

  /** A ruled slot gives a track that shares its name with an earlier pick. */
  predicate RepeatsName(w: World, rule: Rule, rotation: seq<Slot>, start: nat, tried: seq<Option<int>>, a: nat, b: nat)
    requires rotation != []
  {
    && a < b < |tried| && tried[a].Some? && tried[b].Some? && !rotation[SlotAt(start, |rotation|, b)].norules
    && NameOf(w, rule, tried[b].value) != "" && NameOf(w, rule, tried[a].value) == NameOf(w, rule, tried[b].value)
  }

  predicate KeepsNamesApart(w: World, rule: Rule, rotation: seq<Slot>, start: nat, tried: seq<Option<int>>)
    requires rotation != []
  {
    forall a: nat, b: nat :: a < b < |tried| ==> !RepeatsName(w, rule, rotation, start, tried, a, b)
  }

  /** No refill of `needed` rows from this rotation goes against the rule, wherever it starts. */
  ghost predicate RuleHoldsIn(w: World, rule: Rule, queue: seq<int>, rotation: seq<Slot>, needed: nat)
    requires rotation != []
  {
    forall start, tried :: Refill(w, queue, rotation, start, needed, tried) ==>
      KeepsNamesApart(w, rule, rotation, start, tried)
  }

  /** Nor from any other rotation. */
  ghost predicate RuleHolds(w: World, rule: Rule, queue: seq<int>, needed: nat)
  {
    forall rotation :: rotation != [] ==> RuleHoldsIn(w, rule, queue, rotation, needed)
  }

  /** Track `u` of category `d` is allowed as the queue stands, and `t` of category `c` is
      another track of its artist, or title. */
  predicate Clash(w: World, rule: Rule, queue: seq<int>, t: int, c: int, u: int, d: int)
  {
    && t != u && t > 0 && t in Candidates(w, c) && u in Candidates(w, d) && !Blocked(w, queue, {}, u)
    && NameOf(w, rule, u) != "" && NameOf(w, rule, t) == NameOf(w, rule, u)
  }

  ghost predicate CanClash(w: World, rule: Rule, queue: seq<int>)
  {
    exists t, c, u, d :: Clash(w, rule, queue, t, c, u, d)
  }

  lemma PickExists(w: World, queue: seq<int>, picked: set<int>, slot: Slot) returns (r: Option<int>)
    ensures PickOf(w, queue, picked, slot, r)
  {
    var candidates := Candidates(w, slot.category);
    if slot.norules {
      if other :| other in candidates && other > 0 && other !in queue && other !in picked {
        r := Some(other);
      } else if t :| t in candidates && t > 0 {
        r := Some(t);
      } else {
        r := None;
      }
    } else if t :| t in candidates && !Blocked(w, queue, picked, t) {
      r := Some(t);
    } else {
      r := None;
    }
  }

  /** Tries can always be carried on to the end of a refill. */
  lemma {:induction false} RefillGoesOn(w: World, queue: seq<int>, rotation: seq<Slot>, start: nat, needed: nat,
                                        tried: seq<Option<int>>) returns (all: seq<Option<int>>)
    requires rotation != [] && Tries(w, queue, rotation, start, tried)
    requires |tried| <= MaxTries(|rotation|, needed) && |Tracks(tried)| <= needed
    requires tried != [] ==> |Tracks(tried[..|tried| - 1])| < needed
    ensures Refill(w, queue, rotation, start, needed, all) && tried <= all
    decreases MaxTries(|rotation|, needed) - |tried|
  {
    if |Tracks(tried)| == needed || |tried| == MaxTries(|rotation|, needed) {
      all := tried;
    } else {
      var r := PickExists(w, queue, Taken(tried), rotation[SlotAt(start, |rotation|, |tried|)]);
      TriesExtend(w, queue, rotation, start, tried, r);
      OneMoreTry(tried, r);
      assert (tried + [r])[..|tried|] == tried;
      all := RefillGoesOn(w, queue, rotation, start, needed, tried + [r]);
    }
  }

  /** What is allowed with some tracks picked is allowed with none. */
  lemma PickWasAllowed(w: World, queue: seq<int>, picked: set<int>, slot: Slot, t: int)
    requires PickOf(w, queue, picked, slot, Some(t))
    ensures t in Candidates(w, slot.category) && t > 0
    ensures !slot.norules ==> t !in picked && !Blocked(w, queue, {}, t)
  {
  }

  lemma RepeatIsAClash(w: World, rule: Rule, queue: seq<int>, rotation: seq<Slot>, start: nat,
                       tried: seq<Option<int>>, a: nat, b: nat)
    requires rotation != [] && Tries(w, queue, rotation, start, tried)
    requires RepeatsName(w, rule, rotation, start, tried, a, b)
    ensures var c, d := SlotAt(start, |rotation|, a), SlotAt(start, |rotation|, b);
            && Clash(w, rule, queue, tried[a].value, rotation[c].category, tried[b].value, rotation[d].category)
            && (!rotation[c].norules ==> !Blocked(w, queue, {}, tried[a].value))
  {
    var c, d := rotation[SlotAt(start, |rotation|, a)], rotation[SlotAt(start, |rotation|, b)];
    TryAt(w, queue, rotation, start, tried, a);
    TryAt(w, queue, rotation, start, tried, b);
    PickWasAllowed(w, queue, Taken(tried[..a]), c, tried[a].value);
    PickWasAllowed(w, queue, Taken(tried[..b]), d, tried[b].value);
    TakenAt(tried[..b], a);
  }

  /** With the rule on, a track whose name is in the queue is blocked. */
  lemma ClashIsNotQueued(w: World, rule: Rule, queue: seq<int>, t: int, c: int, u: int, d: int)
    requires IsOn(w, rule) && Clash(w, rule, queue, t, c, u, d)
    ensures t !in queue
  {
    QueuedNameRepeats(w, queue, t);
  }

  lemma QueuedNameRepeats(w: World, queue: seq<int>, t: int)
    ensures t in queue ==> ArtistRepeats(w, queue, TagOf(w, t).artist) && TitleRepeats(w, queue, TagOf(w, t).title)
  {
    if t in queue {
      var i :| 0 <= i < |queue| && queue[i] == t;
      assert TagOf(w, queue[i]) == TagOf(w, t);
    }
  }

  /** Both tracks are picked when their categories are tried in turn. */
  lemma ClashTries(w: World, rule: Rule, queue: seq<int>, t: int, c: int, u: int, d: int, rotation: seq<Slot>)
    requires IsOn(w, rule) && Clash(w, rule, queue, t, c, u, d) && rotation == [Slot(c, true), Slot(d, false)]
    ensures Tries(w, queue, rotation, 0, [Some(t), Some(u)])
    ensures |Tracks([Some(t), Some(u)])| == 2 && |Tracks([Some(t)])| == 1
  {
    ClashIsNotQueued(w, rule, queue, t, c, u, d);
    OneMoreTry([], Some(t));
    OneMoreTry([Some(t)], Some(u));
    assert [] + [Some(t)] == [Some(t)] && [Some(t)] + [Some(u)] == [Some(t), Some(u)];
    TriesExtend(w, queue, rotation, 0, [], Some(t));
    assert PickOf(w, queue, Taken([Some(t)]), rotation[SlotAt(0, 2, 1)], Some(u));
    TriesExtend(w, queue, rotation, 0, [Some(t)], Some(u));
  }

  lemma ClashIsARepeat(w: World, rule: Rule, queue: seq<int>, needed: nat, t: int, c: int, u: int, d: int)
    requires IsOn(w, rule) && needed > 1 && Clash(w, rule, queue, t, c, u, d)
    ensures !RuleHolds(w, rule, queue, needed)
  {
    var rotation := [Slot(c, true), Slot(d, false)];
    ClashTries(w, rule, queue, t, c, u, d, rotation);
    assert [Some(t), Some(u)][..1] == [Some(t)];
    RoundsIs(2, needed);
    var all := RefillGoesOn(w, queue, rotation, 0, needed, [Some(t), Some(u)]);
    assert all[0] == Some(t) && all[1] == Some(u);
    assert RepeatsName(w, rule, rotation, 0, all, 0, 1);
    assert !KeepsNamesApart(w, rule, rotation, 0, all);
    assert !RuleHoldsIn(w, rule, queue, rotation, needed);
  }

  /** The rule holds within every refill, of any rotation, exactly when refills are of one row,
      or no allowed track shares its artist, or title, with another track of any category. */
  lemma RuleHoldsExactlyWhen(w: World, rule: Rule, queue: seq<int>, needed: nat)
    requires IsOn(w, rule)
    ensures RuleHolds(w, rule, queue, needed) <==> needed <= 1 || !CanClash(w, rule, queue)
  {
    if needed > 1 && CanClash(w, rule, queue) {
      var t, c, u, d :| Clash(w, rule, queue, t, c, u, d);
      ClashIsARepeat(w, rule, queue, needed, t, c, u, d);
    } else {
      forall rotation: seq<Slot> | rotation != [] ensures RuleHoldsIn(w, rule, queue, rotation, needed) {
        forall start, tried | Refill(w, queue, rotation, start, needed, tried)
          ensures KeepsNamesApart(w, rule, rotation, start, tried)
        {
          forall a: nat, b: nat | a < b < |tried| ensures !RepeatsName(w, rule, rotation, start, tried, a, b) {
            if RepeatsName(w, rule, rotation, start, tried, a, b) {
              RepeatIsAClash(w, rule, queue, rotation, start, tried, a, b);
              TwoPicks(tried, a, b);
            }
          }
        }
      }
    }
  }

  lemma {:induction false} TwoPicks(tried: seq<Option<int>>, a: nat, b: nat)
    requires a < b < |tried| && tried[a].Some? && tried[b].Some?
    ensures |Tracks(tried)| >= 2
  {
    TracksGrow(tried, 0, a + 1);
    TracksGrow(tried, a + 1, b + 1);
    TracksGrow(tried, b + 1, |tried|);
    assert !Fruitless(tried, 0, a + 1) && !Fruitless(tried, a + 1, b + 1);
    assert tried[..|tried|] == tried;
  }

  /** In every library, then, exactly for refills of at most one row. */
  lemma RuleIsSafeExactlyWhen(rule: Rule, needed: nat)
    ensures (forall w: World, queue: seq<int> :: IsOn(w, rule) ==> RuleHolds(w, rule, queue, needed)) <==> needed <= 1
  {
    if needed <= 1 {
      forall w: World, queue: seq<int> | IsOn(w, rule) ensures RuleHolds(w, rule, queue, needed) {
        RuleHoldsExactlyWhen(w, rule, queue, needed);
      }
    } else {
      var w := World(Rules(60, 60, 60), map[1 := Tag("a", "x"), 2 := Tag("a", "x")], map[5 := [1, 2]], [],
                     Tag("", ""), 0);
      assert Clash(w, rule, [], 1, 5, 2, 5);
      ClashIsARepeat(w, rule, [], needed, 1, 5, 2, 5);
    }
  }

  // One rotation of ruled slots.

  /** Two different tracks that slots `p` and `q` may give share their artist, or title. */
  predicate SlotsClash(w: World, rule: Rule, queue: seq<int>, rotation: seq<Slot>, t: int, p: nat, u: int, q: nat)
    requires p < |rotation| && q < |rotation|
  {
    !Blocked(w, queue, {}, t) && Clash(w, rule, queue, t, rotation[p].category, u, rotation[q].category)
  }

  ghost predicate RotationClashes(w: World, rule: Rule, queue: seq<int>, rotation: seq<Slot>)
  {
    exists t, p: nat, u, q: nat :: p < |rotation| && q < |rotation| && SlotsClash(w, rule, queue, rotation, t, p, u, q)
  }

  predicate AllRuled(rotation: seq<Slot>)
  {
    forall s :: 0 <= s < |rotation| ==> !rotation[s].norules
  }

  /** Tries can be carried on to any length. */
  lemma {:induction false} TriesGoOn(w: World, queue: seq<int>, rotation: seq<Slot>, start: nat,
                                     tried: seq<Option<int>>, n: nat) returns (more: seq<Option<int>>)
    requires rotation != [] && Tries(w, queue, rotation, start, tried) && |tried| <= n
    ensures Tries(w, queue, rotation, start, more) && tried <= more && |more| == n
    decreases n - |tried|
  {
    if |tried| == n {
      more := tried;
    } else {
      var r := PickExists(w, queue, Taken(tried), rotation[SlotAt(start, |rotation|, |tried|)]);
      TriesExtend(w, queue, rotation, start, tried, r);
      more := TriesGoOn(w, queue, rotation, start, tried + [r], n);
    }
  }

  lemma {:induction false} FewTracks(tried: seq<Option<int>>)
    ensures |Tracks(tried)| <= |tried|
  {
    if tried != [] { FewTracks(tried[..|tried| - 1]); }
  }

  /** `u` comes when its slot is reached, if not before. */
  lemma NameComesAgain(w: World, rule: Rule, queue: seq<int>, rotation: seq<Slot>, t: int, p: nat, u: int, q: nat)
      returns (tried: seq<Option<int>>, b: nat)
    requires p < |rotation| && q < |rotation| && AllRuled(rotation) && SlotsClash(w, rule, queue, rotation, t, p, u, q)
    ensures Tries(w, queue, rotation, p, tried) && |tried| <= |rotation| + 1
    ensures RepeatsName(w, rule, rotation, p, tried, 0, b)
  {
    var n := |rotation|;
    assert SlotAt(p, n, 0) == p && Taken([]) == {};
    TriesExtend(w, queue, rotation, p, [], Some(t));
    assert [] + [Some(t)] == [Some(t)];
    b := RoundReaches(p, n, 1, q);
    tried := TriesGoOn(w, queue, rotation, p, [Some(t)], b);
    assert tried[0] == Some(t);
    if u in Taken(tried) {
      b :| 0 <= b < |tried| && tried[b] == Some(u);
    } else {
      TriesExtend(w, queue, rotation, p, tried, Some(u));
      tried := tried + [Some(u)];
    }
  }

  lemma RotationBreaksRule(w: World, rule: Rule, queue: seq<int>, rotation: seq<Slot>, needed: nat, t: int, p: nat,
                           u: int, q: nat)
    requires p < |rotation| < needed && q < |rotation| && AllRuled(rotation)
    requires SlotsClash(w, rule, queue, rotation, t, p, u, q)
    ensures !RuleHoldsIn(w, rule, queue, rotation, needed)
  {
    var tried, b := NameComesAgain(w, rule, queue, rotation, t, p, u, q);
    FewTracks(tried);
    FewTracks(tried[..|tried| - 1]);
    assert Rounds(|rotation|, needed) == Rounds(|rotation|, needed - 1) + |rotation|;
    assert Rounds(|rotation|, needed - 1) == Rounds(|rotation|, needed - 2) + |rotation|;
    var all := RefillGoesOn(w, queue, rotation, p, needed, tried);
    assert all[0] == tried[0] && all[b] == tried[b];
    assert RepeatsName(w, rule, rotation, p, all, 0, b);
    assert !KeepsNamesApart(w, rule, rotation, p, all);
  }

  /** Within the refills of a rotation without norules slots, of more rows than it has, the
      rule holds exactly when no two allowed tracks of its categories share their artist, or
      title; and then for fewer rows, too. */
  lemma RuleHoldsInExactlyWhen(w: World, rule: Rule, queue: seq<int>, rotation: seq<Slot>, needed: nat)
    requires rotation != [] && AllRuled(rotation)
    ensures !RotationClashes(w, rule, queue, rotation) ==> RuleHoldsIn(w, rule, queue, rotation, needed)
    ensures needed > |rotation| ==>
              (RuleHoldsIn(w, rule, queue, rotation, needed) <==> !RotationClashes(w, rule, queue, rotation))
  {
    if RotationClashes(w, rule, queue, rotation) {
      if needed > |rotation| {
        var t, p: nat, u, q: nat :| p < |rotation| && q < |rotation|
            && SlotsClash(w, rule, queue, rotation, t, p, u, q);
        RotationBreaksRule(w, rule, queue, rotation, needed, t, p, u, q);
      }
    } else {
      forall start, tried: seq<Option<int>> | Refill(w, queue, rotation, start, needed, tried)
        ensures KeepsNamesApart(w, rule, rotation, start, tried)
      {
        forall a: nat, b: nat | a < b < |tried| ensures !RepeatsName(w, rule, rotation, start, tried, a, b) {
          if RepeatsName(w, rule, rotation, start, tried, a, b) {
            RepeatIsAClash(w, rule, queue, rotation, start, tried, a, b);
            assert SlotsClash(w, rule, queue, rotation, tried[a].value, SlotAt(start, |rotation|, a),
                              tried[b].value, SlotAt(start, |rotation|, b));
          }
        }
      }
    }
  }

  // ---------- The rotation cursor ----------

  /** What tells two rotations apart in the database: position:category:norules, joined by bars. */
  function Signature(rotation: seq<Slot>): string
  {
    if rotation == [] then ""
    else
      var n := |rotation| - 1;
      if n == 0 then Part(n, rotation[n]) else Signature(rotation[..n]) + "|" + Part(n, rotation[n])
  }

  function Part(position: nat, slot: Slot): string
  {
    Text(position) + ":" + IntText(slot.category) + ":" + if slot.norules then "1" else "0"
  }

  lemma PartChars(position: nat, slot: Slot)
    ensures '|' !in Part(position, slot) && Part(position, slot) != ""
  {
    assert '|' !in Text(position) && '|' !in IntText(slot.category);
  }

  lemma PartTells(m: nat, a: Slot, n: nat, b: Slot)
    requires Part(m, a) == Part(n, b)
    ensures m == n && a == b
  {
    var x, y := IntText(a.category), IntText(b.category);
    var f, g := if a.norules then "1" else "0", if b.norules then "1" else "0";
    assert Part(m, a) == Text(m) + [':'] + (x + [':'] + f);
    assert Part(n, b) == Text(n) + [':'] + (y + [':'] + g);
    SplitsOneWay(':', Text(m), x + [':'] + f, Text(n), y + [':'] + g);
    SplitsOneWay(':', x, f, y, g);
    IntTextTells(a.category, b.category);
    ValueOfText(m);
    ValueOfText(n);
  }

  /** Only the same rotation has the same signature. */
  lemma {:induction false} SignatureTells(r: seq<Slot>, s: seq<Slot>)
    requires Signature(r) == Signature(s)
    ensures r == s
    decreases |r|
  {
    var m, n := |r| - 1, |s| - 1;
    SignatureShape(r);
    SignatureShape(s);
    if m > 0 && n > 0 {
      SignaturesSplit(r, s);
      SignatureTells(r[..m], s[..n]);
      PartTells(m, r[m], n, s[n]);
      SameEnds(r, s);
    } else if m == 0 && n == 0 {
      PartTells(m, r[m], n, s[n]);
    }
  }

  lemma SameEnds(r: seq<Slot>, s: seq<Slot>)
    requires |r| == |s| > 0 && r[..|r| - 1] == s[..|s| - 1] && r[|r| - 1] == s[|s| - 1]
    ensures r == s
  {
    assert r == r[..|r| - 1] + [r[|r| - 1]];
  }

  lemma SignatureShape(r: seq<Slot>)
    ensures Signature(r) == "" <==> r == []
    ensures '|' in Signature(r) <==> |r| > 1
  {
    if r != [] { PartChars(|r| - 1, r[|r| - 1]); }
    if |r| > 1 { assert Signature(r)[|Signature(r[..|r| - 1])|] == '|'; }
  }

  lemma SignaturesSplit(r: seq<Slot>, s: seq<Slot>)
    requires |r| > 1 && |s| > 1 && Signature(r) == Signature(s)
    ensures Signature(r[..|r| - 1]) == Signature(s[..|s| - 1]) && Part(|r| - 1, r[|r| - 1]) == Part(|s| - 1, s[|s| - 1])
  {
    var m, n := |r| - 1, |s| - 1;
    PartChars(m, r[m]);
    PartChars(n, s[n]);
    SplitsOneWay('|', Signature(r[..m]), Part(m, r[m]), Signature(s[..n]), Part(n, s[n]));
  }

  /** The stored position in the rotation, and the rotation it belongs to. */
  datatype Cursor = NoCursor | Cursor(index: nat, signature: string)

  /** get_rotation_cursor: another rotation starts afresh. */
  function StartOf(c: Cursor, rotation: seq<Slot>): (start: nat)
    requires rotation != []
    ensures start < |rotation|
  {
    if c.Cursor? && c.signature == Signature(rotation) then Mod(c.index, |rotation|) else 0
  }

  function Touched(c: Cursor, rotation: seq<Slot>): Cursor
  {
    if c.Cursor? && c.signature == Signature(rotation) then c else Cursor(0, Signature(rotation))
  }

  datatype Station = Station(queue: seq<int>, cursor: Cursor)

  /** One call of fill_queue_once with these settings; `tried` are its tries. */
  ghost predicate FillStep(s: Station, w: World, keep: nat, rotation: seq<Slot>, tried: seq<Option<int>>,
                           after: Station)
  {
    if keep == 0 || rotation == [] then after == s && tried == []
    else if |s.queue| >= keep then after == s.(cursor := Touched(s.cursor, rotation)) && tried == []
    else exists start, needed :: start == StartOf(s.cursor, rotation) && |s.queue| + needed == keep
                                 && Advances(s, w, rotation, start, needed, tried, after)
  }

  /** A refill from slot `start` for `needed` rows, and what it leaves. */
  predicate Advances(s: Station, w: World, rotation: seq<Slot>, start: nat, needed: nat,
                     tried: seq<Option<int>>, after: Station)
    requires rotation != []
  {
    && Refill(w, s.queue, rotation, start, needed, tried)
    && after.queue == s.queue + Tracks(tried)
    && after.cursor == Cursor(start + |tried|, Signature(rotation))
  }

  /** What a call of fill_queue_once does and reports. */
  ghost predicate Fills(s: Station, w: World, keep: nat, rotation: seq<Slot>, after: Station, filled: bool)
  {
    exists tried {:trigger FillStep(s, w, keep, rotation, tried, after)} ::
      FillStep(s, w, keep, rotation, tried, after) && (filled <==> Tracks(tried) != [])
  }

  lemma IdleFills(s: Station, w: World, keep: nat, rotation: seq<Slot>)
    requires keep == 0 || rotation == [] || |s.queue| >= keep
    ensures Fills(s, w, keep, rotation,
                  if keep == 0 || rotation == [] then s else s.(cursor := Touched(s.cursor, rotation)), false)
  {
    assert FillStep(s, w, keep, rotation, [],
                    if keep == 0 || rotation == [] then s else s.(cursor := Touched(s.cursor, rotation)));
  }

  /** What the loop of a refill returns. */
  ghost predicate Refilled(w: World, queue: seq<int>, rotation: seq<Slot>, start: nat, needed: nat, picked: seq<Item>,
                           index: nat)
    requires rotation != []
  {
    exists tried {:trigger Refill(w, queue, rotation, start, needed, tried)} ::
      Refill(w, queue, rotation, start, needed, tried) && picked == Items(rotation, start, tried)
        && index == start + |tried|
  }

  lemma TriedOf(w: World, queue: seq<int>, rotation: seq<Slot>, start: nat, needed: nat, picked: seq<Item>, index: nat)
      returns (tried: seq<Option<int>>)
    requires rotation != [] && Refilled(w, queue, rotation, start, needed, picked, index)
    ensures Refill(w, queue, rotation, start, needed, tried)
    ensures picked == Items(rotation, start, tried) && index == start + |tried|
  {
    tried :| Refill(w, queue, rotation, start, needed, tried)
             && picked == Items(rotation, start, tried) && index == start + |tried|;
  }

  lemma AdvanceFills(s: Station, w: World, keep: nat, rotation: seq<Slot>, start: nat, needed: nat,
                     tried: seq<Option<int>>, after: Station)
    requires rotation != [] && start == StartOf(s.cursor, rotation) && 0 < needed && |s.queue| + needed == keep
    requires Advances(s, w, rotation, start, needed, tried, after)
    ensures Fills(s, w, keep, rotation, after, Tracks(tried) != [])
  {
    assert FillStep(s, w, keep, rotation, tried, after);
  }

  lemma IdsAreTracks(rotation: seq<Slot>, start: nat, tried: seq<Option<int>>, picked: seq<Item>, ids: seq<int>)
    requires rotation != [] && picked == Items(rotation, start, tried)
    requires |ids| == |picked| && forall i :: 0 <= i < |ids| ==> ids[i] == picked[i].track
    ensures ids == Tracks(tried)
  {
  }

  class Service {
    var queue: seq<int>
    var cursor: Cursor

    ghost function View(): Station
      reads this
    {
      Station(queue, cursor)
    }

    method GetRotationCursor(rotation: seq<Slot>) returns (start: nat)
      requires rotation != []
      modifies `cursor
      ensures start == StartOf(old(cursor), rotation) && cursor == Touched(old(cursor), rotation)
    {
      if cursor.NoCursor? || cursor.signature != Signature(rotation) {
        cursor := Cursor(0, Signature(rotation));
        return 0;
      }
      ModIsRemainder(cursor.index, |rotation|);
      start := cursor.index % |rotation|;
    }

    /** fill_queue_once, under the station's refill lock. */
    method FillOnce(w: World, keep: nat, rotation: seq<Slot>) returns (filled: bool)
      modifies this
      ensures Fills(old(View()), w, keep, rotation, View(), filled)
    {
      filled := false;
      if keep == 0 || |rotation| == 0 {
        IdleFills(View(), w, keep, rotation);
        return;
      }
      var before := |queue|;
      var start := GetRotationCursor(rotation);
      if before >= keep {
        IdleFills(old(View()), w, keep, rotation);
        return;
      }
      var needed := keep - before;
      var picked, index := TrySlots(w, queue, rotation, start, needed);
      cursor := Cursor(index, Signature(rotation));
      ghost var tried := TriedOf(w, queue, rotation, start, needed, picked, index);
      var ids := TracksOf(picked);
      IdsAreTracks(rotation, start, tried, picked, ids);
      queue := queue + ids;
      AdvanceFills(old(View()), w, keep, rotation, start, needed, tried, View());
      filled := |ids| > 0;
    }

    static method TracksOf(items: seq<Item>) returns (ids: seq<int>)
      ensures |ids| == |items| && forall i :: 0 <= i < |ids| ==> ids[i] == items[i].track
    {
      ids := [];
      for i := 0 to |items|
        invariant |ids| == i && forall j :: 0 <= j < i ==> ids[j] == items[j].track
      {
        ids := ids + [items[i].track];
      }
    }
  }

  // ---------- Refills over time ----------

  /** Refills, and anything else that takes rows out of the queue or moves them. */
  datatype Event =
    | Fill(world: World, keep: nat, rotation: seq<Slot>, tried: seq<Option<int>>)
    | Shrink

  ghost predicate Step(s: Station, e: Event, after: Station)
  {
    match e
    case Fill(w, keep, rotation, tried) => FillStep(s, w, keep, rotation, tried, after)
    case Shrink => after.cursor == s.cursor && |after.queue| <= |s.queue|
  }

  ghost predicate Run(states: seq<Station>, events: seq<Event>)
  {
    |states| == |events| + 1 && forall i :: 0 <= i < |events| ==> Step(states[i], events[i], states[i + 1])
  }

  function Max(a: nat, b: nat): nat { if a > b then a else b }

  lemma StepBound(s: Station, e: Event, after: Station, keep: nat)
    requires Step(s, e, after) && (e.Fill? ==> e.keep == keep)
    ensures |after.queue| <= Max(|s.queue|, keep)
  {
  }

  /** With a fixed setting the queue never grows beyond it, or beyond its first length. */
  lemma {:induction false} QueueStaysBounded(states: seq<Station>, events: seq<Event>, keep: nat, n: nat)
    requires Run(states, events) && n <= |events|
    requires forall i :: 0 <= i < |events| && events[i].Fill? ==> events[i].keep == keep
    ensures |states[n].queue| <= Max(|states[0].queue|, keep)
  {
    if n > 0 {
      QueueStaysBounded(states, events, keep, n - 1);
      StepBound(states[n - 1], events[n - 1], states[n], keep);
    }
  }

  /** The slots `count` tries from `start` on go through. */
  function Slots(start: nat, n: nat, count: nat): (slots: seq<nat>)
    requires n > 0
    ensures |slots| == count
  {
    seq(count, (a: nat) => SlotAt(start, n, a))
  }

  /** The slots tried in a run, refill after refill, as the cursor gives them. */
  function SlotsTried(states: seq<Station>, events: seq<Event>, rotation: seq<Slot>): seq<nat>
    requires |states| == |events| + 1 && rotation != []
  {
    if events == [] then []
    else
      var n := |events| - 1;
      SlotsTried(states[..n + 1], events[..n], rotation)
      + if events[n].Fill? then Slots(StartOf(states[n].cursor, rotation), |rotation|, |events[n].tried|) else []
  }

  lemma SlotsJoin(start: nat, n: nat, a: nat, b: nat)
    requires n > 0
    ensures Slots(start, n, a) + Slots(SlotAt(start, n, a), n, b) == Slots(start, n, a + b)
  {
    var joined := Slots(start, n, a) + Slots(SlotAt(start, n, a), n, b);
    forall i | 0 <= i < a + b ensures joined[i] == Slots(start, n, a + b)[i] {
      if i >= a { ModAdd(start + a, i - a, n); }
    }
  }

  lemma CursorAfter(s: Station, e: Event, after: Station, rotation: seq<Slot>)
    requires Step(s, e, after) && rotation != [] && (e.Fill? ==> e.rotation == rotation)
    ensures (after.cursor == Touched(s.cursor, rotation) && e.Fill? && e.tried == [])
            || (after.cursor == s.cursor && (e.Fill? ==> e.tried == []))
            || (e.Fill? && after.cursor == Cursor(StartOf(s.cursor, rotation) + |e.tried|, Signature(rotation)))
  {
  }

  lemma StartAfter(s: Station, e: Event, after: Station, rotation: seq<Slot>, more: nat)
    requires Step(s, e, after) && rotation != [] && (e.Fill? ==> e.rotation == rotation)
    requires more == if e.Fill? then |e.tried| else 0
    ensures StartOf(after.cursor, rotation) == SlotAt(StartOf(s.cursor, rotation), |rotation|, more)
  {
    CursorAfter(s, e, after, rotation);
    StartFrom(s.cursor, after.cursor, rotation, more);
  }

  lemma StartFrom(c: Cursor, d: Cursor, rotation: seq<Slot>, more: nat)
    requires rotation != []
    requires (more == 0 && (d == c || d == Touched(c, rotation)))
             || d == Cursor(StartOf(c, rotation) + more, Signature(rotation))
    ensures StartOf(d, rotation) == SlotAt(StartOf(c, rotation), |rotation|, more)
  {
  }

  /** The slots from the start of `states` on, and where the cursor stands after them. */
  predicate RoundRobin(first: Cursor, slots: seq<nat>, last: Cursor, rotation: seq<Slot>)
    requires rotation != []
  {
    && slots == Slots(StartOf(first, rotation), |rotation|, |slots|)
    && StartOf(last, rotation) == SlotAt(StartOf(first, rotation), |rotation|, |slots|)
  }

  lemma RoundRobinGoesOn(first: Cursor, slots: seq<nat>, last: Cursor, next: Cursor, rotation: seq<Slot>, more: nat)
    requires rotation != [] && RoundRobin(first, slots, last, rotation)
    requires StartOf(next, rotation) == SlotAt(StartOf(last, rotation), |rotation|, more)
    ensures RoundRobin(first, slots + Slots(StartOf(last, rotation), |rotation|, more), next, rotation)
  {
    SlotsGoOn(StartOf(first, rotation), |rotation|, slots, StartOf(last, rotation), more);
  }

  lemma SlotsGoOn(start: nat, n: nat, slots: seq<nat>, here: nat, more: nat)
    requires n > 0 && slots == Slots(start, n, |slots|) && here == SlotAt(start, n, |slots|)
    ensures slots + Slots(here, n, more) == Slots(start, n, |slots| + more)
    ensures SlotAt(here, n, more) == SlotAt(start, n, |slots| + more)
  {
    SlotsJoin(start, n, |slots|, more);
    ModAdd(start + |slots|, more, n);
  }

  /** The slots tried in successive refills of one rotation form one unbroken round robin,
      although the stored cursor is never reduced. */
  lemma {:induction false} RefillsContinueTheRoundRobin(states: seq<Station>, events: seq<Event>, rotation: seq<Slot>)
    requires Run(states, events) && rotation != []
    requires forall i :: 0 <= i < |events| && events[i].Fill? ==> events[i].rotation == rotation
    ensures RoundRobin(states[0].cursor, SlotsTried(states, events, rotation), states[|events|].cursor, rotation)
    decreases |events|
  {
    if events == [] {
      assert StartOf(states[0].cursor, rotation) < |rotation|;
    } else {
      var n := |events| - 1;
      RefillsContinueTheRoundRobin(states[..n + 1], events[..n], rotation);
      var before, more := SlotsTried(states[..n + 1], events[..n], rotation),
                          if events[n].Fill? then |events[n].tried| else 0;
      StartAfter(states[n], events[n], states[n + 1], rotation, more);
      RoundRobinGoesOn(states[0].cursor, before, states[n].cursor, states[n + 1].cursor, rotation, more);
      assert before + [] == before;
    }
  }

  lemma FruitlessAdvance(s: Station, w: World, rotation: seq<Slot>, start: nat, needed: nat,
                         tried: seq<Option<int>>, after: Station)
    requires rotation != [] && start < |rotation| && needed > 0
    requires Advances(s, w, rotation, start, needed, tried, after) && Tracks(tried) == []
    ensures after.queue == s.queue && StartOf(after.cursor, rotation) == start
  {
    assert |tried| == Rounds(|rotation|, needed);
    RoundsReturn(after.cursor, rotation, start, needed);
    assert s.queue + [] == s.queue;
  }

  lemma RoundsReturn(c: Cursor, rotation: seq<Slot>, start: nat, k: nat)
    requires start < |rotation| && c.Cursor? && c.signature == Signature(rotation)
    requires c.index == Rounds(|rotation|, k) + start
    ensures StartOf(c, rotation) == start
  {
    RoundsOn(|rotation|, k, start, c.index);
  }

  lemma RoundsOn(n: nat, k: nat, r: nat, index: nat)
    requires r < n && index == Rounds(n, k) + r
    ensures Mod(index, n) == r
  {
    ModOfRounds(n, k, r);
  }

  /** A refill that finds nothing leaves the next one at the same slot. */
  lemma FruitlessRefillKeepsThePlace(s: Station, w: World, keep: nat, rotation: seq<Slot>, tried: seq<Option<int>>,
                                     after: Station)
    requires FillStep(s, w, keep, rotation, tried, after) && rotation != [] && Tracks(tried) == []
    ensures after.queue == s.queue && StartOf(after.cursor, rotation) == StartOf(s.cursor, rotation)
  {
    if keep > 0 && |s.queue| < keep {
      var start, needed :| start == StartOf(s.cursor, rotation) && |s.queue| + needed == keep
                           && Advances(s, w, rotation, start, needed, tried, after);
      FruitlessAdvance(s, w, rotation, start, needed, tried, after);
    }
  }

  /** After a refill the queue has `keep` rows or more, unless the setting or the rotation
      is empty or nothing can be picked any more. */
  lemma RefillReachesTheSetting(s: Station, w: World, keep: nat, rotation: seq<Slot>, tried: seq<Option<int>>,
                                after: Station)
    requires FillStep(s, w, keep, rotation, tried, after) && |after.queue| < keep
    ensures rotation == [] || Exhausted(w, s.queue, Taken(tried), rotation)
  {
    if rotation != [] {
      var start, needed :| start == StartOf(s.cursor, rotation) && |s.queue| + needed == keep
                           && Advances(s, w, rotation, start, needed, tried, after);
      ShortRefillIsExhausted(w, s.queue, rotation, start, needed, tried);
    }
  }
}

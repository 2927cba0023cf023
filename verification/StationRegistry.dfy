/**
 The daemon's station registry (native_engine/src/daemon.c): a fixed array of slots with
 reference counts, shared by client threads under one lock, and the list of clients.

 `State` adds to the registry what the threads hold: `holders` are the references taken
 and not yet released, `waiting` the removals that wait for a slot to drain.
 */
module StationRegistry {

  const MAX_STATIONS := 64
  const MAX_CLIENTS := 32
  const KEY_SIZE := 192

  /** An engine is known by its number; 0 is no engine. */
  type EngineId = nat

  datatype Slot = Slot(inUse: bool, removing: bool, refs: nat, key: string, engine: EngineId)

  const EMPTY := Slot(false, false, 0, "", 0)

  datatype Registry = Registry(slots: seq<Slot>, created: nat, removed: nat, shuttingDown: bool)

  predicate ValidKey(key: string)
  {
    key != "" && |key| < KEY_SIZE && forall i :: 0 <= i < |key| ==> key[i] as int >= 0x20 && key[i] as int != 0x7f
  }

  predicate Matches(slot: Slot, key: string) { slot.inUse && slot.key == key }

  /** The first slot in use with the key, or the number of slots. */
  function Find(slots: seq<Slot>, key: string, from: nat := 0): (i: nat)
    requires from <= |slots|
    ensures from <= i <= |slots| && (i < |slots| ==> Matches(slots[i], key))
    ensures forall j :: from <= j < i ==> !Matches(slots[j], key)
    decreases |slots| - from
  {
    if from == |slots| || Matches(slots[from], key) then from else Find(slots, key, from + 1)
  }

  /** The first slot not in use, or the number of slots. */
  function FindFree(slots: seq<Slot>, from: nat := 0): (i: nat)
    requires from <= |slots|
    ensures from <= i <= |slots| && (i < |slots| ==> !slots[i].inUse)
    ensures forall j :: from <= j < i ==> slots[j].inUse
    decreases |slots| - from
  {
    if from == |slots| || !slots[from].inUse then from else FindFree(slots, from + 1)
  }

  datatype Refusal = BeingRemoved | NotThere | InvalidKey | Full | NoEngine

  datatype Acquired = Got(slot: nat, isNew: bool) | Refused(why: Refusal)

  /** acquire_station: find or create, then take a reference. */
  function Acquire(r: Registry, key: string, engineOk: bool): (a: Acquired)
    ensures a.Got? ==> a.slot < |r.slots| && (a.isNew <==> !r.slots[a.slot].inUse)
                       && (!a.isNew ==> Matches(r.slots[a.slot], key) && !r.slots[a.slot].removing)
  {
    var i, free := Find(r.slots, key), FindFree(r.slots);
    if i < |r.slots| then if r.slots[i].removing then Refused(BeingRemoved) else Got(i, false)
    else if r.shuttingDown then Refused(NotThere)
    else if !ValidKey(key) then Refused(InvalidKey)
    else if free == |r.slots| then Refused(Full)
    else if !engineOk then Refused(NoEngine)
    else Got(free, true)
  }

  function WithReference(r: Registry, key: string, a: Acquired, engine: EngineId): Registry
    requires a.Got? ==> a.slot < |r.slots|
  {
    if a.Refused? then r
    else if a.isNew then
      r.(slots := r.slots[a.slot := Slot(true, false, 1, key, engine)], created := r.created + 1)
    else r.(slots := r.slots[a.slot := r.slots[a.slot].(refs := r.slots[a.slot].refs + 1)])
  }

  function Released(r: Registry, i: nat): Registry
    requires i < |r.slots|
  {
    if r.slots[i].refs > 0 then r.(slots := r.slots[i := r.slots[i].(refs := r.slots[i].refs - 1)]) else r
  }

  function Marked(r: Registry, i: nat): Registry
    requires i < |r.slots|
  {
    r.(slots := r.slots[i := r.slots[i].(removing := true)])
  }

  function Cleared(r: Registry, i: nat): Registry
    requires i < |r.slots|
  {
    r.(slots := r.slots[i := EMPTY], removed := r.removed + 1)
  }

  // ---------- The daemon's threads ----------

  datatype Hold = Hold(slot: nat, engine: EngineId)

  datatype State = State(registry: Registry, holders: multiset<Hold>, waiting: multiset<nat>, freed: set<EngineId>,
                         next: EngineId)

  /** The sections run under the lock. */
  datatype Event =
    | Take(key: string, engineOk: bool)
    | Release(hold: Hold)
    | BeginRemoval(key: string)
    | FinishRemoval(slot: nat)
    | TakeAt(slot: nat)
    | BeginShutdown

  function Start(): State
  {
    State(Registry(seq(MAX_STATIONS, i => EMPTY), 0, 0, false), multiset{}, multiset{}, {}, 1)
  }

  /** What a thread needs to take the step. */
  predicate Enabled(s: State, e: Event)
  {
    match e
    case Release(hold) => hold in s.holders && hold.slot < |s.registry.slots|
    case FinishRemoval(i) => i in s.waiting && i < |s.registry.slots| && s.registry.slots[i].refs == 0
    case TakeAt(i) => i < |s.registry.slots|
    case _ => true
  }

  function Apply(s: State, e: Event): (after: State)
    requires Enabled(s, e)
    ensures |after.registry.slots| == |s.registry.slots|
  {
    var r := s.registry;
    match e
    case Take(key, engineOk) =>
      var a := Acquire(r, key, engineOk);
      var after := WithReference(r, key, a, s.next);
      if a.Refused? then s
      else State(after, s.holders + multiset{Hold(a.slot, after.slots[a.slot].engine)}, s.waiting, s.freed,
                 if a.isNew then s.next + 1 else s.next)
    case Release(hold) => s.(registry := Released(r, hold.slot), holders := s.holders - multiset{hold})
    case BeginRemoval(key) =>
      var i := Find(r.slots, key);
      if i == |r.slots| then s else s.(registry := Marked(r, i), waiting := s.waiting + multiset{i})
    case FinishRemoval(i) =>
      var engine := r.slots[i].engine;
      s.(registry := Cleared(r, i), waiting := s.waiting - multiset{i},
         freed := if engine == 0 then s.freed else s.freed + {engine})
    case TakeAt(i) =>
      if r.slots[i].inUse && !r.slots[i].removing then
        s.(registry := r.(slots := r.slots[i := r.slots[i].(refs := r.slots[i].refs + 1)]),
           holders := s.holders + multiset{Hold(i, r.slots[i].engine)})
      else s
    case BeginShutdown => s.(registry := r.(shuttingDown := true))
  }

  predicate Run(states: seq<State>, events: seq<Event>)
  {
    && |states| == |events| + 1 && states[0] == Start()
    && forall i :: 0 <= i < |events| ==> Enabled(states[i], events[i]) && states[i + 1] == Apply(states[i], events[i])
  }

  // ---------- Slots stay sound ----------

  /** A slot not in use is all zero; one in use has an engine of its own that is not freed. */
  predicate SlotSound(s: State, i: nat)
    requires i < |s.registry.slots|
  {
    var slot := s.registry.slots[i];
    if slot.inUse then 0 < slot.engine < s.next && slot.engine !in s.freed
      && slot.refs == s.holders[Hold(i, slot.engine)]
    else slot == EMPTY
  }

  predicate Apart(slots: seq<Slot>, i: nat, j: nat)
    requires i < |slots| && j < |slots|
  {
    slots[i].inUse && slots[j].inUse ==> slots[i].key != slots[j].key && slots[i].engine != slots[j].engine
  }

  predicate HoldSound(slots: seq<Slot>, h: Hold)
  {
    h.slot < |slots| && slots[h.slot].inUse && slots[h.slot].engine == h.engine
  }

  /** The invariant: keys in use are distinct, counts are exact, and nobody holds a freed engine. */
  predicate Sound(s: State)
  {
    var slots := s.registry.slots;
    && |slots| == MAX_STATIONS && s.next > 0
    && (forall e :: e in s.freed ==> 0 < e < s.next)
    && (forall i :: 0 <= i < |slots| ==> SlotSound(s, i))
    && (forall i, j :: 0 <= i < j < |slots| ==> Apart(slots, i, j))
    && (forall h :: h in s.holders ==> HoldSound(slots, h))
    && (forall i :: i in s.waiting ==> i < |slots|)
  }

  lemma TakeKeepsSound(s: State, key: string, engineOk: bool)
    requires Sound(s)
    ensures Sound(Apply(s, Take(key, engineOk)))
  {
    var a := Acquire(s.registry, key, engineOk);
    if a.Got? && a.isNew {
      NewSlotIsSound(s, key, a.slot, Apply(s, Take(key, engineOk)));
    } else if a.Got? {
      TakeAtKeepsSound(s, a.slot);
      assert Apply(s, Take(key, engineOk)) == Apply(s, TakeAt(a.slot));
    }
  }

  lemma NewSlotIsSound(s: State, key: string, i: nat, after: State)
    requires Sound(s) && i < MAX_STATIONS && !s.registry.slots[i].inUse && Find(s.registry.slots, key) == MAX_STATIONS
    requires after.registry.slots == s.registry.slots[i := Slot(true, false, 1, key, s.next)]
    requires after.holders == s.holders + multiset{Hold(i, s.next)} && after.next == s.next + 1
    requires after.freed == s.freed && after.waiting == s.waiting
    ensures Sound(after)
  {
    var slots, now := s.registry.slots, after.registry.slots;
    assert !HoldSound(slots, Hold(i, s.next));
    forall h | h in after.holders ensures HoldSound(now, h) { assert h in s.holders ==> HoldSound(slots, h); }
    forall j | 0 <= j < MAX_STATIONS ensures SlotSound(after, j) { assert SlotSound(s, j); }
    forall j, k | 0 <= j < k < MAX_STATIONS ensures Apart(now, j, k) {
      assert Apart(slots, j, k) && SlotSound(s, j) && SlotSound(s, k);
      assert !Matches(slots[j], key) && !Matches(slots[k], key);
    }
  }

  lemma TakeAtKeepsSound(s: State, i: nat)
    requires Sound(s) && i < MAX_STATIONS
    ensures Sound(Apply(s, TakeAt(i)))
  {
    var after := Apply(s, TakeAt(i));
    forall h | h in after.holders
      ensures HoldSound(after.registry.slots, h)
    {
      assert h in s.holders ==> HoldSound(s.registry.slots, h);
    }
    forall j | 0 <= j < MAX_STATIONS ensures SlotSound(after, j) { assert SlotSound(s, j); }
    forall j, k | 0 <= j < k < MAX_STATIONS
      ensures Apart(after.registry.slots, j, k)
    {
      assert Apart(s.registry.slots, j, k);
    }
  }

  lemma ReleaseKeepsSound(s: State, hold: Hold)
    requires Sound(s) && Enabled(s, Release(hold))
    ensures Sound(Apply(s, Release(hold)))
  {
    var after := Apply(s, Release(hold));
    assert HoldSound(s.registry.slots, hold) && SlotSound(s, hold.slot);
    forall h | h in after.holders ensures HoldSound(after.registry.slots, h) { assert HoldSound(s.registry.slots, h); }
    forall j | 0 <= j < MAX_STATIONS ensures SlotSound(after, j) { assert SlotSound(s, j); }
    forall j, k | 0 <= j < k < MAX_STATIONS
      ensures Apart(after.registry.slots, j, k)
    {
      assert Apart(s.registry.slots, j, k);
    }
  }

  lemma MarkKeepsSound(s: State, key: string)
    requires Sound(s)
    ensures Sound(Apply(s, BeginRemoval(key)))
  {
    var after := Apply(s, BeginRemoval(key));
    forall h | h in after.holders ensures HoldSound(after.registry.slots, h) { assert HoldSound(s.registry.slots, h); }
    forall j | 0 <= j < MAX_STATIONS ensures SlotSound(after, j) { assert SlotSound(s, j); }
    forall j, k | 0 <= j < k < MAX_STATIONS
      ensures Apart(after.registry.slots, j, k)
    {
      assert Apart(s.registry.slots, j, k);
    }
  }

  lemma ClearKeepsSound(s: State, i: nat)
    requires Sound(s) && Enabled(s, FinishRemoval(i))
    ensures Sound(Apply(s, FinishRemoval(i)))
  {
    var after := Apply(s, FinishRemoval(i));
    assert SlotSound(s, i);
    forall h | h in after.holders ensures HoldSound(after.registry.slots, h) { assert HoldSound(s.registry.slots, h); }
    forall j | 0 <= j < MAX_STATIONS ensures SlotSound(after, j) {
      assert SlotSound(s, j);
      assert i < j ==> Apart(s.registry.slots, i, j);
      assert j < i ==> Apart(s.registry.slots, j, i);
    }
    forall j, k | 0 <= j < k < MAX_STATIONS
      ensures Apart(after.registry.slots, j, k)
    {
      assert Apart(s.registry.slots, j, k);
    }
  }

  lemma StepKeepsSound(s: State, e: Event)
    requires Sound(s) && Enabled(s, e)
    ensures Sound(Apply(s, e))
  {
    match e {
      case Take(key, engineOk) => TakeKeepsSound(s, key, engineOk);
      case Release(hold) => ReleaseKeepsSound(s, hold);
      case BeginRemoval(key) => MarkKeepsSound(s, key);
      case FinishRemoval(i) => ClearKeepsSound(s, i);
      case TakeAt(i) => TakeAtKeepsSound(s, i);
      case BeginShutdown =>
        var after := Apply(s, e);
        assert forall j :: 0 <= j < MAX_STATIONS ==> SlotSound(s, j) ==> SlotSound(after, j);
    }
  }

  /** In every run, with removals overlapping in any way. */
  lemma {:induction false} RunIsSound(states: seq<State>, events: seq<Event>, n: nat)
    requires Run(states, events) && n <= |events|
    ensures Sound(states[n])
  {
    if n > 0 {
      RunIsSound(states, events, n - 1);
      StepKeepsSound(states[n - 1], events[n - 1]);
    }
  }

  /** No thread holds a station whose engine is freed. */
  lemma NoHolderIsLeftBehind(states: seq<State>, events: seq<Event>, n: nat, h: Hold)
    requires Run(states, events) && n <= |events| && h in states[n].holders
    ensures HoldSound(states[n].registry.slots, h) && h.engine !in states[n].freed
  {
    RunIsSound(states, events, n);
    assert HoldSound(states[n].registry.slots, h) && SlotSound(states[n], h.slot);
  }

  /** No two stations in use share a key, so a search finds the station's only slot. */
  lemma KeysAreDistinct(states: seq<State>, events: seq<Event>, n: nat, i: nat)
    requires Run(states, events) && n <= |events| && i < |states[n].registry.slots| && states[n].registry.slots[i].inUse
    ensures Find(states[n].registry.slots, states[n].registry.slots[i].key) == i
  {
    RunIsSound(states, events, n);
    var slots := states[n].registry.slots;
    var j := Find(slots, slots[i].key);
    assert Matches(slots[i], slots[i].key);
    assert j < i ==> Apart(slots, j, i);
  }

  // ---------- Engines ----------

  /** Engine `e` is freed, or belongs to a slot in use. */
  predicate Accounted(s: State, e: EngineId)
  {
    || e in s.freed
    || exists i :: 0 <= i < |s.registry.slots| && s.registry.slots[i].inUse && s.registry.slots[i].engine == e
  }

  lemma NewEngineAccounted(s: State, key: string, engineOk: bool)
    requires Sound(s) && s.next < Apply(s, Take(key, engineOk)).next
    ensures Accounted(Apply(s, Take(key, engineOk)), s.next)
  {
    var a := Acquire(s.registry, key, engineOk);
    assert Apply(s, Take(key, engineOk)).registry.slots[a.slot].engine == s.next;
  }

  lemma OldEngineAccounted(s: State, ev: Event, e: EngineId)
    requires Sound(s) && Enabled(s, ev) && Accounted(s, e) && e > 0
    ensures Accounted(Apply(s, ev), e)
  {
    var slots, after := s.registry.slots, Apply(s, ev);
    if e !in s.freed {
      var i :| 0 <= i < |slots| && slots[i].inUse && slots[i].engine == e;
      SlotAfter(s, ev, i);
      assert after.registry.slots[i].engine == e || e in after.freed;
    }
  }

  /** What a step may do to a slot in use: clear it, or change its count or its mark. */
  lemma SlotAfter(s: State, e: Event, i: nat)
    requires Sound(s) && Enabled(s, e) && i < MAX_STATIONS && s.registry.slots[i].inUse
    ensures SlotMay(s.registry.slots[i], Apply(s, e).registry.slots[i])
    ensures Apply(s, e).registry.slots[i] == EMPTY ==> s.registry.slots[i].engine in Apply(s, e).freed
  {
    assert SlotSound(s, i);
    match e {
      case Take(key, engineOk) => SlotAfterTake(s, key, engineOk, i);
      case Release(hold) => SlotAfterRelease(s, hold, i);
      case BeginRemoval(key) => SlotAfterMark(s, key, i);
      case _ =>
    }
  }

  lemma SlotAfterRelease(s: State, hold: Hold, i: nat)
    requires Sound(s) && Enabled(s, Release(hold)) && i < MAX_STATIONS && s.registry.slots[i].inUse
    ensures SlotMay(s.registry.slots[i], Apply(s, Release(hold)).registry.slots[i])
    ensures Apply(s, Release(hold)).registry.slots[i].inUse
  {
  }

  lemma SlotAfterMark(s: State, key: string, i: nat)
    requires Sound(s) && i < MAX_STATIONS && s.registry.slots[i].inUse
    ensures SlotMay(s.registry.slots[i], Apply(s, BeginRemoval(key)).registry.slots[i])
    ensures Apply(s, BeginRemoval(key)).registry.slots[i].inUse
  {
  }

  predicate SlotMay(was: Slot, now: Slot)
  {
    || now == EMPTY
    || (now == was.(refs := now.refs, removing := now.removing)
       && (was.removing ==> now.removing && now.refs <= was.refs))
  }

  lemma SlotAfterTake(s: State, key: string, engineOk: bool, i: nat)
    requires Sound(s) && i < MAX_STATIONS && s.registry.slots[i].inUse
    ensures SlotMay(s.registry.slots[i], Apply(s, Take(key, engineOk)).registry.slots[i])
    ensures Apply(s, Take(key, engineOk)).registry.slots[i].inUse
  {
    var a := Acquire(s.registry, key, engineOk);
    assert SlotSound(s, i);
  }

  lemma EngineAccounted(s: State, ev: Event, e: EngineId)
    requires Sound(s) && Enabled(s, ev) && 0 < e < Apply(s, ev).next && (e < s.next ==> Accounted(s, e))
    ensures Accounted(Apply(s, ev), e)
  {
    if e < s.next {
      OldEngineAccounted(s, ev, e);
    } else {
      NewEngineAccounted(s, ev.key, ev.engineOk);
    }
  }

  /** No engine is lost: each one made is freed or belongs to a station in use. */
  lemma {:induction false} NoEngineLeaks(states: seq<State>, events: seq<Event>, n: nat, e: EngineId)
    requires Run(states, events) && n <= |events| && 0 < e < states[n].next
    ensures Accounted(states[n], e)
  {
    if n > 0 {
      RunIsSound(states, events, n - 1);
      if e < states[n - 1].next { NoEngineLeaks(states, events, n - 1, e); }
      assert states[n] == Apply(states[n - 1], events[n - 1]);
      EngineAccounted(states[n - 1], events[n - 1], e);
    }
  }

  // ---------- Removal ----------

  /** While a slot is being removed its reference count only falls, until it is cleared. */
  lemma RemovingOnlyDrains(s: State, e: Event, i: nat)
    requires Sound(s) && Enabled(s, e) && i < MAX_STATIONS && s.registry.slots[i].removing
    ensures var was, now := s.registry.slots[i], Apply(s, e).registry.slots[i];
            now == EMPTY || (now == was.(refs := now.refs) && now.refs <= was.refs)
  {
    assert SlotSound(s, i);
    SlotAfter(s, e, i);
  }

  function InUse(slots: seq<Slot>): nat
  {
    if slots == [] then 0 else InUse(slots[..|slots| - 1]) + if slots[|slots| - 1].inUse then 1 else 0
  }

  lemma {:induction false} InUseUpdate(slots: seq<Slot>, i: nat, slot: Slot)
    requires i < |slots|
    ensures InUse(slots[i := slot]) + (if slots[i].inUse then 1 else 0) == InUse(slots) + if slot.inUse then 1 else 0
  {
    var n := |slots| - 1;
    if i < n {
      InUseUpdate(slots[..n], i, slot);
      assert slots[i := slot][..n] == slots[..n][i := slot];
    } else {
      assert slots[i := slot][..n] == slots[..n];
    }
  }

  lemma {:induction false} NoneInUse(slots: seq<Slot>)
    requires forall i :: 0 <= i < |slots| ==> !slots[i].inUse
    ensures InUse(slots) == 0
  {
    if slots != [] { NoneInUse(slots[..|slots| - 1]); }
  }

  /** A removal that finds its slot already cleared. */
  predicate FinishesOnEmpty(s: State, e: Event)
  {
    e.FinishRemoval? && e.slot < |s.registry.slots| && !s.registry.slots[e.slot].inUse
  }

  function EmptyFinishes(states: seq<State>, events: seq<Event>): nat
    requires |states| == |events| + 1
  {
    if events == [] then 0
    else
      var n := |events| - 1;
      EmptyFinishes(states[..n + 1], events[..n]) + if FinishesOnEmpty(states[n], events[n]) then 1 else 0
  }

  function Balance(s: State): int
  {
    s.registry.created - s.registry.removed - InUse(s.registry.slots)
  }

  lemma TakeBalance(s: State, key: string, engineOk: bool)
    requires Sound(s)
    ensures Balance(Apply(s, Take(key, engineOk))) == Balance(s)
  {
    var a := Acquire(s.registry, key, engineOk);
    if a.Got? {
      var slot := s.registry.slots[a.slot];
      InUseUpdate(s.registry.slots, a.slot,
                  if a.isNew then Slot(true, false, 1, key, s.next) else slot.(refs := slot.refs + 1));
    }
  }

  lemma RemovalBalance(s: State, e: Event)
    requires Sound(s) && Enabled(s, e) && (e.BeginRemoval? || e.FinishRemoval?)
    ensures Balance(Apply(s, e)) == Balance(s) - if FinishesOnEmpty(s, e) then 1 else 0
  {
    var slots := s.registry.slots;
    if e.FinishRemoval? {
      InUseUpdate(slots, e.slot, EMPTY);
    } else {
      var i := Find(slots, e.key);
      if i < |slots| { InUseUpdate(slots, i, slots[i].(removing := true)); }
    }
  }

  lemma StepBalance(s: State, e: Event)
    requires Sound(s) && Enabled(s, e)
    ensures Balance(Apply(s, e)) == Balance(s) - if FinishesOnEmpty(s, e) then 1 else 0
  {
    var slots := s.registry.slots;
    match e {
      case Take(key, engineOk) => TakeBalance(s, key, engineOk);
      case Release(hold) =>
        if slots[hold.slot].refs > 0 {
          InUseUpdate(slots, hold.slot, slots[hold.slot].(refs := slots[hold.slot].refs - 1));
        }
      case TakeAt(i) => InUseUpdate(slots, i, slots[i].(refs := slots[i].refs + 1));
      case BeginShutdown =>
      case _ => RemovalBalance(s, e);
    }
  }

  /** The totals the daemon reports account for the stations in use exactly when no removal
      finished on a slot that another one had cleared. */
  lemma {:induction false} TotalsAgreeExactlyWhen(states: seq<State>, events: seq<Event>)
    requires Run(states, events)
    ensures Balance(states[|events|]) == 0 - EmptyFinishes(states, events)
    ensures InUse(states[|events|].registry.slots)
            == states[|events|].registry.created - states[|events|].registry.removed
            <==> EmptyFinishes(states, events) == 0
    decreases |events|
  {
    if events == [] {
      NoneInUse(Start().registry.slots);
    } else {
      var n := |events| - 1;
      assert states[..n + 1][0] == Start();
      TotalsAgreeExactlyWhen(states[..n + 1], events[..n]);
      RunIsSound(states, events, n);
      StepBalance(states[n], events[n]);
    }
  }

  /** A removal starts only on a slot that no other removal is waiting for. */
  predicate NoOverlap(s: State, e: Event)
  {
    e.BeginRemoval? ==>
      var i := Find(s.registry.slots, e.key);
      i < |s.registry.slots| ==> !s.registry.slots[i].removing
  }

  /** No two removals wait for one slot, nor any for a slot that is not being removed. */
  predicate AtMostOneRemover(s: State)
  {
    forall i :: 0 <= i < |s.registry.slots| ==> FewRemovers(s, i)
  }

  predicate FewRemovers(s: State, i: nat)
    requires i < |s.registry.slots|
  {
    s.waiting[i] <= if s.registry.slots[i].removing then 1 else 0
  }

  /** One removal waits for each slot being removed, and none for the others. */
  predicate OneRemover(s: State)
  {
    forall i :: 0 <= i < |s.registry.slots| ==> s.waiting[i] == if s.registry.slots[i].removing then 1 else 0
  }

  /** A removal waits for each slot being removed. */
  predicate Awaited(s: State)
  {
    forall i :: 0 <= i < |s.registry.slots| && s.registry.slots[i].removing ==> i in s.waiting
  }

  /** What is removed is marked for it. */
  predicate TakesMarked(s: State, e: Event)
  {
    e.FinishRemoval? ==> e.slot < |s.registry.slots| && s.registry.slots[e.slot].removing
  }

  lemma StepKeepsAtMostOneRemover(s: State, e: Event)
    requires Sound(s) && Enabled(s, e) && AtMostOneRemover(s) && NoOverlap(s, e)
    ensures AtMostOneRemover(Apply(s, e)) && TakesMarked(s, e) && !FinishesOnEmpty(s, e)
  {
    var after := Apply(s, e);
    forall i | 0 <= i < |after.registry.slots| ensures FewRemovers(after, i) {
      assert FewRemovers(s, i);
      StepKeepsFewRemovers(s, e, i, after);
    }
    if e.FinishRemoval? { assert FewRemovers(s, e.slot) && SlotSound(s, e.slot); }
  }

  lemma StepKeepsFewRemovers(s: State, e: Event, i: nat, after: State)
    requires Sound(s) && Enabled(s, e) && NoOverlap(s, e) && after == Apply(s, e)
    requires i < MAX_STATIONS && FewRemovers(s, i)
    ensures FewRemovers(after, i)
  {
    match e {
      case Take(key, engineOk) => TakeKeepsRemovers(s, key, engineOk);
      case Release(hold) =>
      case BeginRemoval(key) => MarkKeepsFewRemovers(s, key, i, after);
      case FinishRemoval(k) =>
      case TakeAt(k) =>
      case BeginShutdown =>
    }
  }

  lemma MarkKeepsFewRemovers(s: State, key: string, i: nat, after: State)
    requires Sound(s) && NoOverlap(s, BeginRemoval(key)) && after == Apply(s, BeginRemoval(key))
    requires i < MAX_STATIONS && FewRemovers(s, i)
    ensures FewRemovers(after, i)
  {
    if i != Find(s.registry.slots, key) { assert after.registry.slots[i] == s.registry.slots[i]; }
  }

  lemma StepKeepsAwaited(s: State, e: Event)
    requires Sound(s) && Enabled(s, e) && Awaited(s)
    ensures Awaited(Apply(s, e))
  {
    match e {
      case Take(key, engineOk) => TakeKeepsRemovers(s, key, engineOk);
      case Release(hold) =>
      case BeginRemoval(key) =>
      case FinishRemoval(i) =>
      case TakeAt(i) =>
      case BeginShutdown =>
    }
  }

  lemma TakeKeepsRemovers(s: State, key: string, engineOk: bool)
    requires Sound(s)
    ensures var after := Apply(s, Take(key, engineOk));
            && after.waiting == s.waiting
            && forall i :: 0 <= i < MAX_STATIONS ==> after.registry.slots[i].removing == s.registry.slots[i].removing
  {
    var a := Acquire(s.registry, key, engineOk);
    if a.Got? { assert SlotSound(s, a.slot); }
  }

  /** In every run, overlapping removals or not, some removal waits for each slot being removed. */
  lemma {:induction false} MarkedSlotsAreAwaited(states: seq<State>, events: seq<Event>, n: nat)
    requires Run(states, events) && n <= |events|
    ensures Awaited(states[n])
  {
    if n > 0 {
      MarkedSlotsAreAwaited(states, events, n - 1);
      RunIsSound(states, events, n - 1);
      StepKeepsAwaited(states[n - 1], events[n - 1]);
    }
  }

  lemma OneRemoverGoesOn(s: State, e: Event, after: State)
    requires Sound(s) && Enabled(s, e) && OneRemover(s) && NoOverlap(s, e) && after == Apply(s, e)
    ensures OneRemover(after) && TakesMarked(s, e) && !FinishesOnEmpty(s, e)
  {
    StepKeepsAwaited(s, e);
    StepKeepsAtMostOneRemover(s, e);
    forall i | 0 <= i < |after.registry.slots|
      ensures after.waiting[i] == if after.registry.slots[i].removing then 1 else 0
    {
      assert FewRemovers(after, i);
    }
  }

  /** Without overlapping removals the totals agree, and every removal takes away a station
      that was marked for it. */
  lemma {:induction false} RemovalsTakeWhatTheyMarked(states: seq<State>, events: seq<Event>)
    requires Run(states, events) && forall i :: 0 <= i < |events| ==> NoOverlap(states[i], events[i])
    ensures OneRemover(states[|events|]) && EmptyFinishes(states, events) == 0
    ensures forall i :: 0 <= i < |events| ==> TakesMarked(states[i], events[i])
    decreases |events|
  {
    if events != [] {
      var n := |events| - 1;
      assert states[..n + 1][0] == Start();
      RemovalsTakeWhatTheyMarked(states[..n + 1], events[..n]);
      RunIsSound(states, events, n);
      OneRemoverGoesOn(states[n], events[n], states[n + 1]);
      forall i | 0 <= i < |events| ensures TakesMarked(states[i], events[i]) {
        if i < n { assert events[..n][i] == events[i] && states[..n + 1][i] == states[i]; }
      }
    }
  }

  /** From `s` on these events may come, with no removal overlapping one that it finds there. */
  predicate Possible(s: State, events: seq<Event>)
    decreases |events|
  {
    events == [] || (Enabled(s, events[0]) && NoOverlap(s, events[0]) && Possible(Apply(s, events[0]), events[1..]))
  }

  /** Each of the events is such a step. */
  predicate Always(step: (State, Event) -> bool, s: State, events: seq<Event>)
    requires Possible(s, events)
    decreases |events|
  {
    events == [] || (step(s, events[0]) && Always(step, Apply(s, events[0]), events[1..]))
  }

  /** From `s` on, every removal finds the mark it has set. */
  ghost predicate RemovalsFindTheirMark(s: State)
  {
    forall events :: Possible(s, events) ==> Always(TakesMarked, s, events)
  }

  lemma {:induction false} FewRemoversTakeMarked(s: State, events: seq<Event>)
    requires Sound(s) && AtMostOneRemover(s) && Possible(s, events)
    ensures Always(TakesMarked, s, events)
    decreases |events|
  {
    if events != [] {
      StepKeepsSound(s, events[0]);
      StepKeepsAtMostOneRemover(s, events[0]);
      FewRemoversTakeMarked(Apply(s, events[0]), events[1..]);
    }
  }

  lemma ThenNotAlways(step: (State, Event) -> bool, s: State, e: Event, events: seq<Event>)
    requires Enabled(s, e) && NoOverlap(s, e) && Possible(Apply(s, e), events) && !Always(step, Apply(s, e), events)
    ensures Possible(s, [e] + events) && !Always(step, s, [e] + events)
  {
    assert ([e] + events)[1..] == events;
  }

  /** One removal too many waits for the slot: once it is drained, and what is marked is
      removed, one takes what is not marked. */
  lemma {:induction false} OneRemoverTooMany(s: State, i: nat) returns (events: seq<Event>)
    requires Sound(s) && i < MAX_STATIONS && !FewRemovers(s, i)
    ensures Possible(s, events) && !Always(TakesMarked, s, events)
    decreases s.registry.slots[i].refs, s.waiting[i]
  {
    var slot := s.registry.slots[i];
    if slot.refs == 0 && !slot.removing {
      events := [FinishRemoval(i)];
    } else {
      assert SlotSound(s, i);
      var e := if slot.refs > 0 then Release(Hold(i, slot.engine)) else FinishRemoval(i);
      StepKeepsSound(s, e);
      events := OneRemoverTooMany(Apply(s, e), i);
      ThenNotAlways(TakesMarked, s, e, events);
      events := [e] + events;
    }
  }

  /** Whatever has happened before: from now on, without further overlaps, every removal finds
      its mark exactly when no two removals wait for one slot, nor any for a slot that is not
      being removed. */
  lemma RemovalsFindTheirMarkExactlyWhen(s: State)
    requires Sound(s)
    ensures RemovalsFindTheirMark(s) <==> AtMostOneRemover(s)
  {
    if AtMostOneRemover(s) {
      forall events | Possible(s, events) ensures Always(TakesMarked, s, events) { FewRemoversTakeMarked(s, events); }
    } else {
      var i :| 0 <= i < MAX_STATIONS && !FewRemovers(s, i);
      var events := OneRemoverTooMany(s, i);
    }
  }

  // Stations that nobody asked to remove.

  /** The step removes no station in use but a marked one; it may remove nothing. */
  predicate SparesUnasked(s: State, e: Event)
  {
    e.FinishRemoval? && e.slot < |s.registry.slots| && s.registry.slots[e.slot].inUse ==>
      s.registry.slots[e.slot].removing
  }

  /** From `s` on, no station goes that nobody asked to remove. */
  ghost predicate StationsAreSafe(s: State)
  {
    forall events :: Possible(s, events) ==> Always(SparesUnasked, s, events)
  }

  /** No removal too many waits, or the daemon shuts down and makes no station that it could
      take, and there is none now. */
  predicate SlotIsSafe(s: State, i: nat)
    requires i < |s.registry.slots|
  {
    var slot := s.registry.slots[i];
    FewRemovers(s, i) || (s.registry.shuttingDown && (slot.inUse ==> slot.removing))
  }

  predicate SlotsAreSafe(s: State)
  {
    forall i :: 0 <= i < |s.registry.slots| ==> SlotIsSafe(s, i)
  }

  lemma StepKeepsSlotSafe(s: State, e: Event, i: nat, after: State)
    requires Sound(s) && Enabled(s, e) && NoOverlap(s, e) && after == Apply(s, e) && i < MAX_STATIONS
    requires SlotIsSafe(s, i)
    ensures SlotIsSafe(after, i)
  {
    if FewRemovers(s, i) {
      StepKeepsFewRemovers(s, e, i, after);
    } else {
      ClosedSlotStays(s, e, i, after);
    }
  }

  /** During shutdown a slot that is free or being removed does not come back. */
  lemma ClosedSlotStays(s: State, e: Event, i: nat, after: State)
    requires |s.registry.slots| == MAX_STATIONS && Enabled(s, e) && after == Apply(s, e) && i < MAX_STATIONS
    requires s.registry.shuttingDown && (s.registry.slots[i].inUse ==> s.registry.slots[i].removing)
    ensures after.registry.shuttingDown && (after.registry.slots[i].inUse ==> after.registry.slots[i].removing)
  {
    match e {
      case Take(key, engineOk) => TakeKeepsInUse(s, key, engineOk, after);
      case BeginRemoval(key) => MarkOnlyMarks(s, key, i, after);
      case FinishRemoval(k) =>
      case _ => CountsOnly(s, e, i, after);
    }
  }

  lemma MarkOnlyMarks(s: State, key: string, i: nat, after: State)
    requires i < |s.registry.slots| && after == Apply(s, BeginRemoval(key))
    ensures after.registry.shuttingDown == s.registry.shuttingDown
    ensures after.registry.slots[i].inUse == s.registry.slots[i].inUse
    ensures s.registry.slots[i].removing ==> after.registry.slots[i].removing
  {
  }

  lemma CountsOnly(s: State, e: Event, i: nat, after: State)
    requires i < |s.registry.slots| && Enabled(s, e) && after == Apply(s, e)
    requires e.Release? || e.TakeAt? || e.BeginShutdown?
    ensures after.registry.shuttingDown == (s.registry.shuttingDown || e.BeginShutdown?)
    ensures after.registry.slots[i] == s.registry.slots[i].(refs := after.registry.slots[i].refs)
  {
  }

  lemma TakeKeepsInUse(s: State, key: string, engineOk: bool, after: State)
    requires |s.registry.slots| == MAX_STATIONS && s.registry.shuttingDown && after == Apply(s, Take(key, engineOk))
    ensures after.registry.shuttingDown
    ensures forall i :: 0 <= i < MAX_STATIONS ==> after.registry.slots[i].inUse == s.registry.slots[i].inUse
    ensures forall i :: 0 <= i < MAX_STATIONS ==> after.registry.slots[i].removing == s.registry.slots[i].removing
  {
    var a := Acquire(s.registry, key, engineOk);
    assert a.Got? ==> !a.isNew;
  }

  lemma StepKeepsSlotsSafe(s: State, e: Event)
    requires Sound(s) && Enabled(s, e) && NoOverlap(s, e) && SlotsAreSafe(s)
    ensures SlotsAreSafe(Apply(s, e)) && SparesUnasked(s, e)
  {
    var after := Apply(s, e);
    forall i | 0 <= i < |after.registry.slots| ensures SlotIsSafe(after, i) {
      assert SlotIsSafe(s, i);
      StepKeepsSlotSafe(s, e, i, after);
    }
    if e.FinishRemoval? { assert SlotIsSafe(s, e.slot); }
  }

  lemma {:induction false} SafeSlotsSpareUnasked(s: State, events: seq<Event>)
    requires Sound(s) && SlotsAreSafe(s) && Possible(s, events)
    ensures Always(SparesUnasked, s, events)
    decreases |events|
  {
    if events != [] {
      StepKeepsSound(s, events[0]);
      StepKeepsSlotsSafe(s, events[0]);
      SafeSlotsSpareUnasked(Apply(s, events[0]), events[1..]);
    }
  }

  /** The lengths of the keys in the slots. */
  function Lengths(slots: seq<Slot>): (r: set<nat>)
    ensures |r| <= |slots| && forall i :: 0 <= i < |slots| ==> |slots[i].key| in r
  {
    if slots == [] then {} else Lengths(slots[..|slots| - 1]) + {|slots[|slots| - 1].key|}
  }

  lemma {:induction false} UpTo(n: nat) returns (r: set<nat>)
    ensures |r| == n && forall k :: k in r ==> 0 < k <= n
  {
    if n == 0 {
      r := {};
    } else {
      r := UpTo(n - 1);
      r := r + {n};
    }
  }

  lemma {:induction false} LargerIsNotWithin(a: set<nat>, b: set<nat>)
    requires |a| > |b|
    ensures exists k :: k in a && k !in b
  {
    if k :| k in a {
      if k in b && b != {} { LargerIsNotWithin(a - {k}, b - {k}); }
    }
  }

  /** There is always another valid key: the slots are fewer than the lengths of keys. */
  lemma FreshKey(slots: seq<Slot>) returns (key: string)
    requires |slots| == MAX_STATIONS
    ensures ValidKey(key) && Find(slots, key) == MAX_STATIONS
  {
    var all := UpTo(MAX_STATIONS + 1);
    LargerIsNotWithin(all, Lengths(slots));
    var n: nat :| n in all && n !in Lengths(slots);
    key := seq(n, i => 'a');
  }

  /** A new station in the first free slot. */
  lemma TakeFresh(s: State) returns (key: string)
    requires Sound(s) && !s.registry.shuttingDown && FindFree(s.registry.slots) < MAX_STATIONS
    ensures var at, after := FindFree(s.registry.slots), Apply(s, Take(key, true));
            && after.registry.slots == s.registry.slots[at := Slot(true, false, 1, key, s.next)]
            && after.waiting == s.waiting && !after.registry.shuttingDown && FindFree(after.registry.slots) > at
  {
    key := FreshKey(s.registry.slots);
    var at, after := FindFree(s.registry.slots), Apply(s, Take(key, true)).registry.slots;
    var next := FindFree(after);
    assert forall j :: 0 <= j <= at ==> after[j].inUse;
  }

  /** How far the slot is from holding a station that is not marked. */
  function Stage(slot: Slot): nat
  {
    if slot.removing then 2 else if !slot.inUse then 1 else 0
  }

  /** A slot that is not safe is drained, cleared if it is marked, and filled again if it is
      free; then the removal that is one too many takes the station in it. */
  lemma {:induction false} UnsafeSlotLosesAStation(s: State, i: nat) returns (events: seq<Event>)
    requires Sound(s) && i < MAX_STATIONS && !SlotIsSafe(s, i)
    ensures Possible(s, events) && !Always(SparesUnasked, s, events)
    decreases Stage(s.registry.slots[i]),
              if s.registry.slots[i].inUse then 0 else MAX_STATIONS - FindFree(s.registry.slots),
              s.registry.slots[i].refs
  {
    var slot, e := s.registry.slots[i], FinishRemoval(i);
    assert SlotSound(s, i);
    if slot.refs == 0 && slot.inUse && !slot.removing {
      events := [e];
    } else {
      if slot.refs > 0 {
        e := Release(Hold(i, slot.engine));
      } else if !slot.inUse {
        var key := TakeFresh(s);
        e := Take(key, true);
      }
      StepKeepsSound(s, e);
      events := UnsafeSlotLosesAStation(Apply(s, e), i);
      ThenNotAlways(SparesUnasked, s, e, events);
      events := [e] + events;
    }
  }

  /** From now on, without further overlaps, no station goes that nobody asked to remove,
      exactly when no removal too many waits for any slot, unless the daemon shuts down and the
      slot holds no station that is not marked. */
  lemma StationsAreSafeExactlyWhen(s: State)
    requires Sound(s)
    ensures StationsAreSafe(s) <==> SlotsAreSafe(s)
  {
    if SlotsAreSafe(s) {
      forall events | Possible(s, events) ensures Always(SparesUnasked, s, events) { SafeSlotsSpareUnasked(s, events); }
    } else {
      var i :| 0 <= i < MAX_STATIONS && !SlotIsSafe(s, i);
      var events := UnsafeSlotLosesAStation(s, i);
    }
  }

  // ---------- Overlapping removals ----------

  /** Two removals of an idle station both wait for its slot. */
  function TwoRemovals(s: State, key: string, i: nat): State
    requires Sound(s) && i < MAX_STATIONS && Find(s.registry.slots, key) == i && s.registry.slots[i].refs == 0
  {
    var slot := s.registry.slots[i].(removing := true);
    s.(registry := s.registry.(slots := s.registry.slots[i := slot]), waiting := s.waiting + multiset{i, i})
  }

  lemma TwoRemovalsWait(s: State, key: string, i: nat)
    requires Sound(s) && i < MAX_STATIONS && Find(s.registry.slots, key) == i && s.registry.slots[i].refs == 0
    ensures Apply(Apply(s, BeginRemoval(key)), BeginRemoval(key)) == TwoRemovals(s, key, i)
  {
    var once := Apply(s, BeginRemoval(key));
    assert forall j :: 0 <= j < i ==> !Matches(once.registry.slots[j], key);
    assert Matches(once.registry.slots[i], key);
    assert Find(once.registry.slots, key) == i;
    assert multiset{i} + multiset{i} == multiset{i, i};
  }

  /** When the first has cleared the slot the second goes on: it counts a removal of nothing, */
  lemma SecondRemovalFindsNothing(s: State, key: string, i: nat)
    requires Sound(s) && i < MAX_STATIONS && Find(s.registry.slots, key) == i && s.registry.slots[i].refs == 0
    ensures var both := TwoRemovals(s, key, i);
            Enabled(both, FinishRemoval(i)) &&
            var cleared := Apply(both, FinishRemoval(i));
            Enabled(cleared, FinishRemoval(i)) && FinishesOnEmpty(cleared, FinishRemoval(i))
  {
    assert multiset{i, i}[i] == 2;
  }

  /** or it takes away a station made in the slot meanwhile, which nobody asked to remove. */
  lemma SecondRemovalTakesANewStation(s: State, key: string, i: nat, other: string)
    requires Sound(s) && i < MAX_STATIONS && Find(s.registry.slots, key) == i && s.registry.slots[i].refs == 0
    requires Enabled(TwoRemovals(s, key, i), FinishRemoval(i))
    requires Acquire(Apply(TwoRemovals(s, key, i), FinishRemoval(i)).registry, other, true) == Got(i, true)
    ensures var made := Apply(Apply(TwoRemovals(s, key, i), FinishRemoval(i)), Take(other, true));
            Enabled(made, Release(Hold(i, s.next))) &&
            var idle := Apply(made, Release(Hold(i, s.next)));
            idle.registry.slots[i] == Slot(true, false, 0, other, s.next) && Enabled(idle, FinishRemoval(i))
  {
    assert multiset{i, i}[i] == 2;
  }

  // A run in which that happens.

  /** The slots when only the first may be in use. */
  function OnlyFirst(slot: Slot): seq<Slot>
  {
    Start().registry.slots[0 := slot]
  }

  lemma OnlyFirstIsFound(slot: Slot, key: string)
    ensures Find(OnlyFirst(slot), key) == if Matches(slot, key) then 0 else MAX_STATIONS
    ensures !slot.inUse ==> FindFree(OnlyFirst(slot)) == 0
  {
    assert OnlyFirst(slot)[0] == slot;
    assert forall j :: 0 < j < MAX_STATIONS ==> OnlyFirst(slot)[j] == EMPTY;
  }

  /** No thread holds a station, `removers` wait for the first slot, and the others are free. */
  predicate Quiet(s: State, slot: Slot, removers: nat)
  {
    s.registry.slots == OnlyFirst(slot) && !s.registry.shuttingDown && s.holders == multiset{}
      && s.waiting[0] == removers
  }

  /** The run goes on with one more event. */
  lemma RunThen(states: seq<State>, events: seq<Event>, e: Event, after: State)
    requires Run(states, events) && Enabled(states[|events|], e) && after == Apply(states[|events|], e)
    ensures Run(states + [after], events + [e])
  {
  }

  /** The run leads to such a state. */
  predicate LeadsTo(states: seq<State>, events: seq<Event>, slot: Slot, removers: nat)
  {
    Run(states, events) && Quiet(states[|events|], slot, removers)
  }

  lemma MadeAndLeft(states: seq<State>, events: seq<Event>, key: string, removers: nat)
      returns (more: seq<State>, slot: Slot)
    requires LeadsTo(states, events, EMPTY, removers) && ValidKey(key)
    ensures slot == Slot(true, false, 0, key, slot.engine)
    ensures LeadsTo(more, events + [Take(key, true), Release(Hold(0, slot.engine))], slot, removers)
  {
    var s := states[|events|];
    slot := Slot(true, false, 0, key, s.next);
    var take, release := Take(key, true), Release(Hold(0, s.next));
    OnlyFirstIsFound(EMPTY, key);
    var made := Apply(s, take);
    assert made.registry.slots == OnlyFirst(slot.(refs := 1));
    RunThen(states, events, take, made);
    var left := Apply(made, release);
    assert left.registry.slots == OnlyFirst(slot);
    RunThen(states + [made], events + [take], release, left);
    more := states + [made] + [left];
    assert events + [take] + [release] == events + [take, release];
  }

  lemma MarkedOnceMore(states: seq<State>, events: seq<Event>, slot: Slot, removers: nat) returns (more: seq<State>)
    requires LeadsTo(states, events, slot, removers) && slot.inUse
    ensures LeadsTo(more, events + [BeginRemoval(slot.key)], slot.(removing := true), removers + 1)
  {
    OnlyFirstIsFound(slot, slot.key);
    var after := Apply(states[|events|], BeginRemoval(slot.key));
    assert after.registry.slots == OnlyFirst(slot.(removing := true));
    RunThen(states, events, BeginRemoval(slot.key), after);
    more := states + [after];
  }

  lemma ClearedOnce(states: seq<State>, events: seq<Event>, slot: Slot, removers: nat) returns (more: seq<State>)
    requires LeadsTo(states, events, slot, removers) && removers > 0 && slot.refs == 0
    ensures LeadsTo(more, events + [FinishRemoval(0)], EMPTY, removers - 1) && states <= more
  {
    var after := Apply(states[|events|], FinishRemoval(0));
    assert after.registry.slots == OnlyFirst(EMPTY);
    RunThen(states, events, FinishRemoval(0), after);
    more := states + [after];
  }

  /** Two removals of the first station, of which one has cleared the slot. */
  lemma RemovedOnceOfTwice(key: string) returns (states: seq<State>, events: seq<Event>, engine: EngineId)
    requires ValidKey(key)
    ensures LeadsTo(states, events, EMPTY, 1)
    ensures events == [Take(key, true), Release(Hold(0, engine)), BeginRemoval(key), BeginRemoval(key),
                       FinishRemoval(0)]
  {
    states, events := [Start()], [];
    assert OnlyFirst(EMPTY) == Start().registry.slots;
    var slot: Slot;
    states, slot := MadeAndLeft(states, events, key, 0);
    engine := slot.engine;
    events := events + [Take(key, true), Release(Hold(0, engine))];
    states := MarkedOnceMore(states, events, slot, 0);
    events := events + [BeginRemoval(key)];
    states := MarkedOnceMore(states, events, slot.(removing := true), 1);
    events := events + [BeginRemoval(key)];
    states := ClearedOnce(states, events, slot.(removing := true), 2);
    events := events + [FinishRemoval(0)];
  }

  /** The other removal takes another station, which nobody asked to remove. */
  lemma UnaskedStationIsRemoved(key: string, other: string) returns (states: seq<State>, events: seq<Event>)
    requires ValidKey(key) && ValidKey(other) && key != other
    ensures Run(states, events) && |events| == 8
    ensures events[7] == FinishRemoval(0) && states[7].registry.slots[0].key == other
    ensures !SparesUnasked(states[7], events[7])
    ensures forall i :: 0 <= i < |events| && events[i].BeginRemoval? ==> events[i].key == key
  {
    var engine: EngineId, slot: Slot;
    states, events, engine := RemovedOnceOfTwice(key);
    states, slot := MadeAndLeft(states, events, other, 1);
    events := events + [Take(other, true), Release(Hold(0, slot.engine))];
    assert OnlyFirst(slot)[0] == slot;
    states := ClearedOnce(states, events, slot, 1);
    events := events + [FinishRemoval(0)];
  }

  // ---------- The daemon ----------

  predicate Distinct(fds: seq<int>)
  {
    forall i, j :: 0 <= i < j < |fds| ==> fds[i] != fds[j]
  }

  function AsSet(fds: seq<int>): set<int> { set fd | fd in fds }

  /** The list after the last entry has moved into the place of entry `i`. */
  function SwapRemoved(fds: seq<int>, i: nat): seq<int>
    requires i < |fds|
  {
    fds[i := fds[|fds| - 1]][..|fds| - 1]
  }

  lemma SwapRemovedIsRemoved(fds: seq<int>, i: nat)
    requires i < |fds| && Distinct(fds)
    ensures Distinct(SwapRemoved(fds, i)) && AsSet(SwapRemoved(fds, i)) == AsSet(fds) - {fds[i]}
  {
    var r, n := SwapRemoved(fds, i), |fds| - 1;
    forall fd | fd in fds && fd != fds[i] ensures fd in r {
      var j :| 0 <= j < |fds| && fds[j] == fd;
      assert r[if j == n then i else j] == fd;
    }
  }

  /** The daemon's tables, changed in place; every method runs under the lock. */
  class Daemon {
    const stations: array<Slot>
    const clients: array<int>
    var clientCount: nat
    var created: nat
    var removed: nat
    var shuttingDown: bool

    ghost predicate Valid()
      reads this, clients
    {
      stations.Length == MAX_STATIONS && clients.Length == MAX_CLIENTS && clientCount <= MAX_CLIENTS
        && Distinct(Clients())
    }

    ghost function Clients(): seq<int>
      requires clientCount <= clients.Length
      reads this, clients
    {
      clients[..clientCount]
    }

    ghost function View(): Registry
      reads this, stations
    {
      Registry(stations[..], created, removed, shuttingDown)
    }

    constructor ()
      ensures Valid() && fresh(stations) && fresh(clients)
      ensures View() == Start().registry && Clients() == []
    {
      stations := new Slot[MAX_STATIONS](i => EMPTY);
      clients := new int[MAX_CLIENTS](i => 0);
      clientCount, created, removed, shuttingDown := 0, 0, 0, false;
    }

    /** find_station_locked */
    method FindStation(key: string) returns (i: nat)
      ensures i == Find(stations[..], key)
    {
      i := 0;
      while i < stations.Length
        invariant i <= stations.Length && Find(stations[..], key, i) == Find(stations[..], key)
      {
        if stations[i].inUse && stations[i].key == key { return; }
        i := i + 1;
      }
    }

    method FindFreeSlot() returns (i: nat)
      ensures i == FindFree(stations[..])
    {
      i := 0;
      while i < stations.Length
        invariant i <= stations.Length && FindFree(stations[..], i) == FindFree(stations[..])
      {
        if !stations[i].inUse { return; }
        i := i + 1;
      }
    }

    /** create_station_locked: `engineOk` is whether an engine could be made, `engine` which. */
    method CreateStation(key: string, engineOk: bool, engine: EngineId) returns (a: Acquired)
      requires Find(stations[..], key) == stations.Length && !shuttingDown
      modifies this`created, stations
      ensures a == Acquire(old(View()), key, engineOk)
      ensures a.Refused? ==> View() == old(View())
      ensures a.Got? ==> View() == old(View()).(slots := old(stations[..])[a.slot := Slot(true, false, 0, key, engine)],
                                                created := old(created) + 1)
    {
      if !ValidKey(key) { return Refused(InvalidKey); }
      var free := FindFreeSlot();
      if free == stations.Length { return Refused(Full); }
      if !engineOk { return Refused(NoEngine); }
      stations[free] := Slot(true, false, 0, key, engine);
      created := created + 1;
      a := Got(free, true);
    }

    /** acquire_station, as it is called: with `create`. */
    method AcquireStation(key: string, engineOk: bool, engine: EngineId) returns (a: Acquired)
      modifies this`created, stations
      ensures a == Acquire(old(View()), key, engineOk)
      ensures View() == WithReference(old(View()), key, a, engine)
    {
      var i := FindStation(key);
      if i == stations.Length {
        if shuttingDown { return Refused(NotThere); }
        a := CreateStation(key, engineOk, engine);
        if a.Refused? { return; }
        i := a.slot;
      } else {
        if stations[i].removing { return Refused(BeingRemoved); }
        a := Got(i, false);
      }
      stations[i] := stations[i].(refs := stations[i].refs + 1);
    }

    /** release_station */
    method ReleaseStation(i: nat)
      requires i < stations.Length
      modifies stations
      ensures View() == Released(old(View()), i)
    {
      if stations[i].refs > 0 {
        stations[i] := stations[i].(refs := stations[i].refs - 1);
      } else {
        assert stations[..] == old(stations[..]);
      }
    }

    /** One turn of the stop_all_stations loop: a station being removed is left alone. */
    method TakeStationAt(i: nat) returns (taken: bool)
      requires i < stations.Length
      modifies stations
      ensures taken <==> old(stations[i]).inUse && !old(stations[i]).removing
      ensures stations[..] == if taken then old(stations[..])[i := old(stations[i]).(refs := old(stations[i]).refs + 1)]
                              else old(stations[..])
    {
      taken := stations[i].inUse && !stations[i].removing;
      if taken { stations[i] := stations[i].(refs := stations[i].refs + 1); }
    }

    /** remove_station until it waits for the slot to drain. */
    method BeginRemove(key: string) returns (i: nat)
      modifies stations
      ensures i == Find(old(stations[..]), key)
      ensures View() == if i < stations.Length then Marked(old(View()), i) else old(View())
    {
      i := FindStation(key);
      if i < stations.Length { stations[i] := stations[i].(removing := true); }
    }

    /** remove_station once the slot has drained: the engine is the caller's to free. */
    method FinishRemove(i: nat) returns (engine: EngineId)
      requires i < stations.Length && stations[i].refs == 0
      modifies this`removed, stations
      ensures engine == old(stations[i].engine) && View() == Cleared(old(View()), i)
    {
      engine := stations[i].engine;
      stations[i] := EMPTY;
      removed := removed + 1;
    }

    /** wb_daemon_client_connected */
    method ConnectClient(fd: int) returns (ok: bool)
      requires Valid()
      modifies this`clientCount, clients
      ensures Valid()
      ensures ok <==> fd >= 0 && !shuttingDown && (fd in old(Clients()) || |old(Clients())| < MAX_CLIENTS)
      ensures Clients() == if ok && fd !in old(Clients()) then old(Clients()) + [fd] else old(Clients())
    {
      ok := false;
      if fd < 0 || shuttingDown { return; }
      for i := 0 to clientCount
        invariant !ok && forall j :: 0 <= j < i ==> clients[j] != fd
      {
        if clients[i] == fd {
          assert Clients()[i] == fd;
          return true;
        }
      }
      if clientCount < MAX_CLIENTS {
        clients[clientCount] := fd;
        clientCount := clientCount + 1;
        assert Clients() == old(Clients()) + [fd];
        ok := true;
      }
    }

    /** wb_daemon_client_disconnected */
    method DisconnectClient(fd: int)
      requires Valid()
      modifies this`clientCount, clients
      ensures Valid() && AsSet(Clients()) == AsSet(old(Clients())) - {fd}
      ensures fd !in old(Clients()) ==> Clients() == old(Clients())
      ensures fd in old(Clients()) ==> exists i :: 0 <= i < |old(Clients())| && old(Clients())[i] == fd
                                                   && Clients() == SwapRemoved(old(Clients()), i)
    {
      for i := 0 to clientCount
        invariant clientCount == old(clientCount) && clients[..] == old(clients[..])
        invariant forall j :: 0 <= j < i ==> clients[j] != fd
      {
        if clients[i] == fd {
          assert old(Clients())[i] == fd;
          SwapRemovedIsRemoved(Clients(), i);
          clients[i] := clients[clientCount - 1];
          clientCount := clientCount - 1;
          assert Clients() == SwapRemoved(old(Clients()), i);
          return;
        }
      }
    }
  }
}

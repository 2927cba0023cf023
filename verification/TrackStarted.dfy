/**
 Ordered, deduplicated handling of track_started events (NativeLifecycleCoordinator in
 audio_engine/lifecycle.py).

 A run interleaves event handlers (admission under the lock, then a non-blocking put, then
 possibly the withdrawal after a full queue), the single worker, and the clock.
 */
module TrackStarted {

  type Signature = nat

  /** Station and queue id; 0 when the event has none. */
  type Identity = nat

  /** An admitted event; `id` numbers the admissions. */
  datatype Item = Item(id: nat, signature: Signature, identity: Identity, attempt: nat)

  datatype Worker =
    | Idle
    | Processing(item: Item)
    | Retrying(item: Item)
    | Finishing(item: Item, success: bool)

  datatype Config = Config(capacity: nat, retries: nat, ttl: int)

  /** `entering` and `rejected` are the events held by handler threads: admitted but not put
      yet, and refused by the full queue but not withdrawn yet. */
  datatype State = State(
    now: int, admitted: nat,
    pending: set<Signature>, pendingIds: set<Identity>,
    done: map<Signature, int>, doneIds: map<Identity, int>,
    entering: set<Item>, rejected: set<Item>, queue: seq<Item>, worker: Worker)

  datatype Step =
    | Elapse(ms: nat)
    | Admit(signature: Signature, identity: Identity, readAt: int)
    | Put(item: Item)
    | Withdraw(item: Item)
    | Get
    | Process(success: bool)
    | PutRetry
    | Finish

  const INITIAL := State(0, 0, {}, {}, map[], map[], {}, {}, [], Idle)

  function Expire<K>(done: map<K, int>, at: int, ttl: int): map<K, int>
  {
    map k | k in done && at - done[k] <= ttl :: done[k]
  }

  /** The event is one that is pending or was done recently. */
  predicate Duplicate(s: State, g: Signature, q: Identity)
  {
    g in s.pending || g in s.done || (q != 0 && (q in s.pendingIds || q in s.doneIds))
  }

  function CleanUp(s: State, at: int, ttl: int): State
  {
    s.(done := Expire(s.done, at, ttl), doneIds := Expire(s.doneIds, at, ttl))
  }

  predicate Enabled(c: Config, s: State, e: Step)
  {
    match e
    case Elapse(_) => true
    case Admit(_, _, at) => at <= s.now
    case Put(x) => x in s.entering
    case Withdraw(x) => x in s.rejected
    case Get => s.worker.Idle? && s.queue != []
    case Process(_) => s.worker.Processing?
    case PutRetry => s.worker.Retrying? && |s.queue| < c.capacity
    case Finish => s.worker.Finishing?
  }

  function AdmitStep(c: Config, s: State, g: Signature, q: Identity, at: int): State
  {
    var t := CleanUp(s, at, c.ttl);
    if Duplicate(t, g, q) then t
    else
      t.(admitted := s.admitted + 1,
         pending := s.pending + {g},
         pendingIds := if q != 0 then s.pendingIds + {q} else s.pendingIds,
         entering := s.entering + {Item(s.admitted + 1, g, q, 0)})
  }

  function PutStep(c: Config, s: State, x: Item): State
  {
    var t := s.(entering := s.entering - {x});
    if |s.queue| < c.capacity then t.(queue := s.queue + [x]) else t.(rejected := s.rejected + {x})
  }

  function Forget(s: State, x: Item): State
  {
    s.(pending := s.pending - {x.signature},
       pendingIds := if x.identity != 0 then s.pendingIds - {x.identity} else s.pendingIds)
  }

  function FinishStep(s: State): State
    requires s.worker.Finishing?
  {
    var x := s.worker.item;
    var t := Forget(s, x).(worker := Idle);
    if s.worker.success then
      t.(done := s.done[x.signature := s.now],
         doneIds := if x.identity != 0 then s.doneIds[x.identity := s.now] else s.doneIds)
    else t
  }

  function ProcessStep(c: Config, s: State, success: bool): State
    requires s.worker.Processing?
  {
    var x := s.worker.item;
    if !success && x.attempt < c.retries then s.(worker := Retrying(x.(attempt := x.attempt + 1)))
    else s.(worker := Finishing(x, success))
  }

  function Apply(c: Config, s: State, e: Step): State
    requires Enabled(c, s, e)
  {
    match e
    case Elapse(ms) => s.(now := s.now + ms)
    case Admit(g, q, at) => AdmitStep(c, s, g, q, at)
    case Put(x) => PutStep(c, s, x)
    case Withdraw(x) => Forget(s, x).(rejected := s.rejected - {x})
    case Get => s.(worker := Processing(s.queue[0]), queue := s.queue[1..])
    case Process(success) => ProcessStep(c, s, success)
    case PutRetry => s.(queue := s.queue + [s.worker.item], worker := Idle)
    case Finish => FinishStep(s)
  }

  predicate Valid(c: Config, run: seq<Step>)
    decreases |run|, 0
  {
    run == [] || (Valid(c, run[..|run| - 1]) && Enabled(c, After(c, run[..|run| - 1]), run[|run| - 1]))
  }

  function After(c: Config, run: seq<Step>): State
    requires Valid(c, run)
    decreases |run|, 1
  {
    if run == [] then INITIAL else Apply(c, After(c, run[..|run| - 1]), run[|run| - 1])
  }

  // ---------- Events in flight ----------

  function Held(w: Worker): set<Item>
  {
    if w.Idle? then {} else {w.item}
  }

  function Queued(queue: seq<Item>): set<Item>
  {
    set x | x in queue
  }

  /** Every event between its admission and its end. */
  function InFlight(s: State): set<Item>
  {
    s.entering + s.rejected + Queued(s.queue) + Held(s.worker)
  }

  predicate Distinct(queue: seq<Item>)
  {
    forall i, j :: 0 <= i < j < |queue| ==> queue[i] != queue[j]
  }

  /** No event is in two places. */
  predicate Apart(s: State)
  {
    && s.entering !! s.rejected
    && Queued(s.queue) !! s.entering + s.rejected
    && Held(s.worker) !! s.entering + s.rejected + Queued(s.queue)
    && Distinct(s.queue)
  }

  predicate Clash(x: Item, y: Item)
  {
    x.signature == y.signature || (x.identity != 0 && x.identity == y.identity)
  }

  /** No two events share a signature or a queue identity. */
  predicate Exclusive(f: set<Item>)
  {
    forall x, y :: x in f && y in f && x != y ==> !Clash(x, y)
  }

  function Signatures(f: set<Item>): set<Signature> { set x | x in f :: x.signature }

  function Identities(f: set<Item>): set<Identity> { set x | x in f && x.identity != 0 :: x.identity }

  function With(ids: set<Identity>, q: Identity): set<Identity> { if q != 0 then ids + {q} else ids }

  function Without(ids: set<Identity>, q: Identity): set<Identity> { if q != 0 then ids - {q} else ids }

  /** The pending sets hold the signatures and identities of exactly the events in flight. */
  predicate Sound(c: Config, s: State)
  {
    && Apart(s) && Exclusive(InFlight(s))
    && s.pending == Signatures(InFlight(s)) && s.pendingIds == Identities(InFlight(s))
    && |s.queue| <= c.capacity
    && (forall x :: x in InFlight(s) ==> x.attempt <= c.retries && x.id <= s.admitted)
  }

  lemma KeysOfMore(f: set<Item>, x: Item)
    ensures Signatures(f + {x}) == Signatures(f) + {x.signature}
    ensures Identities(f + {x}) == With(Identities(f), x.identity)
  {
    assert forall y :: y in f ==> y in f + {x};
    assert x in f + {x};
  }

  lemma KeysOfFewer(f: set<Item>, x: Item)
    requires Exclusive(f) && x in f
    ensures Signatures(f - {x}) == Signatures(f) - {x.signature}
    ensures Identities(f - {x}) == Without(Identities(f), x.identity)
  {
    forall y | y in f - {x} ensures !Clash(y, x) { }
    forall y | y in f && y != x ensures y in f - {x} { }
  }

  lemma ExclusiveMore(f: set<Item>, x: Item)
    requires Exclusive(f) && x.signature !in Signatures(f) && (x.identity != 0 ==> x.identity !in Identities(f))
    ensures Exclusive(f + {x})
  {
    forall y | y in f ensures !Clash(x, y) && !Clash(y, x) {
      assert y.signature in Signatures(f);
      assert y.identity != 0 ==> y.identity in Identities(f);
    }
  }

  lemma QueuedMore(queue: seq<Item>, x: Item)
    ensures Queued(queue + [x]) == Queued(queue) + {x}
    ensures Distinct(queue) && x !in Queued(queue) ==> Distinct(queue + [x])
  {
  }

  lemma QueuedFewer(queue: seq<Item>)
    requires queue != [] && Distinct(queue)
    ensures Queued(queue[1..]) == Queued(queue) - {queue[0]} && Distinct(queue[1..])
  {
    assert queue == [queue[0]] + queue[1..];
    forall i | 0 <= i < |queue[1..]| ensures queue[1..][i] != queue[0] { assert queue[1..][i] == queue[i + 1]; }
  }

  lemma AdmitKeepsSound(c: Config, s: State, g: Signature, q: Identity, at: int)
    requires Sound(c, s) && at <= s.now
    ensures Sound(c, AdmitStep(c, s, g, q, at))
  {
    var x, t := Item(s.admitted + 1, g, q, 0), AdmitStep(c, s, g, q, at);
    if !Duplicate(CleanUp(s, at, c.ttl), g, q) {
      assert x !in InFlight(s);
      ExclusiveMore(InFlight(s), x);
      KeysOfMore(InFlight(s), x);
      assert InFlight(t) == InFlight(s) + {x};
    } else {
      assert InFlight(t) == InFlight(s);
    }
  }

  lemma PutKeepsSound(c: Config, s: State, x: Item)
    requires Sound(c, s) && x in s.entering
    ensures Sound(c, PutStep(c, s, x))
  {
    QueuedMore(s.queue, x);
    assert InFlight(PutStep(c, s, x)) == InFlight(s);
  }

  lemma EndKeepsSound(c: Config, s: State, t: State, x: Item)
    requires Sound(c, s) && x in InFlight(s) && Apart(t) && InFlight(t) == InFlight(s) - {x}
    requires t.pending == s.pending - {x.signature} && t.pendingIds == Without(s.pendingIds, x.identity)
    requires |t.queue| <= c.capacity && t.admitted == s.admitted
    ensures Sound(c, t)
  {
    KeysOfFewer(InFlight(s), x);
  }

  lemma RetryKeepsSound(c: Config, s: State, success: bool)
    requires Sound(c, s) && s.worker.Processing?
    ensures Sound(c, ProcessStep(c, s, success))
  {
    var x, t := s.worker.item, ProcessStep(c, s, success);
    if t.worker.Retrying? {
      var y, rest := t.worker.item, InFlight(s) - {x};
      assert Clash(x, y);
      forall z | z in rest ensures !Clash(x, z) && !Clash(z, y) && z != y { assert !Clash(x, z) && !Clash(z, x); }
      KeysOfFewer(InFlight(s), x);
      KeysOfMore(rest, y);
      assert InFlight(t) == rest + {y};
      assert rest + {x} == InFlight(s);
      KeysOfMore(rest, x);
      assert Exclusive(InFlight(t));
    } else {
      assert InFlight(t) == InFlight(s);
    }
  }

  lemma StepKeepsSound(c: Config, s: State, e: Step)
    requires Sound(c, s) && Enabled(c, s, e)
    ensures Sound(c, Apply(c, s, e))
  {
    match e {
      case Elapse(_) => assert InFlight(Apply(c, s, e)) == InFlight(s);
      case Admit(g, q, at) => AdmitKeepsSound(c, s, g, q, at);
      case Put(x) => PutKeepsSound(c, s, x);
      case Withdraw(x) => EndKeepsSound(c, s, Apply(c, s, e), x);
      case Get =>
        QueuedFewer(s.queue);
        assert InFlight(Apply(c, s, e)) == InFlight(s);
      case Process(success) => RetryKeepsSound(c, s, success);
      case PutRetry =>
        QueuedMore(s.queue, s.worker.item);
        assert InFlight(Apply(c, s, e)) == InFlight(s);
      case Finish => EndKeepsSound(c, s, Apply(c, s, e), s.worker.item);
    }
  }

  /** In every reachable state the pending sets are exactly those of the events in flight,
      which share no signature and no queue identity. */
  lemma {:induction false} PendingIsInFlight(c: Config, run: seq<Step>)
    requires Valid(c, run)
    ensures Sound(c, After(c, run))
  {
    if run != [] {
      PendingIsInFlight(c, run[..|run| - 1]);
      StepKeepsSound(c, After(c, run[..|run| - 1]), run[|run| - 1]);
    }
  }

  // ---------- Attempts and repeats ----------

  datatype Success = Success(item: Item, at: int)

  /** The book-keeping of a run: how often each admitted event was processed, when it was
      admitted, and the successes in order. */
  datatype Ledger = Ledger(tries: map<nat, nat>, admittedAt: map<nat, int>, successes: seq<Success>)

  function Write(c: Config, l: Ledger, s: State, e: Step): Ledger
    requires Enabled(c, s, e)
  {
    match e
    case Admit(g, q, at) =>
      if Duplicate(CleanUp(s, at, c.ttl), g, q) then l
      else Ledger(l.tries[s.admitted + 1 := 0], l.admittedAt[s.admitted + 1 := s.now], l.successes)
    case Process(_) =>
      var id := s.worker.item.id;
      l.(tries := l.tries[id := 1 + if id in l.tries then l.tries[id] else 0])
    case Finish =>
      if s.worker.success then l.(successes := l.successes + [Success(s.worker.item, s.now)]) else l
    case _ => l
  }

  function Book(c: Config, run: seq<Step>): Ledger
    requires Valid(c, run)
  {
    if run == [] then Ledger(map[], map[], [])
    else Write(c, Book(c, run[..|run| - 1]), After(c, run[..|run| - 1]), run[|run| - 1])
  }

  /** Each event was processed once more than its attempt number says when it is finishing,
      and as often as the number says before that. */
  predicate AttemptsCounted(c: Config, l: Ledger, s: State)
  {
    && (forall id :: id in l.tries ==> 0 < id <= s.admitted && l.tries[id] <= c.retries + 1)
    && (forall x :: x in InFlight(s) ==> x.id in l.tries && l.tries[x.id] == x.attempt + Finished(s, x))
    && (forall x, y :: x in InFlight(s) && y in InFlight(s) && x.id == y.id ==> x == y)
  }

  function Finished(s: State, x: Item): nat
  {
    if s.worker.Finishing? && s.worker.item == x then 1 else 0
  }

  predicate OnlyMoves(e: Step)
  {
    e.Elapse? || e.Put? || e.Get? || e.PutRetry?
  }

  lemma MovesKeepInFlight(c: Config, s: State, e: Step)
    requires Sound(c, s) && Enabled(c, s, e) && OnlyMoves(e)
    ensures InFlight(Apply(c, s, e)) == InFlight(s)
  {
    match e {
      case Get => QueuedFewer(s.queue);
      case PutRetry => QueuedMore(s.queue, s.worker.item);
      case Put(x) => QueuedMore(s.queue, x);
      case _ =>
    }
  }

  lemma ProcessKeepsAttempts(c: Config, l: Ledger, s: State, success: bool)
    requires Sound(c, s) && s.worker.Processing? && AttemptsCounted(c, l, s)
    ensures AttemptsCounted(c, Write(c, l, s, Process(success)), ProcessStep(c, s, success))
  {
    var x, t := s.worker.item, ProcessStep(c, s, success);
    assert x in InFlight(s) && x.attempt <= c.retries;
    forall y | y in InFlight(t) && y != t.worker.item ensures y in InFlight(s) && y.id != x.id { }
  }

  lemma FewerKeepAttempts(c: Config, l: Ledger, s: State, t: State)
    requires AttemptsCounted(c, l, s) && InFlight(t) <= InFlight(s) && t.admitted == s.admitted
    requires forall x :: x in InFlight(t) ==> Finished(t, x) == Finished(s, x)
    ensures AttemptsCounted(c, l, t)
  {
  }

  lemma AdmitKeepsAttempts(c: Config, l: Ledger, s: State, g: Signature, q: Identity, at: int)
    requires Sound(c, s) && at <= s.now && AttemptsCounted(c, l, s)
    ensures AttemptsCounted(c, Write(c, l, s, Admit(g, q, at)), AdmitStep(c, s, g, q, at))
  {
    var t := AdmitStep(c, s, g, q, at);
    forall x | x in InFlight(t) ensures x in InFlight(s) || x == Item(s.admitted + 1, g, q, 0) { }
    forall x | x in InFlight(s) ensures x.id <= s.admitted { }
  }

  lemma StepKeepsAttempts(c: Config, l: Ledger, s: State, e: Step)
    requires Sound(c, s) && Enabled(c, s, e) && AttemptsCounted(c, l, s)
    ensures AttemptsCounted(c, Write(c, l, s, e), Apply(c, s, e))
  {
    if e.Process? {
      ProcessKeepsAttempts(c, l, s, e.success);
    } else if e.Admit? {
      AdmitKeepsAttempts(c, l, s, e.signature, e.identity, e.readAt);
    } else {
      if OnlyMoves(e) { MovesKeepInFlight(c, s, e); }
      FewerKeepAttempts(c, l, s, Apply(c, s, e));
      assert Write(c, l, s, e).tries == l.tries;
    }
  }

  /** No event is ever processed more than retries + 1 times. */
  lemma {:induction false} AttemptsAreBounded(c: Config, run: seq<Step>)
    requires Valid(c, run)
    ensures AttemptsCounted(c, Book(c, run), After(c, run))
  {
    if run != [] {
      var before := run[..|run| - 1];
      AttemptsAreBounded(c, before);
      PendingIsInFlight(c, before);
      StepKeepsAttempts(c, Book(c, before), After(c, before), run[|run| - 1]);
    }
  }

  /** A success is still remembered under a key, or is more than the time-to-live ago. */
  predicate Remembered<K(==)>(done: map<K, int>, key: K, at: int, now: int, ttl: int)
  {
    (key in done && done[key] >= at) || now - at > ttl
  }

  predicate SuccessRemembered(c: Config, s: State, su: Success)
  {
    && su.at <= s.now
    && Remembered(s.done, su.item.signature, su.at, s.now, c.ttl)
    && (su.item.identity != 0 ==> Remembered(s.doneIds, su.item.identity, su.at, s.now, c.ttl))
  }

  /** An event that shares a key with a success was admitted more than the time-to-live
      after it. */
  predicate AdmittedLater(c: Config, l: Ledger, su: Success, x: Item)
  {
    Clash(su.item, x) ==> x.id in l.admittedAt && l.admittedAt[x.id] - su.at > c.ttl
  }

  predicate Spaced(c: Config, l: Ledger, s: State)
  {
    && (forall i :: 0 <= i < |l.successes| ==> SuccessRemembered(c, s, l.successes[i]))
    && (forall i, x :: 0 <= i < |l.successes| && x in InFlight(s) ==> AdmittedLater(c, l, l.successes[i], x))
    && (forall i, j :: 0 <= i < j < |l.successes| ==> AdmittedLater(c, l, l.successes[i], l.successes[j].item))
    && (forall id :: id in l.admittedAt ==> id <= s.admitted)
  }

  lemma ExpiryKeepsRemembered<K>(done: map<K, int>, key: K, at: int, readAt: int, now: int, ttl: int)
    requires Remembered(done, key, at, now, ttl) && readAt <= now
    ensures Remembered(Expire(done, readAt, ttl), key, at, now, ttl)
  {
  }

  lemma CleanUpKeepsRemembered(c: Config, s: State, su: Success, at: int)
    requires SuccessRemembered(c, s, su) && at <= s.now
    ensures SuccessRemembered(c, CleanUp(s, at, c.ttl), su)
  {
    ExpiryKeepsRemembered(s.done, su.item.signature, su.at, at, s.now, c.ttl);
    if su.item.identity != 0 { ExpiryKeepsRemembered(s.doneIds, su.item.identity, su.at, at, s.now, c.ttl); }
  }

  /** An event that is not a duplicate shares a key only with successes that are old. */
  lemma FreshEventIsLater(c: Config, s: State, su: Success, g: Signature, q: Identity)
    requires SuccessRemembered(c, s, su) && !Duplicate(s, g, q)
    ensures Clash(su.item, Item(s.admitted + 1, g, q, 0)) ==> s.now - su.at > c.ttl
  {
  }

  lemma AdmitKeepsSpaced(c: Config, l: Ledger, s: State, g: Signature, q: Identity, at: int)
    requires Sound(c, s) && Spaced(c, l, s) && at <= s.now
    ensures Spaced(c, Write(c, l, s, Admit(g, q, at)), AdmitStep(c, s, g, q, at))
  {
    var t, m := AdmitStep(c, s, g, q, at), Write(c, l, s, Admit(g, q, at));
    forall i | 0 <= i < |l.successes| ensures SuccessRemembered(c, CleanUp(s, at, c.ttl), l.successes[i]) {
      CleanUpKeepsRemembered(c, s, l.successes[i], at);
    }
    if !Duplicate(CleanUp(s, at, c.ttl), g, q) {
      var y := Item(s.admitted + 1, g, q, 0);
      forall i, x | 0 <= i < |l.successes| && x in InFlight(t) ensures AdmittedLater(c, m, l.successes[i], x) {
        if x == y { FreshEventIsLater(c, CleanUp(s, at, c.ttl), l.successes[i], g, q); }
        else { assert x in InFlight(s) && AdmittedLater(c, l, l.successes[i], x); }
      }
      forall i, j | 0 <= i < j < |l.successes| ensures AdmittedLater(c, m, l.successes[i], l.successes[j].item) {
        assert AdmittedLater(c, l, l.successes[i], l.successes[j].item);
      }
    }
  }

  lemma FinishKeepsSpaced(c: Config, l: Ledger, s: State)
    requires Sound(c, s) && Spaced(c, l, s) && s.worker.Finishing?
    ensures Spaced(c, Write(c, l, s, Finish), FinishStep(s))
  {
    var x, t, m := s.worker.item, FinishStep(s), Write(c, l, s, Finish);
    forall i | 0 <= i < |l.successes| ensures SuccessRemembered(c, t, l.successes[i]) {
      assert SuccessRemembered(c, s, l.successes[i]);
    }
    forall y | y in InFlight(t) ensures y in InFlight(s) && y != x { }
    forall i, y | 0 <= i < |m.successes| && y in InFlight(t) ensures AdmittedLater(c, m, m.successes[i], y) {
      if i < |l.successes| { assert AdmittedLater(c, l, l.successes[i], y); }
      else { assert x in InFlight(s) && !Clash(x, y); }
    }
    forall i, j | 0 <= i < j < |m.successes| ensures AdmittedLater(c, m, m.successes[i], m.successes[j].item) {
      if j < |l.successes| { assert AdmittedLater(c, l, l.successes[i], l.successes[j].item); }
      else { assert x in InFlight(s) && AdmittedLater(c, l, l.successes[i], x); }
    }
  }

  /** Fewer events, later: nothing to show. */
  lemma SameSuccessesStaySpaced(c: Config, l: Ledger, s: State, t: State)
    requires Spaced(c, l, s) && InFlight(t) <= InFlight(s)
    requires t.done == s.done && t.doneIds == s.doneIds && t.now >= s.now && t.admitted == s.admitted
    ensures Spaced(c, l, t)
  {
    forall i | 0 <= i < |l.successes| ensures SuccessRemembered(c, t, l.successes[i]) {
      assert SuccessRemembered(c, s, l.successes[i]);
    }
  }

  lemma ProcessKeepsSpaced(c: Config, l: Ledger, s: State, success: bool)
    requires Sound(c, s) && Spaced(c, l, s) && s.worker.Processing?
    ensures Spaced(c, l, ProcessStep(c, s, success))
  {
    var x, t := s.worker.item, ProcessStep(c, s, success);
    assert x in InFlight(s);
    forall i, y | 0 <= i < |l.successes| && y in InFlight(t) ensures AdmittedLater(c, l, l.successes[i], y) {
      if y == t.worker.item { assert AdmittedLater(c, l, l.successes[i], x); }
      else { assert y in InFlight(s) && AdmittedLater(c, l, l.successes[i], y); }
    }
    forall i | 0 <= i < |l.successes| ensures SuccessRemembered(c, t, l.successes[i]) {
      assert SuccessRemembered(c, s, l.successes[i]);
    }
  }

  lemma TriesDoNotMatter(c: Config, l: Ledger, s: State, tries: map<nat, nat>)
    requires Spaced(c, l, s)
    ensures Spaced(c, l.(tries := tries), s)
  {
    var m := l.(tries := tries);
    forall i, x | 0 <= i < |l.successes| && x in InFlight(s) ensures AdmittedLater(c, m, l.successes[i], x) {
      assert AdmittedLater(c, l, l.successes[i], x);
    }
    forall i, j | 0 <= i < j < |l.successes| ensures AdmittedLater(c, m, l.successes[i], l.successes[j].item) {
      assert AdmittedLater(c, l, l.successes[i], l.successes[j].item);
    }
  }

  lemma OtherStepKeepsSpaced(c: Config, l: Ledger, s: State, e: Step)
    requires Sound(c, s) && Enabled(c, s, e) && Spaced(c, l, s) && !e.Admit? && !e.Finish?
    ensures Spaced(c, Write(c, l, s, e), Apply(c, s, e))
  {
    if e.Process? {
      ProcessKeepsSpaced(c, l, s, e.success);
      TriesDoNotMatter(c, l, Apply(c, s, e), Write(c, l, s, e).tries);
    } else {
      if OnlyMoves(e) { MovesKeepInFlight(c, s, e); }
      SameSuccessesStaySpaced(c, l, s, Apply(c, s, e));
    }
  }

  /** A second success for a signature or a queue identity belongs to an event admitted more
      than the time-to-live after the first success. */
  lemma {:induction false} RepeatsAreSpaced(c: Config, run: seq<Step>)
    requires Valid(c, run)
    ensures Spaced(c, Book(c, run), After(c, run))
  {
    if run != [] {
      var before, e := run[..|run| - 1], run[|run| - 1];
      RepeatsAreSpaced(c, before);
      PendingIsInFlight(c, before);
      var l, s := Book(c, before), After(c, before);
      if e.Admit? { AdmitKeepsSpaced(c, l, s, e.signature, e.identity, e.readAt); }
      else if e.Finish? { FinishKeepsSpaced(c, l, s); }
      else { OtherStepKeepsSpaced(c, l, s, e); }
    }
  }

  // ---------- The coordinator ----------

  /** The sets and maps of the coordinator, changed in place under its lock. */
  class Coordinator {
    const config: Config
    var pending: set<Signature>
    var pendingIds: set<Identity>
    var done: map<Signature, int>
    var doneIds: map<Identity, int>
    var queue: seq<Item>

    /** The record is that of the model state. */
    ghost predicate Shows(s: State)
      reads this
    {
      pending == s.pending && pendingIds == s.pendingIds && done == s.done && doneIds == s.doneIds && queue == s.queue
    }

    constructor (capacity: int, retries: int, ttl: int)
      ensures Shows(INITIAL)
      ensures config.capacity == (if capacity < 1 then 1 else capacity)
              && config.retries == (if retries < 0 then 0 else retries) && config.ttl == (if ttl < 1 then 1 else ttl)
    {
      config := Config(if capacity < 1 then 1 else capacity, if retries < 0 then 0 else retries,
                       if ttl < 1 then 1 else ttl);
      pending, pendingIds, done, doneIds, queue := {}, {}, map[], map[], [];
    }

    /** Removes the entries that are too old, one by one. */
    static method RemoveExpired(done: map<nat, int>, at: int, ttl: int) returns (kept: map<nat, int>)
      ensures kept == Expire(done, at, ttl)
    {
      kept := done;
      var left := done.Keys;
      while left != {}
        invariant left <= done.Keys && kept.Keys <= done.Keys
        invariant forall k :: k in kept ==> kept[k] == done[k]
        invariant forall k :: k in left ==> k in kept
        invariant forall k :: k in done.Keys - left ==> (k in kept <==> at - done[k] <= ttl)
        decreases |left|
      {
        var k :| k in left;
        if at - kept[k] > ttl { kept := kept - {k}; }
        left := left - {k};
      }
    }

    method AdmitEvent(g: Signature, q: Identity, at: int, ghost s: State) returns (admitted: bool)
      requires Shows(s)
      modifies this
      ensures Shows(AdmitStep(config, s, g, q, at))
      ensures admitted == !Duplicate(CleanUp(s, at, config.ttl), g, q)
    {
      done := RemoveExpired(done, at, config.ttl);
      doneIds := RemoveExpired(doneIds, at, config.ttl);
      admitted := false;
      if g in pending || g in done { return; }
      if q != 0 && (q in pendingIds || q in doneIds) { return; }
      pending := pending + {g};
      if q != 0 { pendingIds := pendingIds + {q}; }
      admitted := true;
    }

    method PutWithoutWaiting(x: Item, ghost s: State) returns (full: bool)
      requires Shows(s)
      modifies `queue
      ensures Shows(PutStep(config, s, x)) && full == (|s.queue| >= config.capacity)
    {
      full := |queue| >= config.capacity;
      if !full { queue := queue + [x]; }
    }

    method WithdrawEvent(x: Item, ghost s: State)
      requires Shows(s)
      modifies this
      ensures Shows(Forget(s, x).(rejected := s.rejected - {x}))
    {
      pending := pending - {x.signature};
      if x.identity != 0 { pendingIds := pendingIds - {x.identity}; }
    }

    method FinishEvent(x: Item, success: bool, completedAt: int, ghost s: State)
      requires Shows(s) && s.worker == Finishing(x, success) && completedAt == s.now
      modifies this
      ensures Shows(FinishStep(s))
    {
      pending := pending - {x.signature};
      if x.identity != 0 { pendingIds := pendingIds - {x.identity}; }
      if success {
        done := done[x.signature := completedAt];
        if x.identity != 0 { doneIds := doneIds[x.identity := completedAt]; }
      }
    }
  }
}

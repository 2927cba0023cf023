/**
 Serialisation of Manual Next requests for one station (ManualNextOrchestrator in
 player/orchestration.py).

 A run interleaves three kinds of atomic steps: requests being enqueued, lifecycle marks
 arriving, and the critical sections of the worker threads.  `After` is the state a run
 leads to and `Ledger` its book-keeping; the theorems are about every valid run.
 */
module ManualNext {

  type RequestId = nat
  type QueueId = int

  datatype Result = Committed(target: QueueId) | Skipped | Failed

  /** Where a worker thread is in its loop. */
  datatype Phase =
    | Top
    | Running(request: RequestId)
    | Reserved(request: RequestId, target: QueueId)
    | AwaitingMark(request: RequestId, target: QueueId)
    | Done(request: RequestId, result: Result)
    | Exited

  /** `threads` are all the workers ever started; `registered` is the one in the worker map.
      `known` says that the station has a state record at all. */
  datatype State = State(
    known: bool, pending: seq<RequestId>, processing: bool, requestSeq: nat,
    activeRequest: RequestId, activeTarget: QueueId,
    lastMark: QueueId, lastMarkSuccess: bool,
    threads: seq<Phase>, registered: int)

  const INITIAL := State(false, [], false, 0, 0, 0, 0, false, [], -1)

  datatype Step =
    | Enqueue
    | Mark(queueId: QueueId, success: bool)
    | Take(thread: nat)
    | Reserve(thread: nat, target: QueueId)
    | Conclude(thread: nat, ok: bool)
    | HandedOff(thread: nat)
    | Observe(thread: nat)
    | Timeout(thread: nat)
    | Record(thread: nat)

  function Outstanding(s: State): nat
  {
    |s.pending| + if s.processing then 1 else 0
  }

  predicate Accepts(s: State, maxPending: nat)
  {
    Outstanding(s) < maxPending
  }

  predicate Enabled(s: State, e: Step)
  {
    match e
    case Enqueue => true
    case Mark(q, _) => q > 0
    case Take(t) => t < |s.threads| && s.threads[t].Top?
    case Reserve(t, target) => t < |s.threads| && s.threads[t].Running? && target > 0
    case Conclude(t, _) =>
      t < |s.threads| && (s.threads[t].Running? || s.threads[t].Reserved?)
    case HandedOff(t) => t < |s.threads| && s.threads[t].Reserved?
    case Observe(t) => t < |s.threads| && s.threads[t].AwaitingMark? && s.lastMark == s.threads[t].target
    case Timeout(t) => t < |s.threads| && s.threads[t].AwaitingMark? && s.lastMark != s.threads[t].target
    case Record(t) => t < |s.threads| && s.threads[t].Done?
  }

  function Move(s: State, t: nat, phase: Phase): State
    requires t < |s.threads|
  {
    s.(threads := s.threads[t := phase])
  }

  /** A request is rejected when the queue is full; otherwise it is queued, and a worker is
      started unless one is registered. */
  function EnqueueStep(s: State, maxPending: nat): State
  {
    var s1 := s.(known := true, requestSeq := s.requestSeq + 1);
    if !Accepts(s, maxPending) then s1
    else
      var s2 := s1.(pending := s.pending + [s1.requestSeq]);
      if s.registered >= 0 && s.registered < |s.threads| && !s.threads[s.registered].Exited? then s2
      else s2.(threads := s.threads + [Top], registered := |s.threads|)
  }

  function MarkStep(s: State, q: QueueId, success: bool): State
  {
    if s.known then s.(lastMark := q, lastMarkSuccess := success) else s
  }

  function TakeStep(s: State, t: nat): State
    requires t < |s.threads|
  {
    if s.pending == [] then
      Move(s, t, Exited).(processing := false, activeRequest := 0, activeTarget := 0, registered := -1)
    else
      Move(s, t, Running(s.pending[0])).(
        pending := s.pending[1..], processing := true, activeRequest := s.pending[0], activeTarget := 0)
  }

  /** The target is fixed, and a mark of an earlier run of the same target is forgotten. */
  function ReserveStep(s: State, t: nat, target: QueueId): State
    requires t < |s.threads| && s.threads[t].Running?
  {
    var s1 := Move(s, t, Reserved(s.threads[t].request, target)).(activeTarget := target);
    if s.lastMark == target then s1.(lastMark := 0, lastMarkSuccess := false) else s1
  }

  function ObserveStep(s: State, t: nat): State
    requires t < |s.threads| && s.threads[t].AwaitingMark?
  {
    var p := s.threads[t];
    Move(s, t, Done(p.request, if s.lastMarkSuccess then Committed(p.target) else Failed))
  }

  function RecordStep(s: State, t: nat): State
    requires t < |s.threads| && s.threads[t].Done?
  {
    var s1 := Move(s, t, Top).(activeRequest := 0, activeTarget := 0);
    if s.threads[t].result.Failed? then s1.(pending := []) else s1
  }

  function Apply(s: State, e: Step, maxPending: nat): State
    requires Enabled(s, e)
  {
    match e
    case Enqueue => EnqueueStep(s, maxPending)
    case Mark(q, success) => MarkStep(s, q, success)
    case Take(t) => TakeStep(s, t)
    case Reserve(t, target) => ReserveStep(s, t, target)
    case Conclude(t, ok) => Move(s, t, Done(s.threads[t].request, if ok then Skipped else Failed))
    case HandedOff(t) => Move(s, t, AwaitingMark(s.threads[t].request, s.threads[t].target))
    case Observe(t) => ObserveStep(s, t)
    case Timeout(t) => Move(s, t, Done(s.threads[t].request, Failed))
    case Record(t) => RecordStep(s, t)
  }

  predicate Valid(run: seq<Step>, maxPending: nat)
    decreases |run|, 0
  {
    run == []
    || (Valid(run[..|run| - 1], maxPending) && Enabled(After(run[..|run| - 1], maxPending), run[|run| - 1]))
  }

  function After(run: seq<Step>, maxPending: nat): State
    requires Valid(run, maxPending)
    decreases |run|, 1
  {
    if run == [] then INITIAL
    else Apply(After(run[..|run| - 1], maxPending), run[|run| - 1], maxPending)
  }

  // ---------- One worker, bounded queue ----------

  /** Every thread but the registered one has left its loop; the outstanding requests fit. */
  predicate Serial(s: State, maxPending: nat)
  {
    && -1 <= s.registered < |s.threads|
    && (forall t :: 0 <= t < |s.threads| && t != s.registered ==> s.threads[t] == Exited)
    && (s.registered >= 0 ==> s.threads[s.registered] != Exited)
    && (s.pending != [] ==> s.registered >= 0)
    && (s.processing ==> s.registered >= 0)
    && (s.registered >= 0 && !s.threads[s.registered].Top? ==> s.processing)
    && Outstanding(s) <= maxPending
  }

  lemma StepKeepsSerial(s: State, e: Step, maxPending: nat)
    requires Serial(s, maxPending) && Enabled(s, e)
    ensures Serial(Apply(s, e, maxPending), maxPending)
  {
  }

  predicate Executing(p: Phase)
  {
    !p.Top? && !p.Exited?
  }

  /** In every reachable state at most one request executes, and queued plus executing
      requests stay within the limit. */
  lemma {:induction false} AtMostOneExecutes(run: seq<Step>, maxPending: nat)
    requires Valid(run, maxPending)
    ensures var s := After(run, maxPending);
            && Serial(s, maxPending)
            && (forall t, u | 0 <= t < |s.threads| && 0 <= u < |s.threads| ::
                  Executing(s.threads[t]) && Executing(s.threads[u]) ==> t == u)
            && |s.pending| + Running1(s) <= maxPending
  {
    if run != [] {
      AtMostOneExecutes(run[..|run| - 1], maxPending);
      StepKeepsSerial(After(run[..|run| - 1], maxPending), run[|run| - 1], maxPending);
    }
  }

  /** The number of executing requests, when there is one worker at most. */
  function Running1(s: State): nat
  {
    if 0 <= s.registered < |s.threads| && Executing(s.threads[s.registered]) then 1 else 0
  }

  // ---------- The ledger of a run ----------

  datatype Ledger = Ledger(accepted: seq<RequestId>, started: seq<RequestId>, completed: nat, dropped: seq<RequestId>)

  function Write(b: Ledger, s: State, e: Step, maxPending: nat): Ledger
    requires Enabled(s, e)
  {
    match e
    case Enqueue =>
      if Accepts(s, maxPending) then b.(accepted := b.accepted + [s.requestSeq + 1]) else b
    case Take(t) => if s.pending == [] then b else b.(started := b.started + [s.pending[0]])
    case Record(t) =>
      b.(completed := b.completed + 1,
         dropped := b.dropped + if s.threads[t].result.Failed? then s.pending else [])
    case _ => b
  }

  function Book(run: seq<Step>, maxPending: nat): Ledger
    requires Valid(run, maxPending)
  {
    if run == [] then Ledger([], [], 0, [])
    else
      var before := run[..|run| - 1];
      Write(Book(before, maxPending), After(before, maxPending), run[|run| - 1], maxPending)
  }

  predicate Increasing(ids: seq<nat>)
  {
    forall i, j :: 0 <= i < j < |ids| ==> ids[i] < ids[j]
  }

  predicate Before(a: seq<nat>, b: seq<nat>)
  {
    forall i, j :: 0 <= i < |a| && 0 <= j < |b| ==> a[i] < b[j]
  }

  predicate UpTo(ids: seq<nat>, limit: nat)
  {
    forall i :: 0 <= i < |ids| ==> ids[i] <= limit
  }

  /** Requests are numbered and started in the order of acceptance. */
  predicate InAcceptanceOrder(b: Ledger, s: State)
  {
    && Increasing(b.accepted) && Increasing(b.started) && Increasing(s.pending)
    && Before(b.started, s.pending) && Before(b.dropped, s.pending)
    && UpTo(b.accepted, s.requestSeq) && UpTo(b.started, s.requestSeq)
    && UpTo(b.dropped, s.requestSeq) && UpTo(s.pending, s.requestSeq)
  }

  /** Every accepted request is in exactly one place. */
  ghost predicate InOnePlace(b: Ledger, s: State)
  {
    && (forall x :: x in b.accepted <==> x in b.started || x in b.dropped || x in s.pending)
    && (forall x :: x in b.started ==> x !in b.dropped)
  }

  predicate Counted(b: Ledger, s: State)
  {
    && |b.accepted| == b.completed + |b.dropped| + |s.pending| + Running1(s)
    && |b.started| == b.completed + Running1(s)
  }

  lemma AppendNewest(ids: seq<nat>, newest: nat)
    requires newest > 0 && Increasing(ids) && UpTo(ids, newest - 1)
    ensures Increasing(ids + [newest]) && UpTo(ids + [newest], newest)
  {
  }

  lemma BeforeNewest(a: seq<nat>, ids: seq<nat>, newest: nat)
    requires newest > 0 && Before(a, ids) && UpTo(a, newest - 1)
    ensures Before(a, ids + [newest]) && UpTo(a, newest)
  {
  }

  lemma EnqueueKeepsOrder(b: Ledger, s: State, maxPending: nat)
    requires InAcceptanceOrder(b, s)
    ensures InAcceptanceOrder(Write(b, s, Enqueue, maxPending), EnqueueStep(s, maxPending))
  {
    var newest := s.requestSeq + 1;
    AppendNewest(b.accepted, newest);
    AppendNewest(s.pending, newest);
    BeforeNewest(b.started, s.pending, newest);
    BeforeNewest(b.dropped, s.pending, newest);
    var next := EnqueueStep(s, maxPending);
    assert next.requestSeq == newest;
    assert next.pending == s.pending || next.pending == s.pending + [newest];
    assert UpTo(b.accepted, newest) && UpTo(s.pending, newest);
  }

  lemma TakeKeepsOrder(b: Ledger, s: State, t: nat, maxPending: nat)
    requires Enabled(s, Take(t)) && InAcceptanceOrder(b, s)
    ensures InAcceptanceOrder(Write(b, s, Take(t), maxPending), TakeStep(s, t))
  {
    if s.pending != [] {
      var head, rest := s.pending[0], s.pending[1..];
      assert Before([head], rest) && Before(b.started, [head]);
    }
  }

  lemma RecordKeepsOrder(b: Ledger, s: State, t: nat, maxPending: nat)
    requires Enabled(s, Record(t)) && InAcceptanceOrder(b, s)
    ensures InAcceptanceOrder(Write(b, s, Record(t), maxPending), RecordStep(s, t))
  {
  }

  lemma StepKeepsOrder(b: Ledger, s: State, e: Step, maxPending: nat)
    requires Enabled(s, e) && InAcceptanceOrder(b, s)
    ensures InAcceptanceOrder(Write(b, s, e, maxPending), Apply(s, e, maxPending))
  {
    match e {
      case Enqueue => EnqueueKeepsOrder(b, s, maxPending);
      case Take(t) => TakeKeepsOrder(b, s, t, maxPending);
      case Record(t) => RecordKeepsOrder(b, s, t, maxPending);
      case _ =>
    }
  }

  lemma StepKeepsPlaces(b: Ledger, s: State, e: Step, maxPending: nat)
    requires Enabled(s, e) && InAcceptanceOrder(b, s) && InOnePlace(b, s)
    ensures InOnePlace(Write(b, s, e, maxPending), Apply(s, e, maxPending))
  {
    match e {
      case Enqueue =>
      case Take(t) =>
        if s.pending != [] { assert s.pending == [s.pending[0]] + s.pending[1..]; }
      case Record(t) =>
      case _ =>
    }
  }

  lemma StepKeepsCount(b: Ledger, s: State, e: Step, maxPending: nat)
    requires Serial(s, maxPending) && Enabled(s, e) && Counted(b, s)
    ensures Counted(Write(b, s, e, maxPending), Apply(s, e, maxPending))
  {
  }

  ghost predicate Balanced(b: Ledger, s: State)
  {
    InAcceptanceOrder(b, s) && InOnePlace(b, s) && Counted(b, s)
  }

  lemma {:induction false} BookIsBalanced(run: seq<Step>, maxPending: nat)
    requires Valid(run, maxPending)
    ensures Balanced(Book(run, maxPending), After(run, maxPending))
  {
    if run != [] {
      var before := run[..|run| - 1];
      BookIsBalanced(before, maxPending);
      AtMostOneExecutes(before, maxPending);
      var b, s, e := Book(before, maxPending), After(before, maxPending), run[|run| - 1];
      StepKeepsOrder(b, s, e, maxPending);
      StepKeepsPlaces(b, s, e, maxPending);
      StepKeepsCount(b, s, e, maxPending);
    }
  }

  // ---------- Order, and the end of a failed batch ----------

  /** Requests start in the order in which they were accepted, and each accepted request is
      completed, dropped, queued or executing. */
  ghost predicate Orderly(b: Ledger, s: State)
  {
    && Increasing(b.accepted) && Increasing(b.started)
    && (forall x :: x in b.started ==> x in b.accepted)
    && |b.accepted| == b.completed + |b.dropped| + |s.pending| + Running1(s)
  }

  lemma BalancedIsOrderly(b: Ledger, s: State)
    requires Balanced(b, s)
    ensures Orderly(b, s)
  {
  }

  lemma RequestsStartInOrder(run: seq<Step>, maxPending: nat)
    requires Valid(run, maxPending)
    ensures Orderly(Book(run, maxPending), After(run, maxPending))
  {
    BookIsBalanced(run, maxPending);
    BalancedIsOrderly(Book(run, maxPending), After(run, maxPending));
  }

  lemma {:induction false} PrefixIsValid(run: seq<Step>, n: nat, maxPending: nat)
    requires Valid(run, maxPending) && n <= |run|
    ensures Valid(run[..n], maxPending)
  {
    if n < |run| {
      PrefixIsValid(run[..|run| - 1], n, maxPending);
      assert run[..|run| - 1][..n] == run[..n];
    } else {
      assert run[..n] == run;
    }
  }

  lemma {:induction false} DropsAreKept(run: seq<Step>, n: nat, maxPending: nat, x: RequestId)
    requires Valid(run, maxPending) && n <= |run|
    ensures Valid(run[..n], maxPending)
    ensures x in Book(run[..n], maxPending).dropped ==> x in Book(run, maxPending).dropped
  {
    PrefixIsValid(run, n, maxPending);
    if n < |run| {
      DropsAreKept(run[..|run| - 1], n, maxPending, x);
      assert run[..|run| - 1][..n] == run[..n];
    } else {
      assert run[..n] == run;
    }
  }

  /** The step records the failure of a request. */
  predicate RecordsFailure(s: State, e: Step)
  {
    e.Record? && e.thread < |s.threads| && s.threads[e.thread].Done? && s.threads[e.thread].result.Failed?
  }

  /** Nothing that was accepted before a failure was recorded, and had not started by then,
      ever starts afterwards. */
  lemma NothingRunsAfterAFailure(run: seq<Step>, f: nat, maxPending: nat, x: RequestId)
    requires Valid(run, maxPending) && f < |run|
    requires Valid(run[..f], maxPending) && RecordsFailure(After(run[..f], maxPending), run[f])
    requires x in Book(run[..f], maxPending).accepted && x !in Book(run[..f], maxPending).started
    ensures x !in Book(run, maxPending).started && x in Book(run, maxPending).dropped
  {
    BookIsBalanced(run[..f], maxPending);
    assert run[..f + 1][..f] == run[..f];
    DropsAreKept(run, f + 1, maxPending, x);
    assert x in Book(run[..f + 1], maxPending).dropped;
    BookIsBalanced(run, maxPending);
  }

  // ---------- What a commit proves ----------

  /** One more than the index of the last mark, the last reservation and the last request
      taken; 0 if there was none. */
  datatype Times = Times(now: nat, marked: nat, reserved: nat, taken: nat)

  function History(run: seq<Step>, maxPending: nat): Times
    requires Valid(run, maxPending)
  {
    if run == [] then Times(0, 0, 0, 0)
    else
      var before := run[..|run| - 1];
      Tick(History(before, maxPending), After(before, maxPending), run[|run| - 1])
  }

  function Tick(t: Times, s: State, e: Step): Times
  {
    Times(t.now + 1,
          if e.Mark? then t.now + 1 else t.marked,
          if e.Reserve? then t.now + 1 else t.reserved,
          if e.Take? && s.pending != [] then t.now + 1 else t.taken)
  }

  /** The remembered mark is the last one of the run; a target that matches it was marked
      after it was reserved. */
  predicate MarksAreFresh(run: seq<Step>, t: Times, s: State)
  {
    && t.now == |run| && t.marked <= |run| && t.reserved <= |run| && t.taken <= |run|
    && (s.lastMark != 0 ==> s.known && t.marked > 0 && run[t.marked - 1] == Mark(s.lastMark, s.lastMarkSuccess))
    && (s.threads != [] || t.reserved > 0 ==> s.known)
    && (t.marked > t.reserved > 0 ==> s.lastMark != 0)
    && (0 <= s.registered < |s.threads| ==> PhaseIsFresh(run, t, s, s.registered))
  }

  predicate PhaseIsFresh(run: seq<Step>, t: Times, s: State, thread: nat)
    requires thread < |s.threads| && t.marked <= |run| && t.reserved <= |run| && t.taken <= |run|
  {
    match s.threads[thread]
    case Running(_) => t.taken > 0
    case Reserved(_, target) => IsReservation(run, t, thread, target)
      && (s.lastMark == target ==> t.marked > t.reserved)
    case AwaitingMark(_, target) => IsReservation(run, t, thread, target)
      && (s.lastMark == target ==> t.marked > t.reserved)
    case Done(_, Committed(target)) => IsReservation(run, t, thread, target) && MarkedAfter(run, t.reserved, target)
    case _ => true
  }

  predicate IsReservation(run: seq<Step>, t: Times, thread: nat, target: QueueId)
    requires t.reserved <= |run|
  {
    && target > 0 && 0 < t.taken < t.reserved
    && run[t.reserved - 1] == Reserve(thread, target)
  }

  /** A successful mark of the target arrived after step `n`. */
  predicate MarkedAfter(run: seq<Step>, n: nat, target: QueueId)
  {
    exists i :: n <= i < |run| && run[i] == Mark(target, true)
  }

  lemma LongerRun(run: seq<Step>, e: Step, t: Times, thread: nat, target: QueueId)
    requires t.reserved <= |run| && t.taken <= |run|
    ensures IsReservation(run, t, thread, target) ==> IsReservation(run + [e], t, thread, target)
    ensures MarkedAfter(run, t.reserved, target) ==> MarkedAfter(run + [e], t.reserved, target)
  {
    if MarkedAfter(run, t.reserved, target) {
      var i :| t.reserved <= i < |run| && run[i] == Mark(target, true);
      assert (run + [e])[i] == Mark(target, true);
    }
  }

  lemma StepKeepsMarks(run: seq<Step>, t: Times, s: State, e: Step, maxPending: nat)
    requires Serial(s, maxPending) && Enabled(s, e) && MarksAreFresh(run, t, s)
    ensures MarksAreFresh(run + [e], Tick(t, s, e), Apply(s, e, maxPending))
  {
    forall thread: nat, target: int
      ensures IsReservation(run, t, thread, target) ==> IsReservation(run + [e], t, thread, target)
      ensures MarkedAfter(run, t.reserved, target) ==> MarkedAfter(run + [e], t.reserved, target)
    {
      LongerRun(run, e, t, thread, target);
    }
    if e.Observe? && s.lastMarkSuccess {
      var target := s.threads[e.thread].target;
      assert (run + [e])[t.marked - 1] == Mark(target, true);
    }
  }

  lemma {:induction false} MarksStayFresh(run: seq<Step>, maxPending: nat)
    requires Valid(run, maxPending)
    ensures MarksAreFresh(run, History(run, maxPending), After(run, maxPending))
  {
    if run != [] {
      var before := run[..|run| - 1];
      MarksStayFresh(before, maxPending);
      AtMostOneExecutes(before, maxPending);
      assert before + [run[|run| - 1]] == run;
      StepKeepsMarks(before, History(before, maxPending), After(before, maxPending), run[|run| - 1], maxPending);
    }
  }

  /** A request that ends as committed made its own reservation after it was taken, for the
      target it reports, and a successful mark of exactly that target arrived after the reservation. */
  lemma CommitWasMarkedAfterReservation(run: seq<Step>, maxPending: nat, thread: nat) returns (reserve: nat, mark: nat)
    requires Valid(run, maxPending) && thread < |After(run, maxPending).threads|
    requires After(run, maxPending).threads[thread].Done?
    requires After(run, maxPending).threads[thread].result.Committed?
    ensures History(run, maxPending).taken <= reserve < mark < |run|
    ensures var target := After(run, maxPending).threads[thread].result.target;
            run[reserve] == Reserve(thread, target) && run[mark] == Mark(target, true)
  {
    MarksStayFresh(run, maxPending);
    AtMostOneExecutes(run, maxPending);
    var t, target := History(run, maxPending), After(run, maxPending).threads[thread].result.target;
    reserve := t.reserved - 1;
    mark :| t.reserved <= mark < |run| && run[mark] == Mark(target, true);
  }

  /** The mark that the wait looks for: the last one to arrive, later than the reservation,
      a successful one of the target. */
  predicate FreshSuccess(run: seq<Step>, t: Times, target: QueueId)
  {
    t.reserved < t.marked <= |run| && run[t.marked - 1] == Mark(target, true)
  }

  /** The wait succeeds exactly on such a mark. */
  lemma WaitSucceedsExactlyWhen(run: seq<Step>, maxPending: nat, thread: nat)
    requires Valid(run, maxPending) && thread < |After(run, maxPending).threads|
    requires After(run, maxPending).threads[thread].AwaitingMark?
    ensures var s := After(run, maxPending);
            Enabled(s, Observe(thread)) && ObserveStep(s, thread).threads[thread].result.Committed?
            <==> FreshSuccess(run, History(run, maxPending), s.threads[thread].target)
  {
    MarksStayFresh(run, maxPending);
    AtMostOneExecutes(run, maxPending);
    WaitStep(run, History(run, maxPending), After(run, maxPending), maxPending, thread);
  }

  lemma WaitStep(run: seq<Step>, t: Times, s: State, maxPending: nat, thread: nat)
    requires Serial(s, maxPending) && MarksAreFresh(run, t, s)
    requires thread < |s.threads| && s.threads[thread].AwaitingMark?
    ensures Enabled(s, Observe(thread)) && ObserveStep(s, thread).threads[thread].result.Committed?
            <==> FreshSuccess(run, t, s.threads[thread].target)
  {
  }

  // ---------- The critical sections ----------

  /** The station record and its workers, changed in place under the orchestrator's lock. */
  class Station {
    const maxPending: nat
    var known: bool
    var pending: seq<RequestId>
    var processing: bool
    var requestSeq: nat
    var activeRequest: RequestId
    var activeTarget: QueueId
    var lastMark: QueueId
    var lastMarkSuccess: bool
    var threads: seq<Phase>
    var registered: int

    ghost function View(): State
      reads this
    {
      State(known, pending, processing, requestSeq, activeRequest, activeTarget, lastMark, lastMarkSuccess,
            threads, registered)
    }

    constructor (maxPending: int)
      ensures View() == INITIAL && this.maxPending == if maxPending < 1 then 1 else maxPending
    {
      this.maxPending := if maxPending < 1 then 1 else maxPending;
      known, pending, processing, requestSeq, activeRequest, activeTarget := false, [], false, 0, 0, 0;
      lastMark, lastMarkSuccess, threads, registered := 0, false, [], -1;
    }

    method Enqueue() returns (accepted: bool, request: RequestId, position: nat)
      modifies this
      ensures View() == EnqueueStep(old(View()), maxPending)
      ensures accepted == Accepts(old(View()), maxPending) && request == old(requestSeq) + 1
      ensures accepted ==> request in pending && position == Outstanding(View())
    {
      known := true;
      requestSeq := requestSeq + 1;
      request, position := requestSeq, 0;
      var outstanding := |pending| + if processing then 1 else 0;
      accepted := outstanding < maxPending;
      if accepted {
        pending := pending + [request];
        position := |pending| + if processing then 1 else 0;
        if !(0 <= registered < |threads|) || threads[registered].Exited? {
          registered := |threads|;
          threads := threads + [Top];
        }
      }
    }

    method MarkLifecycle(queueId: QueueId, success: bool)
      requires queueId > 0
      modifies this
      ensures View() == MarkStep(old(View()), queueId, success)
    {
      if known {
        lastMark := queueId;
        lastMarkSuccess := success;
      }
    }

    method TakeNext(t: nat)
      requires Enabled(View(), Take(t))
      modifies this
      ensures View() == TakeStep(old(View()), t)
    {
      activeTarget := 0;
      if |pending| == 0 {
        processing := false;
        activeRequest := 0;
        registered := -1;
        threads := threads[t := Exited];
      } else {
        threads := threads[t := Running(pending[0])];
        activeRequest := pending[0];
        pending := pending[1..];
        processing := true;
      }
    }

    method ReserveTarget(t: nat, target: QueueId)
      requires Enabled(View(), Reserve(t, target))
      modifies this
      ensures View() == ReserveStep(old(View()), t, target)
    {
      activeTarget := target;
      if lastMark == target {
        lastMark := 0;
        lastMarkSuccess := false;
      }
      threads := threads[t := Reserved(threads[t].request, target)];
    }

    /** One turn of the wait loop: the answer if the mark is there. */
    method PollMark(t: nat) returns (settled: bool)
      requires t < |threads| && threads[t].AwaitingMark?
      modifies this
      ensures settled == Enabled(old(View()), Observe(t))
      ensures View() == if settled then ObserveStep(old(View()), t) else old(View())
    {
      settled := lastMark == threads[t].target;
      if settled {
        threads := threads[t := Done(threads[t].request,
                                     if lastMarkSuccess then Committed(threads[t].target) else Failed)];
      }
    }

    method RecordResult(t: nat) returns (dropped: nat)
      requires Enabled(View(), Record(t))
      modifies this
      ensures View() == RecordStep(old(View()), t)
      ensures dropped == |old(pending)| - |pending|
    {
      dropped := 0;
      activeRequest := 0;
      activeTarget := 0;
      if threads[t].result.Failed? {
        dropped := |pending|;
        pending := [];
      }
      threads := threads[t := Top];
    }
  }
}

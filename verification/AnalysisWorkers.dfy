/**
 The two background analysis workers, one per deck (wb_audio_analysis_schedule,
 analysis_worker_main and wb_audio_analysis_destroy in
 native_engine/src/audio_analysis.c).

 A run is a list of atomic steps in any interleaving: scheduling, other code changing a
 deck, shutdown, and the critical sections of the workers.  `After` is the state a run
 leads to; the theorems are about every valid run.
 */
module AnalysisWorkers {

  datatype Deck = DeckA | DeckB

  /** What identifies a track: an empty token (0) falls back to the queue id. */
  datatype Track = Track(loaded: bool, token: nat, queueId: int)

  datatype Analysis = Pending | Ready | Rejected

  /** A deck as the engine shows it. */
  datatype Live = Live(track: Track, analysis: Analysis)

  datatype Outcome = Success | Failure | Cancelled

  datatype Phase =
    | Waiting
    | Decoding(generation: nat, track: Track)
    | Decoded(generation: nat, track: Track, outcome: Outcome)
    | Checked(generation: nat, track: Track, outcome: Outcome, prepared: bool)

  datatype Worker = Worker(shutdown: bool, requestPending: bool, generation: nat, track: Track, phase: Phase)

  /** One value per deck. */
  datatype Both<T> = Both(a: T, b: T)
  {
    function At(d: Deck): T { if d.DeckA? then a else b }

    function Put(d: Deck, value: T): Both<T> { if d.DeckA? then Both(value, b) else Both(a, value) }
  }

  datatype State = State(
    workers: Both<Worker>, live: Both<Live>,
    started: nat, ready: nat, failed: nat, superseded: nat)

  datatype Step =
    | Schedule(deck: Deck, track: Track)
    | SetDeck(deck: Deck, content: Live)
    | PickUp(deck: Deck)
    | CancelDecode(deck: Deck)
    | FinishDecode(deck: Deck, ok: bool)
    | CheckCurrent(deck: Deck)
    | Prepare(deck: Deck)
    | Commit(deck: Deck)
    | Destroy

  const NO_TRACK := Track(false, 0, 0)
  const IDLE := Worker(false, false, 0, NO_TRACK, Waiting)
  const INITIAL := State(
    Both(IDLE, IDLE), Both(Live(NO_TRACK, Pending), Live(NO_TRACK, Pending)), 0, 0, 0, 0)

  predicate IdentityMatches(left: Track, right: Track)
  {
    left.loaded && right.loaded &&
    if right.token != 0 then left.token == right.token
    else right.queueId > 0 && left.queueId == right.queueId
  }

  /** The work in progress still is what the deck wants. */
  predicate Current(s: State, d: Deck)
    requires !s.workers.At(d).phase.Waiting?
  {
    var w := s.workers.At(d);
    !w.shutdown && w.generation == w.phase.generation && IdentityMatches(s.live.At(d).track, w.phase.track)
  }

  predicate Enabled(s: State, e: Step)
  {
    match e
    case Schedule(_, _) => true
    case SetDeck(_, _) => true
    case Destroy => true
    case PickUp(d) => var w := s.workers.At(d); w.phase.Waiting? && !w.shutdown && w.requestPending
    case CancelDecode(d) =>
      var w := s.workers.At(d); w.phase.Decoding? && (w.shutdown || w.generation != w.phase.generation)
    case FinishDecode(d, _) => s.workers.At(d).phase.Decoding?
    case CheckCurrent(d) => s.workers.At(d).phase.Decoded?
    case Prepare(d) =>
      var p := s.workers.At(d).phase; p.Checked? && !p.prepared && !p.outcome.Failure?
    case Commit(d) =>
      var p := s.workers.At(d).phase; p.Checked? && (p.prepared || p.outcome.Failure?)
  }

  function SetPhase(s: State, d: Deck, phase: Phase): State
  {
    s.(workers := s.workers.Put(d, s.workers.At(d).(phase := phase)))
  }

  function Shut(w: Worker): Worker
  {
    w.(shutdown := true, generation := w.generation + 1)
  }

  /** The result is thrown away. */
  function Supersede(s: State, d: Deck): State
  {
    SetPhase(s, d, Waiting).(superseded := s.superseded + 1)
  }

  function Publish(s: State, d: Deck): State
    requires s.workers.At(d).phase.Checked?
  {
    var p := s.workers.At(d).phase;
    var bad := p.outcome.Failure?;
    SetPhase(s, d, Waiting).(
      live := s.live.Put(d, Live(p.track, if bad then Rejected else Ready)),
      failed := s.failed + if bad then 1 else 0,
      ready := s.ready + if bad then 0 else 1)
  }

  function Apply(s: State, e: Step): State
    requires Enabled(s, e)
  {
    match e
    case Schedule(d, track) =>
      var w := s.workers.At(d);
      s.(workers := s.workers.Put(d, w.(generation := w.generation + 1, track := track, requestPending := true)))
    case SetDeck(d, content) => s.(live := s.live.Put(d, content))
    case PickUp(d) =>
      var w := s.workers.At(d);
      s.(workers := s.workers.Put(d, w.(requestPending := false, phase := Decoding(w.generation, w.track))),
         started := s.started + 1)
    case CancelDecode(d) =>
      var p := s.workers.At(d).phase; SetPhase(s, d, Decoded(p.generation, p.track, Cancelled))
    case FinishDecode(d, ok) =>
      var p := s.workers.At(d).phase;
      SetPhase(s, d, Decoded(p.generation, p.track, if ok then Success else Failure))
    case CheckCurrent(d) =>
      var p := s.workers.At(d).phase;
      if Current(s, d) then SetPhase(s, d, Checked(p.generation, p.track, p.outcome, false)) else Supersede(s, d)
    case Prepare(d) => SetPhase(s, d, s.workers.At(d).phase.(prepared := true))
    case Commit(d) => if Current(s, d) then Publish(s, d) else Supersede(s, d)
    case Destroy =>
      s.(workers := Both(Shut(s.workers.a), Shut(s.workers.b)))
  }

  predicate Valid(run: seq<Step>)
    decreases |run|, 0
  {
    run == [] || (Valid(run[..|run| - 1]) && Enabled(After(run[..|run| - 1]), run[|run| - 1]))
  }

  function After(run: seq<Step>): State
    requires Valid(run)
    decreases |run|, 1
  {
    if run == [] then INITIAL else Apply(After(run[..|run| - 1]), run[|run| - 1])
  }

  // ---------- When things last happened ----------

  predicate Outdates(e: Step, d: Deck)
  {
    e == Destroy || (e.Schedule? && e.deck == d)
  }

  /** For one deck: how many steps the run has, and one more than the index of the last
      pick-up, of the last step that outdates a pick-up (a schedule or the shutdown), of the
      last prepare and of the last cancelled decode; 0 if there was none. */
  datatype Times = Times(now: nat, pickedUp: nat, outdated: nat, prepared: nat, cancelled: nat)

  function Tick(t: Times, e: Step, d: Deck): Times
  {
    Times(t.now + 1,
          if e == PickUp(d) then t.now + 1 else t.pickedUp,
          if Outdates(e, d) then t.now + 1 else t.outdated,
          if e == Prepare(d) then t.now + 1 else t.prepared,
          if e == CancelDecode(d) then t.now + 1 else t.cancelled)
  }

  function History(run: seq<Step>, d: Deck): Times
  {
    if run == [] then Times(0, 0, 0, 0, 0) else Tick(History(run[..|run| - 1], d), run[|run| - 1], d)
  }

  /** `t` names the last step of `run` that satisfies `p`. */
  predicate IsLast(run: seq<Step>, n: nat, p: Step -> bool)
  {
    n <= |run| && (n > 0 ==> p(run[n - 1])) && forall i :: n <= i < |run| ==> !p(run[i])
  }

  predicate HistoryIs(run: seq<Step>, t: Times, d: Deck)
  {
    && t.now == |run|
    && IsLast(run, t.pickedUp, (e: Step) => e == PickUp(d))
    && IsLast(run, t.outdated, (e: Step) => Outdates(e, d))
    && IsLast(run, t.prepared, (e: Step) => e == Prepare(d))
    && IsLast(run, t.cancelled, (e: Step) => e == CancelDecode(d))
  }

  lemma LastAfterStep(run: seq<Step>, n: nat, p: Step -> bool)
    requires run != [] && IsLast(run[..|run| - 1], n, p)
    ensures IsLast(run, if p(run[|run| - 1]) then |run| else n, p)
  {
  }

  lemma {:induction false} HistoryIsRight(run: seq<Step>, d: Deck)
    ensures HistoryIs(run, History(run, d), d)
  {
    if run != [] {
      var t := History(run[..|run| - 1], d);
      HistoryIsRight(run[..|run| - 1], d);
      LastAfterStep(run, t.pickedUp, (e: Step) => e == PickUp(d));
      LastAfterStep(run, t.outdated, (e: Step) => Outdates(e, d));
      LastAfterStep(run, t.prepared, (e: Step) => e == Prepare(d));
      LastAfterStep(run, t.cancelled, (e: Step) => e == CancelDecode(d));
    }
  }

  /** Nothing was scheduled for the deck, and nothing shut down, since the pick-up. */
  predicate Fresh(t: Times)
  {
    t.outdated < t.pickedUp
  }

  /** The work in progress, told by the history of the run. */
  predicate InFlight(t: Times, w: Worker)
  {
    var p := w.phase;
    && t.pickedUp <= t.now && t.outdated <= t.now && t.cancelled <= t.now && t.prepared <= t.now
    && (t.pickedUp > 0 ==> t.outdated != t.pickedUp)
    && (!p.Waiting? ==>
      && t.pickedUp > 0 && p.generation <= w.generation
      && (!w.shutdown && p.generation == w.generation <==> Fresh(t))
      && (t.cancelled > t.pickedUp ==> !Fresh(t))
      && (p.Checked? && p.prepared ==> t.prepared > t.pickedUp)
      && (!p.Decoding? && p.outcome == Cancelled ==> t.cancelled > t.pickedUp))
  }

  lemma StepKeepsHistory(s: State, t: Times, e: Step, d: Deck)
    requires Enabled(s, e) && InFlight(t, s.workers.At(d))
    ensures InFlight(Tick(t, e, d), Apply(s, e).workers.At(d))
  {
  }

  lemma {:induction false} HistoryTellsPhase(run: seq<Step>, d: Deck)
    requires Valid(run)
    ensures InFlight(History(run, d), After(run).workers.At(d))
  {
    if run != [] {
      HistoryTellsPhase(run[..|run| - 1], d);
      StepKeepsHistory(After(run[..|run| - 1]), History(run[..|run| - 1], d), run[|run| - 1], d);
    }
  }

  // ---------- Theorems ----------

  /** The commit step of a deck writes the deck exactly when nothing was scheduled for it
      (and nothing shut down) since the request was picked up and the deck still holds that
      track; the decode was then not cancelled, and a successful one had been prepared. */
  lemma CommitWritesExactlyWhenFresh(run: seq<Step>, d: Deck)
    requires Valid(run) && Enabled(After(run), Commit(d))
    ensures HistoryIs(run, History(run, d), d)
    ensures var s, t, h := After(run), Apply(After(run), Commit(d)), History(run, d);
            var p := s.workers.At(d).phase;
            && (t.live != s.live ==> Fresh(h) && IdentityMatches(s.live.At(d).track, p.track))
            && (Fresh(h) && IdentityMatches(s.live.At(d).track, p.track) ==>
                  && t.live == s.live.Put(d, Live(p.track, if p.outcome.Failure? then Rejected else Ready))
                  && h.cancelled <= h.pickedUp
                  && (p.outcome == Success || p.outcome == Failure)
                  && (p.outcome == Success ==> h.prepared > h.pickedUp)
                  && t.superseded == s.superseded)
            && (!(Fresh(h) && IdentityMatches(s.live.At(d).track, p.track)) ==>
                  t.superseded == s.superseded + 1 && t.ready == s.ready && t.failed == s.failed)
  {
    HistoryIsRight(run, d);
    HistoryTellsPhase(run, d);
  }

  /** A decode that was cancelled never commits: the check that follows throws it away. */
  lemma CancelledDecodeIsSuperseded(run: seq<Step>, d: Deck)
    requires Valid(run) && Enabled(After(run), CheckCurrent(d))
    requires History(run, d).cancelled > History(run, d).pickedUp
    ensures var t := Apply(After(run), CheckCurrent(d));
            t.workers.At(d).phase == Waiting && t.superseded == After(run).superseded + 1
            && t.live == After(run).live
  {
    HistoryTellsPhase(run, d);
  }

  /** No step of a worker but the commit changes a deck. */
  lemma OnlyCommitPublishes(run: seq<Step>, e: Step)
    requires Valid(run) && Enabled(After(run), e) && !e.SetDeck?
    requires Apply(After(run), e).live != After(run).live
    ensures e.Commit? && forall d :: d != e.deck ==> Apply(After(run), e).live.At(d) == After(run).live.At(d)
  {
  }

  function Busy(w: Worker): nat { if w.phase.Waiting? then 0 else 1 }

  /** Every analysis that was started is ready, rejected, superseded or in progress. */
  lemma {:induction false} EveryStartIsAccountedFor(run: seq<Step>)
    requires Valid(run)
    ensures var s := After(run);
            s.started == s.ready + s.failed + s.superseded + Busy(s.workers.a) + Busy(s.workers.b)
  {
    if run != [] {
      EveryStartIsAccountedFor(run[..|run| - 1]);
      StepKeepsAccount(After(run[..|run| - 1]), run[|run| - 1]);
    }
  }

  lemma StepKeepsAccount(s: State, e: Step)
    requires Enabled(s, e)
    requires s.started == s.ready + s.failed + s.superseded + Busy(s.workers.a) + Busy(s.workers.b)
    ensures var t := Apply(s, e);
            t.started == t.ready + t.failed + t.superseded + Busy(t.workers.a) + Busy(t.workers.b)
  {
  }

  /** What is picked up is the track scheduled last, and it is picked up at most once per
      schedule: after a pick-up nothing is pending until the next schedule. */
  lemma {:induction false} PickUpTakesTheLastSchedule(run: seq<Step>, d: Deck)
    requires Valid(run)
    ensures var w, h := After(run).workers.At(d), History(run, d);
            && (w.requestPending ==> LastScheduled(run, d).Schedule? && w.track == LastScheduled(run, d).track)
            && (!w.phase.Waiting? && Fresh(h) ==>
                  !w.requestPending && LastScheduled(run, d).Schedule? && w.phase.track == LastScheduled(run, d).track)
  {
    if run != [] {
      var before := run[..|run| - 1];
      PickUpTakesTheLastSchedule(before, d);
      HistoryTellsPhase(before, d);
      HistoryTellsPhase(run, d);
    }
  }

  function LastScheduled(run: seq<Step>, d: Deck): Step
  {
    if run == [] then Destroy
    else if run[|run| - 1].Schedule? && run[|run| - 1].deck == d then run[|run| - 1]
    else LastScheduled(run[..|run| - 1], d)
  }
}

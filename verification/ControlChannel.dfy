/**
 Requests over the control socket (audio_engine/native_engine.py): threads send requests
 and wait, a reader thread for each connection hands out the replies, and any of them may
 drop the connection and fail whoever is still waiting.

 Every event is one section run under a lock, or one write to a waiting request; they
 interleave in any way.  What arrives from the daemon is arbitrary.
 */
module ControlChannel {

  type RequestId = nat

  /** Connections are numbered as they are opened. */
  type Generation = nat

  datatype Option<T> = None | Some(value: T)

  /** What a waiting request is given: a reply, with the event that received it, or an error. */
  datatype Outcome = Reply(event: nat, body: string) | Failed(event: nat)

  /** Where a request is, and the connection it has been given: it may find none or fail to
      send (`Broken`), withdraw and look whether there is a connection (`NotSent`), or wait in
      vain; then it is to drop the connection (`Dropping`). */
  datatype Phase =
    | Sending
    | Using(via: Generation)
    | Waiting(via: Generation)
    | Returned(outcome: Outcome)
    | Broken(from: Option<Generation>)
    | NotSent(from: Option<Generation>)
    | Dropping(from: Option<Generation>)
    | GaveUp

  /** `pending` are the registered requests; `owed` were taken out of it by a thread that has
      not yet told them; `told` have their outcome. `failing` counts the disconnections that
      have still to fail the pending requests; `closeDue` is that of the close still to come. */
  datatype State = State(
    closing: bool, closeDue: bool, socket: Option<Generation>, generation: Generation, failing: nat,
    nextId: RequestId, phase: map<RequestId, Phase>,
    pending: set<RequestId>, owed: map<RequestId, Outcome>, told: map<RequestId, Outcome>)

  datatype Event =
    | Register
    | Connect(id: RequestId, opens: bool)
    | Send(id: RequestId, sent: bool)
    | Withdraw(id: RequestId)
    | Look(id: RequestId)
    | Receive(generation: Generation, replyTo: Option<RequestId>, body: string)
    | Tell(id: RequestId)
    | Return(id: RequestId)
    | TimeOut(id: RequestId)
    | Drop(id: RequestId)
    | ReaderEnds(generation: Generation, withError: bool)
    | FailAll
    | Close
    | DropAtClose

  function Start(): State
  {
    State(false, false, None, 0, 0, 1, map[], {}, map[], map[])
  }

  // ---------- The sections under a lock ----------

  /** _connect: the socket in use, or a new connection of the next generation. */
  function Connected(s: State, opens: bool): (r: State)
    ensures r.phase == s.phase && r.pending == s.pending && r.owed == s.owed && r.told == s.told
  {
    if s.closing || s.socket.Some? || !opens then s
    else s.(socket := Some(s.generation + 1), generation := s.generation + 1)
  }

  /** Whether _connect gives a socket. */
  predicate Connects(s: State, opens: bool)
  {
    !s.closing && Connected(s, opens).socket.Some?
  }

  /** _disconnect, of a reader with its generation, or by a request or the close without. */
  function Disconnected(s: State, dropper: Option<Generation>, withError: bool): (r: State)
    ensures r.phase == s.phase && r.pending == s.pending && r.owed == s.owed && r.told == s.told
  {
    if dropper.Some? && dropper.value != s.generation then s
    else s.(socket := None, failing := if withError then s.failing + 1 else s.failing)
  }

  function Tagged(ids: set<RequestId>, outcome: Outcome): map<RequestId, Outcome>
  {
    map id | id in ids :: outcome
  }

  predicate Enabled(s: State, e: Event)
  {
    match e
    case Connect(id, opens) => id in s.phase && s.phase[id].Sending?
    case Send(id, sent) => id in s.phase && s.phase[id].Using?
    case Withdraw(id) => id in s.phase && s.phase[id].Broken?
    case Look(id) => id in s.phase && s.phase[id].NotSent?
    case Receive(g, replyTo, body) => g <= s.generation
    case Tell(id) => id in s.owed
    case Return(id) => id in s.phase && s.phase[id].Waiting? && id in s.told
    case TimeOut(id) => id in s.phase && s.phase[id].Waiting?
    case Drop(id) => id in s.phase && s.phase[id].Dropping?
    case ReaderEnds(g, withError) => g <= s.generation
    case FailAll => s.failing > 0
    case DropAtClose => s.closeDue
    case _ => true
  }

  /** Event number `n` of the run. */
  function Apply(s: State, e: Event, n: nat): State
    requires Enabled(s, e)
  {
    match e
    case Register =>
      s.(nextId := s.nextId + 1, phase := s.phase[s.nextId := Sending], pending := s.pending + {s.nextId})
    case Connect(id, opens) =>
      var c := Connected(s, opens);
      c.(phase := c.phase[id := if Connects(s, opens) then Using(c.socket.value) else Broken(None)])
    case Send(id, sent) =>
      var via := s.phase[id].via;
      s.(phase := s.phase[id := if sent then Waiting(via) else Broken(Some(via))])
    case Withdraw(id) => s.(phase := s.phase[id := NotSent(s.phase[id].from)], pending := s.pending - {id})
    case Look(id) => s.(phase := s.phase[id := if s.socket.Some? then Dropping(s.phase[id].from) else GaveUp])
    case Receive(g, replyTo, body) =>
      if replyTo.Some? && replyTo.value in s.pending then
        s.(pending := s.pending - {replyTo.value}, owed := s.owed[replyTo.value := Reply(n, body)])
      else s
    case Tell(id) => s.(owed := s.owed - {id}, told := s.told[id := s.owed[id]])
    case Return(id) => s.(phase := s.phase[id := Returned(s.told[id])])
    case TimeOut(id) => s.(phase := s.phase[id := Dropping(Some(s.phase[id].via))], pending := s.pending - {id})
    case Drop(id) =>
      var d := Disconnected(s, None, true);
      d.(phase := d.phase[id := GaveUp])
    case ReaderEnds(g, withError) => Disconnected(s, Some(g), withError)
    case FailAll => s.(failing := s.failing - 1, pending := {}, owed := s.owed + Tagged(s.pending, Failed(n)))
    case Close => if s.closing then s else s.(closing := true, closeDue := true)
    case DropAtClose => Disconnected(s, None, true).(closeDue := false)
  }

  predicate Run(states: seq<State>, events: seq<Event>)
  {
    && |states| == |events| + 1 && states[0] == Start()
    && forall i :: 0 <= i < |events| ==> NextAt(states, events, i)
  }

  predicate NextAt(states: seq<State>, events: seq<Event>, i: nat)
    requires i < |events| && i + 1 < |states|
  {
    Enabled(states[i], events[i]) && states[i + 1] == Apply(states[i], events[i], i)
  }

  // ---------- The invariant ----------

  /** A request is in one place: pending, owed, or told. */
  predicate InOnePlace(s: State, id: RequestId)
  {
    && !(id in s.pending && id in s.owed) && !(id in s.pending && id in s.told) && !(id in s.owed && id in s.told)
    && (id in s.pending || id in s.owed || id in s.told ==> id in s.phase)
  }

  /** The request has neither returned nor withdrawn. */
  predicate Active(p: Phase) { p.Sending? || p.Using? || p.Waiting? || p.Broken? }

  /** The connection a request has been given, while it matters. */
  function Via(p: Phase): Option<Generation>
  {
    match p
    case Using(g) => Some(g)
    case Waiting(g) => Some(g)
    case Broken(from) => from
    case NotSent(from) => from
    case Dropping(from) => from
    case _ => None
  }

  /** Whoever is active is in one of the places; whoever gave up is not pending. */
  predicate PhaseSound(s: State, id: RequestId)
  {
    id in s.phase ==>
      && id < s.nextId
      && (Active(s.phase[id]) ==> id in s.pending || id in s.owed || id in s.told)
      && (id in s.pending ==> Active(s.phase[id]))
      && (s.phase[id].Returned? ==> id in s.told && s.told[id] == s.phase[id].outcome)
  }

  ghost predicate Sound(s: State)
  {
    && s.nextId > 0 && (forall id :: InOnePlace(s, id)) && (forall id :: PhaseSound(s, id))
    && (s.socket.Some? ==> s.socket.value == s.generation)
  }

  lemma StepKeepsSound(s: State, e: Event, n: nat)
    requires Sound(s) && Enabled(s, e)
    ensures Sound(Apply(s, e, n))
  {
    var after := Apply(s, e, n);
    forall id ensures InOnePlace(after, id) && PhaseSound(after, id) {
      assert InOnePlace(s, id) && PhaseSound(s, id);
    }
  }

  lemma {:induction false} RunIsSound(states: seq<State>, events: seq<Event>, n: nat)
    requires Run(states, events) && n <= |events|
    ensures Sound(states[n])
  {
    if n > 0 {
      RunIsSound(states, events, n - 1);
      assert NextAt(states, events, n - 1);
      StepKeepsSound(states[n - 1], events[n - 1], n - 1);
    }
  }

  // ---------- Replies ----------

  /** Where an outcome comes from: the reply, addressed to this request, that was received
      while it was pending; or a failure of all who were pending. */
  predicate Traced(states: seq<State>, events: seq<Event>, id: RequestId, o: Outcome)
  {
    && o.event < |events| < |states| && id in states[o.event].pending
    && match o
       case Reply(k, body) => events[k].Receive? && events[k].replyTo == Some(id) && events[k].body == body
       case Failed(k) => events[k].FailAll?
  }

  predicate AllTraced(states: seq<State>, events: seq<Event>, s: State)
  {
    && (forall id :: id in s.owed ==> Traced(states, events, id, s.owed[id]))
    && (forall id :: id in s.told ==> Traced(states, events, id, s.told[id]))
  }

  lemma {:induction false} OutcomesAreTraced(states: seq<State>, events: seq<Event>, n: nat)
    requires Run(states, events) && n <= |events|
    ensures AllTraced(states, events, states[n])
  {
    if n > 0 {
      OutcomesAreTraced(states, events, n - 1);
      assert NextAt(states, events, n - 1);
      StepKeepsTraced(states, events, states[n - 1], n - 1);
    }
  }

  lemma StepKeepsTraced(states: seq<State>, events: seq<Event>, s: State, n: nat)
    requires n < |events| < |states| && s == states[n] && Enabled(s, events[n]) && AllTraced(states, events, s)
    ensures AllTraced(states, events, Apply(s, events[n], n))
  {
    var after := Apply(s, events[n], n);
    forall id | id in after.owed ensures Traced(states, events, id, after.owed[id]) { OwedAfter(s, events[n], n, id); }
    forall id | id in after.told ensures Traced(states, events, id, after.told[id]) { ToldAfter(s, events[n], n, id); }
  }

  lemma OwedAfter(s: State, e: Event, n: nat, id: RequestId)
    requires Enabled(s, e) && id in Apply(s, e, n).owed
    ensures var o := Apply(s, e, n).owed[id];
            || (id in s.owed && s.owed[id] == o)
            || (id in s.pending && e.Receive? && e.replyTo == Some(id) && o == Reply(n, e.body))
            || (id in s.pending && e.FailAll? && o == Failed(n))
  {
  }

  lemma ToldAfter(s: State, e: Event, n: nat, id: RequestId)
    requires Enabled(s, e) && id in Apply(s, e, n).told
    ensures var o := Apply(s, e, n).told[id];
            (id in s.told && s.told[id] == o) || (id in s.owed && s.owed[id] == o)
  {
  }

  /** A request that returns has the reply with its own id, received while it was pending. */
  lemma ReturnsItsOwnReply(states: seq<State>, events: seq<Event>, n: nat, id: RequestId, o: Outcome)
    requires Run(states, events) && n <= |events| && id in states[n].phase && states[n].phase[id] == Returned(o)
    ensures Traced(states, events, id, o)
  {
    RunIsSound(states, events, n);
    assert PhaseSound(states[n], id);
    OutcomesAreTraced(states, events, n);
  }

  /** No reply reaches two requests. */
  lemma NoReplyReachesTwo(states: seq<State>, events: seq<Event>, n: nat, a: RequestId, b: RequestId)
    requires Run(states, events) && n <= |events| && a in states[n].told && b in states[n].told
    requires states[n].told[a].Reply? && states[n].told[b].Reply? && states[n].told[a].event == states[n].told[b].event
    ensures a == b
  {
    OutcomesAreTraced(states, events, n);
    assert Traced(states, events, a, states[n].told[a]) && Traced(states, events, b, states[n].told[b]);
  }

  /** What a request was told never changes. */
  lemma {:induction false} ToldForGood(states: seq<State>, events: seq<Event>, i: nat, j: nat, id: RequestId)
    requires Run(states, events) && i <= j <= |events| && id in states[i].told
    ensures id in states[j].told && states[j].told[id] == states[i].told[id]
  {
    if i < j {
      ToldForGood(states, events, i, j - 1, id);
      RunIsSound(states, events, j - 1);
      assert NextAt(states, events, j - 1);
      StepKeepsTold(states[j - 1], events[j - 1], j - 1, id);
    }
  }

  lemma StepKeepsTold(s: State, e: Event, n: nat, id: RequestId)
    requires Sound(s) && Enabled(s, e) && id in s.told
    ensures id in Apply(s, e, n).told && Apply(s, e, n).told[id] == s.told[id]
  {
    assert InOnePlace(s, id);
  }

  /** Each request is told at most once. */
  lemma ToldOnce(states: seq<State>, events: seq<Event>, i: nat, j: nat, id: RequestId)
    requires Run(states, events) && i <= j < |events| && events[i] == Tell(id) && events[j] == Tell(id)
    ensures i == j
  {
    TellNeedsUntold(states, events, j, id);
    if i < j {
      assert NextAt(states, events, i);
      ToldForGood(states, events, i + 1, j, id);
    }
  }

  lemma TellNeedsUntold(states: seq<State>, events: seq<Event>, n: nat, id: RequestId)
    requires Run(states, events) && n < |events| && events[n] == Tell(id)
    ensures id !in states[n].told
  {
    RunIsSound(states, events, n);
    assert NextAt(states, events, n);
    assert InOnePlace(states[n], id);
  }

  /** A second reply with the same id, or one to a request that gave up, changes nothing. */
  lemma LateRepliesAreDropped(states: seq<State>, events: seq<Event>, n: nat, id: RequestId)
    requires Run(states, events) && n < |events| && events[n].Receive? && events[n].replyTo == Some(id)
    requires id in states[n].owed || id in states[n].told
             || (id in states[n].phase && !Active(states[n].phase[id]))
    ensures states[n + 1] == states[n]
  {
    RunIsSound(states, events, n);
    assert NextAt(states, events, n);
    assert InOnePlace(states[n], id) && PhaseSound(states[n], id);
  }

  /** Nothing stays registered for a request that is over. */
  lemma NothingLeftPending(states: seq<State>, events: seq<Event>, n: nat, id: RequestId)
    requires Run(states, events) && n <= |events| && id in states[n].pending
    ensures id in states[n].phase && Active(states[n].phase[id])
  {
    RunIsSound(states, events, n);
    assert InOnePlace(states[n], id) && PhaseSound(states[n], id);
  }

  // ---------- Connections ----------

  /** A connection is lost exactly by its own reader, by a request that failed, or by the close;
      a reader of an older one does not touch it, nor fail anyone. */
  lemma ConnectionIsLostExactlyWhen(states: seq<State>, events: seq<Event>, n: nat)
    requires Run(states, events) && n < |events| && states[n].socket.Some?
    ensures states[n + 1].socket != states[n].socket <==>
            || events[n].Drop? || events[n].DropAtClose?
            || (events[n].ReaderEnds? && events[n].generation == states[n].socket.value)
    ensures events[n].ReaderEnds? && events[n].generation != states[n].socket.value ==> states[n + 1] == states[n]
  {
    RunIsSound(states, events, n);
    assert NextAt(states, events, n);
  }

  /** Generations only grow, and no two connections share one. */
  lemma {:induction false} ConnectionsAreNeverReused(states: seq<State>, events: seq<Event>, i: nat, j: nat)
    requires Run(states, events) && i <= j <= |events|
    ensures states[i].generation <= states[j].generation
    ensures states[i].socket.None? && states[j].socket.Some? ==> states[j].socket.value > states[i].generation
  {
    if i < j {
      ConnectionsAreNeverReused(states, events, i, j - 1);
      RunIsSound(states, events, j - 1);
      assert NextAt(states, events, j - 1);
      SocketAfter(states[j - 1], events[j - 1], j - 1, states[j]);
    }
  }

  /** How a step may change the socket: close it, or open the next one. */
  lemma SocketAfter(s: State, e: Event, n: nat, after: State)
    requires Sound(s) && Enabled(s, e) && after == Apply(s, e, n)
    ensures after.socket == s.socket || after.socket.None?
            || (s.socket.None? && after.socket == Some(s.generation + 1) && after.generation == s.generation + 1)
    ensures after.generation == s.generation || (s.socket.None? && after.socket.Some?)
  {
  }

  // ---------- Who is failed ----------

  /** A disconnection with an error that takes effect: it owes a failure of all who are pending. */
  predicate OwesFailure(s: State, e: Event)
  {
    e.Drop? || e.DropAtClose? || (e.ReaderEnds? && e.withError && e.generation == s.generation)
  }

  /** A reader that ends with an error owes such a failure exactly when no later connection
      was ever opened; otherwise it changes nothing. */
  lemma ReaderOwesExactlyWhen(s: State, g: Generation, n: nat)
    requires g <= s.generation
    ensures Apply(s, ReaderEnds(g, true), n).failing == s.failing + 1 <==> g == s.generation
    ensures g < s.generation <==> Apply(s, ReaderEnds(g, true), n) == s
  {
  }

  function Failures(events: seq<Event>): nat
  {
    if events == [] then 0 else Failures(events[..|events| - 1]) + if events[|events| - 1].FailAll? then 1 else 0
  }

  function Owed(states: seq<State>, events: seq<Event>): nat
    requires |states| == |events| + 1
  {
    if events == [] then 0
    else
      var n := |events| - 1;
      Owed(states[..n + 1], events[..n]) + if OwesFailure(states[n], events[n]) then 1 else 0
  }

  /** Every failure of the pending requests pays for one disconnection, and none is forgotten. */
  lemma {:induction false} FailuresAreAccountedFor(states: seq<State>, events: seq<Event>)
    requires Run(states, events)
    ensures Failures(events) + states[|events|].failing == Owed(states, events)
    decreases |events|
  {
    if events != [] {
      var n := |events| - 1;
      assert NextAt(states, events, n);
      RunPrefix(states, events, n);
      FailuresAreAccountedFor(states[..n + 1], events[..n]);
      FailingStep(states[n], events[n], n, states[n + 1]);
    }
  }

  lemma RunPrefix(states: seq<State>, events: seq<Event>, n: nat)
    requires Run(states, events) && n <= |events|
    ensures Run(states[..n + 1], events[..n])
  {
    var first, done := states[..n + 1], events[..n];
    forall i | 0 <= i < n ensures NextAt(first, done, i) { assert NextAt(states, events, i); }
  }

  lemma FailingStep(s: State, e: Event, n: nat, after: State)
    requires Enabled(s, e) && after == Apply(s, e, n)
    ensures after.failing + (if e.FailAll? then 1 else 0) == s.failing + if OwesFailure(s, e) then 1 else 0
  {
  }

  /** No connection is opened from state `i` to state `n`. */
  predicate StaysDisconnected(states: seq<State>, i: nat, n: nat)
  {
    n < |states| && forall k :: i <= k <= n ==> states[k].socket.None?
  }

  /** From a disconnected state on, the generation stands still exactly as long as no
      connection is opened. */
  lemma {:induction false} DisconnectedExactlyWhen(states: seq<State>, events: seq<Event>, i: nat, n: nat)
    requires Run(states, events) && i <= n <= |events| && states[i].socket.None?
    ensures states[i].generation <= states[n].generation
    ensures states[n].generation == states[i].generation <==> StaysDisconnected(states, i, n)
  {
    if i < n {
      DisconnectedExactlyWhen(states, events, i, n - 1);
      OpeningRaises(states, events, n - 1);
      StaysOneMore(states, i, n);
    }
  }

  lemma StaysOneMore(states: seq<State>, i: nat, n: nat)
    requires i < n < |states|
    ensures StaysDisconnected(states, i, n) <==> StaysDisconnected(states, i, n - 1) && states[n].socket.None?
  {
  }

  lemma OpeningRaises(states: seq<State>, events: seq<Event>, n: nat)
    requires Run(states, events) && n < |events|
    ensures states[n + 1].generation >= states[n].generation
    ensures states[n].socket.None? ==>
              (states[n + 1].socket.Some? <==> states[n + 1].generation > states[n].generation)
  {
    assert NextAt(states, events, n);
  }

  /** Request `id` is registered at `i`, while disconnected, and the reader of the connection
      before it ends with an error at `n`. */
  predicate OldReaderEnds(states: seq<State>, events: seq<Event>, i: nat, n: nat, id: RequestId)
  {
    && i < n < |events| < |states| && events[i].Register? && id == states[i].nextId && states[i].socket.None?
    && events[n] == ReaderEnds(states[i].generation, true)
  }

  /** Such a reader leaves the request alone exactly when a later connection was opened before
      it ended; if not, it owes a failure, which at any later moment `m` is owed still or has
      taken the request, if it was pending. */
  lemma OldReaderSparesExactlyWhen(states: seq<State>, events: seq<Event>, i: nat, n: nat, id: RequestId, m: nat)
    requires Run(states, events) && OldReaderEnds(states, events, i, n, id) && n < m <= |events|
    ensures states[n + 1] == states[n] <==> !StaysDisconnected(states, i, n)
    ensures StaysDisconnected(states, i, n) ==>
      && states[n + 1].failing == states[n].failing + 1 && states[n + 1].pending == states[n].pending
      && FailsOwed(states, events, n + 1, m, id)
  {
    DisconnectedExactlyWhen(states, events, i, n);
    assert NextAt(states, events, n);
    ReaderOwesExactlyWhen(states[n], states[i].generation, n);
    if StaysDisconnected(states, i, n) { OwedUntilPaid(states, events, n + 1, m, id); }
  }

  /** Between states `n` and `m` the failure is still owed, or it has come: who was pending
      then is failed. */
  predicate FailsOwed(states: seq<State>, events: seq<Event>, n: nat, m: nat, id: RequestId)
    requires n <= m < |states| && |states| == |events| + 1
  {
    || states[m].failing > 0
    || exists k :: n <= k < m && events[k].FailAll? && TakenBy(states, k, id)
  }

  predicate TakenBy(states: seq<State>, k: nat, id: RequestId)
  {
    && k + 1 < |states| && id !in states[k + 1].pending
    && (id in states[k].pending ==> id in states[k + 1].owed && states[k + 1].owed[id] == Failed(k))
  }

  lemma {:induction false} OwedUntilPaid(states: seq<State>, events: seq<Event>, n: nat, m: nat, id: RequestId)
    requires Run(states, events) && n <= m <= |events| && states[n].failing > 0
    ensures FailsOwed(states, events, n, m, id)
  {
    if n < m {
      OwedUntilPaid(states, events, n, m - 1, id);
      assert NextAt(states, events, m - 1);
      if events[m - 1].FailAll? {
        assert TakenBy(states, m - 1, id);
      } else {
        FailingStep(states[m - 1], events[m - 1], m - 1, states[m]);
      }
    }
  }

  // ---------- What a request drops ----------

  /** A connection is opened at step `k`. */
  predicate Opens(states: seq<State>, k: nat)
  {
    k + 1 < |states| && states[k].socket.None? && states[k + 1].socket.Some?
  }

  /** The socket is the same from state `i` to state `n`. */
  predicate SameSocket(states: seq<State>, i: nat, n: nat)
  {
    n < |states| && forall k :: i <= k <= n ==> states[k].socket == states[n].socket
  }

  /** Step `k` opens a connection that is still in use at state `n`. */
  predicate OpenedAndKept(states: seq<State>, k: nat, n: nat)
  {
    Opens(states, k) && SameSocket(states, k + 1, n)
  }

  /** A connection is in use that was not at state `i` exactly when it was opened since. */
  lemma {:induction false} InUseSince(states: seq<State>, events: seq<Event>, i: nat, n: nat)
    requires Run(states, events) && i <= n <= |events| && states[n].socket.Some?
    ensures states[i].socket != states[n].socket <==> exists k :: i <= k < n && OpenedAndKept(states, k, n)
    ensures states[i].socket == states[n].socket <==> SameSocket(states, i, n)
    decreases n - i
  {
    if i < n {
      InUseSince(states, events, i + 1, n);
      RunIsSound(states, events, i);
      RunIsSound(states, events, n);
      assert NextAt(states, events, i);
      SocketAfter(states[i], events[i], i, states[i + 1]);
      ConnectionsAreNeverReused(states, events, i + 1, n);
      SameSocketFrom(states, i, n);
      if states[i].socket != states[n].socket == states[i + 1].socket { assert OpenedAndKept(states, i, n); }
    }
  }

  lemma SameSocketFrom(states: seq<State>, i: nat, n: nat)
    requires i < n < |states|
    ensures SameSocket(states, i, n) <==> states[i].socket == states[n].socket && SameSocket(states, i + 1, n)
  {
  }

  /** What a request has been given stays with it until it is over. */
  lemma {:induction false} ViaStays(states: seq<State>, events: seq<Event>, i: nat, n: nat, id: RequestId)
    requires Run(states, events) && i <= n <= |events| && id in states[i].phase && Via(states[i].phase[id]).Some?
    ensures id in states[n].phase
    ensures Via(states[n].phase[id]) == Via(states[i].phase[id]) || states[n].phase[id].Returned?
            || states[n].phase[id].GaveUp?
  {
    if i < n {
      ViaStays(states, events, i, n - 1, id);
      RunIsSound(states, events, n - 1);
      assert NextAt(states, events, n - 1) && PhaseSound(states[n - 1], id);
      ViaAfter(states[n - 1], events[n - 1], n - 1, id);
    }
  }

  lemma ViaAfter(s: State, e: Event, n: nat, id: RequestId)
    requires Enabled(s, e) && id in s.phase && id < s.nextId && !s.phase[id].Sending?
    requires Via(s.phase[id]).Some? || s.phase[id].Returned? || s.phase[id].GaveUp?
    ensures var after := Apply(s, e, n);
            id in after.phase && !after.phase[id].Sending?
            && (Via(after.phase[id]) == Via(s.phase[id]) || after.phase[id].Returned? || after.phase[id].GaveUp?)
  {
  }

  /** Request `id` is given a connection at `i`, and drops the one in use at `n`. */
  predicate GivenAndDrops(states: seq<State>, events: seq<Event>, i: nat, n: nat, id: RequestId)
  {
    && i < n < |events| < |states| && events[i].Connect? && events[i].id == id
    && id in states[i + 1].phase && states[i + 1].phase[id].Using? && events[n] == Drop(id)
  }

  /** A request that has failed or timed out drops its own connection exactly when that has
      been in use all along, and a newer one exactly when one opened since is in use.  Either
      way there is none afterwards, and all who are pending are to fail: at any later moment
      `m` that is owed still, or any request that was pending has been taken. */
  lemma DropTakesANewerExactlyWhen(states: seq<State>, events: seq<Event>, i: nat, n: nat, id: RequestId, m: nat,
                                   other: RequestId)
    requires Run(states, events) && GivenAndDrops(states, events, i, n, id) && n < m <= |events|
    ensures id in states[n].phase && states[n].phase[id] == Dropping(Some(states[i + 1].phase[id].via))
    ensures var own := Some(states[i + 1].phase[id].via);
            && (states[n].socket == own <==> SameSocket(states, i + 1, n))
            && (states[n].socket.Some? && states[n].socket != own
               <==> exists k :: i < k < n && OpenedAndKept(states, k, n))
            && (states[n].socket.Some? ==> states[n].socket.value >= own.value)
    ensures states[n + 1].socket.None? && states[n + 1].failing == states[n].failing + 1
            && FailsOwed(states, events, n + 1, m, other)
  {
    assert NextAt(states, events, i) && NextAt(states, events, n);
    assert id in states[n].phase && states[n].phase[id].Dropping?;
    RunIsSound(states, events, i + 1);
    ViaStays(states, events, i + 1, n, id);
    assert states[i + 1].socket == Some(states[i + 1].phase[id].via);
    if states[n].socket.Some? {
      InUseSince(states, events, i + 1, n);
      ConnectionsAreNeverReused(states, events, i + 1, n);
      RunIsSound(states, events, n);
    }
    OwedUntilPaid(states, events, n + 1, m, other);
  }

  // Runs in which these things happen.

  lemma RunThen(states: seq<State>, events: seq<Event>, e: Event, after: State)
    requires Run(states, events) && Enabled(states[|events|], e) && after == Apply(states[|events|], e, |events|)
    ensures Run(states + [after], events + [e])
  {
    var more, done := states + [after], events + [e];
    forall i | 0 <= i < |done| ensures NextAt(more, done, i) {
      if i < |events| { assert NextAt(states, events, i); }
    }
  }

  /** The first request waits in vain. */
  lemma FirstTimesOut() returns (states: seq<State>)
    ensures Run(states, [Register, Connect(1, true), Send(1, true), TimeOut(1)])
    ensures states[4] == State(false, false, Some(1), 1, 0, 2, map[1 := Dropping(Some(1))], {}, map[], map[])
  {
    var s := Start();
    states := [s];
    s := State(false, false, None, 0, 0, 2, map[1 := Sending], {1}, map[], map[]);
    RunThen(states, [], Register, s);
    states := states + [s];
    s := State(false, false, Some(1), 1, 0, 2, map[1 := Using(1)], {1}, map[], map[]);
    RunThen(states, [Register], Connect(1, true), s);
    states := states + [s];
    s := s.(phase := map[1 := Waiting(1)]);
    RunThen(states, [Register, Connect(1, true)], Send(1, true), s);
    states := states + [s];
    s := s.(phase := map[1 := Dropping(Some(1))], pending := {});
    RunThen(states, [Register, Connect(1, true), Send(1, true)], TimeOut(1), s);
    states := states + [s];
  }

  /** The reader of a dropped connection ends after another request has been registered. */
  lemma OldReaderMayFailANewRequest() returns (states: seq<State>, events: seq<Event>, i: nat, n: nat, id: RequestId)
    ensures Run(states, events) && OldReaderEnds(states, events, i, n, id) && StaysDisconnected(states, i, n)
    ensures id in states[n + 1].pending
  {
    states := FirstTimesOut();
    events := [Register, Connect(1, true), Send(1, true), TimeOut(1)];
    var s := State(false, false, None, 1, 1, 2, map[1 := GaveUp], {}, map[], map[]);
    RunThen(states, events, Drop(1), s);
    states, events := states + [s], events + [Drop(1)];
    s := s.(nextId := 3, phase := map[1 := GaveUp, 2 := Sending], pending := {2});
    RunThen(states, events, Register, s);
    states, events := states + [s], events + [Register];
    s := s.(failing := 2);
    RunThen(states, events, ReaderEnds(1, true), s);
    states, events := states + [s], events + [ReaderEnds(1, true)];
    i, n, id := 5, 6, 2;
  }

  /** A request that has timed out drops a connection that another one has opened meanwhile. */
  lemma DropMayTakeANewer() returns (states: seq<State>, events: seq<Event>, i: nat, n: nat, id: RequestId)
    ensures Run(states, events) && GivenAndDrops(states, events, i, n, id)
    ensures states[n].socket.Some? && states[n].socket.value > states[i + 1].phase[id].via
  {
    states := FirstTimesOut();
    events := [Register, Connect(1, true), Send(1, true), TimeOut(1)];
    assert states[2].phase == map[1 := Using(1)] by { assert NextAt(states, events, 0) && NextAt(states, events, 1); }
    var s := State(false, false, None, 1, 1, 2, map[1 := Dropping(Some(1))], {}, map[], map[]);
    RunThen(states, events, ReaderEnds(1, true), s);
    states, events := states + [s], events + [ReaderEnds(1, true)];
    s := s.(nextId := 3, phase := map[1 := Dropping(Some(1)), 2 := Sending], pending := {2});
    RunThen(states, events, Register, s);
    states, events := states + [s], events + [Register];
    s := s.(socket := Some(2), generation := 2, phase := map[1 := Dropping(Some(1)), 2 := Using(2)]);
    RunThen(states, events, Connect(2, true), s);
    states, events := states + [s], events + [Connect(2, true)];
    s := s.(socket := None, failing := 2, phase := map[1 := GaveUp, 2 := Using(2)]);
    RunThen(states, events, Drop(1), s);
    states, events := states + [s], events + [Drop(1)];
    i, n, id := 1, 7, 1;
  }

  // ---------- The client ----------

  /** The fields the threads share. */
  class Client {
    var closing: bool
    var socket: Option<Generation>
    var generation: Generation
    var nextId: RequestId
    var pending: set<RequestId>

    ghost predicate Mirrors(s: State)
      reads this
    {
      closing == s.closing && socket == s.socket && generation == s.generation && nextId == s.nextId
        && pending == s.pending
    }

    constructor ()
      ensures Mirrors(Start())
    {
      closing, socket, generation, nextId, pending := false, None, 0, 1, {};
    }

    /** The start of request. */
    method RegisterRequest(ghost s: State, ghost n: nat) returns (id: RequestId)
      requires Mirrors(s)
      modifies this
      ensures id == s.nextId && Mirrors(Apply(s, Register, n))
    {
      id := nextId;
      nextId := nextId + 1;
      pending := pending + {id};
    }

    /** _connect: `opens` is whether the daemon can be reached. */
    method Connect(opens: bool, ghost id: RequestId, ghost s: State, ghost n: nat) returns (given: Option<Generation>)
      requires Mirrors(s) && Enabled(s, Event.Connect(id, opens))
      modifies this
      ensures Mirrors(Apply(s, Event.Connect(id, opens), n))
      ensures Apply(s, Event.Connect(id, opens), n).phase[id]
              == if given.Some? then Using(given.value) else Broken(None)
    {
      if closing { return None; }
      if socket.Some? { return socket; }
      if !opens { return None; }
      generation := generation + 1;
      socket := Some(generation);
      given := socket;
    }

    /** The property connected, as a request that could not send looks at it. */
    method IsConnected(ghost id: RequestId, ghost s: State, ghost n: nat) returns (connected: bool)
      requires Mirrors(s) && Enabled(s, Look(id))
      ensures Mirrors(Apply(s, Look(id), n))
      ensures Apply(s, Look(id), n).phase[id] == if connected then Dropping(s.phase[id].from) else GaveUp
    {
      connected := socket.Some?;
    }

    /** The start of close; the rest is a _disconnect. */
    method BeginClose(ghost s: State, ghost n: nat) returns (first: bool)
      requires Mirrors(s)
      modifies this`closing
      ensures Mirrors(Apply(s, Close, n))
      ensures Apply(s, Close, n).closeDue == (s.closeDue || first)
    {
      first := !closing;
      closing := true;
    }

    /** The pop of a pending request: by a reply, by a time-out, or when sending fails. */
    method TakePending(id: RequestId) returns (found: bool)
      modifies this`pending
      ensures found == (id in old(pending)) && pending == old(pending) - {id}
    {
      found := id in pending;
      if found { pending := pending - {id}; }
    }

    /** The reader's part of a reply. */
    method HandleReply(generation: Generation, replyTo: RequestId, body: string, ghost s: State, ghost n: nat)
        returns (found: bool)
      requires Mirrors(s) && Enabled(s, Receive(generation, Some(replyTo), body))
      modifies this`pending
      ensures Mirrors(Apply(s, Receive(generation, Some(replyTo), body), n))
      ensures found ==> Apply(s, Receive(generation, Some(replyTo), body), n).owed == s.owed[replyTo := Reply(n, body)]
    {
      found := TakePending(replyTo);
    }

    /** _disconnect up to the end of its lock; `failAll` is whether _fail_pending follows. */
    method Disconnect(dropper: Option<Generation>, withError: bool, ghost s: State) returns (failAll: bool)
      requires Mirrors(s)
      modifies this`socket
      ensures Mirrors(Disconnected(s, dropper, withError))
      ensures Disconnected(s, dropper, withError).failing == s.failing + if failAll then 1 else 0
    {
      if dropper.Some? && dropper.value != generation { return false; }
      socket := None;
      failAll := withError;
    }

    /** _fail_pending up to the end of its lock. */
    method TakeAllPending(ghost s: State, ghost n: nat) returns (taken: set<RequestId>)
      requires Mirrors(s) && Enabled(s, FailAll)
      modifies this`pending
      ensures Mirrors(Apply(s, FailAll, n)) && Apply(s, FailAll, n).owed == s.owed + Tagged(taken, Failed(n))
    {
      taken := pending;
      pending := {};
    }
  }
}

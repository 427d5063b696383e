/** Accounting of direct connection attempts (src/p2p/manager.rs). Manager calls and spawned attempt
    tasks interleave; each `Section` is one stretch of code under one lock. */
module P2PManager {
  import opened Wrappers

  type Key = string   // "user:device"

  datatype PeerStatus = Handshaking | Connecting | Connected | Failed
  datatype Peer = Peer(candidates: seq<string>, status: PeerStatus, latency: Option<nat>)
  datatype Stats = Stats(established: nat, handoffs: nat, successful: nat, fallbacks: nat, average: Option<real>)
  datatype Shared = Shared(peers: map<Key, Peer>, connections: set<Key>, stats: Stats)

  const EMPTY := Shared(map[], {}, Stats(0, 0, 0, 0, None))

  // ── Critical sections ───────────────────────────────────────────────────────

  datatype Section =
    | BeginHandshake(key: Key)                              // initiate_handoff: upsert
    | StoreOffer(key: Key, offer: seq<string>)              // handle_handoff_initiate: upsert
    | UpdateOffer(key: Key, offer: seq<string>)             // handle_handoff_ack: only if tracked
    | SetStatus(key: Key, status: PeerStatus)               // only if tracked
    | StoreConnection(key: Key)
    | Forget(key: Key)
    | SetLatency(key: Key, ms: nat)                         // only if tracked
    | CountHandoff | CountSuccess | CountFallback
    | AverageLatency(ms: nat)

  function NewAverage(stats: Stats, ms: nat): real {
    var current := if stats.average.Some? then stats.average.value else 0.0;
    var count := if stats.established > 1 then stats.established else 1;
    (current * (count - 1) as real + ms as real) / count as real
  }

  function Apply(s: Shared, section: Section): Shared {
    match section
    case BeginHandshake(k) =>
      s.(peers := s.peers[k := if k in s.peers then s.peers[k].(status := Handshaking)
                               else Peer([], Handshaking, None)])
    case StoreOffer(k, offer) =>
      s.(peers := s.peers[k := if k in s.peers then s.peers[k].(candidates := offer, status := Handshaking)
                               else Peer(offer, Handshaking, None)])
    case UpdateOffer(k, offer) =>
      if k in s.peers then s.(peers := s.peers[k := s.peers[k].(candidates := offer)]) else s
    case SetStatus(k, status) =>
      if k in s.peers then s.(peers := s.peers[k := s.peers[k].(status := status)]) else s
    case StoreConnection(k) => s.(connections := s.connections + {k})
    case Forget(k) => s.(peers := s.peers - {k})
    case SetLatency(k, ms) =>
      if k in s.peers then s.(peers := s.peers[k := s.peers[k].(latency := Some(ms))]) else s
    case CountHandoff => s.(stats := s.stats.(handoffs := s.stats.handoffs + 1))
    case CountSuccess =>
      s.(stats := s.stats.(established := s.stats.established + 1, successful := s.stats.successful + 1))
    case CountFallback => s.(stats := s.stats.(fallbacks := s.stats.fallbacks + 1))
    case AverageLatency(ms) => s.(stats := s.stats.(average := Some(NewAverage(s.stats, ms))))
  }

  class Manager {
    var peers: map<Key, Peer>
    var connections: set<Key>
    var stats: Stats

    ghost function View(): Shared
      reads this
    {
      Shared(peers, connections, stats)
    }

    constructor ()
      ensures View() == EMPTY
    {
      peers, connections, stats := map[], {}, Stats(0, 0, 0, 0, None);
    }

    /** `entry(..).and_modify(..).or_insert_with(..)` with an empty candidate list. */
    method BeginHandshakeFor(key: Key)
      modifies this`peers
      ensures View() == Apply(old(View()), BeginHandshake(key))
    {
      if key in peers {
        peers := peers[key := peers[key].(status := Handshaking)];
      } else {
        peers := peers[key := Peer([], Handshaking, None)];
      }
    }

    method StoreOfferFor(key: Key, offer: seq<string>)
      modifies this`peers
      ensures View() == Apply(old(View()), StoreOffer(key, offer))
    {
      if key in peers {
        peers := peers[key := peers[key].(candidates := offer, status := Handshaking)];
      } else {
        peers := peers[key := Peer(offer, Handshaking, None)];
      }
    }

    method UpdateOfferFor(key: Key, offer: seq<string>)
      modifies this`peers
      ensures View() == Apply(old(View()), UpdateOffer(key, offer))
    {
      if key in peers {
        peers := peers[key := peers[key].(candidates := offer)];
      }
    }

    method SetStatusOf(key: Key, status: PeerStatus)
      modifies this`peers
      ensures View() == Apply(old(View()), SetStatus(key, status))
    {
      if key in peers {
        peers := peers[key := peers[key].(status := status)];
      }
    }

    /** `unwrap_or_default`: an unknown peer has no candidates. */
    method CandidatesOf(key: Key) returns (candidates: seq<string>)
      ensures candidates == Offered(View(), key)
    {
      candidates := if key in peers then peers[key].candidates else [];
    }

    method StoreConnectionOf(key: Key)
      modifies this`connections
      ensures View() == Apply(old(View()), StoreConnection(key))
    {
      connections := connections + {key};
    }

    method RemovePeer(key: Key)
      modifies this`peers
      ensures View() == Apply(old(View()), Forget(key))
    {
      peers := peers - {key};
    }

    method SetLatencyOf(key: Key, ms: nat)
      modifies this`peers
      ensures View() == Apply(old(View()), SetLatency(key, ms))
    {
      if key in peers {
        peers := peers[key := peers[key].(latency := Some(ms))];
      }
    }

    method AverageLatencyIn(ms: nat)
      modifies this`stats
      ensures View() == Apply(old(View()), AverageLatency(ms))
    {
      var current := if stats.average.Some? then stats.average.value else 0.0;
      var count := if stats.established > 1 then stats.established else 1;
      var average := (current * (count - 1) as real + ms as real) / count as real;
      assert average == NewAverage(stats, ms);
      stats := stats.(average := Some(average));
    }

    /** `update_peer_latency`: the peer first, then the average. */
    method UpdatePeerLatency(key: Key, ms: nat)
      modifies this`peers, this`stats
      ensures View() == Apply(Apply(old(View()), SetLatency(key, ms)), AverageLatency(ms))
    {
      SetLatencyOf(key, ms);
      AverageLatencyIn(ms);
    }

    method RecordConnectionSuccess()
      modifies this`stats
      ensures View() == Apply(old(View()), CountSuccess)
    {
      stats := stats.(established := stats.established + 1);
      stats := stats.(successful := stats.successful + 1);
    }

    method RecordHandoffAttempt()
      modifies this`stats
      ensures View() == Apply(old(View()), CountHandoff)
    {
      stats := stats.(handoffs := stats.handoffs + 1);
    }

    method RecordFallback()
      modifies this`stats
      ensures View() == Apply(old(View()), CountFallback)
    {
      stats := stats.(fallbacks := stats.fallbacks + 1);
    }

    // ── Calls and tasks, section by section ───────────────────────────────────

    /** The next section of a running call or task. */
    method Proceed(t: Thread, reached: bool) returns (next: Thread)
      modifies this
      ensures (next, View()) == Move(t, old(View()), reached)
    {
      match t
      case Counting(_) => RecordHandoffAttempt(); next := Finished;
      case Gathering(k) => next := Marking(k);
      case Marking(k) => SetStatusOf(k, Connecting); next := Reading(k);
      case Reading(k) =>
        var candidates := CandidatesOf(k);
        next := if candidates == [] then Finished else Storing(k);
      case Storing(k) => StoreConnectionOf(k); next := Probing(k);
      case Probing(k) => next := if reached then Succeeding(k) else MarkingFailed(k);
      case Succeeding(k) => RecordConnectionSuccess(); next := MarkingConnected(k);
      case MarkingConnected(k) => SetStatusOf(k, Connected); next := Finished;
      case MarkingFailed(k) => SetStatusOf(k, Failed); next := FallingBack(k);
      case FallingBack(_) => RecordFallback(); next := Finished;
      case Averaging(ms) => AverageLatencyIn(ms); next := Finished;
      case Finished => next := Finished;
    }

    /** One event: a new call up to the end of its first section, or a running one's next section. */
    method Perform(e: Event, threads: seq<Thread>, ghost w: World) returns (after: seq<Thread>)
      requires View() == w.shared && threads == w.threads
      modifies this
      ensures View() == Step(w, e).shared && after == Step(w, e).threads
    {
      after := threads;
      match e
      case Initiate(k) => BeginHandshakeFor(k); after := threads + [Counting(k)];
      case Offer(k, cs) => StoreOfferFor(k, cs); after := threads + [Gathering(k)];
      case Ack(k, cs) => UpdateOfferFor(k, cs); after := threads + [Marking(k)];
      case Remove(k) => RemovePeer(k);
      case Latency(k, ms) => SetLatencyOf(k, ms); after := threads + [Averaging(ms)];
      case RecordSuccess => RecordConnectionSuccess();
      case Advance(i, reached) =>
        if i < |threads| {
          var next := Proceed(threads[i], reached);
          after := threads[i := next];
        }
    }

    /** Any interleaving of calls and tasks, from a new manager on: the object's own counters and peers
        keep what is proved of the model's runs. */
    method Interleave(events: seq<Event>) returns (threads: seq<Thread>)
      requires View() == EMPTY
      modifies this
      ensures View() == Run(events).shared && threads == Run(events).threads
      ensures stats.established == stats.successful
      ensures Run(events).spawned == stats.established - Run(events).manual + stats.fallbacks + CountUnsettled(threads)
      ensures forall key :: key in peers <==> Tracked(events, key)
      ensures stats.average.Some? ==> 0.0 <= stats.average.value <= Run(events).longest as real
    {
      threads := [];
      for i := 0 to |events|
        invariant View() == Run(events[..i]).shared && threads == Run(events[..i]).threads
      {
        threads := Perform(events[i], threads, Run(events[..i]));
        assert events[..i + 1][..i] == events[..i];
      }
      assert events[..|events|] == events;
      AttemptsAccounted(events);
      AverageBounded(events);
      forall key ensures key in peers <==> Tracked(events, key) { TasksNeverRecreatePeers(events, key); }
    }
  }

  function Offered(s: Shared, key: Key): seq<string> {
    if key in s.peers then s.peers[key].candidates else []
  }

  // ── Interleaving ────────────────────────────────────────────────────────────

  /** What a call or task does next; each constructor is a point between two sections. */
  datatype Thread =
    | Counting(key: Key)                        // initiate_handoff, before its counter
    | Gathering(key: Key)                       // handle_handoff_initiate, collecting local candidates
    | Marking(key: Key)                         // attempt_connection, before setting Connecting
    | Reading(key: Key)                         // attempt_connection, before reading candidates
    | Storing(key: Key)                         // attempt_connection, before storing the connection
    | Probing(key: Key)                         // spawned task, inside connect
    | Succeeding(key: Key)                      // connect returned Ok, before the counters
    | MarkingConnected(key: Key)
    | MarkingFailed(key: Key)                   // connect returned Err
    | FallingBack(key: Key)                     // before the fallback counter
    | Averaging(ms: nat)                        // update_peer_latency, before the average
    | Finished

  datatype Event =
    | Initiate(key: Key)
    | Offer(key: Key, candidates: seq<string>)
    | Ack(key: Key, candidates: seq<string>)
    | Remove(key: Key)
    | Latency(key: Key, ms: nat)
    | RecordSuccess
    | Advance(thread: nat, reached: bool)       // one section of one running call or task

  /** `spawned` and `manual` count what happened: tasks started, and direct calls of
      `record_connection_success`. `longest` is the largest latency sample. */
  datatype World = World(shared: Shared, threads: seq<Thread>, spawned: nat, manual: nat, longest: nat)

  const START := World(EMPTY, [], 0, 0, 0)

  function Max(a: nat, b: nat): nat {
    if a < b then b else a
  }

  function Move(t: Thread, s: Shared, reached: bool): (Thread, Shared) {
    match t
    case Counting(k) => (Finished, Apply(s, CountHandoff))
    case Gathering(k) => (Marking(k), s)
    case Marking(k) => (Reading(k), Apply(s, SetStatus(k, Connecting)))
    case Reading(k) => (if Offered(s, k) == [] then Finished else Storing(k), s)
    case Storing(k) => (Probing(k), Apply(s, StoreConnection(k)))
    case Probing(k) => (if reached then Succeeding(k) else MarkingFailed(k), s)
    case Succeeding(k) => (MarkingConnected(k), Apply(s, CountSuccess))
    case MarkingConnected(k) => (Finished, Apply(s, SetStatus(k, Connected)))
    case MarkingFailed(k) => (FallingBack(k), Apply(s, SetStatus(k, Failed)))
    case FallingBack(k) => (Finished, Apply(s, CountFallback))
    case Averaging(ms) => (Finished, Apply(s, AverageLatency(ms)))
    case Finished => (Finished, s)
  }

  function Step(w: World, e: Event): World {
    match e
    case Initiate(k) => w.(shared := Apply(w.shared, BeginHandshake(k)), threads := w.threads + [Counting(k)])
    case Offer(k, cs) => w.(shared := Apply(w.shared, StoreOffer(k, cs)), threads := w.threads + [Gathering(k)])
    case Ack(k, cs) => w.(shared := Apply(w.shared, UpdateOffer(k, cs)), threads := w.threads + [Marking(k)])
    case Remove(k) => w.(shared := Apply(w.shared, Forget(k)))
    case Latency(k, ms) =>
      w.(shared := Apply(w.shared, SetLatency(k, ms)), threads := w.threads + [Averaging(ms)],
         longest := Max(w.longest, ms))
    case RecordSuccess => w.(shared := Apply(w.shared, CountSuccess), manual := w.manual + 1)
    case Advance(i, reached) =>
      if i >= |w.threads| then w
      else
        var (t, s) := Move(w.threads[i], w.shared, reached);
        w.(shared := s, threads := w.threads[i := t], spawned := w.spawned + if w.threads[i].Storing? then 1 else 0)
  }

  function Run(events: seq<Event>): World {
    if events == [] then START else Step(Run(events[..|events| - 1]), events[|events| - 1])
  }

  /** Tasks that have not touched the counters yet. */
  predicate Unsettled(t: Thread) {
    t.Probing? || t.Succeeding? || t.MarkingFailed? || t.FallingBack?
  }

  function CountUnsettled(threads: seq<Thread>): nat {
    if threads == [] then 0 else (if Unsettled(threads[0]) then 1 else 0) + CountUnsettled(threads[1..])
  }

  lemma {:induction false} CountAppend(threads: seq<Thread>, t: Thread)
    ensures CountUnsettled(threads + [t]) == CountUnsettled(threads) + if Unsettled(t) then 1 else 0
  {
    if threads != [] {
      assert (threads + [t])[1..] == threads[1..] + [t];
      CountAppend(threads[1..], t);
    }
  }

  lemma {:induction false} CountReplace(threads: seq<Thread>, i: nat, t: Thread)
    requires i < |threads|
    ensures CountUnsettled(threads[i := t]) + (if Unsettled(threads[i]) then 1 else 0)
            == CountUnsettled(threads) + (if Unsettled(t) then 1 else 0)
  {
    if i > 0 {
      assert threads[i := t][1..] == threads[1..][i - 1 := t];
      CountReplace(threads[1..], i - 1, t);
    } else {
      assert threads[i := t][1..] == threads[1..];
    }
  }

  ghost predicate Accounted(w: World) {
    && w.shared.stats.established == w.shared.stats.successful
    && w.shared.stats.established >= w.manual
    && w.spawned == w.shared.stats.established - w.manual + w.shared.stats.fallbacks + CountUnsettled(w.threads)
  }

  lemma MoveSettles(t: Thread, s: Shared, reached: bool)
    ensures var (next, after) := Move(t, s, reached);
            var newly := (if t.Storing? then 1 else 0) + (if Unsettled(t) then 1 else 0)
                         - (if Unsettled(next) then 1 else 0);
            && after.stats.established + after.stats.fallbacks == s.stats.established + s.stats.fallbacks + newly
            && after.stats.established - s.stats.established == after.stats.successful - s.stats.successful >= 0
  {
  }

  lemma StepAccounted(w: World, e: Event)
    requires Accounted(w)
    ensures Accounted(Step(w, e))
  {
    if e.Advance? {
      if e.thread < |w.threads| {
        MoveSettles(w.threads[e.thread], w.shared, e.reached);
        CountReplace(w.threads, e.thread, Move(w.threads[e.thread], w.shared, e.reached).0);
      }
    } else {
      var t := Step(w, e).threads;
      if |t| > |w.threads| {
        CountAppend(w.threads, t[|w.threads|]);
      }
    }
  }

  /** At every moment of every interleaving: the two success counters agree, and the attempts
      started are the ones counted as direct connections, the ones counted as relay fallbacks and
      the ones still under way. */
  lemma {:induction false} AttemptsAccounted(events: seq<Event>)
    ensures var w := Run(events);
            && w.shared.stats.established == w.shared.stats.successful
            && w.shared.stats.established >= w.manual
            && w.spawned == w.shared.stats.established - w.manual + w.shared.stats.fallbacks + CountUnsettled(w.threads)
  {
    if events != [] {
      AttemptsAccounted(events[..|events| - 1]);
      StepAccounted(Run(events[..|events| - 1]), events[|events| - 1]);
    }
  }

  /** Once every call and task has finished, the counters tell all attempts apart. */
  lemma {:induction false} AllSettled(threads: seq<Thread>)
    requires forall i :: 0 <= i < |threads| ==> threads[i].Finished?
    ensures CountUnsettled(threads) == 0
  {
    if threads != [] {
      AllSettled(threads[1..]);
    }
  }

  lemma QuietCounters(events: seq<Event>)
    requires forall i :: 0 <= i < |Run(events).threads| ==> Run(events).threads[i].Finished?
    ensures var w := Run(events);
            w.spawned == w.shared.stats.established - w.manual + w.shared.stats.fallbacks
  {
    AttemptsAccounted(events);
    AllSettled(Run(events).threads);
  }

  /** The last call about `key` that adds or removes it: the only thing tracking depends on. */
  function Tracked(events: seq<Event>, key: Key): bool {
    if events == [] then false
    else
      match events[|events| - 1]
      case Initiate(k) => k == key || Tracked(events[..|events| - 1], key)
      case Offer(k, _) => k == key || Tracked(events[..|events| - 1], key)
      case Remove(k) => k != key && Tracked(events[..|events| - 1], key)
      case _ => Tracked(events[..|events| - 1], key)
  }

  lemma MoveKeepsPeers(t: Thread, s: Shared, reached: bool)
    ensures Move(t, s, reached).1.peers.Keys == s.peers.Keys
  {
  }

  /** No attempt, early or late, adds or removes a peer: a removed one stays away until the next
      handoff names it. */
  lemma {:induction false} TasksNeverRecreatePeers(events: seq<Event>, key: Key)
    ensures key in Run(events).shared.peers <==> Tracked(events, key)
  {
    if events != [] {
      TasksNeverRecreatePeers(events[..|events| - 1], key);
      var before, e := Run(events[..|events| - 1]), events[|events| - 1];
      if e.Advance? {
        if e.thread < |before.threads| {
          MoveKeepsPeers(before.threads[e.thread], before.shared, e.reached);
          assert key in Run(events).shared.peers.Keys <==> key in before.shared.peers.Keys;
        }
      } else {
        assert key in Run(events).shared.peers <==> Tracked(events, key);
      }
    }
  }

  lemma WeightedMean(average: real, sample: real, bound: real, count: nat)
    requires 0.0 <= average <= bound && 0.0 <= sample <= bound && count >= 1
    ensures 0.0 <= (average * (count - 1) as real + sample) / count as real <= bound
  {
    var c := count as real;
    var sum := average * (count - 1) as real + sample;
    assert 0.0 <= average * (count - 1) as real;
    assert average * (count - 1) as real <= bound * (count - 1) as real;
    assert sum <= bound * c;
    QuotientBetween(sum, c, bound);
  }

  lemma QuotientBetween(sum: real, c: real, bound: real)
    requires c > 0.0 && 0.0 <= sum <= bound * c
    ensures 0.0 <= sum / c <= bound
  {
    assert bound * c / c == bound;
  }

  ghost predicate Averaged(w: World) {
    && (w.shared.stats.average.Some? ==> 0.0 <= w.shared.stats.average.value <= w.longest as real)
    && forall i :: 0 <= i < |w.threads| && w.threads[i].Averaging? ==> w.threads[i].ms <= w.longest
  }

  lemma NewAverageBounded(stats: Stats, ms: nat, longest: nat)
    requires stats.average.Some? ==> 0.0 <= stats.average.value <= longest as real
    requires ms <= longest
    ensures 0.0 <= NewAverage(stats, ms) <= longest as real
  {
    WeightedMean(if stats.average.Some? then stats.average.value else 0.0, ms as real, longest as real,
                 if stats.established > 1 then stats.established else 1);
  }

  lemma StepAveraged(w: World, e: Event)
    requires Averaged(w)
    ensures Averaged(Step(w, e))
  {
    if e.Advance? && e.thread < |w.threads| && w.threads[e.thread].Averaging? {
      NewAverageBounded(w.shared.stats, w.threads[e.thread].ms, w.longest);
    }
  }

  /** The reported average is never negative and never above the largest sample, and samples still to be
      averaged are not above that either. It may lie below every sample: see P2PLatency. */
  lemma {:induction false} AverageBounded(events: seq<Event>)
    ensures var w := Run(events);
            && (w.shared.stats.average.Some? ==> 0.0 <= w.shared.stats.average.value <= w.longest as real)
            && forall i :: 0 <= i < |w.threads| && w.threads[i].Averaging? ==> w.threads[i].ms <= w.longest
  {
    if events != [] {
      AverageBounded(events[..|events| - 1]);
      StepAveraged(Run(events[..|events| - 1]), events[|events| - 1]);
    }
  }
}

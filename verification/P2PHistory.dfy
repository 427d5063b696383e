/** Which outcome each attempt is counted and shown as (src/p2p/manager.rs:328-435), over every
    interleaving. */
module P2PHistory {
  import opened Wrappers
  import opened P2PManager

  // ── Outcomes ────────────────────────────────────────────────────────────────

  predicate StartsThread(e: Event) {
    e.Initiate? || e.Offer? || e.Ack? || e.Latency?
  }

  /** The event runs a section of an existing call or task. */
  predicate Runs(w: World, e: Event) {
    e.Advance? && e.thread < |w.threads|
  }

  function OutcomeAfter(t: Thread, outcome: Option<bool>, reached: bool): Option<bool> {
    if t.Probing? then Some(reached) else outcome
  }

  function NextOutcomes(w: World, outcomes: seq<Option<bool>>, e: Event): seq<Option<bool>>
    requires |outcomes| == |w.threads|
  {
    if StartsThread(e) then outcomes + [None]
    else if Runs(w, e) then outcomes[e.thread := OutcomeAfter(w.threads[e.thread], outcomes[e.thread], e.reached)]
    else outcomes
  }

  lemma ThreadsGrow(w: World, e: Event)
    ensures |Step(w, e).threads| == |w.threads| + (if StartsThread(e) then 1 else 0)
  {
  }

  /** For each call or task, how its probe ended, if it did. */
  function Outcomes(events: seq<Event>): (r: seq<Option<bool>>)
    ensures |r| == |Run(events).threads|
  {
    if events == [] then []
    else
      var init, e := events[..|events| - 1], events[|events| - 1];
      ThreadsGrow(Run(init), e);
      NextOutcomes(Run(init), Outcomes(init), e)
  }

  /** What a task does after its probe tells how the probe ended. */
  predicate Tells(t: Thread, outcome: Option<bool>) {
    match t
    case Succeeding(_) => outcome == Some(true)
    case MarkingConnected(_) => outcome == Some(true)
    case MarkingFailed(_) => outcome == Some(false)
    case FallingBack(_) => outcome == Some(false)
    case Finished => true
    case _ => outcome == None
  }

  predicate AllTell(threads: seq<Thread>, outcomes: seq<Option<bool>>) {
    |threads| == |outcomes| && forall i :: 0 <= i < |threads| ==> Tells(threads[i], outcomes[i])
  }

  lemma MoveTells(t: Thread, s: Shared, reached: bool, outcome: Option<bool>)
    requires Tells(t, outcome)
    ensures Tells(Move(t, s, reached).0, OutcomeAfter(t, outcome, reached))
  {
  }

  /** The threads after an event. */
  lemma StepThreads(w: World, e: Event)
    ensures var r := Step(w, e);
            if StartsThread(e) then |r.threads| == |w.threads| + 1 && r.threads == w.threads + [r.threads[|w.threads|]]
                                    && Tells(r.threads[|w.threads|], None)
            else if Runs(w, e) then r.threads == w.threads[e.thread := Move(w.threads[e.thread], w.shared, e.reached).0]
            else r.threads == w.threads
  {
  }

  lemma StepTells(w: World, outcomes: seq<Option<bool>>, e: Event)
    requires AllTell(w.threads, outcomes)
    ensures AllTell(Step(w, e).threads, NextOutcomes(w, outcomes, e))
  {
    StepThreads(w, e);
    if Runs(w, e) {
      MoveTells(w.threads[e.thread], w.shared, e.reached, outcomes[e.thread]);
    }
  }

  lemma {:induction false} RunTells(events: seq<Event>)
    ensures AllTell(Run(events).threads, Outcomes(events))
  {
    if events != [] {
      var init := events[..|events| - 1];
      RunTells(init);
      StepTells(Run(init), Outcomes(init), events[|events| - 1]);
    }
  }

  // ── Counters ────────────────────────────────────────────────────────────────

  function Bit(b: bool): nat {
    if b then 1 else 0
  }

  datatype Which = Connections | Fallbacks

  /** The task has run the section that counts it, as a connection or as a fallback. */
  predicate CountedAs(which: Which, t: Thread, outcome: Option<bool>) {
    match which
    case Connections => outcome == Some(true) && !t.Succeeding?
    case Fallbacks => outcome == Some(false) && !t.MarkingFailed? && !t.FallingBack?
  }

  function Counted(which: Which, threads: seq<Thread>, outcomes: seq<Option<bool>>): nat
    requires |threads| == |outcomes|
  {
    if threads == [] then 0
    else Bit(CountedAs(which, threads[0], outcomes[0])) + Counted(which, threads[1..], outcomes[1..])
  }

  lemma {:induction false} CountedAppend(which: Which, threads: seq<Thread>, outcomes: seq<Option<bool>>, t: Thread,
                                         o: Option<bool>)
    requires |threads| == |outcomes|
    ensures Counted(which, threads + [t], outcomes + [o])
            == Counted(which, threads, outcomes) + Bit(CountedAs(which, t, o))
  {
    if threads != [] {
      assert (threads + [t])[1..] == threads[1..] + [t] && (outcomes + [o])[1..] == outcomes[1..] + [o];
      CountedAppend(which, threads[1..], outcomes[1..], t, o);
    }
  }

  lemma {:induction false} CountedReplace(which: Which, threads: seq<Thread>, outcomes: seq<Option<bool>>, i: nat,
                                          t: Thread, o: Option<bool>)
    requires |threads| == |outcomes| && i < |threads|
    ensures Counted(which, threads[i := t], outcomes[i := o]) + Bit(CountedAs(which, threads[i], outcomes[i]))
            == Counted(which, threads, outcomes) + Bit(CountedAs(which, t, o))
  {
    if i == 0 {
      assert threads[i := t][1..] == threads[1..] && outcomes[i := o][1..] == outcomes[1..];
    } else {
      assert threads[i := t][1..] == threads[1..][i - 1 := t] && outcomes[i := o][1..] == outcomes[1..][i - 1 := o];
      CountedReplace(which, threads[1..], outcomes[1..], i - 1, t, o);
    }
  }

  /** One section changes the counters as it changes who is counted. */
  lemma MoveCounts(t: Thread, s: Shared, reached: bool, outcome: Option<bool>)
    requires Tells(t, outcome)
    ensures var (next, after) := Move(t, s, reached);
            var o := OutcomeAfter(t, outcome, reached);
            && after.stats.established + Bit(CountedAs(Connections, t, outcome))
               == s.stats.established + Bit(CountedAs(Connections, next, o))
            && after.stats.fallbacks + Bit(CountedAs(Fallbacks, t, outcome))
               == s.stats.fallbacks + Bit(CountedAs(Fallbacks, next, o))
  {
  }

  predicate Tallied(w: World, outcomes: seq<Option<bool>>)
    requires |outcomes| == |w.threads|
  {
    && w.shared.stats.established == w.manual + Counted(Connections, w.threads, outcomes)
    && w.shared.stats.fallbacks == Counted(Fallbacks, w.threads, outcomes)
  }

  lemma CallStats(w: World, e: Event)
    requires !Runs(w, e)
    ensures var r := Step(w, e);
            && r.shared.stats.established == w.shared.stats.established + r.manual - w.manual
            && r.shared.stats.fallbacks == w.shared.stats.fallbacks
            && r.shared.stats.handoffs == w.shared.stats.handoffs
            && r.manual == w.manual + Bit(e.RecordSuccess?)
  {
  }

  lemma StepTallied(w: World, outcomes: seq<Option<bool>>, e: Event)
    requires AllTell(w.threads, outcomes) && Tallied(w, outcomes)
    ensures AllTell(Step(w, e).threads, NextOutcomes(w, outcomes, e))
    ensures Tallied(Step(w, e), NextOutcomes(w, outcomes, e))
  {
    StepTells(w, outcomes, e);
    StepThreads(w, e);
    if Runs(w, e) {
      RunsTallied(w, outcomes, e);
    } else {
      CallStats(w, e);
      if StartsThread(e) {
        var t := Step(w, e).threads[|w.threads|];
        CountedAppend(Connections, w.threads, outcomes, t, None);
        CountedAppend(Fallbacks, w.threads, outcomes, t, None);
      }
    }
  }

  lemma RunsTallied(w: World, outcomes: seq<Option<bool>>, e: Event)
    requires AllTell(w.threads, outcomes) && Tallied(w, outcomes) && Runs(w, e)
    ensures |NextOutcomes(w, outcomes, e)| == |Step(w, e).threads|
    ensures Tallied(Step(w, e), NextOutcomes(w, outcomes, e))
  {
    var i := e.thread;
    var t, o := w.threads[i], OutcomeAfter(w.threads[i], outcomes[i], e.reached);
    var next := Move(t, w.shared, e.reached).0;
    StepThreads(w, e);
    MoveCounts(t, w.shared, e.reached, outcomes[i]);
    CountedReplace(Connections, w.threads, outcomes, i, next, o);
    CountedReplace(Fallbacks, w.threads, outcomes, i, next, o);
  }

  /** Over every interleaving: the connections counted, besides those recorded by hand, are the attempts
      whose probe was answered and whose counter section ran, and the fallbacks are those whose probe
      failed. */
  lemma {:induction false} CountedByOutcome(events: seq<Event>)
    ensures var w, outcomes := Run(events), Outcomes(events);
            && w.shared.stats.established == w.manual + Counted(Connections, w.threads, outcomes)
            && w.shared.stats.fallbacks == Counted(Fallbacks, w.threads, outcomes)
  {
    if events != [] {
      var init := events[..|events| - 1];
      CountedByOutcome(init);
      RunTells(init);
      StepTallied(Run(init), Outcomes(init), events[|events| - 1]);
    }
  }

  // ── Handoffs ────────────────────────────────────────────────────────────────

  function Initiations(events: seq<Event>): nat {
    if events == [] then 0
    else Initiations(events[..|events| - 1]) + Bit(events[|events| - 1].Initiate?)
  }

  function Uncounted(threads: seq<Thread>): nat {
    if threads == [] then 0 else Bit(threads[0].Counting?) + Uncounted(threads[1..])
  }

  lemma {:induction false} UncountedAppend(threads: seq<Thread>, t: Thread)
    ensures Uncounted(threads + [t]) == Uncounted(threads) + Bit(t.Counting?)
  {
    if threads != [] {
      assert (threads + [t])[1..] == threads[1..] + [t];
      UncountedAppend(threads[1..], t);
    }
  }

  lemma {:induction false} UncountedReplace(threads: seq<Thread>, i: nat, t: Thread)
    requires i < |threads|
    ensures Uncounted(threads[i := t]) + Bit(threads[i].Counting?) == Uncounted(threads) + Bit(t.Counting?)
  {
    if i == 0 {
      assert threads[i := t][1..] == threads[1..];
    } else {
      assert threads[i := t][1..] == threads[1..][i - 1 := t];
      UncountedReplace(threads[1..], i - 1, t);
    }
  }

  lemma MoveHandoffs(t: Thread, s: Shared, reached: bool)
    ensures Move(t, s, reached).1.stats.handoffs + Bit(Move(t, s, reached).0.Counting?)
            == s.stats.handoffs + Bit(t.Counting?)
  {
  }

  lemma NewThread(w: World, e: Event)
    requires StartsThread(e)
    ensures Step(w, e).threads[|w.threads|].Counting? == e.Initiate?
  {
  }

  lemma StepHandoffs(w: World, e: Event)
    ensures var r := Step(w, e);
            r.shared.stats.handoffs + Uncounted(r.threads)
            == w.shared.stats.handoffs + Uncounted(w.threads) + Bit(e.Initiate?)
  {
    StepThreads(w, e);
    if Runs(w, e) {
      MoveHandoffs(w.threads[e.thread], w.shared, e.reached);
      UncountedReplace(w.threads, e.thread, Move(w.threads[e.thread], w.shared, e.reached).0);
    } else {
      CallStats(w, e);
      if StartsThread(e) {
        NewThread(w, e);
        UncountedAppend(w.threads, Step(w, e).threads[|w.threads|]);
      }
    }
  }

  /** Every call that initiates a handoff is counted once, when its counter section runs. */
  lemma {:induction false} HandoffsCounted(events: seq<Event>)
    ensures Initiations(events) == Run(events).shared.stats.handoffs + Uncounted(Run(events).threads)
  {
    if events != [] {
      HandoffsCounted(events[..|events| - 1]);
      StepHandoffs(Run(events[..|events| - 1]), events[|events| - 1]);
    }
  }

  // ── Peers ───────────────────────────────────────────────────────────────────

  /** The peer for which a task sets the status next. */
  function Marks(t: Thread): Option<Key> {
    match t
    case Marking(k) => Some(k)
    case MarkingConnected(k) => Some(k)
    case MarkingFailed(k) => Some(k)
    case _ => None
  }

  /** Connecting before the probe, then as the probe ended. */
  function StatusOf(outcome: Option<bool>): PeerStatus {
    match outcome
    case None => Connecting
    case Some(reached) => if reached then Connected else Failed
  }

  /** A peer after one section of a running call or task. */
  function Marked(before: Option<Peer>, key: Key, t: Thread, outcome: Option<bool>): Option<Peer> {
    if Marks(t) == Some(key) && before.Some? then Some(before.value.(status := StatusOf(outcome))) else before
  }

  /** A peer after a call about it. */
  function Called(before: Option<Peer>, key: Key, e: Event): Option<Peer> {
    match e
    case Initiate(k) =>
      if k == key then Some(before.GetOr(Peer([], Handshaking, None)).(status := Handshaking)) else before
    case Offer(k, cs) =>
      if k == key then Some(Peer(cs, Handshaking, before.GetOr(Peer([], Failed, None)).latency)) else before
    case Ack(k, cs) => if k == key && before.Some? then Some(before.value.(candidates := cs)) else before
    case Remove(k) => if k == key then None else before
    case Latency(k, ms) => if k == key && before.Some? then Some(before.value.(latency := Some(ms))) else before
    case _ => before
  }

  /** What is known of a peer after the events. */
  function PeerAfter(events: seq<Event>, key: Key): Option<Peer> {
    if events == [] then None
    else
      var init, e := events[..|events| - 1], events[|events| - 1];
      var before, w := PeerAfter(init, key), Run(init);
      if Runs(w, e) then Marked(before, key, w.threads[e.thread], Outcomes(init)[e.thread]) else Called(before, key, e)
  }

  function PeerIn(s: Shared, key: Key): Option<Peer> {
    if key in s.peers then Some(s.peers[key]) else None
  }

  lemma MovePeer(t: Thread, s: Shared, reached: bool, outcome: Option<bool>, key: Key)
    requires Tells(t, outcome)
    ensures PeerIn(Move(t, s, reached).1, key) == Marked(PeerIn(s, key), key, t, outcome)
  {
  }

  lemma CallPeer(w: World, e: Event, key: Key)
    requires !Runs(w, e)
    ensures PeerIn(Step(w, e).shared, key) == Called(PeerIn(w.shared, key), key, e)
  {
  }

  /** Over every interleaving a tracked peer holds the candidates offered last, the latency measured last,
      and the status that was set last: a task sets Connected exactly if its probe was answered. */
  lemma {:induction false} PeerExactly(events: seq<Event>, key: Key)
    ensures PeerIn(Run(events).shared, key) == PeerAfter(events, key)
  {
    if events != [] {
      var init, e := events[..|events| - 1], events[|events| - 1];
      var w := Run(init);
      PeerExactly(init, key);
      RunTells(init);
      if Runs(w, e) {
        MovePeer(w.threads[e.thread], w.shared, e.reached, Outcomes(init)[e.thread], key);
      } else {
        CallPeer(w, e, key);
      }
    }
  }

  // ── One attempt from beginning to end ───────────────────────────────────────

  function Repeat(e: Event, n: nat): seq<Event> {
    if n == 0 then [] else Repeat(e, n - 1) + [e]
  }

  lemma StepOn(events: seq<Event>, e: Event, n: nat)
    ensures Run(events + Repeat(e, n + 1)) == Step(Run(events + Repeat(e, n)), e)
  {
    var all := events + Repeat(e, n + 1);
    assert all == (events + Repeat(e, n)) + [e];
    assert all[..|all| - 1] == events + Repeat(e, n);
  }

  /** Where attempt `n` stands, and the counters. */
  predicate Stands(w: World, n: nat, t: Thread, key: Key, cs: seq<string>, stats: Stats) {
    && n < |w.threads| && w.threads[n] == t
    && key in w.shared.peers && w.shared.peers[key].candidates == cs && w.shared.stats == stats
  }

  lemma OneSection(w: World, n: nat, t: Thread, key: Key, cs: seq<string>, stats: Stats, reached: bool)
    requires Stands(w, n, t, key, cs, stats) && cs != []
    requires t in {Gathering(key), Marking(key), Reading(key), Storing(key), Probing(key)}
    ensures var next := match t
                        case Gathering(_) => Marking(key)
                        case Marking(_) => Reading(key)
                        case Reading(_) => Storing(key)
                        case Storing(_) => Probing(key)
                        case _ => if reached then Succeeding(key) else MarkingFailed(key);
            Stands(Step(w, Advance(n, reached)), n, next, key, cs, stats)
    ensures t.Storing? || key in w.shared.connections ==> key in Step(w, Advance(n, reached)).shared.connections
  {
  }

  lemma LastSections(w: World, n: nat, key: Key, cs: seq<string>, stats: Stats, reached: bool)
    requires Stands(w, n, if reached then Succeeding(key) else MarkingFailed(key), key, cs, stats)
    ensures var e := Advance(n, reached);
            var r := Step(Step(w, e), e);
            && n < |r.threads| && r.threads[n] == Finished
            && key in r.shared.peers && r.shared.peers[key].status == (if reached then Connected else Failed)
            && r.shared.stats.established == stats.established + Bit(reached)
            && r.shared.stats.fallbacks == stats.fallbacks + Bit(!reached)
            && r.shared.connections == w.shared.connections
  {
  }

  /** A handoff with candidates that is left to run by itself ends after seven sections: a peer that was
      reached is connected and counted as a connection, one that was not is failed and counted as a
      fallback. */
  lemma AttemptRuns(events: seq<Event>, key: Key, cs: seq<string>, reached: bool)
    requires cs != []
    ensures var before, n := Run(events).shared.stats, |Run(events).threads|;
            var w := Run(events + [Offer(key, cs)] + Repeat(Advance(n, reached), 7));
            && n < |w.threads| && w.threads[n] == Finished
            && key in w.shared.peers && w.shared.peers[key].status == (if reached then Connected else Failed)
            && w.shared.stats.established == before.established + Bit(reached)
            && w.shared.stats.fallbacks == before.fallbacks + Bit(!reached)
            && key in w.shared.connections
  {
    var w0, n := Run(events), |Run(events).threads|;
    var e, base := Advance(n, reached), events + [Offer(key, cs)];
    assert base[..|base| - 1] == events && base + Repeat(e, 0) == base;
    FiveSections(base, n, key, cs, w0.shared.stats, reached);
    StepOn(base, e, 5);
    StepOn(base, e, 6);
    LastSections(Run(base + Repeat(e, 5)), n, key, cs, w0.shared.stats, reached);
  }

  lemma FiveSections(base: seq<Event>, n: nat, key: Key, cs: seq<string>, stats: Stats, reached: bool)
    requires cs != [] && Stands(Run(base + Repeat(Advance(n, reached), 0)), n, Gathering(key), key, cs, stats)
    ensures var w := Run(base + Repeat(Advance(n, reached), 5));
            && Stands(w, n, if reached then Succeeding(key) else MarkingFailed(key), key, cs, stats)
            && key in w.shared.connections
  {
    var e := Advance(n, reached);
    StepOn(base, e, 0);
    OneSection(Run(base + Repeat(e, 0)), n, Gathering(key), key, cs, stats, reached);
    StepOn(base, e, 1);
    OneSection(Run(base + Repeat(e, 1)), n, Marking(key), key, cs, stats, reached);
    StepOn(base, e, 2);
    OneSection(Run(base + Repeat(e, 2)), n, Reading(key), key, cs, stats, reached);
    StepOn(base, e, 3);
    OneSection(Run(base + Repeat(e, 3)), n, Storing(key), key, cs, stats, reached);
    StepOn(base, e, 4);
    OneSection(Run(base + Repeat(e, 4)), n, Probing(key), key, cs, stats, reached);
  }

  /** Without candidates it ends after three sections: nothing is probed and nothing is counted. */
  lemma AttemptWithoutCandidates(events: seq<Event>, key: Key, reached: bool)
    ensures var before, n := Run(events).shared, |Run(events).threads|;
            var w := Run(events + [Offer(key, [])] + Repeat(Advance(n, reached), 3));
            && n < |w.threads| && w.threads[n] == Finished
            && key in w.shared.peers && w.shared.peers[key].status == Connecting
            && w.shared.stats == before.stats && w.shared.connections == before.connections
  {
    var n := |Run(events).threads|;
    var e, base := Advance(n, reached), events + [Offer(key, [])];
    assert base[..|base| - 1] == events && base + Repeat(e, 0) == base;
    StepOn(base, e, 0);
    StepOn(base, e, 1);
    StepOn(base, e, 2);
    ThreeEmptySections(Run(base), n, key, reached);
  }

  lemma ThreeEmptySections(w: World, n: nat, key: Key, reached: bool)
    requires Stands(w, n, Gathering(key), key, [], w.shared.stats)
    ensures var e := Advance(n, reached);
            var r := Step(Step(Step(w, e), e), e);
            && n < |r.threads| && r.threads[n] == Finished
            && key in r.shared.peers && r.shared.peers[key].status == Connecting
            && r.shared.stats == w.shared.stats && r.shared.connections == w.shared.connections
  {
  }

  /** A section of a task on `key` stores its connection. */
  predicate StoresAt(events: seq<Event>, key: Key, i: nat) {
    && i < |events| && Runs(Run(events[..i]), events[i])
    && Run(events[..i]).threads[events[i].thread] == Storing(key)
  }

  /** A connection is kept for a peer exactly if an attempt on it got that far; nothing removes it. */
  lemma {:induction false} ConnectionsExactly(events: seq<Event>, key: Key)
    ensures key in Run(events).shared.connections <==> exists i :: 0 <= i < |events| && StoresAt(events, key, i)
  {
    if events != [] {
      var n := |events| - 1;
      var init := events[..n];
      ConnectionsExactly(init, key);
      forall i | 0 <= i < n ensures StoresAt(init, key, i) <==> StoresAt(events, key, i) {
        assert init[..i] == events[..i];
      }
      StepConnections(Run(init), events[n], key);
      assert StoresAt(events, key, n)
             <==> Runs(Run(init), events[n]) && Run(init).threads[events[n].thread] == Storing(key);
    }
  }

  lemma StepConnections(w: World, e: Event, key: Key)
    ensures key in Step(w, e).shared.connections
            <==> key in w.shared.connections || (Runs(w, e) && w.threads[e.thread] == Storing(key))
  {
  }
}

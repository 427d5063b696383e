/** Connection phases of the event loop: `ensure_connected` and the disconnect branch of
    src/engine.rs, over the watch channel of src/transport/mod.rs. */
module Connectivity {
  import opened Powers

  datatype Notice = State(connected: bool) | Retrying(seconds: nat)

  const MAX_DELAY: nat := 60

  /** Wait after the failure number `k`, counting from zero. */
  function Delay(k: nat): nat {
    if Pow2(k) < MAX_DELAY then Pow2(k) else MAX_DELAY
  }

  /** What one connect phase with `n` failures tells the platform before it succeeds. */
  function Retries(n: nat): (r: seq<Notice>)
    ensures |r| == n && forall k :: 0 <= k < n ==> r[k] == Retrying(Delay(k))
  {
    seq(n, k requires 0 <= k < n => Retrying(Delay(k)))
  }

  function Phase(n: nat): seq<Notice> {
    Retries(n) + [State(true)]
  }

  function Waited(n: nat): nat {
    if n == 0 then 0 else Waited(n - 1) + Delay(n - 1)
  }

  /** Total time spent in a phase: doubling up to a minute, then linear. */
  lemma {:induction false} WaitedClosedForm(n: nat)
    ensures Waited(n) == if n <= 6 then Pow2(n) - 1 else 63 + 60 * (n - 6)
  {
    assert Pow2(5) == 32 && Pow2(6) == 64;
    if n > 0 {
      WaitedClosedForm(n - 1);
      if n <= 6 { Pow2Monotone(n - 1, 5); } else { Pow2Monotone(6, n - 1); }
    }
  }

  // ── The loop's view of the connection ───────────────────────────────────────

  /** The watch channel keeps one value: changes the loop has not seen yet are merged. */
  datatype Watch = Watch(value: bool, version: nat, seen: nat)

  datatype World = World(watch: Watch, notices: seq<Notice>)

  datatype Event =
    | DriverClosed                   // some H3 driver task ends, possibly an old one
    | Redialled                      // a unary call reconnected on its own
    | Woken(failures: nat)           // the loop polls the channel; failures of the phase it may start

  function Send(w: Watch, value: bool): Watch {
    Watch(value, w.version + 1, w.seen)
  }

  /** A connect phase ends with `connect_h3` announcing true. */
  function Connected(w: World, failures: nat): World {
    World(Send(w.watch, true), w.notices + Phase(failures))
  }

  function Start(failures: nat): World {
    var w := Connected(World(Watch(false, 0, 0), []), failures);
    w
  }

  function Step(w: World, e: Event): World {
    match e
    case DriverClosed => w.(watch := Send(w.watch, false))
    case Redialled => w.(watch := Send(w.watch, true))
    case Woken(failures) =>
      if w.watch.version == w.watch.seen then w
      else
        var seen := w.(watch := w.watch.(seen := w.watch.version));
        if seen.watch.value then seen
        else Connected(seen.(notices := seen.notices + [State(false)]), failures)
  }

  function Run(first: nat, events: seq<Event>): World {
    if events == [] then Start(first) else Step(Run(first, events[..|events| - 1]), events[|events| - 1])
  }

  class Link {
    var watch: Watch
    var notices: seq<Notice>
    ghost var slept: nat

    ghost function View(): World
      reads this
    {
      World(watch, notices)
    }

    constructor ()
      ensures View() == World(Watch(false, 0, 0), []) && slept == 0
    {
      watch, notices, slept := Watch(false, 0, 0), [], 0;
    }

    /** The backoff loop; the network refuses `failures` times and then accepts. */
    method EnsureConnected(failures: nat)
      modifies this
      ensures View() == Connected(old(View()), failures)
      ensures slept == old(slept) + Waited(failures)
    {
      var delay := 1;
      var refused := 0;
      while refused < failures
        invariant refused <= failures && delay == Delay(refused)
        invariant notices == old(notices) + Retries(refused)
        invariant watch == old(watch) && slept == old(slept) + Waited(refused)
      {
        notices := notices + [Retrying(delay)];
        slept := slept + delay;
        assert Retries(refused) + [Retrying(delay)] == Retries(refused + 1);
        delay := if delay * 2 < MAX_DELAY then delay * 2 else MAX_DELAY;
        refused := refused + 1;
      }
      watch := Send(watch, true);
      notices := notices + [State(true)];
      assert notices == old(notices) + Phase(failures);
    }

    /** The disconnect branch of the select. */
    method OnWatchChanged(failures: nat)
      modifies this
      ensures View() == Step(old(View()), Woken(failures))
    {
      if watch.version == watch.seen {
        return;
      }
      watch := watch.(seen := watch.version);
      if !watch.value {
        notices := notices + [State(false)];
        EnsureConnected(failures);
      }
    }
  }

  /** The connection callbacks among the notices. */
  function States(notices: seq<Notice>): seq<bool> {
    if notices == [] then []
    else
      var last := notices[|notices| - 1];
      States(notices[..|notices| - 1]) + if last.State? then [last.connected] else []
  }

  lemma {:induction false} StatesAppend(a: seq<Notice>, b: seq<Notice>)
    ensures States(a + b) == States(a) + States(b)
  {
    if b == [] {
      assert a + b == a;
    } else {
      assert (a + b)[..|a + b| - 1] == a + b[..|b| - 1];
      StatesAppend(a, b[..|b| - 1]);
    }
  }

  lemma {:induction false} RetriesSilent(r: seq<Notice>)
    requires forall k :: 0 <= k < |r| ==> r[k].Retrying?
    ensures States(r) == []
  {
    if r != [] { RetriesSilent(r[..|r| - 1]); }
  }

  lemma PhaseStates(n: nat)
    ensures States(Phase(n)) == [true]
  {
    RetriesSilent(Retries(n));
    StatesAppend(Retries(n), [State(true)]);
    assert [State(true)][..0] == [];
  }

  predicate Alternating(s: seq<bool>) {
    |s| % 2 == 1 && forall i :: 0 <= i < |s| ==> (s[i] <==> i % 2 == 0)
  }

  lemma LossAndPhase(notices: seq<Notice>, failures: nat)
    ensures States(notices + [State(false)] + Phase(failures)) == States(notices) + [false, true]
  {
    PhaseStates(failures);
    StatesAppend(notices, [State(false)]);
    StatesAppend(notices + [State(false)], Phase(failures));
    assert [State(false)][..0] == [];
    assert States([State(false)]) == [false];
    assert States(notices) + [false] + [true] == States(notices) + [false, true];
  }

  lemma StepAlternates(w: World, e: Event)
    requires Alternating(States(w.notices))
    ensures Alternating(States(Step(w, e).notices))
  {
    if e.Woken? {
      LossAndPhase(w.notices, e.failures);
    }
  }

  /** Whatever drivers and calls do, the platform is told connected, disconnected, connected, ...
      starting with connected, and the loop never waits for events while it has said disconnected. */
  lemma {:induction false} StatesAlternate(first: nat, events: seq<Event>)
    ensures Alternating(States(Run(first, events).notices))
  {
    if events == [] {
      PhaseStates(first);
      assert Start(first).notices == Phase(first);
    } else {
      StatesAlternate(first, events[..|events| - 1]);
      StepAlternates(Run(first, events[..|events| - 1]), events[|events| - 1]);
    }
  }

  function Losses(states: seq<bool>): nat {
    if states == [] then 0 else Losses(states[..|states| - 1]) + if states[|states| - 1] then 0 else 1
  }

  function Closings(events: seq<Event>): nat {
    if events == [] then 0
    else Closings(events[..|events| - 1]) + if events[|events| - 1].DriverClosed? then 1 else 0
  }

  lemma LossesAppend(states: seq<bool>)
    ensures Losses(states + [false, true]) == Losses(states) + 1
  {
    var all := states + [false, true];
    assert all[..|all| - 1] == states + [false];
    assert (states + [false])[..|states|] == states;
  }

  /** Each loss that the platform hears of is a driver that closed, and one that is still unseen is
      one more: closings that the loop does not see apart are reported once. */
  lemma {:induction false} LossesNeedClosings(first: nat, events: seq<Event>)
    ensures var w := Run(first, events);
            Losses(States(w.notices)) + (if w.watch.value then 0 else 1) <= Closings(events)
  {
    if events == [] {
      PhaseStates(first);
      assert Start(first).notices == Phase(first);
      assert [true][..0] == [];
    } else {
      var before, e := Run(first, events[..|events| - 1]), events[|events| - 1];
      LossesNeedClosings(first, events[..|events| - 1]);
      if e.Woken? {
        LossAndPhase(before.notices, e.failures);
        LossesAppend(States(before.notices));
      }
    }
  }

  // ── Every loss is announced and repaired ────────────────────────────────────

  /** Judged by the events alone, the connection is down: its driver closed, and nothing dialled since. */
  predicate Down(events: seq<Event>) {
    events != [] && events[|events| - 1].DriverClosed?
  }

  /** What the platform has to be told: the first phase, and for each time the loop wakes to a connection
      that is down, the loss and the phase that repairs it. */
  function Announced(first: nat, events: seq<Event>): seq<Notice> {
    if events == [] then Phase(first)
    else
      var init, e := events[..|events| - 1], events[|events| - 1];
      Announced(first, init)
      + if e.Woken? && Down(init) then [State(false)] + Phase(e.failures) else []
  }

  /** Over every run the platform is told exactly that; the channel holds true unless the connection is
      down, and a loss is never seen without being repaired. */
  lemma {:induction false} AnnouncedExactly(first: nat, events: seq<Event>)
    ensures var w := Run(first, events);
            && w.notices == Announced(first, events)
            && w.watch.value == !Down(events)
            && w.watch.seen <= w.watch.version && (Down(events) ==> w.watch.seen < w.watch.version)
  {
    if events == [] {
      assert Start(first).notices == Phase(first);
    } else {
      var init, e := events[..|events| - 1], events[|events| - 1];
      var before := Run(first, init);
      AnnouncedExactly(first, init);
      if e.Woken? && Down(init) {
        assert before.notices + [State(false)] + Phase(e.failures)
               == before.notices + ([State(false)] + Phase(e.failures));
      }
    }
  }

  /** A driver that closes with no redial behind it is announced by the next waking, which reconnects:
      the platform hears of the loss, of each failed attempt and its delay, and of the connection. */
  lemma LossIsRepaired(first: nat, events: seq<Event>, failures: nat)
    ensures var w := Run(first, events + [DriverClosed] + [Woken(failures)]);
            && w.notices == Run(first, events).notices + [State(false)] + Retries(failures) + [State(true)]
            && w.watch.value
  {
    var closed := events + [DriverClosed];
    var all := closed + [Woken(failures)];
    assert closed[..|closed| - 1] == events && all[..|all| - 1] == closed;
    AnnouncedExactly(first, events);
    AnnouncedExactly(first, closed);
    AnnouncedExactly(first, all);
    var told := Announced(first, events);
    assert told + [] == told;
    assert told + ([State(false)] + (Retries(failures) + [State(true)]))
           == told + [State(false)] + Retries(failures) + [State(true)];
  }

  /** The wakings that meet a connection that is down. */
  function Repairs(events: seq<Event>): nat {
    if events == [] then 0
    else Repairs(events[..|events| - 1]) + if events[|events| - 1].Woken? && Down(events[..|events| - 1]) then 1 else 0
  }

  /** The losses announced are exactly these. */
  lemma {:induction false} LossesExactly(first: nat, events: seq<Event>)
    ensures Losses(States(Run(first, events).notices)) == Repairs(events)
  {
    if events == [] {
      PhaseStates(first);
      assert Start(first).notices == Phase(first);
      assert [true][..0] == [];
    } else {
      var before, e := Run(first, events[..|events| - 1]), events[|events| - 1];
      LossesExactly(first, events[..|events| - 1]);
      AnnouncedExactly(first, events[..|events| - 1]);
      if e.Woken? && Down(events[..|events| - 1]) {
        LossAndPhase(before.notices, e.failures);
        LossesAppend(States(before.notices));
      }
    }
  }
}

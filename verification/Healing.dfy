/** Session healing (src/engine.rs:1905-2003): a failed session start is put back into the frame
    queue while the core's healing record of its sender allows another attempt. */
module Healing {
  import opened Protocol
  import opened EngineSpec

  // ── Runs ────────────────────────────────────────────────────────────────────

  /** `pending` are the session starts in the queue or waiting out their delay, by sender; several
      of one sender share its record. The other multisets count what happened so far. */
  datatype World = World(heal: map<Contact, nat>, pending: multiset<Contact>, arrived: multiset<Contact>,
                         turns: multiset<Contact>, retried: multiset<Contact>,
                         settled: multiset<Contact>, dropped: multiset<Contact>, forgets: nat)

  datatype Step =
    | Arrive(sender: Contact)
    | Process(from: Contact, fate: Fate)
    | Forget                             // a new core starts without records

  function Next(w: World, limit: nat, step: Step): World {
    match step
    case Arrive(s) => w.(pending := w.pending + multiset{s}, arrived := w.arrived + multiset{s})
    case Forget => w.(heal := map[], forgets := w.forgets + 1)
    case Process(s, fate) =>
      if s !in w.pending then w
      else
        var r := w.(heal := Record(w.heal, limit, s, fate), turns := w.turns + multiset{s});
        if Keeps(w.heal, limit, s, fate) then r.(retried := r.retried + multiset{s})
        else
          var r := r.(pending := r.pending - multiset{s});
          if fate.Dropped? then r.(dropped := r.dropped + multiset{s}) else r.(settled := r.settled + multiset{s})
  }

  const QUIET := World(map[], multiset{}, multiset{}, multiset{}, multiset{}, multiset{}, multiset{}, 0)

  function Run(limit: nat, steps: seq<Step>): World {
    if steps == [] then QUIET else Next(Run(limit, steps[..|steps| - 1]), limit, steps[|steps| - 1])
  }

  /** Books kept per sender: every settled message and every lost record used up at most `limit`
      retries, and a record with attempts stands for a message that is not settled. */
  predicate Booked(w: World, limit: nat, s: Contact) {
    && Attempts(w.heal, s) <= limit
    && w.arrived[s] == w.pending[s] + w.settled[s] + w.dropped[s]
    && w.turns[s] == w.retried[s] + w.settled[s] + w.dropped[s]
    && w.retried[s] <= limit * (w.settled[s] + w.forgets) + Attempts(w.heal, s)
    && (Attempts(w.heal, s) > 0 ==> w.pending[s] + w.dropped[s] > 0)
    && (w.arrived[s] == 0 ==> w.retried[s] == 0)
  }

  lemma OneMore(limit: nat, n: nat)
    ensures limit * (n + 1) == limit * n + limit
  {
  }

  lemma StepBooked(w: World, limit: nat, step: Step, s: Contact)
    requires Booked(w, limit, s)
    ensures Booked(Next(w, limit, step), limit, s)
  {
    match step
    case Arrive(_) =>
    case Forget => OneMore(limit, w.settled[s] + w.forgets);
    case Process(from, fate) =>
      if from == s && s in w.pending {
        ProcessBooked(w, limit, s, fate);
      } else {
        OthersUntouched(w, limit, from, fate, s);
      }
  }

  lemma OthersUntouched(w: World, limit: nat, from: Contact, fate: Fate, s: Contact)
    requires from != s || s !in w.pending
    ensures var r := Next(w, limit, Process(from, fate));
            && r.arrived == w.arrived && r.forgets == w.forgets && Attempts(r.heal, s) == Attempts(w.heal, s)
            && r.pending[s] == w.pending[s] && r.settled[s] == w.settled[s] && r.dropped[s] == w.dropped[s]
            && r.turns[s] == w.turns[s] && r.retried[s] == w.retried[s]
  {
  }

  lemma ProcessBooked(w: World, limit: nat, s: Contact, fate: Fate)
    requires Booked(w, limit, s) && s in w.pending
    ensures Booked(Next(w, limit, Process(s, fate)), limit, s)
  {
    var r := Next(w, limit, Process(s, fate));
    OneMore(limit, w.settled[s] + w.forgets);
    assert r.forgets == w.forgets;
    if Keeps(w.heal, limit, s, fate) {
      assert r.retried[s] == w.retried[s] + 1 && Attempts(r.heal, s) == Attempts(w.heal, s) + 1;
    } else if fate.Dropped? {
      assert r.settled[s] == w.settled[s] && r.heal == w.heal;
    } else {
      assert r.settled[s] + r.forgets == w.settled[s] + w.forgets + 1 && Attempts(r.heal, s) == 0;
    }
  }

  lemma {:induction false} RunBooked(limit: nat, steps: seq<Step>, s: Contact)
    ensures Booked(Run(limit, steps), limit, s)
  {
    if steps != [] {
      RunBooked(limit, steps[..|steps| - 1], s);
      StepBooked(Run(limit, steps[..|steps| - 1]), limit, steps[|steps| - 1], s);
    }
  }

  /** Healing terminates, in every order of arrivals, failures, successes and exhaustions: per sender
      there are at most `limit` retries for each arrival and each replacement of the core, and the
      responder path runs at most once more per arrival. */
  lemma {:induction false} RetriesBounded(limit: nat, steps: seq<Step>, s: Contact)
    ensures var w := Run(limit, steps);
            && w.retried[s] <= limit * (w.arrived[s] + w.forgets)
            && w.turns[s] <= limit * (w.arrived[s] + w.forgets) + w.arrived[s]
  {
    RunBooked(limit, steps, s);
    BookedBound(Run(limit, steps), limit, s);
  }

  lemma BookedBound(w: World, limit: nat, s: Contact)
    requires Booked(w, limit, s)
    ensures w.retried[s] <= limit * (w.arrived[s] + w.forgets)
    ensures w.turns[s] <= limit * (w.arrived[s] + w.forgets) + w.arrived[s]
  {
    var spent, all := w.settled[s] + w.forgets, w.arrived[s] + w.forgets;
    if Attempts(w.heal, s) > 0 {
      OneMore(limit, spent);
      ProductMonotone(limit, spent + 1, all);
    } else {
      ProductMonotone(limit, spent, all);
    }
  }

  lemma {:induction false} ProductMonotone(k: nat, a: nat, b: nat)
    requires a <= b
    ensures k * a <= k * b
  {
    if a < b { ProductMonotone(k, a, b - 1); }
  }

  lemma TakeOut(m: multiset<Contact>, s: Contact)
    ensures |m| == |m[s := 0]| + m[s]
  {
    assert m == m[s := 0] + multiset{}[s := m[s]];
  }

  /** Senders of at least one session start. */
  function Senders(m: multiset<Contact>): set<Contact> {
    set s | s in m
  }

  predicate Within(small: multiset<Contact>, big: multiset<Contact>, k: nat, extra: nat, s: Contact) {
    small[s] <= if s in big then k * (big[s] + extra) else 0
  }

  lemma {:induction false} BoundTotal(small: multiset<Contact>, big: multiset<Contact>, k: nat, extra: nat)
    requires forall s :: Within(small, big, k, extra, s)
    ensures |small| <= k * (|big| + extra * |Senders(big)|)
    decreases |big|
  {
    if s :| s in big {
      var small', big' := small[s := 0], big[s := 0];
      TakeOut(small, s);
      TakeOut(big, s);
      forall t ensures Within(small', big', k, extra, t) { assert Within(small, big, k, extra, t); }
      BoundTotal(small', big', k, extra);
      assert Senders(big) == Senders(big') + {s};
      assert Within(small, big, k, extra, s);
      AddUp(k, extra, |big'|, |Senders(big')|, big[s]);
    } else {
      forall s ensures small[s] == 0 { assert Within(small, big, k, extra, s); }
      assert small == multiset{};
    }
  }

  lemma AddUp(k: nat, extra: nat, size: nat, senders: nat, more: nat)
    ensures k * (size + extra * senders) + k * (more + extra) == k * ((size + more) + extra * (senders + 1))
  {
  }

  lemma TotalsAdd(a: multiset<Contact>, b: multiset<Contact>, c: multiset<Contact>)
    requires forall s :: a[s] <= b[s] + c[s]
    ensures |a| <= |b| + |c|
  {
    assert a <= b + c;
    assert |b + c| == |a| + |(b + c) - a|;
  }

  lemma SenderShare(limit: nat, steps: seq<Step>, s: Contact)
    ensures var w := Run(limit, steps);
            && Within(w.retried, w.arrived, limit, w.forgets, s)
            && w.turns[s] <= w.retried[s] + w.arrived[s]
  {
    RunBooked(limit, steps, s);
    BookedBound(Run(limit, steps), limit, s);
  }

  /** Over all senders together: at most `limit` retries for each arrival, and for each pair of a
      sender and a replacement of the core; and one further run of the responder path per arrival. */
  lemma {:induction false} AllRetriesBounded(limit: nat, steps: seq<Step>)
    ensures var w := Run(limit, steps);
            && |w.retried| <= limit * (|w.arrived| + w.forgets * |Senders(w.arrived)|)
            && |w.turns| <= |w.retried| + |w.arrived|
  {
    var w := Run(limit, steps);
    forall s ensures Within(w.retried, w.arrived, limit, w.forgets, s) { SenderShare(limit, steps, s); }
    BoundTotal(w.retried, w.arrived, limit, w.forgets);
    forall s ensures w.turns[s] <= w.retried[s] + w.arrived[s] { SenderShare(limit, steps, s); }
    TotalsAdd(w.turns, w.retried, w.arrived);
  }

  // ── The bound is attained, and needs the records ────────────────────────────

  lemma RunThen(limit: nat, steps: seq<Step>, step: Step)
    ensures Run(limit, steps + [step]) == Next(Run(limit, steps), limit, step)
  {
    assert (steps + [step])[..|steps|] == steps;
  }

  lemma OneArrival(limit: nat, s: Contact)
    ensures Run(limit, [Arrive(s)]) == QUIET.(pending := multiset{s}, arrived := multiset{s})
  {
    assert [Arrive(s)][..0] == [];
  }

  /** One message of `s` came, was retried `n` times and still waits, with `attempts` on record. */
  predicate Tried(w: World, s: Contact, n: nat, attempts: nat) {
    && w.arrived[s] == 1 && w.pending[s] == 1 && w.retried[s] == w.turns[s] == n
    && Attempts(w.heal, s) == attempts
  }

  lemma FailAgain(limit: nat, steps: seq<Step>, s: Contact, n: nat, attempts: nat)
    requires Tried(Run(limit, steps), s, n, attempts) && attempts < limit
    ensures Tried(Run(limit, steps + [Process(s, Failed)]), s, n + 1, attempts + 1)
  {
    var w := Run(limit, steps);
    RunThen(limit, steps, Process(s, Failed));
    FailedOnce(w, limit, s, n, attempts);
  }

  lemma FailedOnce(w: World, limit: nat, s: Contact, n: nat, attempts: nat)
    requires Tried(w, s, n, attempts) && attempts < limit
    ensures Tried(Next(w, limit, Process(s, Failed)), s, n + 1, attempts + 1)
  {
  }

  lemma ForgetRecord(limit: nat, steps: seq<Step>, s: Contact, n: nat, attempts: nat)
    requires Tried(Run(limit, steps), s, n, attempts)
    ensures Tried(Run(limit, steps + [Forget]), s, n, 0)
  {
    RunThen(limit, steps, Forget);
  }

  lemma FailAndForget(limit: nat, steps: seq<Step>, s: Contact, n: nat)
    requires Tried(Run(limit, steps), s, n, 0) && limit > 0
    ensures Tried(Run(limit, steps + [Process(s, Failed)] + [Forget]), s, n + 1, 0)
  {
    FailAgain(limit, steps, s, n, 0);
    ForgetRecord(limit, steps + [Process(s, Failed)], s, n + 1, 1);
  }

  function AlwaysFailing(s: Contact, n: nat): seq<Step> {
    if n == 0 then [Arrive(s)] else AlwaysFailing(s, n - 1) + [Process(s, Failed)]
  }

  /** One message that always fails is retried as often as the limit allows. */
  lemma {:induction false} BoundAttained(limit: nat, s: Contact, n: nat)
    requires n <= limit
    ensures Tried(Run(limit, AlwaysFailing(s, n)), s, n, n)
  {
    if n == 0 {
      OneArrival(limit, s);
    } else {
      BoundAttained(limit, s, n - 1);
      FailAgain(limit, AlwaysFailing(s, n - 1), s, n - 1, n - 1);
    }
  }

  function Forgetful(s: Contact, n: nat): seq<Step> {
    if n == 0 then [Arrive(s)] else Forgetful(s, n - 1) + [Process(s, Failed)] + [Forget]
  }

  /** Replacing the core forgets the records: one message may then be retried without end, once per
      replacement. */
  lemma {:induction false} ForgettingUnbounds(limit: nat, s: Contact, n: nat)
    requires limit > 0
    ensures Tried(Run(limit, Forgetful(s, n)), s, n, 0)
  {
    if n == 0 {
      OneArrival(limit, s);
    } else {
      ForgettingUnbounds(limit, s, n - 1);
      FailAndForget(limit, Forgetful(s, n - 1), s, n - 1);
    }
  }
}

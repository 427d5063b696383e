/** When the stored cursor moves backwards (src/engine.rs:1685-1691, src/engine.rs:1025-1045): an opening
    leaves older pumps running for a while, and both feed one queue. */
module CursorOrder {
  import opened Wrappers
  import opened Protocol
  import opened EngineSpec
  import opened Resume

  function Carried(item: Item): Option<Cursor> {
    if item.content.Read? then item.content.response.cursor else None
  }

  /** The step lowers the stored cursor. */
  predicate Falls(w: World, s: Step) {
    var before, after := CursorOf(w.mem), CursorOf(Next(w, s).mem);
    before.Some? && after.Some? && after.value < before.value
  }

  predicate ByUser(s: Step) {
    s.Other? && s.event.OpenStream?
  }

  /** Exactly two kinds of step lower it: handling a frame with a lower cursor, and an opening by the
      application at a lower one. */
  lemma FallsExactly(w: World, s: Step)
    ensures Falls(w, s)
            <==> && CursorOf(w.mem).Some?
                 && match s
                    case HandleNext(_) =>
                      && w.feed.queue != []
                      && Carried(w.feed.queue[0]).Some? && Carried(w.feed.queue[0]).value < CursorOf(w.mem).value
                    case Other(OpenStream(_, since, _), _) => since.Some? && since.value < CursorOf(w.mem).value
                    case _ => false
  {
    match s
    case HandleNext(env) => if w.feed.queue != [] { FrameCursor(w.mem, w.feed.queue[0].content, env); }
    case Other(e, _) => if !e.Frame? && !e.OpenStream? { EventCursor(w.mem, e); }
    case _ =>
  }

  // ── Order ───────────────────────────────────────────────────────────────────

  predicate AtLeast(queue: seq<Item>, low: Cursor) {
    forall i :: 0 <= i < |queue| && Carried(queue[i]).Some? ==> low <= Carried(queue[i]).value
  }

  predicate AtMost(queue: seq<Item>, high: Cursor) {
    forall i :: 0 <= i < |queue| && Carried(queue[i]).Some? ==> Carried(queue[i]).value <= high
  }

  predicate Sorted(queue: seq<Item>) {
    forall i, j :: 0 <= i < j < |queue| && Carried(queue[i]).Some? && Carried(queue[j]).Some? ==>
      Carried(queue[i]).value <= Carried(queue[j]).value
  }

  predicate Quiet(pumps: seq<Pump>) {
    forall i :: 0 <= i < |pumps| ==> !pumps[i].live
  }

  predicate OneLive(pumps: seq<Pump>) {
    forall i, j :: 0 <= i < j < |pumps| ==> !(pumps[i].live && pumps[j].live)
  }

  predicate PumpAhead(w: World, i: nat)
    requires i < |w.feed.pumps|
  {
    var p := w.feed.pumps[i];
    p.live ==> AtMost(w.feed.queue, p.next) && (CursorOf(w.mem).Some? ==> CursorOf(w.mem).value <= p.next)
  }

  /** The cursors still to come are in order and not below the stored one. */
  predicate Ordered(w: World) {
    && Sorted(w.feed.queue)
    && (CursorOf(w.mem).Some? ==> AtLeast(w.feed.queue, CursorOf(w.mem).value))
    && OneLive(w.feed.pumps)
    && forall i :: 0 <= i < |w.feed.pumps| ==> PumpAhead(w, i)
  }

  /** Nothing that is left of older streams lies beyond the first frame behind `from`. */
  predicate Fits(f: Feed, from: Cursor) {
    Quiet(f.pumps) && AtMost(f.queue, from + 1)
  }

  /** Nothing that is left of older streams lies before `cursor`. */
  predicate Beyond(f: Feed, cursor: Cursor) {
    AtLeast(f.queue, cursor) && forall i :: 0 <= i < |f.pumps| && f.pumps[i].live ==> cursor <= f.pumps[i].next
  }

  predicate IsOpening(s: Step) {
    s.Other? && Opens(s.event)
  }

  /** An opening, by the application or a reopening, leaves older streams between the cursor it stores
      and the first frame of the new stream. */
  predicate StepFits(w: World, s: Step) {
    IsOpening(s) ==>
      var cursor := CursorOf(Next(w, s).mem);
      && (cursor.Some? ==> Beyond(w.feed, cursor.value))
      && (OpenedStream(w.mem, s.event) ==> Fits(w.feed, cursor.GetOr(s.serverStart)))
  }

  lemma DeliverKeepsOrder(w: World, i: nat, content: FrameContent)
    requires Ordered(w)
    ensures Ordered(Next(w, Deliver(i, content)))
  {
    var r := Next(w, Deliver(i, content));
    if r != w {
      assert PumpAhead(w, i);
      forall j | 0 <= j < |r.feed.pumps| ensures PumpAhead(r, j) {
        assert j != i ==> r.feed.pumps[j] == w.feed.pumps[j] && !w.feed.pumps[j].live;
      }
    }
  }

  lemma ExtraKeepsOrder(w: World, content: FrameContent)
    requires Ordered(w)
    ensures Ordered(Next(w, DeliverExtra(content)))
  {
    var r := Next(w, DeliverExtra(content));
    if r != w {
      forall j | 0 <= j < |r.feed.pumps| ensures PumpAhead(r, j) { assert PumpAhead(w, j); }
    }
  }

  lemma AbortKeepsOrder(w: World, i: nat)
    requires Ordered(w)
    ensures Ordered(Next(w, Abort(i)))
  {
    var r := Next(w, Abort(i));
    if r != w {
      forall j | 0 <= j < |r.feed.pumps| ensures PumpAhead(r, j) { assert PumpAhead(w, j); }
    }
  }

  lemma HandleKeepsOrder(w: World, env: Env)
    requires Ordered(w)
    ensures Ordered(Next(w, HandleNext(env)))
  {
    if w.feed.queue != [] {
      var r := Next(w, HandleNext(env));
      FrameCursor(w.mem, w.feed.queue[0].content, env);
      forall j | 0 <= j < |r.feed.pumps| ensures PumpAhead(r, j) { assert PumpAhead(w, j); }
    }
  }

  lemma EventKeepsOrder(w: World, e: Event, start: int)
    requires Ordered(w) && StepFits(w, Other(e, start))
    ensures Ordered(Next(w, Other(e, start)))
  {
    if !e.Frame? {
      var r := Next(w, Other(e, start));
      if !e.OpenStream? { EventCursor(w.mem, e); }
      assert r.feed.queue == w.feed.queue;
      forall j | 0 <= j < |r.feed.pumps| ensures PumpAhead(r, j) {
        if j < |w.feed.pumps| {
          assert PumpAhead(w, j);
          assert r.feed.pumps[j] == w.feed.pumps[j];
        }
      }
    }
  }

  lemma StepKeepsOrder(w: World, s: Step)
    requires Ordered(w) && StepFits(w, s)
    ensures Ordered(Next(w, s))
    ensures !ByUser(s) ==> !Falls(w, s)
  {
    FallsExactly(w, s);
    match s
    case Deliver(i, content) => DeliverKeepsOrder(w, i, content);
    case DeliverExtra(content) => ExtraKeepsOrder(w, content);
    case Abort(i) => AbortKeepsOrder(w, i);
    case HandleNext(env) => HandleKeepsOrder(w, env);
    case Other(e, start) => EventKeepsOrder(w, e, start);
  }

  // ── Over runs ───────────────────────────────────────────────────────────────

  function RunOn(w: World, steps: seq<Step>): World {
    if steps == [] then w else Next(RunOn(w, steps[..|steps| - 1]), steps[|steps| - 1])
  }

  predicate AllFit(w: World, steps: seq<Step>) {
    forall k :: 0 <= k < |steps| ==> StepFits(RunOn(w, steps[..k]), steps[k])
  }

  predicate FallsAt(w: World, steps: seq<Step>, k: nat)
    requires k < |steps|
  {
    !ByUser(steps[k]) && Falls(RunOn(w, steps[..k]), steps[k])
  }

  /** Between openings by the application the cursor never moves backwards. */
  predicate Steady(w: World, steps: seq<Step>) {
    forall k :: 0 <= k < |steps| ==> !FallsAt(w, steps, k)
  }

  lemma {:induction false} RunStaysOrdered(w: World, steps: seq<Step>)
    requires Ordered(w) && AllFit(w, steps)
    ensures Ordered(RunOn(w, steps))
  {
    if steps != [] {
      var n := |steps| - 1;
      assert forall k :: 0 <= k < n ==> steps[..n][..k] == steps[..k];
      RunStaysOrdered(w, steps[..n]);
      StepKeepsOrder(RunOn(w, steps[..n]), steps[n]);
    }
  }

  /** If each opening fits, the cursor never moves backwards between openings by the application. */
  lemma {:induction false} SteadyWhenFitting(w: World, steps: seq<Step>)
    requires Ordered(w) && AllFit(w, steps)
    ensures Steady(w, steps)
  {
    forall k | 0 <= k < |steps| ensures !FallsAt(w, steps, k) {
      assert forall j :: 0 <= j < k ==> steps[..k][..j] == steps[..j];
      RunStaysOrdered(w, steps[..k]);
      StepKeepsOrder(RunOn(w, steps[..k]), steps[k]);
    }
  }

  /** In particular over every run from the start. */
  lemma {:induction false} SteadyFromStart(m: Mem, steps: seq<Step>)
    requires AllFit(Initial(m), steps)
    ensures Steady(Initial(m), steps) && RunOn(Initial(m), steps) == Run(m, steps)
  {
    SteadyWhenFitting(Initial(m), steps);
    RunsAgree(m, steps);
  }

  lemma {:induction false} RunsAgree(m: Mem, steps: seq<Step>)
    ensures RunOn(Initial(m), steps) == Run(m, steps)
  {
    if steps != [] { RunsAgree(m, steps[..|steps| - 1]); }
  }

  // ── Exactly ─────────────────────────────────────────────────────────────────

  predicate NoOpenings(steps: seq<Step>) {
    forall k :: 0 <= k < |steps| ==> !IsOpening(steps[k])
  }

  lemma {:induction false} RunOnPrepend(w: World, s: Step, steps: seq<Step>)
    ensures RunOn(w, [s] + steps) == RunOn(Next(w, s), steps)
  {
    var all := [s] + steps;
    if steps == [] {
      assert all[..0] == [] && RunOn(w, all[..0]) == w;
    } else {
      assert all[..|all| - 1] == [s] + steps[..|steps| - 1];
      RunOnPrepend(w, s, steps[..|steps| - 1]);
    }
  }

  /** An environment in which every call fails. */
  const NO_HELP := Env(false, false, 0, false, false, "")

  predicate Breaks(w: World, steps: seq<Step>) {
    NoOpenings(steps) && !Steady(w, steps)
  }

  lemma PrependFalls(w: World, s: Step, steps: seq<Step>, k: nat)
    requires k < |steps| && FallsAt(Next(w, s), steps, k)
    ensures FallsAt(w, [s] + steps, k + 1)
  {
    var all := [s] + steps;
    assert all[..k + 1] == [s] + steps[..k] && all[k + 1] == steps[k];
    RunOnPrepend(w, s, steps[..k]);
  }

  lemma PrependBreaks(w: World, s: Step, steps: seq<Step>)
    requires !IsOpening(s) && Breaks(Next(w, s), steps)
    ensures Breaks(w, [s] + steps)
  {
    var k :| 0 <= k < |steps| && FallsAt(Next(w, s), steps, k);
    PrependFalls(w, s, steps, k);
  }

  predicate Carries(w: World, i: nat, c: Cursor) {
    i < |w.feed.queue| && Carried(w.feed.queue[i]) == Some(c)
  }

  lemma FallsNow(w: World, s: Step)
    requires Falls(w, s) && s.HandleNext?
    ensures Breaks(w, [s])
  {
    assert [s][..0] == [] && RunOn(w, []) == w;
    assert FallsAt(w, [s], 0);
  }

  /** A queued cursor below the stored one makes it fall, here or before it is handled. */
  lemma {:induction false} LowCursorBreaks(w: World, j: nat, low: Cursor) returns (steps: seq<Step>)
    requires CursorOf(w.mem).Some? && Carries(w, j, low) && low < CursorOf(w.mem).value
    ensures Breaks(w, steps)
    decreases j
  {
    var s := HandleNext(NO_HELP);
    FallsExactly(w, s);
    FrameCursor(w.mem, w.feed.queue[0].content, NO_HELP);
    if Falls(w, s) {
      FallsNow(w, s);
      steps := [s];
    } else {
      steps := LowCursorBreaks(Next(w, s), j - 1, low);
      PrependBreaks(w, s, steps);
      steps := [s] + steps;
    }
  }

  /** So do two queued cursors out of order. */
  lemma {:induction false} DisorderBreaks(w: World, i: nat, high: Cursor, j: nat, low: Cursor)
    returns (steps: seq<Step>)
    requires w.mem.params.Some? && i < j && Carries(w, i, high) && Carries(w, j, low) && low < high
    ensures Breaks(w, steps)
    decreases i
  {
    var s := HandleNext(NO_HELP);
    var r := Next(w, s);
    FrameCursor(w.mem, w.feed.queue[0].content, NO_HELP);
    if i == 0 {
      steps := LowCursorBreaks(r, j - 1, low);
    } else {
      steps := DisorderBreaks(r, i - 1, high, j - 1, low);
    }
    PrependBreaks(w, s, steps);
    steps := [s] + steps;
  }

  function Plain(p: int): FrameContent {
    Read(StreamResponse(Some(p), None))
  }

  /** What delivering a plain frame does. */
  lemma Delivered(w: World, i: nat)
    requires i < |w.feed.pumps| && w.feed.pumps[i].live
    ensures var p, r := w.feed.pumps[i].next, Next(w, Deliver(i, Plain(w.feed.pumps[i].next)));
            && r.mem == w.mem && r.feed.queue == w.feed.queue + [At(p, Plain(p))]
            && r.feed.pumps == w.feed.pumps[i := Pump(p + 1, true)]
  {
  }

  function DeliverNext(w: World, i: nat): Step
    requires i < |w.feed.pumps|
  {
    Deliver(i, Plain(w.feed.pumps[i].next))
  }

  lemma TwoPumpsBreak(w: World, i: nat, j: nat) returns (steps: seq<Step>)
    requires w.mem.params.Some? && i < |w.feed.pumps| && j < |w.feed.pumps| && i != j
    requires w.feed.pumps[i].live && w.feed.pumps[j].live && w.feed.pumps[i].next >= w.feed.pumps[j].next
    ensures Breaks(w, steps)
  {
    var n, len := w.feed.pumps[i].next, |w.feed.queue|;
    var s1 := DeliverNext(w, i);
    Delivered(w, i);
    var w1 := Next(w, s1);
    var s2 := DeliverNext(w1, i);
    Delivered(w1, i);
    var w2 := Next(w1, s2);
    var s3 := DeliverNext(w2, j);
    Delivered(w2, j);
    var w3 := Next(w2, s3);
    assert Carries(w3, len + 1, n + 1) && Carries(w3, len + 2, w.feed.pumps[j].next);
    steps := DisorderBreaks(w3, len + 1, n + 1, len + 2, w.feed.pumps[j].next);
    PrependBreaks(w2, s3, steps);
    PrependBreaks(w1, s2, [s3] + steps);
    PrependBreaks(w, s1, [s2] + ([s3] + steps));
    steps := [s1] + ([s2] + ([s3] + steps));
  }

  lemma QueuedBreaks(w: World, j: nat, i: nat, high: Cursor) returns (steps: seq<Step>)
    requires w.mem.params.Some? && j < |w.feed.pumps| && w.feed.pumps[j].live
    requires Carries(w, i, high) && w.feed.pumps[j].next < high
    ensures Breaks(w, steps)
  {
    var s := DeliverNext(w, j);
    Delivered(w, j);
    var r := Next(w, s);
    assert Carries(r, i, high) && Carries(r, |w.feed.queue|, w.feed.pumps[j].next);
    steps := DisorderBreaks(r, i, high, |w.feed.queue|, w.feed.pumps[j].next);
    PrependBreaks(w, s, steps);
    steps := [s] + steps;
  }

  /** What an opening does to cursor, queue and pumps. */
  lemma Reopened(w: World, s: Step)
    requires IsOpening(s)
    ensures var r, cursor := Next(w, s), CursorOf(Next(w, s).mem);
            && (cursor.Some? || OpenedStream(w.mem, s.event) ==> r.mem.params.Some?)
            && r.feed.queue == w.feed.queue
            && r.feed.pumps == w.feed.pumps + if OpenedStream(w.mem, s.event)
                                              then [Pump(cursor.GetOr(s.serverStart) + 1, true)] else []
  {
    if !s.event.OpenStream? { EventCursor(w.mem, s.event); }
  }

  /** Something older lies before the cursor stored last. */
  lemma NotBeyondBreaks(w: World) returns (steps: seq<Step>)
    requires CursorOf(w.mem).Some? && !Beyond(w.feed, CursorOf(w.mem).value)
    ensures Breaks(w, steps)
  {
    var cursor := CursorOf(w.mem).value;
    if i :| 0 <= i < |w.feed.queue| && Carried(w.feed.queue[i]).Some? && Carried(w.feed.queue[i]).value < cursor {
      steps := LowCursorBreaks(w, i, Carried(w.feed.queue[i]).value);
    } else {
      var i :| 0 <= i < |w.feed.pumps| && w.feed.pumps[i].live && w.feed.pumps[i].next < cursor;
      var s := DeliverNext(w, i);
      Delivered(w, i);
      assert Carries(Next(w, s), |w.feed.queue|, w.feed.pumps[i].next);
      steps := LowCursorBreaks(Next(w, s), |w.feed.queue|, w.feed.pumps[i].next);
      PrependBreaks(w, s, steps);
      steps := [s] + steps;
    }
  }

  /** A new stream behind `from` beside something older that does not fit in front of it. */
  lemma NotFittingBreaks(w: World, older: Feed, from: Cursor) returns (steps: seq<Step>)
    requires w.mem.params.Some? && w.feed.queue == older.queue && w.feed.pumps == older.pumps + [Pump(from + 1, true)]
    requires !Fits(older, from)
    ensures Breaks(w, steps)
  {
    var count := |older.pumps|;
    if i :| 0 <= i < count && older.pumps[i].live {
      assert w.feed.pumps[i] == older.pumps[i];
      if older.pumps[i].next >= from + 1 {
        steps := TwoPumpsBreak(w, i, count);
      } else {
        steps := TwoPumpsBreak(w, count, i);
      }
    } else {
      var i :| 0 <= i < |w.feed.queue| && Carried(w.feed.queue[i]).Some? && Carried(w.feed.queue[i]).value > from + 1;
      steps := QueuedBreaks(w, count, i, Carried(w.feed.queue[i]).value);
    }
  }

  /** After an opening, by the application or not, and successful or not, the cursor stays in order for
      every continuation up to the next opening exactly if the opening fits. */
  lemma OpeningSteadyExactly(w: World, s: Step)
    requires Ordered(w) && IsOpening(s)
    ensures (forall steps :: NoOpenings(steps) ==> Steady(Next(w, s), steps)) <==> StepFits(w, s)
  {
    var r := Next(w, s);
    var cursor := CursorOf(r.mem);
    Reopened(w, s);
    if StepFits(w, s) {
      StepKeepsOrder(w, s);
      forall steps | NoOpenings(steps) ensures Steady(r, steps) {
        SteadyWhenFitting(r, steps);
      }
    } else if OpenedStream(w.mem, s.event) && !Fits(w.feed, cursor.GetOr(s.serverStart)) {
      var steps := NotFittingBreaks(r, w.feed, cursor.GetOr(s.serverStart));
    } else {
      assert !Beyond(r.feed, cursor.value) by { PumpsRemain(w.feed, r.feed, cursor.value); }
      var steps := NotBeyondBreaks(r);
    }
  }

  lemma PumpsRemain(older: Feed, f: Feed, cursor: Cursor)
    requires f.queue == older.queue && older.pumps <= f.pumps && !Beyond(older, cursor)
    ensures !Beyond(f, cursor)
  {
    if i :| 0 <= i < |older.pumps| && older.pumps[i].live && older.pumps[i].next < cursor {
      assert f.pumps[i] == older.pumps[i];
    }
  }

  // ── A concrete run ──────────────────────────────────────────────────────────

  /** Two pumps feed the queue after a reopening; the second repeats position 5. */
  const OVERLAP: seq<Step> :=
    [Other(OpenStream([], Some(4), true), 0), Deliver(0, Plain(5)), Deliver(0, Plain(6)),
     Other(Reopen(true), 0), Deliver(1, Plain(5))]

  lemma OverlapStart(m: Mem) returns (w3: World)
    ensures w3 == Next(Next(Next(Initial(m), OVERLAP[0]), OVERLAP[1]), OVERLAP[2])
    ensures w3.feed.queue == [At(5, Plain(5)), At(6, Plain(6))] && w3.feed.pumps == [Pump(7, true)]
    ensures CursorOf(w3.mem) == Some(4) && w3.mem.params.Some?
  {
    w3 := Next(Next(Next(Initial(m), OVERLAP[0]), OVERLAP[1]), OVERLAP[2]);
  }

  lemma OverlapQueue(m: Mem)
    ensures var w := Run(m, OVERLAP);
            w.feed.queue == [At(5, Plain(5)), At(6, Plain(6)), At(5, Plain(5))] && CursorOf(w.mem) == Some(4)
  {
    assert OVERLAP[..5] == OVERLAP && OVERLAP[..0] == [];
    assert OVERLAP[..1][..0] == OVERLAP[..0] && OVERLAP[..2][..1] == OVERLAP[..1];
    assert OVERLAP[..3][..2] == OVERLAP[..2];
    assert OVERLAP[..4][..3] == OVERLAP[..3] && OVERLAP[..5][..4] == OVERLAP[..4];
    var w3 := OverlapStart(m);
    assert Run(m, OVERLAP[..1]) == Next(Initial(m), OVERLAP[0]);
    assert Run(m, OVERLAP[..3]) == w3;
    assert Run(m, OVERLAP) == Next(Next(w3, OVERLAP[3]), OVERLAP[4]);
    OverlapEnd(w3);
  }

  lemma OverlapEnd(w3: World)
    requires w3.feed.queue == [At(5, Plain(5)), At(6, Plain(6))] && w3.feed.pumps == [Pump(7, true)]
    requires CursorOf(w3.mem) == Some(4) && w3.mem.params.Some?
    ensures var w := Next(Next(w3, OVERLAP[3]), OVERLAP[4]);
            w.feed.queue == [At(5, Plain(5)), At(6, Plain(6)), At(5, Plain(5))] && CursorOf(w.mem) == Some(4)
  {
    assert Next(w3, OVERLAP[3]).feed.pumps[1] == Pump(5, true);
  }

  /** The cursor is not monotone: it can return to a position it has already passed. */
  lemma CursorCanMoveBack(m: Mem, env: Env)
    ensures var w := Run(m, OVERLAP);
            var w2 := Next(Next(w, HandleNext(env)), HandleNext(env));
            CursorOf(w2.mem) == Some(6) && CursorOf(Next(w2, HandleNext(env)).mem) == Some(5)
  {
    OverlapQueue(m);
    var w := Run(m, OVERLAP);
    FrameCursor(w.mem, Plain(5), env);
    var w1 := Next(w, HandleNext(env));
    assert w1.feed.queue == [At(6, Plain(6)), At(5, Plain(5))];
    FrameCursor(w1.mem, Plain(6), env);
    var w2 := Next(w1, HandleNext(env));
    assert w2.feed.queue == [At(5, Plain(5))];
    FrameCursor(w2.mem, Plain(5), env);
  }
}

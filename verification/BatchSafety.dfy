/** What a background batch saves and reports (src/engine.rs:1502-1659). */
module BatchSafety {
  import opened Wrappers
  import opened EngineSpec
  import opened BackgroundPush
  import opened CrashSafety
  import opened Visible

  // ── The save ────────────────────────────────────────────────────────────────

  lemma LastEvent(m: Mem, events: seq<Event>, e: Event)
    ensures var before := HandleAll(m, events);
            var last := Handle(before.mem, e);
            HandleAll(m, events + [e]) == Outcome(last.mem, before.effects + last.effects)
  {
    assert (events + [e])[..|events|] == events;
  }

  function Saved(m: Mem, exportOk: bool): seq<Effect> {
    if exportOk && m.core.Some? then [Save(m.core.value)] else []
  }

  /** The batch ends with one save of the final state, between the effects of the messages and the
      completion, unless there is no core or the export fails. */
  lemma SaveComesLast(m: Mem, server: Server, since: Option<nat>, left: nat, exportOk: bool)
    requires Ends(server, 0, since, left)
    ensures var o := Push(m, server, since, left, exportOk);
            var work := HandleAll(m, AsEvents(Fetched(server, 0, since, left).0));
            && o.mem == work.mem && |o.effects| > |work.effects|
            && var done := o.effects[|o.effects| - 1];
               && done.BackgroundDone?
               && o.effects == work.effects + Saved(o.mem, exportOk) + [done]
  {
    var (messages, complete) := Fetched(server, 0, since, left);
    PushIsRun(m, server, since, left, exportOk);
    RunThenEnd(m, AsEvents(messages), exportOk, Reported(m, messages) % U32, Faulty(m, messages) || !complete);
  }

  lemma RunThenEnd(m: Mem, events: seq<Event>, exportOk: bool, decrypted: nat, hadErrors: bool)
    ensures var work := HandleAll(m, events);
            HandleAll(m, events + [PendingEnd(exportOk, decrypted, hadErrors)])
            == Outcome(work.mem, work.effects + Saved(work.mem, exportOk) + [BackgroundDone(decrypted, hadErrors)])
  {
    LastEvent(m, events, PendingEnd(exportOk, decrypted, hadErrors));
    EndLaw(HandleAll(m, events).mem, exportOk, decrypted, hadErrors);
  }

  lemma EndLaw(m: Mem, exportOk: bool, decrypted: nat, hadErrors: bool)
    ensures var o := Handle(m, PendingEnd(exportOk, decrypted, hadErrors));
            && o.mem == m
            && o.effects == Saved(m, exportOk) + [BackgroundDone(decrypted, hadErrors)]
  {
  }

  /** So after a batch whose export succeeds, every receive key it used up is in the keychain. */
  lemma BatchIsDurable(m: Mem, server: Server, since: Option<nat>, left: nat, log: Log)
    requires Ends(server, 0, since, left)
    ensures var o := Push(m, server, since, left, true);
            o.mem.core.Some? ==>
              && Durable(log + o.effects) == o.mem.core
              && ConsumedBy(o.mem) == Durable(log + o.effects).value.consumed
  {
    var o := Push(m, server, since, left, true);
    SaveComesLast(m, server, since, left, true);
    if o.mem.core.Some? {
      var work := HandleAll(m, AsEvents(Fetched(server, 0, since, left).0)).effects;
      var tail := [Save(o.mem.core.value), o.effects[|o.effects| - 1]];
      assert o.effects == work + tail;
      assert log + o.effects == (log + work) + tail;
      DurableAppend(log + work, tail, o.mem.core);
      assert tail[0].Save?;
    }
  }

  // ── The report ──────────────────────────────────────────────────────────────

  /** The message counts as decrypted: any session start, and what is decrypted. */
  predicate CountsDue(m: Mem, p: Pending) {
    var a := Brings(PendingMessage(p));
    a.Some? && (IsStart(a.value) || Opened(m, a.value))
  }

  /** The message is an error: it cannot be unpacked, or is no session start and cannot be decrypted. */
  predicate ErrorDue(m: Mem, p: Pending) {
    var a := Brings(PendingMessage(p));
    p.relevant && (p.payload.Garbage? || (a.Some? && !IsStart(a.value) && !Opened(m, a.value)))
  }

  function TallyDue(m: Mem, messages: seq<Pending>): (r: (nat, bool)) {
    if messages == [] then (0, false)
    else
      var init, p := messages[..|messages| - 1], messages[|messages| - 1];
      var before, at := TallyDue(m, init), HandleAll(m, AsEvents(init)).mem;
      (before.0 + (if CountsDue(at, p) then 1 else 0), before.1 || ErrorDue(at, p))
  }

  lemma OneMessageTally(b: Batch, p: Pending)
    ensures Add(b, p).decrypted == b.decrypted + (if CountsDue(b.mem, p) then 1 else 0)
    ensures Add(b, p).hadErrors == (b.hadErrors || ErrorDue(b.mem, p))
  {
  }

  lemma {:induction false} BatchTally(m: Mem, messages: seq<Pending>)
    ensures var b := Process(m, messages); (b.decrypted, b.hadErrors) == TallyDue(m, messages)
  {
    if messages != [] {
      var init := messages[..|messages| - 1];
      BatchTally(m, init);
      ProcessIsRun(m, init);
      OneMessageTally(Process(m, init), messages[|messages| - 1]);
    }
  }

  /** All pages up to the call `k`. */
  function PagesTo(server: Server, call: nat, cursor: Option<nat>, k: nat): seq<Pending>
    decreases k
  {
    var r := server(call, cursor);
    var here := if r.Page? then r.messages else [];
    if k == 0 then here else here + PagesTo(server, call + 1, if r.Page? then r.next else None, k - 1)
  }

  /** What was fetched: all pages up to the first last reply, completely exactly if that is a page. */
  lemma {:induction false} FetchedToLast(server: Server, call: nat, cursor: Option<nat>, left: nat) returns (k: nat)
    requires Ends(server, call, cursor, left)
    ensures LastAt(server, call, cursor, k) && forall j: nat :: j < k ==> !LastAt(server, call, cursor, j)
    ensures Fetched(server, call, cursor, left)
            == (PagesTo(server, call, cursor, k), server(call + k, CursorAt(server, call, cursor, k)).Page?)
    decreases left
  {
    var r := server(call, cursor);
    if Last(r) {
      k := 0;
      assert r.Page? ==> Fetched(server, call, cursor, left) == (r.messages, true);
    } else {
      var rest := FetchedToLast(server, call + 1, r.next, left - 1);
      k := rest + 1;
      assert call + 1 + rest == call + k;
      forall j: nat | j < k ensures !LastAt(server, call, cursor, j) {
        if j > 0 {
          assert call + 1 + (j - 1) == call + j;
          assert !LastAt(server, call + 1, r.next, j - 1);
        }
      }
    }
  }

  /** The completion notice: the count, as a 32-bit number, and whether anything failed, a fetch included. */
  lemma PushReports(m: Mem, server: Server, since: Option<nat>, left: nat, exportOk: bool)
    requires Ends(server, 0, since, left)
    ensures var (messages, complete) := Fetched(server, 0, since, left);
            var o, tally := Push(m, server, since, left, exportOk), TallyDue(m, messages);
            |o.effects| > 0 && o.effects[|o.effects| - 1] == BackgroundDone(tally.0 % 4294967296, tally.1 || !complete)
  {
    BatchTally(m, Fetched(server, 0, since, left).0);
    PushIsRun(m, server, since, left, exportOk);
    BatchReport(m, Fetched(server, 0, since, left).0);
  }
}

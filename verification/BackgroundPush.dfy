/** The background batch (src/engine.rs:1502-1659): pages of pending messages are fetched and
    processed until the server has no more. */
module BackgroundPush {
  import opened Wrappers
  import opened Protocol
  import opened Ratchet
  import opened EngineSpec

  /** A reply of the server; `NoPage` is a failed call or an undecodable answer. */
  datatype Reply = Page(messages: seq<Pending>, next: Option<nat>, more: bool) | NoPage

  /** The answer to a call of the batch, by the number of the call and the cursor it asks for. */
  type Server = (nat, Option<nat>) -> Reply

  const U32: nat := 0x1_0000_0000

  predicate Last(r: Reply) {
    r.NoPage? || !r.more
  }

  /** From this call and cursor on, the paging ends within `left` calls. */
  predicate Ends(server: Server, call: nat, cursor: Option<nat>, left: nat)
    decreases left
  {
    && left > 0
    && var r := server(call, cursor);
       Last(r) || Ends(server, call + 1, r.next, left - 1)
  }

  /** The messages of all pages, and whether the server said that there are no more. */
  function Fetched(server: Server, call: nat, cursor: Option<nat>, left: nat): (r: (seq<Pending>, bool))
    requires Ends(server, call, cursor, left)
    decreases left
  {
    match server(call, cursor)
    case NoPage => ([], false)
    case Page(messages, next, more) =>
      if !more then (messages, true)
      else
        var rest := Fetched(server, call + 1, next, left - 1);
        (messages + rest.0, rest.1)
  }

  /** What was fetched so far and what is still to come make up all of it. */
  predicate Remaining(server: Server, call: nat, cursor: Option<nat>, left: nat,
                      fetched: seq<Pending>, all: seq<Pending>, complete: bool) {
    && Ends(server, call, cursor, left)
    && var rest := Fetched(server, call, cursor, left);
       fetched + rest.0 == all && rest.1 == complete
  }

  lemma PageTaken(server: Server, call: nat, cursor: Option<nat>, left: nat,
                  fetched: seq<Pending>, all: seq<Pending>, complete: bool)
    requires Remaining(server, call, cursor, left, fetched, all, complete) && server(call, cursor).Page?
    ensures var r := server(call, cursor);
            if r.more then Remaining(server, call + 1, r.next, left - 1, fetched + r.messages, all, complete)
            else complete && all == fetched + r.messages
  {
    var r := server(call, cursor);
    if r.more {
      var rest := Fetched(server, call + 1, r.next, left - 1);
      assert fetched + (r.messages + rest.0) == fetched + r.messages + rest.0;
    }
  }

  // ── When the paging ends ────────────────────────────────────────────────────

  /** The cursor that the call `k` after this one asks for. */
  function CursorAt(server: Server, call: nat, cursor: Option<nat>, k: nat): Option<nat>
    decreases k
  {
    if k == 0 then cursor
    else
      var r := server(call, cursor);
      CursorAt(server, call + 1, if r.Page? then r.next else None, k - 1)
  }

  predicate LastAt(server: Server, call: nat, cursor: Option<nat>, k: nat) {
    Last(server(call + k, CursorAt(server, call, cursor, k)))
  }

  ghost predicate EndsSometime(server: Server, call: nat, cursor: Option<nat>) {
    exists left: nat :: Ends(server, call, cursor, left)
  }

  lemma EndsAtLast(server: Server, call: nat, cursor: Option<nat>)
    ensures EndsSometime(server, call, cursor) <==> exists k: nat :: LastAt(server, call, cursor, k)
  {
    if EndsSometime(server, call, cursor) {
      var left: nat :| Ends(server, call, cursor, left);
      var k := LastCall(server, call, cursor, left);
      assert LastAt(server, call, cursor, k);
    }
    if k: nat :| LastAt(server, call, cursor, k) {
      EndsBy(server, call, cursor, k);
      assert Ends(server, call, cursor, k + 1);
    }
  }

  lemma {:induction false} LastCall(server: Server, call: nat, cursor: Option<nat>, left: nat) returns (k: nat)
    requires Ends(server, call, cursor, left)
    ensures LastAt(server, call, cursor, k)
    decreases left
  {
    if Last(server(call, cursor)) {
      k := 0;
    } else {
      var rest := LastCall(server, call + 1, server(call, cursor).next, left - 1);
      k := rest + 1;
      assert call + 1 + rest == call + k;
    }
  }

  lemma {:induction false} EndsBy(server: Server, call: nat, cursor: Option<nat>, k: nat)
    requires LastAt(server, call, cursor, k)
    ensures Ends(server, call, cursor, k + 1)
    decreases k
  {
    if k > 0 && !Last(server(call, cursor)) {
      assert call + 1 + (k - 1) == call + k;
      EndsBy(server, call + 1, server(call, cursor).next, k - 1);
    }
  }

  // ── A server that answers by the cursor alone ───────────────────────────────

  ghost predicate ByCursor(server: Server) {
    forall j: nat, k: nat, c :: server(j, c) == server(k, c)
  }

  /** All the cursors that the server hands out. */
  ghost predicate HandsOut(server: Server, cursors: set<Option<nat>>) {
    forall k: nat, c :: server(k, c).Page? ==> server(k, c).next in cursors
  }

  /** Call `j` asks for the cursor that call `i` asked for, and no reply before it was the last. */
  predicate Repeats(server: Server, cursor: Option<nat>, i: nat, j: nat) {
    && i < j && CursorAt(server, 0, cursor, i) == CursorAt(server, 0, cursor, j)
    && forall k :: 0 <= k < j ==> !LastAt(server, 0, cursor, k)
  }

  lemma {:induction false} CursorNext(server: Server, call: nat, cursor: Option<nat>, k: nat)
    ensures var r := server(call + k, CursorAt(server, call, cursor, k));
            CursorAt(server, call, cursor, k + 1) == if r.Page? then r.next else None
    decreases k
  {
    if k > 0 {
      var r := server(call, cursor);
      assert call + 1 + (k - 1) == call + k;
      CursorNext(server, call + 1, if r.Page? then r.next else None, k - 1);
    }
  }

  /** From a repeated cursor on, the calls repeat. */
  lemma {:induction false} Periodic(server: Server, cursor: Option<nat>, i: nat, j: nat, m: nat)
    requires ByCursor(server) && CursorAt(server, 0, cursor, i) == CursorAt(server, 0, cursor, j)
    ensures CursorAt(server, 0, cursor, i + m) == CursorAt(server, 0, cursor, j + m)
  {
    if m > 0 {
      Periodic(server, cursor, i, j, m - 1);
      CursorNext(server, 0, cursor, i + m - 1);
      CursorNext(server, 0, cursor, j + m - 1);
    }
  }

  lemma {:induction false} RepeatNeverLast(server: Server, cursor: Option<nat>, i: nat, j: nat, k: nat)
    requires ByCursor(server) && Repeats(server, cursor, i, j)
    ensures !LastAt(server, 0, cursor, k)
    decreases k
  {
    if k >= j {
      Periodic(server, cursor, i, j, k - j);
      RepeatNeverLast(server, cursor, i, j, k - (j - i));
    }
  }

  function CursorsFrom1(server: Server, cursor: Option<nat>, n: nat): (r: seq<Option<nat>>)
    ensures |r| == n && forall k :: 0 <= k < n ==> r[k] == CursorAt(server, 0, cursor, k + 1)
  {
    seq(n, k requires 0 <= k < n => CursorAt(server, 0, cursor, k + 1))
  }

  lemma {:induction false} DistinctFit(s: seq<Option<nat>>, all: set<Option<nat>>)
    requires forall i, j :: 0 <= i < j < |s| ==> s[i] != s[j]
    requires forall i :: 0 <= i < |s| ==> s[i] in all
    ensures |s| <= |all|
  {
    if s != [] { DistinctFit(s[..|s| - 1], all - {s[|s| - 1]}); }
  }

  /** Among more calls than there are cursors one is the last, or a cursor is repeated. */
  lemma LastOrRepeat(server: Server, cursor: Option<nat>, cursors: set<Option<nat>>)
    requires HandsOut(server, cursors)
    requires forall k: nat :: !LastAt(server, 0, cursor, k)
    ensures exists i, j :: Repeats(server, cursor, i, j)
  {
    var s := CursorsFrom1(server, cursor, |cursors| + 1);
    forall k | 0 <= k < |s| ensures s[k] in cursors {
      assert !LastAt(server, 0, cursor, k);
      CursorNext(server, 0, cursor, k);
    }
    if forall i, j :: 0 <= i < j < |s| ==> s[i] != s[j] {
      DistinctFit(s, cursors);
    } else {
      var i, j :| 0 <= i < j < |s| && s[i] == s[j];
      assert Repeats(server, cursor, i + 1, j + 1);
    }
  }

  /** A server that answers by the cursor, and knows finitely many of them, is asked forever exactly if
      it repeats a cursor while it announces more. */
  lemma EndsUnlessRepeated(server: Server, cursor: Option<nat>, cursors: set<Option<nat>>)
    requires ByCursor(server) && HandsOut(server, cursors)
    ensures EndsSometime(server, 0, cursor) <==> !exists i, j :: Repeats(server, cursor, i, j)
  {
    EndsAtLast(server, 0, cursor);
    if i, j :| Repeats(server, cursor, i, j) {
      forall k: nat ensures !LastAt(server, 0, cursor, k) { RepeatNeverLast(server, cursor, i, j, k); }
    } else if forall k: nat :: !LastAt(server, 0, cursor, k) {
      LastOrRepeat(server, cursor, cursors);
    }
  }

  /** More to come behind an empty cursor: the next call starts over. */
  const RESTARTING: Server := (call, cursor) => Page([], None, true)

  /** This server is asked forever, wherever the batch starts. */
  lemma AskedForever(since: Option<nat>)
    ensures !EndsSometime(RESTARTING, 0, since)
  {
    assert CursorAt(RESTARTING, 0, since, 1) == CursorAt(RESTARTING, 1, None, 0);
    CursorNext(RESTARTING, 0, since, 1);
    assert Repeats(RESTARTING, since, 1, 2);
    EndsUnlessRepeated(RESTARTING, since, {None});
  }

  // ── A server whose cursor advances ──────────────────────────────────────────

  function Position(cursor: Option<nat>): nat {
    cursor.GetOr(0)
  }

  predicate GoodPage(r: Reply, pending: seq<Pending>, at: nat)
    requires at <= |pending|
  {
    r.Page? ==>
      if r.more then r.next.Some? && at < r.next.value <= |pending| && r.messages == pending[at..r.next.value]
      else r.messages == pending[at..]
  }

  /** The server holds `pending`; each page is the stretch behind its cursor, the cursor advances
      while there is more, and any call may fail. */
  ghost predicate Serves(server: Server, pending: seq<Pending>) {
    forall k: nat, c :: Position(c) <= |pending| ==> GoodPage(server(k, c), pending, Position(c))
  }

  /** Then the paging ends, and fetches each message behind the cursor once and in order: all of them,
      or those before the call that failed. */
  lemma {:induction false} AdvancingServerEnds(server: Server, pending: seq<Pending>, call: nat, cursor: Option<nat>,
                                               left: nat)
    requires Serves(server, pending) && Position(cursor) <= |pending| && left > |pending| - Position(cursor)
    ensures Ends(server, call, cursor, left)
    ensures var (messages, complete) := Fetched(server, call, cursor, left);
            && messages <= pending[Position(cursor)..]
            && (complete ==> messages == pending[Position(cursor)..])
    decreases left
  {
    var r, at := server(call, cursor), Position(cursor);
    assert GoodPage(r, pending, at);
    if !Last(r) {
      AdvancingServerEnds(server, pending, call + 1, r.next, left - 1);
      assert pending[at..] == pending[at..r.next.value] + pending[r.next.value..];
    }
  }

  // ── Processing ──────────────────────────────────────────────────────────────

  datatype Batch = Batch(mem: Mem, effects: seq<Effect>, decrypted: nat, hadErrors: bool)

  /** Session starts count as decrypted whatever became of them. */
  function Counts(c: Class): bool {
    c.SessionStart? || c.Decrypted?
  }

  function Errs(c: Class): bool {
    c.NotUnpacked? || c.Undecrypted?
  }

  function Add(b: Batch, p: Pending): Batch {
    var o, c := ReceivePending(b.mem, p), Classify(b.mem, p);
    Batch(o.mem, b.effects + o.effects, b.decrypted + (if Counts(c) then 1 else 0), b.hadErrors || Errs(c))
  }

  function AddAll(b: Batch, messages: seq<Pending>): Batch {
    if messages == [] then b else Add(AddAll(b, messages[..|messages| - 1]), messages[|messages| - 1])
  }

  function Process(m: Mem, messages: seq<Pending>): Batch {
    AddAll(Batch(m, [], 0, false), messages)
  }

  lemma {:induction false} AddAllAppend(b: Batch, first: seq<Pending>, second: seq<Pending>)
    ensures AddAll(b, first + second) == AddAll(AddAll(b, first), second)
  {
    if second == [] {
      assert first + second == first;
    } else {
      var all := first + second;
      assert all[..|all| - 1] == first + second[..|second| - 1];
      AddAllAppend(b, first, second[..|second| - 1]);
    }
  }

  /** The whole batch: the messages in order, one save, one completion notice. The counter is a `u32`. */
  function Push(m: Mem, server: Server, since: Option<nat>, left: nat, exportOk: bool): Outcome
    requires Ends(server, 0, since, left)
  {
    var (messages, complete) := Fetched(server, 0, since, left);
    var b := Process(m, messages);
    var o := EndBatch(b.mem, exportOk, b.decrypted % U32, b.hadErrors || !complete);
    Outcome(o.mem, b.effects + o.effects)
  }

  // ── What a batch reports ────────────────────────────────────────────────────

  /** The fate of each message, in the state in which it is reached. */
  function Fates(m: Mem, messages: seq<Pending>): (r: seq<Class>)
    ensures |r| == |messages|
  {
    if messages == [] then []
    else
      var init := messages[..|messages| - 1];
      Fates(m, init) + [Classify(Process(m, init).mem, messages[|messages| - 1])]
  }

  function CountOf(fates: seq<Class>, c: Class): nat {
    if fates == [] then 0
    else CountOf(fates[..|fates| - 1], c) + if fates[|fates| - 1] == c then 1 else 0
  }

  lemma CountOfAppend(fates: seq<Class>, last: Class, c: Class)
    ensures CountOf(fates + [last], c) == CountOf(fates, c) + if last == c then 1 else 0
  {
    assert (fates + [last])[..|fates|] == fates;
  }

  /** Messages reported as decrypted. */
  function Reported(m: Mem, messages: seq<Pending>): nat {
    CountOf(Fates(m, messages), SessionStart) + CountOf(Fates(m, messages), Decrypted)
  }

  predicate Faulty(m: Mem, messages: seq<Pending>) {
    NotUnpacked in Fates(m, messages) || Undecrypted in Fates(m, messages)
  }

  /** Every message falls into one class; the report is exact about them. */
  lemma {:induction false} BatchReport(m: Mem, messages: seq<Pending>)
    ensures var b, fates := Process(m, messages), Fates(m, messages);
            && b.decrypted == Reported(m, messages)
            && b.hadErrors == Faulty(m, messages)
            && |messages| == CountOf(fates, Skipped) + CountOf(fates, NotUnpacked) + CountOf(fates, SessionStart)
                             + CountOf(fates, Decrypted) + CountOf(fates, Undecrypted)
  {
    if messages != [] {
      var init, last := messages[..|messages| - 1], messages[|messages| - 1];
      var before, c := Fates(m, init), Classify(Process(m, init).mem, last);
      BatchReport(m, init);
      assert Fates(m, messages) == before + [c];
      FateJoins(before, c);
    }
  }

  lemma FateJoins(before: seq<Class>, c: Class)
    ensures forall d: Class :: CountOf(before + [c], d) == CountOf(before, d) + if c == d then 1 else 0
    ensures forall d: Class :: d in before + [c] <==> d in before || d == c
  {
    forall d: Class ensures CountOf(before + [c], d) == CountOf(before, d) + if c == d then 1 else 0 {
      CountOfAppend(before, c, d);
    }
  }

  // ── Which messages really were decrypted ────────────────────────────────────

  predicate StartFails(m: Mem, p: Pending) {
    Classify(m, p).SessionStart? && !TryFirst(m, AsIncoming(p), p.env).Accepted?
  }

  function FailedStarts(m: Mem, messages: seq<Pending>): nat {
    if messages == [] then 0
    else
      var init := messages[..|messages| - 1];
      FailedStarts(m, init) + if StartFails(Process(m, init).mem, messages[|messages| - 1]) then 1 else 0
  }

  function ConsumedBy(m: Mem): set<ReceiveKey> {
    if m.core.Some? then m.core.value.consumed else {}
  }

  /** The counter overstates: it is the number of receive keys used up plus the number of session
      starts that failed, and so equals the former exactly when no start failed. */
  lemma {:induction false} DecryptedCountOverstates(m: Mem, messages: seq<Pending>)
    ensures var b := Process(m, messages);
            && b.mem.core.Some? == m.core.Some?
            && |ConsumedBy(b.mem)| + FailedStarts(m, messages) == |ConsumedBy(m)| + b.decrypted
  {
    if messages != [] {
      var init, last := messages[..|messages| - 1], messages[|messages| - 1];
      DecryptedCountOverstates(m, init);
      OneMessageConsumes(Process(m, init).mem, last);
    }
  }

  lemma StartConsumes(m: Mem, msg: Incoming, env: Env)
    ensures var o := RespondFirst(m, msg, env);
            && o.mem.core.Some? == m.core.Some?
            && |ConsumedBy(o.mem)| == |ConsumedBy(m)| + if TryFirst(m, msg, env).Accepted? then 1 else 0
  {
    if TryFirst(m, msg, env).Accepted? {
      assert ConsumedBy(RespondFirst(m, msg, env).mem) == ConsumedBy(m) + {KeyOf(msg.sender, msg.payload)};
    }
  }

  lemma OneMessageConsumes(m: Mem, p: Pending)
    ensures var o := ReceivePending(m, p);
            && o.mem.core.Some? == m.core.Some?
            && |ConsumedBy(o.mem)| == |ConsumedBy(m)| + if Counts(Classify(m, p)) && !StartFails(m, p) then 1 else 0
  {
    match Classify(m, p)
    case SessionStart => StartConsumes(m, AsIncoming(p), p.env);
    case Decrypted => assert ConsumedBy(ReceivePending(m, p).mem) == ConsumedBy(m) + {KeyOf(p.sender, p.payload)};
    case _ =>
  }

  // ── The batch as a run of the engine ────────────────────────────────────────

  function AsEvents(messages: seq<Pending>): seq<Event> {
    seq(|messages|, i requires 0 <= i < |messages| => PendingMessage(messages[i]))
  }

  lemma {:induction false} ProcessIsRun(m: Mem, messages: seq<Pending>)
    ensures HandleAll(m, AsEvents(messages)) == Outcome(Process(m, messages).mem, Process(m, messages).effects)
  {
    if messages != [] {
      var events := AsEvents(messages);
      assert events[..|events| - 1] == AsEvents(messages[..|messages| - 1]);
      ProcessIsRun(m, messages[..|messages| - 1]);
    }
  }

  function Completions(effects: seq<Effect>): nat {
    if effects == [] then 0
    else Completions(effects[..|effects| - 1]) + if effects[|effects| - 1].BackgroundDone? then 1 else 0
  }

  lemma {:induction false} CompletionsAppend(a: seq<Effect>, b: seq<Effect>)
    ensures Completions(a + b) == Completions(a) + Completions(b)
  {
    if b == [] {
      assert a + b == a;
    } else {
      assert (a + b)[..|a + b| - 1] == a + b[..|b| - 1];
      CompletionsAppend(a, b[..|b| - 1]);
    }
  }

  lemma {:induction false} NoCompletion(effects: seq<Effect>)
    requires forall i :: 0 <= i < |effects| ==> !effects[i].BackgroundDone?
    ensures Completions(effects) == 0
  {
    if effects != [] { NoCompletion(effects[..|effects| - 1]); }
  }

  lemma {:induction false} ProcessNeverCompletes(m: Mem, messages: seq<Pending>)
    ensures Completions(Process(m, messages).effects) == 0
  {
    if messages != [] {
      var before := Process(m, messages[..|messages| - 1]);
      ProcessNeverCompletes(m, messages[..|messages| - 1]);
      var more := ReceivePending(before.mem, messages[|messages| - 1]).effects;
      NoCompletion(more);
      CompletionsAppend(before.effects, more);
    }
  }

  lemma EndCompletesOnce(m: Mem, exportOk: bool, decrypted: nat, hadErrors: bool)
    ensures Completions(EndBatch(m, exportOk, decrypted, hadErrors).effects) == 1
  {
    var saves := if m.core.Some? then SaveIf(exportOk, m.core.value) else [];
    var done := [BackgroundDone(decrypted, hadErrors)];
    assert done[..0] == [] && Completions(done) == 1;
    NoCompletion(saves);
    CompletionsAppend(saves, done);
  }

  lemma EndedBatch(m: Mem, messages: seq<Pending>, exportOk: bool, decrypted: nat, hadErrors: bool)
    ensures var b := Process(m, messages);
            var end := EndBatch(b.mem, exportOk, decrypted, hadErrors);
            var o := Outcome(end.mem, b.effects + end.effects);
            && o == HandleAll(m, AsEvents(messages) + [PendingEnd(exportOk, decrypted, hadErrors)])
            && Completions(o.effects) == 1
            && o.effects[|o.effects| - 1] == BackgroundDone(decrypted, hadErrors)
  {
    var b := Process(m, messages);
    ProcessIsRun(m, messages);
    ProcessNeverCompletes(m, messages);
    EndCompletesOnce(b.mem, exportOk, decrypted, hadErrors);
    CompletionsAppend(b.effects, EndBatch(b.mem, exportOk, decrypted, hadErrors).effects);
    var events := AsEvents(messages) + [PendingEnd(exportOk, decrypted, hadErrors)];
    assert events[..|events| - 1] == AsEvents(messages);
  }

  /** Whatever the server answers, a background push that ends is a run of the engine over the fetched
      messages in order, followed by one end of batch; it completes exactly once, as its last act, with
      errors reported exactly when a fetch, an unpacking or an ordinary decrypt failed. */
  lemma PushIsRun(m: Mem, server: Server, since: Option<nat>, left: nat, exportOk: bool)
    requires Ends(server, 0, since, left)
    ensures var (messages, complete) := Fetched(server, 0, since, left);
            var decrypted, hadErrors := Reported(m, messages) % U32, Faulty(m, messages) || !complete;
            var o := Push(m, server, since, left, exportOk);
            && o == HandleAll(m, AsEvents(messages) + [PendingEnd(exportOk, decrypted, hadErrors)])
            && Completions(o.effects) == 1
            && o.effects[|o.effects| - 1] == BackgroundDone(decrypted, hadErrors)
  {
    var (messages, complete) := Fetched(server, 0, since, left);
    BatchReport(m, messages);
    EndedBatch(m, messages, exportOk, Reported(m, messages) % U32, Faulty(m, messages) || !complete);
  }
}

/** Gapless resume (src/engine.rs:1685): the frame queue, the pumps that feed it, and the cursor with
    which the stream is opened again. Positions are the server's places in the stream. */
module Resume {
  import opened Wrappers
  import opened Protocol
  import opened EngineSpec

  /** A queued frame: one that occupies a stream position, or one that does not (heartbeat answers,
      healing retries). */
  datatype Item = At(position: int, content: FrameContent) | Extra(content: FrameContent)

  /** A position's frame carries its cursor, unless it cannot be read at all. */
  predicate Tagged(i: Item) {
    i.content.Read? ==> i.content.response.cursor == (if i.At? then Some(i.position) else None)
  }

  /** A server stream delivers its positions one by one from `next`; aborted pumps stay behind. */
  datatype Pump = Pump(next: int, live: bool)

  /** `handled` are the positions that went through the frame handler; `starts` the cursors from
      which the application, or the server on its behalf, began. */
  datatype Feed = Feed(queue: seq<Item>, pumps: seq<Pump>, handled: set<int>, starts: set<int>)

  datatype World = World(mem: Mem, feed: Feed)

  datatype Step =
    | Deliver(pump: nat, content: FrameContent)     // a live pump hands over its next frame
    | DeliverExtra(content: FrameContent)
    | Abort(pump: nat)                              // a pump ends or its handle is dropped
    | HandleNext(env: Env)                          // the event loop takes the oldest frame
    | Other(event: Event, serverStart: int)         // any other event; where the server starts without a cursor

  predicate Opens(e: Event) {
    e.OpenStream? || e.Reopen? || e.Disconnect?
  }

  predicate OpenedStream(m: Mem, e: Event) {
    OpensStream(e, m.params.Some?)
  }

  function CursorOf(m: Mem): Option<Cursor> {
    if m.params.Some? then m.params.value.cursor else None
  }

  function Push(f: Feed, item: Item): Feed {
    f.(queue := f.queue + [item])
  }

  function Pop(f: Feed): Feed
    requires f.queue != []
  {
    f.(queue := f.queue[1..], handled := f.handled + if f.queue[0].At? then {f.queue[0].position} else {})
  }

  /** Opening starts a pump behind the subscribed cursor `from`; older pumps may run on for a while. */
  function Subscribe(f: Feed, from: Option<Cursor>, up: bool, byUser: bool, serverStart: int): Feed {
    f.(pumps := f.pumps + (if up then [Pump(from.GetOr(serverStart) + 1, true)] else []),
       starts := f.starts + (if byUser && from.Some? then {from.value} else {})
                          + (if up && from.None? then {serverStart} else {}))
  }

  function Next(w: World, s: Step): World {
    match s
    case Deliver(i, content) =>
      if i < |w.feed.pumps| && w.feed.pumps[i].live && Tagged(At(w.feed.pumps[i].next, content)) then
        var p := w.feed.pumps[i].next;
        w.(feed := Push(w.feed, At(p, content)).(pumps := w.feed.pumps[i := Pump(p + 1, true)]))
      else w
    case DeliverExtra(content) =>
      if Tagged(Extra(content)) then w.(feed := Push(w.feed, Extra(content))) else w
    case Abort(i) =>
      if i < |w.feed.pumps| then w.(feed := w.feed.(pumps := w.feed.pumps[i := w.feed.pumps[i].(live := false)])) else w
    case HandleNext(env) =>
      if w.feed.queue == [] then w
      else World(Handle(w.mem, Frame(w.feed.queue[0].content, env)).mem, Pop(w.feed))
    case Other(e, serverStart) =>
      if e.Frame? then w
      else
        var m := Handle(w.mem, e).mem;
        World(m, if Opens(e) then Subscribe(w.feed, CursorOf(m), OpenedStream(w.mem, e), e.OpenStream?, serverStart)
                 else w.feed)
  }

  function Initial(m: Mem): World {
    World(m, Feed([], [], {}, {}))
  }

  function Run(m: Mem, steps: seq<Step>): World {
    if steps == [] then Initial(m) else Next(Run(m, steps[..|steps| - 1]), steps[|steps| - 1])
  }

  // ── The invariant ───────────────────────────────────────────────────────────

  predicate Reached(f: Feed, p: int) {
    p in f.starts || p in f.handled
  }

  /** Position `p` was reached, or lies among the first `k` queued frames. */
  predicate Preceded(f: Feed, k: nat, p: int)
    requires k <= |f.queue|
  {
    Reached(f, p) || exists j :: 0 <= j < k && f.queue[j].At? && f.queue[j].position == p
  }

  predicate Rooted(f: Feed, p: int) {
    p in f.handled ==> Reached(f, p - 1)
  }

  predicate FrameFollows(f: Feed, k: nat) {
    k < |f.queue| ==> Tagged(f.queue[k]) && (f.queue[k].At? ==> Preceded(f, k, f.queue[k].position - 1))
  }

  predicate PumpFollows(f: Feed, i: nat) {
    i < |f.pumps| && f.pumps[i].live ==> Preceded(f, |f.queue|, f.pumps[i].next - 1)
  }

  /** The predecessor of every frame was handled or lies in front of it, also for the frames to come. */
  ghost predicate Chained(f: Feed) {
    (forall p :: Rooted(f, p)) && (forall k :: FrameFollows(f, k)) && (forall i :: PumpFollows(f, i))
  }

  ghost predicate Connected(w: World) {
    Chained(w.feed) && (CursorOf(w.mem).Some? ==> Reached(w.feed, CursorOf(w.mem).value))
  }

  lemma PrecededPush(f: Feed, item: Item, k: nat, p: int)
    requires k <= |f.queue| && Preceded(f, k, p)
    ensures Preceded(Push(f, item), k, p)
    ensures Preceded(Push(f, item), |f.queue| + 1, p)
  {
    if !Reached(f, p) {
      var j :| 0 <= j < k && f.queue[j].At? && f.queue[j].position == p;
      assert Push(f, item).queue[j] == f.queue[j];
    }
  }

  lemma PushKeeps(f: Feed, item: Item)
    requires Chained(f) && Tagged(item)
    requires item.At? ==> Preceded(f, |f.queue|, item.position - 1)
    ensures Chained(Push(f, item))
    ensures item.At? ==> Preceded(Push(f, item), |f.queue| + 1, item.position)
  {
    var r := Push(f, item);
    forall p ensures Rooted(r, p) { assert Rooted(f, p); }
    forall k: nat ensures FrameFollows(r, k) {
      assert FrameFollows(f, k);
      if k < |f.queue| && r.queue[k].At? {
        PrecededPush(f, item, k, r.queue[k].position - 1);
      } else if k == |f.queue| && item.At? {
        PrecededPush(f, item, k, item.position - 1);
      }
    }
    forall i: nat ensures PumpFollows(r, i) {
      assert PumpFollows(f, i);
      if i < |f.pumps| && f.pumps[i].live {
        PrecededPush(f, item, |f.queue|, r.pumps[i].next - 1);
      }
    }
    assert r.queue[|f.queue|] == item;
  }

  lemma PrecededPop(f: Feed, k: nat, p: int)
    requires f.queue != [] && 1 <= k <= |f.queue| && Preceded(f, k, p)
    ensures Preceded(Pop(f), k - 1, p)
  {
    if !Reached(f, p) {
      var j :| 0 <= j < k && f.queue[j].At? && f.queue[j].position == p;
      if j > 0 {
        assert Pop(f).queue[j - 1] == f.queue[j];
      }
    }
  }

  lemma PopKeeps(f: Feed)
    requires Chained(f) && f.queue != []
    ensures Chained(Pop(f))
  {
    var r := Pop(f);
    assert FrameFollows(f, 0);
    forall p ensures Rooted(r, p) { assert Rooted(f, p); }
    forall k: nat ensures FrameFollows(r, k) {
      assert FrameFollows(f, k + 1);
      if k < |r.queue| && r.queue[k].At? {
        PrecededPop(f, k + 1, r.queue[k].position - 1);
      }
    }
    forall i: nat ensures PumpFollows(r, i) {
      assert PumpFollows(f, i);
      if i < |r.pumps| && r.pumps[i].live {
        PrecededPop(f, |f.queue|, r.pumps[i].next - 1);
      }
    }
  }

  lemma PrecededMore(f: Feed, r: Feed, k: nat, p: int)
    requires r.queue == f.queue && r.handled == f.handled && f.starts <= r.starts
    requires k <= |f.queue| && Preceded(f, k, p)
    ensures Preceded(r, k, p)
  {
  }

  lemma SubscribeKeeps(f: Feed, from: Option<Cursor>, up: bool, byUser: bool, serverStart: int)
    requires Chained(f) && (from.Some? && !byUser ==> Reached(f, from.value))
    ensures Chained(Subscribe(f, from, up, byUser, serverStart))
    ensures from.Some? ==> Reached(Subscribe(f, from, up, byUser, serverStart), from.value)
  {
    var r := Subscribe(f, from, up, byUser, serverStart);
    forall p ensures Rooted(r, p) { assert Rooted(f, p); }
    forall k: nat ensures FrameFollows(r, k) {
      assert FrameFollows(f, k);
      if k < |f.queue| && f.queue[k].At? {
        PrecededMore(f, r, k, f.queue[k].position - 1);
      }
    }
    forall i: nat ensures PumpFollows(r, i) {
      assert PumpFollows(f, i);
      if i < |f.pumps| && f.pumps[i].live {
        PrecededMore(f, r, |f.queue|, f.pumps[i].next - 1);
      }
    }
  }

  lemma AdvanceKeeps(f: Feed, i: nat, live: bool, next: int)
    requires Chained(f) && i < |f.pumps| && (live ==> Preceded(f, |f.queue|, next - 1))
    ensures Chained(f.(pumps := f.pumps[i := Pump(next, live)]))
  {
    var r := f.(pumps := f.pumps[i := Pump(next, live)]);
    forall p ensures Rooted(r, p) { assert Rooted(f, p); }
    forall k: nat ensures FrameFollows(r, k) {
      assert FrameFollows(f, k);
      if k < |f.queue| && f.queue[k].At? {
        PrecededMore(f, r, k, f.queue[k].position - 1);
      }
    }
    forall j: nat ensures PumpFollows(r, j) {
      assert PumpFollows(f, j);
      if j < |f.pumps| && j != i && f.pumps[j].live {
        PrecededMore(f, r, |f.queue|, f.pumps[j].next - 1);
      } else if j == i && live {
        PrecededMore(f, r, |f.queue|, next - 1);
      }
    }
  }

  /** What the frame handler does to the cursor. */
  lemma FrameCursor(m: Mem, content: FrameContent, env: Env)
    ensures CursorOf(Handle(m, Frame(content, env)).mem)
            == if m.params.Some? && content.Read? && content.response.cursor.Some? then content.response.cursor
               else CursorOf(m)
    ensures Handle(m, Frame(content, env)).mem.params.Some? == m.params.Some?
  {
  }

  /** Besides frames, only an opening by the application sets the cursor. */
  lemma EventCursor(m: Mem, e: Event)
    requires !e.Frame? && !e.OpenStream?
    ensures Handle(m, e).mem.params == m.params
  {
  }

  lemma DeliverKeeps(f: Feed, i: nat, content: FrameContent)
    requires Chained(f) && i < |f.pumps| && f.pumps[i].live && Tagged(At(f.pumps[i].next, content))
    ensures var p := f.pumps[i].next;
            Chained(Push(f, At(p, content)).(pumps := f.pumps[i := Pump(p + 1, true)]))
  {
    var p := f.pumps[i].next;
    assert PumpFollows(f, i);
    PushKeeps(f, At(p, content));
    AdvanceKeeps(Push(f, At(p, content)), i, true, p + 1);
  }

  lemma HandleKeeps(w: World, env: Env)
    requires Connected(w) && w.feed.queue != []
    ensures Connected(Next(w, HandleNext(env)))
  {
    FrameCursor(w.mem, w.feed.queue[0].content, env);
    assert FrameFollows(w.feed, 0);
    PopKeeps(w.feed);
  }

  lemma EventKeeps(w: World, e: Event, serverStart: int)
    requires Connected(w) && !e.Frame?
    ensures Connected(Next(w, Other(e, serverStart)))
  {
    var m := Handle(w.mem, e).mem;
    if !e.OpenStream? { EventCursor(w.mem, e); }
    SubscribeKeeps(w.feed, CursorOf(m), OpenedStream(w.mem, e), e.OpenStream?, serverStart);
  }

  lemma StepKeeps(w: World, s: Step)
    requires Connected(w)
    ensures Connected(Next(w, s))
  {
    match s
    case Deliver(i, content) => if Next(w, s) != w { DeliverKeeps(w.feed, i, content); }
    case DeliverExtra(content) => if Tagged(Extra(content)) { PushKeeps(w.feed, Extra(content)); }
    case Abort(i) => if i < |w.feed.pumps| { AdvanceKeeps(w.feed, i, false, w.feed.pumps[i].next); }
    case HandleNext(env) => if w.feed.queue != [] { HandleKeeps(w, env); }
    case Other(e, serverStart) => if !e.Frame? { EventKeeps(w, e, serverStart); }
  }

  lemma {:induction false} RunConnected(m: Mem, steps: seq<Step>)
    requires m.params == None
    ensures Connected(Run(m, steps))
  {
    if steps != [] {
      RunConnected(m, steps[..|steps| - 1]);
      StepKeeps(Run(m, steps[..|steps| - 1]), steps[|steps| - 1]);
    }
  }

  // ── No gap below the cursor ─────────────────────────────────────────────────

  /** Everything after `start` up to `p` was handled. */
  predicate HandledFrom(f: Feed, start: int, p: int) {
    start in f.starts && start <= p && forall q :: start < q <= p ==> q in f.handled
  }

  /** Walking down from a reached position stays on reached ones until a start. */
  lemma {:induction false} Descend(f: Feed, p: int, floor: int) returns (start: int)
    requires Chained(f) && Reached(f, p)
    requires forall q :: q in f.handled ==> floor < q
    ensures HandledFrom(f, start, p)
    decreases if p in f.starts then 0 else p - floor
  {
    if p in f.starts {
      start := p;
    } else {
      assert Rooted(f, p);
      if p - 1 in f.starts {
        start := p - 1;
      } else {
        assert p - 1 in f.handled;
        start := Descend(f, p - 1, floor);
      }
    }
  }

  lemma {:induction false} Floor(s: set<int>) returns (floor: int)
    ensures forall q :: q in s ==> floor < q
  {
    if x: int :| x in s {
      var below := Floor(s - {x});
      floor := if below < x then below else x - 1;
      forall q | q in s ensures floor < q {
        if q != x { assert q in s - {x}; }
      }
    } else {
      floor := 0;
    }
  }

  /** Over every run of frames, lost connections, reconnections, reopenings after authentication,
      closings and further openings, with any number of pumps still feeding the queue: every stream
      position from some start up to the stored cursor was handled. */
  lemma NoGapBelowCursor(m: Mem, steps: seq<Step>)
    requires m.params == None
    ensures var w := Run(m, steps);
            CursorOf(w.mem).Some? ==> exists start :: HandledFrom(w.feed, start, CursorOf(w.mem).value)
  {
    RunConnected(m, steps);
    var w := Run(m, steps);
    if CursorOf(w.mem).Some? {
      var floor := Floor(w.feed.handled);
      var start := Descend(w.feed, CursorOf(w.mem).value, floor);
    }
  }

  predicate OnlyFirstOpens(steps: seq<Step>) {
    forall i :: 1 <= i < |steps| ==> !(steps[i].Other? && steps[i].event.OpenStream?)
  }

  lemma CursorStays(w: World, s: Step)
    requires CursorOf(w.mem).Some? && !(s.Other? && s.event.OpenStream?)
    ensures Next(w, s).feed.starts == w.feed.starts && CursorOf(Next(w, s).mem).Some?
  {
    match s
    case HandleNext(env) => if w.feed.queue != [] { FrameCursor(w.mem, w.feed.queue[0].content, env); }
    case Other(e, serverStart) => if !e.Frame? { EventCursor(w.mem, e); }
    case _ =>
  }

  lemma {:induction false} OneStart(m: Mem, steps: seq<Step>, cs: seq<string>, since: Cursor, up: bool,
                                    serverStart: int)
    requires steps != [] && steps[0] == Other(OpenStream(cs, Some(since), up), serverStart) && OnlyFirstOpens(steps)
    ensures var w := Run(m, steps);
            w.feed.starts == {since} && CursorOf(w.mem).Some?
  {
    var init := steps[..|steps| - 1];
    if init == [] {
      assert Run(m, init) == Initial(m);
    } else {
      OneStart(m, init, cs, since, up, serverStart);
      CursorStays(Run(m, init), steps[|steps| - 1]);
    }
  }

  /** The case the code speaks of: after one opening at a known cursor, reconnections and reopenings
      resume without a gap from there to wherever the cursor stands. */
  lemma GaplessAfterOneOpen(m: Mem, steps: seq<Step>, cs: seq<string>, since: Cursor, up: bool, serverStart: int)
    requires m.params == None
    requires steps != [] && steps[0] == Other(OpenStream(cs, Some(since), up), serverStart) && OnlyFirstOpens(steps)
    ensures var w := Run(m, steps);
            CursorOf(w.mem).Some? && HandledFrom(w.feed, since, CursorOf(w.mem).value)
  {
    OneStart(m, steps, cs, since, up, serverStart);
    NoGapBelowCursor(m, steps);
  }
}

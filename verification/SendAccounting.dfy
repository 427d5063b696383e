/** What the platform learns about its messages (src/engine.rs:1095-1214). */
module SendAccounting {
  import opened Protocol
  import opened Ratchet
  import opened EngineSpec

  datatype Report = Report(localId: string, code: nat)

  /** The status callbacks among the effects, in order. */
  function Reports(effects: seq<Effect>): seq<Report> {
    if effects == [] then []
    else
      var last := effects[|effects| - 1];
      Reports(effects[..|effects| - 1]) + if last.Status? then [Report(last.statusId, last.code)] else []
  }

  /** The frames with messages accepted by the stream queue, by the identifier they carry. */
  function Frames(effects: seq<Effect>): seq<string> {
    if effects == [] then []
    else
      var last := effects[|effects| - 1];
      Frames(effects[..|effects| - 1]) + if last.SendFrame? then [last.localId] else []
  }

  lemma {:induction false} Appended(a: seq<Effect>, b: seq<Effect>)
    ensures Reports(a + b) == Reports(a) + Reports(b) && Frames(a + b) == Frames(a) + Frames(b)
  {
    if b == [] {
      assert a + b == a;
    } else {
      assert (a + b)[..|a + b| - 1] == a + b[..|b| - 1];
      Appended(a, b[..|b| - 1]);
    }
  }

  predicate Plain(effects: seq<Effect>) {
    forall i :: 0 <= i < |effects| ==> !effects[i].Status? && !effects[i].SendFrame?
  }

  lemma {:induction false} PlainIsSilent(effects: seq<Effect>)
    requires Plain(effects)
    ensures Reports(effects) == [] && Frames(effects) == []
  {
    if effects != [] { PlainIsSilent(effects[..|effects| - 1]); }
  }

  // ── What has to happen ──────────────────────────────────────────────────────

  /** A message can be queued: there is a session, a stream, and the stream's pump takes the frame. */
  predicate Queues(m: Mem, contact: Contact, sendOk: bool) {
    m.core.Some? && contact in m.core.value.sessions && m.stream && sendOk
  }

  function ReportDue(m: Mem, e: Event): seq<Report> {
    match e
    case SendMessage(c, id, _, _, s) => [Report(id, if Queues(m, c, s) then SENT else FAILED)]
    case _ => []
  }

  function FrameDue(m: Mem, e: Event): seq<string> {
    match e
    case SendMessage(c, id, _, _, s) => if Queues(m, c, s) then [id] else []
    case InitSession(_, bundle, agreed, pinged, _, id, _, s) =>
      if bundle && agreed && pinged && m.core.Some? && m.stream && s then [id] else []
    case _ => []
  }

  lemma FramePlain(m: Mem, content: FrameContent, env: Env)
    ensures Plain(ReceiveFrame(m, content, env).effects)
  {
    if content.Read? {
      var route := RouteResponse(content.response, env.madeUp);
      if route.Receipts? { ReceiptsAreReceipts(route.messageIds); }
    }
  }

  lemma Singletons(x: Effect, y: Effect)
    ensures Reports([x]) == if x.Status? then [Report(x.statusId, x.code)] else []
    ensures Frames([x]) == if x.SendFrame? then [x.localId] else []
    ensures Reports([x, y]) == Reports([x]) + Reports([y]) && Frames([x, y]) == Frames([x]) + Frames([y])
  {
    assert [x][..0] == [];
    assert [x, y] == [x] + [y];
    Appended([x], [y]);
  }

  lemma SaveIsSilent(exportOk: bool, core: CoreState)
    ensures Reports(SaveIf(exportOk, core)) == [] && Frames(SaveIf(exportOk, core)) == []
  {
    PlainIsSilent(SaveIf(exportOk, core));
  }

  lemma SendReports(m: Mem, c: Contact, id: string, g: bool, x: bool, s: bool)
    ensures var e, effects := SendMessage(c, id, g, x, s), Send(m, c, id, g, x, s).effects;
            Reports(effects) == ReportDue(m, e) && Frames(effects) == FrameDue(m, e)
  {
    Singletons(Status(id, FAILED), Status(id, FAILED));
    if m.core.Some? && Encrypt(m.core.value, c).Some? {
      var e := Encrypt(m.core.value, c).value;
      var f := SendFrame(c, e.sendId, e.number, id, g);
      SaveIsSilent(x, e.core);
      Singletons(f, Status(id, SENT));
      Singletons(Status(id, SENT), f);
      Appended(SaveIf(x, e.core), [f, Status(id, SENT)]);
      Appended(SaveIf(x, e.core), [Status(id, FAILED)]);
    }
  }

  lemma QueuedStart(core: CoreState, x: bool, f: Effect, done: Effect)
    requires f.SendFrame? && !done.Status? && !done.SendFrame?
    ensures Reports(SaveIf(x, core) + [f] + [done]) == [] && Frames(SaveIf(x, core) + [f] + [done]) == [f.localId]
  {
    SaveIsSilent(x, core);
    Singletons(f, done);
    Singletons(done, f);
    Appended(SaveIf(x, core), [f, done]);
    assert SaveIf(x, core) + [f] + [done] == SaveIf(x, core) + [f, done];
  }

  lemma InitiateReports(m: Mem, e: Event)
    requires e.InitSession?
    ensures Reports(Handle(m, e).effects) == [] && Frames(Handle(m, e).effects) == FrameDue(m, e)
  {
    if FrameDue(m, e) != [] {
      var sent := Encrypt(Begin(m.core.value, e.contact, e.newId), e.contact).value;
      var f := SendFrame(e.contact, sent.sendId, sent.number, e.localId, false);
      QueuedStart(sent.core, e.exportOk, f, Established(e.contact, e.localId));
    } else {
      UnqueuedStart(m, e);
    }
  }

  lemma UnqueuedStart(m: Mem, e: Event)
    requires e.InitSession? && FrameDue(m, e) == []
    ensures Reports(Handle(m, e).effects) == [] && Frames(Handle(m, e).effects) == []
  {
    assert Plain(Handle(m, e).effects);
    PlainIsSilent(Handle(m, e).effects);
  }

  lemma EventReports(m: Mem, e: Event)
    ensures Reports(Handle(m, e).effects) == ReportDue(m, e) && Frames(Handle(m, e).effects) == FrameDue(m, e)
  {
    match e {
      case SendMessage(c, id, g, x, s) => SendReports(m, c, id, g, x, s);
      case InitSession(_, _, _, _, _, _, _, _) => InitiateReports(m, e);
      case Frame(content, env) =>
        FramePlain(m, content, env);
        PlainIsSilent(Handle(m, e).effects);
      case _ =>
        OthersPlain(m, e);
        PlainIsSilent(Handle(m, e).effects);
    }
  }

  lemma OthersPlain(m: Mem, e: Event)
    requires !e.SendMessage? && !e.InitSession? && !e.Frame?
    ensures Plain(Handle(m, e).effects)
  {
  }

  // ── Whole runs ──────────────────────────────────────────────────────────────

  function ReportsDue(m: Mem, events: seq<Event>): seq<Report> {
    if events == [] then []
    else
      var init := events[..|events| - 1];
      ReportsDue(m, init) + ReportDue(HandleAll(m, init).mem, events[|events| - 1])
  }

  function FramesDue(m: Mem, events: seq<Event>): seq<string> {
    if events == [] then []
    else
      var init := events[..|events| - 1];
      FramesDue(m, init) + FrameDue(HandleAll(m, init).mem, events[|events| - 1])
  }

  /** Over every run without a crash: each handled message gets exactly one status, in order; it is
      SENT exactly when its frame was queued, and besides these frames only session starts put
      message frames on the queue. */
  lemma {:induction false} OneStatusPerMessage(m: Mem, events: seq<Event>)
    ensures Reports(HandleAll(m, events).effects) == ReportsDue(m, events)
    ensures Frames(HandleAll(m, events).effects) == FramesDue(m, events)
  {
    if events != [] {
      var init := events[..|events| - 1];
      OneStatusPerMessage(m, init);
      EventReports(HandleAll(m, init).mem, events[|events| - 1]);
      Appended(HandleAll(m, init).effects, Handle(HandleAll(m, init).mem, events[|events| - 1]).effects);
    }
  }
}

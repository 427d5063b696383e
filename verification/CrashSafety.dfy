/** Crash safety of the engine over whole runs: "persist before sending" and "persist before ACK"
    (src/engine.rs:1108, src/engine.rs:2006). A run interleaves events with crashes that cut the
    effects of an event short; a restart begins from the keys blob and the last saved state. */
module CrashSafety {
  import opened Wrappers
  import opened Protocol
  import opened Ratchet
  import opened EngineSpec

  type Log = seq<Effect>

  /** `log` is everything that became visible since the installation, across all crashes; `minted`
      the session identities used so far; `restored` says that the core holds the saved state. */
  datatype World = World(mem: Mem, log: Log, minted: set<SessionId>, restored: bool)

  datatype Action = Do(event: Event) | Crash(during: Event, after: nat)

  /** The keychain content: the last save. */
  function Durable(log: Log): Option<CoreState> {
    if log == [] then None
    else if log[|log| - 1].Save? then Some(log[|log| - 1].blob)
    else Durable(log[..|log| - 1])
  }

  function Mints(e: Event): set<SessionId> {
    match e
    case InitSession(_, _, _, _, n, _, _, _) => {n}
    case Frame(_, env) => {env.newId}
    case PendingMessage(p) => {p.env.newId}
    case _ => {}
  }

  function Prefix(effects: Log, n: nat): Log {
    if n <= |effects| then effects[..n] else effects
  }

  function RestoredAfter(w: World, e: Event): bool {
    match e
    case KeysArrived(keys) => if keys.Malformed? then w.restored else Durable(w.log) == None
    case StateArrived(blob, imported) => w.restored || (blob.Some? && imported && w.mem.core.Some?)
    case _ => w.restored
  }

  function Next(w: World, a: Action): World {
    match a
    case Do(e) =>
      var o := Handle(w.mem, e);
      World(o.mem, w.log + o.effects, w.minted + Mints(e), RestoredAfter(w, e))
    case Crash(e, n) =>
      World(Dead(w.mem.limit), w.log + Prefix(Handle(w.mem, e).effects, n), w.minted + Mints(e), false)
  }

  function EventOf(a: Action): Event {
    if a.Do? then a.event else a.during
  }

  /** The keychain holds the session on which `core` would send next, with a counter not past it. */
  predicate HeldBehind(core: CoreState, saved: Option<CoreState>, c: Contact) {
    && c in core.sessions && saved.Some? && c in saved.value.sessions
    && var s, d := core.sessions[c], saved.value.sessions[c];
       d.sendId == s.sendId && d.sent <= s.sent
  }

  /** A message that reaches the stream on a session of the keychain was saved first. */
  predicate SendSaved(m: Mem, log: Log, e: Event) {
    e.SendMessage? && m.stream && e.sendOk && m.core.Some? && HeldBehind(m.core.value, Durable(log), e.contact)
    ==> e.exportOk
  }

  /** The assumptions of the safety claim: the export of a sent message succeeds, new session
      identities are new, and a restore brings the state that was saved last. */
  predicate Lawful(w: World, a: Action) {
    var e := EventOf(a);
    && SendSaved(w.mem, w.log, e)
    && w.minted !! Mints(e)
    && (e.StateArrived? && e.blob.Some? ==> e.blob == Durable(w.log))
  }

  /** Events that use the sessions or save them. */
  predicate Works(e: Event) {
    || e.SendMessage? || e.InitSession? || e.Frame? || e.PendingMessage? || e.PendingEnd?
    || e.UploadKeys? || e.RotateKey?
  }

  /** A restore brings the last saved state, and after a restart it comes before other work. */
  predicate Restoring(w: World, a: Action) {
    var e := EventOf(a);
    && (e.StateArrived? && e.blob.Some? ==> e.blob == Durable(w.log))
    && (Works(e) && w.mem.core.Some? ==> w.restored)
  }

  /** Events that use no sessions save nothing, acknowledge nothing and show nothing. */
  lemma {:induction false} IdleEvent(m: Mem, e: Event)
    requires !Works(e)
    ensures forall i :: 0 <= i < |Handle(m, e).effects| ==>
              var x := Handle(m, e).effects[i]; !x.Save? && !x.AckFrame? && !x.Display? && !x.KeysUploadRequested?
    ensures Handle(m, e).mem.core
            == if e.KeysArrived? then NewCore(e.keys, m.core)
               else if e.StateArrived? && e.blob.Some? && e.imported && m.core.Some? then e.blob
               else m.core
  {
  }

  function Installed(limit: nat): World {
    World(Dead(limit), [], {}, false)
  }

  function RunFrom(w: World, acts: seq<Action>): World {
    if acts == [] then w else Next(RunFrom(w, acts[..|acts| - 1]), acts[|acts| - 1])
  }

  predicate AllLawful(w: World, acts: seq<Action>) {
    acts != [] ==> AllLawful(w, acts[..|acts| - 1]) && Lawful(RunFrom(w, acts[..|acts| - 1]), acts[|acts| - 1])
  }

  // ── No message number is used twice ─────────────────────────────────────────

  predicate SameNumber(a: Effect, b: Effect) {
    a.SendFrame? && b.SendFrame? && a.contact == b.contact && a.sendId == b.sendId && a.number == b.number
  }

  predicate NoReuse(log: Log) {
    forall i, j :: 0 <= i < j < |log| ==> !SameNumber(log[i], log[j])
  }

  predicate Below(f: Effect, core: CoreState) {
    f.SendFrame? && f.contact in core.sessions && f.sendId == core.sessions[f.contact].sendId
    ==> f.number < core.sessions[f.contact].sent
  }

  /** Every number on the wire lies below the counter of its session in `core`. */
  predicate Ahead(core: CoreState, log: Log) {
    forall i :: 0 <= i < |log| ==> Below(log[i], core)
  }

  predicate Known(core: CoreState, minted: set<SessionId>) {
    forall c :: c in core.sessions ==> core.sessions[c].sendId in minted
  }

  predicate WireKnown(log: Log, minted: set<SessionId>) {
    forall i :: 0 <= i < |log| && log[i].SendFrame? ==> log[i].sendId in minted
  }

  predicate Fits(core: Option<CoreState>, log: Log, minted: set<SessionId>) {
    core.Some? ==> Ahead(core.value, log) && Known(core.value, minted)
  }

  predicate Counted(core: Option<CoreState>, log: Log, minted: set<SessionId>) {
    NoReuse(log) && WireKnown(log, minted) && Fits(core, log, minted) && Fits(Durable(log), log, minted)
  }

  /** Effects that put no message number on the wire and save nothing but `core`. */
  predicate Silent(effects: Log, core: Option<CoreState>) {
    forall i :: 0 <= i < |effects| ==>
      !effects[i].SendFrame? && (effects[i].Save? ==> core == Some(effects[i].blob))
  }

  lemma {:induction false} DurableAppend(log: Log, more: Log, core: Option<CoreState>)
    requires forall i :: 0 <= i < |more| && more[i].Save? ==> core == Some(more[i].blob)
    ensures Durable(log + more) == Durable(log) || Durable(log + more) == core
    ensures (forall i :: 0 <= i < |more| ==> !more[i].Save?) ==> Durable(log + more) == Durable(log)
    ensures (exists i :: 0 <= i < |more| && more[i].Save?) ==> Durable(log + more) == core
  {
    if more == [] {
      assert log + more == log;
    } else {
      assert (log + more)[..|log + more| - 1] == log + more[..|more| - 1];
      DurableAppend(log, more[..|more| - 1], core);
    }
  }

  lemma SilentKeeps(core: Option<CoreState>, log: Log, minted: set<SessionId>, effects: Log)
    requires Counted(core, log, minted) && Silent(effects, core)
    ensures Counted(core, log + effects, minted)
  {
    DurableAppend(log, effects, core);
  }

  /** A frame may follow once the counter is past its number in memory and in the keychain. */
  predicate MaySend(core: CoreState, log: Log, minted: set<SessionId>, f: Effect) {
    && f.SendFrame? && f.sendId in minted
    && (forall i :: 0 <= i < |log| ==> !SameNumber(log[i], f))
    && Below(f, core) && (Durable(log).Some? ==> Below(f, Durable(log).value))
  }

  lemma FrameKeeps(core: CoreState, log: Log, minted: set<SessionId>, f: Effect)
    requires Counted(Some(core), log, minted) && MaySend(core, log, minted, f)
    ensures Counted(Some(core), log + [f], minted)
  {
    DurableAppend(log, [f], None);
  }

  lemma PrefixSilent(effects: Log, n: nat, core: Option<CoreState>)
    requires Silent(effects, core)
    ensures Silent(Prefix(effects, n), core)
  {
  }

  /** The log after a first effect and a stretch of further ones. */
  lemma PrefixStep(log: Log, x: Effect, rest: Log, n: nat)
    ensures log + Prefix([x] + rest, n) == if n == 0 then log else (log + [x]) + Prefix(rest, n - 1)
  {
    if n == 0 {
      assert log + [] == log;
    } else {
      assert Prefix([x] + rest, n) == [x] + Prefix(rest, n - 1);
      assert log + ([x] + Prefix(rest, n - 1)) == (log + [x]) + Prefix(rest, n - 1);
    }
  }

  lemma FrameThenRest(core: CoreState, log: Log, minted: set<SessionId>, f: Effect, rest: Log, n: nat)
    requires Counted(Some(core), log, minted) && MaySend(core, log, minted, f) && Silent(rest, Some(core))
    ensures Counted(Some(core), log + Prefix([f] + rest, n), minted)
  {
    PrefixStep(log, f, rest, n);
    if n > 0 {
      FrameKeeps(core, log, minted, f);
      SilentPrefixKeeps(core, log + [f], minted, rest, n - 1);
    }
  }

  lemma SilentPrefixKeeps(core: CoreState, log: Log, minted: set<SessionId>, effects: Log, n: nat)
    requires Counted(Some(core), log, minted) && Silent(effects, Some(core))
    ensures Counted(Some(core), log + Prefix(effects, n), minted)
  {
    PrefixSilent(effects, n, Some(core));
    SilentKeeps(Some(core), log, minted, Prefix(effects, n));
  }

  lemma SaveKeeps(core: CoreState, log: Log, minted: set<SessionId>)
    requires Counted(Some(core), log, minted)
    ensures Counted(Some(core), log + [Save(core)], minted) && Durable(log + [Save(core)]) == Some(core)
  {
    SilentKeeps(Some(core), log, minted, [Save(core)]);
  }

  lemma SaveAllows(core: CoreState, log: Log, minted: set<SessionId>, f: Effect)
    requires f.SendFrame? && f.sendId in minted && Below(f, core)
    requires forall i :: 0 <= i < |log| ==> !SameNumber(log[i], f)
    ensures MaySend(core, log + [Save(core)], minted, f)
  {
    DurableAppend(log, [Save(core)], Some(core));
    assert [Save(core)][0].Save?;
  }

  /** What sending does to the log: save, frame, then silent effects. */
  lemma SaveThenFrame(core: CoreState, log: Log, minted: set<SessionId>, f: Effect, rest: Log, n: nat)
    requires Counted(Some(core), log, minted) && f.SendFrame? && f.sendId in minted
    requires forall i :: 0 <= i < |log| ==> !SameNumber(log[i], f)
    requires Below(f, core) && Silent(rest, Some(core))
    ensures Counted(Some(core), log + Prefix([Save(core)] + ([f] + rest), n), minted)
  {
    PrefixStep(log, Save(core), [f] + rest, n);
    if n > 0 {
      SaveKeeps(core, log, minted);
      SaveAllows(core, log, minted, f);
      FrameThenRest(core, log + [Save(core)], minted, f, rest, n - 1);
    }
  }

  /** Using up a number keeps the counters ahead of the wire, and the number used is new. */
  lemma EncryptKeeps(core: CoreState, contact: Contact, log: Log, minted: set<SessionId>)
    requires Counted(Some(core), log, minted) && Encrypt(core, contact).Some?
    ensures var e := Encrypt(core, contact).value;
            && Counted(Some(e.core), log, minted)
            && e.sendId in minted
            && e.core.sessions[contact] == Session(e.sendId, e.number + 1, core.sessions[contact].recvId)
            && forall i :: 0 <= i < |log| && log[i].SendFrame? && log[i].contact == contact
                                            && log[i].sendId == e.sendId ==>
                 log[i].number < e.number
  {
    var e := Encrypt(core, contact).value;
    forall i | 0 <= i < |log| ensures Below(log[i], e.core) {
      assert Below(log[i], core);
    }
  }

  /** A session under a new identity has no frames on the wire. */
  lemma NewSessionKeeps(core: CoreState, after: CoreState, contact: Contact, s: Session, log: Log,
                        minted: set<SessionId>)
    requires Counted(Some(core), log, minted) && s.sendId !in minted
    requires after.sessions == core.sessions[contact := s]
    ensures Counted(Some(after), log, minted + {s.sendId})
  {
    forall i | 0 <= i < |log| ensures Below(log[i], after) {
      assert Below(log[i], core);
    }
  }

  /** One event, cut after any number of its effects. */
  lemma EventCounted(m: Mem, e: Event, log: Log, minted: set<SessionId>, n: nat)
    requires Counted(m.core, log, minted) && SendSaved(m, log, e) && minted !! Mints(e)
    requires e.StateArrived? && e.blob.Some? ==> e.blob == Durable(log)
    ensures Counted(Handle(m, e).mem.core, log + Prefix(Handle(m, e).effects, n), minted + Mints(e))
  {
    var o := Handle(m, e);
    match e {
      case SendMessage(c, id, g, x, s) =>
        if m.core.Some? && Encrypt(m.core.value, c).Some? {
          SendCounted(m.core.value, c, x, m.stream && s, id, g, log, minted, n);
        } else {
          QuietEvent(m.core, o, log, minted, n);
        }
        assert minted + Mints(e) == minted;
      case InitSession(c, b, a, p, newId, id, x, s) =>
        if b && a && m.core.Some? {
          if p {
            InitiateCounted(m.core.value, c, newId, x, m.stream && s, id, log, minted, n);
          } else {
            NewSessionKeeps(m.core.value, o.mem.core.value, c, Session(newId, 0, newId), log, minted);
            QuietEvent(m.core, o, log, minted + {newId}, n);
          }
        } else {
          Widen(m.core, log, minted, newId);
          QuietEvent(m.core, o, log, minted + {newId}, n);
        }
      case Frame(content, env) =>
        var noted := NoteCursor(m, if content.Read? then content.response.cursor else None);
        DispatchCounted(noted, content, env, log, minted, n);
      case PendingMessage(p) => PendingCounted(m, p, log, minted, n);
      case _ =>
        assert minted + Mints(e) == minted;
        OtherCounted(m, e, log, minted, n);
    }
  }

  lemma Widen(core: Option<CoreState>, log: Log, minted: set<SessionId>, newId: SessionId)
    requires Counted(core, log, minted)
    ensures Counted(core, log, minted + {newId})
  {
  }

  lemma QuietEvent(core: Option<CoreState>, o: Outcome, log: Log, minted: set<SessionId>, n: nat)
    requires Counted(o.mem.core, log, minted) && Silent(o.effects, o.mem.core)
    ensures Counted(o.mem.core, log + Prefix(o.effects, n), minted)
  {
    PrefixSilent(o.effects, n, o.mem.core);
    SilentKeeps(o.mem.core, log, minted, Prefix(o.effects, n));
  }

  lemma UnheldMaySend(core: CoreState, c: Contact, log: Log, minted: set<SessionId>, f: Effect)
    requires Counted(Some(core), log, minted) && c in core.sessions && !HeldBehind(core, Durable(log), c)
    requires f.SendFrame? && f.contact == c && f.sendId == core.sessions[c].sendId && f.number == core.sessions[c].sent
    ensures MaySend(Encrypt(core, c).value.core, log, minted, f)
  {
    EncryptKeeps(core, c, log, minted);
  }

  /** Sending, with or without a stream that takes the frame. */
  lemma SendCounted(core: CoreState, c: Contact, exportOk: bool, queued: bool, id: string, g: bool, log: Log,
                    minted: set<SessionId>, n: nat)
    requires Counted(Some(core), log, minted) && Encrypt(core, c).Some?
    requires queued ==> exportOk || !HeldBehind(core, Durable(log), c)
    ensures var e := Encrypt(core, c).value;
            var effects := SaveIf(exportOk, e.core)
                           + if queued then [SendFrame(c, e.sendId, e.number, id, g), Status(id, SENT)]
                             else [Status(id, FAILED)];
            Counted(Some(e.core), log + Prefix(effects, n), minted)
  {
    EncryptKeeps(core, c, log, minted);
    var e := Encrypt(core, c).value;
    var f := SendFrame(c, e.sendId, e.number, id, g);
    assert [f, Status(id, SENT)] == [f] + [Status(id, SENT)];
    if queued && exportOk {
      SaveThenFrame(e.core, log, minted, f, [Status(id, SENT)], n);
    } else if queued {
      UnheldMaySend(core, c, log, minted, f);
      FrameThenRest(e.core, log, minted, f, [Status(id, SENT)], n);
      assert [] + [f, Status(id, SENT)] == [f] + [Status(id, SENT)];
    } else {
      var effects := SaveIf(exportOk, e.core) + [Status(id, FAILED)];
      PrefixSilent(effects, n, Some(e.core));
      SilentKeeps(Some(e.core), log, minted, Prefix(effects, n));
    }
  }

  /** A session start needs no save for the safety of its number: the identity is new, and a keychain
      without the session cannot repeat it. */
  lemma InitiateCounted(core: CoreState, c: Contact, newId: SessionId, exportOk: bool, queued: bool, id: string,
                        log: Log, minted: set<SessionId>, n: nat)
    requires Counted(Some(core), log, minted) && newId !in minted
    ensures var e := Encrypt(Begin(core, c, newId), c).value;
            var effects := SaveIf(exportOk, e.core)
                           + (if queued then [SendFrame(c, e.sendId, e.number, id, false)] else [])
                           + [Established(c, id)];
            Counted(Some(e.core), log + Prefix(effects, n), minted + {newId})
  {
    var begun := Begin(core, c, newId);
    NewSessionKeeps(core, begun, c, Session(newId, 0, newId), log, minted);
    EncryptKeeps(begun, c, log, minted + {newId});
    var e := Encrypt(begun, c).value;
    var f, done := SendFrame(c, e.sendId, e.number, id, false), [Established(c, id)];
    if queued && exportOk {
      SaveThenFrame(e.core, log, minted + {newId}, f, done, n);
      assert [Save(e.core)] + [f] + done == [Save(e.core)] + ([f] + done);
    } else if queued {
      FrameThenRest(e.core, log, minted + {newId}, f, done, n);
      assert [] + [f] + done == [f] + done;
    } else {
      var effects := SaveIf(exportOk, e.core) + [] + done;
      PrefixSilent(effects, n, Some(e.core));
      SilentKeeps(Some(e.core), log, minted + {newId}, Prefix(effects, n));
    }
  }

  lemma RespondCounted(m: Mem, msg: Incoming, env: Env, log: Log, minted: set<SessionId>, n: nat)
    requires Counted(m.core, log, minted) && env.newId !in minted
    ensures var o := RespondFirst(m, msg, env);
            Counted(o.mem.core, log + Prefix(o.effects, n), minted + {env.newId})
  {
    var o := RespondFirst(m, msg, env);
    if TryFirst(m, msg, env).Accepted? {
      var s := Session(env.newId, 0, msg.payload.session);
      NewSessionKeeps(m.core.value, o.mem.core.value, msg.sender, s, log, minted);
    } else {
      Widen(m.core, log, minted, env.newId);
    }
    QuietEvent(m.core, o, log, minted + {env.newId}, n);
  }

  /** Consuming receive keys leaves the sending side as it is. */
  lemma DecryptCounted(m: Mem, o: Outcome, sender: Contact, p: WirePayload, log: Log, minted: set<SessionId>, n: nat)
    requires Counted(m.core, log, minted)
    requires o.mem.core == m.core || (TryDecrypt(m, sender, p).Some? && o.mem.core == TryDecrypt(m, sender, p))
    requires Silent(o.effects, o.mem.core)
    ensures Counted(o.mem.core, log + Prefix(o.effects, n), minted)
  {
    if m.core.Some? {
      assert o.mem.core.value.sessions == m.core.value.sessions;
      forall i | 0 <= i < |log| ensures Below(log[i], o.mem.core.value) {
        assert Below(log[i], m.core.value);
      }
    }
    QuietEvent(m.core, o, log, minted, n);
  }

  lemma DispatchCounted(m: Mem, content: FrameContent, env: Env, log: Log, minted: set<SessionId>, n: nat)
    requires Counted(m.core, log, minted) && env.newId !in minted
    ensures var o := if content.Read? then Dispatch(m, RouteResponse(content.response, env.madeUp), env)
                     else Outcome(m, []);
            Counted(o.mem.core, log + Prefix(o.effects, n), minted + {env.newId})
  {
    Widen(m.core, log, minted, env.newId);
    var route := if content.Read? then RouteResponse(content.response, env.madeUp) else Nothing;
    var o := Dispatch(m, route, env);
    match route {
      case Responder(msg) => RespondCounted(m, msg, env, log, minted, n);
      case Ordinary(msg) => DecryptCounted(m, o, msg.sender, msg.payload, log, minted + {env.newId}, n);
      case Receipts(ids, t) =>
        ReceiptsAreReceipts(ids);
        QuietEvent(m.core, o, log, minted + {env.newId}, n);
      case Nothing => QuietEvent(m.core, o, log, minted + {env.newId}, n);
    }
  }

  lemma PendingCounted(m: Mem, p: Pending, log: Log, minted: set<SessionId>, n: nat)
    requires Counted(m.core, log, minted) && p.env.newId !in minted
    ensures var o := ReceivePending(m, p);
            Counted(o.mem.core, log + Prefix(o.effects, n), minted + {p.env.newId})
  {
    if Classify(m, p).SessionStart? {
      RespondCounted(m, AsIncoming(p), p.env, log, minted, n);
    } else {
      Widen(m.core, log, minted, p.env.newId);
      DecryptCounted(m, ReceivePending(m, p), p.sender, p.payload, log, minted + {p.env.newId}, n);
    }
  }

  lemma OtherCounted(m: Mem, e: Event, log: Log, minted: set<SessionId>, n: nat)
    requires Counted(m.core, log, minted)
    requires !e.SendMessage? && !e.InitSession? && !e.Frame? && !e.PendingMessage?
    requires e.StateArrived? && e.blob.Some? ==> e.blob == Durable(log)
    ensures Counted(Handle(m, e).mem.core, log + Prefix(Handle(m, e).effects, n), minted)
  {
    var o := Handle(m, e);
    if (e.UploadKeys? || e.RotateKey?) && m.core.Some? {
      assert o.mem.core.value.sessions == m.core.value.sessions;
      forall i | 0 <= i < |log| ensures Below(log[i], o.mem.core.value) {
        assert Below(log[i], m.core.value);
      }
    }
    assert Counted(o.mem.core, log, minted);
    QuietEvent(m.core, o, log, minted, n);
  }

  lemma NextCounted(w: World, a: Action)
    requires Counted(w.mem.core, w.log, w.minted) && Lawful(w, a)
    ensures Counted(Next(w, a).mem.core, Next(w, a).log, Next(w, a).minted)
  {
    var e := EventOf(a);
    var o := Handle(w.mem, e);
    EventCounted(w.mem, e, w.log, w.minted, if a.Do? then |o.effects| else a.after);
    OutcomeCounted(w, a, o);
  }

  lemma OutcomeCounted(w: World, a: Action, o: Outcome)
    requires o == Handle(w.mem, EventOf(a))
    requires var n := if a.Do? then |o.effects| else a.after;
             Counted(o.mem.core, w.log + Prefix(o.effects, n), w.minted + Mints(EventOf(a)))
    ensures Counted(Next(w, a).mem.core, Next(w, a).log, Next(w, a).minted)
  {
    var r := Next(w, a);
    if a.Do? {
      assert Prefix(o.effects, |o.effects|) == o.effects;
      assert r.mem == o.mem && r.log == w.log + o.effects;
    } else {
      assert r.mem.core == None;
    }
  }

  lemma {:induction false} RunCounted(w: World, acts: seq<Action>)
    requires Counted(w.mem.core, w.log, w.minted) && AllLawful(w, acts)
    ensures var r := RunFrom(w, acts); Counted(r.mem.core, r.log, r.minted)
  {
    if acts != [] {
      RunCounted(w, acts[..|acts| - 1]);
      NextCounted(RunFrom(w, acts[..|acts| - 1]), acts[|acts| - 1]);
    }
  }

  /** Runs from the installation on. */
  predicate LawfulRun(limit: nat, acts: seq<Action>) {
    AllLawful(Installed(limit), acts)
  }

  function LogOf(limit: nat, acts: seq<Action>): Log {
    RunFrom(Installed(limit), acts).log
  }

  /** Over every run of sends, session starts, decrypts, key uploads, rotations, crashes between any
      two effects and restores of the last saved state: no two frames to a contact carry the same
      session and message number. */
  lemma {:induction false} NumbersNeverReused(limit: nat, acts: seq<Action>)
    requires LawfulRun(limit, acts)
    ensures NoReuse(LogOf(limit, acts))
  {
    RunCounted(Installed(limit), acts);
  }

  // ── Where the assumptions are needed, exactly ───────────────────────────────

  lemma {:induction false} RunPrepend(w: World, a: Action, acts: seq<Action>)
    ensures RunFrom(w, [a] + acts) == RunFrom(Next(w, a), acts)
    ensures AllLawful(w, [a] + acts) <==> Lawful(w, a) && AllLawful(Next(w, a), acts)
  {
    var all := [a] + acts;
    if acts == [] {
      assert all[..0] == [];
      assert RunFrom(w, all[..0]) == w;
    } else {
      assert all[..|all| - 1] == [a] + acts[..|acts| - 1];
      RunPrepend(w, a, acts[..|acts| - 1]);
    }
  }

  /** Number `i` of the log is still to come on the session in memory. */
  predicate Behind(w: World, c: Contact, i: nat) {
    && i < |w.log| && w.log[i].SendFrame? && w.log[i].contact == c
    && w.mem.core.Some? && c in w.mem.core.value.sessions
    && var s := w.mem.core.value.sessions[c];
       s.sendId == w.log[i].sendId && s.sent <= w.log[i].number
  }

  /** Sending on reaches that number. */
  lemma {:induction false} OpenBehindReuses(w: World, c: Contact, i: nat) returns (acts: seq<Action>)
    requires Behind(w, c, i) && w.mem.stream
    ensures AllLawful(w, acts) && !NoReuse(RunFrom(w, acts).log)
    decreases w.log[i].number - w.mem.core.value.sessions[c].sent
  {
    var a := Do(SendMessage(c, "", false, true, true));
    var r := Next(w, a);
    var s := w.mem.core.value.sessions[c];
    assert r.log[..|w.log|] == w.log;
    if s.sent == w.log[i].number {
      acts := [];
      assert r.log[|w.log| + 1] == SendFrame(c, s.sendId, s.sent, "", false);
      assert SameNumber(r.log[i], r.log[|w.log| + 1]);
    } else {
      acts := OpenBehindReuses(r, c, i);
    }
    RunPrepend(w, a, acts);
    acts := [a] + acts;
  }

  /** With a counter at or below a number already on the wire, some continuation repeats a number. */
  lemma BehindReuses(w: World, c: Contact, i: nat) returns (acts: seq<Action>)
    requires Behind(w, c, i)
    ensures AllLawful(w, acts) && !NoReuse(RunFrom(w, acts).log)
  {
    var open := Do(OpenStream([], None, true));
    var r := Next(w, open);
    assert r.log[..|w.log|] == w.log;
    acts := OpenBehindReuses(r, c, i);
    RunPrepend(w, open, acts);
    acts := [open] + acts;
  }

  ghost predicate SafeFrom(w: World) {
    forall acts :: AllLawful(w, acts) ==> NoReuse(RunFrom(w, acts).log)
  }

  lemma CountedIsSafe(w: World)
    requires Counted(w.mem.core, w.log, w.minted)
    ensures SafeFrom(w)
  {
    forall acts | AllLawful(w, acts) ensures NoReuse(RunFrom(w, acts).log) {
      RunCounted(w, acts);
    }
  }

  /** A crash, and a restart from what was saved. */
  function Restarted(w: World, saved: CoreState): World {
    Next(Next(Next(w, Crash(PlatformReady, 0)), Do(KeysArrived(Usable))), Do(StateArrived(Some(saved), true)))
  }

  lemma RestartIsRun(w: World, saved: CoreState, acts: seq<Action>) returns (all: seq<Action>)
    requires Durable(w.log) == Some(saved) && AllLawful(Restarted(w, saved), acts)
    ensures AllLawful(w, all) && RunFrom(w, all) == RunFrom(Restarted(w, saved), acts)
  {
    var crash, keys, state := Crash(PlatformReady, 0), Do(KeysArrived(Usable)), Do(StateArrived(Some(saved), true));
    var w1 := Next(w, crash);
    var w2 := Next(w1, keys);
    assert w1.log == w.log && w2.log == w.log;
    RunPrepend(w2, state, acts);
    RunPrepend(w1, keys, [state] + acts);
    RunPrepend(w, crash, [keys] + ([state] + acts));
    all := [crash] + ([keys] + ([state] + acts));
  }

  lemma RestartHolds(w: World, saved: CoreState)
    ensures Restarted(w, saved).mem.core == Some(saved) && w.log <= Restarted(w, saved).log
  {
  }

  /** Sending is safe for every continuation exactly when the state was saved, or the frame did not reach
      the stream, or the keychain does not hold the session at all (as after a session start whose
      export failed). */
  lemma {:induction false} SendSafeExactlyWhenSaved(w: World, c: Contact, id: string, g: bool,
                                                    exportOk: bool, sendOk: bool)
    requires Counted(w.mem.core, w.log, w.minted)
    requires w.mem.core.Some? && c in w.mem.core.value.sessions
    ensures SafeFrom(Next(w, Do(SendMessage(c, id, g, exportOk, sendOk))))
            <==> exportOk || !(w.mem.stream && sendOk) || !HeldBehind(w.mem.core.value, Durable(w.log), c)
  {
    var a := Do(SendMessage(c, id, g, exportOk, sendOk));
    var r := Next(w, a);
    if SendSaved(w.mem, w.log, a.event) {
      SentCounted(w, c, id, g, exportOk, sendOk);
      CountedIsSafe(r);
    } else {
      var saved := Durable(w.log).value;
      var f := UnsavedSend(w, c, id, g);
      RestartHolds(r, saved);
      assert Restarted(r, saved).log[|w.log|] == f;
      var acts := BehindReuses(Restarted(r, saved), c, |w.log|);
      acts := RestartIsRun(r, saved, acts);
    }
  }

  lemma SentCounted(w: World, c: Contact, id: string, g: bool, exportOk: bool, sendOk: bool)
    requires Counted(w.mem.core, w.log, w.minted) && w.mem.core.Some? && c in w.mem.core.value.sessions
    requires SendSaved(w.mem, w.log, SendMessage(c, id, g, exportOk, sendOk))
    ensures var r := Next(w, Do(SendMessage(c, id, g, exportOk, sendOk))); Counted(r.mem.core, r.log, r.minted)
  {
    var o := Send(w.mem, c, id, g, exportOk, sendOk);
    SendCounted(w.mem.core.value, c, exportOk, w.mem.stream && sendOk, id, g, w.log, w.minted, |o.effects|);
    assert Prefix(o.effects, |o.effects|) == o.effects;
    assert w.minted + {} == w.minted;
  }

  lemma UnsavedSend(w: World, c: Contact, id: string, g: bool) returns (f: Effect)
    requires w.mem.core.Some? && c in w.mem.core.value.sessions && w.mem.stream
    ensures var s := w.mem.core.value.sessions[c];
            f == SendFrame(c, s.sendId, s.sent, id, g)
    ensures var r := Next(w, Do(SendMessage(c, id, g, false, true)));
            r.log == w.log + [f, Status(id, SENT)] && Durable(r.log) == Durable(w.log)
  {
    var s := w.mem.core.value.sessions[c];
    f := SendFrame(c, s.sendId, s.sent, id, g);
    assert [] + [f, Status(id, SENT)] == [f, Status(id, SENT)];
    DurableAppend(w.log, [f, Status(id, SENT)], None);
  }

  /** Importing a blob, at a restart or in the middle of a run, is safe for every continuation exactly
      when its counters are ahead of every number already sent; a blob read before a later save need
      not be. */
  lemma {:induction false} RestoreSafeExactlyWhenAhead(w: World, blob: CoreState)
    requires Counted(w.mem.core, w.log, w.minted) && Known(blob, w.minted)
    requires w.mem.core.Some?
    ensures SafeFrom(Next(w, Do(StateArrived(Some(blob), true)))) <==> Ahead(blob, w.log)
  {
    var r := Next(w, Do(StateArrived(Some(blob), true)));
    DurableAppend(w.log, [Restored(blob.sessions.Keys)], None);
    assert r.log == w.log + [Restored(blob.sessions.Keys)];
    if Ahead(blob, w.log) {
      assert Counted(Some(blob), r.log, r.minted);
      CountedIsSafe(r);
    } else {
      var i :| 0 <= i < |w.log| && !Below(w.log[i], blob);
      assert r.log[i] == w.log[i];
      var acts := BehindReuses(r, w.log[i].contact, i);
    }
  }

  // ── A concrete run ──────────────────────────────────────────────────────────

  const BOB: Contact := "bob"
  const SAVED_EARLY := CoreState(map[BOB := Session(7, 1, 7)], {}, {}, {})
  const UNSAVED_FRAME := SendFrame(BOB, 7, 1, "b", false)
  const REPEATED_FRAME := SendFrame(BOB, 7, 1, "c", false)

  /** A first life that ends with a send whose export failed. */
  const FIRST_LIFE: seq<Action> :=
    [Do(KeysArrived(Usable)), Do(OpenStream([], None, true)),
     Do(InitSession(BOB, true, true, true, 7, "a", true, true)),
     Do(SendMessage(BOB, "b", false, false, true)),
     Crash(PlatformReady, 0)]

  /** The restart: keys, saved state, stream, and the next send. */
  const SECOND_LIFE: seq<Action> :=
    [Do(KeysArrived(Usable)), Do(StateArrived(Some(SAVED_EARLY), true)), Do(OpenStream([], None, true)),
     Do(SendMessage(BOB, "c", false, true, true))]

  const SUBSCRIBED := StreamReady([], None)

  const LOG_EARLY: Log :=
    [SUBSCRIBED, Save(SAVED_EARLY), SendFrame(BOB, 7, 0, "a", false), Established(BOB, "a"),
     UNSAVED_FRAME, Status("b", SENT)]

  const OPENED := Mem(Some(BLANK), true, map[], Some(Params([], None)), 3)
  const BEGUN := OPENED.(core := Some(SAVED_EARLY))

  lemma {:induction false} RunStep(w: World, acts: seq<Action>, k: nat)
    requires k < |acts|
    ensures RunFrom(w, acts[..k + 1]) == Next(RunFrom(w, acts[..k]), acts[k])
  {
    assert acts[..k + 1][..k] == acts[..k];
  }

  lemma {:induction false} FirstOpening()
    ensures RunFrom(Installed(3), FIRST_LIFE[..2]) == World(OPENED, [SUBSCRIBED], {}, true)
  {
    var w := Installed(3);
    assert RunFrom(w, FIRST_LIFE[..0]) == w;
    RunStep(w, FIRST_LIFE, 0);
    RunStep(w, FIRST_LIFE, 1);
  }

  lemma {:induction false} FirstSession()
    ensures Handle(OPENED, FIRST_LIFE[2].event) == Outcome(BEGUN, LOG_EARLY[1..4])
  {
    assert BLANK.sessions[BOB := Session(7, 0, 7)][BOB := Session(7, 1, 7)] == SAVED_EARLY.sessions;
    assert Encrypt(Begin(BLANK, BOB, 7), BOB) == Some(Encrypted(SAVED_EARLY, 7, 0));
  }

  lemma {:induction false} UnsavedMessage()
    ensures Handle(BEGUN, FIRST_LIFE[3].event).effects == LOG_EARLY[4..]
    ensures Handle(BEGUN, FIRST_LIFE[3].event).mem.limit == 3
  {
  }

  lemma {:induction false} FirstLifeLog()
    ensures RunFrom(Installed(3), FIRST_LIFE) == World(Dead(3), LOG_EARLY, {7}, false)
  {
    var w := Installed(3);
    FirstOpening();
    RunStep(w, FIRST_LIFE, 2);
    FirstSession();
    assert [SUBSCRIBED] + LOG_EARLY[1..4] == LOG_EARLY[..4];
    var w3 := World(BEGUN, LOG_EARLY[..4], {7}, true);
    assert RunFrom(w, FIRST_LIFE[..3]) == w3;
    RunStep(w, FIRST_LIFE, 3);
    UnsavedMessage();
    RunStep(w, FIRST_LIFE, 4);
    assert LOG_EARLY[..4] + LOG_EARLY[4..] == LOG_EARLY;
    assert FIRST_LIFE[..5] == FIRST_LIFE;
  }

  lemma {:induction false} SecondOpening(w: World)
    requires w == World(Dead(3), LOG_EARLY, {7}, false)
    ensures var r := RunFrom(w, SECOND_LIFE[..3]);
            r.mem == BEGUN && r.log == LOG_EARLY + [Restored(SAVED_EARLY.sessions.Keys)] + [SUBSCRIBED]
  {
    assert RunFrom(w, SECOND_LIFE[..0]) == w;
    RunStep(w, SECOND_LIFE, 0);
    RunStep(w, SECOND_LIFE, 1);
    RunStep(w, SECOND_LIFE, 2);
  }

  lemma {:induction false} RepeatedMessage()
    ensures var effects := Handle(BEGUN, SECOND_LIFE[3].event).effects;
            |effects| >= 2 && effects[1] == REPEATED_FRAME
  {
  }

  /** Without a successful export the promise breaks: a restart sends the same number again. */
  lemma {:induction false} ExportFailureReuses()
    ensures !NoReuse(RunFrom(RunFrom(Installed(3), FIRST_LIFE), SECOND_LIFE).log)
  {
    FirstLifeLog();
    var w := RunFrom(Installed(3), FIRST_LIFE);
    SecondOpening(w);
    RunStep(w, SECOND_LIFE, 3);
    RepeatedMessage();
    assert SECOND_LIFE[..4] == SECOND_LIFE;
    var log := RunFrom(w, SECOND_LIFE).log;
    assert log[4] == UNSAVED_FRAME && log[9] == REPEATED_FRAME;
    assert SameNumber(log[4], log[9]);
  }
}

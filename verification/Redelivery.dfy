/** Which received messages a crash gives back, and which it loses (src/engine.rs:2006-2031,
    src/engine.rs:2074-2089). */
module Redelivery {
  import opened Wrappers
  import opened Protocol
  import opened Ratchet
  import opened EngineSpec
  import opened CrashSafety
  import opened KeySafety
  import opened AckSafety

  // ── Memory and keychain ─────────────────────────────────────────────────────

  predicate SameSessions(core: CoreState, saved: CoreState) {
    && core.sessions.Keys == saved.sessions.Keys
    && forall c :: c in core.sessions ==> core.sessions[c].recvId == saved.sessions[c].recvId
  }

  /** Memory runs ahead of the keychain by ordinary decrypts of the same sessions, and by keys that
      nobody was offered. */
  predicate InSync(core: CoreState, saved: CoreState, offered: set<KeyId>) {
    && SameSessions(core, saved)
    && (forall k :: k in core.consumed && k !in saved.consumed ==>
          k.number != 0 && k.sender in saved.sessions && saved.sessions[k.sender].recvId == k.session)
    && core.otpks * offered <= saved.otpks
  }

  predicate Matches(core: Option<CoreState>, log: Log, restored: bool) {
    core.Some? && restored ==> InSync(core.value, Saved(log), Offered(log))
  }

  /** A session that is begun or accepted is saved, and generated keys are not ones the server has. */
  predicate SessionsSaved(m: Mem, log: Log, e: Event) {
    match e
    case InitSession(_, bundle, agreed, pinged, _, _, exportOk, _) => bundle && agreed ==> pinged && exportOk
    case Frame(Read(r), env) => RouteResponse(r, env.madeUp).Responder? ==> env.exportOk
    case PendingMessage(p) => Classify(m, p).SessionStart? ==> p.env.exportOk
    case UploadKeys(ids, _, _, _) => ids !! Offered(log)
    case _ => true
  }

  predicate Careful(w: World, a: Action) {
    Orderly(w, a) && SessionsSaved(w.mem, w.log, EventOf(a))
  }

  predicate AllCareful(w: World, acts: seq<Action>) {
    acts != [] ==> AllCareful(w, acts[..|acts| - 1]) && Careful(RunFrom(w, acts[..|acts| - 1]), acts[|acts| - 1])
  }

  predicate Saves(effects: Log) {
    exists i :: 0 <= i < |effects| && effects[i].Save?
  }

  /** What every handler guarantees: it saves the new state, or offers nothing and stays in step. */
  predicate Stays(before: Option<CoreState>, o: Outcome, saved: CoreState, offered: set<KeyId>) {
    && (forall i :: 0 <= i < |o.effects| && o.effects[i].Save? ==> o.mem.core == Some(o.effects[i].blob))
    && (!Saves(o.effects) ==> forall i :: 0 <= i < |o.effects| ==> !o.effects[i].KeysUploadRequested?)
    && (before.None? ==> o.mem.core.None? && !Saves(o.effects))
    && (before.Some? ==> o.mem.core.Some? && (!Saves(o.effects) ==> InSync(o.mem.core.value, saved, offered)))
  }

  lemma RespondStays(m: Mem, msg: Incoming, env: Env, saved: CoreState, offered: set<KeyId>)
    requires env.exportOk && (m.core.Some? ==> InSync(m.core.value, saved, offered))
    ensures Stays(m.core, RespondFirst(m, msg, env), saved, offered)
  {
    var o := RespondFirst(m, msg, env);
    if TryFirst(m, msg, env).Accepted? {
      assert o.effects[0] == Save(o.mem.core.value);
    }
  }

  lemma DecryptStays(m: Mem, msg: Incoming, env: Env, saved: CoreState, offered: set<KeyId>)
    requires msg.payload.Packed? ==> msg.payload.number != 0
    requires m.core.Some? ==> InSync(m.core.value, saved, offered)
    ensures Stays(m.core, DecryptOne(m, msg, env), saved, offered)
  {
    var o := DecryptOne(m, msg, env);
    if TryDecrypt(m, msg.sender, msg.payload).Some? && env.exportOk {
      assert o.effects[0] == Save(o.mem.core.value);
    }
  }

  lemma PendingStays(m: Mem, p: Pending, saved: CoreState, offered: set<KeyId>)
    requires Classify(m, p).SessionStart? ==> p.env.exportOk
    requires m.core.Some? ==> InSync(m.core.value, saved, offered)
    ensures Stays(m.core, ReceivePending(m, p), saved, offered)
  {
    if Classify(m, p).SessionStart? {
      RespondStays(m, AsIncoming(p), p.env, saved, offered);
    }
  }

  lemma SendStays(m: Mem, e: Event, log: Log, saved: CoreState, offered: set<KeyId>)
    requires (e.SendMessage? || e.InitSession?) && SessionsSaved(m, log, e)
    requires m.core.Some? ==> InSync(m.core.value, saved, offered)
    ensures Stays(m.core, Handle(m, e), saved, offered)
  {
    var o := Handle(m, e);
    if o.effects[0].Save? {
      assert Saves(o.effects);
    } else if m.core.Some? {
      assert SameSessions(o.mem.core.value, m.core.value);
    }
  }

  lemma KeysStay(m: Mem, e: Event, saved: CoreState, offered: set<KeyId>)
    requires e.UploadKeys? || e.RotateKey? || e.PendingEnd?
    requires e.UploadKeys? ==> e.ids !! offered
    requires m.core.Some? ==> InSync(m.core.value, saved, offered)
    ensures Stays(m.core, Handle(m, e), saved, offered)
  {
    var o := Handle(m, e);
    if |o.effects| > 0 && o.effects[0].Save? {
      assert Saves(o.effects);
    }
  }

  lemma FrameStays(m: Mem, content: FrameContent, env: Env, saved: CoreState, offered: set<KeyId>)
    requires content.Read? && RouteResponse(content.response, env.madeUp).Responder? ==> env.exportOk
    requires m.core.Some? ==> InSync(m.core.value, saved, offered)
    ensures Stays(m.core, ReceiveFrame(m, content, env), saved, offered)
  {
    if content.Read? {
      var noted := NoteCursor(m, content.response.cursor);
      match RouteResponse(content.response, env.madeUp) {
        case Responder(msg) => RespondStays(noted, msg, env, saved, offered);
        case Ordinary(msg) => DecryptStays(noted, msg, env, saved, offered);
        case Receipts(ids, t) => ReceiptsAreReceipts(ids);
        case Nothing =>
      }
    }
  }

  lemma WorkStays(m: Mem, e: Event, log: Log)
    requires Works(e) && SessionsSaved(m, log, e)
    requires m.core.Some? ==> InSync(m.core.value, Saved(log), Offered(log))
    ensures Stays(m.core, Handle(m, e), Saved(log), Offered(log))
  {
    match e {
      case Frame(content, env) => FrameStays(m, content, env, Saved(log), Offered(log));
      case PendingMessage(p) => PendingStays(m, p, Saved(log), Offered(log));
      case SendMessage(_, _, _, _, _) => SendStays(m, e, log, Saved(log), Offered(log));
      case InitSession(_, _, _, _, _, _, _, _) => SendStays(m, e, log, Saved(log), Offered(log));
      case _ => KeysStay(m, e, Saved(log), Offered(log));
    }
  }

  lemma {:induction false} OffersNoKeys(log: Log, effects: Log)
    requires forall i :: 0 <= i < |effects| ==> !effects[i].KeysUploadRequested?
    ensures Offered(log + effects) == Offered(log)
  {
    if effects == [] {
      assert log + effects == log;
    } else {
      assert (log + effects)[..|log + effects| - 1] == log + effects[..|effects| - 1];
      OffersNoKeys(log, effects[..|effects| - 1]);
    }
  }

  lemma OutcomeMatches(before: Option<CoreState>, o: Outcome, log: Log)
    requires Stays(before, o, Saved(log), Offered(log))
    ensures Matches(o.mem.core, log + o.effects, true)
  {
    DurableAppend(log, o.effects, o.mem.core);
    if !Saves(o.effects) {
      OffersNoKeys(log, o.effects);
    }
  }

  lemma IdleMatches(w: World, e: Event)
    requires Matches(w.mem.core, w.log, w.restored) && !Works(e)
    requires e.StateArrived? && e.blob.Some? ==> e.blob == Durable(w.log)
    ensures var o := Handle(w.mem, e); Matches(o.mem.core, w.log + o.effects, RestoredAfter(w, e))
  {
    var o := Handle(w.mem, e);
    IdleEvent(w.mem, e);
    DurableAppend(w.log, o.effects, None);
    OffersNoKeys(w.log, o.effects);
  }

  lemma NextMatches(w: World, a: Action)
    requires Matches(w.mem.core, w.log, w.restored) && Careful(w, a)
    ensures var r := Next(w, a); Matches(r.mem.core, r.log, r.restored)
  {
    if a.Do? {
      if Works(a.event) {
        WorkStays(w.mem, a.event, w.log);
        OutcomeMatches(w.mem.core, Handle(w.mem, a.event), w.log);
      } else {
        IdleMatches(w, a.event);
      }
    }
  }

  lemma {:induction false} RunMatches(w: World, acts: seq<Action>)
    requires Matches(w.mem.core, w.log, w.restored) && AllCareful(w, acts)
    ensures var r := RunFrom(w, acts); Matches(r.mem.core, r.log, r.restored)
  {
    if acts != [] {
      RunMatches(w, acts[..|acts| - 1]);
      NextMatches(RunFrom(w, acts[..|acts| - 1]), acts[|acts| - 1]);
    }
  }

  lemma {:induction false} CarefulIsOrderly(w: World, acts: seq<Action>)
    requires AllCareful(w, acts)
    ensures AllOrderly(w, acts)
  {
    if acts != [] { CarefulIsOrderly(w, acts[..|acts| - 1]); }
  }

  // ── What a crash gives back ─────────────────────────────────────────────────

  predicate Acked(log: Log, key: ReceiveKey) {
    exists i :: 0 <= i < |log| && log[i].AckFrame? && log[i].key == key
  }

  predicate Shown(log: Log, key: ReceiveKey) {
    exists i :: 0 <= i < |log| && log[i].Display? && log[i].shown == key
  }

  /** The payload works again on the given state: as a session start or as an ordinary message. */
  predicate Redeliverable(core: CoreState, sender: Contact, p: WirePayload) {
    && p.Packed?
    && if p.number == 0 then AcceptFirst(core, sender, p, 0, true).Some? else Decryptable(core, sender, p)
  }

  /** The responder path uses up at most the key of its own message, and needs the pre-key it names. */
  lemma RespondConsumes(m: Mem, msg: Incoming, env: Env, k: ReceiveKey)
    requires m.core.Some? && k !in m.core.value.consumed
    requires Consumed(RespondFirst(m, msg, env).mem.core, k)
    ensures msg.payload.Packed? && k == KeyOf(msg.sender, msg.payload)
    ensures k.otpk.Some? ==> k.otpk.value in m.core.value.otpks
  {
  }

  /** A key that an event uses up belongs to a session start whose pre-key was there, or to a message
      that was decryptable before. */
  lemma NewlyConsumed(m: Mem, e: Event, sender: Contact, p: WirePayload)
    requires Works(e) && m.core.Some? && p.Packed? && p.genuine
    requires Consumed(Handle(m, e).mem.core, KeyOf(sender, p)) && KeyOf(sender, p) !in m.core.value.consumed
    ensures if p.number == 0 then Named(p).Some? ==> Named(p).value in m.core.value.otpks
            else Decryptable(m.core.value, sender, p)
  {
    match e {
      case Frame(Read(r), env) =>
        match RouteResponse(r, env.madeUp) {
          case Responder(msg) => RespondConsumes(NoteCursor(m, r.cursor), msg, env, KeyOf(sender, p));
          case _ =>
        }
      case PendingMessage(q) =>
        if Classify(m, q).SessionStart? { RespondConsumes(m, AsIncoming(q), q.env, KeyOf(sender, p)); }
      case _ =>
    }
  }

  /** A crash at any point of any event takes back only what can be received again: a message that
      memory had decrypted is either used up in the saved state, or it is unacknowledged and the
      state after the restart accepts it when it is redelivered. Peers name only pre-keys that the
      server was offered. */
  lemma {:induction false} CrashLosesNothingAcked(limit: nat, acts: seq<Action>, e: Event, n: nat,
                                                  sender: Contact, p: WirePayload)
    requires AllCareful(Installed(limit), acts)
    requires var w := RunFrom(Installed(limit), acts);
             && Careful(w, Crash(e, n)) && w.restored
             && p.Packed? && p.genuine && (Named(p).Some? ==> Named(p).value in Offered(w.log))
             && Consumed(Handle(w.mem, e).mem.core, KeyOf(sender, p))
    ensures var log := Next(RunFrom(Installed(limit), acts), Crash(e, n)).log;
            || Consumed(Durable(log), KeyOf(sender, p))
            || (!Acked(log, KeyOf(sender, p)) && Redeliverable(Saved(log), sender, p))
  {
    var w := RunFrom(Installed(limit), acts);
    CarefulIsOrderly(Installed(limit), acts);
    RunKept(Installed(limit), acts);
    RunMatches(Installed(limit), acts);
    NextKept(w, Crash(e, n));
    CutIsRecoverable(w, e, n, sender, p);
  }

  lemma CutIsRecoverable(w: World, e: Event, n: nat, sender: Contact, p: WirePayload)
    requires Matches(w.mem.core, w.log, true) && AckedSaved(Next(w, Crash(e, n)).log) && Careful(w, Crash(e, n))
    requires p.Packed? && p.genuine && (Named(p).Some? ==> Named(p).value in Offered(w.log))
    requires Consumed(Handle(w.mem, e).mem.core, KeyOf(sender, p))
    ensures var log := Next(w, Crash(e, n)).log;
            || Consumed(Durable(log), KeyOf(sender, p))
            || (!Acked(log, KeyOf(sender, p)) && Redeliverable(Saved(log), sender, p))
  {
    var o, key := Handle(w.mem, e), KeyOf(sender, p);
    var cut := Prefix(o.effects, n);
    var log := w.log + cut;
    if Works(e) {
      WorkStays(w.mem, e, w.log);
      DurableAppend(w.log, cut, o.mem.core);
      if !Consumed(Durable(log), key) {
        assert Durable(log) == Durable(w.log);
        UnsavedIsRecoverable(w, e, sender, p);
      }
    } else {
      IdleEvent(w.mem, e);
      DurableAppend(w.log, cut, None);
      IdleIsRecoverable(w, e, sender, p);
    }
  }

  lemma UnsavedIsRecoverable(w: World, e: Event, sender: Contact, p: WirePayload)
    requires Works(e) && w.mem.core.Some? && InSync(w.mem.core.value, Saved(w.log), Offered(w.log))
    requires p.Packed? && p.genuine && (Named(p).Some? ==> Named(p).value in Offered(w.log))
    requires Consumed(Handle(w.mem, e).mem.core, KeyOf(sender, p)) && KeyOf(sender, p) !in Saved(w.log).consumed
    ensures Redeliverable(Saved(w.log), sender, p)
  {
    if KeyOf(sender, p) !in w.mem.core.value.consumed {
      NewlyConsumed(w.mem, e, sender, p);
    }
  }

  lemma IdleIsRecoverable(w: World, e: Event, sender: Contact, p: WirePayload)
    requires !Works(e) && Matches(w.mem.core, w.log, true)
    requires e.StateArrived? && e.blob.Some? ==> e.blob == Durable(w.log)
    requires p.Packed? && p.genuine && Consumed(Handle(w.mem, e).mem.core, KeyOf(sender, p))
    ensures Consumed(Durable(w.log), KeyOf(sender, p)) || Redeliverable(Saved(w.log), sender, p)
  {
    IdleEvent(w.mem, e);
  }

  // ── What a crash does lose ──────────────────────────────────────────────────

  /** An empty session start has nothing to show. */
  predicate HasText(msg: Incoming)
    requires msg.payload.Packed?
  {
    msg.payload.number != 0 || msg.payload.body != []
  }

  /** The order save, acknowledge, display has a price: a crash leaves a message used up but not
      shown exactly when it falls after the save and before the display; and acknowledged but not
      shown exactly when it falls after the acknowledgement and before the display. */
  lemma LossWindow(m: Mem, msg: Incoming, env: Env, log: Log, n: nat)
    requires msg.payload.Packed? && HasText(msg) && env.exportOk && Received(m, msg, env)
    requires !Consumed(Durable(log), KeyOf(msg.sender, msg.payload))
    ensures var key, effects := KeyOf(msg.sender, msg.payload), Receive(m, msg, env).effects;
            var cut := Prefix(effects, n);
            && (Consumed(Durable(log + cut), key) && !Shown(cut, key) <==> 1 <= n < |effects|)
            && (Acked(cut, key) && !Shown(cut, key) <==> m.stream && env.sendOk && 2 <= n < |effects|)
  {
    ReceiveShape(m, msg, env);
    var o := Receive(m, msg, env);
    WindowOf(o.effects, o.mem.core.value, KeyOf(msg.sender, msg.payload), m.stream && env.sendOk, log, n);
  }

  /** Save first, display last, an acknowledgement, if any, right after the save. */
  predicate SaveAckShow(effects: Log, core: CoreState, key: ReceiveKey, acked: bool) {
    && |effects| >= (if acked then 3 else 2)
    && effects[0] == Save(core) && key in core.consumed
    && effects[|effects| - 1].Display? && effects[|effects| - 1].shown == key
    && (acked ==> effects[1].AckFrame? && effects[1].key == key)
    && forall i :: 1 <= i < |effects| - 1 ==>
         !effects[i].Display? && !effects[i].Save? && (effects[i].AckFrame? ==> acked && i == 1)
  }

  lemma ReceiveShape(m: Mem, msg: Incoming, env: Env)
    requires msg.payload.Packed? && HasText(msg) && env.exportOk && Received(m, msg, env)
    ensures var o := Receive(m, msg, env);
            && o.mem.core.Some?
            && SaveAckShow(o.effects, o.mem.core.value, KeyOf(msg.sender, msg.payload), m.stream && env.sendOk)
  {
  }

  lemma WindowOf(effects: Log, core: CoreState, key: ReceiveKey, acked: bool, log: Log, n: nat)
    requires SaveAckShow(effects, core, key, acked) && !Consumed(Durable(log), key)
    ensures var cut := Prefix(effects, n);
            && (Consumed(Durable(log + cut), key) && !Shown(cut, key) <==> 1 <= n < |effects|)
            && (Acked(cut, key) && !Shown(cut, key) <==> acked && 2 <= n < |effects|)
  {
    var cut := Prefix(effects, n);
    DurableAppend(log, cut, Some(core));
    assert n >= 1 ==> cut[0].Save?;
    assert n >= |effects| ==> cut[|effects| - 1].Display?;
    assert acked && n >= 2 ==> cut[1].AckFrame? && cut[1].key == key;
    assert forall k :: 0 <= k < |cut| ==> cut[k] == effects[k];
  }

  // ── What is shown again ──────────────────────────────────────────────────

  predicate ShowsNew(core: Option<CoreState>, effects: Log) {
    forall i :: 0 <= i < |effects| && effects[i].Display? ==> core.Some? && effects[i].shown !in core.value.consumed
  }

  lemma RespondShowsNew(m: Mem, msg: Incoming, env: Env)
    ensures ShowsNew(m.core, RespondFirst(m, msg, env).effects)
  {
  }

  lemma DecryptShowsNew(m: Mem, msg: Incoming, env: Env)
    ensures ShowsNew(m.core, DecryptOne(m, msg, env).effects)
  {
  }

  lemma FrameShowsNew(m: Mem, content: FrameContent, env: Env)
    ensures ShowsNew(m.core, ReceiveFrame(m, content, env).effects)
  {
    if content.Read? {
      var noted := NoteCursor(m, content.response.cursor);
      match RouteResponse(content.response, env.madeUp) {
        case Responder(msg) => RespondShowsNew(noted, msg, env);
        case Ordinary(msg) => DecryptShowsNew(noted, msg, env);
        case Receipts(ids, t) => ReceiptsAreReceipts(ids);
        case Nothing =>
      }
    }
  }

  lemma ShownKeysAreNew(m: Mem, e: Event)
    ensures ShowsNew(m.core, Handle(m, e).effects)
  {
    match e {
      case Frame(content, env) => FrameShowsNew(m, content, env);
      case PendingMessage(p) => RespondShowsNew(m, AsIncoming(p), p.env);
      case _ => OthersShowNothing(m, e);
    }
  }

  lemma OthersShowNothing(m: Mem, e: Event)
    requires !e.Frame? && !e.PendingMessage?
    ensures forall i :: 0 <= i < |Handle(m, e).effects| ==> !Handle(m, e).effects[i].Display?
  {
  }

  predicate ShownBetween(before: Log, after: Log, key: ReceiveKey)
    requires |before| <= |after|
  {
    exists i :: |before| <= i < |after| && after[i].Display? && after[i].shown == key
  }

  lemma EffectsHideKey(w: World, e: Event, key: ReceiveKey)
    requires Kept(w.mem.core, w.log, w.restored) && Consumed(Durable(w.log), key)
    requires Works(e) && w.mem.core.Some? ==> w.restored
    ensures forall i :: 0 <= i < |Handle(w.mem, e).effects| ==>
              var x := Handle(w.mem, e).effects[i]; !(x.Display? && x.shown == key)
  {
    ShownKeysAreNew(w.mem, e);
    if !Works(e) { IdleEvent(w.mem, e); }
  }

  lemma StepKeepsKey(w: World, a: Action, key: ReceiveKey)
    requires Kept(w.mem.core, w.log, w.restored) && Orderly(w, a) && Consumed(Durable(w.log), key)
    ensures Consumed(Durable(Next(w, a).log), key)
  {
    var e := EventOf(a);
    var o := Handle(w.mem, e);
    var cut := Prefix(o.effects, if a.Do? then |o.effects| else a.after);
    assert Next(w, a).log == w.log + cut;
    if Works(e) {
      WorkAdvances(w.mem, e);
      DurableAppend(w.log, cut, o.mem.core);
    } else {
      IdleEvent(w.mem, e);
      DurableAppend(w.log, cut, None);
    }
  }

  lemma StepNeverShows(w: World, a: Action, key: ReceiveKey)
    requires Kept(w.mem.core, w.log, w.restored) && Orderly(w, a) && Consumed(Durable(w.log), key)
    ensures w.log <= Next(w, a).log && !ShownBetween(w.log, Next(w, a).log, key)
  {
    var o := Handle(w.mem, EventOf(a));
    var cut := Prefix(o.effects, if a.Do? then |o.effects| else a.after);
    assert Next(w, a).log == w.log + cut;
    EffectsHideKey(w, EventOf(a), key);
    forall i | |w.log| <= i < |w.log + cut| ensures (w.log + cut)[i] == o.effects[i - |w.log|] {
    }
  }

  /** A message used up in the saved state is never shown afterwards, in any later life: what falls
      into the loss window is gone. */
  lemma {:induction false} NeverShownAgain(w: World, acts: seq<Action>, key: ReceiveKey)
    requires Kept(w.mem.core, w.log, w.restored) && AllOrderly(w, acts) && Consumed(Durable(w.log), key)
    ensures var log := RunFrom(w, acts).log;
            Consumed(Durable(log), key) && w.log <= log && !ShownBetween(w.log, log, key)
  {
    if acts != [] {
      var init := acts[..|acts| - 1];
      var r, a := RunFrom(w, init), acts[|acts| - 1];
      NeverShownAgain(w, init, key);
      RunKept(w, init);
      StepKeepsKey(r, a, key);
      StepNeverShows(r, a, key);
    }
  }

  lemma {:induction false} OrderlyPrepend(w: World, a: Action, acts: seq<Action>)
    requires Orderly(w, a) && AllOrderly(Next(w, a), acts)
    ensures AllOrderly(w, [a] + acts)
  {
    var all := [a] + acts;
    if acts == [] {
      assert all[..0] == [] && RunFrom(w, all[..0]) == w;
    } else {
      assert all[..|all| - 1] == [a] + acts[..|acts| - 1];
      OrderlyPrepend(w, a, acts[..|acts| - 1]);
      RunPrepend(w, a, acts[..|acts| - 1]);
    }
  }

  /** The keychain holds the session on which the payload, a genuine ordinary message, was sent. */
  predicate SavedSession(log: Log, sender: Contact, p: WirePayload) {
    && p.Packed? && p.genuine && p.number != 0
    && Durable(log).Some? && sender in Saved(log).sessions && Saved(log).sessions[sender].recvId == p.session
  }

  /** The payload in a batch, with every call failing that is not needed. */
  function Again(sender: Contact, p: WirePayload): Event {
    PendingMessage(Pending(true, sender, p, "", 0, Env(false, false, 0, false, false, "")))
  }

  lemma ShownOnRestart(w: World, sender: Contact, p: WirePayload)
    requires SavedSession(w.log, sender, p) && KeyOf(sender, p) !in Saved(w.log).consumed
    ensures var r := Restarted(w, Saved(w.log));
            && Orderly(r, Do(Again(sender, p)))
            && w.log <= r.log <= Next(r, Do(Again(sender, p))).log
            && ShownBetween(w.log, Next(r, Do(Again(sender, p))).log, KeyOf(sender, p))
  {
    var saved := Saved(w.log);
    var r := Restarted(w, saved);
    RestartHolds(w, saved);
    assert r.restored;
    var effects := Handle(r.mem, Again(sender, p)).effects;
    assert effects[0] == Display("", KeyOf(sender, p), p.body);
    assert Next(r, Do(Again(sender, p))).log[|r.log|] == effects[0];
  }

  lemma OrderlyRestart(w: World, acts: seq<Action>) returns (all: seq<Action>)
    requires Durable(w.log).Some? && AllOrderly(Restarted(w, Saved(w.log)), acts)
    ensures AllOrderly(w, all) && RunFrom(w, all) == RunFrom(Restarted(w, Saved(w.log)), acts)
  {
    var crash, keys := Crash(PlatformReady, 0), Do(KeysArrived(Usable));
    var state := Do(StateArrived(Some(Saved(w.log)), true));
    var w1 := Next(w, crash);
    var w2 := Next(w1, keys);
    assert w1.log == w.log && w2.log == w.log;
    OrderlyPrepend(w2, state, acts);
    RunPrepend(w2, state, acts);
    OrderlyPrepend(w1, keys, [state] + acts);
    RunPrepend(w1, keys, [state] + acts);
    OrderlyPrepend(w, crash, [keys] + ([state] + acts));
    RunPrepend(w, crash, [keys] + ([state] + acts));
    all := [crash] + ([keys] + ([state] + acts));
  }

  /** A continuation that shows the message: a crash, a restart, and the message again. */
  lemma ShownInContinuation(w: World, sender: Contact, p: WirePayload) returns (acts: seq<Action>)
    requires SavedSession(w.log, sender, p) && KeyOf(sender, p) !in Saved(w.log).consumed
    ensures AllOrderly(w, acts)
    ensures w.log <= RunFrom(w, acts).log && ShownBetween(w.log, RunFrom(w, acts).log, KeyOf(sender, p))
  {
    var r, a := Restarted(w, Saved(w.log)), Do(Again(sender, p));
    ShownOnRestart(w, sender, p);
    assert [a][..0] == [] && RunFrom(r, []) == r;
    assert AllOrderly(r, [a][..0]);
    assert RunFrom(r, [a]) == Next(r, a) && AllOrderly(r, [a]);
    acts := OrderlyRestart(w, [a]);
  }

  ghost predicate NeverShownFrom(w: World, key: ReceiveKey) {
    forall acts :: AllOrderly(w, acts) ==>
      w.log <= RunFrom(w, acts).log && !ShownBetween(w.log, RunFrom(w, acts).log, key)
  }

  /** Whether it was shown before or not, an ordinary message of a saved session is shown in no
      continuation exactly if its receive key is used up in the keychain. */
  lemma ShownNoMoreExactlyWhenSaved(w: World, sender: Contact, p: WirePayload)
    requires Kept(w.mem.core, w.log, w.restored) && SavedSession(w.log, sender, p)
    ensures NeverShownFrom(w, KeyOf(sender, p)) <==> Consumed(Durable(w.log), KeyOf(sender, p))
  {
    var key := KeyOf(sender, p);
    if Consumed(Durable(w.log), key) {
      forall acts | AllOrderly(w, acts)
        ensures w.log <= RunFrom(w, acts).log && !ShownBetween(w.log, RunFrom(w, acts).log, key)
      {
        NeverShownAgain(w, acts, key);
      }
    } else {
      var acts := ShownInContinuation(w, sender, p);
    }
  }

  /** A background batch shows its messages before it saves them: each of them may be shown once more,
      even if every export succeeds. */
  lemma BatchMayShowTwice(w: World, p: Pending)
    requires SavedSession(w.log, p.sender, p.payload) && Classify(w.mem, p).Decrypted?
    requires KeyOf(p.sender, p.payload) !in Saved(w.log).consumed
    ensures var r := Next(w, Do(PendingMessage(p)));
            && w.log <= r.log && ShownBetween(w.log, r.log, KeyOf(p.sender, p.payload))
            && !NeverShownFrom(r, KeyOf(p.sender, p.payload))
  {
    var a := Do(PendingMessage(p));
    var r, effects := Next(w, a), Handle(w.mem, PendingMessage(p)).effects;
    assert r.log == w.log + effects;
    assert r.log[|w.log|] == Display(p.messageId, KeyOf(p.sender, p.payload), p.payload.body);
    DurableAppend(w.log, effects, None);
    var acts := ShownInContinuation(r, p.sender, p.payload);
  }
}

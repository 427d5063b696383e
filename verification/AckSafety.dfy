/** What the engine's acknowledgements promise over whole runs (src/engine.rs:2006). */
module AckSafety {
  import opened Wrappers
  import opened Protocol
  import opened Ratchet
  import opened EngineSpec
  import opened CrashSafety
  import opened KeySafety

  predicate Consumed(core: Option<CoreState>, key: ReceiveKey) {
    core.Some? && key in core.value.consumed
  }

  /** Every acknowledged message's receive key is used up in the keychain. */
  predicate AckedSaved(log: Log) {
    forall i :: 0 <= i < |log| && log[i].AckFrame? ==> Consumed(Durable(log), log[i].key)
  }

  /** A message whose acknowledgement may reach the stream was saved first. */
  predicate ReceiptSaved(m: Mem, e: Event) {
    match e
    case Frame(_, env) => m.stream && env.sendOk ==> env.exportOk
    case PendingMessage(p) => m.stream && p.env.sendOk ==> p.env.exportOk
    case _ => true
  }

  /** The assumptions: the exports before acknowledgements succeed, and restores come first. */
  predicate Orderly(w: World, a: Action) {
    Restoring(w, a) && ReceiptSaved(w.mem, EventOf(a))
  }

  predicate AllOrderly(w: World, acts: seq<Action>) {
    acts != [] ==> AllOrderly(w, acts[..|acts| - 1]) && Orderly(RunFrom(w, acts[..|acts| - 1]), acts[|acts| - 1])
  }

  /** Memory has used up whatever the keychain has, so a save forgets nothing. */
  predicate Kept(core: Option<CoreState>, log: Log, restored: bool) {
    AckedSaved(log) && (core.Some? && restored ==> Saved(log).consumed <= core.value.consumed)
  }

  /** Saves write `core` and nothing else; each acknowledgement comes after a save and names a key
      used up in `core`. */
  predicate Sound(effects: Log, core: Option<CoreState>) {
    && (forall i :: 0 <= i < |effects| && effects[i].Save? ==> core == Some(effects[i].blob))
    && (forall i :: 0 <= i < |effects| && effects[i].AckFrame? ==>
          Consumed(core, effects[i].key) && exists j :: 0 <= j < i && effects[j].Save?)
  }

  lemma PrefixSound(effects: Log, core: Option<CoreState>, n: nat)
    requires Sound(effects, core)
    ensures Sound(Prefix(effects, n), core)
  {
    var p := Prefix(effects, n);
    forall i | 0 <= i < |p| && p[i].AckFrame? ensures exists j :: 0 <= j < i && p[j].Save? {
      var j :| 0 <= j < i && effects[j].Save?;
      assert p[j].Save?;
    }
  }

  lemma SoundKeepsAcks(core: Option<CoreState>, log: Log, effects: Log)
    requires AckedSaved(log) && Sound(effects, core)
    requires core.Some? ==> Saved(log).consumed <= core.value.consumed
    ensures AckedSaved(log + effects)
  {
    DurableAppend(log, effects, core);
    forall i | 0 <= i < |log + effects| && (log + effects)[i].AckFrame?
      ensures Consumed(Durable(log + effects), (log + effects)[i].key)
    {
      if i >= |log| {
        var j :| 0 <= j < i - |log| && effects[j].Save?;
      }
    }
  }

  /** What every handler guarantees: sound effects, and no receive key is forgotten. */
  predicate Advances(before: Option<CoreState>, o: Outcome) {
    && Sound(o.effects, o.mem.core)
    && (before.Some? ==> o.mem.core.Some? && before.value.consumed <= o.mem.core.value.consumed)
    && (before.None? ==> o.mem.core.None? && forall i :: 0 <= i < |o.effects| ==> !o.effects[i].Save?)
  }

  lemma RespondAdvances(m: Mem, msg: Incoming, env: Env)
    requires m.stream && env.sendOk ==> env.exportOk
    ensures Advances(m.core, RespondFirst(m, msg, env))
  {
    var o := RespondFirst(m, msg, env);
    if TryFirst(m, msg, env).Accepted? && env.exportOk {
      assert o.effects[0] == Save(o.mem.core.value);
    }
  }

  lemma DecryptAdvances(m: Mem, msg: Incoming, env: Env)
    requires m.stream && env.sendOk ==> env.exportOk
    ensures Advances(m.core, DecryptOne(m, msg, env))
  {
    var o := DecryptOne(m, msg, env);
    if TryDecrypt(m, msg.sender, msg.payload).Some? && env.exportOk {
      assert o.effects[0] == Save(o.mem.core.value);
    }
  }

  lemma PendingAdvances(m: Mem, p: Pending)
    requires ReceiptSaved(m, PendingMessage(p))
    ensures Advances(m.core, ReceivePending(m, p))
  {
    if Classify(m, p).SessionStart? {
      RespondAdvances(m, AsIncoming(p), p.env);
    }
  }

  lemma FrameAdvances(m: Mem, content: FrameContent, env: Env)
    requires ReceiptSaved(m, Frame(content, env))
    ensures Advances(m.core, ReceiveFrame(m, content, env))
  {
    if content.Read? {
      var noted := NoteCursor(m, content.response.cursor);
      match RouteResponse(content.response, env.madeUp) {
        case Responder(msg) => RespondAdvances(noted, msg, env);
        case Ordinary(msg) => DecryptAdvances(noted, msg, env);
        case Receipts(ids, t) => ReceiptsAreReceipts(ids);
        case Nothing =>
      }
    }
  }

  lemma SendAdvances(m: Mem, e: Event)
    requires e.SendMessage? || e.InitSession?
    ensures Advances(m.core, Handle(m, e))
  {
  }

  lemma KeysAdvance(m: Mem, e: Event)
    requires e.UploadKeys? || e.RotateKey? || e.PendingEnd?
    ensures Advances(m.core, Handle(m, e))
  {
  }

  lemma WorkAdvances(m: Mem, e: Event)
    requires Works(e) && ReceiptSaved(m, e)
    ensures Advances(m.core, Handle(m, e))
  {
    match e {
      case Frame(content, env) => FrameAdvances(m, content, env);
      case PendingMessage(p) => PendingAdvances(m, p);
      case SendMessage(_, _, _, _, _) => SendAdvances(m, e);
      case InitSession(_, _, _, _, _, _, _, _) => SendAdvances(m, e);
      case _ => KeysAdvance(m, e);
    }
  }

  /** After an outcome that was cut after `n` effects, or ran to its end. */
  lemma OutcomeKept(before: Option<CoreState>, o: Outcome, log: Log, n: nat)
    requires Kept(before, log, true) && Advances(before, o)
    ensures AckedSaved(log + Prefix(o.effects, n)) && Kept(o.mem.core, log + o.effects, true)
  {
    PrefixSound(o.effects, o.mem.core, n);
    SoundKeepsAcks(o.mem.core, log, Prefix(o.effects, n));
    SoundKeepsAcks(o.mem.core, log, o.effects);
    DurableAppend(log, o.effects, o.mem.core);
  }

  lemma IdleKept(log: Log, effects: Log)
    requires AckedSaved(log)
    requires forall i :: 0 <= i < |effects| ==> !effects[i].Save? && !effects[i].AckFrame?
    ensures AckedSaved(log + effects) && Durable(log + effects) == Durable(log)
  {
    DurableAppend(log, effects, None);
  }

  lemma NextKept(w: World, a: Action)
    requires Kept(w.mem.core, w.log, w.restored) && Orderly(w, a)
    ensures var r := Next(w, a); Kept(r.mem.core, r.log, r.restored)
  {
    var e := EventOf(a);
    var n := if a.Do? then |Handle(w.mem, e).effects| else a.after;
    if Works(e) {
      WorkAdvances(w.mem, e);
      OutcomeKept(w.mem.core, Handle(w.mem, e), w.log, n);
    } else {
      IdleEvent(w.mem, e);
      IdleKept(w.log, Prefix(Handle(w.mem, e).effects, n));
    }
  }

  lemma {:induction false} RunKept(w: World, acts: seq<Action>)
    requires Kept(w.mem.core, w.log, w.restored) && AllOrderly(w, acts)
    ensures var r := RunFrom(w, acts); Kept(r.mem.core, r.log, r.restored)
  {
    if acts != [] {
      RunKept(w, acts[..|acts| - 1]);
      NextKept(RunFrom(w, acts[..|acts| - 1]), acts[|acts| - 1]);
    }
  }

  /** Over every run, whatever the crash points, also inside a background batch: each message the
      engine acknowledged has its receive key used up in the saved state. */
  lemma {:induction false} AcksAreDurable(limit: nat, acts: seq<Action>)
    requires AllOrderly(Installed(limit), acts)
    ensures AckedSaved(RunFrom(Installed(limit), acts).log)
  {
    RunKept(Installed(limit), acts);
  }

  // ── Where the assumptions are needed, exactly ───────────────────────────────

  /** One message from the stream, on either path. */
  function Receive(m: Mem, msg: Incoming, env: Env): Outcome
    requires msg.payload.Packed?
  {
    if msg.payload.number == 0 then RespondFirst(m, msg, env) else DecryptOne(m, msg, env)
  }

  predicate Received(m: Mem, msg: Incoming, env: Env)
    requires msg.payload.Packed?
  {
    if msg.payload.number == 0 then TryFirst(m, msg, env).Accepted? else TryDecrypt(m, msg.sender, msg.payload).Some?
  }

  /** Acknowledging a message, a session start or an ordinary one, is safe exactly when its state was
      saved or the acknowledgement did not reach the stream. */
  lemma AckSafeExactlyWhenSaved(m: Mem, msg: Incoming, env: Env, log: Log)
    requires Kept(m.core, log, true) && msg.payload.Packed? && Received(m, msg, env)
    requires !Consumed(Durable(log), KeyOf(msg.sender, msg.payload))
    ensures AckedSaved(log + Receive(m, msg, env).effects) <==> env.exportOk || !(m.stream && env.sendOk)
  {
    var o, key := Receive(m, msg, env), KeyOf(msg.sender, msg.payload);
    if env.exportOk || !(m.stream && env.sendOk) {
      if msg.payload.number == 0 { RespondAdvances(m, msg, env); } else { DecryptAdvances(m, msg, env); }
      OutcomeKept(m.core, o, log, |o.effects|);
    } else {
      UnsavedReceipt(m, msg, env);
      DurableAppend(log, o.effects, None);
      assert (log + o.effects)[|log|] == AckFrame(msg.messageId, key);
    }
  }

  lemma UnsavedReceipt(m: Mem, msg: Incoming, env: Env)
    requires msg.payload.Packed? && Received(m, msg, env) && !env.exportOk && m.stream && env.sendOk
    ensures var effects := Receive(m, msg, env).effects;
            && effects != [] && effects[0] == AckFrame(msg.messageId, KeyOf(msg.sender, msg.payload))
            && forall i :: 0 <= i < |effects| ==> !effects[i].Save?
  {
  }

  /** Saving before the restore wipes the sessions and voids the acknowledgements given: a key upload
      on a core that was only just built keeps the promise exactly when there were none. */
  lemma UnrestoredSaveForgets(w: World, ids: set<KeyId>, answered: bool)
    requires w.mem.core == Some(BLANK)
    ensures var r := Next(w, Do(UploadKeys(ids, true, true, answered)));
            && Durable(r.log).Some? && Durable(r.log).value.sessions == map[]
            && (AckedSaved(r.log) <==> forall i :: 0 <= i < |w.log| ==> !w.log[i].AckFrame?)
  {
    var e := UploadKeys(ids, true, true, answered);
    var r, o := Next(w, Do(e)), Handle(w.mem, e);
    assert o.effects[0].Save?;
    DurableAppend(w.log, o.effects, o.mem.core);
    assert forall i :: 0 <= i < |w.log| ==> r.log[i] == w.log[i];
    assert forall i :: |w.log| <= i < |r.log| ==> r.log[i] == o.effects[i - |w.log|] && !r.log[i].AckFrame?;
  }
}

/** Uploaded public keys never lose their private halves (src/engine.rs:889-894, src/engine.rs:984-988):
    key batches and rotated pre-keys are saved before they are offered to the server. */
module KeySafety {
  import opened Wrappers
  import opened Protocol
  import opened Ratchet
  import opened EngineSpec
  import opened CrashSafety

  /** One-time pre-keys, and rotated signed pre-keys, sent to the server so far. */
  function Offered(log: Log): set<KeyId> {
    if log == [] then {}
    else
      var last := log[|log| - 1];
      Offered(log[..|log| - 1]) + if last.KeysUploadRequested? then last.offered else {}
  }

  function Rotated(log: Log): set<KeyId> {
    if log == [] then {}
    else
      var last := log[|log| - 1];
      Rotated(log[..|log| - 1]) + if last.SpkUploadRequested? then {last.rotated} else {}
  }

  lemma {:induction false} OfferedAppend(a: Log, b: Log)
    ensures Offered(a + b) == Offered(a) + Offered(b) && Rotated(a + b) == Rotated(a) + Rotated(b)
  {
    if b == [] {
      assert a + b == a;
    } else {
      assert (a + b)[..|a + b| - 1] == a + b[..|b| - 1];
      OfferedAppend(a, b[..|b| - 1]);
    }
  }

  function Saved(log: Log): CoreState {
    Durable(log).GetOr(BLANK)
  }

  /** One-time pre-keys that are held or were used up. */
  function Generated(core: CoreState): set<KeyId> {
    core.otpks + Spent(core)
  }

  /** The saved state holds the private half of each key the server was offered, unless it is a
      one-time key that a session start has spent. */
  predicate Covered(log: Log) {
    Offered(log) <= Generated(Saved(log)) && Rotated(log) <= Saved(log).spks
  }

  predicate NoOlder(core: CoreState, saved: CoreState) {
    Generated(saved) <= Generated(core) && saved.spks <= core.spks
  }

  predicate Keyed(core: Option<CoreState>, log: Log, restored: bool) {
    Covered(log) && (core.Some? && restored ==> NoOlder(core.value, Saved(log)))
  }

  predicate AllRestoring(w: World, acts: seq<Action>) {
    acts != [] ==>
      AllRestoring(w, acts[..|acts| - 1]) && Restoring(RunFrom(w, acts[..|acts| - 1]), acts[|acts| - 1])
  }

  predicate OffersNothing(effects: Log) {
    forall i :: 0 <= i < |effects| ==> !effects[i].KeysUploadRequested? && !effects[i].SpkUploadRequested?
  }

  lemma {:induction false} OffersNone(effects: Log)
    requires OffersNothing(effects)
    ensures Offered(effects) == {} && Rotated(effects) == {}
  {
    if effects != [] { OffersNone(effects[..|effects| - 1]); }
  }

  predicate Uploads(e: Event) {
    e.UploadKeys? || e.RotateKey?
  }

  /** Apart from uploads, work offers nothing, saves only the new state, and keys leave that state only
      by being spent. */
  predicate KeepsKeys(before: Option<CoreState>, o: Outcome) {
    && OffersNothing(o.effects)
    && (forall i :: 0 <= i < |o.effects| && o.effects[i].Save? ==> o.mem.core == Some(o.effects[i].blob))
    && (before.Some? ==> o.mem.core.Some? && NoOlder(o.mem.core.value, before.value))
    && (before.None? ==> o.mem.core.None?)
  }

  lemma RespondKeepsKeys(m: Mem, msg: Incoming, env: Env)
    ensures KeepsKeys(m.core, RespondFirst(m, msg, env))
  {
    var first := TryFirst(m, msg, env);
    if first.Accepted? {
      assert KeyOf(msg.sender, msg.payload) in first.core.consumed;
      assert NoOlder(first.core, m.core.value);
    }
  }

  lemma DecryptKeepsKeys(m: Mem, msg: Incoming, env: Env)
    ensures KeepsKeys(m.core, DecryptOne(m, msg, env))
  {
    var next := TryDecrypt(m, msg.sender, msg.payload);
    assert next.Some? ==> m.core.Some? && NoOlder(next.value, m.core.value);
  }

  lemma PendingKeepsKeys(m: Mem, p: Pending)
    ensures KeepsKeys(m.core, ReceivePending(m, p))
  {
    if Classify(m, p).SessionStart? {
      RespondKeepsKeys(m, AsIncoming(p), p.env);
    }
  }

  lemma SendKeepsKeys(m: Mem, e: Event)
    requires e.SendMessage? || e.InitSession?
    ensures KeepsKeys(m.core, Handle(m, e))
  {
    var o := Handle(m, e);
    if m.core.Some? {
      assert o.mem.core.Some?;
      assert o.mem.core.value.otpks == m.core.value.otpks && o.mem.core.value.consumed == m.core.value.consumed;
      assert o.mem.core.value.spks == m.core.value.spks;
    }
  }

  lemma FrameKeepsKeys(m: Mem, content: FrameContent, env: Env)
    ensures KeepsKeys(m.core, ReceiveFrame(m, content, env))
  {
    if content.Read? {
      var noted := NoteCursor(m, content.response.cursor);
      match RouteResponse(content.response, env.madeUp) {
        case Responder(msg) => RespondKeepsKeys(noted, msg, env);
        case Ordinary(msg) => DecryptKeepsKeys(noted, msg, env);
        case Receipts(ids, t) => ReceiptsAreReceipts(ids);
        case Nothing =>
      }
    }
  }

  lemma WorkKeepsKeys(m: Mem, e: Event)
    requires Works(e) && !Uploads(e)
    ensures KeepsKeys(m.core, Handle(m, e))
  {
    match e {
      case Frame(content, env) => FrameKeepsKeys(m, content, env);
      case PendingMessage(p) => PendingKeepsKeys(m, p);
      case PendingEnd(_, _, _) =>
      case _ => SendKeepsKeys(m, e);
    }
  }

  lemma QuietCovered(log: Log, core: Option<CoreState>, effects: Log)
    requires Covered(log) && OffersNothing(effects)
    requires forall i :: 0 <= i < |effects| && effects[i].Save? ==>
               core == Some(effects[i].blob) && NoOlder(effects[i].blob, Saved(log))
    ensures Covered(log + effects)
    ensures core.Some? && NoOlder(core.value, Saved(log)) ==> NoOlder(core.value, Saved(log + effects))
  {
    OffersNone(effects);
    OfferedAppend(log, effects);
    DurableAppend(log, effects, core);
    if exists i :: 0 <= i < |effects| && effects[i].Save? {
      var i :| 0 <= i < |effects| && effects[i].Save?;
      assert Durable(log + effects) == Some(effects[i].blob);
    }
  }

  lemma OfferOne(x: Effect)
    ensures Offered([x]) == if x.KeysUploadRequested? then x.offered else {}
    ensures Rotated([x]) == if x.SpkUploadRequested? then {x.rotated} else {}
  {
    assert [x][..0] == [];
  }

  lemma SaveCovers(log: Log, before: CoreState, core: CoreState)
    requires Covered(log) && NoOlder(before, Saved(log)) && NoOlder(core, before)
    ensures Covered(log + [Save(core)]) && Saved(log + [Save(core)]) == core
  {
    OffersNone([Save(core)]);
    OfferedAppend(log, [Save(core)]);
    assert (log + [Save(core)])[..|log|] == log;
  }

  lemma OfferCovers(log: Log, offer: Effect)
    requires Covered(log) && !offer.Save?
    requires Offered([offer]) <= Saved(log).otpks && Rotated([offer]) <= Saved(log).spks
    ensures Covered(log + [offer]) && Saved(log + [offer]) == Saved(log)
  {
    OfferedAppend(log, [offer]);
    assert (log + [offer])[..|log|] == log;
  }

  /** Save first, then offer: covered after every prefix. */
  lemma UploadCovered(log: Log, before: CoreState, core: CoreState, offer: Effect, rest: Log, n: nat)
    requires Covered(log) && NoOlder(before, Saved(log)) && NoOlder(core, before)
    requires !offer.Save? && Offered([offer]) <= core.otpks && Rotated([offer]) <= core.spks
    requires OffersNothing(rest) && forall i :: 0 <= i < |rest| ==> !rest[i].Save?
    ensures var after := log + Prefix([Save(core)] + ([offer] + rest), n);
            Covered(after) && (n >= 1 ==> Saved(after) == core)
  {
    PrefixStep(log, Save(core), [offer] + rest, n);
    if n > 0 {
      var saved := log + [Save(core)];
      SaveCovers(log, before, core);
      PrefixStep(saved, offer, rest, n - 1);
      if n > 1 {
        OfferCovers(saved, offer);
        IdleKeyed(saved + [offer], Prefix(rest, n - 2));
      }
    }
  }

  /** What an upload does: nothing visible, or a save of the new state and then the offer. */
  predicate Uploaded(before: Option<CoreState>, o: Outcome) {
    && before.Some? == o.mem.core.Some?
    && (before.Some? ==> NoOlder(o.mem.core.value, before.value))
    && (o.effects == [] || (o.mem.core.Some? && UploadEffects(o.mem.core.value, o.effects)))
  }

  lemma KeysShape(m: Mem, ids: set<KeyId>, generated: bool, exportOk: bool, answered: bool)
    ensures Uploaded(m.core, Upload(m, ids, generated, exportOk, answered))
  {
    var o := Upload(m, ids, generated, exportOk, answered);
    if o.effects != [] {
      OfferOne(o.effects[1]);
      assert o.effects == [Save(o.mem.core.value)] + ([o.effects[1]] + o.effects[2..]);
    }
  }

  lemma RotationShape(m: Mem, id: KeyId, generated: bool, exportOk: bool, answered: bool)
    ensures Uploaded(m.core, Rotate(m, id, generated, exportOk, answered))
  {
    var o := Rotate(m, id, generated, exportOk, answered);
    if o.effects != [] {
      OfferOne(o.effects[1]);
      assert o.effects == [Save(o.mem.core.value)] + ([o.effects[1]] + o.effects[2..]);
    }
  }

  lemma UploadShape(m: Mem, e: Event)
    requires Uploads(e)
    ensures Uploaded(m.core, Handle(m, e))
  {
    match e {
      case UploadKeys(ids, g, x, a) => KeysShape(m, ids, g, x, a);
      case RotateKey(id, g, x, a) => RotationShape(m, id, g, x, a);
    }
  }

  predicate UploadEffects(core: CoreState, effects: Log) {
    && |effects| >= 2
    && effects == [Save(core)] + ([effects[1]] + effects[2..])
    && !effects[1].Save? && Offered([effects[1]]) <= core.otpks && Rotated([effects[1]]) <= core.spks
    && OffersNothing(effects[2..]) && forall i :: 2 <= i < |effects| ==> !effects[i].Save?
  }

  lemma OfferedFirst(before: CoreState, o: Outcome, log: Log, n: nat)
    requires Keyed(Some(before), log, true) && o.mem.core.Some?
    requires NoOlder(o.mem.core.value, before) && UploadEffects(o.mem.core.value, o.effects)
    ensures var after := log + Prefix(o.effects, n);
            Covered(after) && (n >= 1 ==> Saved(after) == o.mem.core.value)
  {
    UploadCovered(log, before, o.mem.core.value, o.effects[1], o.effects[2..], n);
  }

  lemma UploadsKeyed(m: Mem, e: Event, log: Log, n: nat)
    requires Uploads(e) && Keyed(m.core, log, true)
    ensures var o := Handle(m, e); Covered(log + Prefix(o.effects, n)) && Keyed(o.mem.core, log + o.effects, true)
  {
    var o := Handle(m, e);
    UploadShape(m, e);
    if o.effects == [] {
      assert log + Prefix(o.effects, n) == log && log + o.effects == log;
    } else {
      OfferedFirst(m.core.value, o, log, n);
      OfferedFirst(m.core.value, o, log, |o.effects|);
      assert Prefix(o.effects, |o.effects|) == o.effects;
    }
  }

  lemma QuietKeyed(before: Option<CoreState>, o: Outcome, log: Log, n: nat)
    requires KeepsKeys(before, o) && Keyed(before, log, true)
    ensures Covered(log + Prefix(o.effects, n)) && Keyed(o.mem.core, log + o.effects, true)
  {
    QuietCovered(log, o.mem.core, Prefix(o.effects, n));
    QuietCovered(log, o.mem.core, o.effects);
  }

  lemma WorkKeyed(m: Mem, e: Event, log: Log, n: nat)
    requires Works(e) && Keyed(m.core, log, true)
    ensures var o := Handle(m, e); Covered(log + Prefix(o.effects, n)) && Keyed(o.mem.core, log + o.effects, true)
  {
    if Uploads(e) {
      UploadsKeyed(m, e, log, n);
    } else {
      WorkKeepsKeys(m, e);
      QuietKeyed(m.core, Handle(m, e), log, n);
    }
  }

  lemma IdleOffersNothing(m: Mem, e: Event)
    requires !Works(e)
    ensures OffersNothing(Handle(m, e).effects)
  {
  }

  lemma IdleKeyed(log: Log, effects: Log)
    requires Covered(log) && OffersNothing(effects)
    requires forall i :: 0 <= i < |effects| ==> !effects[i].Save?
    ensures Covered(log + effects) && Saved(log + effects) == Saved(log)
  {
    QuietCovered(log, None, effects);
    DurableAppend(log, effects, None);
  }

  lemma IdleCoreKeyed(w: World, e: Event)
    requires Keyed(w.mem.core, w.log, w.restored) && !Works(e)
    requires e.StateArrived? && e.blob.Some? ==> e.blob == Durable(w.log)
    ensures var core := Handle(w.mem, e).mem.core;
            core.Some? && RestoredAfter(w, e) ==> NoOlder(core.value, Saved(w.log))
  {
    IdleEvent(w.mem, e);
  }

  lemma IdleNextKeyed(w: World, a: Action)
    requires Keyed(w.mem.core, w.log, w.restored) && Restoring(w, a) && !Works(EventOf(a))
    ensures var r := Next(w, a); Keyed(r.mem.core, r.log, r.restored)
  {
    var e := EventOf(a);
    var o := Handle(w.mem, e);
    IdleEvent(w.mem, e);
    IdleOffersNothing(w.mem, e);
    IdleCoreKeyed(w, e);
    IdleResult(w, a, o);
  }

  lemma IdleResult(w: World, a: Action, o: Outcome)
    requires Covered(w.log) && o == Handle(w.mem, EventOf(a)) && OffersNothing(o.effects)
    requires forall i :: 0 <= i < |o.effects| ==> !o.effects[i].Save?
    requires o.mem.core.Some? && RestoredAfter(w, EventOf(a)) ==> NoOlder(o.mem.core.value, Saved(w.log))
    ensures var r := Next(w, a); Keyed(r.mem.core, r.log, r.restored)
  {
    if a.Do? {
      IdleKeyed(w.log, o.effects);
      assert Next(w, a) == World(o.mem, w.log + o.effects, w.minted + Mints(a.event), RestoredAfter(w, a.event));
    } else {
      IdleKeyed(w.log, Prefix(o.effects, a.after));
      assert Next(w, a).mem.core == None;
    }
  }

  lemma NextKeyed(w: World, a: Action)
    requires Keyed(w.mem.core, w.log, w.restored) && Restoring(w, a)
    ensures var r := Next(w, a); Keyed(r.mem.core, r.log, r.restored)
  {
    var e := EventOf(a);
    if Works(e) {
      WorkKeyed(w.mem, e, w.log, if a.Do? then |Handle(w.mem, e).effects| else a.after);
    } else {
      IdleNextKeyed(w, a);
    }
  }

  lemma {:induction false} RunKeyed(w: World, acts: seq<Action>)
    requires Keyed(w.mem.core, w.log, w.restored) && AllRestoring(w, acts)
    ensures var r := RunFrom(w, acts); Keyed(r.mem.core, r.log, r.restored)
  {
    if acts != [] {
      RunKeyed(w, acts[..|acts| - 1]);
      NextKeyed(RunFrom(w, acts[..|acts| - 1]), acts[|acts| - 1]);
    }
  }

  predicate RestoringRun(limit: nat, acts: seq<Action>) {
    AllRestoring(Installed(limit), acts)
  }

  predicate OfferedHeld(log: Log) {
    Offered(log) - Spent(Saved(log)) <= Saved(log).otpks && Rotated(log) <= Saved(log).spks
  }

  /** Over every run, whatever the crash points and whichever exports fail: the keychain holds the
      private half of every rotated pre-key ever offered to the server, and of every one-time
      pre-key that no session start has spent. */
  lemma {:induction false} OfferedKeysAreSaved(limit: nat, acts: seq<Action>)
    requires RestoringRun(limit, acts)
    ensures OfferedHeld(LogOf(limit, acts))
  {
    RunKeyed(Installed(limit), acts);
  }
}

/** The engine object (src/engine.rs): its handlers update the fields step by step and are proved
    to do what EngineSpec says; `trace` records what became visible outside. */
module Engine {
  import opened Bytes
  import opened Wrappers
  import opened Protocol
  import opened Ratchet
  import opened EngineSpec
  import opened BackgroundPush
  import opened CrashSafety
  import opened KeySafety
  import opened AckSafety
  import Grpc

  /** What `r` adds to what happened before. */
  function Then(before: Outcome, r: Outcome): Outcome {
    Outcome(r.mem, before.effects + r.effects)
  }

  class ConstructEngine {
    var core: Option<CoreState>
    var stream: bool
    var heal: map<Contact, nat>
    var params: Option<Params>
    const limit: nat
    ghost var trace: seq<Effect>

    function View(): Mem
      reads this
    {
      Mem(core, stream, heal, params, limit)
    }

    ghost function Now(): Outcome
      reads this
    {
      Outcome(View(), trace)
    }

    /** The configuration may carry the keys already; with malformed ones no engine is made. */
    constructor (limit: nat, hasKeys: bool)
      ensures Now() == Handle(Dead(limit), KeysArrived(if hasKeys then Usable else NoKeys))
    {
      core, stream, heal, params := if hasKeys then Some(BLANK) else None, false, map[], None;
      this.limit := limit;
      trace := [];
    }

    // ── Sending ───────────────────────────────────────────────────────────────

    method HandleSendMessage(contact: Contact, localId: string, ghostMode: bool, exportOk: bool, sendOk: bool)
      modifies this
      ensures Now() == Then(old(Now()), Send(old(View()), contact, localId, ghostMode, exportOk, sendOk))
    {
      if core.None? {
        trace := trace + [Status(localId, FAILED)];
        return;
      }
      var encrypted := Encrypt(core.value, contact);
      if encrypted.None? {
        trace := trace + [Status(localId, FAILED)];
        return;
      }
      core := Some(encrypted.value.core);
      if exportOk {
        trace := trace + [Save(encrypted.value.core)];
      }
      if stream {
        if sendOk {
          trace := trace + [SendFrame(contact, encrypted.value.sendId, encrypted.value.number, localId, ghostMode)];
          trace := trace + [Status(localId, SENT)];
        } else {
          trace := trace + [Status(localId, FAILED)];
        }
      } else {
        trace := trace + [Status(localId, FAILED)];
      }
    }

    method HandleAckMessage(messageId: string, sendOk: bool)
      modifies this
      ensures Now() == Then(old(Now()), Handle(old(View()), AckMessage(messageId, sendOk)))
    {
      if stream && sendOk {
        trace := trace + [UiReceipt(messageId)];
      }
    }

    method HandleInitSessionInitiator(contact: Contact, bundle: bool, agreed: bool, pinged: bool, newId: SessionId,
                                      localId: string, exportOk: bool, sendOk: bool)
      modifies this
      ensures Now() == Then(old(Now()), Initiate(old(View()), contact, bundle, agreed, pinged, newId, localId,
                                                 exportOk, sendOk))
    {
      if !bundle || core.None? || !agreed {
        trace := trace + [SessionError(contact)];
        return;
      }
      core := Some(Begin(core.value, contact, newId));
      if !pinged {
        trace := trace + [SessionError(contact)];
        return;
      }
      var encrypted := Encrypt(core.value, contact).value;
      core := Some(encrypted.core);
      if exportOk {
        trace := trace + [Save(encrypted.core)];
      }
      if stream && sendOk {
        trace := trace + [SendFrame(contact, encrypted.sendId, encrypted.number, localId, false)];
      }
      trace := trace + [Established(contact, localId)];
    }

    // ── Receiving ─────────────────────────────────────────────────────────────

    method SendAckFrame(messageId: string, key: ReceiveKey, sendOk: bool)
      modifies this`trace
      ensures trace == old(trace) + AckIf(View(), sendOk, messageId, key)
    {
      if stream && sendOk {
        trace := trace + [AckFrame(messageId, key)];
      }
    }

    /** The healing path: the failed message is queued again, or the sender's record is closed. */
    method Heal(msg: Incoming)
      modifies this`heal, this`trace
      ensures heal == Record(old(heal), limit, msg.sender, Failed)
      ensures trace == old(trace) + if Keeps(old(heal), limit, msg.sender, Failed) then [Retry(msg)]
                                    else [SessionError(msg.sender)]
    {
      var attempts := Attempts(heal, msg.sender);
      if attempts < limit {
        heal := heal[msg.sender := attempts + 1];
        trace := trace + [Retry(msg)];
      } else {
        heal := heal - {msg.sender};
        trace := trace + [SessionError(msg.sender)];
      }
    }

    /** The steps after a successful key agreement. */
    method FinishSession(msg: Incoming, env: Env)
      requires core.Some? && msg.payload.Packed?
      modifies this`trace
      ensures var key := KeyOf(msg.sender, msg.payload);
              trace == old(trace) + (SaveIf(env.exportOk, core.value)
                                     + AckIf(View(), env.sendOk, msg.messageId, key)
                                     + [Established(msg.sender, msg.messageId)]
                                     + if msg.payload.body != [] then [Display(msg.messageId, key, msg.payload.body)]
                                       else [])
    {
      if env.exportOk {
        trace := trace + [Save(core.value)];
      }
      SendAckFrame(msg.messageId, KeyOf(msg.sender, msg.payload), env.sendOk);
      trace := trace + [Established(msg.sender, msg.messageId)];
      if msg.payload.body != [] {
        trace := trace + [Display(msg.messageId, KeyOf(msg.sender, msg.payload), msg.payload.body)];
      }
    }

    method HandleSessionInitResponder(msg: Incoming, env: Env)
      modifies this
      ensures Now() == Then(old(Now()), RespondFirst(old(View()), msg, env))
    {
      if !env.bundle || !msg.payload.Packed? || core.None? {
        trace := trace + [SessionError(msg.sender)];
        return;
      }
      var accepted := AcceptFirst(core.value, msg.sender, msg.payload, env.newId, env.agreed);
      if accepted.None? {
        Heal(msg);
        return;
      }
      core := accepted;
      heal := heal - {msg.sender};
      FinishSession(msg, env);
    }

    method HandleDecryptMessage(msg: Incoming, env: Env)
      modifies this
      ensures Now() == Then(old(Now()), DecryptOne(old(View()), msg, env))
    {
      if core.None? {
        return;
      }
      var decrypted := Decrypt(core.value, msg.sender, msg.payload);
      if decrypted.None? {
        return;
      }
      core := decrypted;
      if env.exportOk {
        trace := trace + [Save(decrypted.value)];
      }
      SendAckFrame(msg.messageId, KeyOf(msg.sender, msg.payload), env.sendOk);
      trace := trace + [Display(msg.messageId, KeyOf(msg.sender, msg.payload), msg.payload.body)];
    }

    method HandleIncomingEnvelope(envelope: Envelope, env: Env)
      modifies this
      ensures Now() == Then(old(Now()), Dispatch(old(View()), RouteEnvelope(envelope, env.madeUp), env))
    {
      var sender := envelope.sender.GetOr("");
      if sender == "" {
        return;
      }
      if !envelope.payload.Packed? {
        return;
      }
      var messageId := envelope.messageId.GetOr(env.madeUp);
      var msg := Incoming(sender, envelope.payload, messageId, envelope.conversation, envelope.timestamp);
      if envelope.payload.number == 0 {
        HandleSessionInitResponder(msg, env);
      } else {
        HandleDecryptMessage(msg, env);
      }
    }

    method FireReceipts(ids: seq<string>)
      modifies this`trace
      ensures trace == old(trace) + ReceiptEffects(ids)
    {
      for i := 0 to |ids|
        invariant trace + ReceiptEffects(ids[i..]) == old(trace) + ReceiptEffects(ids)
      {
        assert ids[i..][1..] == ids[i + 1..];
        trace := trace + [DeliveryReceipt(ids[i])];
      }
      assert trace + ReceiptEffects(ids[|ids|..]) == trace;
    }

    method HandleResponse(r: StreamResponse, env: Env)
      modifies this
      ensures Now() == Then(old(Now()), ReceiveFrame(old(View()), Read(r), env))
    {
      if r.cursor.Some? && params.Some? {
        params := Some(params.value.(cursor := r.cursor));
      }
      if r.response.Some? {
        match r.response.value
        case Message(e) => HandleIncomingEnvelope(e, env);
        case DirectReceipt(ids, _) => FireReceipts(ids);
        case _ =>
      }
    }

    method HandleIncomingFrame(codec: Codec, frame: seq<byte>, env: Env)
      modifies this
      ensures Now() == Then(old(Now()), Handle(old(View()), Frame(ReadFrame(codec, frame), env)))
    {
      var decoded := Grpc.DecodeFrame(frame);
      if decoded.Err? {
        return;
      }
      var response := codec.decode(decoded.message);
      if response.None? {
        return;
      }
      HandleResponse(response.value, env);
    }

    // ── Keys, keychain and stream ─────────────────────────────────────────────

    method HandleUploadOtpks(ids: set<KeyId>, generated: bool, exportOk: bool, answered: bool)
      modifies this
      ensures Now() == Then(old(Now()), Upload(old(View()), ids, generated, exportOk, answered))
    {
      if core.None? || !generated {
        return;
      }
      core := Some(core.value.(otpks := core.value.otpks + ids));
      if !exportOk {
        return;
      }
      trace := trace + [Save(core.value)];
      trace := trace + [KeysUploadRequested(ids)];
      if answered {
        trace := trace + [KeysUploaded(|ids|)];
      }
    }

    method HandleRotateSpk(id: KeyId, generated: bool, exportOk: bool, answered: bool)
      modifies this
      ensures Now() == Then(old(Now()), Rotate(old(View()), id, generated, exportOk, answered))
    {
      if core.None? || !generated {
        return;
      }
      core := Some(core.value.(spks := core.value.spks + {id}));
      if !exportOk {
        return;
      }
      trace := trace + [Save(core.value)];
      trace := trace + [SpkUploadRequested(id)];
      if answered {
        trace := trace + [SpkRotated(id)];
      }
    }

    /** The keychain's answers: the keys blob builds a new core, the state blob fills it. */
    method HandlePrivateKeys(keys: KeysBlob)
      modifies this
      ensures Now() == Then(old(Now()), Handle(old(View()), KeysArrived(keys)))
    {
      if keys.Malformed? {
        return;
      }
      core := if keys.Usable? then Some(BLANK) else None;
      heal := map[];
    }

    method HandleOrchestratorState(blob: Option<CoreState>, imported: bool)
      modifies this
      ensures Now() == Then(old(Now()), TakeState(old(View()), blob, imported))
    {
      if blob.Some? && core.Some? && imported {
        core := blob;
        trace := trace + [Restored(blob.value.sessions.Keys)];
      }
    }

    method HandleOpenStream(conversations: seq<string>, cursor: Option<Cursor>, up: bool)
      modifies this
      ensures Now() == Then(old(Now()), Open(old(View()), Params(conversations, cursor), up))
    {
      params := Some(Params(conversations, cursor));
      if up {
        stream := true;
        trace := trace + [StreamReady(conversations, cursor)];
      } else {
        trace := trace + [StreamFailed];
      }
    }

    method ReopenStreamIfNeeded(up: bool)
      modifies this
      ensures Now() == Then(old(Now()), OpenAgain(old(View()), up))
    {
      if params.Some? {
        HandleOpenStream(params.value.conversations, params.value.cursor, up);
      }
    }

    /** The disconnect branch of the loop, as far as the stream is concerned. */
    method HandleDisconnect(up: bool)
      modifies this
      ensures Now() == Then(old(Now()), Handle(old(View()), Disconnect(up)))
    {
      stream := false;
      ReopenStreamIfNeeded(up);
    }

    method HandleCloseStream()
      modifies this
      ensures Now() == Then(old(Now()), Handle(old(View()), CloseStream))
    {
      stream := false;
    }

    // ── Background push ───────────────────────────────────────────────────────

    /** One message of a page; the results say whether it counts and whether it is an error. */
    method HandlePending(p: Pending) returns (counted: bool, failed: bool)
      modifies this
      ensures Now() == Then(old(Now()), ReceivePending(old(View()), p))
      ensures counted == Counts(Classify(old(View()), p)) && failed == Errs(Classify(old(View()), p))
    {
      if !p.relevant || p.payload.Empty? {
        return false, false;
      }
      if p.payload.Garbage? {
        return false, true;
      }
      if p.payload.number == 0 {
        HandleSessionInitResponder(Incoming(p.sender, p.payload, p.messageId, p.sender, p.timestamp), p.env);
        return true, false;
      }
      if core.None? {
        return false, true;
      }
      var decrypted := Decrypt(core.value, p.sender, p.payload);
      if decrypted.None? {
        return false, true;
      }
      core := decrypted;
      trace := trace + [Display(p.messageId, KeyOf(p.sender, p.payload), p.payload.body)];
      trace := trace + [Notification(p.messageId)];
      return true, false;
    }

    /** Where the batch stands: `start` is the state in which it began. */
    ghost predicate At(b: Batch, start: Outcome, decrypted: nat, hadErrors: bool)
      reads this
    {
      && View() == b.mem && trace == start.effects + b.effects
      && decrypted == b.decrypted % U32 && hadErrors == b.hadErrors
    }

    method HandleAndCount(p: Pending, count: nat, errors: bool, ghost b: Batch, ghost start: Outcome)
      returns (decrypted: nat, hadErrors: bool)
      requires At(b, start, count, errors)
      modifies this
      ensures At(Add(b, p), start, decrypted, hadErrors)
    {
      var counted, failed := HandlePending(p);
      decrypted := if counted then (count + 1) % U32 else count;
      hadErrors := errors || failed;
    }

    method HandlePage(messages: seq<Pending>, count: nat, errors: bool, ghost b: Batch, ghost start: Outcome)
      returns (decrypted: nat, hadErrors: bool)
      requires At(b, start, count, errors)
      modifies this
      ensures At(AddAll(b, messages), start, decrypted, hadErrors)
    {
      decrypted, hadErrors := count, errors;
      for i := 0 to |messages|
        invariant At(AddAll(b, messages[..i]), start, decrypted, hadErrors)
      {
        assert messages[..i + 1][..i] == messages[..i];
        decrypted, hadErrors := HandleAndCount(messages[i], decrypted, hadErrors, AddAll(b, messages[..i]), start);
      }
      assert messages[..|messages|] == messages;
    }

    method EndBackgroundPush(exportOk: bool, decrypted: nat, hadErrors: bool)
      modifies this`trace
      ensures Now() == Then(old(Now()), EndBatch(old(View()), exportOk, decrypted, hadErrors))
    {
      if core.Some? && exportOk {
        trace := trace + [Save(core.value)];
      }
      trace := trace + [BackgroundDone(decrypted, hadErrors)];
    }

    /** Pages are fetched until one says that there is no more, or a fetch fails. `left` bounds the
        number of calls; without a bound the loop would not end. */
    method FetchAll(server: Server, since: Option<nat>, ghost left: nat) returns (decrypted: nat, hadErrors: bool)
      requires Ends(server, 0, since, left)
      modifies this
      ensures var (messages, complete) := Fetched(server, 0, since, left);
              var b := Process(old(View()), messages);
              && Now() == Then(old(Now()), Outcome(b.mem, b.effects))
              && decrypted == b.decrypted % U32 && hadErrors == (b.hadErrors || !complete)
    {
      ghost var start := Now();
      ghost var (all, complete) := Fetched(server, 0, since, left);
      ghost var fetched: seq<Pending>, rest := [], left;
      var cursor, call := since, 0;
      var more := true;
      decrypted, hadErrors := 0, false;
      assert [] + all == all;
      while more
        invariant more ==> Remaining(server, call, cursor, rest, fetched, all, complete)
        invariant !more ==> complete && all == fetched
        invariant At(Process(start.mem, fetched), start, decrypted, hadErrors)
        decreases rest, more
      {
        var reply := server(call, cursor);
        if reply.NoPage? {
          hadErrors := true;
          assert fetched + [] == fetched;
          assert all == fetched && !complete;
          break;
        }
        decrypted, hadErrors := HandlePage(reply.messages, decrypted, hadErrors, Process(start.mem, fetched), start);
        AddAllAppend(Batch(start.mem, [], 0, false), fetched, reply.messages);
        PageTaken(server, call, cursor, rest, fetched, all, complete);
        fetched := fetched + reply.messages;
        more := reply.more;
        cursor, call := reply.next, call + 1;
        rest := rest - 1;
      }
      ghost var b := Process(start.mem, all);
      assert all == fetched && Now() == Then(start, Outcome(b.mem, b.effects));
    }

    method HandleBackgroundPush(server: Server, since: Option<nat>, exportOk: bool, ghost left: nat)
      requires Ends(server, 0, since, left)
      modifies this
      ensures Now() == Then(old(Now()), Push(old(View()), server, since, left, exportOk))
    {
      var decrypted, hadErrors := FetchAll(server, since, left);
      EndBackgroundPush(exportOk, decrypted, hadErrors);
    }

    // ── The event loop ────────────────────────────────────────────────────────

    /** Dispatch of one event. A frame is handed over as the loop has decoded it, and a background batch
        message by message. */
    method HandleEvent(e: Event)
      modifies this
      ensures Now() == Then(old(Now()), Handle(old(View()), e))
    {
      match e
      case PlatformReady => trace := trace + [LoadRequested];
      case SendMessage(c, id, g, x, s) => HandleSendMessage(c, id, g, x, s);
      case AckMessage(id, s) => HandleAckMessage(id, s);
      case InitSession(c, b, a, p, n, id, x, s) => HandleInitSessionInitiator(c, b, a, p, n, id, x, s);
      case Frame(Unreadable, _) =>
      case Frame(Read(r), env) => HandleResponse(r, env);
      case PendingMessage(p) => var _, _ := HandlePending(p);
      case PendingEnd(x, n, bad) => EndBackgroundPush(x, n, bad);
      case UploadKeys(ids, g, x, a) => HandleUploadOtpks(ids, g, x, a);
      case RotateKey(id, g, x, a) => HandleRotateSpk(id, g, x, a);
      case KeysArrived(keys) => HandlePrivateKeys(keys);
      case StateArrived(blob, ok) => HandleOrchestratorState(blob, ok);
      case OpenStream(cs, since, up) => HandleOpenStream(cs, since, up);
      case Reopen(up) => ReopenStreamIfNeeded(up);
      case Disconnect(up) => HandleDisconnect(up);
      case CloseStream => HandleCloseStream();
    }

    /** One life of the engine on a device that it was just installed on: whatever the loop handles, no
        number is sent twice, every acknowledged message is saved, and every key offered is held. */
    method EventLoop(ghost keys: KeysBlob, events: seq<Event>)
      requires Now() == Handle(Dead(limit), KeysArrived(keys))
      requires var life := Life([KeysArrived(keys)] + events);
               AllLawful(Installed(limit), life) && AllOrderly(Installed(limit), life)
      modifies this
      ensures Now() == HandleAll(Dead(limit), [KeysArrived(keys)] + events)
      ensures NoReuse(trace) && AckedSaved(trace) && Covered(trace)
    {
      ghost var all := [KeysArrived(keys)] + events;
      assert all[..1] == [KeysArrived(keys)] && all[..1][..0] == [];
      for i := 0 to |events|
        invariant Now() == HandleAll(Dead(limit), all[..i + 1])
      {
        HandleEvent(events[i]);
        assert all[..i + 2][..i + 1] == all[..i + 1];
      }
      assert all[..|all|] == all;
      LifeIsSafe(limit, all);
    }
  }

  /** A life without a crash. */
  function Life(events: seq<Event>): (acts: seq<Action>)
    ensures |acts| == |events| && forall i :: 0 <= i < |events| ==> acts[i] == Do(events[i])
  {
    seq(|events|, i requires 0 <= i < |events| => Do(events[i]))
  }

  lemma {:induction false} LifeIsRun(limit: nat, events: seq<Event>)
    ensures var w, o := RunFrom(Installed(limit), Life(events)), HandleAll(Dead(limit), events);
            w.mem == o.mem && w.log == o.effects
  {
    if events != [] {
      var acts := Life(events);
      assert acts[..|acts| - 1] == Life(events[..|events| - 1]);
      LifeIsRun(limit, events[..|events| - 1]);
    }
  }

  lemma {:induction false} OrderlyIsRestoring(w: World, acts: seq<Action>)
    requires AllOrderly(w, acts)
    ensures AllRestoring(w, acts)
  {
    if acts != [] { OrderlyIsRestoring(w, acts[..|acts| - 1]); }
  }

  lemma LifeIsSafe(limit: nat, events: seq<Event>)
    requires AllLawful(Installed(limit), Life(events)) && AllOrderly(Installed(limit), Life(events))
    ensures var effects := HandleAll(Dead(limit), events).effects;
            NoReuse(effects) && AckedSaved(effects) && Covered(effects)
  {
    LifeIsRun(limit, events);
    NumbersNeverReused(limit, Life(events));
    AcksAreDurable(limit, Life(events));
    OrderlyIsRestoring(Installed(limit), Life(events));
    RunKeyed(Installed(limit), Life(events));
  }
}

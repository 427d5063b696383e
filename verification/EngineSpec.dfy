/** The handlers of src/engine.rs as functions: what each does to the engine's volatile state, and
    its outside effects in order. The outcomes of the network, the keychain and the key agreement
    are part of the events. */
module EngineSpec {
  import opened Bytes
  import opened Wrappers
  import opened Protocol
  import opened Ratchet

  datatype Params = Params(conversations: seq<string>, cursor: Option<Cursor>)

  /** Everything a crash wipes out. `heal` counts the healing attempts on record per sender, of
      which the core allows `limit`. */
  datatype Mem = Mem(core: Option<CoreState>, stream: bool, heal: map<Contact, nat>, params: Option<Params>, limit: nat)

  function Dead(limit: nat): Mem {
    Mem(None, false, map[], None, limit)
  }

  const FAILED: nat := 4
  const SENT: nat := 1

  /** Effects in the order they become visible: a crash can fall before any of them. `Save` is the
      durable keychain write. `SendFrame`, `AckFrame` and `UiReceipt` are frames accepted by the
      stream queue; an acknowledgement carries the message id, and `key` is the payload it answers. */
  datatype Effect =
    | Save(blob: CoreState)
    | LoadRequested
    | SendFrame(contact: Contact, sendId: SessionId, number: nat, localId: string, sealed: bool)
    | AckFrame(messageId: string, key: ReceiveKey)
    | UiReceipt(receiptId: string)
    | Status(statusId: string, code: nat)
    | Display(displayId: string, shown: ReceiveKey, body: seq<byte>)
    | Notification(notifiedId: string)
    | Established(peer: Contact, sessionName: string)
    | SessionError(failedPeer: Contact)
    | Retry(message: Incoming)
    | DeliveryReceipt(receivedId: string)
    | Restored(contacts: set<Contact>)
    | KeysUploadRequested(offered: set<KeyId>)
    | KeysUploaded(uploaded: nat)
    | SpkUploadRequested(rotated: KeyId)
    | SpkRotated(spk: KeyId)
    | StreamReady(subscribed: seq<string>, behind: Option<Cursor>)
    | StreamFailed
    | BackgroundDone(decrypted: nat, hadErrors: bool)

  datatype Outcome = Outcome(mem: Mem, effects: seq<Effect>)

  /** The environment's answers during the handling of one incoming message: whether the peer's
      bundle arrives, whether the key agreement works, the new session's identity, whether the state
      exports, whether the stream queue accepts a frame, and a made-up message id. */
  datatype Env = Env(bundle: bool, agreed: bool, newId: SessionId, exportOk: bool, sendOk: bool, madeUp: string)

  /** A message of a background batch; `relevant` is false for control types. */
  datatype Pending = Pending(relevant: bool, sender: Contact, payload: WirePayload, messageId: string,
                             timestamp: int, env: Env)

  /** The private keys from the keychain: an empty blob takes the core away, a malformed one is ignored. */
  datatype KeysBlob = Usable | NoKeys | Malformed

  function NewCore(keys: KeysBlob, core: Option<CoreState>): Option<CoreState> {
    match keys
    case Usable => Some(BLANK)
    case NoKeys => None
    case Malformed => core
  }

  datatype Event =
    | PlatformReady
    | SendMessage(contact: Contact, localId: string, ghostMode: bool, exportOk: bool, sendOk: bool)
    | AckMessage(messageId: string, sendOk: bool)
    | InitSession(contact: Contact, bundle: bool, agreed: bool, pinged: bool, newId: SessionId, localId: string,
                  exportOk: bool, sendOk: bool)
    | Frame(content: FrameContent, env: Env)
    | PendingMessage(pending: Pending)
    | PendingEnd(exportOk: bool, decrypted: nat, hadErrors: bool)
    | UploadKeys(ids: set<KeyId>, generated: bool, exportOk: bool, answered: bool)
    | RotateKey(id: KeyId, generated: bool, exportOk: bool, answered: bool)
    | KeysArrived(keys: KeysBlob)
    | StateArrived(blob: Option<CoreState>, imported: bool)
    | OpenStream(conversations: seq<string>, since: Option<Cursor>, up: bool)
    | Reopen(up: bool)
    | Disconnect(up: bool)
    | CloseStream

  // ── Pieces shared by the handlers ───────────────────────────────────────────

  /** A failed export leaves no bytes, and the save is skipped. */
  function SaveIf(exportOk: bool, core: CoreState): seq<Effect> {
    if exportOk then [Save(core)] else []
  }

  /** `send_ack_frame`: nothing happens without a stream that accepts the frame. */
  function AckIf(m: Mem, sendOk: bool, messageId: string, key: ReceiveKey): seq<Effect> {
    if m.stream && sendOk then [AckFrame(messageId, key)] else []
  }

  function Attempts(heal: map<Contact, nat>, sender: Contact): nat {
    if sender in heal then heal[sender] else 0
  }

  // ── Handlers ────────────────────────────────────────────────────────────────

  function Send(m: Mem, contact: Contact, localId: string, ghostMode: bool, exportOk: bool, sendOk: bool): Outcome {
    var encrypted := if m.core.None? then None else Encrypt(m.core.value, contact);
    match encrypted
    case None => Outcome(m, [Status(localId, FAILED)])
    case Some(e) =>
      Outcome(m.(core := Some(e.core)),
              SaveIf(exportOk, e.core)
              + if m.stream && sendOk then
                  [SendFrame(contact, e.sendId, e.number, localId, ghostMode), Status(localId, SENT)]
                else [Status(localId, FAILED)])
  }

  /** `pinged` tells whether the new session encrypts its first message; if not, it stays begun in
      memory and nothing is saved. */
  function Initiate(m: Mem, contact: Contact, bundle: bool, agreed: bool, pinged: bool, newId: SessionId,
                    localId: string, exportOk: bool, sendOk: bool): Outcome {
    if !bundle || m.core.None? || !agreed then Outcome(m, [SessionError(contact)])
    else if !pinged then
      Outcome(m.(core := Some(Begin(m.core.value, contact, newId))), [SessionError(contact)])
    else
      var e := Encrypt(Begin(m.core.value, contact, newId), contact).value;
      Outcome(m.(core := Some(e.core)),
              SaveIf(exportOk, e.core)
              + (if m.stream && sendOk then [SendFrame(contact, e.sendId, e.number, localId, false)] else [])
              + [Established(contact, localId)])
  }

  /** The outcome of one run of the responder path, as far as healing is concerned. */
  datatype FirstMessage = Accepted(core: CoreState) | Rejected | Abandoned

  function TryFirst(m: Mem, msg: Incoming, env: Env): FirstMessage {
    if !env.bundle || !msg.payload.Packed? || m.core.None? then Abandoned
    else
      match AcceptFirst(m.core.value, msg.sender, msg.payload, env.newId, env.agreed)
      case Some(core) => Accepted(core)
      case None => Rejected
  }

  /** How a run of the responder path ends for the healing record of its sender. A run that gave up
      before the key agreement (no bundle, unreadable payload, no core) drops the message without
      touching the record. */
  datatype Fate = Healed | Failed | Dropped

  function FateOf(first: FirstMessage): Fate {
    match first
    case Accepted(_) => Healed
    case Rejected => Failed
    case Abandoned => Dropped
  }

  function Record(heal: map<Contact, nat>, limit: nat, s: Contact, fate: Fate): map<Contact, nat> {
    match fate
    case Healed => heal - {s}
    case Dropped => heal
    case Failed => if Attempts(heal, s) < limit then heal[s := Attempts(heal, s) + 1] else heal - {s}
  }

  predicate Keeps(heal: map<Contact, nat>, limit: nat, s: Contact, fate: Fate) {
    fate.Failed? && Attempts(heal, s) < limit
  }

  function RespondFirst(m: Mem, msg: Incoming, env: Env): Outcome {
    var first := TryFirst(m, msg, env);
    var fate := FateOf(first);
    var healed := m.(heal := Record(m.heal, m.limit, msg.sender, fate));
    match first
    case Accepted(core) =>
      var key := KeyOf(msg.sender, msg.payload);
      Outcome(healed.(core := Some(core)),
              SaveIf(env.exportOk, core)
              + AckIf(m, env.sendOk, msg.messageId, key)
              + [Established(msg.sender, msg.messageId)]
              + if msg.payload.body != [] then [Display(msg.messageId, key, msg.payload.body)] else [])
    case Abandoned => Outcome(healed, [SessionError(msg.sender)])
    case Rejected =>
      Outcome(healed, if Keeps(m.heal, m.limit, msg.sender, fate) then [Retry(msg)] else [SessionError(msg.sender)])
  }

  function TryDecrypt(m: Mem, sender: Contact, p: WirePayload): Option<CoreState> {
    if m.core.None? then None else Decrypt(m.core.value, sender, p)
  }

  function DecryptOne(m: Mem, msg: Incoming, env: Env): Outcome {
    match TryDecrypt(m, msg.sender, msg.payload)
    case None => Outcome(m, [])
    case Some(core) =>
      var key := KeyOf(msg.sender, msg.payload);
      Outcome(m.(core := Some(core)),
              SaveIf(env.exportOk, core)
              + AckIf(m, env.sendOk, msg.messageId, key)
              + [Display(msg.messageId, key, msg.payload.body)])
  }

  function ReceiptEffects(ids: seq<string>): seq<Effect> {
    if ids == [] then [] else [DeliveryReceipt(ids[0])] + ReceiptEffects(ids[1..])
  }

  /** A receipt's identifiers are reported in order, and nothing else happens. */
  lemma {:induction false} ReceiptsAreReceipts(ids: seq<string>)
    ensures |ReceiptEffects(ids)| == |ids|
    ensures forall i :: 0 <= i < |ids| ==> ReceiptEffects(ids)[i] == DeliveryReceipt(ids[i])
  {
    if ids != [] { ReceiptsAreReceipts(ids[1..]); }
  }

  function Dispatch(m: Mem, route: Route, env: Env): Outcome {
    match route
    case Nothing => Outcome(m, [])
    case Receipts(ids, _) => Outcome(m, ReceiptEffects(ids))
    case Responder(msg) => RespondFirst(m, msg, env)
    case Ordinary(msg) => DecryptOne(m, msg, env)
  }

  function NoteCursor(m: Mem, cursor: Option<Cursor>): Mem {
    if cursor.Some? && m.params.Some? then m.(params := Some(m.params.value.(cursor := cursor))) else m
  }

  function ReceiveFrame(m: Mem, content: FrameContent, env: Env): Outcome {
    match content
    case Unreadable => Outcome(m, [])
    case Read(r) => Dispatch(NoteCursor(m, r.cursor), RouteResponse(r, env.madeUp), env)
  }

  // ── Background batches ──────────────────────────────────────────────────────

  /** The fate of one message of a batch. */
  datatype Class = Skipped | NotUnpacked | SessionStart | Decrypted | Undecrypted

  function Classify(m: Mem, p: Pending): Class {
    if !p.relevant || p.payload.Empty? then Skipped
    else if p.payload.Garbage? then NotUnpacked
    else if p.payload.number == 0 then SessionStart
    else if TryDecrypt(m, p.sender, p.payload).Some? then Decrypted
    else Undecrypted
  }

  function AsIncoming(p: Pending): Incoming {
    Incoming(p.sender, p.payload, p.messageId, p.sender, p.timestamp)
  }

  function ReceivePending(m: Mem, p: Pending): Outcome {
    match Classify(m, p)
    case SessionStart => RespondFirst(m, AsIncoming(p), p.env)
    case Decrypted =>
      Outcome(m.(core := TryDecrypt(m, p.sender, p.payload)),
              [Display(p.messageId, KeyOf(p.sender, p.payload), p.payload.body), Notification(p.messageId)])
    case _ => Outcome(m, [])
  }

  function EndBatch(m: Mem, exportOk: bool, decrypted: nat, hadErrors: bool): Outcome {
    Outcome(m, (if m.core.Some? then SaveIf(exportOk, m.core.value) else []) + [BackgroundDone(decrypted, hadErrors)])
  }

  // ── Keys, keychain and stream ───────────────────────────────────────────────

  /** Key generation and rotation: a failed export stops the handler before anything is uploaded. */
  function Upload(m: Mem, ids: set<KeyId>, generated: bool, exportOk: bool, answered: bool): Outcome {
    if m.core.None? || !generated then Outcome(m, [])
    else
      var core := m.core.value.(otpks := m.core.value.otpks + ids);
      Outcome(m.(core := Some(core)),
              if !exportOk then []
              else [Save(core), KeysUploadRequested(ids)] + if answered then [KeysUploaded(|ids|)] else [])
  }

  function Rotate(m: Mem, id: KeyId, generated: bool, exportOk: bool, answered: bool): Outcome {
    if m.core.None? || !generated then Outcome(m, [])
    else
      var core := m.core.value.(spks := m.core.value.spks + {id});
      Outcome(m.(core := Some(core)),
              if !exportOk then []
              else [Save(core), SpkUploadRequested(id)] + if answered then [SpkRotated(id)] else [])
  }

  function TakeState(m: Mem, blob: Option<CoreState>, imported: bool): Outcome {
    if blob.None? || m.core.None? || !imported then Outcome(m, [])
    else Outcome(m.(core := blob), [Restored(blob.value.sessions.Keys)])
  }

  function Open(m: Mem, p: Params, up: bool): Outcome {
    var m := m.(params := Some(p));
    if up then Outcome(m.(stream := true), [StreamReady(p.conversations, p.cursor)]) else Outcome(m, [StreamFailed])
  }

  function OpenAgain(m: Mem, up: bool): Outcome {
    if m.params.Some? then Open(m, m.params.value, up) else Outcome(m, [])
  }

  function Handle(m: Mem, e: Event): Outcome {
    match e
    case PlatformReady => Outcome(m, [LoadRequested])
    case SendMessage(c, id, g, x, s) => Send(m, c, id, g, x, s)
    case AckMessage(id, s) => Outcome(m, if m.stream && s then [UiReceipt(id)] else [])
    case InitSession(c, b, a, p, n, id, x, s) => Initiate(m, c, b, a, p, n, id, x, s)
    case Frame(content, env) => ReceiveFrame(m, content, env)
    case PendingMessage(p) => ReceivePending(m, p)
    case PendingEnd(x, n, bad) => EndBatch(m, x, n, bad)
    case UploadKeys(ids, g, x, a) => Upload(m, ids, g, x, a)
    case RotateKey(id, g, x, a) => Rotate(m, id, g, x, a)
    case KeysArrived(keys) =>
      Outcome(m.(core := NewCore(keys, m.core), heal := if keys.Malformed? then m.heal else map[]), [])
    case StateArrived(blob, ok) => TakeState(m, blob, ok)
    case OpenStream(cs, since, up) => Open(m, Params(cs, since), up)
    case Reopen(up) => OpenAgain(m, up)
    case Disconnect(up) => OpenAgain(m.(stream := false), up)
    case CloseStream => Outcome(m.(stream := false), [])
  }

  /** The event opens the stream anew, given whether parameters are stored. */
  predicate OpensStream(e: Event, stored: bool) {
    match e
    case OpenStream(_, _, up) => up
    case Reopen(up) => up && stored
    case Disconnect(up) => up && stored
    case _ => false
  }

  /** A stretch of events handled without a crash. */
  function HandleAll(m: Mem, events: seq<Event>): Outcome {
    if events == [] then Outcome(m, [])
    else
      var before := HandleAll(m, events[..|events| - 1]);
      var last := Handle(before.mem, events[|events| - 1]);
      Outcome(last.mem, before.effects + last.effects)
  }
}

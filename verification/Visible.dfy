/** What each event has to make visible, and what it has to leave behind (src/engine.rs): stated kind by
    kind from the event and the state it meets, not handler by handler. */
module Visible {
  import opened Wrappers
  import opened Protocol
  import opened Ratchet
  import opened EngineSpec

  datatype Kind =
    | Loads | Saves | MessageFrames | Acks | UiReceipts | Statuses | Texts | Notices | Sessions | Errors
    | Retries | ReceiptsSeen | Restores | Offers | Uploads | Rotations | RotationsDone | Streams | StreamErrors
    | Completions

  function KindOf(x: Effect): Kind {
    match x
    case LoadRequested => Loads
    case Save(_) => Saves
    case SendFrame(_, _, _, _, _) => MessageFrames
    case AckFrame(_, _) => Acks
    case UiReceipt(_) => UiReceipts
    case Status(_, _) => Statuses
    case Display(_, _, _) => Texts
    case Notification(_) => Notices
    case Established(_, _) => Sessions
    case SessionError(_) => Errors
    case Retry(_) => Retries
    case DeliveryReceipt(_) => ReceiptsSeen
    case Restored(_) => Restores
    case KeysUploadRequested(_) => Offers
    case KeysUploaded(_) => Uploads
    case SpkUploadRequested(_) => Rotations
    case SpkRotated(_) => RotationsDone
    case StreamReady(_, _) => Streams
    case StreamFailed => StreamErrors
    case BackgroundDone(_, _) => Completions
  }

  function Filter(effects: seq<Effect>, keep: Effect -> bool): seq<Effect> {
    if effects == [] then []
    else
      var last := effects[|effects| - 1];
      Filter(effects[..|effects| - 1], keep) + if keep(last) then [last] else []
  }

  function Is(k: Kind): Effect -> bool {
    x => KindOf(x) == k
  }

  /** The effects of one kind, in order. */
  function Only(effects: seq<Effect>, k: Kind): seq<Effect> {
    Filter(effects, Is(k))
  }

  lemma {:induction false} FilterAppend(a: seq<Effect>, b: seq<Effect>, keep: Effect -> bool)
    ensures Filter(a + b, keep) == Filter(a, keep) + Filter(b, keep)
  {
    if b == [] {
      assert a + b == a;
    } else {
      assert (a + b)[..|a + b| - 1] == a + b[..|b| - 1];
      FilterAppend(a, b[..|b| - 1], keep);
    }
  }

  lemma {:induction false} FilterAll(effects: seq<Effect>, keep: Effect -> bool, all: bool)
    requires forall i :: 0 <= i < |effects| ==> keep(effects[i]) == all
    ensures Filter(effects, keep) == if all then effects else []
  {
    if effects != [] {
      FilterAll(effects[..|effects| - 1], keep, all);
      assert effects == effects[..|effects| - 1] + [effects[|effects| - 1]];
    }
  }

  function Opt(c: bool, x: Effect): seq<Effect> {
    if c then [x] else []
  }

  lemma FilterOpt(c: bool, x: Effect, keep: Effect -> bool)
    ensures Filter(Opt(c, x), keep) == Opt(c && keep(x), x)
  {
    assert [x][..0] == [];
  }

  /** An effect that may be left out. */
  datatype Slot = Slot(present: bool, effect: Effect)

  function Fill(x: Slot): seq<Effect> {
    Opt(x.present, x.effect)
  }

  /** The slot of kind `k`, if there is one. */
  function Choose2(x: Slot, y: Slot, k: Kind): seq<Effect> {
    if k == KindOf(x.effect) then Fill(x) else if k == KindOf(y.effect) then Fill(y) else []
  }

  function Choose3(x: Slot, y: Slot, z: Slot, k: Kind): seq<Effect> {
    if k == KindOf(z.effect) then Fill(z) else Choose2(x, y, k)
  }

  function Choose4(w: Slot, x: Slot, y: Slot, z: Slot, k: Kind): seq<Effect> {
    if k == KindOf(z.effect) then Fill(z) else Choose3(w, x, y, k)
  }

  lemma OneSlot(x: Slot, effects: seq<Effect>, k: Kind)
    requires effects == Fill(x)
    ensures Only(effects, k) == if k == KindOf(x.effect) then Fill(x) else []
  {
    FilterOpt(x.present, x.effect, Is(k));
  }

  lemma AddSlot(effects: seq<Effect>, z: Slot, k: Kind)
    ensures Only(effects + Fill(z), k) == Only(effects, k) + if k == KindOf(z.effect) then Fill(z) else []
  {
    FilterOpt(z.present, z.effect, Is(k));
    FilterAppend(effects, Fill(z), Is(k));
  }

  lemma TwoSlots(x: Slot, y: Slot, effects: seq<Effect>, k: Kind)
    requires effects == Fill(x) + Fill(y) && KindOf(x.effect) != KindOf(y.effect)
    ensures Only(effects, k) == Choose2(x, y, k)
  {
    OneSlot(x, Fill(x), k);
    AddSlot(Fill(x), y, k);
    assert [] + Fill(y) == Fill(y) && Fill(x) + [] == Fill(x);
  }

  lemma ThreeSlots(x: Slot, y: Slot, z: Slot, effects: seq<Effect>, k: Kind)
    requires effects == Fill(x) + Fill(y) + Fill(z)
    requires KindOf(x.effect) != KindOf(y.effect) && KindOf(z.effect) != KindOf(x.effect)
    requires KindOf(z.effect) != KindOf(y.effect)
    ensures Only(effects, k) == Choose3(x, y, z, k)
  {
    TwoSlots(x, y, Fill(x) + Fill(y), k);
    AddSlot(Fill(x) + Fill(y), z, k);
    assert Choose2(x, y, k) + [] == Choose2(x, y, k) && [] + Fill(z) == Fill(z);
  }

  lemma FourSlots(w: Slot, x: Slot, y: Slot, z: Slot, effects: seq<Effect>, k: Kind)
    requires effects == Fill(w) + Fill(x) + Fill(y) + Fill(z)
    requires KindOf(w.effect) != KindOf(x.effect) && KindOf(y.effect) != KindOf(w.effect)
    requires KindOf(y.effect) != KindOf(x.effect)
    requires KindOf(z.effect) != KindOf(w.effect) && KindOf(z.effect) != KindOf(x.effect)
    requires KindOf(z.effect) != KindOf(y.effect)
    ensures Only(effects, k) == Choose4(w, x, y, z, k)
  {
    ThreeSlots(w, x, y, Fill(w) + Fill(x) + Fill(y), k);
    AddSlot(Fill(w) + Fill(x) + Fill(y), z, k);
    assert Choose3(w, x, y, k) + [] == Choose3(w, x, y, k) && [] + Fill(z) == Fill(z);
  }

  // ── The facts of an event ───────────────────────────────────────────────────

  /** A message that reaches the engine: over the stream, or in a background batch. */
  datatype Arrival = Arrival(message: Incoming, env: Env, batch: bool)

  function Brings(e: Event): (a: Option<Arrival>)
    ensures a.Some? ==> a.value.message.payload.Packed?
  {
    match e
    case Frame(Read(StreamResponse(_, Some(Message(v)))), env) =>
      if v.sender.Some? && v.sender.value != "" && v.payload.Packed? then
        var id := v.messageId.GetOr(env.madeUp);
        Some(Arrival(Incoming(v.sender.value, v.payload, id, v.conversation, v.timestamp), env, false))
      else None
    case PendingMessage(p) =>
      if p.relevant && p.payload.Packed? then
        Some(Arrival(Incoming(p.sender, p.payload, p.messageId, p.sender, p.timestamp), p.env, true))
      else None
    case _ => None
  }

  predicate IsStart(a: Arrival) {
    a.message.payload.Packed? && a.message.payload.number == 0
  }

  /** The key agreement is attempted. */
  predicate Attempted(m: Mem, a: Arrival) {
    a.env.bundle && m.core.Some?
  }

  /** The message is decrypted. */
  predicate Opened(m: Mem, a: Arrival)
    requires a.message.payload.Packed?
  {
    && m.core.Some?
    && var sender, p := a.message.sender, a.message.payload;
       if IsStart(a) then a.env.bundle && AcceptFirst(m.core.value, sender, p, a.env.newId, a.env.agreed).Some?
       else Decryptable(m.core.value, sender, p)
  }

  predicate MayRetry(m: Mem, a: Arrival) {
    Attempts(m.heal, a.message.sender) < m.limit
  }

  /** A session to send on. */
  predicate Holds(m: Mem, c: Contact) {
    m.core.Some? && c in m.core.value.sessions
  }

  predicate Begins(m: Mem, e: Event) {
    e.InitSession? && e.bundle && e.agreed && m.core.Some?
  }

  // ── What it leaves behind ───────────────────────────────────────────────────

  function Received(core: CoreState, a: Arrival): CoreState
    requires a.message.payload.Packed?
  {
    var sender, p := a.message.sender, a.message.payload;
    var used := core.(consumed := core.consumed + {KeyOf(sender, p)});
    if !IsStart(a) then used
    else
      used.(sessions := core.sessions[sender := Session(a.env.newId, 0, p.session)],
            otpks := if p.otpk.Some? then core.otpks - {p.otpk.value} else core.otpks)
  }

  /** A received message changes the core, if it is decrypted. */
  function ArrivalCore(m: Mem, a: Arrival): Option<CoreState>
    requires a.message.payload.Packed?
  {
    if Opened(m, a) then Some(Received(m.core.value, a)) else m.core
  }

  /** An existing core after events that use it. */
  function UsedCore(core: CoreState, e: Event): CoreState {
    match e
    case SendMessage(c, _, _, _, _) =>
      if c !in core.sessions then core
      else
        var s := core.sessions[c];
        core.(sessions := core.sessions[c := Session(s.sendId, s.sent + 1, s.recvId)])
    case InitSession(c, bundle, agreed, pinged, id, _, _, _) =>
      if !(bundle && agreed) then core
      else core.(sessions := core.sessions[c := Session(id, if pinged then 1 else 0, id)])
    case UploadKeys(ids, generated, _, _) => if generated then core.(otpks := core.otpks + ids) else core
    case RotateKey(id, generated, _, _) => if generated then core.(spks := core.spks + {id}) else core
    case StateArrived(Some(blob), true) => blob
    case _ => core
  }

  function CoreDue(m: Mem, e: Event): Option<CoreState> {
    match e
    case KeysArrived(Usable) => Some(CoreState(map[], {}, {}, {}))
    case KeysArrived(NoKeys) => None
    case _ =>
      if Brings(e).Some? then ArrivalCore(m, Brings(e).value)
      else if m.core.Some? then Some(UsedCore(m.core.value, e))
      else None
  }

  function StreamDue(m: Mem, e: Event): bool {
    match e
    case OpenStream(_, _, up) => up || m.stream
    case Reopen(up) => (up && m.params.Some?) || m.stream
    case Disconnect(up) => up && m.params.Some?
    case CloseStream => false
    case _ => m.stream
  }

  /** The healing record after a session start: gone on success and when it is exhausted. */
  function StartHeal(m: Mem, a: Arrival): map<Contact, nat>
    requires a.message.payload.Packed?
  {
    var sender := a.message.sender;
    if !Attempted(m, a) then m.heal
    else if !Opened(m, a) && MayRetry(m, a) then m.heal[sender := Attempts(m.heal, sender) + 1]
    else m.heal - {sender}
  }

  function HealDue(m: Mem, e: Event): map<Contact, nat> {
    var a := Brings(e);
    if e.KeysArrived? && !e.keys.Malformed? then map[]
    else if a.Some? && IsStart(a.value) then StartHeal(m, a.value)
    else m.heal
  }

  function ParamsDue(m: Mem, e: Event): Option<Params> {
    match e
    case OpenStream(cs, since, _) => Some(Params(cs, since))
    case Frame(Read(r), _) =>
      if r.cursor.Some? && m.params.Some? then Some(Params(m.params.value.conversations, r.cursor)) else m.params
    case _ => m.params
  }

  function MemDue(m: Mem, e: Event): Mem {
    Mem(CoreDue(m, e), StreamDue(m, e), HealDue(m, e), ParamsDue(m, e), m.limit)
  }

  // ── What it makes visible ───────────────────────────────────────────────────

  /** For a message that arrives. */
  function ArrivalDue(m: Mem, a: Arrival, k: Kind): seq<Effect>
    requires a.message.payload.Packed?
  {
    var msg, start, decoded := a.message, IsStart(a), Opened(m, a);
    var key := KeyOf(msg.sender, msg.payload);
    match k
    case Saves =>
      if decoded && a.env.exportOk && (start || !a.batch) then [Save(Received(m.core.value, a))] else []
    case Acks => Opt(decoded && (start || !a.batch) && m.stream && a.env.sendOk, AckFrame(msg.messageId, key))
    case Texts => Opt(decoded && (!start || msg.payload.body != []), Display(msg.messageId, key, msg.payload.body))
    case Notices => Opt(decoded && !start && a.batch, Notification(msg.messageId))
    case Sessions => Opt(decoded && start, Established(msg.sender, msg.messageId))
    case Retries => Opt(start && Attempted(m, a) && !decoded && MayRetry(m, a), Retry(msg))
    case Errors => Opt(start && !decoded && !(Attempted(m, a) && MayRetry(m, a)), SessionError(msg.sender))
    case _ => []
  }

  function SendDue(m: Mem, e: Event, k: Kind): seq<Effect>
    requires e.SendMessage?
  {
    var held := Holds(m, e.contact);
    match k
    case Saves => if held && e.exportOk then [Save(CoreDue(m, e).value)] else []
    case MessageFrames =>
      if held && m.stream && e.sendOk then
        var s := m.core.value.sessions[e.contact];
        [SendFrame(e.contact, s.sendId, s.sent, e.localId, e.ghostMode)]
      else []
    case Statuses => [Status(e.localId, if held && m.stream && e.sendOk then 1 else 4)]
    case _ => []
  }

  function InitDue(m: Mem, e: Event, k: Kind): seq<Effect>
    requires e.InitSession?
  {
    var begun := Begins(m, e) && e.pinged;
    match k
    case Saves => if begun && e.exportOk then [Save(CoreDue(m, e).value)] else []
    case MessageFrames => Opt(begun && m.stream && e.sendOk, SendFrame(e.contact, e.newId, 0, e.localId, false))
    case Sessions => Opt(begun, Established(e.contact, e.localId))
    case Errors => Opt(!begun, SessionError(e.contact))
    case _ => []
  }

  /** Keys are offered once they are generated and saved. */
  predicate OffersKeys(m: Mem, e: Event)
    requires e.UploadKeys? || e.RotateKey?
  {
    m.core.Some? && e.generated && e.exportOk
  }

  function UploadDue(m: Mem, e: Event, k: Kind): seq<Effect>
    requires e.UploadKeys?
  {
    if !OffersKeys(m, e) then []
    else
      match k
      case Saves => [Save(CoreDue(m, e).value)]
      case Offers => [KeysUploadRequested(e.ids)]
      case Uploads => Opt(e.answered, KeysUploaded(|e.ids|))
      case _ => []
  }

  function RotationDue(m: Mem, e: Event, k: Kind): seq<Effect>
    requires e.RotateKey?
  {
    if !OffersKeys(m, e) then []
    else
      match k
      case Saves => [Save(CoreDue(m, e).value)]
      case Rotations => [SpkUploadRequested(e.id)]
      case RotationsDone => Opt(e.answered, SpkRotated(e.id))
      case _ => []
  }

  function EndDue(m: Mem, e: Event, k: Kind): seq<Effect>
    requires e.PendingEnd?
  {
    match k
    case Saves => if m.core.Some? && e.exportOk then [Save(m.core.value)] else []
    case Completions => [BackgroundDone(e.decrypted, e.hadErrors)]
    case _ => []
  }

  /** The subscription that an event tries, if any. */
  function Tries(m: Mem, e: Event): Option<Params> {
    match e
    case OpenStream(cs, since, _) => Some(Params(cs, since))
    case Reopen(_) => m.params
    case Disconnect(_) => m.params
    case _ => None
  }

  predicate Succeeds(e: Event) {
    (e.OpenStream? || e.Reopen? || e.Disconnect?) && e.up
  }

  function Seen(ids: seq<string>): seq<Effect> {
    seq(|ids|, i requires 0 <= i < |ids| => DeliveryReceipt(ids[i]))
  }

  function OtherDue(m: Mem, e: Event, k: Kind): seq<Effect> {
    var p := Tries(m, e);
    match k
    case Loads => Opt(e.PlatformReady?, LoadRequested)
    case UiReceipts => if e.AckMessage? && m.stream && e.sendOk then [UiReceipt(e.messageId)] else []
    case Restores =>
      if e.StateArrived? && e.blob.Some? && e.imported && m.core.Some?
      then [Restored(e.blob.value.sessions.Keys)] else []
    case Streams => if p.Some? && Succeeds(e) then [StreamReady(p.value.conversations, p.value.cursor)] else []
    case StreamErrors => Opt(p.Some? && !Succeeds(e), StreamFailed)
    case ReceiptsSeen =>
      (match e
       case Frame(Read(StreamResponse(_, Some(DirectReceipt(ids, _)))), _) => Seen(ids)
       case _ => [])
    case _ => []
  }

  function Due(m: Mem, e: Event, k: Kind): seq<Effect> {
    match e
    case SendMessage(_, _, _, _, _) => SendDue(m, e, k)
    case InitSession(_, _, _, _, _, _, _, _) => InitDue(m, e, k)
    case UploadKeys(_, _, _, _) => UploadDue(m, e, k)
    case RotateKey(_, _, _, _) => RotationDue(m, e, k)
    case PendingEnd(_, _, _) => EndDue(m, e, k)
    case _ => if Brings(e).Some? then ArrivalDue(m, Brings(e).value, k) else OtherDue(m, e, k)
  }

  // ── Every handler does what is due ──────────────────────────────────────────

  lemma StartAccepted(m: Mem, a: Arrival)
    requires IsStart(a) && Opened(m, a)
    ensures TryFirst(m, a.message, a.env) == Accepted(Received(m.core.value, a))
  {
  }

  function SaveSlot(m: Mem, a: Arrival): Slot
    requires a.message.payload.Packed? && Opened(m, a)
  {
    Slot(a.env.exportOk, Save(Received(m.core.value, a)))
  }

  function AckSlot(m: Mem, a: Arrival): Slot
    requires a.message.payload.Packed?
  {
    Slot(m.stream && a.env.sendOk, AckFrame(a.message.messageId, KeyOf(a.message.sender, a.message.payload)))
  }

  function TextSlot(a: Arrival): Slot
    requires a.message.payload.Packed?
  {
    var msg := a.message;
    var text := Display(msg.messageId, KeyOf(msg.sender, msg.payload), msg.payload.body);
    Slot(!IsStart(a) || msg.payload.body != [], text)
  }

  function NamedSlot(a: Arrival): Slot {
    Slot(true, Established(a.message.sender, a.message.messageId))
  }

  lemma StartVisible(m: Mem, a: Arrival, k: Kind)
    requires IsStart(a)
    ensures Only(RespondFirst(m, a.message, a.env).effects, k) == ArrivalDue(m, a, k)
  {
    if Opened(m, a) {
      StartAccepted(m, a);
      StartShape(m, a);
      FourSlots(SaveSlot(m, a), AckSlot(m, a), NamedSlot(a), TextSlot(a), RespondFirst(m, a.message, a.env).effects, k);
      StartDue(m, a, k);
    } else {
      FailedStart(m, a, k);
    }
  }

  lemma StartShape(m: Mem, a: Arrival)
    requires IsStart(a) && Opened(m, a) && TryFirst(m, a.message, a.env) == Accepted(Received(m.core.value, a))
    ensures RespondFirst(m, a.message, a.env).effects
            == Fill(SaveSlot(m, a)) + Fill(AckSlot(m, a)) + Fill(NamedSlot(a)) + Fill(TextSlot(a))
  {
  }

  lemma StartDue(m: Mem, a: Arrival, k: Kind)
    requires IsStart(a) && Opened(m, a)
    ensures ArrivalDue(m, a, k) == Choose4(SaveSlot(m, a), AckSlot(m, a), NamedSlot(a), TextSlot(a), k)
  {
  }

  function RetrySlot(m: Mem, a: Arrival): Slot {
    Slot(Attempted(m, a) && MayRetry(m, a), Retry(a.message))
  }

  function GiveUpSlot(m: Mem, a: Arrival): Slot {
    Slot(!(Attempted(m, a) && MayRetry(m, a)), SessionError(a.message.sender))
  }

  lemma FailedStart(m: Mem, a: Arrival, k: Kind)
    requires IsStart(a) && !Opened(m, a)
    ensures Only(RespondFirst(m, a.message, a.env).effects, k) == ArrivalDue(m, a, k)
  {
    FailedShape(m, a);
    TwoSlots(RetrySlot(m, a), GiveUpSlot(m, a), RespondFirst(m, a.message, a.env).effects, k);
    FailedDue(m, a, k);
  }

  lemma FailedShape(m: Mem, a: Arrival)
    requires IsStart(a) && !Opened(m, a)
    ensures RespondFirst(m, a.message, a.env).effects == Fill(RetrySlot(m, a)) + Fill(GiveUpSlot(m, a))
  {
  }

  lemma FailedDue(m: Mem, a: Arrival, k: Kind)
    requires IsStart(a) && !Opened(m, a)
    ensures ArrivalDue(m, a, k) == Choose2(RetrySlot(m, a), GiveUpSlot(m, a), k)
  {
  }

  lemma OrdinaryVisible(m: Mem, a: Arrival, k: Kind)
    requires a.message.payload.Packed? && !IsStart(a) && !a.batch
    ensures Only(DecryptOne(m, a.message, a.env).effects, k) == ArrivalDue(m, a, k)
  {
    if Opened(m, a) {
      ThreeSlots(SaveSlot(m, a), AckSlot(m, a), TextSlot(a), DecryptOne(m, a.message, a.env).effects, k);
      OrdinaryDue(m, a, k);
    } else {
      UnopenedDue(m, a, k);
    }
  }

  lemma OrdinaryDue(m: Mem, a: Arrival, k: Kind)
    requires a.message.payload.Packed? && !IsStart(a) && !a.batch && Opened(m, a)
    ensures ArrivalDue(m, a, k) == Choose3(SaveSlot(m, a), AckSlot(m, a), TextSlot(a), k)
  {
  }

  lemma UnopenedDue(m: Mem, a: Arrival, k: Kind)
    requires a.message.payload.Packed? && !IsStart(a) && !Opened(m, a)
    ensures ArrivalDue(m, a, k) == []
  {
  }

  lemma BatchVisible(m: Mem, p: Pending, k: Kind)
    requires Brings(PendingMessage(p)).Some?
    ensures Only(ReceivePending(m, p).effects, k) == ArrivalDue(m, Brings(PendingMessage(p)).value, k)
  {
    var a := Brings(PendingMessage(p)).value;
    if IsStart(a) {
      BatchRoutes(m, p, a);
      StartVisible(m, a, k);
    } else {
      BatchOrdinary(m, p, a, k);
    }
  }

  lemma BatchRoutes(m: Mem, p: Pending, a: Arrival)
    requires Brings(PendingMessage(p)) == Some(a) && IsStart(a)
    ensures ReceivePending(m, p) == RespondFirst(m, a.message, a.env)
  {
  }

  lemma BatchOrdinary(m: Mem, p: Pending, a: Arrival, k: Kind)
    requires Brings(PendingMessage(p)) == Some(a) && !IsStart(a)
    ensures Only(ReceivePending(m, p).effects, k) == ArrivalDue(m, a, k)
  {
    if Opened(m, a) {
      TwoSlots(TextSlot(a), Slot(true, Notification(p.messageId)), ReceivePending(m, p).effects, k);
      BatchDue(m, a, k);
    } else {
      UnopenedDue(m, a, k);
    }
  }

  lemma BatchDue(m: Mem, a: Arrival, k: Kind)
    requires a.message.payload.Packed? && !IsStart(a) && a.batch && Opened(m, a)
    ensures ArrivalDue(m, a, k) == Choose2(TextSlot(a), Slot(true, Notification(a.message.messageId)), k)
  {
  }

  function CoreSaved(m: Mem, e: Event, c: bool): Slot
    requires CoreDue(m, e).Some?
  {
    Slot(c, Save(CoreDue(m, e).value))
  }

  function SentSlot(m: Mem, e: Event): Slot
    requires e.SendMessage? && Holds(m, e.contact)
  {
    var s := m.core.value.sessions[e.contact];
    Slot(m.stream && e.sendOk, SendFrame(e.contact, s.sendId, s.sent, e.localId, e.ghostMode))
  }

  function StatusSlot(m: Mem, e: Event): Slot
    requires e.SendMessage?
  {
    Slot(true, Status(e.localId, if Holds(m, e.contact) && m.stream && e.sendOk then 1 else 4))
  }

  lemma SendVisible(m: Mem, e: Event, k: Kind)
    requires e.SendMessage?
    ensures Only(Handle(m, e).effects, k) == SendDue(m, e, k)
  {
    if Holds(m, e.contact) {
      SendShape(m, e);
      ThreeSlots(CoreSaved(m, e, e.exportOk), SentSlot(m, e), StatusSlot(m, e), Handle(m, e).effects, k);
      SendSlots(m, e, k);
    } else {
      OneSlot(StatusSlot(m, e), Handle(m, e).effects, k);
    }
  }

  lemma SendShape(m: Mem, e: Event)
    requires e.SendMessage? && Holds(m, e.contact)
    ensures Handle(m, e).effects == Fill(CoreSaved(m, e, e.exportOk)) + Fill(SentSlot(m, e)) + Fill(StatusSlot(m, e))
  {
  }

  lemma SendSlots(m: Mem, e: Event, k: Kind)
    requires e.SendMessage? && Holds(m, e.contact)
    ensures SendDue(m, e, k) == Choose3(CoreSaved(m, e, e.exportOk), SentSlot(m, e), StatusSlot(m, e), k)
  {
  }

  function PingSlot(m: Mem, e: Event): Slot
    requires e.InitSession?
  {
    Slot(m.stream && e.sendOk, SendFrame(e.contact, e.newId, 0, e.localId, false))
  }

  lemma InitVisible(m: Mem, e: Event, k: Kind)
    requires e.InitSession?
    ensures Only(Handle(m, e).effects, k) == InitDue(m, e, k)
  {
    if Begins(m, e) && e.pinged { InitBegun(m, e, k); } else { InitFails(m, e, k); }
  }

  lemma InitBegun(m: Mem, e: Event, k: Kind)
    requires e.InitSession? && Begins(m, e) && e.pinged
    ensures Only(Handle(m, e).effects, k) == InitDue(m, e, k)
  {
    var est := Slot(true, Established(e.contact, e.localId));
    InitShape(m, e);
    ThreeSlots(CoreSaved(m, e, e.exportOk), PingSlot(m, e), est, Handle(m, e).effects, k);
    InitSlots(m, e, k);
  }

  lemma InitFails(m: Mem, e: Event, k: Kind)
    requires e.InitSession? && !(Begins(m, e) && e.pinged)
    ensures Only(Handle(m, e).effects, k) == InitDue(m, e, k)
  {
    var x := Slot(true, SessionError(e.contact));
    InitError(m, e);
    InitErrorDue(m, e, k);
    OneSlot(x, Fill(x), k);
  }

  lemma InitError(m: Mem, e: Event)
    requires e.InitSession? && !(Begins(m, e) && e.pinged)
    ensures Handle(m, e).effects == [SessionError(e.contact)]
  {
  }

  lemma InitErrorDue(m: Mem, e: Event, k: Kind)
    requires e.InitSession? && !(Begins(m, e) && e.pinged)
    ensures InitDue(m, e, k) == if k == Errors then [SessionError(e.contact)] else []
  {
  }

  lemma InitShape(m: Mem, e: Event)
    requires e.InitSession? && Begins(m, e) && e.pinged
    ensures Handle(m, e).effects == Fill(CoreSaved(m, e, e.exportOk)) + Fill(PingSlot(m, e))
                                    + Fill(Slot(true, Established(e.contact, e.localId)))
  {
    BegunOnceHolds(m.core.value, e.contact, e.newId);
  }

  lemma InitSlots(m: Mem, e: Event, k: Kind)
    requires e.InitSession? && Begins(m, e) && e.pinged
    ensures InitDue(m, e, k)
            == Choose3(CoreSaved(m, e, e.exportOk), PingSlot(m, e), Slot(true, Established(e.contact, e.localId)), k)
  {
  }

  /** The first encryption of a session that was just begun. */
  predicate BegunOnce(core: CoreState, c: Contact, id: SessionId) {
    Encrypt(Begin(core, c, id), c) == Some(Encrypted(core.(sessions := core.sessions[c := Session(id, 1, id)]), id, 0))
  }

  lemma BegunOnceHolds(core: CoreState, c: Contact, id: SessionId)
    ensures BegunOnce(core, c, id)
  {
    assert core.sessions[c := Session(id, 0, id)][c := Session(id, 1, id)] == core.sessions[c := Session(id, 1, id)];
  }

  lemma UploadVisible(m: Mem, e: Event, k: Kind)
    requires e.UploadKeys?
    ensures Only(Handle(m, e).effects, k) == UploadDue(m, e, k)
  {
    if OffersKeys(m, e) {
      var x, y := CoreSaved(m, e, true), Slot(true, KeysUploadRequested(e.ids));
      var z := Slot(e.answered, KeysUploaded(|e.ids|));
      UploadShape(m, e);
      ThreeSlots(x, y, z, Handle(m, e).effects, k);
      UploadSlots(m, e, k);
    } else {
      UploadStops(m, e);
    }
  }

  lemma UploadShape(m: Mem, e: Event)
    requires e.UploadKeys? && OffersKeys(m, e)
    ensures Handle(m, e).effects == Fill(CoreSaved(m, e, true)) + Fill(Slot(true, KeysUploadRequested(e.ids)))
                                    + Fill(Slot(e.answered, KeysUploaded(|e.ids|)))
  {
  }

  lemma UploadStops(m: Mem, e: Event)
    requires e.UploadKeys? && !OffersKeys(m, e)
    ensures Handle(m, e).effects == []
  {
  }

  lemma UploadSlots(m: Mem, e: Event, k: Kind)
    requires e.UploadKeys? && OffersKeys(m, e)
    ensures UploadDue(m, e, k)
            == Choose3(CoreSaved(m, e, true), Slot(true, KeysUploadRequested(e.ids)),
                       Slot(e.answered, KeysUploaded(|e.ids|)), k)
  {
  }

  lemma RotationVisible(m: Mem, e: Event, k: Kind)
    requires e.RotateKey?
    ensures Only(Handle(m, e).effects, k) == RotationDue(m, e, k)
  {
    if OffersKeys(m, e) {
      var x, y := CoreSaved(m, e, true), Slot(true, SpkUploadRequested(e.id));
      var z := Slot(e.answered, SpkRotated(e.id));
      RotationShape(m, e);
      ThreeSlots(x, y, z, Handle(m, e).effects, k);
      RotationSlots(m, e, k);
    } else {
      RotationStops(m, e);
    }
  }

  lemma RotationShape(m: Mem, e: Event)
    requires e.RotateKey? && OffersKeys(m, e)
    ensures Handle(m, e).effects == Fill(CoreSaved(m, e, true)) + Fill(Slot(true, SpkUploadRequested(e.id)))
                                    + Fill(Slot(e.answered, SpkRotated(e.id)))
  {
  }

  lemma RotationStops(m: Mem, e: Event)
    requires e.RotateKey? && !OffersKeys(m, e)
    ensures Handle(m, e).effects == []
  {
  }

  lemma RotationSlots(m: Mem, e: Event, k: Kind)
    requires e.RotateKey? && OffersKeys(m, e)
    ensures RotationDue(m, e, k)
            == Choose3(CoreSaved(m, e, true), Slot(true, SpkUploadRequested(e.id)),
                       Slot(e.answered, SpkRotated(e.id)), k)
  {
  }

  function BatchSaved(m: Mem, e: Event): Slot
    requires e.PendingEnd?
  {
    Slot(m.core.Some? && e.exportOk, Save(m.core.GetOr(BLANK)))
  }

  lemma EndVisible(m: Mem, e: Event, k: Kind)
    requires e.PendingEnd?
    ensures Only(Handle(m, e).effects, k) == EndDue(m, e, k)
  {
    EndShape(m, e, k);
    TwoSlots(BatchSaved(m, e), Slot(true, BackgroundDone(e.decrypted, e.hadErrors)), Handle(m, e).effects, k);
  }

  lemma EndShape(m: Mem, e: Event, k: Kind)
    requires e.PendingEnd?
    ensures var done := Slot(true, BackgroundDone(e.decrypted, e.hadErrors));
            && Handle(m, e).effects == Fill(BatchSaved(m, e)) + Fill(done)
            && EndDue(m, e, k) == Choose2(BatchSaved(m, e), done, k)
  {
  }

  lemma ReceiptsVisible(m: Mem, ids: seq<string>, k: Kind)
    ensures Only(ReceiptEffects(ids), k) == if k == ReceiptsSeen then Seen(ids) else []
  {
    ReceiptsAreReceipts(ids);
    FilterAll(ReceiptEffects(ids), Is(k), k == ReceiptsSeen);
    assert ReceiptEffects(ids) == Seen(ids);
  }

  lemma FrameVisible(m: Mem, e: Event, k: Kind)
    requires e.Frame?
    ensures Only(Handle(m, e).effects, k) == Due(m, e, k)
  {
    if Brings(e).Some? {
      ArrivedVisible(m, e, Brings(e).value, k);
    } else {
      match e.content {
        case Read(StreamResponse(_, Some(DirectReceipt(ids, _)))) => ReceiptsVisible(m, ids, k);
        case _ => QuietFrame(m, e, k);
      }
    }
  }

  lemma QuietFrame(m: Mem, e: Event, k: Kind)
    requires e.Frame? && Brings(e).None?
    requires !(e.content.Read? && e.content.response.response.Some? && e.content.response.response.value.DirectReceipt?)
    ensures Handle(m, e).effects == [] && OtherDue(m, e, k) == []
  {
  }

  lemma ArrivedVisible(m: Mem, e: Event, a: Arrival, k: Kind)
    requires e.Frame? && Brings(e) == Some(a)
    ensures Only(Handle(m, e).effects, k) == ArrivalDue(m, a, k)
  {
    var noted := NoteCursor(m, e.content.response.cursor);
    FrameRoutes(m, e, a);
    if IsStart(a) { StartVisible(noted, a, k); } else { OrdinaryVisible(noted, a, k); }
    SameArrival(m, noted, a, k);
  }

  /** A message on the stream goes to the path its number names. */
  lemma FrameRoutes(m: Mem, e: Event, a: Arrival)
    requires e.Frame? && Brings(e) == Some(a)
    ensures e.content.Read? && !a.batch
    ensures var noted := NoteCursor(m, e.content.response.cursor);
            Handle(m, e)
            == if IsStart(a) then RespondFirst(noted, a.message, a.env) else DecryptOne(noted, a.message, a.env)
  {
  }

  lemma SameArrival(m: Mem, n: Mem, a: Arrival, k: Kind)
    requires a.message.payload.Packed? && m.core == n.core && m.stream == n.stream
    requires m.heal == n.heal && m.limit == n.limit
    ensures ArrivalDue(m, a, k) == ArrivalDue(n, a, k)
  {
  }

  lemma OpeningVisible(m: Mem, e: Event, k: Kind)
    requires e.OpenStream? || e.Reopen? || e.Disconnect?
    ensures Only(Handle(m, e).effects, k) == OtherDue(m, e, k)
  {
    var p := Tries(m, e);
    OpeningShape(m, e, k);
    if p.Some? {
      TwoSlots(Slot(Succeeds(e), StreamReady(p.value.conversations, p.value.cursor)), Slot(!Succeeds(e), StreamFailed),
               Handle(m, e).effects, k);
    }
  }

  lemma OpeningShape(m: Mem, e: Event, k: Kind)
    requires e.OpenStream? || e.Reopen? || e.Disconnect?
    ensures var p := Tries(m, e);
            if p.None? then Handle(m, e).effects == [] && OtherDue(m, e, k) == []
            else
              var x := Slot(Succeeds(e), StreamReady(p.value.conversations, p.value.cursor));
              var y := Slot(!Succeeds(e), StreamFailed);
              Handle(m, e).effects == Fill(x) + Fill(y) && OtherDue(m, e, k) == Choose2(x, y, k)
  {
  }

  lemma LoadVisible(m: Mem, e: Event, k: Kind)
    requires e.PlatformReady?
    ensures Only(Handle(m, e).effects, k) == OtherDue(m, e, k)
  {
    OneSlot(Slot(true, LoadRequested), [LoadRequested], k);
  }

  lemma AckVisible(m: Mem, e: Event, k: Kind)
    requires e.AckMessage?
    ensures Only(Handle(m, e).effects, k) == OtherDue(m, e, k)
  {
    var x := Slot(m.stream && e.sendOk, UiReceipt(e.messageId));
    AckShape(m, e, k);
    OneSlot(x, Fill(x), k);
  }

  lemma AckShape(m: Mem, e: Event, k: Kind)
    requires e.AckMessage?
    ensures var x := Slot(m.stream && e.sendOk, UiReceipt(e.messageId));
            Handle(m, e).effects == Fill(x) && OtherDue(m, e, k) == if k == UiReceipts then Fill(x) else []
  {
  }

  /** The contacts of a state that can be taken over. */
  function RestoredSlot(m: Mem, e: Event): Slot
    requires e.StateArrived?
  {
    Slot(e.blob.Some? && e.imported && m.core.Some?, Restored(e.blob.GetOr(BLANK).sessions.Keys))
  }

  lemma StateVisible(m: Mem, e: Event, k: Kind)
    requires e.StateArrived?
    ensures Only(Handle(m, e).effects, k) == OtherDue(m, e, k)
  {
    StateShape(m, e, k);
    OneSlot(RestoredSlot(m, e), Fill(RestoredSlot(m, e)), k);
  }

  lemma StateShape(m: Mem, e: Event, k: Kind)
    requires e.StateArrived?
    ensures Handle(m, e).effects == Fill(RestoredSlot(m, e))
    ensures OtherDue(m, e, k) == if k == Restores then Fill(RestoredSlot(m, e)) else []
  {
  }

  lemma QuietVisible(m: Mem, e: Event, k: Kind)
    requires e.KeysArrived? || e.CloseStream? || (e.PendingMessage? && Brings(e).None?)
    ensures Handle(m, e).effects == [] && Due(m, e, k) == []
  {
  }

  /** Of every kind, an event makes visible what is due, in order, and nothing else. */
  lemma EventVisible(m: Mem, e: Event, k: Kind)
    ensures Only(Handle(m, e).effects, k) == Due(m, e, k)
  {
    match e {
      case SendMessage(_, _, _, _, _) => SendVisible(m, e, k);
      case InitSession(_, _, _, _, _, _, _, _) => InitVisible(m, e, k);
      case UploadKeys(_, _, _, _) => UploadVisible(m, e, k);
      case RotateKey(_, _, _, _) => RotationVisible(m, e, k);
      case PendingEnd(_, _, _) => EndVisible(m, e, k);
      case Frame(_, _) => FrameVisible(m, e, k);
      case PendingMessage(p) =>
        if Brings(e).Some? { BatchVisible(m, p, k); } else { QuietVisible(m, e, k); }
      case OpenStream(_, _, _) => OpeningVisible(m, e, k);
      case Reopen(_) => OpeningVisible(m, e, k);
      case Disconnect(_) => OpeningVisible(m, e, k);
      case PlatformReady => LoadVisible(m, e, k);
      case AckMessage(_, _) => AckVisible(m, e, k);
      case StateArrived(_, _) => StateVisible(m, e, k);
      case KeysArrived(_) => QuietVisible(m, e, k);
      case CloseStream => QuietVisible(m, e, k);
    }
  }

  lemma SendLeaves(m: Mem, e: Event)
    requires e.SendMessage? || e.InitSession?
    ensures Handle(m, e).mem == MemDue(m, e)
  {
    if Begins(m, e) && e.pinged {
      BegunOnceHolds(m.core.value, e.contact, e.newId);
    }
  }

  lemma ReceivedStart(core: CoreState, a: Arrival)
    requires IsStart(a)
    ensures var r := AcceptFirst(core, a.message.sender, a.message.payload, a.env.newId, a.env.agreed);
            r.Some? ==> r.value == Received(core, a)
  {
    var p := a.message.payload;
    assert Named(p) == p.otpk;
    assert core.otpks - {} == core.otpks;
  }

  lemma StartLeaves(m: Mem, a: Arrival)
    requires IsStart(a)
    ensures RespondFirst(m, a.message, a.env).mem
            == m.(core := ArrivalCore(m, a), heal := StartHeal(m, a))
  {
    if m.core.Some? { ReceivedStart(m.core.value, a); }
  }

  lemma OrdinaryLeaves(m: Mem, a: Arrival)
    requires a.message.payload.Packed? && !IsStart(a)
    ensures DecryptOne(m, a.message, a.env).mem == m.(core := ArrivalCore(m, a))
  {
  }

  lemma FrameLeaves(m: Mem, e: Event)
    requires e.Frame?
    ensures Handle(m, e).mem == MemDue(m, e)
  {
    if Brings(e).Some? {
      var a, noted := Brings(e).value, NoteCursor(m, e.content.response.cursor);
      FrameRoutes(m, e, a);
      if IsStart(a) { StartLeaves(noted, a); } else { OrdinaryLeaves(noted, a); }
    }
  }

  lemma PendingLeaves(m: Mem, e: Event)
    requires e.PendingMessage?
    ensures Handle(m, e).mem == MemDue(m, e)
  {
    if Brings(e).Some? {
      var a := Brings(e).value;
      if IsStart(a) { StartLeaves(m, a); } else { OrdinaryLeaves(m, a); }
    }
  }

  lemma OtherLeaves(m: Mem, e: Event)
    requires !e.SendMessage? && !e.InitSession? && !e.Frame? && !e.PendingMessage?
    ensures Handle(m, e).mem == MemDue(m, e)
  {
  }

  /** An event leaves the state that is due. */
  lemma EventLeaves(m: Mem, e: Event)
    ensures Handle(m, e).mem == MemDue(m, e)
  {
    if e.SendMessage? || e.InitSession? {
      SendLeaves(m, e);
    } else if e.Frame? {
      FrameLeaves(m, e);
    } else if e.PendingMessage? {
      PendingLeaves(m, e);
    } else {
      OtherLeaves(m, e);
    }
  }

  // ── In which order ──────────────────────────────────────────────────────────

  /** Saves come first, then what goes to the server, then reports, texts, and what follows a text. */
  function Rank(k: Kind): nat {
    match k
    case Saves => 0
    case MessageFrames => 1
    case Acks => 1
    case Offers => 1
    case Rotations => 1
    case Texts => 3
    case Notices => 4
    case _ => 2
  }

  predicate Ranked(effects: seq<Effect>) {
    forall i, j :: 0 <= i < j < |effects| ==> Rank(KindOf(effects[i])) <= Rank(KindOf(effects[j]))
  }

  lemma ArrivalRanked(m: Mem, msg: Incoming, env: Env)
    ensures Ranked(RespondFirst(m, msg, env).effects)
    ensures Ranked(DecryptOne(m, msg, env).effects)
  {
  }

  lemma FrameRanked(m: Mem, content: FrameContent, env: Env)
    ensures Ranked(ReceiveFrame(m, content, env).effects)
  {
    if content.Read? {
      var noted := NoteCursor(m, content.response.cursor);
      match RouteResponse(content.response, env.madeUp) {
        case Responder(msg) => ArrivalRanked(noted, msg, env);
        case Ordinary(msg) => ArrivalRanked(noted, msg, env);
        case Receipts(ids, t) => ReceiptsAreReceipts(ids);
        case Nothing =>
      }
    }
  }

  lemma PendingRanked(m: Mem, p: Pending)
    ensures Ranked(ReceivePending(m, p).effects)
  {
    if Classify(m, p).SessionStart? { ArrivalRanked(m, AsIncoming(p), p.env); }
  }

  lemma SendRanked(m: Mem, e: Event)
    requires e.SendMessage? || e.InitSession?
    ensures Ranked(Handle(m, e).effects)
  {
  }

  lemma KeysRanked(m: Mem, e: Event)
    requires e.UploadKeys? || e.RotateKey? || e.PendingEnd?
    ensures Ranked(Handle(m, e).effects)
  {
  }

  lemma OtherRanked(m: Mem, e: Event)
    requires !e.Frame? && !e.PendingMessage? && !e.SendMessage? && !e.InitSession?
    requires !e.UploadKeys? && !e.RotateKey? && !e.PendingEnd?
    ensures |Handle(m, e).effects| <= 1
  {
  }

  /** An event saves before it sends, sends before it reports, and reports before it shows. */
  lemma EventRanked(m: Mem, e: Event)
    ensures Ranked(Handle(m, e).effects)
  {
    match e {
      case Frame(content, env) => FrameRanked(m, content, env);
      case PendingMessage(p) => PendingRanked(m, p);
      case SendMessage(_, _, _, _, _) => SendRanked(m, e);
      case InitSession(_, _, _, _, _, _, _, _) => SendRanked(m, e);
      case UploadKeys(_, _, _, _) => KeysRanked(m, e);
      case RotateKey(_, _, _, _) => KeysRanked(m, e);
      case PendingEnd(_, _, _) => KeysRanked(m, e);
      case _ => OtherRanked(m, e);
    }
  }
}

/** The crypto core as far as the engine relies on it. Its internals (construct-core) are not part
    of this model: a session is a counter for what was sent and an identity for what is received,
    and a receive key works once. */
module Ratchet {
  import opened Wrappers
  import opened Protocol

  datatype Session = Session(sendId: SessionId, sent: nat, recvId: SessionId)

  /** What identifies a received message to the ratchet; the key of a session start also depends on
      the one-time pre-key it names. */
  datatype ReceiveKey = ReceiveKey(sender: Contact, session: SessionId, number: nat, otpk: Option<KeyId>)

  /** Everything `export` writes and `import` reads back: the sessions, the receive keys used up, and
      the private halves held of one-time and of signed pre-keys. */
  datatype CoreState = CoreState(sessions: map<Contact, Session>, consumed: set<ReceiveKey>,
                                 otpks: set<KeyId>, spks: set<KeyId>)

  /** A core built from the keys blob alone. */
  const BLANK := CoreState(map[], {}, {}, {})

  /** The one-time pre-key that a session start asks for. */
  function Named(p: WirePayload): Option<KeyId>
    requires p.Packed?
  {
    if p.number == 0 then p.otpk else None
  }

  /** The one-time pre-keys that session starts have used up. */
  function Spent(core: CoreState): set<KeyId> {
    set k | k in core.consumed && k.otpk.Some? :: k.otpk.value
  }

  function KeyOf(sender: Contact, p: WirePayload): ReceiveKey
    requires p.Packed?
  {
    ReceiveKey(sender, p.session, p.number, Named(p))
  }

  datatype Encrypted = Encrypted(core: CoreState, sendId: SessionId, number: nat)

  /** Fails without a session; otherwise uses up the next number. */
  function Encrypt(core: CoreState, contact: Contact): Option<Encrypted> {
    if contact !in core.sessions then None
    else
      var s := core.sessions[contact];
      Some(Encrypted(core.(sessions := core.sessions[contact := s.(sent := s.sent + 1)]), s.sendId, s.sent))
  }

  /** A session begun by us; `newId` comes from the key agreement. */
  function Begin(core: CoreState, contact: Contact, newId: SessionId): CoreState {
    core.(sessions := core.sessions[contact := Session(newId, 0, newId)])
  }

  /** A session begun by the peer's first message spends the one-time pre-key it names, which has to
      be there; `agreed` tells whether the key agreement works otherwise. */
  function AcceptFirst(core: CoreState, sender: Contact, p: WirePayload, newId: SessionId, agreed: bool)
    : Option<CoreState>
    requires p.Packed?
  {
    var id := Named(p);
    if !agreed || KeyOf(sender, p) in core.consumed || (id.Some? && id.value !in core.otpks) then None
    else Some(core.(sessions := core.sessions[sender := Session(newId, 0, p.session)],
                    consumed := core.consumed + {KeyOf(sender, p)},
                    otpks := core.otpks - if id.Some? then {id.value} else {}))
  }

  predicate Decryptable(core: CoreState, sender: Contact, p: WirePayload) {
    && p.Packed? && p.genuine
    && sender in core.sessions && core.sessions[sender].recvId == p.session
    && KeyOf(sender, p) !in core.consumed
  }

  function Decrypt(core: CoreState, sender: Contact, p: WirePayload): Option<CoreState> {
    if Decryptable(core, sender, p) then Some(core.(consumed := core.consumed + {KeyOf(sender, p)})) else None
  }
}

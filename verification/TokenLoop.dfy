/** Tokens and the automatic refresh timer: the token handlers, `secs_until_refresh` and the timer
    branches of the event loop (src/engine.rs). */
module TokenLoop {
  import opened Wrappers

  const I64_MIN: int := -0x8000_0000_0000_0000
  const I64_SPAN: int := 0x1_0000_0000_0000_0000

  type i64 = x: int | I64_MIN <= x < I64_MIN + I64_SPAN witness 0

  function Wrap64(x: int): i64 {
    (x - I64_MIN) % I64_SPAN + I64_MIN
  }

  const EARLY: int := 300
  const SOONEST: int := 10

  function AtLeast(x: int, least: int): int {
    if x < least then least else x
  }

  /** Five minutes before expiry, never sooner than ten seconds, in wrapping 64-bit arithmetic. */
  function SecsUntilRefresh(expiresAt: i64, wall: i64): (secs: int)
    ensures secs >= SOONEST
  {
    AtLeast(Wrap64(Wrap64(expiresAt - wall) - EARLY), SOONEST)
  }

  /** The intended delay, five minutes early and at least ten seconds, is what is scheduled, except for
      the expiry times that lie so far in the past that the subtraction wraps to a date in the far
      future. */
  lemma RefreshDelayExact(expiresAt: i64, wall: i64)
    requires 0 <= wall
    ensures SecsUntilRefresh(expiresAt, wall) == (if expiresAt - wall < 310 then 10 else expiresAt - wall - 300)
            <==> !(310 - I64_SPAN < expiresAt - wall < I64_MIN + 300)
  {
    if expiresAt - wall >= I64_MIN {
      assert Wrap64(expiresAt - wall) == expiresAt - wall;
      if expiresAt - wall - EARLY < I64_MIN {
        assert Wrap64(expiresAt - wall - EARLY) == expiresAt - wall - EARLY + I64_SPAN;
      }
    } else {
      assert Wrap64(expiresAt - wall) == expiresAt - wall + I64_SPAN;
    }
  }

  // ── State ───────────────────────────────────────────────────────────────────

  datatype Grant = Grant(access: string, refresh: string, expiresAt: i64)

  datatype TokenState = TokenState(refresh: string, expiresAt: i64)

  /** Outcome of an authentication call: a grant, a refusal (gRPC "unauthenticated"), or any other
      failure, including undecodable or empty replies. */
  datatype Reply = Granted(grant: Grant) | Refused | Broken

  datatype Callback = SetAuthToken(grant: Grant) | RegistrationComplete | ClearAuth

  /** `version` and `seen` stand for the watch channel of the token state; `clock` is the loop's
      monotonic clock. `armedAt` and `armedWall` remember when the timer was last set; `fired` lists
      the times of the automatic refreshes. */
  datatype Loop = Loop(bearer: Option<string>, token: Option<TokenState>, version: nat, seen: nat,
                       armed: bool, deadline: int, clock: int, armedAt: int, armedWall: i64,
                       fired: seq<int>, callbacks: seq<Callback>)

  datatype Call =
    | Register(reply: Reply)
    | Authenticate(reply: Reply)
    | Refresh(reply: Reply)
    | Logout
    | Unrelated                      // frames, disconnects and all other events

  function SetToken(s: Loop, token: Option<TokenState>): Loop {
    s.(token := token, version := s.version + 1)
  }

  function Accept(s: Loop, g: Grant): Loop {
    SetToken(s.(bearer := Some(g.access)), Some(TokenState(g.refresh, g.expiresAt)))
      .(callbacks := s.callbacks + [SetAuthToken(g)])
  }

  function Handle(s: Loop, call: Call): Loop {
    match call
    case Register(Granted(g)) =>
      var r := Accept(s, g);
      r.(callbacks := r.callbacks + [RegistrationComplete])
    case Authenticate(Granted(g)) => Accept(s, g)
    case Refresh(Granted(g)) => Accept(s, g)
    case Register(Refused) => s.(callbacks := s.callbacks + [ClearAuth])
    case Authenticate(Refused) => s.(callbacks := s.callbacks + [ClearAuth])
    case Refresh(Refused) => SetToken(s, None).(callbacks := s.callbacks + [ClearAuth])
    case Logout => SetToken(s.(bearer := None), None).(callbacks := s.callbacks + [ClearAuth])
    case _ => s
  }

  /** The block at the top of the loop. */
  function Rearm(s: Loop, wall: i64): Loop {
    if s.version == s.seen then s
    else
      var s := s.(seen := s.version);
      match s.token
      case Some(ts) =>
        s.(deadline := s.clock + SecsUntilRefresh(ts.expiresAt, wall), armed := true,
           armedAt := s.clock, armedWall := wall)
      case None => s.(armed := false)
  }

  /** One pass of the loop from a select point to the next: the select waits `idle`, the branch taken
      runs for `busy`. An expired armed timer is polled first and wins. */
  datatype Turn = Turn(idle: nat, call: Call, timerReply: Reply, busy: nat, wall: i64)

  predicate TimerReady(s: Loop) {
    s.armed && s.clock >= s.deadline
  }

  function Select(s: Loop, t: Turn): Loop {
    if TimerReady(s) then
      var s := s.(armed := false, fired := s.fired + [s.clock]);
      if s.token.Some? then Handle(s, Refresh(t.timerReply)) else s
    else Handle(s, t.call)
  }

  function Wait(s: Loop, time: nat): Loop {
    s.(clock := s.clock + time)
  }

  function Next(s: Loop, t: Turn): Loop {
    Rearm(Wait(Select(Wait(s, t.idle), t), t.busy), t.wall)
  }

  /** The loop starts with the configured bearer and no refresh state. */
  function Initial(bearer: Option<string>): Loop {
    Loop(bearer, None, 0, 0, false, 0, 0, 0, 0, [], [])
  }

  /** The state at the select point after the given turns. */
  function Run(bearer: Option<string>, turns: seq<Turn>): Loop {
    if turns == [] then Initial(bearer) else Next(Run(bearer, turns[..|turns| - 1]), turns[|turns| - 1])
  }

  // ── The code ────────────────────────────────────────────────────────────────

  class Engine {
    var bearer: Option<string>
    var token: Option<TokenState>
    var version: nat
    var seen: nat
    var armed: bool
    var deadline: int
    var clock: int
    var callbacks: seq<Callback>
    ghost var armedAt: int
    ghost var armedWall: i64
    ghost var fired: seq<int>

    ghost function View(): Loop
      reads this
    {
      Loop(bearer, token, version, seen, armed, deadline, clock, armedAt, armedWall, fired, callbacks)
    }

    constructor (configured: Option<string>)
      ensures View() == Initial(configured)
    {
      bearer, token, version, seen := configured, None, 0, 0;
      armed, deadline, clock, callbacks := false, 0, 0, [];
      armedAt, armedWall, fired := 0, 0, [];
    }

    method SetTokenState(refresh: string, expiresAt: i64)
      modifies this`token, this`version
      ensures View() == SetToken(old(View()), Some(TokenState(refresh, expiresAt)))
    {
      token := Some(TokenState(refresh, expiresAt));
      version := version + 1;
    }

    method ClearTokenState()
      modifies this`token, this`version
      ensures View() == SetToken(old(View()), None)
    {
      token := None;
      version := version + 1;
    }

    method HandleRegister(reply: Reply)
      modifies this
      ensures View() == Handle(old(View()), Register(reply))
    {
      match reply
      case Granted(g) =>
        bearer := Some(g.access);
        SetTokenState(g.refresh, g.expiresAt);
        callbacks := callbacks + [SetAuthToken(g)];
        callbacks := callbacks + [RegistrationComplete];
      case Refused =>
        callbacks := callbacks + [ClearAuth];
      case Broken =>
    }

    method HandleAuthenticate(reply: Reply)
      modifies this
      ensures View() == Handle(old(View()), Authenticate(reply))
    {
      match reply
      case Granted(g) =>
        bearer := Some(g.access);
        SetTokenState(g.refresh, g.expiresAt);
        callbacks := callbacks + [SetAuthToken(g)];
      case Refused =>
        callbacks := callbacks + [ClearAuth];
      case Broken =>
    }

    method HandleRefreshToken(reply: Reply)
      modifies this
      ensures View() == Handle(old(View()), Refresh(reply))
    {
      match reply
      case Granted(g) =>
        bearer := Some(g.access);
        SetTokenState(g.refresh, g.expiresAt);
        callbacks := callbacks + [SetAuthToken(g)];
      case Refused =>
        ClearTokenState();
        callbacks := callbacks + [ClearAuth];
      case Broken =>
    }

    method HandleLogout()
      modifies this
      ensures View() == Handle(old(View()), Logout)
    {
      bearer := None;
      ClearTokenState();
      callbacks := callbacks + [ClearAuth];
    }

    method UpdateTimer(wall: i64)
      modifies this
      ensures View() == Rearm(old(View()), wall)
    {
      if version != seen {
        seen := version;
        if token.Some? {
          deadline := clock + SecsUntilRefresh(token.value.expiresAt, wall);
          armedAt, armedWall := clock, wall;
          armed := true;
        } else {
          armed := false;
        }
      }
    }

    method PassTime(time: nat)
      modifies this`clock
      ensures View() == Wait(old(View()), time)
    {
      clock := clock + time;
    }

    /** The select of the loop, when some branch is ready. */
    method TakeBranch(t: Turn)
      modifies this
      ensures View() == Select(old(View()), t)
    {
      if armed && clock >= deadline {
        armed := false;
        fired := fired + [clock];
        if token.Some? {
          HandleRefreshToken(t.timerReply);
        }
      } else {
        match t.call
        case Register(r) => HandleRegister(r);
        case Authenticate(r) => HandleAuthenticate(r);
        case Refresh(r) => HandleRefreshToken(r);
        case Logout => HandleLogout();
        case Unrelated =>
      }
    }

    /** One pass of the event loop. */
    method LoopOnce(t: Turn)
      modifies this
      ensures View() == Next(old(View()), t)
    {
      PassTime(t.idle);
      TakeBranch(t);
      PassTime(t.busy);
      UpdateTimer(t.wall);
    }

    /** The event loop from its start: at every select point the timer and the tokens agree. */
    method EventLoop(ghost configured: Option<string>, turns: seq<Turn>)
      requires View() == Initial(configured)
      modifies this
      ensures View() == Run(configured, turns)
      ensures TimerSound(View()) && WellSpaced(View()) && SameGrant(View())
      ensures armed <==> token.Some? && !Stranded(configured, turns)
    {
      for i := 0 to |turns|
        invariant View() == Run(configured, turns[..i])
      {
        LoopOnce(turns[i]);
        assert turns[..i + 1][..i] == turns[..i];
      }
      assert turns[..|turns|] == turns;
      TimerInvariant(configured, turns);
      BearerMatchesGrant(configured, turns);
      ArmedExactly(configured, turns);
    }
  }

  // ── What holds at every select point ────────────────────────────────────────

  function LastGrant(callbacks: seq<Callback>): Option<Grant> {
    if callbacks == [] then None
    else
      match callbacks[|callbacks| - 1]
      case SetAuthToken(g) => Some(g)
      case _ => LastGrant(callbacks[..|callbacks| - 1])
  }

  /** The stored refresh state, the bearer and what the platform was told stem from one grant. */
  predicate SameGrant(s: Loop) {
    s.token.Some? ==>
      && LastGrant(s.callbacks).Some?
      && var g := LastGrant(s.callbacks).value;
         s.bearer == Some(g.access) && s.token.value == TokenState(g.refresh, g.expiresAt)
  }

  predicate TimerSound(s: Loop) {
    && s.seen == s.version
    && (s.armed ==>
          && s.token.Some?
          && s.armedAt <= s.clock
          && s.deadline == s.armedAt + SecsUntilRefresh(s.token.value.expiresAt, s.armedWall))
  }

  predicate WellSpaced(s: Loop) {
    && (forall i :: 0 <= i < |s.fired| - 1 ==> s.fired[i] + SOONEST <= s.fired[i + 1])
    && (s.fired != [] ==> s.fired[|s.fired| - 1] <= s.clock)
    && (s.fired != [] && s.armed ==> s.fired[|s.fired| - 1] + SOONEST <= s.deadline)
  }

  lemma AppendCallback(callbacks: seq<Callback>, c: Callback)
    ensures LastGrant(callbacks + [c])
            == match c case SetAuthToken(g) => Some(g) case _ => LastGrant(callbacks)
  {
    assert (callbacks + [c])[..|callbacks|] == callbacks;
  }

  lemma HandleKeepsGrant(s: Loop, call: Call)
    requires SameGrant(s)
    ensures SameGrant(Handle(s, call))
  {
    AppendCallback(s.callbacks, ClearAuth);
    match call {
      case Register(Granted(g)) =>
        AppendCallback(s.callbacks, SetAuthToken(g));
        AppendCallback(s.callbacks + [SetAuthToken(g)], RegistrationComplete);
      case Authenticate(Granted(g)) => AppendCallback(s.callbacks, SetAuthToken(g));
      case Refresh(Granted(g)) => AppendCallback(s.callbacks, SetAuthToken(g));
      case _ =>
    }
  }

  /** Across register, authenticate, refresh, failed refresh and logout in any order: a stored
      refresh state always belongs to the grant whose access token is the bearer. */
  lemma {:induction false} BearerMatchesGrant(bearer: Option<string>, turns: seq<Turn>)
    ensures SameGrant(Run(bearer, turns))
  {
    if turns != [] {
      var before, t := Run(bearer, turns[..|turns| - 1]), turns[|turns| - 1];
      BearerMatchesGrant(bearer, turns[..|turns| - 1]);
      var woken := Wait(before, t.idle);
      if TimerReady(woken) {
        HandleKeepsGrant(woken.(armed := false, fired := woken.fired + [woken.clock]), Refresh(t.timerReply));
      } else {
        HandleKeepsGrant(woken, t.call);
      }
    }
  }

  lemma HandleFrame(s: Loop, call: Call)
    ensures var r := Handle(s, call);
            && r.seen == s.seen && r.armed == s.armed && r.deadline == s.deadline && r.clock == s.clock
            && r.armedAt == s.armedAt && r.armedWall == s.armedWall && r.fired == s.fired
            && r.version >= s.version && (r.version == s.version ==> r.token == s.token)
  {
  }

  /** Between the branch taken and the next select point. */
  predicate Settling(s: Loop) {
    && s.seen <= s.version
    && (s.seen == s.version ==> TimerSound(s))
    && WellSpaced(s)
  }

  lemma WaitSettles(s: Loop, time: nat)
    requires Settling(s)
    ensures Settling(Wait(s, time))
    ensures TimerSound(s) ==> TimerSound(Wait(s, time))
  {
  }

  lemma SelectSettles(s: Loop, t: Turn)
    requires TimerSound(s) && WellSpaced(s)
    ensures Settling(Select(s, t)) && Select(s, t).clock == s.clock
  {
    if TimerReady(s) {
      HandleFrame(s.(armed := false, fired := s.fired + [s.clock]), Refresh(t.timerReply));
    } else {
      HandleFrame(s, t.call);
    }
  }

  lemma RearmSettles(s: Loop, wall: i64)
    requires Settling(s)
    ensures TimerSound(Rearm(s, wall)) && WellSpaced(Rearm(s, wall))
  {
  }

  lemma NextKeepsTimer(s: Loop, t: Turn)
    requires TimerSound(s) && WellSpaced(s)
    ensures TimerSound(Next(s, t)) && WellSpaced(Next(s, t))
  {
    WaitSettles(s, t.idle);
    var done := Select(Wait(s, t.idle), t);
    SelectSettles(Wait(s, t.idle), t);
    WaitSettles(done, t.busy);
    RearmSettles(Wait(done, t.busy), t.wall);
  }

  /** The timer: an armed one was set from the stored state, no token change is waiting to be seen
      (so the branch that only wakes the loop is never ready), and automatic refreshes are at least
      ten seconds apart, whatever expiry times the server sends and however the wall clock jumps. */
  lemma {:induction false} TimerInvariant(bearer: Option<string>, turns: seq<Turn>)
    ensures TimerSound(Run(bearer, turns)) && WellSpaced(Run(bearer, turns))
  {
    if turns != [] {
      TimerInvariant(bearer, turns[..|turns| - 1]);
      NextKeepsTimer(Run(bearer, turns[..|turns| - 1]), turns[|turns| - 1]);
    }
  }

  predicate Fruitless(call: Call) {
    match call
    case Register(r) => !r.Granted?
    case Authenticate(r) => !r.Granted?
    case Refresh(r) => !r.Granted?
    case Logout => true
    case Unrelated => true
  }

  function Continue(s: Loop, turns: seq<Turn>): Loop {
    if turns == [] then s else Next(Continue(s, turns[..|turns| - 1]), turns[|turns| - 1])
  }

  /** From an idle timer, one turn arms it exactly if its call brings a grant. */
  lemma IdleTimerTurn(s: Loop, t: Turn)
    requires TimerSound(s) && !s.armed
    ensures var r := Next(s, t); TimerSound(r) && r.fired == s.fired && (r.armed <==> !Fruitless(t.call))
  {
    HandleFrame(Wait(s, t.idle), t.call);
  }

  lemma {:induction false} IdleTimerRun(s: Loop, turns: seq<Turn>)
    requires TimerSound(s) && !s.armed
    requires forall i :: 0 <= i < |turns| ==> Fruitless(turns[i].call)
    ensures var r := Continue(s, turns); TimerSound(r) && !r.armed && r.fired == s.fired
  {
    if turns != [] {
      IdleTimerRun(s, turns[..|turns| - 1]);
      IdleTimerTurn(Continue(s, turns[..|turns| - 1]), turns[|turns| - 1]);
    }
  }

  /** Index of the first call that brings a grant, or the number of turns. */
  function FirstGrant(turns: seq<Turn>): (i: nat)
    ensures i <= |turns|
    ensures i < |turns| ==> !Fruitless(turns[i].call)
    ensures forall j :: 0 <= j < i ==> Fruitless(turns[j].call)
  {
    if turns == [] || !Fruitless(turns[0].call) then 0 else 1 + FirstGrant(turns[1..])
  }

  /** One failed automatic refresh is the last: the timer stays off, however long the stored token
      stays valid, exactly as long as no call brings a grant. */
  lemma {:induction false} FailedRefreshIsFinal(s: Loop, turns: seq<Turn>)
    requires TimerSound(s) && !s.armed
    ensures (forall k :: 0 <= k <= |turns| ==> !Continue(s, turns[..k]).armed)
            <==> forall i :: 0 <= i < |turns| ==> Fruitless(turns[i].call)
  {
    var i := FirstGrant(turns);
    if i < |turns| {
      IdleTimerRun(s, turns[..i]);
      IdleTimerTurn(Continue(s, turns[..i]), turns[i]);
      assert turns[..i + 1][..i] == turns[..i];
      assert Continue(s, turns[..i + 1]).armed;
    } else {
      forall k | 0 <= k <= |turns| ensures !Continue(s, turns[..k]).armed {
        IdleTimerRun(s, turns[..k]);
      }
    }
  }

  /** The turn comes to the select with the timer armed and its deadline reached. */
  predicate Due(s: Loop, t: Turn) {
    s.armed && s.clock + t.idle >= s.deadline
  }

  predicate Fires(bearer: Option<string>, turns: seq<Turn>, k: nat)
    requires k < |turns|
  {
    Due(Run(bearer, turns[..k]), turns[k])
  }

  /** An automatic refresh failed without being refused, and nothing brought a grant since. */
  predicate Stranded(bearer: Option<string>, turns: seq<Turn>) {
    exists k :: 0 <= k < |turns| && StrandedAt(bearer, turns, k)
  }

  predicate StrandedAt(bearer: Option<string>, turns: seq<Turn>, k: nat)
    requires k < |turns|
  {
    && Fires(bearer, turns, k) && turns[k].timerReply.Broken?
    && forall j :: k < j < |turns| ==> Fruitless(turns[j].call)
  }

  lemma StrandedBefore(bearer: Option<string>, turns: seq<Turn>)
    requires turns != []
    ensures var n := |turns| - 1;
            Stranded(bearer, turns)
            <==> StrandedAt(bearer, turns, n) || (Stranded(bearer, turns[..n]) && Fruitless(turns[n].call))
  {
    var n := |turns| - 1;
    forall k | 0 <= k < n
      ensures StrandedAt(bearer, turns, k) <==> StrandedAt(bearer, turns[..n], k) && Fruitless(turns[n].call)
    {
      assert turns[..n][..k] == turns[..k];
      if StrandedAt(bearer, turns[..n], k) && Fruitless(turns[n].call) {
        forall j | k < j < |turns| ensures Fruitless(turns[j].call) {
          if j < n { assert turns[..n][j] == turns[j]; }
        }
      }
    }
  }

  /** What one turn does to a timer that agrees with the stored token. */
  lemma TurnArms(s: Loop, t: Turn)
    requires TimerSound(s) && WellSpaced(s)
    ensures var r := Next(s, t);
            if Due(s, t) then
              (t.timerReply.Granted? ==> r.armed) && (!r.armed && r.token.Some? <==> t.timerReply.Broken?)
            else if Fruitless(t.call) then
              r.token.Some? ==> s.token.Some? && r.armed == s.armed
            else r.armed
  {
    var woken := Wait(s, t.idle);
    if TimerReady(woken) {
      HandleFrame(woken.(armed := false, fired := woken.fired + [woken.clock]), Refresh(t.timerReply));
    } else {
      HandleFrame(woken, t.call);
    }
  }

  /** On every run the timer runs exactly while a refresh state is stored, except after an automatic
      refresh that failed without being refused, until the next grant. */
  lemma {:induction false} ArmedExactly(bearer: Option<string>, turns: seq<Turn>)
    ensures var s := Run(bearer, turns); s.armed <==> s.token.Some? && !Stranded(bearer, turns)
  {
    if turns != [] {
      var n := |turns| - 1;
      TimerInvariant(bearer, turns[..n]);
      TimerInvariant(bearer, turns);
      ArmedExactly(bearer, turns[..n]);
      StrandedBefore(bearer, turns);
      TurnArms(Run(bearer, turns[..n]), turns[n]);
    }
  }

  // ── What the platform was told ──────────────────────────────────────────────

  /** The tokens that the platform holds after the callbacks. */
  function Told(callbacks: seq<Callback>): Option<Grant> {
    if callbacks == [] then None
    else
      match callbacks[|callbacks| - 1]
      case SetAuthToken(g) => Some(g)
      case ClearAuth => None
      case RegistrationComplete => Told(callbacks[..|callbacks| - 1])
  }

  /** The call that a turn makes: an automatic refresh wins. */
  function TurnCall(s: Loop, t: Turn): Call {
    if Due(s, t) then Refresh(t.timerReply) else t.call
  }

  function CallAt(bearer: Option<string>, turns: seq<Turn>, k: nat): Call
    requires k < |turns|
  {
    TurnCall(Run(bearer, turns[..k]), turns[k])
  }

  predicate Denied(call: Call) {
    call == Register(Refused) || call == Authenticate(Refused)
  }

  /** The call settles what both sides hold: a grant, or the loss of the stored token. */
  predicate Settles(call: Call) {
    !Fruitless(call) || call == Refresh(Refused) || call == Logout
  }

  /** Turn `k` was denied while a token was stored, and no later turn settled the matter. */
  predicate DeniedAt(bearer: Option<string>, turns: seq<Turn>, k: nat)
    requires k < |turns|
  {
    && Denied(CallAt(bearer, turns, k)) && Run(bearer, turns[..k]).token.Some?
    && forall j :: k < j < |turns| ==> !Settles(CallAt(bearer, turns, j))
  }

  predicate Unsettled(bearer: Option<string>, turns: seq<Turn>) {
    exists k :: 0 <= k < |turns| && DeniedAt(bearer, turns, k)
  }

  lemma UnsettledBefore(bearer: Option<string>, turns: seq<Turn>)
    requires turns != []
    ensures var n := |turns| - 1;
            Unsettled(bearer, turns)
            <==> DeniedAt(bearer, turns, n) || (Unsettled(bearer, turns[..n]) && !Settles(CallAt(bearer, turns, n)))
  {
    var n := |turns| - 1;
    forall k | 0 <= k < n ensures CallAt(bearer, turns[..n], k) == CallAt(bearer, turns, k) {
      assert turns[..n][..k] == turns[..k];
    }
    forall k | 0 <= k < n
      ensures DeniedAt(bearer, turns, k) <==> DeniedAt(bearer, turns[..n], k) && !Settles(CallAt(bearer, turns, n))
    {
      assert turns[..n][..k] == turns[..k];
    }
  }

  lemma ToldAppend(callbacks: seq<Callback>, c: Callback)
    ensures Told(callbacks + [c])
            == match c
               case SetAuthToken(g) => Some(g)
               case ClearAuth => None
               case RegistrationComplete => Told(callbacks)
  {
    assert (callbacks + [c])[..|callbacks|] == callbacks;
  }

  /** What a call leaves with the engine and with the platform. */
  lemma CallTells(s: Loop, call: Call)
    ensures var r := Handle(s, call);
            if !Fruitless(call) then r.token.Some? && Told(r.callbacks).Some?
            else if Settles(call) then r.token.None?
            else if Denied(call) then r.token == s.token && Told(r.callbacks).None?
            else r.token == s.token && Told(r.callbacks) == Told(s.callbacks)
  {
    ToldAppend(s.callbacks, ClearAuth);
    match call {
      case Register(Granted(g)) =>
        ToldAppend(s.callbacks, SetAuthToken(g));
        ToldAppend(s.callbacks + [SetAuthToken(g)], RegistrationComplete);
      case Authenticate(Granted(g)) => ToldAppend(s.callbacks, SetAuthToken(g));
      case Refresh(Granted(g)) => ToldAppend(s.callbacks, SetAuthToken(g));
      case _ =>
    }
  }

  /** A turn leaves what its call leaves. */
  lemma TurnHandles(s: Loop, t: Turn) returns (before: Loop)
    requires TimerSound(s)
    ensures before.token == s.token && before.callbacks == s.callbacks
    ensures var r, done := Next(s, t), Handle(before, TurnCall(s, t));
            r.token == done.token && r.callbacks == done.callbacks
  {
    var woken := Wait(s, t.idle);
    before := if TimerReady(woken) then woken.(armed := false, fired := woken.fired + [woken.clock]) else woken;
    assert Select(woken, t) == Handle(before, TurnCall(s, t));
  }

  /** On every run, the engine stores a refresh state while the platform holds no tokens exactly if a
      registration or an authentication was refused while the state was stored, and since then no call
      brought a grant, no refresh was refused, and nobody logged out. */
  lemma {:induction false} PlatformAndEngineDisagree(bearer: Option<string>, turns: seq<Turn>)
    ensures var s := Run(bearer, turns);
            s.token.Some? && Told(s.callbacks).None? <==> Unsettled(bearer, turns)
  {
    if turns != [] {
      var n := |turns| - 1;
      var s := Run(bearer, turns[..n]);
      PlatformAndEngineDisagree(bearer, turns[..n]);
      TimerInvariant(bearer, turns[..n]);
      UnsettledBefore(bearer, turns);
      var before := TurnHandles(s, turns[n]);
      CallTells(before, TurnCall(s, turns[n]));
    }
  }

  // ── What bearer, token and callbacks are ────────────────────────────────────

  /** The grant that a call brings, if any. */
  function GrantOf(call: Call): Option<Grant> {
    match call
    case Register(Granted(g)) => Some(g)
    case Authenticate(Granted(g)) => Some(g)
    case Refresh(Granted(g)) => Some(g)
    case _ => None
  }

  predicate IsRefused(call: Call) {
    call == Register(Refused) || call == Authenticate(Refused) || call == Refresh(Refused)
  }

  function BearerAfter(bearer: Option<string>, turns: seq<Turn>): Option<string> {
    if turns == [] then bearer
    else
      var n := |turns| - 1;
      var call := CallAt(bearer, turns, n);
      if GrantOf(call).Some? then Some(GrantOf(call).value.access)
      else if call.Logout? then None
      else BearerAfter(bearer, turns[..n])
  }

  function TokenAfter(bearer: Option<string>, turns: seq<Turn>): Option<TokenState> {
    if turns == [] then None
    else
      var n := |turns| - 1;
      var call := CallAt(bearer, turns, n);
      if GrantOf(call).Some? then Some(TokenState(GrantOf(call).value.refresh, GrantOf(call).value.expiresAt))
      else if call.Logout? || call == Refresh(Refused) then None
      else TokenAfter(bearer, turns[..n])
  }

  function CallbacksAfter(bearer: Option<string>, turns: seq<Turn>): seq<Callback> {
    if turns == [] then []
    else
      var n := |turns| - 1;
      var call := CallAt(bearer, turns, n);
      CallbacksAfter(bearer, turns[..n])
      + (if GrantOf(call).Some? then [SetAuthToken(GrantOf(call).value)] else [])
      + (if GrantOf(call).Some? && call.Register? then [RegistrationComplete] else [])
      + (if call.Logout? || IsRefused(call) then [ClearAuth] else [])
  }

  lemma CallLedger(s: Loop, call: Call)
    ensures var r, g := Handle(s, call), GrantOf(call);
            && r.bearer == (if g.Some? then Some(g.value.access) else if call.Logout? then None else s.bearer)
            && r.token == (if g.Some? then Some(TokenState(g.value.refresh, g.value.expiresAt))
                           else if call.Logout? || call == Refresh(Refused) then None else s.token)
            && r.callbacks == s.callbacks
                              + (if g.Some? then [SetAuthToken(g.value)] else [])
                              + (if g.Some? && call.Register? then [RegistrationComplete] else [])
                              + (if call.Logout? || IsRefused(call) then [ClearAuth] else [])
  {
  }

  lemma TurnLedger(bearer: Option<string>, turns: seq<Turn>)
    requires turns != []
    ensures var n := |turns| - 1;
            var s, r, call := Run(bearer, turns[..n]), Run(bearer, turns), CallAt(bearer, turns, n);
            var g := GrantOf(call);
            && r.bearer == (if g.Some? then Some(g.value.access) else if call.Logout? then None else s.bearer)
            && r.token == (if g.Some? then Some(TokenState(g.value.refresh, g.value.expiresAt))
                           else if call.Logout? || call == Refresh(Refused) then None else s.token)
            && r.callbacks == s.callbacks
                              + (if g.Some? then [SetAuthToken(g.value)] else [])
                              + (if g.Some? && call.Register? then [RegistrationComplete] else [])
                              + (if call.Logout? || IsRefused(call) then [ClearAuth] else [])
  {
    var n := |turns| - 1;
    var s := Run(bearer, turns[..n]);
    TimerInvariant(bearer, turns[..n]);
    TurnCalls(s, turns[n]);
  }

  lemma TurnCalls(s: Loop, t: Turn)
    requires TimerSound(s)
    ensures var r, call := Next(s, t), TurnCall(s, t);
            var g := GrantOf(call);
            && r.bearer == (if g.Some? then Some(g.value.access) else if call.Logout? then None else s.bearer)
            && r.token == (if g.Some? then Some(TokenState(g.value.refresh, g.value.expiresAt))
                           else if call.Logout? || call == Refresh(Refused) then None else s.token)
            && r.callbacks == s.callbacks
                              + (if g.Some? then [SetAuthToken(g.value)] else [])
                              + (if g.Some? && call.Register? then [RegistrationComplete] else [])
                              + (if call.Logout? || IsRefused(call) then [ClearAuth] else [])
  {
    var woken := Wait(s, t.idle);
    var before := if Due(s, t) then woken.(armed := false, fired := woken.fired + [woken.clock]) else woken;
    assert Select(woken, t) == Handle(before, TurnCall(s, t));
    CallLedger(before, TurnCall(s, t));
  }

  lemma {:induction false} BearerExactly(bearer: Option<string>, turns: seq<Turn>)
    ensures Run(bearer, turns).bearer == BearerAfter(bearer, turns)
  {
    if turns != [] {
      var n := |turns| - 1;
      BearerExactly(bearer, turns[..n]);
      TurnLedger(bearer, turns);
    }
  }

  lemma {:induction false} TokenExactly(bearer: Option<string>, turns: seq<Turn>)
    ensures Run(bearer, turns).token == TokenAfter(bearer, turns)
  {
    if turns != [] {
      var n := |turns| - 1;
      TokenExactly(bearer, turns[..n]);
      TurnLedger(bearer, turns);
    }
  }

  lemma {:induction false} CallbacksExactly(bearer: Option<string>, turns: seq<Turn>)
    ensures Run(bearer, turns).callbacks == CallbacksAfter(bearer, turns)
  {
    if turns != [] {
      var n := |turns| - 1;
      CallbacksExactly(bearer, turns[..n]);
      TurnLedger(bearer, turns);
    }
  }

  /** On every run the bearer is that of the last grant, none after a logout, and the configured one before
      both; the refresh state is that of the last grant until a logout or a refused refresh; and the
      platform is told of each grant, each completed registration, each refusal and each logout. */
  lemma {:induction false} LedgerExactly(bearer: Option<string>, turns: seq<Turn>)
    ensures Run(bearer, turns).bearer == BearerAfter(bearer, turns)
    ensures Run(bearer, turns).token == TokenAfter(bearer, turns)
    ensures Run(bearer, turns).callbacks == CallbacksAfter(bearer, turns)
  {
    BearerExactly(bearer, turns);
    TokenExactly(bearer, turns);
    CallbacksExactly(bearer, turns);
  }

  // ── When the timer fires ────────────────────────────────────────────────────

  /** The time at the select point after the turns. */
  function ClockAfter(turns: seq<Turn>): nat {
    if turns == [] then 0
    else ClockAfter(turns[..|turns| - 1]) + turns[|turns| - 1].idle + turns[|turns| - 1].busy
  }

  /** The times of the turns that came to the select with the timer due. */
  function FiredAfter(bearer: Option<string>, turns: seq<Turn>): seq<int> {
    if turns == [] then []
    else
      var n := |turns| - 1;
      FiredAfter(bearer, turns[..n]) + if Fires(bearer, turns, n) then [ClockAfter(turns[..n]) + turns[n].idle] else []
  }

  /** The deadline set after the last turn whose call brought a grant. */
  function DeadlineAfter(bearer: Option<string>, turns: seq<Turn>): int {
    if turns == [] then 0
    else
      var n := |turns| - 1;
      var g := GrantOf(CallAt(bearer, turns, n));
      if g.Some? then ClockAfter(turns) + SecsUntilRefresh(g.value.expiresAt, turns[n].wall)
      else DeadlineAfter(bearer, turns[..n])
  }

  lemma TurnTimes(s: Loop, t: Turn)
    requires TimerSound(s)
    ensures var r, g := Next(s, t), GrantOf(TurnCall(s, t));
            && r.clock == s.clock + t.idle + t.busy
            && r.fired == s.fired + (if Due(s, t) then [s.clock + t.idle] else [])
            && r.deadline == (if g.Some? then r.clock + SecsUntilRefresh(g.value.expiresAt, t.wall) else s.deadline)
  {
    var woken := Wait(s, t.idle);
    var before := if Due(s, t) then woken.(armed := false, fired := woken.fired + [woken.clock]) else woken;
    assert Select(woken, t) == Handle(before, TurnCall(s, t));
    HandleFrame(before, TurnCall(s, t));
    CallLedger(before, TurnCall(s, t));
    VersionMoves(before, TurnCall(s, t));
  }

  lemma VersionMoves(s: Loop, call: Call)
    ensures var r := Handle(s, call);
            r.version == s.version + if GrantOf(call).Some? || call.Logout? || call == Refresh(Refused) then 1 else 0
  {
  }

  lemma {:induction false} ClockExactly(bearer: Option<string>, turns: seq<Turn>)
    ensures Run(bearer, turns).clock == ClockAfter(turns)
  {
    if turns != [] {
      var n := |turns| - 1;
      ClockExactly(bearer, turns[..n]);
      TimerInvariant(bearer, turns[..n]);
      TurnTimes(Run(bearer, turns[..n]), turns[n]);
    }
  }

  lemma {:induction false} FiredExactly(bearer: Option<string>, turns: seq<Turn>)
    ensures Run(bearer, turns).fired == FiredAfter(bearer, turns)
  {
    if turns != [] {
      var n := |turns| - 1;
      FiredExactly(bearer, turns[..n]);
      ClockExactly(bearer, turns[..n]);
      TimerInvariant(bearer, turns[..n]);
      TurnTimes(Run(bearer, turns[..n]), turns[n]);
    }
  }

  lemma {:induction false} DeadlineExactly(bearer: Option<string>, turns: seq<Turn>)
    ensures Run(bearer, turns).deadline == DeadlineAfter(bearer, turns)
  {
    if turns != [] {
      var n := |turns| - 1;
      DeadlineExactly(bearer, turns[..n]);
      ClockExactly(bearer, turns);
      TimerInvariant(bearer, turns[..n]);
      TurnTimes(Run(bearer, turns[..n]), turns[n]);
    }
  }

  /** On every run automatic refreshes are made exactly by the turns that reach the deadline of an armed
      timer, and that deadline was set when the last grant came, from its expiry time and the wall clock. */
  lemma {:induction false} FiresExactly(bearer: Option<string>, turns: seq<Turn>)
    ensures Run(bearer, turns).fired == FiredAfter(bearer, turns)
    ensures Run(bearer, turns).deadline == DeadlineAfter(bearer, turns)
  {
    FiredExactly(bearer, turns);
    DeadlineExactly(bearer, turns);
  }
}

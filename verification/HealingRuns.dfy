/** Healing over whole runs of the engine's own handlers (src/engine.rs:1905-2003), with the session
    starts that wait in the frame queue or for their retry delay. */
module HealingRuns {
  import opened Bytes
  import opened Protocol
  import opened EngineSpec
  import opened Healing
  import Grpc

  /** The frame that a retry puts into the queue runs the responder path on the same message, in the
      same state: the stream cursor in particular stays where it is. */
  lemma RetryIsHandled(codec: Codec, m: Mem, msg: Incoming, env: Env)
    requires Faithful(codec) && |codec.encode(RetryResponse(msg))| < U32_LIMIT
    requires msg.sender != "" && msg.payload.Packed? && msg.payload.number == 0
    ensures var frame := Grpc.RawFrame(0, codec.encode(RetryResponse(msg)));
            Handle(m, Frame(ReadFrame(codec, frame), env)) == RespondFirst(m, msg, env)
    ensures RespondFirst(m, msg, env).mem.params == m.params
  {
    RetryReenters(codec, msg, env.madeUp);
  }

  datatype Node = Node(mem: Mem, inbox: seq<Incoming>, log: seq<Effect>)

  /** `Take` handles any one of the waiting session starts; `Other` is any event without one. */
  datatype NodeStep = Come(message: Incoming) | Take(index: nat, env: Env) | Other(event: Event)

  predicate StartsSession(m: Mem, e: Event) {
    match e
    case Frame(Read(r), env) => RouteResponse(r, env.madeUp).Responder?
    case PendingMessage(p) => Classify(m, p).SessionStart?
    case _ => false
  }

  function NodeNext(n: Node, step: NodeStep): Node {
    match step
    case Come(msg) => n.(inbox := n.inbox + [msg])
    case Take(i, env) =>
      if i >= |n.inbox| then n
      else
        var o := RespondFirst(n.mem, n.inbox[i], env);
        var rest := if Retry(n.inbox[i]) in o.effects then n.inbox else n.inbox[..i] + n.inbox[i + 1..];
        Node(o.mem, rest, n.log + o.effects)
    case Other(e) =>
      if StartsSession(n.mem, e) then n
      else
        var o := Handle(n.mem, e);
        Node(o.mem, n.inbox, n.log + o.effects)
  }

  function NodeRun(limit: nat, steps: seq<NodeStep>): Node {
    if steps == [] then Node(Dead(limit), [], [])
    else NodeNext(NodeRun(limit, steps[..|steps| - 1]), steps[|steps| - 1])
  }

  // ── What is counted ─────────────────────────────────────────────────────────

  /** Session starts that came from `s`, and replacements of the core. */
  function Came(steps: seq<NodeStep>, s: Contact): nat {
    if steps == [] then 0
    else
      var last := steps[|steps| - 1];
      Came(steps[..|steps| - 1], s) + if last.Come? && last.message.sender == s then 1 else 0
  }

  predicate Rebuilds(step: NodeStep) {
    step.Other? && step.event.KeysArrived? && !step.event.keys.Malformed?
  }

  function Rebuilt(steps: seq<NodeStep>): nat {
    if steps == [] then 0
    else Rebuilt(steps[..|steps| - 1]) + if Rebuilds(steps[|steps| - 1]) then 1 else 0
  }

  function RetriesTo(log: seq<Effect>, s: Contact): nat {
    if log == [] then 0
    else
      var last := log[|log| - 1];
      RetriesTo(log[..|log| - 1], s) + if last.Retry? && last.message.sender == s then 1 else 0
  }

  function Waiting(inbox: seq<Incoming>, s: Contact): nat {
    if inbox == [] then 0 else (if inbox[0].sender == s then 1 else 0) + Waiting(inbox[1..], s)
  }

  lemma {:induction false} RetriesAppend(a: seq<Effect>, b: seq<Effect>, s: Contact)
    ensures RetriesTo(a + b, s) == RetriesTo(a, s) + RetriesTo(b, s)
  {
    if b == [] {
      assert a + b == a;
    } else {
      assert (a + b)[..|a + b| - 1] == a + b[..|b| - 1];
      RetriesAppend(a, b[..|b| - 1], s);
    }
  }

  lemma {:induction false} NoRetries(log: seq<Effect>, s: Contact)
    requires forall i :: 0 <= i < |log| ==> !log[i].Retry?
    ensures RetriesTo(log, s) == 0
  {
    if log != [] { NoRetries(log[..|log| - 1], s); }
  }

  lemma {:induction false} WaitingAppend(inbox: seq<Incoming>, msg: Incoming, s: Contact)
    ensures Waiting(inbox + [msg], s) == Waiting(inbox, s) + if msg.sender == s then 1 else 0
  {
    if inbox != [] {
      assert (inbox + [msg])[1..] == inbox[1..] + [msg];
      WaitingAppend(inbox[1..], msg, s);
    }
  }

  lemma {:induction false} WaitingRemove(inbox: seq<Incoming>, i: nat, s: Contact)
    requires i < |inbox|
    ensures Waiting(inbox, s) == Waiting(inbox[..i] + inbox[i + 1..], s) + if inbox[i].sender == s then 1 else 0
  {
    var rest := inbox[..i] + inbox[i + 1..];
    if i == 0 {
      assert rest == inbox[1..];
    } else {
      assert rest[1..] == inbox[1..][..i - 1] + inbox[1..][i..];
      WaitingRemove(inbox[1..], i - 1, s);
    }
  }

  // ── The engine runs the healing machine ─────────────────────────────────────

  ghost predicate Simulates(w: World, n: Node) {
    && w.heal == n.mem.heal
    && forall s :: w.pending[s] == Waiting(n.inbox, s) && w.retried[s] == RetriesTo(n.log, s)
  }

  /** The responder path schedules a retry of the very message exactly when the record keeps it. */
  lemma RetriesWhenKept(m: Mem, msg: Incoming, env: Env)
    ensures var effects := RespondFirst(m, msg, env).effects;
            && (Retry(msg) in effects <==> Keeps(m.heal, m.limit, msg.sender, FateOf(TryFirst(m, msg, env))))
            && forall i :: 0 <= i < |effects| && effects[i].Retry? ==> effects == [Retry(msg)]
  {
  }

  lemma RespondRetries(m: Mem, msg: Incoming, env: Env, s: Contact)
    ensures var effects := RespondFirst(m, msg, env).effects;
            RetriesTo(effects, s) == if Retry(msg) in effects && msg.sender == s then 1 else 0
  {
    var effects := RespondFirst(m, msg, env).effects;
    if Retry(msg) in effects {
      assert effects == [Retry(msg)];
      assert effects[..0] == [];
    } else {
      RetriesWhenKept(m, msg, env);
      NoRetries(effects, s);
    }
  }

  lemma TakeSimulates(w: World, n: Node, i: nat, env: Env)
    requires Simulates(w, n) && i < |n.inbox|
    ensures var msg := n.inbox[i];
            var fate := FateOf(TryFirst(n.mem, msg, env));
            Simulates(Next(w, n.mem.limit, Process(msg.sender, fate)), NodeNext(n, Take(i, env)))
  {
    var msg, r := n.inbox[i], NodeNext(n, Take(i, env));
    var fate := FateOf(TryFirst(n.mem, msg, env));
    var x := Next(w, n.mem.limit, Process(msg.sender, fate));
    WaitingRemove(n.inbox, i, msg.sender);
    assert msg.sender in w.pending;
    forall s ensures x.pending[s] == Waiting(r.inbox, s) && x.retried[s] == RetriesTo(r.log, s) {
      TakeCounts(w, n, i, env, s);
    }
  }

  lemma TakeCounts(w: World, n: Node, i: nat, env: Env, s: Contact)
    requires Simulates(w, n) && i < |n.inbox| && n.inbox[i].sender in w.pending
    ensures var msg, r := n.inbox[i], NodeNext(n, Take(i, env));
            var x := Next(w, n.mem.limit, Process(msg.sender, FateOf(TryFirst(n.mem, msg, env))));
            x.pending[s] == Waiting(r.inbox, s) && x.retried[s] == RetriesTo(r.log, s)
  {
    var msg := n.inbox[i];
    RetriesWhenKept(n.mem, msg, env);
    WaitingRemove(n.inbox, i, s);
    RetriesAppend(n.log, RespondFirst(n.mem, msg, env).effects, s);
    RespondRetries(n.mem, msg, env, s);
  }

  lemma FrameRetriesNothing(m: Mem, content: FrameContent, env: Env)
    requires !StartsSession(m, Frame(content, env))
    ensures var o := ReceiveFrame(m, content, env);
            o.mem.heal == m.heal && forall i :: 0 <= i < |o.effects| ==> !o.effects[i].Retry?
  {
    if content.Read? {
      var route := RouteResponse(content.response, env.madeUp);
      if route.Receipts? { ReceiptsAreReceipts(route.messageIds); }
    }
  }

  lemma SendsRetryNothing(m: Mem, e: Event)
    requires e.SendMessage? || e.InitSession?
    ensures var o := Handle(m, e);
            o.mem.heal == m.heal && forall i :: 0 <= i < |o.effects| ==> !o.effects[i].Retry?
  {
  }

  lemma OthersRetryNothing(m: Mem, e: Event)
    requires !StartsSession(m, e)
    ensures var o := Handle(m, e);
            && o.mem.heal == (if Rebuilds(Other(e)) then map[] else m.heal)
            && forall i :: 0 <= i < |o.effects| ==> !o.effects[i].Retry?
  {
    match e {
      case Frame(content, env) => FrameRetriesNothing(m, content, env);
      case SendMessage(_, _, _, _, _) => SendsRetryNothing(m, e);
      case InitSession(_, _, _, _, _, _, _, _) => SendsRetryNothing(m, e);
      case _ =>
    }
  }

  lemma OtherSimulates(w: World, n: Node, e: Event)
    requires Simulates(w, n) && !StartsSession(n.mem, e)
    ensures var r := NodeNext(n, Other(e));
            Simulates(if Rebuilds(Other(e)) then Next(w, n.mem.limit, Forget) else w, r)
  {
    OthersRetryNothing(n.mem, e);
    forall s ensures RetriesTo(NodeNext(n, Other(e)).log, s) == RetriesTo(n.log, s) {
      NoRetries(Handle(n.mem, e).effects, s);
      RetriesAppend(n.log, Handle(n.mem, e).effects, s);
    }
  }

  lemma LimitStays(m: Mem, e: Event)
    ensures Handle(m, e).mem.limit == m.limit
  {
  }

  /** The healing machine's step for a step of the engine, if it is one. */
  function MachineStep(n: Node, step: NodeStep): seq<Step> {
    match step
    case Come(msg) => [Arrive(msg.sender)]
    case Take(i, env) =>
      if i < |n.inbox| then [Process(n.inbox[i].sender, FateOf(TryFirst(n.mem, n.inbox[i], env)))] else []
    case Other(e) => if Rebuilds(Other(e)) then [Forget] else []
  }

  lemma StepSimulates(w: World, n: Node, step: NodeStep)
    requires Simulates(w, n)
    ensures var ms, r := MachineStep(n, step), NodeNext(n, step);
            Simulates(if ms == [] then w else Next(w, n.mem.limit, ms[0]), r) && r.mem.limit == n.mem.limit
  {
    match step
    case Come(msg) => forall s { WaitingAppend(n.inbox, msg, s); }
    case Take(i, env) => if i < |n.inbox| { TakeSimulates(w, n, i, env); }
    case Other(e) =>
      LimitStays(n.mem, e);
      if !StartsSession(n.mem, e) { OtherSimulates(w, n, e); }
  }

  lemma StepCounts(w: World, n: Node, limit: nat, step: NodeStep)
    ensures var ms := MachineStep(n, step);
            var x := if ms == [] then w else Next(w, limit, ms[0]);
            && x.forgets == w.forgets + (if Rebuilds(step) then 1 else 0)
            && forall s :: x.arrived[s] == w.arrived[s] + if step.Come? && step.message.sender == s then 1 else 0
  {
  }

  lemma RunAppend(limit: nat, before: seq<Step>, ms: seq<Step>)
    requires |ms| <= 1
    ensures Run(limit, before + ms) == if ms == [] then Run(limit, before) else Next(Run(limit, before), limit, ms[0])
  {
    if ms == [] {
      assert before + ms == before;
    } else {
      RunThen(limit, before, ms[0]);
      assert ms == [ms[0]];
    }
  }

  lemma {:induction false} Simulated(limit: nat, steps: seq<NodeStep>) returns (ms: seq<Step>)
    ensures var w, n := Run(limit, ms), NodeRun(limit, steps);
            && Simulates(w, n) && n.mem.limit == limit
            && w.forgets == Rebuilt(steps) && forall s :: w.arrived[s] == Came(steps, s)
  {
    if steps == [] {
      ms := [];
    } else {
      var init, last := steps[..|steps| - 1], steps[|steps| - 1];
      var before := Simulated(limit, init);
      var w, n := Run(limit, before), NodeRun(limit, init);
      StepSimulates(w, n, last);
      StepCounts(w, n, limit, last);
      RunAppend(limit, before, MachineStep(n, last));
      ms := before + MachineStep(n, last);
    }
  }

  lemma {:induction false} BooksOf(limit: nat, steps: seq<NodeStep>, s: Contact) returns (w: World)
    ensures Simulates(w, NodeRun(limit, steps)) && w.arrived[s] == Came(steps, s) && w.forgets == Rebuilt(steps)
    ensures w.retried[s] <= limit * (w.arrived[s] + w.forgets)
  {
    var ms := Simulated(limit, steps);
    RetriesBounded(limit, ms, s);
    w := Run(limit, ms);
  }

  /** Over every run of the engine, whatever it does between session starts and in whatever order
      they are taken: a sender causes at most `limit` retries for each of its session starts that
      came, and for each time the core was replaced. */
  lemma {:induction false} EngineRetriesBounded(limit: nat, steps: seq<NodeStep>, s: Contact)
    ensures RetriesTo(NodeRun(limit, steps).log, s) <= limit * (Came(steps, s) + Rebuilt(steps))
  {
    var w := BooksOf(limit, steps, s);
  }
}

/** Candidate selection of a direct connection (src/p2p/quic_p2p.rs). Whether a candidate answers
    the probe is decided by the network: `answers[i]` is the outcome of the one attempt that a
    call makes on candidate `i`. */
module P2PConnection {
  import opened Wrappers

  datatype Candidate = Candidate(address: string, priority: nat)

  datatype ConnectionState = Disconnected | Connecting | Connected | Reconnecting | Closed | Failed

  // ── Order of attempts ───────────────────────────────────────────────────────

  /** Lower priority first; input order among equals. */
  predicate Before(cs: seq<Candidate>, i: nat, j: nat)
    requires i < |cs| && j < |cs|
  {
    cs[i].priority < cs[j].priority || (cs[i].priority == cs[j].priority && i < j)
  }

  ghost predicate InOrder(cs: seq<Candidate>, order: seq<nat>) {
    && (forall k :: 0 <= k < |order| ==> order[k] < |cs|)
    && (forall k, l :: 0 <= k < l < |order| ==> Before(cs, order[k], order[l]))
  }

  /** Stable insertion of candidate `i`, which precedes all those of `order` in the input. */
  function Insert(cs: seq<Candidate>, i: nat, order: seq<nat>): (r: seq<nat>)
    requires i < |cs| && InOrder(cs, order)
    requires forall k :: 0 <= k < |order| ==> i < order[k]
    ensures InOrder(cs, r)
    ensures forall x :: x in r <==> x == i || x in order
  {
    if order == [] || cs[i].priority <= cs[order[0]].priority then [i] + order
    else
      var rest := Insert(cs, i, order[1..]);
      assert forall x :: x in rest ==> Before(cs, order[0], x);
      [order[0]] + rest
  }

  /** The stable sort by priority, as a list of input positions. */
  function AttemptOrder(cs: seq<Candidate>, from: nat := 0): (r: seq<nat>)
    requires from <= |cs|
    ensures InOrder(cs, r)
    ensures forall x :: x in r <==> from <= x < |cs|
    decreases |cs| - from
  {
    if from == |cs| then []
    else
      var later := AttemptOrder(cs, from + 1);
      assert forall k :: 0 <= k < |later| ==> later[k] in later;
      Insert(cs, from, later)
  }

  /** A list ordered by `Before` and holding every position is the only one there is: the sort is a
      stable permutation and nothing else could be. */
  lemma {:induction false} AttemptOrderUnique(cs: seq<Candidate>, a: seq<nat>, b: seq<nat>)
    requires InOrder(cs, a) && InOrder(cs, b)
    requires forall x :: x in a <==> x in b
    ensures a == b
  {
    assert a != [] ==> a[0] in b;
    assert b != [] ==> b[0] in a;
    if a != [] && b != [] {
      assert a[0] == b[0];
      forall x ensures x in a[1..] <==> x in b[1..] {
        if x in a[1..] { assert x in b && x != a[0]; }
        if x in b[1..] { assert x in a && x != b[0]; }
      }
      AttemptOrderUnique(cs, a[1..], b[1..]);
    }
  }

  /** The order spelled out: every candidate once, lower numbers first, and candidates with the same
      number as they were given. */
  lemma {:induction false} OrderIsStableSort(cs: seq<Candidate>)
    ensures var order := AttemptOrder(cs);
            && (forall i :: 0 <= i < |cs| ==> i in order)
            && (forall k :: 0 <= k < |order| ==> order[k] < |cs|)
            && (forall k, l :: 0 <= k < l < |order| ==>
                  && order[k] != order[l] && cs[order[k]].priority <= cs[order[l]].priority
                  && (cs[order[k]].priority == cs[order[l]].priority ==> order[k] < order[l]))
  {
    var order := AttemptOrder(cs);
    forall k, l | 0 <= k < l < |order| ensures Before(cs, order[k], order[l]) {
    }
  }

  /** Candidate `i` answers and comes before every other that does. */
  ghost predicate Winner(cs: seq<Candidate>, answers: seq<bool>, i: nat)
    requires |answers| == |cs|
  {
    i < |cs| && answers[i] && forall j :: 0 <= j < |cs| && answers[j] && j != i ==> Before(cs, i, j)
  }

  // ── State of a connection ───────────────────────────────────────────────────

  datatype Link = Link(state: ConnectionState, remote: Option<string>)

  datatype Op =
    | Connect(candidates: seq<Candidate>, answers: seq<bool>)
    | Close
    | Reconnect(again: seq<Candidate>, outcome: seq<bool>)

  const FRESH := Link(Disconnected, None)

  ghost function Connects(l: Link, cs: seq<Candidate>, answers: seq<bool>): Link
    requires |answers| == |cs|
  {
    if exists i: nat :: Winner(cs, answers, i) then
      var i: nat :| Winner(cs, answers, i);
      Link(Connected, Some(cs[i].address))
    else Link(Failed, l.remote)
  }

  ghost predicate WellFormedOp(op: Op) {
    (op.Connect? ==> |op.answers| == |op.candidates|) && (op.Reconnect? ==> |op.outcome| == |op.again|)
  }

  ghost function After(l: Link, op: Op): Link
    requires WellFormedOp(op)
  {
    match op
    case Connect(cs, answers) => Connects(l, cs, answers)
    case Close => Link(Closed, None)
    case Reconnect(cs, answers) => Connects(Link(Reconnecting, None), cs, answers)
  }

  ghost function History(ops: seq<Op>): Link
    requires forall i :: 0 <= i < |ops| ==> WellFormedOp(ops[i])
  {
    if ops == [] then FRESH else After(History(ops[..|ops| - 1]), ops[|ops| - 1])
  }

  class Connection {
    var state: ConnectionState
    var remoteAddr: Option<string>
    ghost var tried: seq<nat>

    ghost function View(): Link
      reads this
    {
      Link(state, remoteAddr)
    }

    constructor ()
      ensures View() == FRESH
    {
      state, remoteAddr, tried := Disconnected, None, [];
    }

    /** The probe of one candidate: the address is stored only on an answer. */
    method TryConnect(candidate: Candidate, answers: bool) returns (ok: bool)
      modifies this`remoteAddr
      ensures ok == answers
      ensures remoteAddr == if answers then Some(candidate.address) else old(remoteAddr)
    {
      if answers {
        remoteAddr := Some(candidate.address);
      }
      return answers;
    }

    /** Tries the candidates in order until one answers. */
    method ConnectTo(candidates: seq<Candidate>, answers: seq<bool>) returns (ok: bool)
      requires |answers| == |candidates|
      modifies this
      ensures View() == After(old(View()), Connect(candidates, answers))
      ensures ok <==> exists i :: 0 <= i < |candidates| && answers[i]
      ensures tried <= AttemptOrder(candidates)
      ensures forall k :: 0 <= k < |tried| ==> (answers[tried[k]] <==> ok && k == |tried| - 1)
      ensures ok ==> tried != [] && remoteAddr == Some(candidates[tried[|tried| - 1]].address)
      ensures !ok ==> tried == AttemptOrder(candidates)
    {
      state := Connecting;
      var order := AttemptOrder(candidates);
      tried := [];
      for n := 0 to |order|
        invariant tried == order[..n]
        invariant forall k :: 0 <= k < n ==> !answers[order[k]]
        invariant remoteAddr == old(remoteAddr)
      {
        var i := order[n];
        tried := tried + [i];
        var reached := TryConnect(candidates[i], answers[i]);
        if reached {
          state := Connected;
          WinnerIsFirst(candidates, answers, order, n);
          return true;
        }
      }
      state := Failed;
      NoWinner(candidates, answers, order);
      return false;
    }

    method CloseLink()
      modifies this
      ensures View() == After(old(View()), Close)
    {
      state := Closed;
      remoteAddr := None;
    }

    method ReconnectTo(candidates: seq<Candidate>, answers: seq<bool>) returns (ok: bool)
      requires |answers| == |candidates|
      modifies this
      ensures View() == After(old(View()), Reconnect(candidates, answers))
      ensures ok <==> exists i :: 0 <= i < |candidates| && answers[i]
    {
      CloseLink();
      state := Reconnecting;
      ok := ConnectTo(candidates, answers);
    }

    /** A history of calls on a new connection. */
    method Replay(ops: seq<Op>)
      requires View() == FRESH && forall i :: 0 <= i < |ops| ==> WellFormedOp(ops[i])
      modifies this
      ensures View() == History(ops)
      ensures state == Connected ==> remoteAddr.Some?
      ensures remoteAddr.Some? <==> exists k :: 0 <= k < |ops| && LastSuccess(ops, k)
    {
      for i := 0 to |ops|
        invariant View() == History(ops[..i])
      {
        match ops[i] {
          case Connect(cs, answers) => var _ := ConnectTo(cs, answers);
          case Close => CloseLink();
          case Reconnect(cs, answers) => var _ := ReconnectTo(cs, answers);
        }
        assert ops[..i + 1][..i] == ops[..i];
      }
      assert ops[..|ops|] == ops;
      ConnectedKnowsPeer(ops);
      AddressExactly(ops);
    }
  }

  lemma {:induction false} WinnerUnique(cs: seq<Candidate>, answers: seq<bool>, i: nat, j: nat)
    requires |answers| == |cs| && Winner(cs, answers, i) && Winner(cs, answers, j)
    ensures i == j
  {
  }

  /** The first answering candidate of the order is the winner. */
  lemma {:induction false} WinnerIsFirst(cs: seq<Candidate>, answers: seq<bool>, order: seq<nat>, n: nat)
    requires |answers| == |cs| && order == AttemptOrder(cs) && n < |order|
    requires answers[order[n]] && forall k :: 0 <= k < n ==> !answers[order[k]]
    ensures Winner(cs, answers, order[n])
    ensures forall i: nat :: Winner(cs, answers, i) ==> i == order[n]
  {
    forall j: nat | j < |cs| && answers[j] && j != order[n] ensures Before(cs, order[n], j) {
      assert j in order;
    }
    forall i: nat | Winner(cs, answers, i) ensures i == order[n] {
      WinnerUnique(cs, answers, i, order[n]);
    }
  }

  lemma {:induction false} NoWinner(cs: seq<Candidate>, answers: seq<bool>, order: seq<nat>)
    requires |answers| == |cs| && order == AttemptOrder(cs)
    requires forall k :: 0 <= k < |order| ==> !answers[order[k]]
    ensures forall i :: 0 <= i < |cs| ==> !answers[i]
  {
    forall i | 0 <= i < |cs| ensures !answers[i] {
      assert i in order;
    }
  }

  /** Some candidate answers exactly when one of them wins. */
  lemma {:induction false} WinnerExists(cs: seq<Candidate>, answers: seq<bool>)
    requires |answers| == |cs|
    ensures (exists i: nat :: Winner(cs, answers, i)) <==> exists i :: 0 <= i < |cs| && answers[i]
  {
    var order := AttemptOrder(cs);
    if i :| 0 <= i < |cs| && answers[i] {
      assert i in order;
      var n := 0;
      while n < |order| && !answers[order[n]]
        invariant n <= |order|
        invariant forall k :: 0 <= k < n ==> !answers[order[k]]
      {
        n := n + 1;
      }
      WinnerIsFirst(cs, answers, order, n);
    }
  }

  /** Over every history of calls: connected means that the last call found an answering candidate
      and that its winner's address is the one on record; no address is on record after a close,
      a failed reconnection, or before the first connection. */
  lemma {:induction false} ConnectedKnowsPeer(ops: seq<Op>)
    requires forall i :: 0 <= i < |ops| ==> WellFormedOp(ops[i])
    ensures var l := History(ops);
            && (l.state == Connected ==> l.remote.Some?)
            && (l.state in {Closed, Disconnected} ==> l.remote.None?)
            && (l.state == Connected <==>
                && ops != []
                && var op := ops[|ops| - 1];
                   match op
                   case Close => false
                   case Connect(cs, answers) =>
                     exists i: nat :: Winner(cs, answers, i) && l.remote == Some(cs[i].address)
                   case Reconnect(cs, answers) =>
                     exists i: nat :: Winner(cs, answers, i) && l.remote == Some(cs[i].address))
            && (ops != [] && ops[|ops| - 1].Reconnect? && l.state == Failed ==> l.remote.None?)
  {
    if ops != [] {
      ConnectedKnowsPeer(ops[..|ops| - 1]);
    }
  }

  // ── The address on record ───────────────────────────────────────────────────

  /** The candidates that a call tries, and which of them answer. */
  function Tried(op: Op): (seq<Candidate>, seq<bool>) {
    match op
    case Connect(cs, answers) => (cs, answers)
    case Close => ([], [])
    case Reconnect(cs, answers) => (cs, answers)
  }

  ghost predicate Succeeds(op: Op)
    requires WellFormedOp(op)
  {
    var (cs, answers) := Tried(op);
    exists i :: 0 <= i < |cs| && answers[i]
  }

  /** Call `k` was the last to succeed, and no later one closed the connection. */
  ghost predicate LastSuccess(ops: seq<Op>, k: nat)
    requires k < |ops| && forall i :: 0 <= i < |ops| ==> WellFormedOp(ops[i])
  {
    Succeeds(ops[k]) && forall j :: k < j < |ops| ==> ops[j].Connect? && !Succeeds(ops[j])
  }

  ghost predicate WinnersAddress(op: Op, address: string)
    requires WellFormedOp(op)
  {
    var (cs, answers) := Tried(op);
    exists i: nat :: Winner(cs, answers, i) && cs[i].address == address
  }

  lemma {:induction false} OneCall(l: Link, op: Op)
    requires WellFormedOp(op)
    ensures var r := After(l, op);
            && (Succeeds(op) ==> r.remote.Some? && WinnersAddress(op, r.remote.value))
            && (!Succeeds(op) ==> r.remote == if op.Connect? then l.remote else None)
  {
    var (cs, answers) := Tried(op);
    WinnerExists(cs, answers);
  }

  /** Over every history: an address is on record exactly if some call succeeded after which there were
      only failing calls of `connect`, and it is the address of that call's winner. A failed `connect`
      thus leaves the old address in place, while a failed reconnection or a close removes it. */
  lemma {:induction false} AddressExactly(ops: seq<Op>)
    requires forall i :: 0 <= i < |ops| ==> WellFormedOp(ops[i])
    ensures var l := History(ops);
            && (l.remote.Some? <==> exists k :: 0 <= k < |ops| && LastSuccess(ops, k))
            && forall k :: 0 <= k < |ops| && LastSuccess(ops, k) ==>
                 l.remote.Some? && WinnersAddress(ops[k], l.remote.value)
  {
    if ops != [] {
      var n := |ops| - 1;
      var init := ops[..n];
      AddressExactly(init);
      OneCall(History(init), ops[n]);
      forall k | 0 <= k < n
        ensures LastSuccess(ops, k) <==> LastSuccess(init, k) && ops[n].Connect? && !Succeeds(ops[n])
      {
        assert forall j :: k < j < n ==> init[j] == ops[j];
      }
      assert LastSuccess(ops, n) <==> Succeeds(ops[n]);
    }
  }

  /** The state after a history: by its last call alone. */
  lemma {:induction false} StateExactly(ops: seq<Op>)
    requires forall i :: 0 <= i < |ops| ==> WellFormedOp(ops[i])
    ensures History(ops).state
            == if ops == [] then Disconnected
               else if ops[|ops| - 1].Close? then Closed
               else if Succeeds(ops[|ops| - 1]) then Connected
               else Failed
  {
    if ops != [] {
      var op := ops[|ops| - 1];
      var (cs, answers) := Tried(op);
      WinnerExists(cs, answers);
    }
  }
}

/** When the message stream is open (src/engine.rs:256-272, src/engine.rs:557-564,
    src/engine.rs:1019-1062): closing it keeps the parameters with which it is opened again. */
module StreamLife {
  import opened Wrappers
  import opened EngineSpec
  import opened Visible

  /** Before event `i`, parameters are stored. */
  predicate Stored(m: Mem, events: seq<Event>, i: nat)
    requires i <= |events|
  {
    m.params.Some? || exists k :: 0 <= k < i && events[k].OpenStream?
  }

  predicate Drops(e: Event, stored: bool) {
    match e
    case CloseStream => true
    case Disconnect(up) => !(up && stored)
    case _ => false
  }

  predicate OpenedAt(m: Mem, events: seq<Event>, i: nat) {
    i < |events| && OpensStream(events[i], Stored(m, events, i))
  }

  predicate DroppedAt(m: Mem, events: seq<Event>, i: nat) {
    i < |events| && Drops(events[i], Stored(m, events, i))
  }

  predicate KeptFrom(m: Mem, events: seq<Event>, from: nat) {
    forall j :: from <= j < |events| ==> !DroppedAt(m, events, j)
  }

  /** The last event that opened the stream is not followed by one that drops it. */
  predicate LeftOpen(m: Mem, events: seq<Event>) {
    || (m.stream && KeptFrom(m, events, 0))
    || exists i :: 0 <= i < |events| && OpenedAt(m, events, i) && KeptFrom(m, events, i + 1)
  }

  lemma OneEvent(m: Mem, e: Event)
    ensures var r, stored := Handle(m, e).mem, m.params.Some?;
            && (r.stream <==> OpensStream(e, stored) || (m.stream && !Drops(e, stored)))
            && (r.params.Some? <==> stored || e.OpenStream?)
  {
  }

  lemma {:induction false} ParamsStay(m: Mem, events: seq<Event>)
    ensures HandleAll(m, events).mem.params.Some? <==> Stored(m, events, |events|)
  {
    if events != [] {
      var init := events[..|events| - 1];
      ParamsStay(m, init);
      OneEvent(HandleAll(m, init).mem, events[|events| - 1]);
    }
  }

  lemma LeftOpenStep(m: Mem, events: seq<Event>)
    requires events != []
    ensures var n := |events| - 1;
            LeftOpen(m, events) <==> OpenedAt(m, events, n) || (LeftOpen(m, events[..n]) && !DroppedAt(m, events, n))
  {
    var n := |events| - 1;
    var init := events[..n];
    assert forall i :: 0 <= i < n ==> Stored(m, init, i) == Stored(m, events, i);
    assert forall i :: 0 <= i < n ==> OpenedAt(m, init, i) == OpenedAt(m, events, i);
    assert forall i :: 0 <= i < n ==> DroppedAt(m, init, i) == DroppedAt(m, events, i);
    forall from: nat | from <= n
      ensures KeptFrom(m, events, from) <==> KeptFrom(m, init, from) && !DroppedAt(m, events, n)
    {
    }
    assert OpenedAt(m, events, n) ==> KeptFrom(m, events, n + 1);
  }

  /** On every run, whatever else happens, the stream is open exactly if the last event that opened it
      was not followed by one that drops it. */
  lemma {:induction false} OpenExactlyWhenLeftOpen(m: Mem, events: seq<Event>)
    ensures HandleAll(m, events).mem.stream <==> LeftOpen(m, events)
  {
    if events != [] {
      var n := |events| - 1;
      OpenExactlyWhenLeftOpen(m, events[..n]);
      ParamsStay(m, events[..n]);
      assert Stored(m, events[..n], n) == Stored(m, events, n);
      OneEvent(HandleAll(m, events[..n]).mem, events[n]);
      LeftOpenStep(m, events);
    }
  }

  /** A stream that the application closed is open again exactly if a later reconnection, reopening or
      opening succeeded and was not followed by a closing or a lost connection: for the first two it
      is enough that parameters are stored, and closing keeps them. */
  lemma ClosedStreamReopens(m: Mem, events: seq<Event>)
    ensures var closed := Handle(m, CloseStream).mem;
            && closed.params == m.params
            && (HandleAll(closed, events).mem.stream
                <==> exists i :: 0 <= i < |events| && OpenedAt(closed, events, i) && KeptFrom(closed, events, i + 1))
  {
    OpenExactlyWhenLeftOpen(Handle(m, CloseStream).mem, events);
  }

  // ── What it is subscribed to ────────────────────────────────────────────────

  /** The conversations of the last opening by the application, or those stored at the beginning. */
  function Conversations(m: Mem, events: seq<Event>): Option<seq<string>> {
    if events == [] then if m.params.Some? then Some(m.params.value.conversations) else None
    else
      match events[|events| - 1]
      case OpenStream(cs, _, _) => Some(cs)
      case _ => Conversations(m, events[..|events| - 1])
  }

  /** The cursor given with the last opening or received since, whichever came last. */
  function StoredCursor(m: Mem, events: seq<Event>): Option<int> {
    if events == [] then if m.params.Some? then m.params.value.cursor else None
    else
      var init := events[..|events| - 1];
      match events[|events| - 1]
      case OpenStream(_, since, _) => since
      case Frame(Read(r), _) =>
        if r.cursor.Some? && Conversations(m, init).Some? then r.cursor else StoredCursor(m, init)
      case _ => StoredCursor(m, init)
  }

  lemma OneEventParams(m: Mem, e: Event)
    ensures Handle(m, e).mem.params == ParamsDue(m, e)
  {
    EventLeaves(m, e);
  }

  /** On every run the stored parameters are these: a frame moves the cursor and keeps the conversations. */
  lemma {:induction false} ParamsExactly(m: Mem, events: seq<Event>)
    ensures var cs := Conversations(m, events);
            HandleAll(m, events).mem.params
            == if cs.Some? then Some(Params(cs.value, StoredCursor(m, events))) else None
  {
    if events != [] {
      var init := events[..|events| - 1];
      ParamsExactly(m, init);
      OneEventParams(HandleAll(m, init).mem, events[|events| - 1]);
    }
  }

  lemma SubscriptionDue(m: Mem, e: Event)
    ensures var p := Tries(m, e);
            Due(m, e, Streams)
            == if OpensStream(e, m.params.Some?) && p.Some?
               then [StreamReady(p.value.conversations, p.value.cursor)] else []
    ensures OpensStream(e, m.params.Some?) ==> Tries(m, e).Some?
  {
  }

  /** On every run each event that opens the stream, by the application or not, subscribes once, to the
      conversations of the last opening, behind the stored cursor; no other event subscribes. */
  lemma SubscribedExactly(m: Mem, events: seq<Event>, e: Event)
    ensures var cs, all := Conversations(m, events + [e]), events + [e];
            Only(Handle(HandleAll(m, events).mem, e).effects, Streams)
            == if OpensStream(e, Stored(m, events, |events|))
               then [StreamReady(cs.GetOr([]), StoredCursor(m, all))] else []
    ensures OpensStream(e, Stored(m, events, |events|)) ==> Conversations(m, events + [e]).Some?
  {
    var all := events + [e];
    assert all[..|all| - 1] == events;
    ParamsStay(m, events);
    ParamsExactly(m, events);
    EventVisible(HandleAll(m, events).mem, e, Streams);
    SubscriptionDue(HandleAll(m, events).mem, e);
  }
}

/** What has to become visible over whole runs, with and without crashes: in particular, which texts. */
module VisibleRuns {
  import opened Wrappers
  import opened Ratchet
  import opened EngineSpec
  import opened CrashSafety
  import opened Visible

  /** The state after the events, event by event as it is due. */
  function History(m: Mem, events: seq<Event>): Mem {
    if events == [] then m else MemDue(History(m, events[..|events| - 1]), events[|events| - 1])
  }

  function HistoryDue(m: Mem, events: seq<Event>, k: Kind): seq<Effect> {
    if events == [] then []
    else
      var init := events[..|events| - 1];
      HistoryDue(m, init, k) + Due(History(m, init), events[|events| - 1], k)
  }

  /** On every run, the engine is in the state that is due, and of each kind exactly what is due became
      visible, in order. */
  lemma {:induction false} RunIsDue(m: Mem, events: seq<Event>, k: Kind)
    ensures var o := HandleAll(m, events);
            o.mem == History(m, events) && Only(o.effects, k) == HistoryDue(m, events, k)
  {
    if events != [] {
      var init, e := events[..|events| - 1], events[|events| - 1];
      var before := HandleAll(m, init);
      RunIsDue(m, init, k);
      EventVisible(before.mem, e, k);
      EventLeaves(before.mem, e);
      FilterAppend(before.effects, Handle(before.mem, e).effects, Is(k));
    }
  }

  lemma {:induction false} KeptByFilter(effects: seq<Effect>, keep: Effect -> bool, i: nat)
    requires i < |effects| && keep(effects[i])
    ensures effects[i] in Filter(effects, keep)
  {
    if i < |effects| - 1 { KeptByFilter(effects[..|effects| - 1], keep, i); }
  }

  // ── Texts ───────────────────────────────────────────────────────────────────

  function TextOf(a: Arrival): Effect
    requires a.message.payload.Packed?
  {
    var msg := a.message;
    Display(msg.messageId, KeyOf(msg.sender, msg.payload), msg.payload.body)
  }

  predicate NewlyUsed(m: Mem, e: Event, key: ReceiveKey) {
    var after := Handle(m, e).mem.core;
    after.Some? && key in after.value.consumed && (m.core.None? || key !in m.core.value.consumed)
  }

  /** An event shows a text exactly if it uses up the receive key of the message it brings, unless that is
      a session start without text; it shows it once, with the message's own body, id and key. */
  lemma ShownExactlyWhenUsed(m: Mem, e: Event)
    ensures var a := Brings(e);
            if a.None? then Only(Handle(m, e).effects, Texts) == []
            else
              var msg := a.value.message;
              var used := NewlyUsed(m, e, KeyOf(msg.sender, msg.payload));
              Only(Handle(m, e).effects, Texts)
              == if used && (msg.payload.number != 0 || msg.payload.body != []) then [TextOf(a.value)] else []
  {
    EventVisible(m, e, Texts);
    EventLeaves(m, e);
    if Brings(e).Some? { UsedWhenOpened(m, e, Brings(e).value); }
  }

  lemma UsedWhenOpened(m: Mem, e: Event, a: Arrival)
    requires Brings(e) == Some(a)
    ensures NewlyUsed(m, e, KeyOf(a.message.sender, a.message.payload)) <==> Opened(m, a)
  {
    EventLeaves(m, e);
  }

  /** The text was brought by one of the actions, under this id and key. */
  predicate Brought(acts: seq<Action>, x: Effect) {
    exists j :: 0 <= j < |acts| && Brings(EventOf(acts[j])).Some? && x == TextOf(Brings(EventOf(acts[j])).value)
  }

  lemma TextIsBrought(m: Mem, e: Event, i: nat)
    requires i < |Handle(m, e).effects| && Handle(m, e).effects[i].Display?
    ensures Brings(e).Some? && Handle(m, e).effects[i] == TextOf(Brings(e).value)
  {
    KeptByFilter(Handle(m, e).effects, Is(Texts), i);
    ShownExactlyWhenUsed(m, e);
  }

  predicate AllBrought(acts: seq<Action>, log: Log) {
    forall i :: 0 <= i < |log| && log[i].Display? ==> Brought(acts, log[i])
  }

  lemma CutIsBrought(m: Mem, acts: seq<Action>, a: Action, cut: Log)
    requires cut <= Handle(m, EventOf(a)).effects && acts != [] && acts[|acts| - 1] == a
    ensures AllBrought(acts, cut)
  {
    forall i | 0 <= i < |cut| && cut[i].Display? ensures Brought(acts, cut[i]) {
      TextIsBrought(m, EventOf(a), i);
      assert Brings(EventOf(acts[|acts| - 1])).Some?;
    }
  }

  lemma StillBrought(init: seq<Action>, a: Action, log: Log)
    requires AllBrought(init, log)
    ensures AllBrought(init + [a], log)
  {
    forall i | 0 <= i < |log| && log[i].Display? ensures Brought(init + [a], log[i]) {
      var j :| 0 <= j < |init| && Brings(EventOf(init[j])).Some? && log[i] == TextOf(Brings(EventOf(init[j])).value);
      assert (init + [a])[j] == init[j];
    }
  }

  /** Over every run, whatever the crashes: each text shown is the body of a message that was brought,
      under the message's own id and receive key. */
  lemma {:induction false} TextsAreBrought(w: World, acts: seq<Action>)
    requires AllBrought([], w.log)
    ensures AllBrought(acts, RunFrom(w, acts).log)
  {
    if acts != [] {
      var init, a := acts[..|acts| - 1], acts[|acts| - 1];
      var before := RunFrom(w, init);
      var effects := Handle(before.mem, EventOf(a)).effects;
      var cut := Prefix(effects, if a.Do? then |effects| else a.after);
      TextsAreBrought(w, init);
      StillBrought(init, a, before.log);
      CutIsBrought(before.mem, acts, a, cut);
      assert init + [a] == acts && RunFrom(w, acts).log == before.log + cut;
    }
  }
}

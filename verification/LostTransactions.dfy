/** What the removal of the wrong pending transaction leads to: a run of the program in which one is lost. */
module LostTransactions {
  // A queue fills because one transaction may enter in every tick, and pop takes one packet of the two at most. Then
  // two transactions arrive together: the first, for the full queue, vanishes, and the second enters and stays pending.

  import opened DramTypes
  import opened CommandQueueSpec
  import opened BankRules
  import opened DramSystem
  import opened PendingNotes
  import opened ProgramTicks
  import opened ProgramRuns
  import opened EvenTicks
  import opened RaceEvents
  import CommandQueues
  import Controllers

  // ---------------------------------------------------------------- what there is besides transaction f

  predicate Of(f: Packet, p: Packet) {
    p == f || p == f.Act()
  }

  ghost predicate Queued(cfg: Config, s: QState, f: Packet) {
    var key := QueueKey(cfg, f.Target());
    && key in s.queues
    && (forall p | p in s.queues[key] :: Of(f, p))
    && forall k | k in s.queues && k != key :: s.queues[k] == []
  }

  ghost predicate Sent(agenda: seq<Event>, f: Packet) {
    forall e | e in agenda && e.Command? :: Of(f, e.f.p) || e.f.p.kind.REFRESH?
  }

  /** Nothing but copies of transaction f was ever issued or waits, and none is pending. */
  ghost predicate Filling(cfg: Config, M: Machine, f: Packet) {
    !M.stopped && M.pend == [] && Queued(cfg, M.q, f) && Sent(M.agenda, f)
  }

  /** The packet is in no queue, is not pending and is on the way to no rank. */
  ghost predicate Nowhere(M: Machine, a: Packet) {
    && (forall k | k in M.q.queues :: a !in M.q.queues[k])
    && a !in M.pend
    && forall e | e in M.agenda && e.Command? :: e.f.p != a
  }

  lemma FillingNowhere(cfg: Config, M: Machine, f: Packet, a: Packet)
    requires Filling(cfg, M, f) && Typed(cfg, a) && a != f
    ensures Nowhere(M, a)
  {
    assert !Of(f, a) && !a.kind.REFRESH?;
    hide Of;
  }

  // ---------------------------------------------------------------- one tick

  lemma StillQueued(cfg: Config, s: QState, s': QState, key: Slot, at: nat, f: Packet)
    requires Queued(cfg, s, f) && key in s.queues && at < |s.queues[key]|
    requires s'.queues == s.queues[key := Removed(s.queues[key], at, false)]
    ensures Queued(cfg, s', f) && s.queues[key][at] in s.queues[key] && Of(f, s.queues[key][at])
    ensures forall k | k in s.queues :: |s'.queues[k]| >= |s.queues[k]| - 1
  {
    assert s.queues[key][at] in s.queues[key];
    assert forall p | p in Removed(s.queues[key], at, false) :: p in s.queues[key];
  }

  lemma AloneOrNone(v: View, s: QState)
    requires v.Fits() && Fits(v.cfg, v.banks, s) && v.cfg.rowBufferPolicy.ClosePage?
    ensures var c := Choose(v, s); !c.Close? && (c.Take? ==> !c.withAct)
  {
    hide Homed;
  }

  /** Under the close-page policy pop takes at most one packet, and if so returns it. */
  lemma PopTakes(cfg: Config, banks: BankTable, s: QState, now: int) returns (key: Slot, at: nat)
    requires Fits(cfg, banks, s) && cfg.rowBufferPolicy.ClosePage?
    ensures var (r, s') := Pop(cfg, banks, s, now);
            || (s'.queues == s.queues && (r.Some? ==> r.value.kind.REFRESH?))
            || (&& key in s.queues && at < |s.queues[key]| && r == Some(s.queues[key][at])
                && s'.queues == s.queues[key := Removed(s.queues[key], at, false)])
  {
    hide Choose, Cursors, TickWindow, Removed, Homed;
    var s1 := TickWindows(s);
    var v := ViewOf(cfg, banks, s1, now);
    var c := Choose(v, s1);
    ChooseApplicable(v, s1);
    AloneOrNone(v, s1);
    key, at := Slot(0, 0), 0;
    if c.Take? {
      key, at := c.key, c.at;
      assert Pop(cfg, banks, s, now).0 == Some(s.queues[key][at]);
    }
  }

  lemma PopShrinks(cfg: Config, banks: BankTable, s: QState, now: int, f: Packet)
    requires Fits(cfg, banks, s) && cfg.rowBufferPolicy.ClosePage? && Queued(cfg, s, f)
    ensures var (r, s') := Pop(cfg, banks, s, now);
            && s'.queues.Keys == s.queues.Keys && Queued(cfg, s', f)
            && (forall k | k in s.queues :: |s'.queues[k]| >= |s.queues[k]| - 1)
            && match r
               case None => true
               case Some(p) => Of(f, p) || p.kind.REFRESH?
  {
    hide Pop, Fits, Of, Removed;
    var s' := Pop(cfg, banks, s, now).1;
    var key, at := PopTakes(cfg, banks, s, now);
    if s'.queues != s.queues {
      StillQueued(cfg, s, s', key, at, f);
    }
  }

  lemma PopFills(cfg: Config, M: Machine, M1: Machine, f: Packet, ask: Option<nat>)
    requires Fits(cfg, M.banks, Asked(M.q, ask)) && cfg.rowBufferPolicy.ClosePage? && Filling(cfg, M, f)
    requires M1 == RamCycle(cfg, M, ask)
    ensures Filling(cfg, M1, f) && M1.q.queues.Keys == M.q.queues.Keys
    ensures forall k | k in M.q.queues :: |M1.q.queues[k]| >= |M.q.queues[k]| - 1
  {
    hide Pop, Issue, IssueUpdates, Fits;
    PopShrinks(cfg, M.banks, Asked(M.q, ask), M.now, f);
    match Pop(cfg, M.banks, Asked(M.q, ask), M.now).0 {
      case None =>
      case Some(p) =>
        var notes := Posted(IssueUpdates(cfg, p, M.now), M.now);
        var last := Command(Flit(p, M.now + cfg.tCMD));
        assert forall e | e in notes :: e.Note?;
        hide Posted;
        assert forall e | e in M.agenda + notes + [last] :: e in M.agenda || e in notes || e == last;
    }
  }

  lemma {:induction false} DrainFills(cfg: Config, M: Machine, f: Packet)
    requires AtHome(M) && Sent(M.agenda, f)
    ensures Sent(Drain(cfg, M).agenda, f)
    decreases ClosingBanks(M.banks), |M.agenda|
  {
    if !M.stopped && FirstDue(M.agenda, M.now) < |M.agenda| {
      HandleShrinks(cfg, M);
      AgendaHandled(cfg, M);
      assert forall e | e in Answer(cfg, M) :: e.Note?;
      hide Handle, Answer, FirstDue;
      DrainFills(cfg, Handle(cfg, M), f);
    }
  }

  /** One tick: first at most one packet goes, then the transactions come. */
  lemma TickFills(cfg: Config, clocks: Clocks, M: Machine, f: Packet, arrivals: seq<Packet>)
    returns (M2: Machine, M': Machine)
    requires cfg.Valid() && Even(clocks) && cfg.rowBufferPolicy.ClosePage? && RefreshOutlastsPrecharge(cfg)
    requires Visited(cfg, clocks, M) && Filling(cfg, M, f) && Admissible(cfg, arrivals)
    ensures Visited(cfg, clocks, M') && Ready(cfg, M) && M' == Tick(cfg, M, true, AskAt(cfg, clocks, M.now), arrivals)
    ensures M2 == AfterEvents(cfg, M, AskAt(cfg, clocks, M.now))
    ensures Ready(cfg, M2) && Filling(cfg, M2, f) && M2.q.queues.Keys == M.q.queues.Keys
    ensures forall k | k in M.q.queues :: |M2.q.queues[k]| >= |M.q.queues[k]| - 1
    ensures M' == Enqueue(cfg, M2.(pend := M2.pend + arrivals)).(now := M2.now + 1)
  {
    hide RamCycle, Drain, Enqueue, Fits, AskAt, Queued, AtHome, Admissible, InStep, Visited, Tick;
    var M1;
    M1, M2, M' := RunTick(cfg, clocks, M, arrivals);
    PopFills(cfg, M, M1, f, AskAt(cfg, clocks, M.now));
    DrainFills(cfg, M1, f);
    NeverStops(cfg, clocks, M');
    TickInParts(cfg, M, AskAt(cfg, clocks, M.now), arrivals);
  }

  lemma NeverStops(cfg: Config, clocks: Clocks, M: Machine)
    requires cfg.Valid() && RefreshOutlastsPrecharge(cfg) && Visited(cfg, clocks, M)
    ensures !M.stopped
  {
    var run := RunTo(cfg, clocks, M);
    ProgramNeverStops(cfg, clocks, run);
  }

  /** How many packets wait with transaction f. */
  function Length(cfg: Config, M: Machine, f: Packet): nat {
    var key := QueueKey(cfg, f.Target());
    if key in M.q.queues then |M.q.queues[key]| else 0
  }

  lemma OneMore(cfg: Config, M2: Machine, f: Packet)
    requires Ready(cfg, M2) && Filling(cfg, M2, f) && InRange(cfg, f.Target()) && HasRoomFor(cfg, M2.q, 2, f.Target())
    ensures var M3 := M2.(pend := M2.pend + [f]); var M' := Enqueue(cfg, M3).(now := M2.now + 1);
            Filling(cfg, M', f) && Length(cfg, M', f) == Length(cfg, M2, f) + 2
  {
    assert M2.pend + [f] == [f] && [f][1..] == [];
    assert Controllers.FirstWithRoom(cfg, M2.q, [f], 0) == 0;
  }

  /** The first transaction finds its queue full, and the second one's queue is empty. */
  lemma WrongOneRemoved(cfg: Config, M2: Machine, f: Packet, a: Packet, b: Packet)
    requires Ready(cfg, M2) && Filling(cfg, M2, f) && !HasRoomFor(cfg, M2.q, 2, f.Target())
    requires InRange(cfg, a.Target()) && InRange(cfg, b.Target()) && Typed(cfg, a) && Typed(cfg, b)
    requires QueueKey(cfg, a.Target()) == QueueKey(cfg, f.Target()) != QueueKey(cfg, b.Target()) && a != f
    ensures var M3 := M2.(pend := M2.pend + [a, b]); var M' := Enqueue(cfg, M3).(now := M2.now + 1);
            Nowhere(M', a) && Doubled(cfg, M', b)
  {
    assert M2.pend + [a, b] == [a, b] && [a, b][1..] == [b];
    assert IsKey(cfg, QueueKey(cfg, b.Target()));
    assert M2.q.queues[QueueKey(cfg, b.Target())] == [];
    assert Controllers.FirstWithRoom(cfg, M2.q, [a, b], 0) == 1;
    FillingNowhere(cfg, M2, f, a);
    assert a != b && a != b.Act();
  }

  /** The transaction has entered its queue and is pending all the same. */
  ghost predicate Doubled(cfg: Config, M: Machine, b: Packet) {
    var key := QueueKey(cfg, b.Target());
    M.pend == [b] && key in M.q.queues && M.q.queues[key] == [b.Act(), b]
  }

  // ---------------------------------------------------------------- the run

  /** Before and after the tick in which transactions a and b arrive. */
  ghost predicate Loses(cfg: Config, clocks: Clocks, M: Machine, M': Machine, a: Packet, b: Packet)
    requires cfg.Valid()
  {
    && Ready(cfg, M) && Admissible(cfg, [a, b])
    && M' == Tick(cfg, M, true, AskAt(cfg, clocks, M.now), [a, b])
    && M.pend == [] && Nowhere(M, a)
    && Nowhere(M', a) && Doubled(cfg, M', b)
  }

  /** In the last tick of the run. */
  ghost predicate LosesLast(cfg: Config, clocks: Clocks, run: seq<Machine>, a: Packet, b: Packet)
    requires cfg.Valid()
  {
    |run| >= 2 && Loses(cfg, clocks, run[|run|-2], run[|run|-1], a, b)
  }

  /** A transaction f for the queue of a, one for another queue, and a itself, which is not f. */
  ghost predicate Rivals(cfg: Config, f: Packet, a: Packet, b: Packet) {
    && InRange(cfg, f.Target()) && Typed(cfg, f)
    && InRange(cfg, a.Target()) && Typed(cfg, a)
    && InRange(cfg, b.Target()) && Typed(cfg, b)
    && QueueKey(cfg, a.Target()) == QueueKey(cfg, f.Target()) != QueueKey(cfg, b.Target()) && a != f
  }

  /** In one tick the queue grows, or the tick loses a. */
  lemma GrowOrLose(cfg: Config, clocks: Clocks, M: Machine, f: Packet, a: Packet, b: Packet) returns (M': Machine)
    requires cfg.Valid() && Even(clocks) && cfg.rowBufferPolicy.ClosePage? && RefreshOutlastsPrecharge(cfg)
    requires Visited(cfg, clocks, M) && Filling(cfg, M, f) && Rivals(cfg, f, a, b)
    ensures Visited(cfg, clocks, M')
    ensures || Loses(cfg, clocks, M, M', a, b)
            || (Filling(cfg, M', f) && Length(cfg, M, f) < Length(cfg, M', f) <= CMD_QUEUE_DEPTH)
  {
    hide Visited, Enqueue, AskAt, Tick, AfterEvents, Nowhere, Doubled, Sent, RefreshOutlastsPrecharge;
    var M2;
    M2, M' := TickFills(cfg, clocks, M, f, [f]);
    hide Ready;
    if HasRoomFor(cfg, M2.q, 2, f.Target()) {
      OneMore(cfg, M2, f);
    } else {
      M2, M' := TickFills(cfg, clocks, M, f, [a, b]);
      WrongOneRemoved(cfg, M2, f, a, b);
      FillingNowhere(cfg, M, f, a);
    }
  }

  lemma {:induction false} FillUp(cfg: Config, clocks: Clocks, M: Machine, f: Packet, a: Packet, b: Packet)
    returns (M0: Machine, M': Machine)
    requires cfg.Valid() && Even(clocks) && cfg.rowBufferPolicy.ClosePage? && RefreshOutlastsPrecharge(cfg)
    requires Visited(cfg, clocks, M) && Filling(cfg, M, f) && Rivals(cfg, f, a, b)
    ensures Visited(cfg, clocks, M0) && Loses(cfg, clocks, M0, M', a, b)
    decreases CMD_QUEUE_DEPTH - Length(cfg, M, f)
  {
    hide Visited, Loses, Filling, Rivals, Length, RefreshOutlastsPrecharge;
    M0 := M;
    M' := GrowOrLose(cfg, clocks, M, f, a, b);
    if !Loses(cfg, clocks, M, M', a, b) {
      M0, M' := FillUp(cfg, clocks, M', f, a, b);
    }
  }

  lemma StartFilling(cfg: Config, f: Packet)
    requires cfg.Valid() && InRange(cfg, f.Target())
    ensures Filling(cfg, Start(cfg), f)
  {
    assert IsKey(cfg, QueueKey(cfg, f.Target()));
  }

  lemma LosingRun(cfg: Config, clocks: Clocks, M: Machine, M': Machine, a: Packet, b: Packet)
    returns (run: seq<Machine>)
    requires cfg.Valid() && Even(clocks) && Visited(cfg, clocks, M) && Loses(cfg, clocks, M, M', a, b)
    ensures IsProgramRun(cfg, clocks, run) && LosesLast(cfg, clocks, run, a, b)
  {
    hide Visited, Nowhere, Doubled, Tick, AskAt, Ready, Admissible;
    var pre := RunTo(cfg, clocks, M);
    Extended(cfg, clocks, pre, [a, b]);
    run := pre + [M'];
    hide Loses, Even;
    assert run[|run|-2] == M && run[|run|-1] == M';
  }

  /**
   Under the close-page policy some run of the program ends with a tick in which two transactions for different queues
   arrive, and the first one is lost: no more than before is it in a queue, pending or on the way to a rank. The second
   one has entered its queue and is pending all the same. Any two transactions for different queues will do.
   */
  lemma FirstInLineIsLost(cfg: Config, clocks: Clocks, a: Packet, b: Packet) returns (run: seq<Machine>)
    requires cfg.Valid() && Even(clocks) && cfg.rowBufferPolicy.ClosePage? && RefreshOutlastsPrecharge(cfg)
    requires InRange(cfg, a.Target()) && Typed(cfg, a) && InRange(cfg, b.Target()) && Typed(cfg, b)
    requires QueueKey(cfg, a.Target()) != QueueKey(cfg, b.Target())
    ensures IsProgramRun(cfg, clocks, run) && LosesLast(cfg, clocks, run, a, b)
  {
    hide Visited, Filling, Loses, RefreshOutlastsPrecharge, Even, IsProgramRun;
    var f := a.(row := a.row + 1);
    VisitStart(cfg, clocks);
    StartFilling(cfg, f);
    var M, M' := FillUp(cfg, clocks, Start(cfg), f, a, b);
    run := LosingRun(cfg, clocks, M, M', a, b);
  }
}

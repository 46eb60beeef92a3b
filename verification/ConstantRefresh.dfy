/** A refresh period so short that a single rank is asked to refresh in every tick. */
module ConstantRefresh {
  // The rank is held for ever, no row is opened, and so nothing is refused, whatever the delays: the timing condition
  // is not needed for such periods.

  import opened DramTypes
  import opened CommandQueueSpec
  import opened BankRules
  import opened DramSystem
  import opened ProgramTicks
  import opened ProgramRuns
  import opened RaceEvents
  import ClockDivider
  import RefreshRotation

  /** One rank, and a period that the program truncates to one RAM tick. */
  ghost predicate AskedAlways(cfg: Config, clocks: Clocks) {
    cfg.Valid() && cfg.numRanks == 1 && 1.0 <= clocks.refresh < 2.0
  }

  /** The RAM ticks before core cycle n. */
  function Ticked(clocks: Clocks, n: nat): nat {
    ClockDivider.After(clocks.ram, clocks.core, n).ticks
  }

  lemma MoreTicks(clocks: Clocks, n: nat)
    ensures Ticked(clocks, n) <= Ticked(clocks, n + 1)
    ensures RamTicks(clocks, n) <==> Ticked(clocks, n) < Ticked(clocks, n + 1)
  {
  }

  lemma AskedFromSecond(cfg: Config, clocks: Clocks, n: nat)
    requires AskedAlways(cfg, clocks)
    ensures AskAt(cfg, clocks, n) == if Ticked(clocks, n) == 0 then None else Some(0)
  {
    assert RefreshRotation.Share(clocks.refresh, 1) == RefreshRotation.Period(clocks.refresh) == 1;
    var t := Ticked(clocks, n);
    hide RefreshRotation.At, RefreshRotation.Share, RefreshRotation.Period, ClockDivider.After;
    RefreshRotation.RequestSchedule(clocks.refresh, 1, t, 0);
    if t > 0 {
      assert t == RefreshRotation.Due(1, 1, 0, t - 1);
    }
  }

  // ---------------------------------------------------------------- no row is open

  ghost predicate NoneActive(banks: BankTable) {
    forall t | t in banks :: !banks[t].status.ROW_ACTIVE?
  }

  ghost predicate AllIdle(ranks: BankTable) {
    forall t | t in ranks :: ranks[t].status.IDLE?
  }

  ghost predicate SentRefreshes(agenda: seq<Event>) {
    forall e | e in agenda && e.Command? :: e.f.p.kind.REFRESH?
  }

  ghost predicate Empty(s: QState) {
    forall k | k in s.queues :: s.queues[k] == []
  }

  /** No row is open for the controller or the rank, none is about to be, and no command was refused. */
  ghost predicate NoRowOpen(M: Machine) {
    !M.stopped && NoneActive(M.banks) && AllIdle(M.ranks) && SentRefreshes(M.agenda)
  }

  ghost predicate HeldBack(clocks: Clocks, M: Machine) {
    NoRowOpen(M) && (Ticked(clocks, M.now) == 0 ==> Empty(M.q))
  }

  lemma NobodyOffers(v: View, s: QState)
    requires v.Fits() && Fits(v.cfg, v.banks, s) && v.cfg.numRanks == 1 && (s.refreshWaiting || Empty(s))
    ensures forall x | InRange(v.cfg, x) :: !Offers(v, s, x)
  {
    assert forall x | InRange(v.cfg, x) :: IsKey(v.cfg, QueueKey(v.cfg, x));
  }

  lemma OnlyRefreshChosen(v: View, s: QState)
    requires v.Fits() && Fits(v.cfg, v.banks, s)
    requires v.cfg.numRanks == 1 && NoneActive(v.banks) && (s.refreshWaiting || Empty(s))
    ensures Choose(v, s).Nothing? || Choose(v, s).Refresh?
  {
    NobodyOffers(v, s);
    assert ServeChoice(v, s) == None && CloseChoice(v, s) == None;
    hide Offers, Homed;
  }

  lemma PopRefreshes(cfg: Config, banks: BankTable, s: QState, now: int)
    requires Fits(cfg, banks, s) && cfg.numRanks == 1 && NoneActive(banks) && (s.refreshWaiting || Empty(s))
    ensures match Pop(cfg, banks, s, now).0
            case None => true
            case Some(p) => p.kind.REFRESH?
    ensures Empty(s) ==> Empty(Pop(cfg, banks, s, now).1)
  {
    var s1 := TickWindows(s);
    var v := ViewOf(cfg, banks, s1, now);
    OnlyRefreshChosen(v, s1);
    hide Choose, Cursors, TickWindow, Fits;
  }

  lemma RefreshKeepsClosed(cfg: Config, banks: BankTable, p: Packet, now: int)
    requires NoneActive(banks) && p.kind.REFRESH?
    ensures NoneActive(Issue(cfg, banks, p, now))
  {
  }

  lemma PopHeldBack(cfg: Config, clocks: Clocks, M: Machine)
    requires AskedAlways(cfg, clocks) && Ready(cfg, M) && HeldBack(clocks, M)
    ensures var ask := AskAt(cfg, clocks, M.now);
            && Fits(cfg, M.banks, Asked(M.q, ask))
            && NoRowOpen(RamCycle(cfg, M, ask)) && RamCycle(cfg, M, ask).now == M.now
  {
    hide Pop, Issue, IssueUpdates, AskAt, AtHome, NoneActive;
    var ask := AskAt(cfg, clocks, M.now);
    AskedFromSecond(cfg, clocks, M.now);
    AskedFits(cfg, M.banks, M.q, ask);
    var s := Asked(M.q, ask);
    PopRefreshes(cfg, M.banks, s, M.now);
    hide Fits, Ticked;
    match Pop(cfg, M.banks, s, M.now).0 {
      case None =>
      case Some(p) =>
        RefreshKeepsClosed(cfg, M.banks, p, M.now);
        var notes := Posted(IssueUpdates(cfg, p, M.now), M.now);
        assert forall e | e in notes :: e.Note?;
        assert forall e | e in RamCycle(cfg, M, ask).agenda ::
            e in M.agenda || e in notes || e == Command(Flit(p, M.now + cfg.tCMD));
    }
  }

  lemma NoteKeepsClosed(banks: BankTable, u: Update)
    requires u.slot in banks && NoneActive(banks)
    ensures NoneActive(Updated(banks, u))
  {
  }

  lemma RefreshTaken(cfg: Config, ranks: BankTable, p: Packet, now: int)
    requires AllIdle(ranks) && p.kind.REFRESH?
    ensures Accepts(ranks, p, now) && AllIdle(Arrive(cfg, ranks, p, now))
  {
  }

  lemma HandleHeldBack(cfg: Config, M: Machine)
    requires AtHome(M) && FirstDue(M.agenda, M.now) < |M.agenda| && NoRowOpen(M)
    ensures NoRowOpen(Handle(cfg, M))
  {
    AgendaHandled(cfg, M);
    assert forall f | f in Answer(cfg, M) :: f.Note?;
    match First(M) {
      case Note(d) =>
        NoteKeepsClosed(M.banks, d.u);
      case Command(c) =>
        RefreshTaken(cfg, M.ranks, c.p, M.now);
    }
    hide NoneActive, AllIdle, Updated, Accepts, Arrive, Answer, AtHome, FirstDue;
  }

  lemma {:induction false} DrainHeldBack(cfg: Config, M: Machine)
    requires AtHome(M) && NoRowOpen(M)
    ensures NoRowOpen(Drain(cfg, M))
    decreases ClosingBanks(M.banks), |M.agenda|
  {
    if FirstDue(M.agenda, M.now) < |M.agenda| {
      HandleShrinks(cfg, M);
      HandleHeldBack(cfg, M);
      hide Handle, FirstDue, NoneActive, AllIdle, SentRefreshes;
      DrainHeldBack(cfg, Handle(cfg, M));
    }
  }

  // ---------------------------------------------------------------- runs

  lemma TickHeldBack(cfg: Config, clocks: Clocks, M: Machine, arrivals: seq<Packet>)
    requires AskedAlways(cfg, clocks) && Ready(cfg, M) && HeldBack(clocks, M) && Admissible(cfg, arrivals)
    ensures HeldBack(clocks, Tick(cfg, M, RamTicks(clocks, M.now), AskAt(cfg, clocks, M.now), arrivals))
  {
    hide RamCycle, Drain, Enqueue, Fits, NoneActive, AllIdle, SentRefreshes, AskAt, Ticked, RamTicks, Empty;
    MoreTicks(clocks, M.now);
    var ask := AskAt(cfg, clocks, M.now);
    RamCycleReady(cfg, M, ask);
    var ram := RamTicks(clocks, M.now);
    if ram { PopHeldBack(cfg, clocks, M); }
    var M1 := if ram then RamCycle(cfg, M, ask) else M;
    DrainHeldBack(cfg, M1);
    DrainReady(cfg, M1);
    var M2 := Drain(cfg, M1);
    var M3 := M2.(pend := M2.pend + arrivals);
    EndReady(cfg, M2, ram, arrivals);
    var M4 := if ram then Enqueue(cfg, M3) else M3;
  }

  /** No row is ever opened, and nothing is refused: the condition on the delays is not necessary here. */
  lemma {:induction false} NeverActivates(cfg: Config, clocks: Clocks, run: seq<Machine>)
    requires AskedAlways(cfg, clocks) && IsProgramRun(cfg, clocks, run)
    ensures HeldBack(clocks, Final(run))
  {
    hide Ticks, HeldBack;
    if |run| == 1 {
      StartHeldBack(cfg, clocks);
    } else {
      var n := |run| - 2;
      var pre := run[..n+1];
      forall k | 0 <= k < |pre| - 1
        ensures TickAt(cfg, clocks, pre, k)
      {
        assert TickAt(cfg, clocks, run, k);
      }
      NeverActivates(cfg, clocks, pre);
      assert TickAt(cfg, clocks, run, n);
      StepHeldBack(cfg, clocks, run[n], run[n+1]);
    }
  }

  lemma StartHeldBack(cfg: Config, clocks: Clocks)
    ensures HeldBack(clocks, Start(cfg))
  {
  }

  lemma StepHeldBack(cfg: Config, clocks: Clocks, M: Machine, M': Machine)
    requires AskedAlways(cfg, clocks) && Ticks(cfg, clocks, M, M') && HeldBack(clocks, M)
    ensures HeldBack(clocks, M')
  {
    hide Ready, Admissible, Tick, HeldBack, AskAt, RamTicks;
    var arrivals :| Ready(cfg, M) && Admissible(cfg, arrivals) &&
        M' == Tick(cfg, M, RamTicks(clocks, M.now), AskAt(cfg, clocks, M.now), arrivals);
    TickHeldBack(cfg, clocks, M, arrivals);
  }
}

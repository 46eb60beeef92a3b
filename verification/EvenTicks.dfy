/**
 Runs in which the RAM ticks in every core cycle, built tick by tick, and when their refreshes are asked for.
 A state is visited if a run of the program ends in it; a tick from a visited state leads to a visited state. With equal
 clocks the number of RAM ticks is the number of core cycles, so the requests come at the cycles of the refresh
 counters' schedule: rank 0 first, at the tick of one rank's share of the period, and again one period later.
 */
module EvenTicks {
  import opened DramTypes
  import opened CommandQueueSpec
  import opened BankRules
  import opened DramSystem
  import opened ProgramTicks
  import opened ProgramRuns
  import ClockDivider
  import RefreshRotation

  /** The RAM is as fast as the cores. */
  ghost predicate Even(clocks: Clocks) {
    clocks.ram == clocks.core > 0
  }

  /** Some run leads to this state. */
  ghost predicate Visited(cfg: Config, clocks: Clocks, M: Machine)
    requires cfg.Valid()
  {
    exists run :: IsProgramRun(cfg, clocks, run) && Final(run) == M
  }

  lemma RunTo(cfg: Config, clocks: Clocks, M: Machine) returns (run: seq<Machine>)
    requires cfg.Valid() && Visited(cfg, clocks, M)
    ensures IsProgramRun(cfg, clocks, run) && Final(run) == M
  {
    run :| IsProgramRun(cfg, clocks, run) && Final(run) == M;
  }

  lemma {:induction false} EqualClocks(clock: nat, n: nat)
    requires clock > 0
    ensures ClockDivider.After(clock, clock, n) == ClockDivider.State(0, 0, n)
  {
    if n > 0 {
      EqualClocks(clock, n - 1);
    }
  }

  lemma EveryCycle(clocks: Clocks, n: nat)
    requires Even(clocks)
    ensures RamTicks(clocks, n)
  {
    EqualClocks(clocks.ram, n);
    EqualClocks(clocks.ram, n + 1);
  }

  lemma VisitStart(cfg: Config, clocks: Clocks)
    requires cfg.Valid()
    ensures Visited(cfg, clocks, Start(cfg))
  {
    assert IsProgramRun(cfg, clocks, [Start(cfg)]) && Final([Start(cfg)]) == Start(cfg);
  }

  lemma Extended(cfg: Config, clocks: Clocks, run: seq<Machine>, arrivals: seq<Packet>)
    requires cfg.Valid() && Even(clocks) && IsProgramRun(cfg, clocks, run)
    requires Ready(cfg, Final(run)) && Admissible(cfg, arrivals)
    ensures var M := Final(run);
            IsProgramRun(cfg, clocks, run + [Tick(cfg, M, true, AskAt(cfg, clocks, M.now), arrivals)])
  {
    hide Tick;
    var M := Final(run);
    var M' := Tick(cfg, M, true, AskAt(cfg, clocks, M.now), arrivals);
    EveryCycle(clocks, M.now);
    hide RamTicks, AskAt;
    var run' := run + [M'];
    assert Ticks(cfg, clocks, M, M');
    forall n | 0 <= n < |run'| - 1
      ensures TickAt(cfg, clocks, run', n)
    {
      if n < |run| - 1 {
        assert TickAt(cfg, clocks, run, n);
        assert run'[n] == run[n] && run'[n+1] == run[n+1];
      } else {
        assert run'[n] == M && run'[n+1] == M';
      }
    }
  }

  lemma VisitTick(cfg: Config, clocks: Clocks, M: Machine, arrivals: seq<Packet>)
    requires cfg.Valid() && Even(clocks) && Visited(cfg, clocks, M) && Ready(cfg, M) && Admissible(cfg, arrivals)
    ensures Visited(cfg, clocks, Tick(cfg, M, true, AskAt(cfg, clocks, M.now), arrivals))
  {
    hide Tick, AskAt;
    var run := RunTo(cfg, clocks, M);
    Extended(cfg, clocks, run, arrivals);
    hide IsProgramRun;
    assert Final(run + [Tick(cfg, M, true, AskAt(cfg, clocks, M.now), arrivals)]) ==
           Tick(cfg, M, true, AskAt(cfg, clocks, M.now), arrivals);
  }

  lemma VisitedInStep(cfg: Config, clocks: Clocks, M: Machine)
    requires cfg.Valid() && Visited(cfg, clocks, M)
    ensures Ready(cfg, M) && (M.stopped || InStep(cfg, M.now, M.agenda))
  {
    var run :| IsProgramRun(cfg, clocks, run) && Final(run) == M;
    var S := ProgramRunIsRun(cfg, clocks, run);
  }

  /** After the pop and the events of a tick, before a transaction enters. */
  ghost function AfterEvents(cfg: Config, M: Machine, ask: Option<nat>): Machine
    requires Ready(cfg, M) && RankExists(cfg, ask)
  {
    RamCycleReady(cfg, M, ask);
    Drain(cfg, RamCycle(cfg, M, ask))
  }

  lemma TickInParts(cfg: Config, M: Machine, ask: Option<nat>, arrivals: seq<Packet>)
    requires Ready(cfg, M) && RankExists(cfg, ask) && Admissible(cfg, arrivals) && !M.stopped
    ensures var M2 := AfterEvents(cfg, M, ask);
            && Ready(cfg, M2)
            && Tick(cfg, M, true, ask, arrivals) ==
               if M2.stopped then M2 else Enqueue(cfg, M2.(pend := M2.pend + arrivals)).(now := M2.now + 1)
  {
    hide RamCycle, Drain, Fits, Admissible, Enqueue;
    RamCycleReady(cfg, M, ask);
    DrainReady(cfg, RamCycle(cfg, M, ask));
  }

  /** One tick in parts: after the pop, after the events, at the end. */
  lemma RunTick(cfg: Config, clocks: Clocks, M: Machine, arrivals: seq<Packet>)
    returns (M1: Machine, M2: Machine, M': Machine)
    requires cfg.Valid() && Even(clocks) && Visited(cfg, clocks, M) && !M.stopped && Admissible(cfg, arrivals)
    ensures Visited(cfg, clocks, M')
    ensures Ready(cfg, M) && InStep(cfg, M.now, M.agenda)
    ensures var ask := AskAt(cfg, clocks, M.now);
            Fits(cfg, M.banks, Asked(M.q, ask)) && M1 == RamCycle(cfg, M, ask)
    ensures Ready(cfg, M1) && InStep(cfg, M.now, M1.agenda)
    ensures M2 == Drain(cfg, M1) && Ready(cfg, M2)
    ensures M' == if M2.stopped then M2 else Enqueue(cfg, M2.(pend := M2.pend + arrivals)).(now := M2.now + 1)
  {
    VisitedInStep(cfg, clocks, M);
    VisitTick(cfg, clocks, M, arrivals);
    var ask := AskAt(cfg, clocks, M.now);
    RamCycleReady(cfg, M, ask);
    RamCycleInStep(cfg, M, ask);
    M1 := RamCycle(cfg, M, ask);
    TickInParts(cfg, M, ask, arrivals);
    M2 := Drain(cfg, M1);
    hide RamCycle, Drain, Enqueue, Fits, InStep, AskAt, Tick;
    M' := Tick(cfg, M, true, ask, arrivals);
  }

  lemma RamCycleInStep(cfg: Config, M: Machine, ask: Option<nat>)
    requires Fits(cfg, M.banks, Asked(M.q, ask)) && InStep(cfg, M.now, M.agenda)
    ensures InStep(cfg, M.now, RamCycle(cfg, M, ask).agenda)
  {
    hide InStep, Pop, Fits;
    match Pop(cfg, M.banks, Asked(M.q, ask), M.now).0 {
      case None =>
      case Some(p) => IssueInStep(cfg, M.now, M.agenda, IssueUpdates(cfg, p, M.now), p);
    }
  }

  // ---------------------------------------------------------------- when refreshes are asked for

  /** Rank i is asked for exactly at the ticks of its schedule. */
  lemma AskSchedule(cfg: Config, clocks: Clocks, n: nat, i: nat)
    requires cfg.Valid() && Even(clocks) && clocks.refresh >= 0.0 && i < cfg.numRanks
    requires RefreshRotation.Share(clocks.refresh, cfg.numRanks) >= 1
    ensures AskAt(cfg, clocks, n) == Some(i) <==>
            exists m: nat :: n == RefreshRotation.Due(RefreshRotation.Share(clocks.refresh, cfg.numRanks),
                                                      RefreshRotation.Period(clocks.refresh), i, m)
  {
    EqualClocks(clocks.ram, n);
    hide RefreshRotation.At, RefreshRotation.Share, RefreshRotation.Period;
    RefreshRotation.RequestSchedule(clocks.refresh, cfg.numRanks, n, i);
  }

  /**
   The first requests: rank 0 at tick q, then again at q + P, and nobody in between but the other ranks from 2q on.
   */
  lemma FirstAsks(cfg: Config, clocks: Clocks, n: nat, q: int, period: int)
    requires cfg.Valid() && Even(clocks) && clocks.refresh >= 0.0
    requires q == RefreshRotation.Share(clocks.refresh, cfg.numRanks) >= 1
    requires period == RefreshRotation.Period(clocks.refresh)
    ensures q <= period
    ensures n < 2 * q ==> AskAt(cfg, clocks, n) == if n == q then Some(0) else None
    ensures q < n < q + period ==> AskAt(cfg, clocks, n) != Some(0)
    ensures n == q + period ==> AskAt(cfg, clocks, n) == Some(0)
    ensures q + period < n < 2 * q + period ==> AskAt(cfg, clocks, n) == None
  {
    hide AskAt, RefreshRotation.At, RefreshRotation.Share, RefreshRotation.Period;
    RefreshRotation.SharesFitPeriod(clocks.refresh, cfg.numRanks);
    assert q <= q * cfg.numRanks;
    AskSchedule(cfg, clocks, n, 0);
    assert RefreshRotation.Due(q, period, 0, 0) == q;
    assert RefreshRotation.Due(q, period, 0, 1) == q + period;
    match AskAt(cfg, clocks, n) {
      case None =>
      case Some(i) =>
        AskSchedule(cfg, clocks, n, i);
        var m: nat :| n == RefreshRotation.Due(q, period, i, m);
        DueLater(q, period, cfg.numRanks, i, m);
    }
  }

  lemma Times(a: int, k: int, l: int)
    requires a >= 0 && k <= l
    ensures a * k <= a * l
  {
  }

  lemma DueLater(q: int, period: int, n: nat, i: nat, m: nat)
    requires q >= 1 && q * n <= period && i < n
    ensures var due := RefreshRotation.Due(q, period, i, m);
            && (m == i == 0 ==> due == q)
            && (m > 0 || i > 0 ==> due >= 2 * q)
            && (i == 0 ==> due == q || due == q + period || due >= q + 2 * period)
            && (due <= q + period || due >= 2 * q + period)
  {
    Times(q, i + 1, n);
    Times(q, if i > 0 then 2 else 1, i + 1);
    Times(period, if m < 2 then m else 2, m);
    assert period * m == m * period;
    assert i == 0 ==> q * (i + 1) == q;
  }
}

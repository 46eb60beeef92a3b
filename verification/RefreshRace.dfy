/** Why the timing condition is needed: where it fails, some run of the program ends in a refused command. */
module RefreshRace {
  // Bank 1 closes itself, its rank is refreshed and bank 0 is opened, all before the second note of bank 1 is read.
  // That note then passes for the end of the refresh, the controller takes bank 0 for closed, and the refresh at the
  // rank's next request is refused. In the run every core cycle is a RAM tick, and every tick pops.

  import opened DramTypes
  import opened CommandQueueSpec
  import opened BankRules
  import opened DramSystem
  import opened SchedulerSafety
  import opened PendingNotes
  import opened ProgramTicks
  import opened ProgramRuns
  import opened EvenTicks
  import opened FewPackets
  import opened RaceEvents
  import opened RaceOpening
  import opened RaceClosing
  import RefreshRotation

  // ---------------------------------------------------------------- the race, and the refused refresh

  /** By then every bank may be activated again, and all commands have arrived. */
  function Settled(cfg: Config, t0: int): int {
    Late(cfg, t0) + cfg.tRC + cfg.tRRD + cfg.tCMD + 1
  }

  /** The controller takes rank 0 for idle although its bank 0 is, or will be, open. */
  ghost predicate Fooled(cfg: Config, M: Machine, bound: int) {
    && Base(M, 3) && !M.q.refreshWaiting
    && Lists(cfg, M.q, Read(0), [])
    && RankIdle(M.banks)
    && (forall t | t in M.banks && t.rank == 0 :: M.banks[t].nextActivate <= bound)
    && (forall e | e in M.agenda :: !e.Note? && DueAt(e) < bound)
    && X0 in M.ranks && Opened(M.ranks, Commands(M.agenda))
  }

  lemma CommandIssued(cfg: Config, agenda: seq<Event>, p: Packet, now: int)
    ensures Commands(WithCommand(cfg, agenda, p, now)) == Commands(agenda) + [Flit(p, now + cfg.tCMD)]
  {
    hide Commands, Notes, IssueUpdates;
    var us := IssueUpdates(cfg, p, now);
    PostedNotes(us, now);
    Concat(agenda, Posted(us, now));
    Concat(agenda + Posted(us, now), [Command(Flit(p, now + cfg.tCMD))]);
    One(Command(Flit(p, now + cfg.tCMD)));
  }

  lemma ReopenBanks(cfg: Config, banks: BankTable, now: int)
    requires X0 in banks && X1 in banks
    ensures var banks' := Issue(cfg, banks, Tx(0, ACTIVATE), now);
            && banks'.Keys == banks.Keys
            && banks'[X1].lastCommand == banks[X1].lastCommand
            && forall t | t in banks && banks[t].nextActivate <= now ::
                banks'[t].nextActivate <= now + cfg.tRC + cfg.tRRD
  {
  }

  /** Bank 0 is opened in the very tick in which the second note of bank 1 is read. */
  lemma PopReopen(cfg: Config, M: Machine, M1: Machine, t0: int)
    requires Racing(cfg) && Ready(cfg, M) && M.now == Late(cfg, t0) && Flushed(cfg, M, M.now, t0, Pair(0))
    requires Ahead(M.now, M.agenda) && M1 == RamCycle(cfg, M, None)
    ensures M1.now == M.now && Base(M1, 3) && !M1.q.refreshWaiting && Lists(cfg, M1.q, Read(0), [])
    ensures Flushing(M1.banks, M1.agenda) && NoteIsDue(M1.now, M1.agenda)
    ensures forall t | t in M1.banks && t.rank == 0 :: M1.banks[t].nextActivate <= M.now + cfg.tRC + cfg.tRRD
    ensures forall e | e in M1.agenda && e.Note? :: DueAt(e) <= M1.now
    ensures Opened(M1.ranks, Commands(M1.agenda))
  {
    hide Pop, Issue, Homed, Commands;
    assert InRange(cfg, X0) && InRange(cfg, X1);
    CannotRead(cfg, M.banks, M.q, M.now, 0);
    assert Pair(0)[1..] == Read(0);
    assert Issuable(cfg, M.banks, M.q, M.now, Tx(0, ACTIVATE));
    PopHead0(cfg, M.banks, M.q, M.now, Pair(0), []);
    RamTakes(cfg, M, None, Tx(0, ACTIVATE));
    ReopenBanks(cfg, M.banks, M.now);
    ReopenNotes(cfg, M.agenda, M.now);
    CommandIssued(cfg, M.agenda, Tx(0, ACTIVATE), M.now);
    hide RamCycle, Fits, WithCommand, Issuable, Lists;
    assert Note(Note2(cfg, X1, t0)) in M1.agenda;
    forall e | e in M1.agenda && e.Note?
      ensures e.d == Note2(cfg, X1, t0)
    {
      assert e in M.agenda && M.now <= DueAt(e);
    }
  }

  lemma BoundIdled(banks: BankTable, banks': BankTable, bound: int)
    requires OnlyIdled(banks, banks') && forall t | t in banks && t.rank == 0 :: banks[t].nextActivate <= bound
    ensures forall t | t in banks' && t.rank == 0 :: banks'[t].nextActivate <= bound
  {
  }

  lemma DrainRace(cfg: Config, M1: Machine, bound: int)
    requires Ready(cfg, M1) && InStep(cfg, M1.now, M1.agenda) && Base(M1, 3) && !M1.q.refreshWaiting
    requires Lists(cfg, M1.q, Read(0), []) && X0 in M1.ranks
    requires Flushing(M1.banks, M1.agenda) && (NoteIsDue(M1.now, M1.agenda) || RankIdle(M1.banks))
    requires forall t | t in M1.banks && t.rank == 0 :: M1.banks[t].nextActivate <= bound
    requires forall e | e in M1.agenda :: DueAt(e) <= (if e.Note? then M1.now else bound - 1)
    requires Opened(M1.ranks, Commands(M1.agenda))
    ensures var R := Drain(cfg, M1); R.stopped || Fooled(cfg, R, bound)
  {
    hide Drain, Flushing, Opened, Commands, Fits, InStep, Lists, NoteIsDue, OnlyIdled, RankIdle;
    DrainFlush(cfg, M1);
    DrainOpened(cfg, M1);
    if !Drain(cfg, M1).stopped {
      BoundIdled(M1.banks, Drain(cfg, M1).banks, bound);
    }
  }

  lemma RankCovered(cfg: Config, M: Machine)
    requires Racing(cfg) && Ready(cfg, M)
    ensures X0 in M.ranks
  {
    assert InRange(cfg, X0);
  }

  lemma FooledClock(cfg: Config, M: Machine, k: nat, bound: int)
    requires Fooled(cfg, M, bound)
    ensures Fooled(cfg, M.(now := k), bound) && M.pend == []
  {
  }

  lemma CommandsInTime(cfg: Config, M1: Machine, t0: int)
    requires InStep(cfg, M1.now, M1.agenda) && M1.now == Late(cfg, t0)
    requires forall e | e in M1.agenda && e.Note? :: DueAt(e) <= M1.now
    ensures forall e | e in M1.agenda :: DueAt(e) <= (if e.Note? then M1.now else Settled(cfg, t0) - 1)
  {
  }

  lemma StageFooled(cfg: Config, clocks: Clocks, go: nat, M: Machine, t0: int) returns (M': Machine)
    requires Race(cfg, clocks, go) && Visited(cfg, clocks, M) && InTime(cfg, go, t0)
    requires M.now == Late(cfg, t0) && Flushed(cfg, M, M.now, t0, Pair(0))
    ensures Visited(cfg, clocks, M')
    ensures M'.stopped || (M'.now == Late(cfg, t0) + 1 && Fooled(cfg, M', Settled(cfg, t0)))
  {
    hide Visited, Ready, InStep, RamCycle, Drain, Enqueue, Fits, Racing, Admissible, Lists;
    hide FlushBanks, FlushNotes, Ahead, Flushing, NoteIsDue, RankIdle, Opened, Commands;
    MayEnter(cfg, []);
    assert !M.stopped && t0 < M.now;
    hide Flushed;
    AskedOnce(cfg, clocks, go, M.now);
    hide AskAt, FirstAsk, LongPeriod;
    var M1, M2;
    M1, M2, M' := RunTick(cfg, clocks, M, []);
    InStepAhead(cfg, M.now, M.agenda);
    PopReopen(cfg, M, M1, t0);
    RankCovered(cfg, M1);
    var bound := Settled(cfg, t0);
    CommandsInTime(cfg, M1, t0);
    DrainRace(cfg, M1, bound);
    hide Fooled;
    if !M2.stopped {
      FooledClock(cfg, M2, M2.now + 1, bound);
      QuietEnd(cfg, M2);
    }
  }

  lemma PopFooled(cfg: Config, M: Machine, M1: Machine, bound: int)
    requires Racing(cfg) && Ready(cfg, M) && Fooled(cfg, M, bound) && M1 == RamCycle(cfg, M, None)
    ensures M1.now == M.now && Fooled(cfg, M1, bound)
  {
    hide Pop, Opened, Commands;
    assert InRange(cfg, X0);
    CannotRead(cfg, M.banks, M.q, M.now, 0);
    PopStuck(cfg, M.banks, M.q, M.now, Read(0), []);
  }

  lemma FooledTick(cfg: Config, clocks: Clocks, go: nat, M: Machine, bound: int) returns (M': Machine)
    requires Race(cfg, clocks, go) && Visited(cfg, clocks, M) && Fooled(cfg, M, bound)
    requires T1(cfg, go) + 1 < M.now <= go + RaceLength(cfg)
    ensures Visited(cfg, clocks, M')
    ensures M'.stopped || (M'.now == M.now + 1 && Fooled(cfg, M', bound))
  {
    hide Visited, Ready, InStep, RamCycle, Drain, Enqueue, Fits, Racing, Admissible, Lists;
    hide Ahead, RankIdle, Opened, Commands;
    MayEnter(cfg, []);
    assert !M.stopped;
    AskedOnce(cfg, clocks, go, M.now);
    hide AskAt, FirstAsk, LongPeriod;
    var M1, M2;
    M1, M2, M' := RunTick(cfg, clocks, M, []);
    PopFooled(cfg, M, M1, bound);
    DrainRace(cfg, M1, bound);
    if !M2.stopped {
      FooledClock(cfg, M2, M2.now + 1, bound);
      QuietEnd(cfg, M2);
    }
  }

  lemma {:induction false} StageSettled(cfg: Config, clocks: Clocks, go: nat, M: Machine, bound: int)
    returns (M': Machine)
    requires Race(cfg, clocks, go) && Visited(cfg, clocks, M) && bound <= go + RaceLength(cfg)
    requires M.stopped || (T1(cfg, go) + 1 < M.now <= bound && Fooled(cfg, M, bound))
    ensures Visited(cfg, clocks, M')
    ensures M'.stopped || (M'.now == bound && Fooled(cfg, M', bound))
    decreases bound - M.now
  {
    hide Visited, Fooled;
    M' := M;
    if !M.stopped && M.now < bound {
      M' := FooledTick(cfg, clocks, go, M, bound);
      if !M'.stopped {
        M' := StageSettled(cfg, clocks, go, M', bound);
      }
    }
  }

  // ---------------------------------------------------------------- until the next request for the rank

  /** Bank 0 is open, and the controller, which takes it for closed, has nothing to do for its rank. */
  ghost predicate Lull(cfg: Config, M: Machine) {
    && Base(M, 3) && !Held(M.q, 0)
    && Lists(cfg, M.q, Read(0), [])
    && (forall t | t in M.banks && t.rank == 0 :: Closed(M.banks[t]))
    && OnlyRefreshes(M.ranks, M.agenda)
  }

  ghost predicate MayActivate(banks: BankTable, bound: int) {
    forall t | t in banks && t.rank == 0 :: banks[t].nextActivate <= bound
  }

  ghost predicate PatientlyOn(M: Machine, M': Machine) {
    Patient(M.banks, M.agenda, M'.banks, M'.agenda)
  }

  lemma Settles(cfg: Config, clocks: Clocks, M: Machine)
    requires Racing(cfg) && Visited(cfg, clocks, M) && !M.stopped && Fooled(cfg, M, M.now)
    ensures Lull(cfg, M) && MayActivate(M.banks, M.now)
  {
    assert M.agenda != [] ==> M.agenda[0] in M.agenda;
    VisitedInStep(cfg, clocks, M);
    InStepAhead(cfg, M.now, M.agenda);
    hide Visited, Ready, InStep, Lists;
  }

  lemma RefreshedElsewhere(cfg: Config, M: Machine, p: Packet, now: int)
    requires p.kind.REFRESH? && p.rank != 0 && OnlyRefreshes(M.ranks, M.agenda)
    ensures var agenda' := WithCommand(cfg, M.agenda, p, now); var banks' := Issue(cfg, M.banks, p, now);
            && OnlyRefreshes(M.ranks, agenda')
            && Patient(M.banks, M.agenda, banks', agenda')
            && forall t | t in banks' && t.rank == 0 :: banks'[t] == M.banks[t]
  {
    var us := IssueUpdates(cfg, p, now);
    assert forall e | e in WithCommand(cfg, M.agenda, p, now) && e.Command? ::
        e in M.agenda || e == Command(Flit(p, now + cfg.tCMD));
    assert forall e | e in M.agenda :: e in WithCommand(cfg, M.agenda, p, now);
  }

  lemma PopLull(cfg: Config, M: Machine, M1: Machine, ask: Option<nat>)
    requires Racing(cfg) && Ready(cfg, M) && Lull(cfg, M) && ask != Some(0)
    requires Fits(cfg, M.banks, Asked(M.q, ask)) && M1 == RamCycle(cfg, M, ask)
    ensures M1.now == M.now && Lull(cfg, M1) && PatientlyOn(M, M1)
  {
    hide Pop, Issue, Homed, OnlyRefreshes, Patient;
    var s := Asked(M.q, ask);
    assert InRange(cfg, X0);
    assert Lists(cfg, s, Read(0), []);
    CannotRead(cfg, M.banks, s, M.now, 0);
    PopAside(cfg, M.banks, s, M.now, Read(0));
    match Pop(cfg, M.banks, s, M.now).0 {
      case None =>
        PatientAlways(M.banks, M.agenda);
      case Some(p) =>
        RamTakes(cfg, M, ask, p);
        RefreshedElsewhere(cfg, M, p, M.now);
        hide WithCommand;
    }
  }

  lemma DrainLull(cfg: Config, M1: Machine)
    requires Ready(cfg, M1) && Lull(cfg, M1)
    ensures var R := Drain(cfg, M1); R.stopped || (Lull(cfg, R) && PatientlyOn(M1, R))
  {
    DrainPatient(cfg, M1);
    hide Drain, OnlyRefreshes, Fits, Lists;
  }

  lemma LullClock(cfg: Config, M: Machine, k: nat)
    requires Lull(cfg, M)
    ensures Lull(cfg, M.(now := k)) && PatientlyOn(M, M.(now := k)) && M.pend == []
  {
  }

  lemma Onwards(M: Machine, M1: Machine, M2: Machine, M': Machine)
    requires PatientlyOn(M, M1) && PatientlyOn(M1, M2) && PatientlyOn(M2, M')
    ensures PatientlyOn(M, M')
  {
    PatientChained(M.banks, M.agenda, M1.banks, M1.agenda, M2.banks, M2.agenda);
    PatientChained(M.banks, M.agenda, M2.banks, M2.agenda, M'.banks, M'.agenda);
    hide Patient;
  }

  lemma LullTick(cfg: Config, clocks: Clocks, M: Machine) returns (M': Machine)
    requires Racing(cfg) && Even(clocks) && Visited(cfg, clocks, M) && Lull(cfg, M)
    requires AskAt(cfg, clocks, M.now) != Some(0)
    ensures Visited(cfg, clocks, M')
    ensures M'.stopped || (M'.now == M.now + 1 && Lull(cfg, M') && PatientlyOn(M, M'))
  {
    hide Visited, Ready, InStep, RamCycle, Drain, Enqueue, Fits, Racing, Admissible, Lists, AskAt, Lull, PatientlyOn;
    MayEnter(cfg, []);
    LullClock(cfg, M, M.now);
    NotStopped(cfg, M);
    var M1, M2;
    M1, M2, M' := RunTick(cfg, clocks, M, []);
    PopLull(cfg, M, M1, AskAt(cfg, clocks, M.now));
    DrainLull(cfg, M1);
    if !M2.stopped {
      LullClock(cfg, M2, M2.now + 1);
      QuietEnd(cfg, M2);
      Onwards(M, M1, M2, M');
    }
  }

  lemma NotStopped(cfg: Config, M: Machine)
    requires Lull(cfg, M)
    ensures !M.stopped
  {
  }

  /** The tick of the second request for rank 0. */
  function SecondAsk(cfg: Config, clocks: Clocks): int
    requires cfg.Valid()
  {
    FirstAsk(cfg, clocks) + RefreshRotation.Period(clocks.refresh)
  }

  lemma AskedAgain(cfg: Config, clocks: Clocks, go: nat, n: nat)
    requires Race(cfg, clocks, go) && T1(cfg, go) + 1 < n <= SecondAsk(cfg, clocks) + cfg.tCMD
    ensures AskAt(cfg, clocks, n) == Some(0) <==> n == SecondAsk(cfg, clocks)
  {
    hide AskAt, RefreshRotation.Share, RefreshRotation.Period;
    FirstAsks(cfg, clocks, n, FirstAsk(cfg, clocks), RefreshRotation.Period(clocks.refresh));
  }

  /** The race is over before the second request. */
  lemma RaceFits(cfg: Config, clocks: Clocks, go: nat)
    requires Race(cfg, clocks, go)
    ensures T1(cfg, go) + 1 < SecondAsk(cfg, clocks) && go + RaceLength(cfg) < SecondAsk(cfg, clocks)
  {
    hide AskAt, RefreshRotation.Share, RefreshRotation.Period;
    FirstAsks(cfg, clocks, 0, FirstAsk(cfg, clocks), RefreshRotation.Period(clocks.refresh));
  }

  lemma StillMayActivate(M: Machine, M': Machine, cfg: Config, bound: int)
    requires Lull(cfg, M) && MayActivate(M.banks, bound) && PatientlyOn(M, M')
    ensures MayActivate(M'.banks, bound)
  {
  }

  lemma {:induction false} StageLull(cfg: Config, clocks: Clocks, go: nat, M: Machine, bound: int)
    returns (M': Machine)
    requires Race(cfg, clocks, go) && Visited(cfg, clocks, M)
    requires M.stopped || (&& T1(cfg, go) + 1 < M.now <= SecondAsk(cfg, clocks)
                           && Lull(cfg, M) && MayActivate(M.banks, bound))
    ensures Visited(cfg, clocks, M')
    ensures M'.stopped || (M'.now == SecondAsk(cfg, clocks) && Lull(cfg, M') && MayActivate(M'.banks, bound))
    decreases SecondAsk(cfg, clocks) - M.now
  {
    hide Visited, Lull, MayActivate, PatientlyOn, AskAt, SecondAsk, FirstAsk, LongPeriod;
    M' := M;
    if !M.stopped && M.now < SecondAsk(cfg, clocks) {
      AskedAgain(cfg, clocks, go, M.now);
      M' := LullTick(cfg, clocks, M);
      if !M'.stopped {
        StillMayActivate(M, M', cfg, bound);
        M' := StageLull(cfg, clocks, go, M', bound);
      }
    }
  }

  // ---------------------------------------------------------------- the refused refresh

  function Doom(end: int): Event {
    Command(Flit(Refresh0(), end))
  }

  lemma DoomedEvents(cfg: Config, M: Machine, now: int)
    requires OnlyRefreshes(M.ranks, M.agenda)
    ensures var agenda' := WithCommand(cfg, M.agenda, Refresh0(), now);
            OnlyRefreshes(M.ranks, agenda') && Doom(now + cfg.tCMD) in agenda'
  {
    var agenda' := WithCommand(cfg, M.agenda, Refresh0(), now);
    assert agenda'[|agenda'| - 1] == Doom(now + cfg.tCMD);
    assert forall e | e in agenda' && e.Command? :: e in M.agenda || e == Doom(now + cfg.tCMD);
  }

  /** At its second request the rank gets a refresh at once. */
  lemma PopDoom(cfg: Config, M: Machine, M1: Machine)
    requires Racing(cfg) && Ready(cfg, M) && Lull(cfg, M) && MayActivate(M.banks, M.now)
    requires Fits(cfg, M.banks, Asked(M.q, Some(0))) && M1 == RamCycle(cfg, M, Some(0))
    ensures M1.now == M.now && Lull(cfg, M1) && Doom(M.now + cfg.tCMD) in M1.agenda
  {
    hide Pop, Issue, Homed, OnlyRefreshes;
    var s := Asked(M.q, Some(0));
    assert InRange(cfg, X0) && InRange(cfg, X1);
    assert Lists(cfg, s, Read(0), []);
    HeldShut(cfg, M.banks, s, M.now, Read(0), []);
    RamTakes(cfg, M, Some(0), Refresh0());
    RefreshBanks(cfg, M.banks, M.now);
    DoomedEvents(cfg, M, M.now);
    hide RamCycle, Fits, WithCommand, Lists;
  }

  lemma StillDoomed(M: Machine, M': Machine, end: int)
    requires PatientlyOn(M, M') && Doom(end) in M.agenda
    ensures Doom(end) in M'.agenda
  {
  }

  lemma StageDoomed(cfg: Config, clocks: Clocks, go: nat, M: Machine, end: int) returns (M': Machine)
    requires Race(cfg, clocks, go) && Visited(cfg, clocks, M) && M.now == SecondAsk(cfg, clocks)
    requires Lull(cfg, M) && MayActivate(M.banks, M.now) && end == M.now + cfg.tCMD
    ensures Visited(cfg, clocks, M') && (M'.stopped || (M'.now == M.now + 1 && Lull(cfg, M') && Doom(end) in M'.agenda))
  {
    hide Visited, Ready, InStep, RamCycle, Drain, Enqueue, Fits, Racing, Admissible, Lists, AskAt, Lull, PatientlyOn;
    hide FirstAsk, LongPeriod, MayActivate, Doom;
    MayEnter(cfg, []);
    NotStopped(cfg, M);
    RaceFits(cfg, clocks, go);
    AskedAgain(cfg, clocks, go, M.now);
    hide SecondAsk;
    var M1, M2;
    M1, M2, M' := RunTick(cfg, clocks, M, []);
    PopDoom(cfg, M, M1);
    DrainLull(cfg, M1);
    if !M2.stopped {
      StillDoomed(M1, M2, end);
      LullClock(cfg, M2, M2.now + 1);
      QuietEnd(cfg, M2);
    }
  }

  /** The refresh cannot be on its way for ever. */
  lemma DoomedInTime(cfg: Config, clocks: Clocks, M: Machine, end: int)
    requires Racing(cfg) && Visited(cfg, clocks, M) && !M.stopped && Doom(end) in M.agenda
    ensures M.now <= end
  {
    VisitedInStep(cfg, clocks, M);
    InStepAhead(cfg, M.now, M.agenda);
    hide Visited, Ready;
  }

  lemma {:induction false} StageRefused(cfg: Config, clocks: Clocks, go: nat, M: Machine, end: int)
    returns (M': Machine)
    requires Race(cfg, clocks, go) && Visited(cfg, clocks, M) && end == SecondAsk(cfg, clocks) + cfg.tCMD
    requires M.stopped || (M.now > SecondAsk(cfg, clocks) && Lull(cfg, M) && Doom(end) in M.agenda)
    ensures Visited(cfg, clocks, M') && M'.stopped
    decreases end - M.now
  {
    hide Visited, Lull, PatientlyOn, AskAt, SecondAsk, FirstAsk, LongPeriod, Doom;
    M' := M;
    if !M.stopped {
      DoomedInTime(cfg, clocks, M, end);
      RaceFits(cfg, clocks, go);
      AskedAgain(cfg, clocks, go, M.now);
      M' := LullTick(cfg, clocks, M);
      if !M'.stopped {
        StillDoomed(M, M', end);
        M' := StageRefused(cfg, clocks, go, M', end);
      }
    }
  }

  // ---------------------------------------------------------------- results

  /** How long the controller idles before the first transaction, so that the first refresh request comes in time. */
  function Leave(cfg: Config, clocks: Clocks): nat
    requires Racing(cfg) && LongPeriod(cfg, clocks)
    ensures Leave(cfg, clocks) >= 1 && FirstAsk(cfg, clocks) == T1(cfg, Leave(cfg, clocks)) + 1
  {
    FirstAsk(cfg, clocks) - 1 - Second(cfg)
  }

  lemma RaceToLull(cfg: Config, clocks: Clocks, go: nat) returns (M: Machine, bound: int)
    requires Race(cfg, clocks, go)
    ensures Visited(cfg, clocks, M)
    ensures M.stopped || (T1(cfg, go) + 1 < M.now == bound <= go + RaceLength(cfg) && Fooled(cfg, M, bound))
  {
    hide Early, BothOpen, Closing1, Flushed, Fooled, Visited, FirstAsk, LongPeriod;
    M := StageOpen(cfg, clocks, go);
    bound := 0;
    M := StageBoth(cfg, clocks, go, M);
    if !M.stopped { M := StageBothOpen(cfg, clocks, go, M); }
    M := StageRead0(cfg, clocks, go, M);
    if !M.stopped {
      var t0;
      M, t0 := StageRead1(cfg, clocks, go, M);
      bound := Settled(cfg, t0);
      if !M.stopped { M := StageRefreshed(cfg, clocks, go, M, t0); }
      if !M.stopped { M := StageFooled(cfg, clocks, go, M, t0); }
      if !M.stopped { M := StageSettled(cfg, clocks, go, M, bound); }
    }
  }

  /** Where the race is possible, a run with a RAM tick in every core cycle ends in a refused command. */
  lemma RefusedWhenRacing(cfg: Config, clocks: Clocks) returns (run: seq<Machine>)
    requires Racing(cfg) && Even(clocks) && LongPeriod(cfg, clocks)
    ensures IsProgramRun(cfg, clocks, run) && Final(run).stopped
  {
    var go := Leave(cfg, clocks);
    hide Leave, Fooled, Lull, Visited, MayActivate, FirstAsk, SecondAsk, Span, LongPeriod, Doom;
    RaceFits(cfg, clocks, go);
    var M, bound := RaceToLull(cfg, clocks, go);
    if !M.stopped {
      Settles(cfg, clocks, M);
      M := StageLull(cfg, clocks, go, M, bound);
    }
    var end := SecondAsk(cfg, clocks) + cfg.tCMD;
    if !M.stopped { M := StageDoomed(cfg, clocks, go, M, end); }
    M := StageRefused(cfg, clocks, go, M, end);
    hide IsProgramRun;
    run := RunTo(cfg, clocks, M);
  }

  function Min(a: int, b: int): int {
    if a < b then a else b
  }

  /** The condition in terms of the configured delays: only reads can lose the race. */
  lemma ConditionInConfiguredDelays(cfg: Config)
    requires cfg.Valid() && cfg.DelaysDerived()
    ensures RefreshOutlastsPrecharge(cfg) <==>
            !(cfg.rowBufferPolicy.ClosePage? && cfg.numBanks > 1 &&
              cfg.tRP > cfg.tRFC + 1 && cfg.tBL / 2 > cfg.tRFC + Min(cfg.tRTP, cfg.tCCD))
  {
  }

  lemma RacingUnless(cfg: Config)
    requires cfg.Valid() && cfg.DelaysDerived() && cfg.tRRD < cfg.tRP && !RefreshOutlastsPrecharge(cfg)
    ensures Racing(cfg)
  {
    ConditionInConfiguredDelays(cfg);
  }

  /**
   Let the RAM tick in every core cycle, and let the counters ask for refreshes with a period that leaves a race its
   time. Then no rank ever refuses a command, in any run of the program, if and only if a refresh outlasts the second
   note of a closing bank.
   */
  lemma RankNeverRefusesIff(cfg: Config, clocks: Clocks)
    requires cfg.Valid() && cfg.DelaysDerived() && cfg.tRRD < cfg.tRP && Even(clocks) && LongPeriod(cfg, clocks)
    ensures (forall run | IsProgramRun(cfg, clocks, run) :: !Final(run).stopped) <==> RefreshOutlastsPrecharge(cfg)
  {
    hide LongPeriod;
    if RefreshOutlastsPrecharge(cfg) {
      forall run | IsProgramRun(cfg, clocks, run)
        ensures !Final(run).stopped
      {
        ProgramNeverStops(cfg, clocks, run);
      }
    } else {
      RacingUnless(cfg);
      var run := RefusedWhenRacing(cfg, clocks);
    }
  }

  /** A configuration in which the race happens: tBL / 2 is 4, tRP is 4, and tRFC, tRTP and tCCD are 1. */
  function RacingConfiguration(): Config {
    Config(numRanks := 1, numBanks := 2, rowBufferPolicy := ClosePage, queuingStructure := PerRank,
           schedulingPolicy := RankThenBankRoundRobin, totalRowAccesses := 1,
           tAL := 0, tBL := 8, tCCD := 1, tCMD := 1, tFAW := 4, tRAS := 2, tRC := 6, tRCD := 2,
           tRFC := 1, tRP := 4, tRRD := 1, tRTP := 1, tRTRS := 1, tRL := 5, tWL := 4, tWR := 2, tWTR := 2,
           readToPreDelay := 4, writeToPreDelay := 10, readToWriteDelay := 6, readAutopreDelay := 5,
           writeAutopreDelay := 14, writeToReadDelayB := 10, writeToReadDelayR := 4)
  }

  /** Its race takes 55 RAM ticks; with a refresh period of 60 ticks or more the simulation stops. */
  lemma RacingConfigurationStops(clock: nat, refresh: real) returns (run: seq<Machine>)
    requires clock > 0 && refresh >= 60.0
    ensures RacingConfiguration().Valid() && RacingConfiguration().DelaysDerived()
    ensures IsProgramRun(RacingConfiguration(), Clocks(clock, clock, refresh), run) && Final(run).stopped
  {
    var cfg := RacingConfiguration();
    assert RefreshRotation.Share(refresh, 1) == refresh.Floor;
    run := RefusedWhenRacing(cfg, Clocks(clock, clock, refresh));
  }
}

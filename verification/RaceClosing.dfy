/**
 The second half of the race of module RefreshRace.
 Rank 0 is asked to refresh, and holds back its reads: bank 0 is read if it was not yet, then, once that bank is closed
 and may be activated again, bank 1. The refresh goes, and a transaction for bank 0 enters just before the second note
 of bank 1 is read.
 */
module RaceClosing {
  import opened DramTypes
  import opened CommandQueueSpec
  import opened BankRules
  import opened DramSystem
  import opened SchedulerSafety
  import opened PendingNotes
  import opened ProgramTicks
  import opened ProgramRuns
  import opened EvenTicks
  import opened FewPackets
  import opened RaceEvents
  import opened RaceOpening

  // ---------------------------------------------------------------- the rank waits for its refresh

  /** The rank waits for a refresh, or is asked for one in this very tick. */
  ghost predicate Wanted(M: Machine, ask: Option<nat>) {
    ask == Some(0) || (ask == None && Held(M.q, 0))
  }

  /** The rank's first refresh is asked for in this very tick, or it was, and has not gone. */
  ghost predicate Waits(cfg: Config, go: nat, M: Machine) {
    M.now == T1(cfg, go) + 1 || (M.now > T1(cfg, go) + 1 && Held(M.q, 0))
  }

  lemma WaitsWanted(cfg: Config, clocks: Clocks, go: nat, M: Machine)
    requires Race(cfg, clocks, go) && Waits(cfg, go, M) && M.now <= go + RaceLength(cfg)
    ensures Wanted(M, AskAt(cfg, clocks, M.now))
  {
    AskedOnce(cfg, clocks, go, M.now);
    hide AskAt;
  }

  /** The read of bank 1 goes, at time t0, after the request, and leaves enough time for the rest. */
  ghost predicate InTime(cfg: Config, go: nat, t0: int) {
    T1(cfg, go) < t0 <= go + Span(cfg)
  }

  /** What is left to hold back the read of bank 1. */
  ghost predicate Free(cfg: Config, banks: BankTable, now: int) {
    && X0 in banks && X1 in banks
    && banks[X0].lastCommand.PRECHARGE? && banks[X0].nextActivate <= now && banks[X1].nextRead <= now
  }

  /** The read of bank 1 went at time t0. */
  ghost predicate AfterBanks(cfg: Config, banks: BankTable, t0: int) {
    && X0 in banks && X1 in banks && banks[X1].openRow == 0
    && banks[X0].lastCommand.PRECHARGE? && banks[X0].nextActivate <= t0
    && (forall t | t in banks && t.rank == 0 :: banks[t].nextActivate <= t0 + Lag(cfg))
    && (forall t | t in banks && t.rank == 0 && t != X0 && t != X1 :: banks[t].status.IDLE?)
  }

  ghost predicate Closing1(cfg: Config, go: nat, M: Machine, k: int, t0: int) {
    && Base(M, 2) && Held(M.q, 0)
    && Lists(cfg, M.q, [], [])
    && Calm(cfg, M.banks, M.agenda, Some(C0(cfg, go)), Some(t0), k)
    && AfterBanks(cfg, M.banks, t0)
    && C0(cfg, go) < t0 < k
  }

  lemma HeldReadBanks(cfg: Config, go: nat, banks: BankTable)
    requires HeldBanks(cfg, go, banks, C0(cfg, go))
    ensures HeldBanks(cfg, go, Issue(cfg, banks, Tx(0, READ_P), C0(cfg, go)), C0(cfg, go) + 1)
  {
    hide Issue;
    IssueKeys(cfg, banks, Tx(0, READ_P), C0(cfg, go));
    forall t | t in banks
      ensures var b, b' := banks[t], Issue(cfg, banks, Tx(0, READ_P), C0(cfg, go))[t];
              && b'.status == b.status && b'.openRow == b.openRow && b'.nextActivate >= b.nextActivate
              && (t != X0 ==> b'.nextActivate == b.nextActivate)
              && (t == X0 ==> b'.nextActivate == Max(C0(cfg, go) + cfg.readAutopreDelay, b.nextActivate))
              && (t == X1 ==> b'.nextRead == Max(C0(cfg, go) + Max(cfg.tCCD, cfg.tBL / 2), b.nextRead))
    {
      ReadEffect(cfg, banks, 0, C0(cfg, go), t);
    }
  }

  lemma ReadBanks1(cfg: Config, go: nat, banks: BankTable, t0: int)
    requires Racing(cfg) && HeldBanks(cfg, go, banks, t0) && Free(cfg, banks, t0)
    ensures AfterBanks(cfg, Issue(cfg, banks, Tx(1, READ_P), t0), t0)
    ensures Issue(cfg, banks, Tx(1, READ_P), t0)[X0].status == banks[X0].status
  {
    hide Issue;
    IssueKeys(cfg, banks, Tx(1, READ_P), t0);
    forall t | t in banks
      ensures var b, b' := banks[t], Issue(cfg, banks, Tx(1, READ_P), t0)[t];
              && b'.status == b.status && b'.openRow == b.openRow
              && (t != X1 ==> b'.nextActivate == b.nextActivate && b'.lastCommand == b.lastCommand)
              && (t == X1 ==> b'.nextActivate == Max(t0 + cfg.readAutopreDelay, b.nextActivate))
    {
      ReadEffect(cfg, banks, 1, t0, t);
    }
  }

  /** The note that reads of bank 1 add leaves those of bank 0 as they are. */
  lemma CalmAfterRead1(cfg: Config, banks: BankTable, banks': BankTable, agenda: seq<Event>, r0: int, now: int)
    requires Calm(cfg, banks, agenda, Some(r0), None, now) && banks'.Keys == banks.Keys
    requires banks'[X0].status == banks[X0].status && banks'[X0].lastCommand == banks[X0].lastCommand
    requires Closes(cfg, banks', WithCommand(cfg, agenda, Tx(1, READ_P), now), X1, now, now + 1)
    ensures Calm(cfg, banks', WithCommand(cfg, agenda, Tx(1, READ_P), now), Some(r0), Some(now), now + 1)
  {
    var agenda' := WithCommand(cfg, agenda, Tx(1, READ_P), now);
    ReadNotes(cfg, agenda, 1, now);
    assert forall e | e in agenda :: e in agenda';
    hide WithCommand;
  }

  lemma HeldRead0(cfg: Config, go: nat, M: Machine, M1: Machine, ask: Option<nat>)
    requires Racing(cfg) && Ready(cfg, M) && BothOpen(cfg, go, M, M.now) && Wanted(M, ask) && M.now == C0(cfg, go)
    requires Fits(cfg, M.banks, Asked(M.q, ask)) && M1 == RamCycle(cfg, M, ask)
    ensures BothOpen(cfg, go, M1, M.now + 1) && M1.now == M.now && Held(M1.q, 0)
  {
    hide Pop, Issue, Closes, Homed, Posted, IssueUpdates;
    var s := Asked(M.q, ask);
    assert InRange(cfg, X0) && InRange(cfg, X1);
    assert Lists(cfg, s, Read(0), Read(1));
    CanRead(cfg, M.banks, s, M.now, 0);
    HeldOpen0(cfg, M.banks, s, M.now, Read(0), Read(1));
    RamTakes(cfg, M, ask, Tx(0, READ_P));
    ReadCloses(cfg, M.banks, M.agenda, 0, M.now);
    ReadNotes(cfg, M.agenda, 0, M.now);
    HeldReadBanks(cfg, go, M.banks);
    hide RamCycle, Fits, HeldBanks, WithCommand, Issuable;
  }

  lemma HeldWait0(cfg: Config, go: nat, M: Machine, M1: Machine, ask: Option<nat>)
    requires Racing(cfg) && Ready(cfg, M) && BothOpen(cfg, go, M, M.now) && Wanted(M, ask) && go < M.now < C0(cfg, go)
    requires Fits(cfg, M.banks, Asked(M.q, ask)) && M1 == RamCycle(cfg, M, ask)
    ensures BothOpen(cfg, go, M1, M.now + 1) && M1.now == M.now && Held(M1.q, 0)
  {
    hide Pop, Issue, Closes, Homed;
    var s := Asked(M.q, ask);
    assert InRange(cfg, X0) && InRange(cfg, X1);
    assert Lists(cfg, s, Read(0), Read(1));
    CanRead(cfg, M.banks, s, M.now, 0);
    HeldOpen0(cfg, M.banks, s, M.now, Read(0), Read(1));
    hide Fits, Issuable;
    CalmLater(cfg, M.banks, M.agenda, None, None, M.now);
  }

  /** Bank 0 was read, and what holds back the read of bank 1 lasts: nothing goes. */
  lemma HeldStays(cfg: Config, go: nat, M: Machine, M1: Machine, ask: Option<nat>)
    requires Racing(cfg) && Ready(cfg, M) && BothOpen(cfg, go, M, M.now) && Wanted(M, ask) && M.now > C0(cfg, go)
    requires Fits(cfg, M.banks, Asked(M.q, ask)) && M1 == RamCycle(cfg, M, ask) && !Free(cfg, M.banks, M.now)
    ensures M1.now == M.now && BothOpen(cfg, go, M1, M.now + 1) && Held(M1.q, 0) && M1.banks == M.banks
  {
    hide Pop, Issue, Homed;
    var s := Asked(M.q, ask);
    assert InRange(cfg, X0) && InRange(cfg, X1);
    assert Lists(cfg, s, [], Read(1));
    CanRead(cfg, M.banks, s, M.now, 1);
    if M.banks[X0].lastCommand.READ_P? {
      HeldOpen0(cfg, M.banks, s, M.now, [], Read(1));
    } else if M.banks[X0].nextActivate > M.now {
      HeldTooEarly(cfg, M.banks, s, M.now, [], Read(1));
    } else {
      HeldOpen1(cfg, M.banks, s, M.now, Read(1));
    }
    hide Fits, HeldBanks, Issuable, Closes, Calm;
    CalmLater(cfg, M.banks, M.agenda, Some(C0(cfg, go)), None, M.now);
  }

  /** Bank 0 was read, and nothing holds back the read of bank 1: it goes. */
  lemma HeldGoes(cfg: Config, go: nat, M: Machine, M1: Machine, ask: Option<nat>)
    requires Racing(cfg) && Ready(cfg, M) && BothOpen(cfg, go, M, M.now) && Wanted(M, ask) && M.now > C0(cfg, go)
    requires Fits(cfg, M.banks, Asked(M.q, ask)) && M1 == RamCycle(cfg, M, ask) && Free(cfg, M.banks, M.now)
    ensures M1.now == M.now && Closing1(cfg, go, M1, M.now + 1, M.now)
  {
    hide Pop, Issue, Homed;
    var s := Asked(M.q, ask);
    assert InRange(cfg, X0) && InRange(cfg, X1);
    assert Lists(cfg, s, [], Read(1));
    CanRead(cfg, M.banks, s, M.now, 1);
    HeldOpen1(cfg, M.banks, s, M.now, Read(1));
    RamTakes(cfg, M, ask, Tx(1, READ_P));
    ReadCloses(cfg, M.banks, M.agenda, 1, M.now);
    ReadBanks1(cfg, go, M.banks, M.now);
    IssueKeys(cfg, M.banks, Tx(1, READ_P), M.now);
    ReadEffect(cfg, M.banks, 1, M.now, X0);
    hide RamCycle, Fits, HeldBanks, AfterBanks, WithCommand, Issuable, Free, Closes, Calm;
    CalmAfterRead1(cfg, M.banks, M1.banks, M.agenda, C0(cfg, go), M.now);
  }

  /** In time bank 0 has closed. */
  lemma ClosedByThen(cfg: Config, banks: BankTable, agenda: seq<Event>, z: Slot, r: int, now: int)
    requires Closes(cfg, banks, agenda, z, r, now) && Ahead(now, agenda) && now > r + cfg.readToPreDelay
    ensures banks[z].lastCommand.PRECHARGE?
  {
  }

  lemma AfterBanksNoted(cfg: Config, banks: BankTable, banks': BankTable, r0: int, t0: int)
    requires AfterBanks(cfg, banks, t0) && OnlyNoted(banks, banks', Some(r0), Some(t0))
    ensures AfterBanks(cfg, banks', t0)
  {
  }

  lemma DrainClosing1(cfg: Config, go: nat, M1: Machine, t0: int)
    requires Racing(cfg) && Ready(cfg, M1) && InStep(cfg, M1.now, M1.agenda) && Closing1(cfg, go, M1, M1.now + 1, t0)
    ensures var R := Drain(cfg, M1); R.stopped || Closing1(cfg, go, R, M1.now + 1, t0)
  {
    hide Drain, Calm, InStep, Fits, Lists, AfterBanks, OnlyNoted, Ahead;
    Patience(cfg);
    InStepAhead(cfg, M1.now, M1.agenda);
    DrainCalm(cfg, M1, Some(C0(cfg, go)), Some(t0));
    hide Racing;
    if !Drain(cfg, M1).stopped {
      AfterBanksNoted(cfg, M1.banks, Drain(cfg, M1).banks, C0(cfg, go), t0);
    }
  }

  lemma Closing1Clock(cfg: Config, go: nat, M: Machine, k: nat, t0: int)
    requires Closing1(cfg, go, M, k, t0)
    ensures Closing1(cfg, go, M.(now := k), k, t0) && M.pend == []
  {
  }

  lemma DrainTimes(cfg: Config, go: nat, M1: Machine)
    requires Racing(cfg) && Ready(cfg, M1) && InStep(cfg, M1.now, M1.agenda) && BothOpen(cfg, go, M1, M1.now + 1)
    ensures var R := Drain(cfg, M1);
            R.stopped || (&& X0 in R.banks && X1 in R.banks
                          && R.banks[X0].nextActivate == M1.banks[X0].nextActivate
                          && R.banks[X1].nextRead == M1.banks[X1].nextRead)
  {
    InStepAhead(cfg, M1.now, M1.agenda);
    DrainCalm(cfg, M1, Read0(cfg, go, M1.now + 1), None);
    hide Drain, Calm, InStep, Fits, Lists;
  }

  lemma ToRead0(cfg: Config, clocks: Clocks, go: nat, M: Machine) returns (M': Machine)
    requires Race(cfg, clocks, go) && Visited(cfg, clocks, M) && BothOpen(cfg, go, M, M.now) && Waits(cfg, go, M)
    requires go < M.now <= C0(cfg, go)
    ensures Visited(cfg, clocks, M')
    ensures M'.stopped || (M'.now == M.now + 1 && BothOpen(cfg, go, M', M'.now) && Waits(cfg, go, M'))
  {
    hide Visited, Ready, InStep, RamCycle, Drain, Enqueue, Fits, Racing, Admissible, Lists, Calm, HeldBanks;
    MayEnter(cfg, []);
    assert !M.stopped;
    hide BothOpen, AskAt, FirstAsk, LongPeriod, Wanted;
    var ask := AskAt(cfg, clocks, M.now);
    WaitsWanted(cfg, clocks, go, M);
    var M1, M2;
    M1, M2, M' := RunTick(cfg, clocks, M, []);
    if M.now == C0(cfg, go) {
      HeldRead0(cfg, go, M, M1, ask);
    } else {
      HeldWait0(cfg, go, M, M1, ask);
    }
    DrainBothOpen(cfg, go, M1);
    if !M2.stopped {
      BothOpenClock(cfg, go, M2, M2.now + 1);
      QuietEnd(cfg, M2);
    }
  }

  lemma ToRead1(cfg: Config, clocks: Clocks, go: nat, M: Machine) returns (M': Machine)
    requires Race(cfg, clocks, go) && Visited(cfg, clocks, M) && BothOpen(cfg, go, M, M.now) && Waits(cfg, go, M)
    requires C0(cfg, go) < M.now <= go + Span(cfg)
    ensures Visited(cfg, clocks, M')
    ensures M'.stopped || (&& M'.now == M.now + 1
                           && if Free(cfg, M.banks, M.now) then Closing1(cfg, go, M', M'.now, M.now)
                              else
                                && BothOpen(cfg, go, M', M'.now) && Waits(cfg, go, M')
                                && SameBounds(M.banks, M'.banks))
  {
    hide Visited, Ready, InStep, RamCycle, Drain, Enqueue, Fits, Racing, Admissible, Lists, Calm, HeldBanks, Free;
    MayEnter(cfg, []);
    assert !M.stopped;
    hide BothOpen, Closing1, AskAt, FirstAsk, LongPeriod, Wanted;
    var ask := AskAt(cfg, clocks, M.now);
    WaitsWanted(cfg, clocks, go, M);
    var M1, M2;
    M1, M2, M' := RunTick(cfg, clocks, M, []);
    if Free(cfg, M.banks, M.now) {
      HeldGoes(cfg, go, M, M1, ask);
      DrainClosing1(cfg, go, M1, M.now);
      if !M2.stopped {
        Closing1Clock(cfg, go, M2, M2.now + 1, M.now);
        QuietEnd(cfg, M2);
      }
    } else {
      HeldStays(cfg, go, M, M1, ask);
      DrainBothOpen(cfg, go, M1);
      DrainTimes(cfg, go, M1);
      if !M2.stopped {
        BothOpenClock(cfg, go, M2, M2.now + 1);
        QuietEnd(cfg, M2);
      }
    }
  }

  ghost predicate SameBounds(banks: BankTable, banks': BankTable) {
    && X0 in banks && X1 in banks && X0 in banks' && X1 in banks'
    && banks'[X0].nextActivate == banks[X0].nextActivate && banks'[X1].nextRead == banks[X1].nextRead
  }

  /** By then the read of bank 1 can no longer be held back. */
  function Bound(cfg: Config, go: nat, banks: BankTable): int
    requires X0 in banks && X1 in banks
  {
    Max(Max(banks[X0].nextActivate, banks[X1].nextRead), C0(cfg, go) + cfg.readToPreDelay + 1)
  }

  lemma FreeByThen(cfg: Config, clocks: Clocks, go: nat, M: Machine)
    requires Racing(cfg) && Visited(cfg, clocks, M) && BothOpen(cfg, go, M, M.now) && M.now > C0(cfg, go)
    requires M.now >= Bound(cfg, go, M.banks)
    ensures Free(cfg, M.banks, M.now)
  {
    VisitedInStep(cfg, clocks, M);
    InStepAhead(cfg, M.now, M.agenda);
    hide Visited, Ready, InStep, Lists;
    ClosedByThen(cfg, M.banks, M.agenda, X0, C0(cfg, go), M.now);
  }

  lemma BoundInSpan(cfg: Config, go: nat, M: Machine, k: int)
    requires Racing(cfg) && BothOpen(cfg, go, M, k)
    ensures Bound(cfg, go, M.banks) <= go + Span(cfg)
  {
    hide Calm, Lists;
  }

  /** Bank 0 is read if it was not yet. */
  lemma {:induction false} StageRead0(cfg: Config, clocks: Clocks, go: nat, M: Machine) returns (M': Machine)
    requires Race(cfg, clocks, go) && Visited(cfg, clocks, M)
    requires M.stopped ||
             (go < M.now <= go + Span(cfg) && BothOpen(cfg, go, M, M.now) && Waits(cfg, go, M))
    ensures Visited(cfg, clocks, M')
    ensures M'.stopped ||
            (C0(cfg, go) < M'.now <= go + Span(cfg) && BothOpen(cfg, go, M', M'.now) && Waits(cfg, go, M'))
    decreases C0(cfg, go) - M.now
  {
    hide Visited, BothOpen;
    M' := M;
    if !M.stopped && M.now <= C0(cfg, go) {
      M' := ToRead0(cfg, clocks, go, M);
      if !M'.stopped {
        M' := StageRead0(cfg, clocks, go, M');
      }
    }
  }

  /** Bank 1 is read. */
  lemma {:induction false} StageRead1(cfg: Config, clocks: Clocks, go: nat, M: Machine)
    returns (M': Machine, t0: int)
    requires Race(cfg, clocks, go) && Visited(cfg, clocks, M) && !M.stopped
    requires C0(cfg, go) < M.now <= go + Span(cfg) && BothOpen(cfg, go, M, M.now) && Waits(cfg, go, M)
    ensures Visited(cfg, clocks, M')
    ensures M'.stopped || (M'.now == t0 + 1 && InTime(cfg, go, t0) && Closing1(cfg, go, M', M'.now, t0))
    decreases Bound(cfg, go, M.banks) - M.now
  {
    hide Visited, Calm, Lists, LongPeriod, FirstAsk;
    if M.now >= Bound(cfg, go, M.banks) {
      FreeByThen(cfg, clocks, go, M);
    }
    BoundInSpan(cfg, go, M, M.now);
    hide BothOpen, Closing1, Free;
    t0 := M.now;
    M' := ToRead1(cfg, clocks, go, M);
    if !M'.stopped && !Free(cfg, M.banks, M.now) {
      M', t0 := StageRead1(cfg, clocks, go, M');
    }
  }

  // ---------------------------------------------------------------- the refresh

  /** When the second note of bank 1 is read. */
  function Late(cfg: Config, t0: int): int {
    t0 + cfg.readToPreDelay + cfg.tRP - 1
  }

  ghost predicate FlushBanks(cfg: Config, banks: BankTable, t0: int) {
    && X0 in banks && X1 in banks
    && forall t | t in banks && t.rank == 0 ::
         && banks[t].lastCommand.REFRESH? && (banks[t].status.IDLE? || banks[t].status.REFRESHING?)
         && banks[t].nextActivate <= Late(cfg, t0)
  }

  ghost predicate FlushNotes(cfg: Config, agenda: seq<Event>, k: int, t0: int) {
    && (forall e | e in agenda && e.Note? ::
          e.d.u.slot.rank == 0 && (e.d == Note2(cfg, X1, t0) || e.d.due < Late(cfg, t0)))
    && (k <= Late(cfg, t0) ==> Note(Note2(cfg, X1, t0)) in agenda)
  }

  /** The rank was refreshed, and the second note of bank 1 is still to come. */
  ghost predicate Flushed(cfg: Config, M: Machine, k: int, t0: int, w0: seq<Packet>) {
    && Base(M, 2) && !M.q.refreshWaiting
    && Lists(cfg, M.q, w0, [])
    && FlushBanks(cfg, M.banks, t0)
    && FlushNotes(cfg, M.agenda, k, t0)
    && t0 < k
  }

  function Refresh0(): Packet { Packet(1, 1, 0, 0, 0, REFRESH, 0) }

  lemma RefreshBanks(cfg: Config, banks: BankTable, now: int)
    requires X0 in banks && X1 in banks
    ensures var banks' := Issue(cfg, banks, Refresh0(), now);
            && banks'.Keys == banks.Keys
            && forall t | t in banks && t.rank == 0 ::
                 banks'[t].lastCommand.REFRESH? && banks'[t].status.REFRESHING? &&
                     banks'[t].nextActivate == now + cfg.tRFC
  {
  }

  lemma RefreshNotes(cfg: Config, agenda: seq<Event>, now: int)
    requires cfg.tRFC >= 1
    ensures forall e | e in WithCommand(cfg, agenda, Refresh0(), now) && e.Note? ::
              e in agenda || (e.d.u.slot == X0 && e.d.due == now + cfg.tRFC - 1)
    ensures forall e | e in agenda :: e in WithCommand(cfg, agenda, Refresh0(), now)
  {
    assert IssueUpdates(cfg, Refresh0(), now) == [Update(X0, now + cfg.tRFC - 1)];
  }

  lemma FlushNotesStart(cfg: Config, go: nat, banks: BankTable, agenda: seq<Event>, now: int, t0: int)
    requires Racing(cfg) && Calm(cfg, banks, agenda, Some(C0(cfg, go)), Some(t0), now)
    requires C0(cfg, go) < t0 < now <= t0 + Lag(cfg)
    requires X1 in banks && !banks[X1].status.ROW_ACTIVE?
    ensures FlushNotes(cfg, WithCommand(cfg, agenda, Refresh0(), now), now + 1, t0)
  {
    RefreshNotes(cfg, agenda, now);
    hide WithCommand;
  }

  /** The refresh is still to go, or was just issued; it goes by t0 + Lag at the latest. */
  lemma PopRefresh(cfg: Config, go: nat, M: Machine, M1: Machine, t0: int)
    requires Racing(cfg) && Ready(cfg, M) && Closing1(cfg, go, M, M.now, t0)
    requires M.now <= t0 + Lag(cfg) && Ahead(M.now, M.agenda)
    requires M1 == RamCycle(cfg, M, None)
    ensures M1.now == M.now
    ensures Closing1(cfg, go, M1, M.now + 1, t0) || Flushed(cfg, M1, M.now + 1, t0, [])
    ensures M.now == t0 + Lag(cfg) ==> Flushed(cfg, M1, M.now + 1, t0, [])
  {
    hide Pop, Issue, Homed, RamCycle;
    assert InRange(cfg, X0) && InRange(cfg, X1);
    if M.now > t0 + cfg.readToPreDelay {
      ClosedByThen(cfg, M.banks, M.agenda, X1, t0, M.now);
    }
    if M.banks[X1].lastCommand.READ_P? {
      HeldOpen1(cfg, M.banks, M.q, M.now, []);
      StillClosing1(cfg, go, M, M1, t0);
    } else {
      HeldShut(cfg, M.banks, M.q, M.now, [], []);
      if forall t | t in M.banks && t.rank == 0 :: M.banks[t].nextActivate <= M.now {
        Refreshes(cfg, go, M, M1, t0);
      } else {
        StillClosing1(cfg, go, M, M1, t0);
      }
    }
  }

  lemma StillClosing1(cfg: Config, go: nat, M: Machine, M1: Machine, t0: int)
    requires Racing(cfg) && Ready(cfg, M) && Closing1(cfg, go, M, M.now, t0) && M1 == RamCycle(cfg, M, None)
    requires var (r, s') := Pop(cfg, M.banks, M.q, M.now);
             r == None && Held(s', 0) && Kept(M.q, s', 0) && Lists(cfg, s', [], [])
    ensures Closing1(cfg, go, M1, M.now + 1, t0) && M1.now == M.now
  {
    hide Pop, Fits, Closes, AfterBanks;
    CalmLater(cfg, M.banks, M.agenda, Some(C0(cfg, go)), Some(t0), M.now);
  }

  lemma Refreshes(cfg: Config, go: nat, M: Machine, M1: Machine, t0: int)
    requires Racing(cfg) && Ready(cfg, M) && Closing1(cfg, go, M, M.now, t0) && M.now <= t0 + Lag(cfg)
    requires M1 == RamCycle(cfg, M, None) && !M.banks[X1].status.ROW_ACTIVE?
    requires var (r, s') := Pop(cfg, M.banks, M.q, M.now);
             r == Some(Refresh0()) && !s'.refreshWaiting && Kept(M.q, s', 0) && Lists(cfg, s', [], [])
    ensures Flushed(cfg, M1, M.now + 1, t0, []) && M1.now == M.now
  {
    hide Pop, Issue, Homed;
    RamTakes(cfg, M, None, Refresh0());
    RefreshBanks(cfg, M.banks, M.now);
    FlushNotesStart(cfg, go, M.banks, M.agenda, M.now, t0);
    hide RamCycle, Fits, Calm, FlushNotes, WithCommand;
  }

  lemma FlushIsFlushing(cfg: Config, M: Machine, k: int, t0: int, w0: seq<Packet>)
    requires Flushed(cfg, M, k, t0, w0) && AtHome(M)
    ensures Flushing(M.banks, M.agenda)
  {
  }

  lemma FlushBanksIdled(cfg: Config, banks: BankTable, banks': BankTable, t0: int)
    requires FlushBanks(cfg, banks, t0) && OnlyIdled(banks, banks')
    ensures FlushBanks(cfg, banks', t0)
  {
  }

  lemma FlushNotesKept(cfg: Config, agenda: seq<Event>, agenda': seq<Event>, now: int, t0: int)
    requires FlushNotes(cfg, agenda, now + 1, t0)
    requires forall f | f in agenda' :: f in agenda
    requires forall f | f in agenda && DueAt(f) > now :: f in agenda'
    ensures FlushNotes(cfg, agenda', now + 1, t0)
  {
  }

  lemma DrainFlushed(cfg: Config, M1: Machine, t0: int, w0: seq<Packet>)
    requires Racing(cfg) && Ready(cfg, M1) && Flushed(cfg, M1, M1.now + 1, t0, w0)
    ensures var R := Drain(cfg, M1); R.stopped || Flushed(cfg, R, M1.now + 1, t0, w0)
  {
    FlushIsFlushing(cfg, M1, M1.now + 1, t0, w0);
    DrainFlush(cfg, M1);
    hide Drain, Fits, Lists, Flushing, FlushBanks, FlushNotes, OnlyIdled, RankIdle, NoteIsDue, Ahead;
    var R := Drain(cfg, M1);
    if !R.stopped {
      FlushBanksIdled(cfg, M1.banks, R.banks, t0);
      FlushNotesKept(cfg, M1.agenda, R.agenda, M1.now, t0);
    }
  }

  lemma PopFlushed(cfg: Config, M: Machine, M1: Machine, t0: int)
    requires Racing(cfg) && Ready(cfg, M) && Flushed(cfg, M, M.now, t0, []) && M1 == RamCycle(cfg, M, None)
    ensures Flushed(cfg, M1, M.now + 1, t0, []) && M1.now == M.now
  {
    PopStuck(cfg, M.banks, M.q, M.now, [], []);
    hide Pop, Fits, FlushBanks;
  }

  lemma FlushedEnd(cfg: Config, M2: Machine, k: nat, t0: int, arrivals: seq<Packet>) returns (M': Machine)
    requires Racing(cfg) && Ready(cfg, M2) && M2.now + 1 == k && Flushed(cfg, M2, k, t0, [])
    requires arrivals == [] || arrivals == Read(0)
    ensures M' == Enqueue(cfg, M2.(pend := M2.pend + arrivals)).(now := k)
    ensures Flushed(cfg, M', k, t0, if arrivals == [] then [] else Pair(0))
  {
    hide FlushBanks, FlushNotes, Lists, Homed;
    if arrivals == [] {
      NobodyEnters(cfg, M2);
    } else {
      OneEnters(cfg, M2, 0, []);
      PairListed(cfg, M2.q, 0, []);
    }
    hide Fits, Enqueue;
    M' := (if arrivals == [] then M2 else M2.(q := EnqueuePair(cfg, M2.q, Tx(0, READ_P)))).(now := k);
  }

  ghost predicate Refreshing(cfg: Config, go: nat, M: Machine, t0: int) {
    (Closing1(cfg, go, M, M.now, t0) && M.now <= t0 + Lag(cfg)) || Flushed(cfg, M, M.now, t0, [])
  }

  lemma ToRefresh(cfg: Config, clocks: Clocks, go: nat, M: Machine, t0: int, arrivals: seq<Packet>)
    returns (M': Machine)
    requires Race(cfg, clocks, go) && Visited(cfg, clocks, M) && Refreshing(cfg, go, M, t0)
    requires M.now < Late(cfg, t0) && InTime(cfg, go, t0)
    requires arrivals == [] || (arrivals == Read(0) && M.now >= t0 + Lag(cfg))
    ensures Visited(cfg, clocks, M')
    ensures M'.stopped || (&& M'.now == M.now + 1
                           && if arrivals == [] then Refreshing(cfg, go, M', t0)
                               else Flushed(cfg, M', M'.now, t0, Pair(0)))
  {
    hide Visited, Ready, InStep, RamCycle, Drain, Enqueue, Fits, Racing, Admissible, Lists, Calm;
    hide AfterBanks, FlushBanks, FlushNotes, Ahead;
    MayEnter(cfg, arrivals);
    assert !M.stopped;
    assert M.now > t0;
    hide Closing1, Flushed;
    AskedOnce(cfg, clocks, go, M.now);
    hide AskAt, FirstAsk, LongPeriod;
    var M1, M2;
    M1, M2, M' := RunTick(cfg, clocks, M, arrivals);
    InStepAhead(cfg, M.now, M.agenda);
    if Flushed(cfg, M, M.now, t0, []) {
      PopFlushed(cfg, M, M1, t0);
    } else {
      PopRefresh(cfg, go, M, M1, t0);
    }
    if Flushed(cfg, M1, M.now + 1, t0, []) {
      DrainFlushed(cfg, M1, t0, []);
      if !M2.stopped {
        var R := FlushedEnd(cfg, M2, M.now + 1, t0, arrivals);
      }
    } else {
      DrainClosing1(cfg, go, M1, t0);
      if !M2.stopped {
        Closing1Clock(cfg, go, M2, M2.now + 1, t0);
        QuietEnd(cfg, M2);
      }
    }
  }

  /** The refresh went, and a transaction for bank 0 has entered just before the second note of bank 1 is read. */
  lemma {:induction false} StageRefreshed(cfg: Config, clocks: Clocks, go: nat, M: Machine, t0: int)
    returns (M': Machine)
    requires Race(cfg, clocks, go) && Visited(cfg, clocks, M) && M.now < Late(cfg, t0) && InTime(cfg, go, t0)
    requires M.stopped || Refreshing(cfg, go, M, t0)
    ensures Visited(cfg, clocks, M')
    ensures M'.stopped || (M'.now == Late(cfg, t0) && Flushed(cfg, M', M'.now, t0, Pair(0)))
    decreases Late(cfg, t0) - M.now
  {
    hide Visited, Refreshing, Flushed;
    M' := M;
    if !M.stopped {
      M' := ToRefresh(cfg, clocks, go, M, t0, if M.now + 1 == Late(cfg, t0) then Read(0) else []);
      if M.now + 1 < Late(cfg, t0) && !M'.stopped {
        M' := StageRefreshed(cfg, clocks, go, M', t0);
      }
    }
  }
}

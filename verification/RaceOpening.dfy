/**
 The first half of the race of module RefreshRace.
 Nothing happens until the first transaction comes. Then bank 0 of rank 0 is opened and, as soon as it can be, read; in
 the tick before the rank's first refresh request bank 1 is opened. Every core cycle is a RAM tick, and every tick pops;
 the times of the race and the refresh period that it needs are here, too.
 */
module RaceOpening {
  import opened DramTypes
  import opened CommandQueueSpec
  import opened BankRules
  import opened DramSystem
  import opened SchedulerSafety
  import opened PendingNotes
  import opened ProgramTicks
  import opened ProgramRuns
  import opened EvenTicks
  import opened FewPackets
  import opened RaceEvents
  import RefreshRotation
  import Controllers

  // ---------------------------------------------------------------- the times of the race

  /**
   A closed bank may be activated again, and its rank refreshed, and another bank activated, before its second note is
   read; and ACTIVATEs of one rank follow each other quickly enough for that.
   */
  ghost predicate Racing(cfg: Config) {
    && cfg.Valid() && cfg.rowBufferPolicy.ClosePage? && cfg.numBanks > 1
    && Max(cfg.readToPreDelay + 1, cfg.readAutopreDelay) + cfg.tRFC + 1 <= cfg.readToPreDelay + cfg.tRP
    && Gap(cfg) + 2 + cfg.tRFC <= cfg.readToPreDelay + cfg.tRP
  }

  function Gap(cfg: Config): nat {
    if cfg.tRRD < 2 then 2 else cfg.tRRD
  }

  /** The time from the activation of bank 0 to its read, and to the activation of bank 1. */
  function Opening(cfg: Config): nat {
    Max(1, cfg.tRCD - cfg.tAL)
  }

  function Second(cfg: Config): nat {
    if Gap(cfg) == Opening(cfg) then Gap(cfg) + 1 else Gap(cfg)
  }

  /** Bank 0 is activated at time go and read at C0; bank 1 is activated at T1. */
  function C0(cfg: Config, go: nat): nat { go + Opening(cfg) }
  function T1(cfg: Config, go: nat): nat { go + Second(cfg) }

  /** By go + Span the read of bank 1 can have gone, and by go + RaceLength the race is over. */
  function Span(cfg: Config): nat {
    cfg.tRC + 2 * cfg.tRRD + 2 * cfg.tRCD + cfg.readToPreDelay + cfg.readAutopreDelay + cfg.tCCD + cfg.tBL + 8
  }

  function RaceLength(cfg: Config): nat {
    Span(cfg) + cfg.readToPreDelay + cfg.tRP + cfg.tRC + cfg.tRRD + cfg.tCMD
  }

  /** The tick of the first refresh request of all. */
  function FirstAsk(cfg: Config, clocks: Clocks): int
    requires cfg.Valid()
  {
    RefreshRotation.Share(clocks.refresh, cfg.numRanks)
  }

  /** Requests do not follow each other faster than the race takes. */
  ghost predicate LongPeriod(cfg: Config, clocks: Clocks)
    requires cfg.Valid()
  {
    clocks.refresh >= 0.0 && FirstAsk(cfg, clocks) >= RaceLength(cfg)
  }

  /** The first request of all comes right after the activation of bank 1. */
  ghost predicate Race(cfg: Config, clocks: Clocks, go: nat) {
    && Racing(cfg) && Even(clocks) && LongPeriod(cfg, clocks)
    && go >= 1 && FirstAsk(cfg, clocks) == T1(cfg, go) + 1
  }

  lemma AskedOnce(cfg: Config, clocks: Clocks, go: nat, n: nat)
    requires Race(cfg, clocks, go) && n <= go + RaceLength(cfg)
    ensures AskAt(cfg, clocks, n) == if n == T1(cfg, go) + 1 then Some(0) else None
  {
    hide AskAt, RefreshRotation.Share;
    FirstAsks(cfg, clocks, n, FirstAsk(cfg, clocks), RefreshRotation.Period(clocks.refresh));
  }

  /** The rank is refreshed no later than this after the read of bank 1. */
  function Lag(cfg: Config): int {
    Max(Max(cfg.readToPreDelay + 1, cfg.readAutopreDelay), Gap(cfg) + 1)
  }

  function Read(bank: nat): seq<Packet> { [Tx(bank, READ_P)] }
  function Pair(bank: nat): seq<Packet> { [Tx(bank, ACTIVATE), Tx(bank, READ_P)] }

  /** What waits for bank 0, and when it was read, before tick k. */
  function Rest0(cfg: Config, go: nat, k: int): seq<Packet> { if k <= C0(cfg, go) then Read(0) else [] }
  function Read0(cfg: Config, go: nat, k: int): Option<int> { if k <= C0(cfg, go) then None else Some(C0(cfg, go)) }

  ghost predicate Base(M: Machine, n: nat) {
    && !M.stopped && M.pend == []
    && X0 in M.q.hits && X1 in M.q.hits && M.q.hits[X0] == 0 && M.q.hits[X1] == 0
    && |M.q.faw| > 0 && |M.q.faw[0]| <= n
  }

  /** Until its read bank 0 is open and can be read at C0. */
  ghost predicate OpenUntilRead(cfg: Config, go: nat, banks: BankTable, k: int) {
    && X0 in banks && X1 in banks && banks[X0].openRow == 0
    && (k <= C0(cfg, go) ==>
          && banks[X0].status.ROW_ACTIVE? && banks[X0].lastCommand.ACTIVATE?
          && banks[X0].nextRead == Max(go + cfg.tRCD - cfg.tAL, 0))
  }

  // ---------------------------------------------------------------- the end of a tick

  lemma NobodyEnters(cfg: Config, M: Machine)
    requires Fits(cfg, M.banks, M.q) && M.pend == []
    ensures Enqueue(cfg, M.(pend := M.pend + [])) == M
  {
  }

  lemma PairListed(cfg: Config, s: QState, bank: nat, w0: seq<Packet>)
    requires bank <= 1 && Lists(cfg, s, w0, []) && (bank == 0 ==> w0 == [])
    requires QueueKey(cfg, Slot(0, bank)) in s.queues
    ensures var s' := EnqueuePair(cfg, s, Tx(bank, READ_P));
            if bank == 0 then Lists(cfg, s', Pair(0), []) else Lists(cfg, s', w0, Pair(1))
  {
    var b := Tx(bank, READ_P);
    assert b.Act() == Tx(bank, ACTIVATE);
    assert w0 + [] == w0 && [] + Pair(bank) == Pair(bank) && Pair(bank) + [] == Pair(bank);
    forall k | k in s.queues
      ensures EnqueuePair(cfg, s, b).queues[k] == if bank == 0 then Waiting(cfg, k, Pair(0), [])
          else Waiting(cfg, k, w0, Pair(1))
    {
      assert s.queues[k] == Waiting(cfg, k, w0, []);
    }
  }

  lemma OneEnters(cfg: Config, M: Machine, bank: nat, w0: seq<Packet>)
    requires Fits(cfg, M.banks, M.q) && M.pend == [] && bank <= 1 && cfg.numBanks > 1 && |w0| <= 1
    requires Lists(cfg, M.q, w0, []) && (bank == 0 ==> w0 == [])
    ensures forall p | p in M.pend + Read(bank) :: InRange(cfg, p.Target())
    ensures Enqueue(cfg, M.(pend := M.pend + Read(bank))) == M.(q := EnqueuePair(cfg, M.q, Tx(bank, READ_P)))
    ensures QueueKey(cfg, Slot(0, bank)) in M.q.queues
  {
    var b := Tx(bank, READ_P);
    var k := QueueKey(cfg, b.Target());
    assert IsKey(cfg, k) && M.q.queues[k] == Waiting(cfg, k, w0, []);
    assert M.pend + Read(bank) == [b] && [b][1..] == [];
    hide Lists, Waiting, Homed;
    assert Controllers.FirstWithRoom(cfg, M.q, [b], 0) == 0;
  }

  // ---------------------------------------------------------------- bank 0 is opened and read

  /** What the read of bank 1 waits for comes in time. */
  ghost predicate InSpan(cfg: Config, go: nat, banks: BankTable) {
    && X0 in banks && X1 in banks
    && banks[X0].nextActivate <= go + Span(cfg) && banks[X1].nextRead <= go + Span(cfg)
  }

  ghost predicate EarlyBanks(cfg: Config, go: nat, banks: BankTable, k: int) {
    && OpenUntilRead(cfg, go, banks, k)
    && InSpan(cfg, go, banks)
    && banks[X0].nextActivate >= go + cfg.tRC
    && forall t | t in banks && t.rank == 0 && t != X0 ::
        banks[t].status.IDLE? && banks[t].nextActivate <= go + cfg.tRRD
  }

  ghost predicate Early(cfg: Config, go: nat, M: Machine, k: int, w1: seq<Packet>) {
    && Base(M, 1) && !M.q.refreshWaiting
    && Lists(cfg, M.q, Rest0(cfg, go, k), w1)
    && Calm(cfg, M.banks, M.agenda, Read0(cfg, go, k), None, k)
    && EarlyBanks(cfg, go, M.banks, k)
  }

  lemma CannotRead(cfg: Config, banks: BankTable, s: QState, now: int, bank: nat)
    requires Fits(cfg, banks, s) && InRange(cfg, Slot(0, bank))
    requires !banks[Slot(0, bank)].status.ROW_ACTIVE? || banks[Slot(0, bank)].nextRead > now
    ensures Stuck(cfg, banks, s, now, Read(bank))
  {
  }

  lemma CanRead(cfg: Config, banks: BankTable, s: QState, now: int, bank: nat)
    requires Fits(cfg, banks, s) && InRange(cfg, Slot(0, bank)) && s.hits[Slot(0, bank)] == 0
    requires banks[Slot(0, bank)].status.ROW_ACTIVE? && banks[Slot(0, bank)].openRow == 0
    ensures Issuable(cfg, banks, s, now, Tx(bank, READ_P)) <==> banks[Slot(0, bank)].nextRead <= now
  {
  }

  /** The agenda after a command was issued. */
  function WithCommand(cfg: Config, agenda: seq<Event>, p: Packet, now: int): seq<Event> {
    agenda + Posted(IssueUpdates(cfg, p, now), now) + [Command(Flit(p, now + cfg.tCMD))]
  }

  lemma RamTakes(cfg: Config, M: Machine, ask: Option<nat>, p: Packet)
    requires Fits(cfg, M.banks, Asked(M.q, ask)) && Pop(cfg, M.banks, Asked(M.q, ask), M.now).0 == Some(p)
    ensures RamCycle(cfg, M, ask) ==
            M.(q := Pop(cfg, M.banks, Asked(M.q, ask), M.now).1, banks := Issue(cfg, M.banks, p, M.now),
               agenda := WithCommand(cfg, M.agenda, p, M.now))
  {
  }

  /** A read of bank z starts to close it. */
  lemma ReadCloses(cfg: Config, banks: BankTable, agenda: seq<Event>, bank: nat, now: int)
    requires Slot(0, bank) in banks && banks[Slot(0, bank)].status.ROW_ACTIVE?
    requires forall e | e in agenda && e.Note? :: e.d.u.slot != Slot(0, bank)
    ensures var p := Tx(bank, READ_P);
            Closes(cfg, Issue(cfg, banks, p, now),
                   WithCommand(cfg, agenda, p, now), Slot(0, bank), now, now + 1)
  {
    var p := Tx(bank, READ_P);
    var z := Slot(0, bank);
    var us := IssueUpdates(cfg, p, now);
    assert us == [Update(z, now + cfg.readToPreDelay)];
    assert Posted(us, now) == [Note(Note1(cfg, z, now))];
    assert WithCommand(cfg, agenda, p, now)[|agenda|] == Note(Note1(cfg, z, now));
  }

  /** What a read of rank 0 does to the rank's banks, as far as the race is concerned. */
  lemma ReadEffect(cfg: Config, banks: BankTable, bank: nat, now: int, t: Slot)
    requires t in banks
    ensures var b, b' := banks[t], Issue(cfg, banks, Tx(bank, READ_P), now)[t];
            && b'.status == b.status && b'.openRow == b.openRow
            && (t != Slot(0, bank) ==> b'.nextActivate == b.nextActivate && b'.lastCommand == b.lastCommand)
            && (t == Slot(0, bank) ==> b'.nextActivate == Max(now + cfg.readAutopreDelay, b.nextActivate))
            && (t != Slot(0, bank) && t.rank == 0 ==>
                  b'.nextRead == Max(now + Max(cfg.tCCD, cfg.tBL / 2), b.nextRead))
  {
  }

  lemma ReadNotes(cfg: Config, agenda: seq<Event>, bank: nat, now: int)
    ensures forall e | e in WithCommand(cfg, agenda, Tx(bank, READ_P), now) && e.Note? ::
              e in agenda || e.d.u.slot == Slot(0, bank)
  {
  }

  lemma EarlyReadBanks(cfg: Config, go: nat, banks: BankTable)
    requires EarlyBanks(cfg, go, banks, C0(cfg, go))
    ensures EarlyBanks(cfg, go, Issue(cfg, banks, Tx(0, READ_P), C0(cfg, go)), C0(cfg, go) + 1)
  {
    hide Issue;
    IssueKeys(cfg, banks, Tx(0, READ_P), C0(cfg, go));
    forall t | t in banks
      ensures var b, b' := banks[t], Issue(cfg, banks, Tx(0, READ_P), C0(cfg, go))[t];
              && b'.status == b.status && b'.openRow == b.openRow && b'.nextActivate >= b.nextActivate
              && (t != X0 ==> b'.nextActivate == b.nextActivate)
              && (t == X0 ==> b'.nextActivate == Max(C0(cfg, go) + cfg.readAutopreDelay, b.nextActivate))
              && (t == X1 ==> b'.nextRead == Max(C0(cfg, go) + Max(cfg.tCCD, cfg.tBL / 2), b.nextRead))
    {
      ReadEffect(cfg, banks, 0, C0(cfg, go), t);
    }
  }

  lemma IssueKeys(cfg: Config, banks: BankTable, p: Packet, now: int)
    ensures Issue(cfg, banks, p, now).Keys == banks.Keys
  {
  }

  lemma EarlyRead(cfg: Config, go: nat, M: Machine, M1: Machine)
    requires Racing(cfg) && Ready(cfg, M) && M.now == C0(cfg, go)
    requires Early(cfg, go, M, M.now, []) && M1 == RamCycle(cfg, M, None)
    ensures Early(cfg, go, M1, M.now + 1, []) && M1.now == M.now
  {
    hide Pop, Issue, Closes, Homed, Posted, IssueUpdates;
    assert InRange(cfg, X0) && InRange(cfg, X1);
    CanRead(cfg, M.banks, M.q, M.now, 0);
    PopHead0(cfg, M.banks, M.q, M.now, Read(0), []);
    RamTakes(cfg, M, None, Tx(0, READ_P));
    ReadCloses(cfg, M.banks, M.agenda, 0, M.now);
    ReadNotes(cfg, M.agenda, 0, M.now);
    EarlyReadBanks(cfg, go, M.banks);
    hide RamCycle, Fits, EarlyBanks, WithCommand;
  }

  lemma EarlyWait(cfg: Config, go: nat, M: Machine, M1: Machine)
    requires Racing(cfg) && Ready(cfg, M) && go < M.now != C0(cfg, go) && Early(cfg, go, M, M.now, [])
    requires M1 == RamCycle(cfg, M, None)
    ensures Early(cfg, go, M1, M.now + 1, []) && M1.now == M.now
  {
    assert InRange(cfg, X0) && InRange(cfg, X1);
    if M.now <= C0(cfg, go) {
      CannotRead(cfg, M.banks, M.q, M.now, 0);
    }
    PopStuck(cfg, M.banks, M.q, M.now, Rest0(cfg, go, M.now), []);
    hide Pop, Issue, Fits, Homed;
    CalmLater(cfg, M.banks, M.agenda, Read0(cfg, go, M.now), None, M.now);
  }

  lemma CalmLater(cfg: Config, banks: BankTable, agenda: seq<Event>, r0: Option<int>, r1: Option<int>, k: int)
    requires Calm(cfg, banks, agenda, r0, r1, k)
    ensures Calm(cfg, banks, agenda, r0, r1, k + 1)
  {
  }

  lemma InStepAhead(cfg: Config, now: int, agenda: seq<Event>)
    requires InStep(cfg, now, agenda)
    ensures Ahead(now, agenda)
  {
  }

  lemma Patience(cfg: Config)
    requires Racing(cfg)
    ensures cfg.tRP >= 2
  {
  }

  lemma EarlyBanksNoted(cfg: Config, go: nat, banks: BankTable, banks': BankTable, k: int)
    requires EarlyBanks(cfg, go, banks, k) && OnlyNoted(banks, banks', Read0(cfg, go, k), None)
    ensures EarlyBanks(cfg, go, banks', k)
  {
  }

  lemma DrainEarly(cfg: Config, go: nat, M1: Machine, w1: seq<Packet>)
    requires Racing(cfg) && Ready(cfg, M1) && InStep(cfg, M1.now, M1.agenda) && Early(cfg, go, M1, M1.now + 1, w1)
    ensures var R := Drain(cfg, M1); R.stopped || Early(cfg, go, R, M1.now + 1, w1)
  {
    hide Drain, Calm, InStep, Fits, Lists, EarlyBanks, OnlyNoted, Ahead;
    Patience(cfg);
    InStepAhead(cfg, M1.now, M1.agenda);
    DrainCalm(cfg, M1, Read0(cfg, go, M1.now + 1), None);
    hide Racing;
    if !Drain(cfg, M1).stopped {
      EarlyBanksNoted(cfg, go, M1.banks, Drain(cfg, M1).banks, M1.now + 1);
    }
  }

  lemma EarlyEnd(cfg: Config, go: nat, M2: Machine, k: nat, w1: seq<Packet>, arrivals: seq<Packet>)
    returns (M': Machine)
    requires Racing(cfg) && Ready(cfg, M2) && M2.now + 1 == k && Early(cfg, go, M2, k, w1)
    requires arrivals == [] || (arrivals == Read(1) && w1 == [])
    ensures M' == Enqueue(cfg, M2.(pend := M2.pend + arrivals)).(now := k)
    ensures Early(cfg, go, M', k, if arrivals == [] then w1 else Pair(1))
  {
    hide Calm, EarlyBanks, Lists, Homed;
    if arrivals == [] {
      NobodyEnters(cfg, M2);
    } else {
      OneEnters(cfg, M2, 1, Rest0(cfg, go, k));
      PairListed(cfg, M2.q, 1, Rest0(cfg, go, k));
    }
    hide Fits, Enqueue;
    M' := (if arrivals == [] then M2 else M2.(q := EnqueuePair(cfg, M2.q, Tx(1, READ_P)))).(now := k);
  }

  lemma MayEnter(cfg: Config, arrivals: seq<Packet>)
    requires Racing(cfg) && (arrivals == [] || arrivals == Read(0) || arrivals == Read(1))
    ensures cfg.Valid() && Admissible(cfg, arrivals)
  {
    assert InRange(cfg, X0) && InRange(cfg, X1);
  }

  lemma EarlyTick(cfg: Config, clocks: Clocks, go: nat, M: Machine, arrivals: seq<Packet>) returns (M': Machine)
    requires Race(cfg, clocks, go) && Visited(cfg, clocks, M) && go < M.now && Early(cfg, go, M, M.now, [])
    requires M.now < T1(cfg, go) && (arrivals == [] || arrivals == Read(1))
    ensures Visited(cfg, clocks, M')
    ensures M'.stopped || (M'.now == M.now + 1 && Early(cfg, go, M', M'.now, if arrivals == [] then [] else Pair(1)))
  {
    hide Visited, Ready, InStep, RamCycle, Drain, Enqueue, Fits, Racing, Admissible, Lists, Calm, EarlyBanks;
    MayEnter(cfg, arrivals);
    AskedOnce(cfg, clocks, go, M.now);
    assert !M.stopped;
    hide Early, AskAt, FirstAsk;
    var M1, M2;
    M1, M2, M' := RunTick(cfg, clocks, M, arrivals);
    if M.now == C0(cfg, go) {
      EarlyRead(cfg, go, M, M1);
    } else {
      EarlyWait(cfg, go, M, M1);
    }
    DrainEarly(cfg, go, M1, []);
    if !M2.stopped {
      var R := EarlyEnd(cfg, go, M2, M.now + 1, [], arrivals);
    }
  }

  ghost predicate Fresh(cfg: Config, M: Machine) {
    && Base(M, 0) && !M.q.refreshWaiting && M.agenda == [] && Covers(cfg, M.banks)
    && forall t | t in M.banks :: M.banks[t] == FRESH_BANK
  }

  lemma PopFresh(cfg: Config, M: Machine, M1: Machine)
    requires Racing(cfg) && Ready(cfg, M) && Fresh(cfg, M) && Lists(cfg, M.q, [], []) && M1 == RamCycle(cfg, M, None)
    ensures Fresh(cfg, M1) && Lists(cfg, M1.q, [], []) && M1.now == M.now && Drain(cfg, M1) == M1
  {
    PopStuck(cfg, M.banks, M.q, M.now, [], []);
  }

  lemma StartFresh(cfg: Config)
    requires Racing(cfg)
    ensures Fresh(cfg, Start(cfg)) && Lists(cfg, Start(cfg).q, [], [])
  {
    assert InRange(cfg, X0) && InRange(cfg, X1);
  }

  lemma FreshEnd(cfg: Config, M: Machine, arrivals: seq<Packet>, M': Machine)
    requires Racing(cfg) && Ready(cfg, M) && Fresh(cfg, M) && Lists(cfg, M.q, [], [])
    requires arrivals == [] || arrivals == Read(0)
    requires M' == Enqueue(cfg, M.(pend := M.pend + arrivals)).(now := M.now + 1)
    ensures M'.now == M.now + 1 && Fresh(cfg, M') && Lists(cfg, M'.q, if arrivals == [] then [] else Pair(0), [])
  {
    if arrivals == [] {
      NobodyEnters(cfg, M);
    } else {
      OneEnters(cfg, M, 0, []);
      PairListed(cfg, M.q, 0, []);
    }
    hide Enqueue, Lists;
  }

  lemma FreshTick(cfg: Config, clocks: Clocks, go: nat, M: Machine, arrivals: seq<Packet>) returns (M': Machine)
    requires Race(cfg, clocks, go) && Visited(cfg, clocks, M) && Fresh(cfg, M) && Lists(cfg, M.q, [], [])
    requires M.now < go && (arrivals == [] || arrivals == Read(0))
    ensures Visited(cfg, clocks, M') && M'.now == M.now + 1
    ensures Fresh(cfg, M') && Lists(cfg, M'.q, if arrivals == [] then [] else Pair(0), [])
  {
    hide Visited, Ready, InStep, RamCycle, Drain, Enqueue, Fits, Racing, Admissible, Lists, AskAt, FirstAsk;
    hide LongPeriod, Covers;
    MayEnter(cfg, arrivals);
    assert !M.stopped;
    AskedOnce(cfg, clocks, go, M.now);
    hide Fresh;
    var M1, M2;
    M1, M2, M' := RunTick(cfg, clocks, M, arrivals);
    PopFresh(cfg, M, M1);
    FreshEnd(cfg, M1, arrivals, M');
  }

  /** Nothing happens until the first transaction has entered. */
  lemma {:induction false} StageEntered(cfg: Config, clocks: Clocks, go: nat, M: Machine) returns (M': Machine)
    requires Race(cfg, clocks, go) && Visited(cfg, clocks, M) && Fresh(cfg, M) && Lists(cfg, M.q, [], []) && M.now < go
    ensures Visited(cfg, clocks, M') && M'.now == go && Fresh(cfg, M') && Lists(cfg, M'.q, Pair(0), [])
    decreases go - M.now
  {
    hide Visited, Fresh, Lists;
    M' := FreshTick(cfg, clocks, go, M, if M.now + 1 == go then Read(0) else []);
    if M.now + 1 < go {
      M' := StageEntered(cfg, clocks, go, M');
    }
  }

  lemma ReopenNotes(cfg: Config, agenda: seq<Event>, now: int)
    ensures forall e | e in WithCommand(cfg, agenda, Tx(0, ACTIVATE), now) && e.Note? :: e in agenda
    ensures forall e | e in agenda :: e in WithCommand(cfg, agenda, Tx(0, ACTIVATE), now)
  {
  }

  lemma PopFirst(cfg: Config, go: nat, M: Machine, M1: Machine)
    requires Racing(cfg) && Ready(cfg, M) && Fresh(cfg, M) && Lists(cfg, M.q, Pair(0), []) && M.now == go
    requires M1 == RamCycle(cfg, M, None)
    ensures Early(cfg, go, M1, go + 1, []) && M1.now == go
  {
    hide Pop, Issue, EarlyBanks, Homed;
    assert InRange(cfg, X0) && InRange(cfg, X1);
    CannotRead(cfg, M.banks, M.q, go, 0);
    assert Pair(0)[1..] == Read(0);
    assert Issuable(cfg, M.banks, M.q, go, Tx(0, ACTIVATE));
    PopHead0(cfg, M.banks, M.q, go, Pair(0), []);
    RamTakes(cfg, M, None, Tx(0, ACTIVATE));
    FirstBanks(cfg, go, M.banks);
    ReopenNotes(cfg, M.agenda, go);
    hide RamCycle, Fits, Issuable, WithCommand, Lists;
  }

  lemma FirstBanks(cfg: Config, go: nat, banks: BankTable)
    requires Racing(cfg) && Covers(cfg, banks) && forall t | t in banks :: banks[t] == FRESH_BANK
    ensures EarlyBanks(cfg, go, Issue(cfg, banks, Tx(0, ACTIVATE), go), go + 1)
  {
    assert InRange(cfg, X0) && InRange(cfg, X1);
  }

  lemma FirstTick(cfg: Config, clocks: Clocks, go: nat, M: Machine) returns (M': Machine)
    requires Race(cfg, clocks, go) && Visited(cfg, clocks, M)
    requires M.now == go && Fresh(cfg, M) && Lists(cfg, M.q, Pair(0), [])
    ensures Visited(cfg, clocks, M') && (M'.stopped || (M'.now == go + 1 && Early(cfg, go, M', go + 1, [])))
  {
    hide Racing, Admissible, Visited, Ready, InStep, Early, RamCycle, Drain, Enqueue, Fits, Lists, AskAt, FirstAsk;
    hide LongPeriod, Covers, EarlyBanks, Calm;
    MayEnter(cfg, []);
    AskedOnce(cfg, clocks, go, go);
    assert !M.stopped;
    hide Fresh;
    var M1, M2;
    M1, M2, M' := RunTick(cfg, clocks, M, []);
    PopFirst(cfg, go, M, M1);
    DrainEarly(cfg, go, M1, []);
    if !M2.stopped {
      var R := EarlyEnd(cfg, go, M2, go + 1, [], []);
    }
  }

  /** Bank 0 is open. */
  lemma StageOpen(cfg: Config, clocks: Clocks, go: nat) returns (M': Machine)
    requires Race(cfg, clocks, go)
    ensures Visited(cfg, clocks, M') && (M'.stopped || (M'.now == go + 1 && Early(cfg, go, M', go + 1, [])))
  {
    hide Visited, Early;
    VisitStart(cfg, clocks);
    StartFresh(cfg);
    hide Fresh, Lists;
    var M := StageEntered(cfg, clocks, go, Start(cfg));
    M' := FirstTick(cfg, clocks, go, M);
  }

  /** Bank 1's transaction has entered and may go in the next tick. */
  lemma {:induction false} StageBoth(cfg: Config, clocks: Clocks, go: nat, M: Machine) returns (M': Machine)
    requires Race(cfg, clocks, go) && Visited(cfg, clocks, M)
    requires M.stopped || (go < M.now < T1(cfg, go) && Early(cfg, go, M, M.now, []))
    ensures Visited(cfg, clocks, M') && (M'.stopped || (M'.now == T1(cfg, go) && Early(cfg, go, M', M'.now, Pair(1))))
    decreases T1(cfg, go) - M.now
  {
    hide Visited, Early;
    M' := M;
    if !M.stopped {
      M' := EarlyTick(cfg, clocks, go, M, if M.now + 1 == T1(cfg, go) then Read(1) else []);
      if M.now + 1 < T1(cfg, go) && !M'.stopped {
        M' := StageBoth(cfg, clocks, go, M');
      }
    }
  }

  // ---------------------------------------------------------------- bank 1 is opened, and its read is held back

  ghost predicate HeldBanks(cfg: Config, go: nat, banks: BankTable, k: int) {
    && OpenUntilRead(cfg, go, banks, k)
    && InSpan(cfg, go, banks)
    && banks[X0].nextActivate >= Max(go + cfg.tRC, T1(cfg, go) + cfg.tRRD)
    && banks[X1].status.ROW_ACTIVE? && banks[X1].openRow == 0 && banks[X1].nextActivate <= T1(cfg, go) + cfg.tRC
    && forall t | t in banks && t.rank == 0 && t != X0 && t != X1 ::
         banks[t].status.IDLE? && banks[t].nextActivate <= T1(cfg, go) + cfg.tRRD
  }

  /** Both banks were opened; the read of bank 1 waits. */
  ghost predicate BothOpen(cfg: Config, go: nat, M: Machine, k: int) {
    && Base(M, 2)
    && Lists(cfg, M.q, Rest0(cfg, go, k), Read(1))
    && Calm(cfg, M.banks, M.agenda, Read0(cfg, go, k), None, k)
    && HeldBanks(cfg, go, M.banks, k)
  }

  lemma SecondBanks(cfg: Config, go: nat, banks: BankTable)
    requires Racing(cfg) && EarlyBanks(cfg, go, banks, T1(cfg, go))
    ensures HeldBanks(cfg, go, Issue(cfg, banks, Tx(1, ACTIVATE), T1(cfg, go)), T1(cfg, go) + 1)
    ensures forall t | t in banks && t != X1 ::
              var b := Issue(cfg, banks, Tx(1, ACTIVATE), T1(cfg, go))[t];
              b.status == banks[t].status && b.lastCommand == banks[t].lastCommand
  {
  }

  lemma CalmAfterActivate(cfg: Config, banks: BankTable, banks': BankTable, agenda: seq<Event>, bank: nat,
                          r0: Option<int>, now: int)
    requires Calm(cfg, banks, agenda, r0, None, now) && banks'.Keys == banks.Keys && bank == 1
    requires X0 in banks ==> banks'[X0].status == banks[X0].status && banks'[X0].lastCommand == banks[X0].lastCommand
    ensures Calm(cfg, banks', WithCommand(cfg, agenda, Tx(bank, ACTIVATE), now), r0, None, now + 1)
  {
    var agenda' := WithCommand(cfg, agenda, Tx(bank, ACTIVATE), now);
    assert forall e | e in agenda' && e.Note? :: e in agenda;
    assert forall e | e in agenda :: e in agenda';
    hide WithCommand;
  }

  lemma PopSecond(cfg: Config, go: nat, M: Machine, M1: Machine)
    requires Racing(cfg) && Ready(cfg, M) && M.now == T1(cfg, go)
    requires Early(cfg, go, M, M.now, Pair(1)) && M1 == RamCycle(cfg, M, None)
    ensures BothOpen(cfg, go, M1, M.now + 1) && M1.now == M.now && !M1.q.refreshWaiting
  {
    hide Pop, Issue, Calm, Closes, Homed;
    assert InRange(cfg, X0) && InRange(cfg, X1);
    if M.now <= C0(cfg, go) { CannotRead(cfg, M.banks, M.q, M.now, 0); }
    CannotRead(cfg, M.banks, M.q, M.now, 1);
    assert Pair(1)[1..] == Read(1);
    assert Issuable(cfg, M.banks, M.q, M.now, Tx(1, ACTIVATE));
    PopHead1(cfg, M.banks, M.q, M.now, Rest0(cfg, go, M.now), Pair(1));
    RamTakes(cfg, M, None, Tx(1, ACTIVATE));
    SecondBanks(cfg, go, M.banks);
    IssueKeys(cfg, M.banks, Tx(1, ACTIVATE), M.now);
    hide HeldBanks, EarlyBanks, RamCycle, Fits, Issuable, WithCommand;
    CalmAfterActivate(cfg, M.banks, M1.banks, M.agenda, 1, Read0(cfg, go, M.now), M.now);
  }

  lemma HeldBanksNoted(cfg: Config, go: nat, banks: BankTable, banks': BankTable, k: int)
    requires HeldBanks(cfg, go, banks, k) && OnlyNoted(banks, banks', Read0(cfg, go, k), None)
    ensures HeldBanks(cfg, go, banks', k)
  {
  }

  lemma DrainBothOpen(cfg: Config, go: nat, M1: Machine)
    requires Racing(cfg) && Ready(cfg, M1) && InStep(cfg, M1.now, M1.agenda) && BothOpen(cfg, go, M1, M1.now + 1)
    ensures var R := Drain(cfg, M1); R.stopped || BothOpen(cfg, go, R, M1.now + 1)
  {
    hide Drain, Calm, InStep, Fits, Lists, HeldBanks, OnlyNoted, Ahead;
    Patience(cfg);
    InStepAhead(cfg, M1.now, M1.agenda);
    DrainCalm(cfg, M1, Read0(cfg, go, M1.now + 1), None);
    hide Racing;
    if !Drain(cfg, M1).stopped {
      HeldBanksNoted(cfg, go, M1.banks, Drain(cfg, M1).banks, M1.now + 1);
    }
  }

  /** Nobody enters at the end of a tick. */
  lemma QuietEnd(cfg: Config, M2: Machine)
    requires Ready(cfg, M2) && M2.pend == []
    ensures Enqueue(cfg, M2.(pend := M2.pend + [])) == M2
  {
    hide Fits;
    NobodyEnters(cfg, M2);
  }

  lemma BothOpenClock(cfg: Config, go: nat, M: Machine, k: nat)
    requires BothOpen(cfg, go, M, k)
    ensures BothOpen(cfg, go, M.(now := k), k)
  {
  }

  /** Bank 1 is open, too. */
  lemma StageBothOpen(cfg: Config, clocks: Clocks, go: nat, M: Machine) returns (M': Machine)
    requires Race(cfg, clocks, go) && Visited(cfg, clocks, M)
    requires M.now == T1(cfg, go) && Early(cfg, go, M, M.now, Pair(1))
    ensures Visited(cfg, clocks, M')
    ensures M'.stopped || (M'.now == T1(cfg, go) + 1 && BothOpen(cfg, go, M', M'.now) && !M'.q.refreshWaiting)
  {
    hide Visited, Ready, InStep, RamCycle, Drain, Enqueue, Fits, Racing, Admissible, Lists, Calm, EarlyBanks;
    MayEnter(cfg, []);
    AskedOnce(cfg, clocks, go, M.now);
    assert !M.stopped;
    hide Early, AskAt, FirstAsk;
    var M1, M2;
    M1, M2, M' := RunTick(cfg, clocks, M, []);
    PopSecond(cfg, go, M, M1);
    DrainBothOpen(cfg, go, M1);
    if !M2.stopped {
      QuietEnd(cfg, M2);
      hide BothOpen;
      BothOpenClock(cfg, go, M2, M2.now + 1);
    }
  }
}

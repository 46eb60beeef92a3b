/**
 What handling the events of a tick does while the banks 0 and 1 of rank 0 close, and after a refresh of the rank.
 Before the refresh, each bank that was read has its first note pending, or is closed and has its second one. After it,
 every note for the rank passes for the end of the refresh. Once bank 0 is open for the rank, only refreshes are on
 their way to it, and the rank takes none of them: while the simulation goes on, nothing that matters happens to the
 rank.
 */
module RaceEvents {
  import opened DramTypes
  import opened BankRules
  import opened DramSystem
  import opened PendingNotes
  import opened ProgramTicks
  import opened ProgramRuns
  import opened FewPackets

  // ---------------------------------------------------------------- reading notes

  /** The two notes of bank z when its read went at time r. */
  function Note1(cfg: Config, z: Slot, r: int): Due {
    Due(Update(z, r + cfg.readToPreDelay), r + cfg.readToPreDelay)
  }

  function Note2(cfg: Config, z: Slot, r: int): Due {
    Due(Update(z, r + cfg.readToPreDelay + cfg.tRP - 1), r + cfg.readToPreDelay + cfg.tRP - 1)
  }

  /** Since its read at time r bank z is closing, or is closed and the second note, up to its time, on the agenda. */
  ghost predicate Closes(cfg: Config, banks: BankTable, agenda: seq<Event>, z: Slot, r: int, upto: int) {
    && z in banks
    && (forall e | e in agenda && e.Note? && e.d.u.slot == z :: e.d == Note1(cfg, z, r) || e.d == Note2(cfg, z, r))
    && match banks[z].lastCommand
       case READ_P => banks[z].status.ROW_ACTIVE? && Note(Note1(cfg, z, r)) in agenda
       case PRECHARGE =>
         && (banks[z].status.PRECHARGING? || banks[z].status.IDLE?)
         && (upto <= Note2(cfg, z, r).due ==> Note(Note2(cfg, z, r)) in agenda)
       case _ => false
  }

  /** The notes on the agenda are those of bank 0, if it was read at r0, and of bank 1, if it was read at r1. */
  ghost predicate Calm(cfg: Config, banks: BankTable, agenda: seq<Event>, r0: Option<int>, r1: Option<int>, upto: int) {
    && (forall e | e in agenda && e.Note? :: (r0.Some? && e.d.u.slot == X0) || (r1.Some? && e.d.u.slot == X1))
    && (r0.Some? ==> Closes(cfg, banks, agenda, X0, r0.value, upto))
    && (r1.Some? ==> Closes(cfg, banks, agenda, X1, r1.value, upto))
  }

  ghost predicate Ahead(now: int, agenda: seq<Event>) {
    forall e | e in agenda :: now <= DueAt(e)
  }

  /** Reading notes changes only states and last commands, and only of the banks that were read. */
  ghost predicate OnlyNoted(banks: BankTable, banks': BankTable, r0: Option<int>, r1: Option<int>) {
    && banks'.Keys == banks.Keys
    && forall t | t in banks ::
         && banks'[t] == banks[t].(status := banks'[t].status, lastCommand := banks'[t].lastCommand)
         && ((t == X0 && r0.Some?) || (t == X1 && r1.Some?) || banks'[t] == banks[t])
         && (banks[t].lastCommand.PRECHARGE? ==> banks'[t].lastCommand.PRECHARGE?)
  }

  /** The event that is handled first, and what its handler posts. */
  function First(M: Machine): Event
    requires FirstDue(M.agenda, M.now) < |M.agenda|
  {
    M.agenda[FirstDue(M.agenda, M.now)]
  }

  function Answer(cfg: Config, M: Machine): seq<Event>
    requires AtHome(M) && FirstDue(M.agenda, M.now) < |M.agenda|
  {
    assert First(M) in M.agenda;
    match First(M)
    case Note(d) => Posted(FollowUps(cfg, M.banks, d.u), M.now)
    case Command(_) => []
  }

  lemma WithoutKeeps(agenda: seq<Event>, k: nat)
    requires k < |agenda|
    ensures forall f | f in agenda :: f == agenda[k] || f in Without(agenda, k)
    ensures forall f | f in Without(agenda, k) :: f in agenda
  {
    var rest := Without(agenda, k);
    forall f | f in agenda && f != agenda[k]
      ensures f in rest
    {
      var i :| 0 <= i < |agenda| && agenda[i] == f;
      assert rest[if i < k then i else i - 1] == f;
    }
  }

  lemma AgendaHandled(cfg: Config, M: Machine)
    requires AtHome(M) && FirstDue(M.agenda, M.now) < |M.agenda|
    ensures First(M) in M.agenda && DueAt(First(M)) <= M.now
    ensures forall f | f in Handle(cfg, M).agenda :: f in M.agenda || f in Answer(cfg, M)
    ensures forall f | f in M.agenda :: f == First(M) || f in Handle(cfg, M).agenda
    ensures forall f | f in Answer(cfg, M) :: f in Handle(cfg, M).agenda
    ensures Ahead(M.now, M.agenda) ==> Ahead(M.now, Handle(cfg, M).agenda)
  {
    var k := FirstDue(M.agenda, M.now);
    assert Handle(cfg, M).agenda == Without(M.agenda, k) + Answer(cfg, M);
    WithoutKeeps(M.agenda, k);
    hide Without, FirstDue, Answer, Handle;
  }

  /** How the banks look after the first event that is due. */
  function BanksHandled(M: Machine): BankTable
    requires AtHome(M) && FirstDue(M.agenda, M.now) < |M.agenda|
  {
    assert First(M) in M.agenda;
    match First(M)
    case Note(d) => Updated(M.banks, d.u)
    case Command(_) => M.banks
  }

  lemma ClosesHandled(cfg: Config, M: Machine, agenda': seq<Event>, z: Slot, r: int)
    requires AtHome(M) && Ahead(M.now, M.agenda) && FirstDue(M.agenda, M.now) < |M.agenda| && cfg.tRP >= 2
    requires Closes(cfg, M.banks, M.agenda, z, r, M.now + 1)
    requires First(M) in M.agenda && DueAt(First(M)) <= M.now
    requires First(M).Note? ==> First(M).d.u.slot == z || !M.banks[First(M).d.u.slot].lastCommand.REFRESH?
    requires forall f | f in agenda' :: f in M.agenda || f in Answer(cfg, M)
    requires forall f | f in M.agenda :: f == First(M) || f in agenda'
    requires forall f | f in Answer(cfg, M) :: f in agenda'
    ensures Closes(cfg, BanksHandled(M), agenda', z, r, M.now + 1)
  {
    var e := First(M);
    hide First, FirstDue;
    if e.Note? && e.d.u.slot == z && M.banks[z].lastCommand.READ_P? {
      assert e.d == Note1(cfg, z, r) ==> Answer(cfg, M) == [Note(Note2(cfg, z, r))];
      assert e.d == Note1(cfg, z, r) ==> Answer(cfg, M)[0] in agenda';
    }
  }

  lemma OnlyNotedHandled(cfg: Config, M: Machine, r0: Option<int>, r1: Option<int>)
    requires AtHome(M) && FirstDue(M.agenda, M.now) < |M.agenda| && First(M) in M.agenda
    requires Calm(cfg, M.banks, M.agenda, r0, r1, M.now + 1)
    ensures OnlyNoted(M.banks, BanksHandled(M), r0, r1)
    ensures First(M).Note? ==> !M.banks[First(M).d.u.slot].lastCommand.REFRESH?
  {
    hide First, FirstDue;
  }

  lemma AnswerNoted(cfg: Config, M: Machine, r0: Option<int>, r1: Option<int>)
    requires AtHome(M) && FirstDue(M.agenda, M.now) < |M.agenda| && First(M) in M.agenda
    requires Calm(cfg, M.banks, M.agenda, r0, r1, M.now + 1)
    ensures forall e | e in Answer(cfg, M) && e.Note? ::
        (r0.Some? && e.d.u.slot == X0) || (r1.Some? && e.d.u.slot == X1)
  {
    hide First, FirstDue, Closes;
  }

  lemma CalmHandled(cfg: Config, M: Machine, r0: Option<int>, r1: Option<int>)
    requires AtHome(M) && Ahead(M.now, M.agenda) && FirstDue(M.agenda, M.now) < |M.agenda| && cfg.tRP >= 2
    requires Calm(cfg, M.banks, M.agenda, r0, r1, M.now + 1)
    ensures var R := Handle(cfg, M);
            && Calm(cfg, R.banks, R.agenda, r0, r1, M.now + 1) && Ahead(M.now, R.agenda)
            && OnlyNoted(M.banks, R.banks, r0, r1)
  {
    AgendaHandled(cfg, M);
    var agenda' := Handle(cfg, M).agenda;
    assert Handle(cfg, M).banks == BanksHandled(M);
    hide Handle, FirstDue, First, BanksHandled, Answer, Closes;
    OnlyNotedHandled(cfg, M, r0, r1);
    AnswerNoted(cfg, M, r0, r1);
    if r0.Some? { ClosesHandled(cfg, M, agenda', X0, r0.value); }
    if r1.Some? { ClosesHandled(cfg, M, agenda', X1, r1.value); }
  }

  lemma OnlyNotedNone(banks: BankTable, r0: Option<int>, r1: Option<int>)
    ensures OnlyNoted(banks, banks, r0, r1)
  {
  }

  lemma OnlyNotedChained(banks: BankTable, banks': BankTable, banks'': BankTable, r0: Option<int>, r1: Option<int>)
    requires OnlyNoted(banks, banks', r0, r1) && OnlyNoted(banks', banks'', r0, r1)
    ensures OnlyNoted(banks, banks'', r0, r1)
  {
  }

  lemma AllAhead(agenda: seq<Event>, now: int)
    requires FirstDue(agenda, now) == |agenda|
    ensures Ahead(now + 1, agenda)
  {
  }

  /** What handling the events of one tick leaves behind. */
  lemma {:induction false} DrainCalm(cfg: Config, M: Machine, r0: Option<int>, r1: Option<int>)
    requires AtHome(M) && Ahead(M.now, M.agenda) && cfg.tRP >= 2 && Calm(cfg, M.banks, M.agenda, r0, r1, M.now + 1)
    ensures var R := Drain(cfg, M);
            || R.stopped
            || (&& Calm(cfg, R.banks, R.agenda, r0, r1, M.now + 1) && Ahead(M.now + 1, R.agenda)
                && OnlyNoted(M.banks, R.banks, r0, r1))
    decreases ClosingBanks(M.banks), |M.agenda|
  {
    hide Handle, Calm, OnlyNoted, Ahead;
    if M.stopped {
    } else if FirstDue(M.agenda, M.now) == |M.agenda| {
      AllAhead(M.agenda, M.now);
      OnlyNotedNone(M.banks, r0, r1);
    } else {
      HandleShrinks(cfg, M);
      CalmHandled(cfg, M, r0, r1);
      DrainCalm(cfg, Handle(cfg, M), r0, r1);
      var R := Drain(cfg, Handle(cfg, M));
      if !R.stopped {
        OnlyNotedChained(M.banks, Handle(cfg, M).banks, R.banks, r0, r1);
      }
    }
  }

  // ---------------------------------------------------------------- reading notes once the rank was refreshed

  /** Every note on the agenda is for a bank of rank 0 whose last command was the refresh. */
  ghost predicate Flushing(banks: BankTable, agenda: seq<Event>) {
    forall e | e in agenda && e.Note? ::
      e.d.u.slot in banks && e.d.u.slot.rank == 0 && banks[e.d.u.slot].lastCommand.REFRESH?
  }

  ghost predicate RankIdle(banks: BankTable) {
    forall t | t in banks && t.rank == 0 :: banks[t].status.IDLE?
  }

  /** At most, banks of rank 0 became idle. */
  ghost predicate OnlyIdled(banks: BankTable, banks': BankTable) {
    && banks'.Keys == banks.Keys
    && forall t | t in banks :: banks'[t] == banks[t] || (t.rank == 0 && banks'[t] == banks[t].(status := IDLE))
  }

  ghost predicate NoteIsDue(now: int, agenda: seq<Event>) {
    exists e :: e in agenda && e.Note? && DueAt(e) <= now
  }

  lemma FlushNote(banks: BankTable, agenda: seq<Event>, agenda': seq<Event>, u: Update)
    requires Flushing(banks, agenda) && (forall f | f in agenda' :: f in agenda)
    requires u.slot in banks && u.slot.rank == 0 && banks[u.slot].lastCommand.REFRESH?
    ensures var banks' := Updated(banks, u);
            Flushing(banks', agenda') && OnlyIdled(banks, banks') && RankIdle(banks')
  {
  }

  lemma FlushHandled(cfg: Config, M: Machine)
    requires AtHome(M) && FirstDue(M.agenda, M.now) < |M.agenda| && Flushing(M.banks, M.agenda)
    ensures var R := Handle(cfg, M);
            && Flushing(R.banks, R.agenda) && OnlyIdled(M.banks, R.banks)
            && (forall f | f in R.agenda :: f in M.agenda)
            && (forall f | f in M.agenda && DueAt(f) > M.now :: f in R.agenda)
            && (NoteIsDue(M.now, M.agenda) || RankIdle(M.banks) ==> NoteIsDue(M.now, R.agenda) || RankIdle(R.banks))
  {
    AgendaHandled(cfg, M);
    var R := Handle(cfg, M);
    assert R.banks == BanksHandled(M) && Answer(cfg, M) == [];
    match First(M) {
      case Note(d) =>
        assert R.banks == Updated(M.banks, d.u);
        hide Handle, First, FirstDue, BanksHandled, Answer, Updated, RankIdle, OnlyIdled;
        FlushNote(M.banks, M.agenda, R.agenda, d.u);
      case Command(_) =>
        assert R.banks == M.banks;
        hide Handle, First, FirstDue, BanksHandled, Answer, RankIdle;
        if NoteIsDue(M.now, M.agenda) {
          var d :| d in M.agenda && d.Note? && DueAt(d) <= M.now;
          assert d in R.agenda;
        }
    }
  }

  lemma {:induction false} DrainFlush(cfg: Config, M: Machine)
    requires AtHome(M) && Flushing(M.banks, M.agenda)
    ensures var R := Drain(cfg, M);
            || R.stopped
            || (&& Flushing(R.banks, R.agenda) && OnlyIdled(M.banks, R.banks)
                && (forall f | f in R.agenda :: f in M.agenda)
                && (forall f | f in M.agenda && DueAt(f) > M.now :: f in R.agenda)
                && Ahead(M.now + 1, R.agenda)
                && (NoteIsDue(M.now, M.agenda) || RankIdle(M.banks) ==> RankIdle(R.banks)))
    decreases ClosingBanks(M.banks), |M.agenda|
  {
    hide Handle, Flushing;
    if M.stopped {
    } else if FirstDue(M.agenda, M.now) == |M.agenda| {
      AllAhead(M.agenda, M.now);
    } else {
      HandleShrinks(cfg, M);
      FlushHandled(cfg, M);
      hide OnlyIdled, RankIdle, NoteIsDue, Ahead, FirstDue;
      DrainFlush(cfg, Handle(cfg, M));
      var R := Drain(cfg, Handle(cfg, M));
      if !R.stopped {
        OnlyIdledChained(M.banks, Handle(cfg, M).banks, R.banks);
      }
    }
  }

  lemma OnlyIdledChained(banks: BankTable, banks': BankTable, banks'': BankTable)
    requires OnlyIdled(banks, banks') && OnlyIdled(banks', banks'')
    ensures OnlyIdled(banks, banks'')
  {
  }

  // ---------------------------------------------------------------- commands on their way

  /** Bank 0 is open for the rank, or will be when the last command has arrived. */
  ghost predicate Opened(ranks: BankTable, cs: seq<Flit>) {
    if cs == [] then X0 in ranks && ranks[X0].status.ROW_ACTIVE?
    else cs[|cs|-1].p.kind.ACTIVATE? && cs[|cs|-1].p.Target() == X0
  }

  lemma OpenedArrives(cfg: Config, ranks: BankTable, cs: seq<Flit>, now: int)
    requires |cs| > 0 && X0 in ranks && Opened(ranks, cs)
    ensures Opened(Arrive(cfg, ranks, cs[0].p, now), cs[1..])
  {
  }

  lemma CommandsHandled(cfg: Config, M: Machine)
    requires AtHome(M) && InStep(cfg, M.now, M.agenda) && FirstDue(M.agenda, M.now) < |M.agenda|
    ensures InStep(cfg, M.now, Handle(cfg, M).agenda)
    ensures First(M).Note? ==>
              Commands(Handle(cfg, M).agenda) == Commands(M.agenda) && Handle(cfg, M).ranks == M.ranks
    ensures First(M).Command? ==> Commands(M.agenda) == [First(M).f] + Commands(Handle(cfg, M).agenda)
  {
    var k := FirstDue(M.agenda, M.now);
    match M.agenda[k] {
      case Note(d) =>
        NoteHandled(cfg, M, d);
      case Command(_) =>
        FirstCommand(cfg, M.now, M.agenda);
        CommandRemoved(M.agenda, k);
        StillInStep(cfg, M.now, M.agenda, k, []);
    }
  }

  lemma OpenedHandled(cfg: Config, M: Machine)
    requires AtHome(M) && InStep(cfg, M.now, M.agenda) && FirstDue(M.agenda, M.now) < |M.agenda| && X0 in M.ranks
    requires Opened(M.ranks, Commands(M.agenda)) && !M.stopped
    ensures var R := Handle(cfg, M);
            R.stopped || (InStep(cfg, R.now, R.agenda) && X0 in R.ranks && Opened(R.ranks, Commands(R.agenda)))
  {
    CommandsHandled(cfg, M);
    var cs := Commands(M.agenda);
    hide Commands, InStep, FirstDue, Opened, Accepts, Arrive;
    if First(M).Command? {
      OpenedArrives(cfg, M.ranks, cs, M.now);
      assert cs[0] == First(M).f && cs[1..] == Commands(Handle(cfg, M).agenda);
    }
  }

  lemma {:induction false} DrainOpened(cfg: Config, M: Machine)
    requires AtHome(M) && InStep(cfg, M.now, M.agenda) && X0 in M.ranks && !M.stopped
    requires Opened(M.ranks, Commands(M.agenda))
    ensures var R := Drain(cfg, M); R.stopped || (X0 in R.ranks && Opened(R.ranks, Commands(R.agenda)))
    decreases ClosingBanks(M.banks), |M.agenda|
  {
    if FirstDue(M.agenda, M.now) < |M.agenda| {
      HandleShrinks(cfg, M);
      OpenedHandled(cfg, M);
      hide Handle, InStep, Opened, Commands, FirstDue;
      if !Handle(cfg, M).stopped {
        DrainOpened(cfg, Handle(cfg, M));
      }
    }
  }

  // ---------------------------------------------------------------- an open rank gets only refreshes

  /** Bank 0 is open for its rank, and nothing but refreshes is on the way to that rank. */
  ghost predicate OnlyRefreshes(ranks: BankTable, agenda: seq<Event>) {
    && X0 in ranks && ranks[X0].status.ROW_ACTIVE?
    && forall e | e in agenda && e.Command? :: e.f.p.rank != 0 || e.f.p.kind.REFRESH?
  }

  predicate Closed(b: BankState) {
    !b.status.ROW_ACTIVE? && !b.status.POWER_DOWN?
  }

  /** What is expected of the banks and the commands of rank 0 stays as it is. */
  ghost predicate Patient(banks: BankTable, agenda: seq<Event>, banks': BankTable, agenda': seq<Event>) {
    && banks'.Keys == banks.Keys
    && (forall t | t in banks && t.rank == 0 && Closed(banks[t]) ::
          Closed(banks'[t]) && banks'[t].nextActivate == banks[t].nextActivate)
    && (forall e | e in agenda && e.Command? && e.f.p.rank == 0 :: e in agenda')
  }

  lemma PatientChained(banks: BankTable, agenda: seq<Event>, banks1: BankTable, agenda1: seq<Event>,
                       banks2: BankTable, agenda2: seq<Event>)
    requires Patient(banks, agenda, banks1, agenda1) && Patient(banks1, agenda1, banks2, agenda2)
    ensures Patient(banks, agenda, banks2, agenda2)
  {
  }

  lemma PatientAlways(banks: BankTable, agenda: seq<Event>)
    ensures Patient(banks, agenda, banks, agenda)
  {
  }

  lemma PatientNote(M: Machine, R: Machine, d: Due)
    requires d.u.slot in M.banks && R.banks == Updated(M.banks, d.u) && R.ranks == M.ranks
    requires OnlyRefreshes(M.ranks, M.agenda)
    requires forall f | f in R.agenda && f.Command? :: f in M.agenda
    requires forall f | f in M.agenda && f.Command? :: f in R.agenda
    ensures OnlyRefreshes(R.ranks, R.agenda) && Patient(M.banks, M.agenda, R.banks, R.agenda)
  {
  }

  lemma PatientCommand(cfg: Config, M: Machine, R: Machine, p: Packet)
    requires Accepts(M.ranks, p, M.now) && (p.rank != 0 || p.kind.REFRESH?)
    requires R.banks == M.banks && R.ranks == Arrive(cfg, M.ranks, p, M.now)
    requires OnlyRefreshes(M.ranks, M.agenda)
    requires forall f | f in R.agenda :: f in M.agenda
    requires forall f | f in M.agenda && f.Command? && f.f.p != p :: f in R.agenda
    ensures OnlyRefreshes(R.ranks, R.agenda) && Patient(M.banks, M.agenda, R.banks, R.agenda)
  {
    assert p.rank == 0 ==> !BankAccepts(p, M.now, 0, M.ranks[X0]);
    hide BankAccepts;
  }

  lemma PatientHandled(cfg: Config, M: Machine)
    requires AtHome(M) && FirstDue(M.agenda, M.now) < |M.agenda| && !M.stopped && OnlyRefreshes(M.ranks, M.agenda)
    ensures var R := Handle(cfg, M);
            R.stopped || (OnlyRefreshes(R.ranks, R.agenda) && Patient(M.banks, M.agenda, R.banks, R.agenda))
  {
    AgendaHandled(cfg, M);
    var R := Handle(cfg, M);
    match First(M) {
      case Note(d) =>
        assert R.banks == Updated(M.banks, d.u) && R.ranks == M.ranks;
        assert forall f | f in Answer(cfg, M) :: f.Note?;
        hide Handle, FirstDue, Answer, OnlyRefreshes, Patient, Updated;
        PatientNote(M, R, d);
      case Command(c) =>
        assert Answer(cfg, M) == [];
        assert R.stopped ||
            (Accepts(M.ranks, c.p, M.now) && R.banks == M.banks && R.ranks == Arrive(cfg, M.ranks, c.p, M.now));
        assert c.p.rank != 0 || c.p.kind.REFRESH?;
        hide Handle, FirstDue, Answer, OnlyRefreshes, Patient, Accepts, Arrive;
        if !R.stopped {
          PatientCommand(cfg, M, R, c.p);
        }
    }
  }

  /** An open rank takes no refresh, so while the simulation goes on nothing that matters happens to rank 0. */
  lemma {:induction false} DrainPatient(cfg: Config, M: Machine)
    requires AtHome(M) && !M.stopped && OnlyRefreshes(M.ranks, M.agenda)
    ensures var R := Drain(cfg, M);
            R.stopped || (OnlyRefreshes(R.ranks, R.agenda) && Patient(M.banks, M.agenda, R.banks, R.agenda))
    decreases ClosingBanks(M.banks), |M.agenda|
  {
    if FirstDue(M.agenda, M.now) == |M.agenda| {
      PatientAlways(M.banks, M.agenda);
    } else {
      HandleShrinks(cfg, M);
      PatientHandled(cfg, M);
      hide Handle, OnlyRefreshes, Patient, FirstDue;
      var H := Handle(cfg, M);
      if !H.stopped {
        DrainPatient(cfg, H);
        var R := Drain(cfg, H);
        if !R.stopped {
          PatientChained(M.banks, M.agenda, H.banks, H.agenda, R.banks, R.agenda);
        }
      }
    }
  }
}

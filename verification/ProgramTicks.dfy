/** The program's own tick. Every run of such ticks is a run of the transition system. */
module ProgramTicks {
  // If the RAM ticks in this core cycle, perhaps a refresh request and one pop; then all events that are due, in the
  // order of insertion; then, if the RAM has ticked, at most one transaction enters its queue; then the clock goes on.

  import opened DramTypes
  import opened CommandQueueSpec
  import opened BankRules
  import opened DramSystem
  import opened SchedulerSafety
  import opened PendingNotes
  import ClockDivider
  import CommandQueues
  import Conservation
  import Controllers
  import DramSafety
  import RefreshRotation

  /** The events that concern the memory system: a note from the controller to itself, a command for a rank. */
  datatype Event = Note(d: Due) | Command(f: Flit)

  function DueAt(e: Event): int {
    match e
    case Note(d) => d.due
    case Command(f) => f.at
  }

  datatype Machine = Machine(
    now: nat,
    q: QState,
    banks: BankTable,
    ranks: BankTable,
    agenda: seq<Event>,     // in the order of insertion
    pend: seq<Packet>,
    stopped: bool)

  /** The rates of the RAM and of the cores, and the refresh period in RAM ticks. */
  datatype Clocks = Clocks(ram: nat, core: nat, refresh: real)

  function Start(cfg: Config): Machine {
    var all := CommandQueues.AllSlots(cfg);
    var table := map s | s in all :: FRESH_BANK;
    Machine(0, CommandQueues.Initial(cfg), table, table, [], [], false)
  }

  // ---------------------------------------------------------------- events

  function NoteOf(e: Event): seq<Due> {
    if e.Note? then [e.d] else []
  }

  function CommandOf(e: Event): seq<Flit> {
    if e.Command? then [e.f] else []
  }

  function Notes(agenda: seq<Event>): seq<Due> {
    if agenda == [] then [] else NoteOf(agenda[0]) + Notes(agenda[1..])
  }

  function Commands(agenda: seq<Event>): seq<Flit> {
    if agenda == [] then [] else CommandOf(agenda[0]) + Commands(agenda[1..])
  }

  function Posted(us: seq<Update>, now: int): seq<Event> {
    seq(|us|, i requires 0 <= i < |us| => Note(DueOf(us[i], now)))
  }

  /** The first event that is due; the length if there is none. */
  function FirstDue(agenda: seq<Event>, now: int): (k: nat)
    ensures k <= |agenda|
    ensures k < |agenda| ==> DueAt(agenda[k]) <= now
    ensures forall j | 0 <= j < k :: DueAt(agenda[j]) > now
  {
    if agenda == [] || DueAt(agenda[0]) <= now then 0 else 1 + FirstDue(agenda[1..], now)
  }

  /** Every note is about a bank that exists. */
  ghost predicate AtHome(M: Machine) {
    forall e | e in M.agenda && e.Note? :: e.d.u.slot in M.banks
  }

  function Without(agenda: seq<Event>, k: nat): seq<Event>
    requires k < |agenda|
  {
    agenda[..k] + agenda[k+1..]
  }

  /** Handles the first event that is due. */
  ghost function Handle(cfg: Config, M: Machine): (R: Machine)
    requires AtHome(M) && FirstDue(M.agenda, M.now) < |M.agenda|
    ensures AtHome(R) && R.banks.Keys == M.banks.Keys && R.ranks.Keys == M.ranks.Keys
    ensures R.now == M.now && R.q == M.q && R.pend == M.pend
  {
    var k := FirstDue(M.agenda, M.now);
    var rest := Without(M.agenda, k);
    match M.agenda[k]
    case Note(d) =>
      assert M.agenda[k] in M.agenda;
      M.(banks := Updated(M.banks, d.u), agenda := rest + Posted(FollowUps(cfg, M.banks, d.u), M.now))
    case Command(f) =>
      if Accepts(M.ranks, f.p, M.now) then M.(agenda := rest, ranks := Arrive(cfg, M.ranks, f.p, M.now))
      else M.(agenda := rest, stopped := true)
  }

  function ClosingBanks(banks: BankTable): set<Slot> {
    set t | t in banks && AutoPrecharging(banks[t])
  }

  /** Only a bank that closes itself makes its note post another one, and it does so once. */
  lemma HandleShrinks(cfg: Config, M: Machine)
    requires AtHome(M) && FirstDue(M.agenda, M.now) < |M.agenda|
    ensures ClosingBanks(Handle(cfg, M).banks) <= ClosingBanks(M.banks)
    ensures ClosingBanks(Handle(cfg, M).banks) == ClosingBanks(M.banks) ==> |Handle(cfg, M).agenda| < |M.agenda|
  {
    var e := M.agenda[FirstDue(M.agenda, M.now)];
    assert e in M.agenda;
    if e.Note? && AutoPrecharging(M.banks[e.d.u.slot]) {
      assert e.d.u.slot in ClosingBanks(M.banks) && e.d.u.slot !in ClosingBanks(Handle(cfg, M).banks);
    }
  }

  /** Handles everything that is due, including what the handlers add. */
  ghost function Drain(cfg: Config, M: Machine): (R: Machine)
    requires AtHome(M)
    ensures AtHome(R) && R.banks.Keys == M.banks.Keys && R.ranks.Keys == M.ranks.Keys
    ensures R.now == M.now && R.q == M.q && R.pend == M.pend
    ensures R.stopped || FirstDue(R.agenda, R.now) == |R.agenda|
    decreases ClosingBanks(M.banks), |M.agenda|
  {
    if M.stopped || FirstDue(M.agenda, M.now) == |M.agenda| then M
    else
      HandleShrinks(cfg, M);
      Drain(cfg, Handle(cfg, M))
  }

  // ---------------------------------------------------------------- the tick

  ghost predicate Ready(cfg: Config, M: Machine) {
    && Fits(cfg, M.banks, M.q)
    && Covers(cfg, M.ranks)
    && AtHome(M)
    && forall p | p in M.pend :: InRange(cfg, p.Target()) && Typed(cfg, p)
  }

  /** What the rest of the simulator sends: transactions for existing banks. */
  ghost predicate Admissible(cfg: Config, arrivals: seq<Packet>) {
    forall p | p in arrivals :: InRange(cfg, p.Target()) && Typed(cfg, p)
  }

  ghost predicate RankExists(cfg: Config, ask: Option<nat>) {
    ask.Some? ==> ask.value < cfg.numRanks
  }

  function Asked(s: QState, ask: Option<nat>): QState {
    if ask.Some? then s.(refreshWaiting := true, refreshRank := ask.value) else s
  }

  /** The refresh request, the pop and, if there is a command, its state update and its events. */
  function RamCycle(cfg: Config, M: Machine, ask: Option<nat>): Machine
    requires Fits(cfg, M.banks, Asked(M.q, ask))
  {
    var (r, q') := Pop(cfg, M.banks, Asked(M.q, ask), M.now);
    match r
    case None => M.(q := q')
    case Some(p) =>
      M.(q := q', banks := Issue(cfg, M.banks, p, M.now),
         agenda := M.agenda + Posted(IssueUpdates(cfg, p, M.now), M.now) + [Command(Flit(p, M.now + cfg.tCMD))])
  }

  lemma AskedFits(cfg: Config, banks: BankTable, s: QState, ask: Option<nat>)
    requires Fits(cfg, banks, s) && RankExists(cfg, ask)
    ensures Fits(cfg, banks, Asked(s, ask))
  {
    hide Homed;
  }

  /** What is posted with a command is about the command's bank. */
  lemma PostedAtHome(cfg: Config, M: Machine, p: Packet)
    requires AtHome(M) && p.Target() in M.banks
    ensures Issue(cfg, M.banks, p, M.now).Keys == M.banks.Keys
    ensures var events := Posted(IssueUpdates(cfg, p, M.now), M.now) + [Command(Flit(p, M.now + cfg.tCMD))];
            forall e | e in M.agenda + events && e.Note? :: e.d.u.slot in M.banks
  {
  }

  lemma CommandReady(cfg: Config, M: Machine, s: QState, p: Packet)
    requires Ready(cfg, M) && Fits(cfg, M.banks, s) && InRange(cfg, p.Target())
    ensures Ready(cfg, M.(q := s, banks := Issue(cfg, M.banks, p, M.now),
                          agenda := M.agenda + Posted(IssueUpdates(cfg, p, M.now), M.now) +
                                    [Command(Flit(p, M.now + cfg.tCMD))]))
  {
    PostedAtHome(cfg, M, p);
    Controllers.RefitTable(cfg, s, M.banks, Issue(cfg, M.banks, p, M.now));
    hide Fits, Issue, IssueUpdates;
  }

  lemma RamCycleReady(cfg: Config, M: Machine, ask: Option<nat>)
    requires Ready(cfg, M) && RankExists(cfg, ask)
    ensures Fits(cfg, M.banks, Asked(M.q, ask)) && Ready(cfg, RamCycle(cfg, M, ask))
  {
    hide Pop, Issue, IssueUpdates, Homed, Posted;
    AskedFits(cfg, M.banks, M.q, ask);
    Conservation.PopFits(cfg, M.banks, Asked(M.q, ask), M.now);
    Controllers.PoppedShape(cfg, M.banks, Asked(M.q, ask), M.now);
    hide Fits;
    match Pop(cfg, M.banks, Asked(M.q, ask), M.now).0 {
      case Some(p) => CommandReady(cfg, M, Pop(cfg, M.banks, Asked(M.q, ask), M.now).1, p);
      case None =>
    }
  }

  /** At most one transaction enters. */
  function Enqueue(cfg: Config, M: Machine): (R: Machine)
    requires Fits(cfg, M.banks, M.q) && forall p | p in M.pend :: InRange(cfg, p.Target())
    ensures R == M.(q := R.q, pend := R.pend)
  {
    var k := Controllers.FirstWithRoom(cfg, M.q, M.pend, 0);
    if k == |M.pend| then M else M.(q := EnqueuePair(cfg, M.q, M.pend[k]), pend := M.pend[1..])
  }

  ghost function Tick(cfg: Config, M: Machine, ram: bool, ask: Option<nat>, arrivals: seq<Packet>): Machine
    requires Ready(cfg, M) && RankExists(cfg, ask) && Admissible(cfg, arrivals)
  {
    if M.stopped then M
    else
      RamCycleReady(cfg, M, ask);
      var M1 := if ram then RamCycle(cfg, M, ask) else M;
      var M2 := Drain(cfg, M1);
      if M2.stopped then M2
      else
        var M3 := M2.(pend := M2.pend + arrivals);
        var M4 := if ram then Enqueue(cfg, M3) else M3;
        M4.(now := M4.now + 1)
  }

  /** Does the RAM tick in core cycle n? */
  function RamTicks(clocks: Clocks, n: nat): bool {
    ClockDivider.After(clocks.ram, clocks.core, n + 1).ticks > ClockDivider.After(clocks.ram, clocks.core, n).ticks
  }

  /** The rank, if any, for which the refresh counters ask in the next RAM tick from core cycle n on. */
  function AskAt(cfg: Config, clocks: Clocks, n: nat): (ask: Option<nat>)
    requires cfg.Valid()
    ensures RankExists(cfg, ask)
  {
    var rot := RefreshRotation.At(clocks.refresh, cfg.numRanks, ClockDivider.After(clocks.ram, clocks.core, n).ticks);
    if RefreshRotation.Requests(rot) then Some(rot.cursor) else None
  }

  ghost predicate Ticks(cfg: Config, clocks: Clocks, M: Machine, M': Machine)
    requires cfg.Valid()
  {
    exists arrivals ::
      && Ready(cfg, M) && Admissible(cfg, arrivals)
      && M' == Tick(cfg, M, RamTicks(clocks, M.now), AskAt(cfg, clocks, M.now), arrivals)
  }

  ghost predicate TickAt(cfg: Config, clocks: Clocks, run: seq<Machine>, n: nat)
    requires cfg.Valid() && n + 1 < |run|
  {
    Ticks(cfg, clocks, run[n], run[n+1])
  }

  /** The states between the core cycles of a simulation with these clocks. */
  ghost predicate IsProgramRun(cfg: Config, clocks: Clocks, run: seq<Machine>)
    requires cfg.Valid()
  {
    && |run| > 0
    && run[0] == Start(cfg)
    && forall n | 0 <= n < |run| - 1 :: TickAt(cfg, clocks, run, n)
  }

  function Final(run: seq<Machine>): Machine
    requires |run| > 0
  {
    run[|run|-1]
  }
}

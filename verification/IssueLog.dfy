module IssueLog {
  // The log of issued commands obeys the timing rules in every run, and nothing is held back longer than they demand.

  import opened DramTypes
  import opened CommandQueueSpec
  import opened BankRules
  import opened DramSystem
  import opened SchedulerSafety
  import opened TimingRules
  import Conservation
  import QueueShape

  /** The command that pop returned between two states of a run. */
  function IssuedBetween(S: Sys, S': Sys): Option<Packet> {
    if |S'.calls| > |S.calls| then S'.calls[|S.calls|] else None
  }

  function OpenBanks(banks: BankTable): set<Slot> {
    set t | t in banks && banks[t].status.ROW_ACTIVE?
  }

  function Logged(log: seq<Cmd>, S: Sys, S': Sys): seq<Cmd> {
    match IssuedBetween(S, S')
    case None => log
    case Some(p) => log + [Cmd(p, S.now, OpenBanks(S.banks))]
  }

  /** The commands that were issued in a run, with their times. */
  function Log(run: seq<Sys>): seq<Cmd>
    requires |run| > 0
  {
    if |run| == 1 then [] else Logged(Log(run[..|run|-1]), run[|run|-2], run[|run|-1])
  }

  /** What the rules demand of a command, by the log alone. */
  ghost predicate Permitted(cfg: Config, log: seq<Cmd>, p: Packet, x: int) {
    var t := p.Target();
    match p.kind
    case ACTIVATE => WaitsOver(cfg, AtController, log, ToActivate, t, x)
    case READ | READ_P => WaitsOver(cfg, AtController, log, ToRead, t, x)
    case WRITE | WRITE_P => WaitsOver(cfg, AtController, log, ToWrite, t, x)
    case PRECHARGE => WaitsOver(cfg, AtController, log, ToPrecharge, t, x)
    case REFRESH =>
      forall b: nat | b < cfg.numBanks :: WaitsOver(cfg, AtController, log, ToActivate, Slot(p.rank, b), x)
    case DATA => false
  }

  // ---------------------------------------------------------------- what pop looks at

  ghost predicate OnTime(banks: BankTable, p: Packet, now: int) {
    && p.Target() in banks
    && var bs := banks[p.Target()];
       match p.kind
       case ACTIVATE => (bs.status.IDLE? || bs.status.REFRESHING?) && bs.nextActivate <= now
       case READ | READ_P => bs.status.ROW_ACTIVE? && bs.nextRead <= now && p.row == bs.openRow
       case WRITE | WRITE_P => bs.status.ROW_ACTIVE? && bs.nextWrite <= now && p.row == bs.openRow
       case PRECHARGE => bs.status.ROW_ACTIVE? && bs.nextPrecharge <= now
       case REFRESH =>
         && p.bank == 0
         && forall t | t in banks && t.rank == p.rank :: !banks[t].status.ROW_ACTIVE? && banks[t].nextActivate <= now
       case DATA => false
  }

  lemma IssuableOnTime(v: View, p: Packet)
    requires v.Fits() && InRange(v.cfg, p.Target()) && v.IsIssuable(p)
    ensures OnTime(v.banks, p, v.now)
  {
  }

  /** A queued packet may be issued exactly if it is on time, and its window or its row has room for it. */
  lemma IssuableMeaning(v: View, p: Packet)
    requires v.Fits() && InRange(v.cfg, p.Target()) && (p.kind.ACTIVATE? || p.IsColumn())
    ensures v.IsIssuable(p) <==>
            && OnTime(v.banks, p, v.now)
            && (p.kind.ACTIVATE? ==> |v.faw[p.rank]| < 4)
            && (p.IsColumn() ==> v.hits[p.Target()] < v.cfg.totalRowAccesses)
  {
  }

  lemma RefreshOnTime(v: View, s: QState)
    requires v.Fits() && Fits(v.cfg, v.banks, s)
    requires Applicable(v.cfg, s, RefreshChoice(v, s)) && RefreshChoice(v, s) != Nothing
    ensures OnTime(v.banks, Chosen(v.cfg, s, RefreshChoice(v, s)).value, v.now)
  {
    match RefreshChoice(v, s)
    case Take(key, at, _) =>
      assert InRange(v.cfg, s.queues[key][at].Target());
      IssuableOnTime(v, s.queues[key][at]);
    case Close(t) =>
    case Refresh(r) =>
      forall t | t in v.banks && t.rank == r
        ensures !v.banks[t].status.ROW_ACTIVE? && v.banks[t].nextActivate <= v.now
      {
        assert !v.Busy(Slot(r, t.bank)) && t == Slot(r, t.bank);
      }
  }

  lemma ServedOnTime(v: View, s: QState, x: Slot)
    requires v.Fits() && Fits(v.cfg, v.banks, s) && InRange(v.cfg, x) && Offers(v, s, x)
    ensures var c := Served(v, s, x);
            c.key in s.queues && c.at < |s.queues[c.key]| && OnTime(v.banks, s.queues[c.key][c.at], v.now)
  {
    var c := Served(v, s, x);
    var q := s.queues[c.key];
    assert Homed(v.cfg, c.key, q);
    assert v.Servable(q, c.at);
    IssuableOnTime(v, q[c.at]);
  }

  /** Whatever pop returns, the controller's table allows it now. */
  lemma PopOnTime(cfg: Config, banks: BankTable, s: QState, now: int)
    requires Fits(cfg, banks, s)
    ensures match Pop(cfg, banks, s, now).0
            case None => true
            case Some(p) => OnTime(banks, p, now)
  {
    hide OnTime, Cursors, TickWindow;
    var s1 := TickWindows(s);
    var v := ViewOf(cfg, banks, s1, now);
    ChooseApplicable(v, s1);
    if RefreshChoice(v, s1) != Nothing {
      RefreshOnTime(v, s1);
    } else {
      hide RefreshChoice;
      match ServeChoice(v, s1) {
        case Some(x) => ServedOnTime(v, s1, x);
        case None => CloseOnTime(v, s1);
      }
    }
  }

  lemma CloseOnTime(v: View, s: QState)
    requires v.Fits() && Fits(v.cfg, v.banks, s)
    ensures match CloseChoice(v, s)
            case None => true
            case Some(t) => OnTime(v.banks, Packet(0, 0, t.bank, t.rank, 0, PRECHARGE, 0), v.now)
  {
  }

  // ---------------------------------------------------------------- the controller's table

  /** The bank may be read and written. */
  predicate Accessible(bs: BankState) {
    bs.status.ROW_ACTIVE? && !AutoPrecharging(bs)
  }

  /** From this time on the column times of the bank say what the rules demand. */
  function From(bs: BankState, now: int): int {
    if Accessible(bs) then now else Max(now, bs.nextActivate)
  }

  ghost predicate TimeExact(cfg: Config, log: seq<Cmd>, w: Want, t: Slot, time: int, x: int) {
    time <= x <==> WaitsOver(cfg, AtController, log, w, t, x)
  }

  /** The time is never earlier than the rules demand, and not later either, from the given time on. */
  ghost predicate TimeExactFrom(cfg: Config, log: seq<Cmd>, w: Want, t: Slot, time: int, from: int, x: int) {
    && (time <= x ==> WaitsOver(cfg, AtController, log, w, t, x))
    && (WaitsOver(cfg, AtController, log, w, t, x) && from <= x ==> time <= x)
  }

  ghost predicate BankExact(cfg: Config, log: seq<Cmd>, now: int, t: Slot, bs: BankState) {
    && now >= 0
    && (AutoPrecharging(bs) ==> cfg.rowBufferPolicy.ClosePage?)
    && (forall x | x >= 0 :: TimeExact(cfg, log, ToActivate, t, bs.nextActivate, x))
    && (forall x | x >= 0 :: TimeExact(cfg, log, ToPrecharge, t, bs.nextPrecharge, x))
    && (forall x :: TimeExactFrom(cfg, log, ToRead, t, bs.nextRead, From(bs, now), x))
    && (forall x :: TimeExactFrom(cfg, log, ToWrite, t, bs.nextWrite, From(bs, now), x))
  }

  ghost predicate TableExact(cfg: Config, log: seq<Cmd>, now: int, banks: BankTable) {
    forall t | t in banks :: BankExact(cfg, log, now, t, banks[t])
  }

  /** What the command that is issued tells about bank t. */
  ghost predicate Suits(cfg: Config, p: Packet, now: int, t: Slot, bs: BankState) {
    && (p.kind.ACTIVATE? && p.Target() == t ==> !bs.status.ROW_ACTIVE? && bs.nextActivate <= now)
    && (p.kind.REFRESH? && p.rank == t.rank ==> !bs.status.ROW_ACTIVE? && bs.nextActivate <= now)
    && (p.IsColumn() ==> Typed(cfg, p))
    && (p.IsColumn() && p.Target() == t ==> bs.status.ROW_ACTIVE?)
  }

  lemma ActivateExact(cfg: Config, log: seq<Cmd>, c: Cmd, t: Slot, bs: BankState, x: int)
    requires BankExact(cfg, log, c.at, t, bs) && Suits(cfg, c.p, c.at, t, bs) && x >= 0
    ensures TimeExact(cfg, log + [c], ToActivate, t, IssueBank(cfg, c.p, c.at, t, bs).nextActivate, x)
    ensures TimeExact(cfg, log + [c], ToPrecharge, t, IssueBank(cfg, c.p, c.at, t, bs).nextPrecharge, x)
  {
    assert TimeExact(cfg, log, ToActivate, t, bs.nextActivate, x);
    assert TimeExact(cfg, log, ToPrecharge, t, bs.nextPrecharge, x);
    WaitsAppend(cfg, AtController, log, c, ToActivate, t, x);
    WaitsAppend(cfg, AtController, log, c, ToPrecharge, t, x);
    hide WaitsOver, BankExact;
  }

  lemma ReadExact(cfg: Config, log: seq<Cmd>, c: Cmd, t: Slot, bs: BankState, x: int)
    requires BankExact(cfg, log, c.at, t, bs) && Suits(cfg, c.p, c.at, t, bs)
    requires t in c.open <==> bs.status.ROW_ACTIVE?
    ensures var bs' := IssueBank(cfg, c.p, c.at, t, bs);
            TimeExactFrom(cfg, log + [c], ToRead, t, bs'.nextRead, From(bs', c.at), x)
  {
    assert TimeExactFrom(cfg, log, ToRead, t, bs.nextRead, From(bs, c.at), x);
    WaitsAppend(cfg, AtController, log, c, ToRead, t, x);
    hide WaitsOver, BankExact;
  }

  lemma WriteExact(cfg: Config, log: seq<Cmd>, c: Cmd, t: Slot, bs: BankState, x: int)
    requires BankExact(cfg, log, c.at, t, bs) && Suits(cfg, c.p, c.at, t, bs)
    requires t in c.open <==> bs.status.ROW_ACTIVE?
    ensures var bs' := IssueBank(cfg, c.p, c.at, t, bs);
            TimeExactFrom(cfg, log + [c], ToWrite, t, bs'.nextWrite, From(bs', c.at), x)
  {
    assert TimeExactFrom(cfg, log, ToWrite, t, bs.nextWrite, From(bs, c.at), x);
    WaitsAppend(cfg, AtController, log, c, ToWrite, t, x);
    hide WaitsOver, BankExact;
  }

  lemma IssueExact(cfg: Config, log: seq<Cmd>, banks: BankTable, p: Packet, now: int)
    requires TableExact(cfg, log, now, banks) && OnTime(banks, p, now) && (p.IsColumn() ==> Typed(cfg, p))
    ensures TableExact(cfg, log + [Cmd(p, now, OpenBanks(banks))], now, Issue(cfg, banks, p, now))
  {
    var c := Cmd(p, now, OpenBanks(banks));
    forall t | t in banks
      ensures BankExact(cfg, log + [c], now, t, IssueBank(cfg, p, now, t, banks[t]))
    {
      assert BankExact(cfg, log, now, t, banks[t]);
      assert Suits(cfg, p, now, t, banks[t]);
      assert AutoPrecharging(IssueBank(cfg, p, now, t, banks[t])) ==> cfg.rowBufferPolicy.ClosePage?;
      hide OnTime, Suits, TimeExact, TimeExactFrom, IssueBank, TableExact, From;
      forall x | x >= 0
        ensures TimeExact(cfg, log + [c], ToActivate, t, IssueBank(cfg, p, now, t, banks[t]).nextActivate, x)
        ensures TimeExact(cfg, log + [c], ToPrecharge, t, IssueBank(cfg, p, now, t, banks[t]).nextPrecharge, x)
      {
        ActivateExact(cfg, log, c, t, banks[t], x);
      }
      forall x
        ensures var bs' := IssueBank(cfg, p, now, t, banks[t]);
                && TimeExactFrom(cfg, log + [c], ToRead, t, bs'.nextRead, From(bs', now), x)
                && TimeExactFrom(cfg, log + [c], ToWrite, t, bs'.nextWrite, From(bs', now), x)
      {
        ReadExact(cfg, log, c, t, banks[t], x);
        WriteExact(cfg, log, c, t, banks[t], x);
      }
    }
  }

  /** Reading a note moves no time and makes no bank accessible; nor does the clock. */
  lemma LaterExact(cfg: Config, log: seq<Cmd>, now: int, now': int, t: Slot, bs: BankState, bs': BankState)
    requires BankExact(cfg, log, now, t, bs) && now <= now'
    requires bs' == bs.(status := bs'.status, lastCommand := bs'.lastCommand)
    requires (Accessible(bs') ==> Accessible(bs)) && (AutoPrecharging(bs') ==> AutoPrecharging(bs))
    ensures BankExact(cfg, log, now', t, bs')
  {
    hide WaitsOver;
    forall x
      ensures TimeExactFrom(cfg, log, ToRead, t, bs'.nextRead, From(bs', now'), x)
      ensures TimeExactFrom(cfg, log, ToWrite, t, bs'.nextWrite, From(bs', now'), x)
    {
      assert TimeExactFrom(cfg, log, ToRead, t, bs.nextRead, From(bs, now), x);
      assert TimeExactFrom(cfg, log, ToWrite, t, bs.nextWrite, From(bs, now), x);
    }
  }

  lemma NoteExact(cfg: Config, log: seq<Cmd>, now: int, banks: BankTable, u: Update)
    requires TableExact(cfg, log, now, banks) && u.slot in banks
    ensures TableExact(cfg, log, now, Updated(banks, u))
  {
    forall t | t in banks
      ensures BankExact(cfg, log, now, t, Updated(banks, u)[t])
    {
      assert BankExact(cfg, log, now, t, banks[t]);
      var bs, bs' := banks[t], Updated(banks, u)[t];
      assert bs' == bs.(status := bs'.status, lastCommand := bs'.lastCommand);
      assert (Accessible(bs') ==> Accessible(bs)) && (AutoPrecharging(bs') ==> AutoPrecharging(bs));
      hide BankExact, Updated;
      LaterExact(cfg, log, now, now, t, bs, bs');
    }
  }

  lemma ClockExact(cfg: Config, log: seq<Cmd>, now: int, now': int, banks: BankTable)
    requires TableExact(cfg, log, now, banks) && now <= now'
    ensures TableExact(cfg, log, now', banks)
  {
    forall t | t in banks
      ensures BankExact(cfg, log, now', t, banks[t])
    {
      assert BankExact(cfg, log, now, t, banks[t]);
      hide BankExact;
      LaterExact(cfg, log, now, now', t, banks[t], banks[t]);
    }
  }

  // ---------------------------------------------------------------- runs

  lemma PopTyped(cfg: Config, banks: BankTable, s: QState, now: int)
    requires Fits(cfg, banks, s) && Conservation.AllPaired(cfg, s)
    ensures match Pop(cfg, banks, s, now).0
            case None => true
            case Some(p) => p.IsColumn() ==> Typed(cfg, p)
  {
    hide Pop, Choose, Typed, Effect, QueueShape.Partnered, Homed;
    Conservation.PopFits(cfg, banks, s, now);
    var s1 := TickWindows(s);
    var c := Choose(ViewOf(cfg, banks, s1, now), s1);
    hide Fits;
    if c.Take? {
      assert QueueShape.Paired(cfg, s.queues[c.key]);
    }
  }

  lemma CycleExact(cfg: Config, log: seq<Cmd>, S: Sys)
    requires Shaped(cfg, S) && Conservation.AllPaired(cfg, S.q) && TableExact(cfg, log, S.now, S.banks)
    ensures var S' := CycleStep(cfg, S);
            && TableExact(cfg, Logged(log, S, S'), S'.now, S'.banks)
            && match IssuedBetween(S, S')
               case None => true
               case Some(p) => OnTime(S.banks, p, S.now)
  {
    PopOnTime(cfg, S.banks, S.q, S.now);
    PopTyped(cfg, S.banks, S.q, S.now);
    hide Pop, Fits, TableExact, OnTime, Issue, Typed;
    match Pop(cfg, S.banks, S.q, S.now).0 {
      case None =>
      case Some(p) => IssueExact(cfg, log, S.banks, p, S.now);
    }
  }

  /** In one step the table stays exact, and what is issued is on time. */
  ghost predicate StepFine(cfg: Config, log: seq<Cmd>, S: Sys, S': Sys) {
    && TableExact(cfg, Logged(log, S, S'), S'.now, S'.banks)
    && match IssuedBetween(S, S')
       case None => true
       case Some(p) => OnTime(S.banks, p, S.now)
  }

  lemma StepExact(cfg: Config, log: seq<Cmd>, S: Sys, a: Action)
    requires Shaped(cfg, S) && Conservation.AllPaired(cfg, S.q) && TableExact(cfg, log, S.now, S.banks)
    ensures StepFine(cfg, log, S, Do(cfg, S, a))
  {
    hide TableExact, Fits, OnTime, Updated, CycleStep, Post, FollowUps, Accepts, Arrive, Conservation.AllPaired;
    if Enabled(cfg, S, a) {
      match a {
        case Cycle => CycleExact(cfg, log, S);
        case DeliverUpdate(d) => NoteExact(cfg, log, S.now, S.banks, d.u);
        case Advance(to) => ClockExact(cfg, log, S.now, to, S.banks);
        case _ =>
      }
    }
  }

  lemma NextExact(cfg: Config, log: seq<Cmd>, S: Sys, S': Sys)
    requires Conservation.Kept(cfg, S) && TableExact(cfg, log, S.now, S.banks) && Next(cfg, S, S')
    ensures StepFine(cfg, log, S, S')
  {
    var a :| Step(cfg, S, a, S');
    hide StepFine, TableExact;
    StepExact(cfg, log, S, a);
  }

  /** Each command was permitted by the log before it. */
  ghost predicate AllPermitted(cfg: Config, log: seq<Cmd>) {
    forall k | 0 <= k < |log| :: Permitted(cfg, log[..k], log[k].p, log[k].at)
  }

  lemma OnTimePermitted(cfg: Config, log: seq<Cmd>, banks: BankTable, p: Packet, now: int)
    requires TableExact(cfg, log, now, banks) && OnTime(banks, p, now) && Covers(cfg, banks)
    ensures Permitted(cfg, log, p, now)
  {
    var t := p.Target();
    assert BankExact(cfg, log, now, t, banks[t]);
    assert TimeExact(cfg, log, ToActivate, t, banks[t].nextActivate, now);
    assert TimeExact(cfg, log, ToPrecharge, t, banks[t].nextPrecharge, now);
    assert TimeExactFrom(cfg, log, ToRead, t, banks[t].nextRead, From(banks[t], now), now);
    assert TimeExactFrom(cfg, log, ToWrite, t, banks[t].nextWrite, From(banks[t], now), now);
    if p.kind.REFRESH? {
      forall b: nat | b < cfg.numBanks
        ensures WaitsOver(cfg, AtController, log, ToActivate, Slot(p.rank, b), now)
      {
        var u := Slot(p.rank, b);
        assert InRange(cfg, u) && BankExact(cfg, log, now, u, banks[u]);
        assert TimeExact(cfg, log, ToActivate, u, banks[u].nextActivate, now);
      }
    }
  }

  lemma PermittedAppend(cfg: Config, log: seq<Cmd>, c: Cmd)
    requires AllPermitted(cfg, log) && Permitted(cfg, log, c.p, c.at)
    ensures AllPermitted(cfg, log + [c])
  {
    var log' := log + [c];
    hide Permitted;
    forall k | 0 <= k < |log'|
      ensures Permitted(cfg, log'[..k], log'[k].p, log'[k].at)
    {
      if k < |log| {
        assert log'[..k] == log[..k] && log'[k] == log[k];
      } else {
        assert log'[..k] == log && log'[k] == c;
      }
    }
  }

  ghost predicate LogExact(cfg: Config, log: seq<Cmd>, S: Sys) {
    TableExact(cfg, log, S.now, S.banks) && AllPermitted(cfg, log)
  }

  lemma LogStep(cfg: Config, log: seq<Cmd>, S: Sys, S': Sys)
    requires Conservation.Kept(cfg, S) && LogExact(cfg, log, S) && Next(cfg, S, S')
    ensures LogExact(cfg, Logged(log, S, S'), S')
  {
    NextExact(cfg, log, S, S');
    assert Covers(cfg, S.banks);
    hide TableExact, AllPermitted, Conservation.Kept, OnTime, Next;
    if IssuedBetween(S, S').Some? {
      var p := IssuedBetween(S, S').value;
      OnTimePermitted(cfg, log, S.banks, p, S.now);
      PermittedAppend(cfg, log, Cmd(p, S.now, OpenBanks(S.banks)));
    }
  }

  lemma LogLast(run: seq<Sys>, n: nat)
    requires n + 2 == |run|
    ensures Log(run) == Logged(Log(run[..n+1]), run[n], run[n+1])
  {
    assert run[..|run|-1] == run[..n+1];
  }

  lemma {:induction false} RunExact(cfg: Config, run: seq<Sys>)
    requires cfg.Valid() && IsRun(cfg, run)
    ensures LogExact(cfg, Log(run), Last(run))
  {
    hide LogExact, Conservation.Kept, Next, Logged, StepAt;
    if |run| == 1 {
      StartExact(cfg);
    } else {
      var n := |run| - 2;
      LogLast(run, n);
      hide Log;
      RunPrefix(cfg, run, n);
      RunExact(cfg, run[..n+1]);
      Conservation.RunKept(cfg, run[..n+1]);
      LogStep(cfg, Log(run[..n+1]), run[n], run[n+1]);
    }
  }

  lemma StartExact(cfg: Config)
    ensures LogExact(cfg, [], Init(cfg))
  {
  }

  // ---------------------------------------------------------------- results

  /**
   In every run, whatever the delays: each issued command has waited for all earlier ones as long as the rules demand,
   for those of its bank, of its rank and, on the data bus, of the other ranks.
   */
  lemma RulesObeyed(cfg: Config, run: seq<Sys>, k: nat)
    requires cfg.Valid() && IsRun(cfg, run) && k < |Log(run)|
    ensures Permitted(cfg, Log(run)[..k], Log(run)[k].p, Log(run)[k].at)
  {
    RunExact(cfg, run);
  }

  /** And in every state the controller's table holds nothing back that the rules do not hold back. */
  lemma NoLongerThanDemanded(cfg: Config, run: seq<Sys>, t: Slot)
    requires cfg.Valid() && IsRun(cfg, run) && InRange(cfg, t)
    ensures t in Last(run).banks
    ensures var bs, now, log := Last(run).banks[t], Last(run).now, Log(run);
            && (bs.nextActivate <= now <==> WaitsOver(cfg, AtController, log, ToActivate, t, now))
            && (bs.nextPrecharge <= now <==> WaitsOver(cfg, AtController, log, ToPrecharge, t, now))
            && (Accessible(bs) ==>
                  && (bs.nextRead <= now <==> WaitsOver(cfg, AtController, log, ToRead, t, now))
                  && (bs.nextWrite <= now <==> WaitsOver(cfg, AtController, log, ToWrite, t, now)))
  {
    RunExact(cfg, run);
    Conservation.RunKept(cfg, run);
    hide WaitsOver, Log, IsRun, Conservation.AllPaired, Conservation.AllBalanced;
    var bs, now, log := Last(run).banks[t], Last(run).now, Log(run);
    assert BankExact(cfg, log, now, t, bs);
    assert TimeExact(cfg, log, ToActivate, t, bs.nextActivate, now);
    assert TimeExact(cfg, log, ToPrecharge, t, bs.nextPrecharge, now);
    assert TimeExactFrom(cfg, log, ToRead, t, bs.nextRead, From(bs, now), now);
    assert TimeExactFrom(cfg, log, ToWrite, t, bs.nextWrite, From(bs, now), now);
  }
}

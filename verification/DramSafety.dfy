/** The main results about whole runs of the memory system. */
module DramSafety {
  import opened DramTypes
  import opened CommandQueueSpec
  import opened BankRules
  import opened DramSystem
  import opened QueueShape
  import opened SchedulerSafety
  import opened SchedulerInvariant
  import opened Agreement
  import opened PendingNotes

  /** Commands arrive in the order of issue, none of them overdue. */
  ghost predicate Timed(cfg: Config, now: int, wire: seq<Flit>) {
    && (forall i | 0 <= i < |wire| :: now <= wire[i].at <= now + cfg.tCMD)
    && (forall i, j | 0 <= i < j < |wire| :: wire[i].at <= wire[j].at)
  }

  ghost predicate OnWire(cfg: Config, now: int, banks: BankTable, ranks: BankTable, wire: seq<Flit>) {
    && Timed(cfg, now, wire)
    && Replay(cfg, ranks, wire).Some?
    && AllAgree(cfg, banks, Replay(cfg, ranks, wire).value)
  }

  /** Column accesses of each bank and row leave in the order in which they came. */
  ghost predicate InOrder(cfg: Config, enqueued: seq<Packet>, issued: seq<Packet>, queues: map<Slot, seq<Packet>>) {
    forall t, row | InRange(cfg, t) && QueueKey(cfg, t) in queues ::
      Stream(enqueued, t, row) == Stream(issued, t, row) + Stream(queues[QueueKey(cfg, t)], t, row)
  }

  /** The earliest tick at which a command may still be issued. */
  function NextPop(S: Sys): int {
    if S.late then S.now + 1 else S.now
  }

  ghost predicate Inv(cfg: Config, S: Sys) {
    && Shaped(cfg, S)
    && Sound(cfg, S.banks, S.q, S.owed)
    && NotesOK(cfg, S.now, NextPop(S), S.banks, S.pending)
    && OnWire(cfg, S.now, S.banks, S.ranks, S.wire)
    && InOrder(cfg, S.enqueued, S.issued, S.q.queues)
    && !S.aborted
  }

  lemma InitInv(cfg: Config)
    requires cfg.Valid()
    ensures Inv(cfg, Init(cfg))
  {
    InitSound(cfg);
  }

  lemma TransactionInOrder(cfg: Config, enqueued: seq<Packet>, issued: seq<Packet>, s: QState, b: Packet)
    requires InOrder(cfg, enqueued, issued, s.queues) && QueueKey(cfg, b.Target()) in s.queues && b.IsColumn()
    ensures InOrder(cfg, enqueued + [b], issued, EnqueuePair(cfg, s, b).queues)
  {
    var k := QueueKey(cfg, b.Target());
    var queues := EnqueuePair(cfg, s, b).queues;
    forall t, row | InRange(cfg, t) && QueueKey(cfg, t) in queues
      ensures Stream(enqueued + [b], t, row) == Stream(issued, t, row) + Stream(queues[QueueKey(cfg, t)], t, row)
    {
      assert Stream(enqueued, t, row) == Stream(issued, t, row) + Stream(s.queues[QueueKey(cfg, t)], t, row);
      if QueueKey(cfg, t) == k {
        PairStream(enqueued, issued, s.queues[k], b, t, row);
      } else {
        StreamConcat(enqueued, [b], t, row);
        StreamEmpty([b], t, row);
      }
    }
  }

  lemma PairStream(enqueued: seq<Packet>, issued: seq<Packet>, q: seq<Packet>, b: Packet, t: Slot, row: int)
    requires Stream(enqueued, t, row) == Stream(issued, t, row) + Stream(q, t, row)
    ensures Stream(enqueued + [b], t, row) == Stream(issued, t, row) + Stream(q + [b.Act(), b], t, row)
  {
    hide Stream;
    StreamConcat(enqueued, [b], t, row);
    StreamConcat(q, [b.Act()], t, row);
    StreamConcat(q + [b.Act()], [b], t, row);
    StreamEmpty([b.Act()], t, row);
    assert q + [b.Act(), b] == q + [b.Act()] + [b];
  }

  lemma TransactionInv(cfg: Config, S: Sys, b: Packet)
    requires Inv(cfg, S) && Enabled(cfg, S, Transaction(b))
    ensures Inv(cfg, Do(cfg, S, Transaction(b)))
  {
    TransactionSound(cfg, S.banks, S.q, S.owed, b);
    TransactionInOrder(cfg, S.enqueued, S.issued, S.q, b);
  }

  /** What the scheduler did to the queues when it returned p: nothing, or p left its queue. */
  ghost predicate Left(cfg: Config, s: QState, s': QState, owed: map<Slot, Option<Packet>>, p: Packet, at: nat,
                       withAct: bool) {
    var k := QueueKey(cfg, p.Target());
    if p.kind.PRECHARGE? || p.kind.REFRESH? then s'.queues == s.queues
    else
      && k in s.queues
      && p.Target() in owed
      && at < |s.queues[k]|
      && s.queues[k][at] == p
      && (withAct ==> at > 0 && s.queues[k][at-1].kind.ACTIVATE?)
      && s'.queues == s.queues[k := Removed(s.queues[k], at, withAct)]
      && (p.IsColumn() ==> Typed(cfg, p) && First(s.queues[k], at))
      && (p.IsColumn() && !withAct ==> owed[p.Target()] == Some(p.Act()))
      && (p.kind.ACTIVATE? || withAct ==> owed[p.Target()] == None)
  }

  /** One call of pop, with everything the rest of the proof needs to know about it. */
  ghost predicate Popped(cfg: Config, banks: BankTable, s: QState, s': QState, owed: map<Slot, Option<Packet>>,
                         now: int, p: Packet, at: nat, withAct: bool) {
    && InRange(cfg, p.Target())
    && Allowed(cfg, banks, p, now)
    && Covers(cfg, owed)
    && Sound(cfg, Issue(cfg, banks, p, now), s', OwedAfter(owed, p))
    && Left(cfg, s, s', owed, p, at, withAct)
  }

  /** The facts about a good choice, in terms of the packet that leaves. */
  lemma TakeLeft(v: View, s: QState, owed: map<Slot, Option<Packet>>, c: Choice, s': QState)
    requires Sound(v.cfg, v.banks, s, owed) && c.Take? && Good(v, s, owed, c)
    requires s'.queues == Take1(s, c).queues
    ensures Left(v.cfg, s, s', owed, s.queues[c.key][c.at], c.at, c.withAct)
    ensures InRange(v.cfg, s.queues[c.key][c.at].Target())
  {
    var q := s.queues[c.key];
    assert Homed(v.cfg, c.key, q) && QueueOK(v.cfg, q);
    assert q[c.at].kind.ACTIVATE? || Typed(v.cfg, q[c.at]);
  }

  lemma PopQueues(cfg: Config, banks: BankTable, s: QState, now: int)
    requires Fits(cfg, banks, s)
    ensures var s1 := TickWindows(s); var c := Choose(ViewOf(cfg, banks, s1, now), s1);
            && Applicable(cfg, s1, c)
            && Pop(cfg, banks, s, now).1.queues == Effect(cfg, s1, c).queues
            && s1.queues == s.queues
  {
    ChooseApplicable(ViewOf(cfg, banks, TickWindows(s), now), TickWindows(s));
  }

  lemma PopSteps(cfg: Config, banks: BankTable, s: QState, owed: map<Slot, Option<Packet>>, now: int)
    returns (at: nat, withAct: bool)
    requires Sound(cfg, banks, s, owed)
    ensures match Pop(cfg, banks, s, now).0
            case None => Sound(cfg, banks, Pop(cfg, banks, s, now).1, owed) &&
                         Pop(cfg, banks, s, now).1.queues == s.queues
            case Some(p) => Popped(cfg, banks, s, Pop(cfg, banks, s, now).1, owed, now, p, at, withAct)
  {
    var s1 := TickWindows(s);
    var v := ViewOf(cfg, banks, s1, now);
    PopSound(cfg, banks, s, owed, now);
    PopQueues(cfg, banks, s, now);
    var c := Choose(v, s1);
    var s' := Pop(cfg, banks, s, now).1;
    at, withAct := 0, false;
    match c {
      case Nothing =>
      case Take(key, i, w) =>
        at, withAct := i, w;
        TakeLeft(v, s1, owed, c, s');
        var p := s1.queues[key][i];
        assert Left(cfg, s, s', owed, p, i, w);
        assert Popped(cfg, banks, s, s', owed, now, p, i, w);
      case Close(_) =>
      case Refresh(_) =>
    }
  }

  lemma StreamStep(enqueued: seq<Packet>, issued: seq<Packet>, q: seq<Packet>, p: Packet, at: nat, withAct: bool,
                   t: Slot, row: int)
    requires Stream(enqueued, t, row) == Stream(issued, t, row) + Stream(q, t, row)
    requires at < |q| && q[at] == p && (withAct ==> at > 0 && !q[at-1].IsColumn())
    requires p.IsColumn() ==> First(q, at)
    ensures Stream(enqueued, t, row) ==
            Stream(if p.IsColumn() then issued + [p] else issued, t, row) + Stream(Removed(q, at, withAct), t, row)
  {
    StreamRemoved(q, at, withAct, t, row);
    if p.IsColumn() {
      StreamConcat(issued, [p], t, row);
    } else {
      StreamEmpty([p], t, row);
    }
  }

  lemma OtherStream(issued: seq<Packet>, p: Packet, t: Slot, row: int)
    requires !p.IsColumn() || t != p.Target()
    ensures Stream(if p.IsColumn() then issued + [p] else issued, t, row) == Stream(issued, t, row)
  {
    if p.IsColumn() {
      StreamConcat(issued, [p], t, row);
      StreamEmpty([p], t, row);
    }
  }

  lemma IssueInOrder(cfg: Config, enqueued: seq<Packet>, issued: seq<Packet>, s: QState, s': QState,
                     owed: map<Slot, Option<Packet>>, p: Packet, at: nat, withAct: bool)
    requires InOrder(cfg, enqueued, issued, s.queues) && Left(cfg, s, s', owed, p, at, withAct)
    ensures InOrder(cfg, enqueued, if p.IsColumn() then issued + [p] else issued, s'.queues)
  {
    var issued' := if p.IsColumn() then issued + [p] else issued;
    forall t, row | InRange(cfg, t) && QueueKey(cfg, t) in s'.queues
      ensures Stream(enqueued, t, row) == Stream(issued', t, row) + Stream(s'.queues[QueueKey(cfg, t)], t, row)
    {
      var k := QueueKey(cfg, t);
      assert k in s.queues;
      assert Stream(enqueued, t, row) == Stream(issued, t, row) + Stream(s.queues[k], t, row);
      if k == QueueKey(cfg, p.Target()) && !p.kind.PRECHARGE? && !p.kind.REFRESH? {
        StreamStep(enqueued, issued, s.queues[k], p, at, withAct, t, row);
      } else {
        OtherStream(issued, p, t, row);
      }
    }
  }

  lemma WireExtended(cfg: Config, now: int, ranks: BankTable, wire: seq<Flit>, f: Flit, banks': BankTable,
                     ranks': BankTable)
    requires Timed(cfg, now, wire) && f.at == now + cfg.tCMD
    requires Replay(cfg, ranks, wire + [f]) == Some(ranks')
    requires AllAgree(cfg, banks', ranks')
    ensures OnWire(cfg, now, banks', ranks, wire + [f])
  {
  }

  lemma IssueOnWire(cfg: Config, now: int, banks: BankTable, ranks: BankTable, wire: seq<Flit>, p: Packet,
                    banks': BankTable)
    requires OnWire(cfg, now, banks, ranks, wire) && banks' == Issue(cfg, banks, p, now)
    requires Allowed(cfg, banks, p, now) && (p.IsColumn() ==> Typed(cfg, p))
    ensures OnWire(cfg, now, banks', ranks, wire + [Flit(p, now + cfg.tCMD)])
  {
    var r := Replay(cfg, ranks, wire).value;
    var f := Flit(p, now + cfg.tCMD);
    var r' := Arrive(cfg, r, p, now + cfg.tCMD);
    ReplayAppend(cfg, ranks, wire, f);
    IssueKeepsAgreement(cfg, banks, r, p, now);
    WireExtended(cfg, now, ranks, wire, f, banks', r');
  }

  /** s is the queue state before the call of pop, S the system right after it. */
  lemma IssueInv(cfg: Config, s: QState, S: Sys, p: Packet, at: nat, withAct: bool)
    requires cfg.tRFC >= 1 && Covers(cfg, S.ranks) && !S.aborted
    requires !S.late && NotesOK(cfg, S.now, S.now, S.banks, S.pending)
    requires OnWire(cfg, S.now, S.banks, S.ranks, S.wire)
    requires InOrder(cfg, S.enqueued, S.issued, s.queues)
    requires Popped(cfg, S.banks, s, S.q, S.owed, S.now, p, at, withAct)
    ensures Inv(cfg, IssueStep(cfg, S, p))
  {
    hide NotesOK, OnWire, InOrder, Allowed, Replay, BankOK, QueueOK, OrphansOwed, OwedQueued;
    assert Shaped(cfg, IssueStep(cfg, S, p));
    assert p.IsColumn() ==> Typed(cfg, p);
    assert Allowed(cfg, S.banks, p, S.now);
    hide Sound, Issue;
    IssueNotesOK(cfg, S.now, S.banks, S.pending, p);
    IssueOnWire(cfg, S.now, S.banks, S.ranks, S.wire, p, Issue(cfg, S.banks, p, S.now));
    IssueInOrder(cfg, S.enqueued, S.issued, s, S.q, S.owed, p, at, withAct);
  }

  lemma CycleInv(cfg: Config, S: Sys)
    requires Inv(cfg, S) && !S.late
    ensures Inv(cfg, CycleStep(cfg, S))
  {
    var at, withAct := PopSteps(cfg, S.banks, S.q, S.owed, S.now);
    var (r, q') := Pop(cfg, S.banks, S.q, S.now);
    if r.Some? {
      IssueInv(cfg, S.q, S.(q := q', calls := S.calls + [r]), r.value, at, withAct);
    }
  }

  lemma UpdateInv(cfg: Config, S: Sys, d: Due)
    requires RefreshOutlastsPrecharge(cfg)
    requires Inv(cfg, S) && Enabled(cfg, S, DeliverUpdate(d))
    ensures Inv(cfg, Do(cfg, S, DeliverUpdate(d)))
  {
    DeliveredIsTimely(cfg, S.now, NextPop(S), S.banks, S.q, S.owed, S.pending, d);
    UpdateSound(cfg, S.banks, S.q, S.owed, d.u);
    UpdateAgreesIffTimely(cfg, S.banks, S.q, S.owed, Replay(cfg, S.ranks, S.wire).value, d.u);
    assert BankOK(cfg, S.banks[d.u.slot], S.q.hits[d.u.slot], S.owed[d.u.slot]);
    UpdateNotesOK(cfg, S.now, NextPop(S), S.banks, S.pending, d);
    hide NotesOK, Sound, InOrder, AllAgree, Replay, Timed, BankOK;
  }

  lemma DeliverInv(cfg: Config, S: Sys)
    requires Inv(cfg, S) && Enabled(cfg, S, DeliverCommand)
    ensures Inv(cfg, Do(cfg, S, DeliverCommand))
  {
    hide Sound, NotesOK, InOrder, AllAgree, Accepts;
    assert S.wire[0].at == S.now;
    NotesLater(cfg, S.now, NextPop(S), S.now + 1, S.banks, S.pending);
  }

  lemma AdvanceInv(cfg: Config, S: Sys, to: int)
    requires Inv(cfg, S) && Enabled(cfg, S, Advance(to))
    ensures Inv(cfg, Do(cfg, S, Advance(to)))
  {
    if cfg.numBanks > 1 {
      forall d | d in S.pending
        ensures NoteOK(cfg, to, to, S.banks, S.pending, d)
      {
        assert NoteOK(cfg, S.now, NextPop(S), S.banks, S.pending, d);
      }
    }
  }

  lemma StepInv(cfg: Config, S: Sys, a: Action)
    requires RefreshOutlastsPrecharge(cfg) && Inv(cfg, S)
    ensures Inv(cfg, Do(cfg, S, a))
  {
    if Enabled(cfg, S, a) {
      match a
      case Transaction(b) => TransactionInv(cfg, S, b);
      case RequestRefresh(rank) => SameQueuesSound(cfg, S.banks, S.q, Do(cfg, S, a).q, S.owed);
      case Cycle => CycleInv(cfg, S);
      case DeliverUpdate(d) => UpdateInv(cfg, S, d);
      case DeliverCommand => DeliverInv(cfg, S);
      case Advance(to) => AdvanceInv(cfg, S, to);
    }
  }

  lemma NextInv(cfg: Config, S: Sys, S': Sys)
    requires RefreshOutlastsPrecharge(cfg) && Inv(cfg, S) && Next(cfg, S, S')
    ensures Inv(cfg, S')
  {
    var a :| Step(cfg, S, a, S');
    hide Inv;
    StepInv(cfg, S, a);
  }

  lemma {:induction false} RunInv(cfg: Config, run: seq<Sys>)
    requires cfg.Valid() && RefreshOutlastsPrecharge(cfg) && IsRun(cfg, run)
    ensures Inv(cfg, Last(run))
  {
    hide Inv;
    if |run| == 1 {
      InitInv(cfg);
    } else {
      var n := |run| - 2;
      RunPrefix(cfg, run, n);
      RunInv(cfg, run[..n+1]);
      NextInv(cfg, run[n], run[n+1]);
    }
  }

  // ---------------------------------------------------------------- what the runs promise

  /** No rank ever refuses a command; once the wire is empty the two tables agree bank by bank. */
  lemma RankNeverRefuses(cfg: Config, run: seq<Sys>)
    requires cfg.Valid() && RefreshOutlastsPrecharge(cfg) && IsRun(cfg, run)
    ensures !Last(run).aborted
    ensures Last(run).wire == [] ==>
              forall t | InRange(cfg, t) ::
                t in Last(run).banks && t in Last(run).ranks && Agree(cfg, Last(run).banks[t], Last(run).ranks[t])
  {
    RunInv(cfg, run);
  }

  /** A column access whose ACTIVATE is out has its row open, and no row hits were counted on it. */
  lemma NothingStranded(cfg: Config, run: seq<Sys>, t: Slot)
    requires cfg.Valid() && RefreshOutlastsPrecharge(cfg) && IsRun(cfg, run) && InRange(cfg, t)
    ensures var S := Last(run);
            && t in S.owed && t in S.banks && t in S.q.hits && QueueKey(cfg, t) in S.q.queues
            && (S.owed[t].Some? ==>
                  && S.banks[t].status.ROW_ACTIVE?
                  && S.banks[t].openRow == S.owed[t].value.row
                  && S.q.hits[t] == 0
                  && HoldsOrphan(S.q.queues[QueueKey(cfg, t)], S.owed[t].value))
  {
    RunInv(cfg, run);
    var S := Last(run);
    assert BankOK(cfg, S.banks[t], S.q.hits[t], S.owed[t]);
    assert OwedQueued(cfg, S.q, t, S.owed[t]);
  }

  /** Conversely, a column access that waits in a queue without its ACTIVATE is the one its bank owes. */
  lemma OrphanIsOwed(cfg: Config, run: seq<Sys>, k: Slot, i: nat)
    requires cfg.Valid() && RefreshOutlastsPrecharge(cfg) && IsRun(cfg, run)
    requires k in Last(run).q.queues && i < |Last(run).q.queues[k]| && Orphan(Last(run).q.queues[k], i)
    ensures var S := Last(run); var c := S.q.queues[k][i];
            && c.Target() in S.owed && S.owed[c.Target()] == Some(c.Act())
            && Leads(S.q.queues[k], i)
  {
    RunInv(cfg, run);
    assert OrphansOwed(Last(run).q.queues[k], Last(run).owed);
    assert QueueOK(cfg, Last(run).q.queues[k]);
  }

  /** From S to S', either bank t was served with the very access it was owed, or it is still owed that access. */
  ghost predicate ServesOwed(S: Sys, S': Sys, t: Slot)
    requires t in S.owed && S.owed[t].Some? && t in S'.owed
  {
    if |S'.issued| > |S.issued| && S'.issued[|S'.issued|-1].Target() == t
    then S'.issued[|S'.issued|-1].Act() == S.owed[t].value && S'.owed[t] == None
    else S'.owed[t] == S.owed[t]
  }

  /** A pop that serves the bank of an owed column access serves exactly that access. */
  lemma OwedOrServed(cfg: Config, s: QState, s': QState, owed: map<Slot, Option<Packet>>, p: Packet, at: nat,
                     withAct: bool, t: Slot)
    requires Left(cfg, s, s', owed, p, at, withAct) && p.Target() in owed
    requires t in owed && owed[t].Some?
    ensures if p.IsColumn() && p.Target() == t then p.Act() == owed[t].value && OwedAfter(owed, p)[t] == None
            else OwedAfter(owed, p)[t] == owed[t]
  {
  }

  lemma IssueServes(cfg: Config, S: Sys, S1: Sys, p: Packet, t: Slot)
    requires p.Target() in S.owed && t in S.owed && S1.owed == S.owed && S1.issued == S.issued && S.owed[t].Some?
    requires if p.IsColumn() && p.Target() == t
             then p.Act() == S.owed[t].value && OwedAfter(S.owed, p)[t] == None
             else OwedAfter(S.owed, p)[t] == S.owed[t]
    ensures t in IssueStep(cfg, S1, p).owed && ServesOwed(S, IssueStep(cfg, S1, p), t)
  {
  }

  lemma CycleOwed(cfg: Config, S: Sys, t: Slot)
    requires Shaped(cfg, S) && Sound(cfg, S.banks, S.q, S.owed) && t in S.owed && S.owed[t].Some?
    ensures t in CycleStep(cfg, S).owed && ServesOwed(S, CycleStep(cfg, S), t)
  {
    var at, withAct := PopSteps(cfg, S.banks, S.q, S.owed, S.now);
    var (r, q') := Pop(cfg, S.banks, S.q, S.now);
    if r.Some? {
      OwedOrServed(cfg, S.q, q', S.owed, r.value, at, withAct, t);
      IssueServes(cfg, S, S.(q := q', calls := S.calls + [r]), r.value, t);
    }
  }

  lemma StepOwed(cfg: Config, S: Sys, a: Action, t: Slot)
    requires Shaped(cfg, S) && Sound(cfg, S.banks, S.q, S.owed) && t in S.owed && S.owed[t].Some?
    ensures t in Do(cfg, S, a).owed && ServesOwed(S, Do(cfg, S, a), t)
  {
    if Enabled(cfg, S, a) && a.Cycle? {
      CycleOwed(cfg, S, t);
    }
  }

  lemma NextOwed(cfg: Config, S: Sys, S': Sys, t: Slot)
    requires Shaped(cfg, S) && Sound(cfg, S.banks, S.q, S.owed) && t in S.owed && S.owed[t].Some?
    requires Next(cfg, S, S')
    ensures t in S'.owed && ServesOwed(S, S', t)
  {
    var a :| Step(cfg, S, a, S');
    StepOwed(cfg, S, a, t);
  }

  /** It stays so until exactly that column access is issued: no other access to the bank comes first. */
  lemma OwedUntilServed(cfg: Config, run: seq<Sys>, n: nat, t: Slot)
    requires cfg.Valid() && RefreshOutlastsPrecharge(cfg) && IsRun(cfg, run) && n + 1 < |run|
    requires t in run[n].owed && run[n].owed[t].Some?
    ensures t in run[n+1].owed && ServesOwed(run[n], run[n+1], t)
  {
    RunPrefix(cfg, run, n);
    RunInv(cfg, run[..n+1]);
    NextOwed(cfg, run[n], run[n+1], t);
  }

  /** Column accesses to one rank, bank and row are issued in the order in which they were enqueued. */
  lemma ColumnsInOrder(cfg: Config, run: seq<Sys>, t: Slot, row: int)
    requires cfg.Valid() && RefreshOutlastsPrecharge(cfg) && IsRun(cfg, run) && InRange(cfg, t)
    ensures var S := Last(run);
            && QueueKey(cfg, t) in S.q.queues
            && Stream(S.enqueued, t, row) ==
               Stream(S.issued, t, row) + Stream(S.q.queues[QueueKey(cfg, t)], t, row)
  {
    RunInv(cfg, run);
  }
}

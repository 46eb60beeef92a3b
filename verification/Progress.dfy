module Progress {
  // What pop must do: with nothing to wait for it serves, closes or refreshes, until there is nothing left to do.
  // And it serves no more accesses to an open row than the configuration allows.

  import opened DramTypes
  import opened CommandQueueSpec
  import opened BankRules
  import opened DramSystem
  import opened QueueShape
  import opened SchedulerSafety
  import opened SchedulerInvariant
  import opened PendingNotes
  import opened IssueLog
  import opened WorkConservation
  import Conservation
  import DramSafety
  import NotesOwed
  import QueueDepth

  // ---------------------------------------------------------------- the choice

  /** Column accesses without their ACTIVATE stand at the head only. */
  ghost predicate HeadOnly(q: seq<Packet>) {
    forall i | 0 <= i < |q| :: Orphan(q, i) ==> i == 0
  }

  ghost predicate HeadsOnly(cfg: Config, s: QState) {
    cfg.rowBufferPolicy.ClosePage? && cfg.queuingStructure.PerRankPerBank? ==>
      forall k | k in s.queues :: HeadOnly(s.queues[k])
  }

  ghost predicate HitsLimited(cfg: Config, hits: map<Slot, int>) {
    forall t | t in hits :: hits[t] <= cfg.totalRowAccesses
  }

  lemma HitUnderLimit(v: View, s: QState)
    requires v.Fits() && Fits(v.cfg, v.banks, s) && v.hits == s.hits
    requires Applicable(v.cfg, s, Choose(v, s)) && Choose(v, s).Take? && Choose(v, s).withAct
    ensures var p := s.queues[Choose(v, s).key][Choose(v, s).at];
            p.IsColumn() ==> p.Target() in s.hits && s.hits[p.Target()] < v.cfg.totalRowAccesses
  {
    var c := Choose(v, s);
    var x := ServeChoice(v, s).value;
    assert c == Served(v, s, x) && Offers(v, s, x);
    assert Homed(v.cfg, c.key, s.queues[c.key]) && v.Servable(s.queues[c.key], c.at);
  }

  lemma TakenAtHead(v: View, s: QState, owed: map<Slot, Option<Packet>>)
    requires Sound(v.cfg, v.banks, s, owed) && v.hits == s.hits && v.faw == s.faw
    requires v.cfg.rowBufferPolicy.ClosePage? && v.cfg.queuingStructure.PerRankPerBank? && HeadsOnly(v.cfg, s)
    requires Good(v, s, owed, Choose(v, s)) && Choose(v, s).Take?
    ensures Choose(v, s).at == 0 && !Choose(v, s).withAct
  {
    var c := Choose(v, s);
    var q := s.queues[c.key];
    assert QueueOK(v.cfg, q) && Homed(v.cfg, c.key, q) && HeadOnly(q);
    if RefreshChoice(v, s) == Nothing {
      var x := ServeChoice(v, s).value;
      assert c == Served(v, s, x) && v.Servable(q, c.at);
    } else {
      assert q[c.at].kind.ACTIVATE? || Typed(v.cfg, q[c.at]);
      assert Orphan(q, c.at);
    }
  }

  /** What a call of pop does to the row-hit counters. */
  ghost predicate HitsChange(hits: map<Slot, int>, hits': map<Slot, int>, p: Packet, withAct: bool) {
    hits' == if p.kind.PRECHARGE? then hits[p.Target() := 0]
             else if withAct && p.Target() in hits then hits[p.Target() := hits[p.Target()] + 1] else hits
  }

  ghost predicate LivelyQueue(cfg: Config, s: QState) {
    HitsLimited(cfg, s.hits) && HeadsOnly(cfg, s)
  }

  /** What pop leaves, besides what is known from its choice being good. */
  ghost predicate PoppedLively(cfg: Config, s: QState, s': QState, owed: map<Slot, Option<Packet>>, p: Packet,
                               withAct: bool) {
    && LivelyQueue(cfg, s')
    && HitsChange(s.hits, s'.hits, p, withAct)
    && p.Target() in owed && p.Target() in s.hits
    && (p.IsColumn() ==> Typed(cfg, p) && (withAct || owed[p.Target()] == Some(p.Act())))
    && (withAct ==> p.IsColumn() && owed[p.Target()] == None)
  }

  lemma HeadRemoved(q: seq<Packet>)
    requires q != [] && HeadOnly(q)
    ensures HeadOnly(Removed(q, 0, false))
  {
    var r := Removed(q, 0, false);
    forall i | 0 <= i < |r| && Orphan(r, i)
      ensures i == 0
    {
      assert r[i] == q[i+1];
      assert i == 0 || !Orphan(q, i + 1);
    }
  }

  lemma TakeHeads(v: View, s: QState, owed: map<Slot, Option<Packet>>)
    requires Sound(v.cfg, v.banks, s, owed) && v.hits == s.hits && v.faw == s.faw && HeadsOnly(v.cfg, s)
    requires Good(v, s, owed, Choose(v, s)) && Choose(v, s).Take?
    ensures HeadsOnly(v.cfg, Take1(s, Choose(v, s)))
  {
    var c := Choose(v, s);
    if v.cfg.rowBufferPolicy.ClosePage? && v.cfg.queuingStructure.PerRankPerBank? {
      TakenAtHead(v, s, owed);
      hide Choose, Sound, Good, HeadOnly;
      assert HeadOnly(s.queues[c.key]);
      HeadRemoved(s.queues[c.key]);
    }
  }

  lemma TakeLively(v: View, s: QState, owed: map<Slot, Option<Packet>>)
    requires Sound(v.cfg, v.banks, s, owed) && v.hits == s.hits && v.faw == s.faw && LivelyQueue(v.cfg, s)
    requires Good(v, s, owed, Choose(v, s)) && Choose(v, s).Take?
    ensures var c := Choose(v, s); PoppedLively(v.cfg, s, Take1(s, c), owed, s.queues[c.key][c.at], c.withAct)
  {
    var c := Choose(v, s);
    TakeHeads(v, s, owed);
    if c.withAct { HitUnderLimit(v, s); }
    assert QueueOK(v.cfg, s.queues[c.key]);
    assert s.queues[c.key][c.at].kind.ACTIVATE? || Typed(v.cfg, s.queues[c.key][c.at]);
    hide Choose, QueueOK, HeadsOnly, BankOK, OrphansOwed, OwedQueued, Fits, Allowed;
  }

  lemma EffectLively(v: View, s: QState, owed: map<Slot, Option<Packet>>)
    requires Sound(v.cfg, v.banks, s, owed) && v.hits == s.hits && v.faw == s.faw && LivelyQueue(v.cfg, s)
    requires Good(v, s, owed, Choose(v, s)) && Choose(v, s) != Nothing
    ensures var c := Choose(v, s);
            PoppedLively(v.cfg, s, Effect(v.cfg, s, c), owed, Chosen(v.cfg, s, c).value, c.Take? && c.withAct)
  {
    var c := Choose(v, s);
    if c.Take? {
      TakeLively(v, s, owed);
      hide Choose, PoppedLively, Sound, Good;
    } else {
      hide Choose, HeadOnly, BankOK, OrphansOwed, OwedQueued, QueueOK, Allowed;
    }
  }

  // ---------------------------------------------------------------- one call of pop

  lemma PopHits(cfg: Config, banks: BankTable, s: QState, now: int)
    requires Fits(cfg, banks, s)
    ensures var s1 := TickWindows(s); var c := Choose(ViewOf(cfg, banks, s1, now), s1);
            Applicable(cfg, s1, c) && Pop(cfg, banks, s, now).1.hits == Effect(cfg, s1, c).hits
  {
    hide Choose, Cursors, TickWindow, Homed, Removed;
    var s1 := TickWindows(s);
    ChooseApplicable(ViewOf(cfg, banks, s1, now), s1);
  }

  lemma PopLively(cfg: Config, banks: BankTable, s: QState, owed: map<Slot, Option<Packet>>, now: int)
    returns (withAct: bool)
    requires Sound(cfg, banks, s, owed) && LivelyQueue(cfg, s)
    ensures var (r, s') := Pop(cfg, banks, s, now);
            match r
            case None => LivelyQueue(cfg, s') && s'.hits == s.hits
            case Some(p) => PoppedLively(cfg, s, s', owed, p, withAct)
  {
    var s1 := TickWindows(s);
    var v := ViewOf(cfg, banks, s1, now);
    var c := Choose(v, s1);
    PopSound(cfg, banks, s, owed, now);
    PopHits(cfg, banks, s, now);
    Conservation.PopFits(cfg, banks, s, now);
    withAct := c.Take? && c.withAct;
    if c != Nothing {
      EffectLively(v, s1, owed);
      hide Choose, Pop, Effect, Sound, Good, TickWindow, HitsLimited, HeadOnly;
    }
  }

  // ---------------------------------------------------------------- accesses to an open row

  /** The column accesses to bank t since it was last activated, precharged or refreshed. */
  function AccessesSince(calls: seq<Option<Packet>>, t: Slot): nat {
    if calls == [] then 0
    else
      var n := AccessesSince(calls[..|calls|-1], t);
      match calls[|calls|-1]
      case None => n
      case Some(p) =>
        if p.kind.REFRESH? && p.rank == t.rank then 0
        else if p.Target() != t then n
        else if p.kind.ACTIVATE? || p.kind.PRECHARGE? then 0
        else if p.IsColumn() then n + 1
        else n
  }

  ghost predicate Counted(S: Sys, t: Slot) {
    && t in S.q.hits && t in S.owed && S.q.hits[t] >= 0
    && AccessesSince(S.calls, t) <= S.q.hits[t] + 1
    && (S.owed[t].Some? ==> AccessesSince(S.calls, t) == 0)
  }

  /** Also after every earlier call. */
  ghost predicate Within(cfg: Config, calls: seq<Option<Packet>>, t: Slot) {
    forall m | 0 <= m <= |calls| :: AccessesSince(calls[..m], t) <= cfg.totalRowAccesses + 1
  }

  ghost predicate OwedWhenOpen(cfg: Config, banks: BankTable, owed: map<Slot, Option<Packet>>) {
    cfg.rowBufferPolicy.ClosePage? ==>
      forall t | t in banks && Accessible(banks[t]) :: t in owed && owed[t].Some?
  }

  ghost predicate Lively(cfg: Config, S: Sys) {
    && LivelyQueue(cfg, S.q)
    && OwedWhenOpen(cfg, S.banks, S.owed)
    && forall t | InRange(cfg, t) :: Counted(S, t) && Within(cfg, S.calls, t)
  }

  lemma OneMoreCall(calls: seq<Option<Packet>>, r: Option<Packet>, t: Slot)
    ensures var n, n' := AccessesSince(calls, t), AccessesSince(calls + [r], t);
            n' == match r
                  case None => n
                  case Some(p) =>
                    if p.kind.REFRESH? && p.rank == t.rank then 0
                    else if p.Target() != t then n
                    else if p.kind.ACTIVATE? || p.kind.PRECHARGE? then 0
                    else if p.IsColumn() then n + 1
                    else n
  {
    assert (calls + [r])[..|calls|] == calls;
  }

  lemma WithinOneMore(cfg: Config, calls: seq<Option<Packet>>, r: Option<Packet>, t: Slot)
    requires Within(cfg, calls, t) && AccessesSince(calls + [r], t) <= cfg.totalRowAccesses + 1
    ensures Within(cfg, calls + [r], t)
  {
    var calls' := calls + [r];
    forall m | 0 <= m <= |calls'|
      ensures AccessesSince(calls'[..m], t) <= cfg.totalRowAccesses + 1
    {
      if m <= |calls| {
        assert calls'[..m] == calls[..m];
      } else {
        assert calls'[..m] == calls';
      }
    }
  }

  lemma IssueOwedWhenOpen(cfg: Config, banks: BankTable, owed: map<Slot, Option<Packet>>, p: Packet, now: int)
    requires OwedWhenOpen(cfg, banks, owed) && p.Target() in owed && (p.IsColumn() ==> Typed(cfg, p))
    ensures OwedWhenOpen(cfg, Issue(cfg, banks, p, now), OwedAfter(owed, p))
  {
  }

  lemma UpdateOwedWhenOpen(cfg: Config, banks: BankTable, owed: map<Slot, Option<Packet>>, u: Update)
    requires OwedWhenOpen(cfg, banks, owed) && u.slot in banks
    ensures OwedWhenOpen(cfg, Updated(banks, u), owed)
  {
  }

  lemma CountedAfter(cfg: Config, S: Sys, s': QState, p: Packet, withAct: bool, t: Slot)
    requires Counted(S, t) && PoppedLively(cfg, S.q, s', S.owed, p, withAct)
    ensures Counted(IssueStep(cfg, S.(q := s', calls := S.calls + [Some(p)]), p), t)
  {
    OneMoreCall(S.calls, Some(p), t);
    hide AccessesSince, LivelyQueue;
  }

  lemma CycleLively(cfg: Config, S: Sys)
    requires Shaped(cfg, S) && Sound(cfg, S.banks, S.q, S.owed) && Lively(cfg, S)
    ensures Lively(cfg, CycleStep(cfg, S))
  {
    var withAct := PopLively(cfg, S.banks, S.q, S.owed, S.now);
    var (r, s') := Pop(cfg, S.banks, S.q, S.now);
    var S' := CycleStep(cfg, S);
    if r.Some? {
      IssueOwedWhenOpen(cfg, S.banks, S.owed, r.value, S.now);
    }
    assert LivelyQueue(cfg, S'.q);
    forall t | InRange(cfg, t)
      ensures Counted(S', t) && Within(cfg, S'.calls, t)
    {
      assert Counted(S, t) && Within(cfg, S.calls, t);
      match r {
        case None => OneMoreCall(S.calls, None, t);
        case Some(p) => CountedAfter(cfg, S, s', p, withAct, t);
      }
      assert Counted(S', t);
      WithinOneMore(cfg, S.calls, r, t);
    }
  }

  lemma EnqueueHeads(cfg: Config, banks: BankTable, s: QState, owed: map<Slot, Option<Packet>>, b: Packet)
    requires Sound(cfg, banks, s, owed) && HeadsOnly(cfg, s)
    requires QueueKey(cfg, b.Target()) in s.queues && Typed(cfg, b)
    ensures HeadsOnly(cfg, EnqueuePair(cfg, s, b))
  {
    var k := QueueKey(cfg, b.Target());
    assert QueueOK(cfg, s.queues[k]);
    PairAppended(cfg, s.queues[k], b);
  }

  lemma SameHeads(cfg: Config, s: QState, s': QState)
    requires HeadsOnly(cfg, s) && s'.queues == s.queues
    ensures HeadsOnly(cfg, s')
  {
  }

  lemma StepLively(cfg: Config, S: Sys, a: Action)
    requires Shaped(cfg, S) && Sound(cfg, S.banks, S.q, S.owed) && Lively(cfg, S)
    ensures Lively(cfg, Do(cfg, S, a))
  {
    hide Sound, Fits, HeadsOnly, Within, OwedWhenOpen, HitsLimited, AccessesSince;
    hide Updated, CycleStep, Post, FollowUps, Accepts, Arrive;
    if Enabled(cfg, S, a) {
      match a {
        case Transaction(b) => EnqueueHeads(cfg, S.banks, S.q, S.owed, b);
        case Cycle => CycleLively(cfg, S);
        case DeliverUpdate(d) => UpdateOwedWhenOpen(cfg, S.banks, S.owed, d.u);
        case RequestRefresh(_) => SameHeads(cfg, S.q, Do(cfg, S, a).q);
        case _ =>
      }
    }
  }

  lemma NextLively(cfg: Config, S: Sys, S': Sys)
    requires Shaped(cfg, S) && Sound(cfg, S.banks, S.q, S.owed) && Lively(cfg, S) && Next(cfg, S, S')
    ensures Lively(cfg, S')
  {
    var a :| Step(cfg, S, a, S');
    hide Lively, Sound, Fits;
    StepLively(cfg, S, a);
  }

  lemma StartLively(cfg: Config)
    requires cfg.Valid()
    ensures Lively(cfg, Init(cfg))
  {
  }

  lemma {:induction false} RunLively(cfg: Config, run: seq<Sys>)
    requires cfg.Valid() && RefreshOutlastsPrecharge(cfg) && IsRun(cfg, run)
    ensures Lively(cfg, Last(run))
  {
    hide Lively, StepAt, Next, Sound, Fits, DramSafety.OnWire, DramSafety.InOrder, NotesOK;
    if |run| == 1 {
      StartLively(cfg);
    } else {
      var n := |run| - 2;
      RunPrefix(cfg, run, n);
      RunLively(cfg, run[..n+1]);
      DramSafety.RunInv(cfg, run[..n+1]);
      assert StepAt(cfg, run, n);
      QueueDepth.StepIsNext(cfg, run, n);
      NextLively(cfg, run[n], run[n+1]);
    }
  }

  /**
   In every run at most totalRowAccesses + 1 column accesses go to a bank between its ACTIVATE and the next PRECHARGE or
   REFRESH: at any call, so many since the last of these.
   */
  lemma RowAccessesLimited(cfg: Config, run: seq<Sys>, m: nat, t: Slot)
    requires cfg.Valid() && RefreshOutlastsPrecharge(cfg) && IsRun(cfg, run) && InRange(cfg, t)
    requires m <= |Last(run).calls|
    ensures AccessesSince(Last(run).calls[..m], t) <= cfg.totalRowAccesses + 1
  {
    RunLively(cfg, run);
    assert Within(cfg, Last(run).calls, t);
  }

  // ---------------------------------------------------------------- nothing to wait for

  /** No command and no note is on its way, no window is full, and all times of the bank table are past. */
  ghost predicate NothingToAwait(cfg: Config, S: Sys) {
    && S.wire == [] && S.pending == multiset{}
    && (forall r | 0 <= r < |S.q.faw| :: |S.q.faw[r]| < 4)
    && forall t | t in S.banks ::
         && S.banks[t].nextActivate <= S.now && S.banks[t].nextRead <= S.now
         && S.banks[t].nextWrite <= S.now && S.banks[t].nextPrecharge <= S.now
  }

  ghost predicate AllDone(S: Sys) {
    && (forall k | k in S.q.queues :: S.q.queues[k] == [])
    && !S.q.refreshWaiting
    && forall t | t in S.banks :: !S.banks[t].status.ROW_ACTIVE?
  }

  /** What the controller's tables are like then. */
  ghost predicate Settled(v: View, s: QState, owed: map<Slot, Option<Packet>>) {
    && Sound(v.cfg, v.banks, s, owed) && LivelyQueue(v.cfg, s) && OwedWhenOpen(v.cfg, v.banks, owed)
    && v.hits == s.hits && v.faw == s.faw
    && (forall r | 0 <= r < |s.faw| :: |s.faw[r]| < 4)
    && forall t | t in v.banks :: Waitless(v.banks[t], v.now)
  }

  /** The bank is not on its way to another state, and nothing has to wait for it. */
  predicate Waitless(bs: BankState, now: int) {
    && bs.nextActivate <= now && bs.nextRead <= now && bs.nextWrite <= now && bs.nextPrecharge <= now
    && NotesOwed.PhaseOf(bs) != NotesOwed.Closing && NotesOwed.PhaseOf(bs) != NotesOwed.Precharging
    && !bs.status.POWER_DOWN?
  }

  /** A column access to the open row of its bank may go unless the row's accesses are used up. */
  lemma ColumnIssuable(v: View, s: QState, owed: map<Slot, Option<Packet>>, p: Packet)
    requires Settled(v, s, owed) && InRange(v.cfg, p.Target()) && p.IsColumn()
    requires v.banks[p.Target()].status.ROW_ACTIVE? && v.banks[p.Target()].openRow == p.row
    requires s.hits[p.Target()] < v.cfg.totalRowAccesses
    ensures v.IsIssuable(p)
  {
    assert Waitless(v.banks[p.Target()], v.now);
    hide Sound, LivelyQueue, OwedWhenOpen, Fits;
  }

  lemma ActivateIssuable(v: View, s: QState, owed: map<Slot, Option<Packet>>, p: Packet)
    requires Settled(v, s, owed) && InRange(v.cfg, p.Target()) && p.kind.ACTIVATE?
    requires !v.banks[p.Target()].status.ROW_ACTIVE?
    ensures v.IsIssuable(p)
  {
    assert Waitless(v.banks[p.Target()], v.now);
    hide Sound, LivelyQueue, OwedWhenOpen;
  }

  /** The bank of the first packet is closed: the packet is its ACTIVATE and goes. */
  lemma ClosedMoves(v: View, s: QState, owed: map<Slot, Option<Packet>>, k: Slot)
    requires Settled(v, s, owed) && k in s.queues && s.queues[k] != []
    requires InRange(v.cfg, s.queues[k][0].Target()) && !v.banks[s.queues[k][0].Target()].status.ROW_ACTIVE?
    ensures v.Servable(s.queues[k], 0)
  {
    var q := s.queues[k];
    assert QueueOK(v.cfg, q) && OrphansOwed(q, owed);
    assert q[0].kind.ACTIVATE? || Typed(v.cfg, q[0]);
    assert BankOK(v.cfg, v.banks[q[0].Target()], s.hits[q[0].Target()], owed[q[0].Target()]);
    assert !Orphan(q, 0);
    ActivateIssuable(v, s, owed, q[0]);
    hide Settled, Sound, Fits, BankOK, QueueOK;
  }

  /** Close page: an open bank owes a column access, and that goes. */
  lemma OwedMoves(v: View, s: QState, owed: map<Slot, Option<Packet>>, t: Slot) returns (i: nat)
    requires Settled(v, s, owed) && v.cfg.rowBufferPolicy.ClosePage?
    requires InRange(v.cfg, t) && v.banks[t].status.ROW_ACTIVE?
    ensures var q := s.queues[QueueKey(v.cfg, t)];
            && i < |q| && InRange(v.cfg, q[i].Target()) && v.Servable(q, i)
            && Orphan(q, i) && Leads(q, i) && q[i].bank == t.bank && q[i].row == v.banks[t].openRow
            && v.IsIssuable(q[i])
  {
    assert Waitless(v.banks[t], v.now);
    assert Accessible(v.banks[t]) && owed[t].Some?;
    i := OwedIsFirst(v.cfg, v.banks, s, owed, t);
    var k := QueueKey(v.cfg, t);
    var q := s.queues[k];
    assert Homed(v.cfg, k, q) && q[i].Target() == t;
    ColumnIssuable(v, s, owed, q[i]);
    if v.cfg.queuingStructure.PerRankPerBank? {
      assert HeadOnly(q);
    }
  }

  /** Open page: an access to the open row goes, or the bank may be closed. */
  lemma OpenMoves(v: View, s: QState, owed: map<Slot, Option<Packet>>, t: Slot) returns (i: nat)
    requires Settled(v, s, owed) && v.cfg.rowBufferPolicy.OpenPage?
    requires InRange(v.cfg, t) && v.banks[t].status.ROW_ACTIVE?
    ensures var q := s.queues[QueueKey(v.cfg, t)];
            (i < |q| && InRange(v.cfg, q[i].Target()) && v.Servable(q, i)) || v.Closable(t, q)
  {
    var k := QueueKey(v.cfg, t);
    var q := s.queues[k];
    assert IsKey(v.cfg, k) && QueueOK(v.cfg, q) && Homed(v.cfg, k, q) && Waitless(v.banks[t], v.now);
    assert BankOK(v.cfg, v.banks[t], s.hits[t], owed[t]);
    var m := FirstFor(q, t.bank, v.banks[t].openRow, 0);
    i := m;
    if m < |q| && s.hits[t] < v.cfg.totalRowAccesses {
      assert Partnered(q, m);
      if q[m].kind.ACTIVATE? {
        i := m + 1;
        assert q[i].Act() == q[m];
      } else {
        assert Typed(v.cfg, q[m]);
      }
      assert q[i].Target() == t && q[i].row == v.banks[t].openRow;
      ColumnIssuable(v, s, owed, q[i]);
      hide Settled, Sound, Fits, QueueOK, BankOK;
      assert !Blocked(q, i);
    }
  }

  /** Whatever waits in a queue, something in it goes, or the bank of its first packet may be closed. */
  lemma QueueMoves(v: View, s: QState, owed: map<Slot, Option<Packet>>, k: Slot)
    requires Settled(v, s, owed) && k in s.queues && s.queues[k] != [] && !s.refreshWaiting
    ensures InRange(v.cfg, s.queues[k][0].Target())
    ensures var x := s.queues[k][0].Target();
            Offers(v, s, x) || (v.cfg.rowBufferPolicy.OpenPage? && ClosableAt(v, s, x))
  {
    var q := s.queues[k];
    assert Homed(v.cfg, k, q);
    var x := q[0].Target();
    var i := 0;
    if !v.banks[x].status.ROW_ACTIVE? {
      ClosedMoves(v, s, owed, k);
    } else if v.cfg.rowBufferPolicy.ClosePage? {
      i := OwedMoves(v, s, owed, x);
    } else {
      i := OpenMoves(v, s, owed, x);
    }
    OffersMeaning(v, s, x);
  }

  /** A refresh that waits is issued, or something that is in its way goes. */
  lemma RefreshMoves(v: View, s: QState, owed: map<Slot, Option<Packet>>)
    requires Settled(v, s, owed) && s.refreshWaiting
    ensures RefreshChoice(v, s) != Nothing
  {
    var r := s.refreshRank;
    var b := v.FirstBusy(r, 0);
    if b == v.cfg.numBanks {
      assert InRange(v.cfg, Slot(r, 0)) && Waitless(v.banks[Slot(r, 0)], v.now);
    } else {
      var x := Slot(r, b);
      var q := s.queues[QueueKey(v.cfg, x)];
      assert InRange(v.cfg, x) && Waitless(v.banks[x], v.now) && v.Busy(x);
      assert v.banks[x].status.ROW_ACTIVE?;
      assert QueueOK(v.cfg, q) && Homed(v.cfg, QueueKey(v.cfg, x), q);
      var m := FirstFor(q, b, v.banks[x].openRow, 0);
      if v.cfg.rowBufferPolicy.ClosePage? {
        var i := OwedMoves(v, s, owed, x);
        assert m == i;
      } else if m < |q| && !q[m].kind.ACTIVATE? {
        OrphanIssuable(v, s, owed, x, m);
      }
    }
  }

  /** The first packet for the open row is a column access: it is the one that the bank owes. */
  lemma OrphanIssuable(v: View, s: QState, owed: map<Slot, Option<Packet>>, x: Slot, m: nat)
    requires Settled(v, s, owed) && InRange(v.cfg, x) && v.banks[x].status.ROW_ACTIVE?
    requires var q := s.queues[QueueKey(v.cfg, x)];
             m == FirstFor(q, x.bank, v.banks[x].openRow, 0) < |q| && !q[m].kind.ACTIVATE?
    ensures var q := s.queues[QueueKey(v.cfg, x)]; InRange(v.cfg, q[m].Target()) && v.IsIssuable(q[m])
  {
    var k := QueueKey(v.cfg, x);
    var q := s.queues[k];
    assert IsKey(v.cfg, k) && QueueOK(v.cfg, q) && Homed(v.cfg, k, q) && OrphansOwed(q, owed);
    assert Typed(v.cfg, q[m]);
    if m > 0 { assert Partnered(q, m - 1); }
    assert Orphan(q, m);
    assert BankOK(v.cfg, v.banks[x], s.hits[x], owed[x]);
    ColumnIssuable(v, s, owed, q[m]);
  }

  /** With all queues empty an open bank may be closed; under close page no bank is open then. */
  lemma EmptyMoves(v: View, s: QState, owed: map<Slot, Option<Packet>>, t: Slot)
    requires Settled(v, s, owed) && InRange(v.cfg, t) && v.banks[t].status.ROW_ACTIVE?
    requires forall k | k in s.queues :: s.queues[k] == []
    ensures v.cfg.rowBufferPolicy.OpenPage? && ClosableAt(v, s, t)
  {
    assert IsKey(v.cfg, QueueKey(v.cfg, t)) && Waitless(v.banks[t], v.now);
    if v.cfg.rowBufferPolicy.ClosePage? {
      var i := OwedMoves(v, s, owed, t);
      assert false;
    }
  }

  lemma WindowsShrink(s: QState)
    ensures TickWindows(s).queues == s.queues && TickWindows(s).hits == s.hits
    ensures |TickWindows(s).faw| == |s.faw| && forall r | 0 <= r < |s.faw| :: |TickWindows(s).faw[r]| <= |s.faw[r]|
  {
  }

  lemma WaitlessInRun(cfg: Config, run: seq<Sys>, t: Slot)
    requires cfg.Valid() && IsRun(cfg, run) && NothingToAwait(cfg, Last(run)) && InRange(cfg, t)
    ensures t in Last(run).banks && Waitless(Last(run).banks[t], Last(run).now)
  {
    hide IsRun, NotesOwed.Since, NotesOwed.Length;
    NotesOwed.PhasesEnd(cfg, run, t);
    NotesOwed.StatusesFit(cfg, run, t);
  }

  lemma SettledNow(cfg: Config, S: Sys)
    requires Shaped(cfg, S) && Sound(cfg, S.banks, S.q, S.owed) && Lively(cfg, S) && NothingToAwait(cfg, S)
    requires forall t | t in S.banks :: Waitless(S.banks[t], S.now)
    ensures var s1 := TickWindows(S.q); Settled(ViewOf(cfg, S.banks, s1, S.now), s1, S.owed)
  {
    hide TickWindows, Sound, HitsLimited, HeadOnly, Counted, Within, OwedWhenOpen, Waitless, Homed;
    var s1 := TickWindows(S.q);
    WindowsShrink(S.q);
    WindowsFit(cfg, S.banks, S.q);
    SameQueuesSound(cfg, S.banks, S.q, s1, S.owed);
    hide Fits;
  }

  lemma WindowsFit(cfg: Config, banks: BankTable, s: QState)
    requires Fits(cfg, banks, s)
    ensures Fits(cfg, banks, TickWindows(s))
  {
    hide TickWindow, Homed;
  }

  lemma SettledInRun(cfg: Config, run: seq<Sys>)
    requires cfg.Valid() && RefreshOutlastsPrecharge(cfg) && IsRun(cfg, run) && NothingToAwait(cfg, Last(run))
    ensures var S := Last(run); var s1 := TickWindows(S.q);
            Fits(cfg, S.banks, S.q) && Settled(ViewOf(cfg, S.banks, s1, S.now), s1, S.owed)
  {
    var S := Last(run);
    hide IsRun, TickWindows, Settled, Sound, Lively, NotesOK, DramSafety.OnWire, DramSafety.InOrder, Waitless;
    RunLively(cfg, run);
    DramSafety.RunInv(cfg, run);
    forall t | t in S.banks
      ensures Waitless(S.banks[t], S.now)
    {
      WaitlessInRun(cfg, run, t);
    }
    hide NothingToAwait, Fits;
    SettledNow(cfg, S);
  }

  /**
   In every run, with nothing to wait for, pop returns a command as long as anything is left to do: a packet in a queue,
   a refresh that was asked for, or an open bank.
   */
  lemma BusyUntilDone(cfg: Config, run: seq<Sys>)
    requires cfg.Valid() && RefreshOutlastsPrecharge(cfg) && IsRun(cfg, run) && NothingToAwait(cfg, Last(run))
    ensures var S := Last(run);
            Fits(cfg, S.banks, S.q) && (Pop(cfg, S.banks, S.q, S.now).0 == None <==> AllDone(S))
  {
    var S := Last(run);
    SettledInRun(cfg, run);
    hide IsRun, NothingToAwait;
    var s1 := TickWindows(S.q);
    var v := ViewOf(cfg, S.banks, s1, S.now);
    WindowsShrink(S.q);
    IdleIffNothingToDo(cfg, S.banks, S.q, S.now);
    if AllDone(S) {
      DoneIsIdle(v, s1);
    } else if s1.refreshWaiting {
      RefreshMoves(v, s1, S.owed);
    } else if exists k :: k in s1.queues && s1.queues[k] != [] {
      var k :| k in s1.queues && s1.queues[k] != [];
      QueueMoves(v, s1, S.owed, k);
    } else {
      var t :| t in S.banks && S.banks[t].status.ROW_ACTIVE?;
      EmptyMoves(v, s1, S.owed, t);
    }
  }

  lemma DoneIsIdle(v: View, s: QState)
    requires v.Fits() && Fits(v.cfg, v.banks, s) && !s.refreshWaiting
    requires forall k | k in s.queues :: s.queues[k] == []
    requires forall t | t in v.banks :: !v.banks[t].status.ROW_ACTIVE?
    ensures RefreshChoice(v, s) == Nothing
    ensures forall x | InRange(v.cfg, x) :: !Offers(v, s, x) && !ClosableAt(v, s, x)
  {
    forall x | InRange(v.cfg, x)
      ensures !Offers(v, s, x) && !ClosableAt(v, s, x)
    {
      assert IsKey(v.cfg, QueueKey(v.cfg, x));
    }
  }
}

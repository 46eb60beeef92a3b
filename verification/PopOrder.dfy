/** Which of its tasks pop does first, which banks it closes, and what a rank that waits for a refresh still gets. */
module PopOrder {
  import opened DramTypes
  import opened CommandQueueSpec
  import opened DramSystem
  import opened QueueShape
  import opened SchedulerSafety
  import opened SchedulerInvariant
  import opened PendingNotes
  import opened RoundRobin
  import opened WorkConservation
  import Conservation
  import DramSafety

  /** A rank that waits for its refresh and has all banks closed and rested gets it at once, whatever else waits. */
  lemma RefreshFirst(cfg: Config, banks: BankTable, s: QState, now: int)
    requires Fits(cfg, banks, s) && s.refreshWaiting
    requires forall t | t in banks && t.rank == s.refreshRank ::
               !banks[t].status.ROW_ACTIVE? && !banks[t].status.POWER_DOWN? && banks[t].nextActivate <= now
    ensures var (r, s') := Pop(cfg, banks, s, now);
            && r.Some? && r.value.kind.REFRESH? && r.value.rank == s.refreshRank
            && !s'.refreshWaiting && s'.queues == s.queues
  {
    var s1 := TickWindows(s);
    var v := ViewOf(cfg, banks, s1, now);
    assert forall b: nat | b < cfg.numBanks :: InRange(cfg, Slot(s.refreshRank, b));
    assert v.FirstBusy(s.refreshRank, 0) == cfg.numBanks;
    assert InRange(cfg, Slot(s.refreshRank, 0));
    assert Choose(v, s1) == Refresh(s.refreshRank);
    hide Choose, Cursors, TickWindow;
  }

  /** What a rank gets while its refresh waits: that refresh, a PRECHARGE, or a column access that a bank is owed. */
  ghost predicate Drains(p: Packet, owed: map<Slot, Option<Packet>>) {
    p.kind.REFRESH? || p.kind.PRECHARGE? || (p.IsColumn() && p.Target() in owed && owed[p.Target()] == Some(p.Act()))
  }

  lemma ChoiceDrains(v: View, s: QState, owed: map<Slot, Option<Packet>>)
    requires Sound(v.cfg, v.banks, s, owed) && v.hits == s.hits && v.faw == s.faw && s.refreshWaiting
    requires Good(v, s, owed, Choose(v, s)) && Choose(v, s) != Nothing
    ensures var p := Chosen(v.cfg, s, Choose(v, s)).value; p.rank == s.refreshRank ==> Drains(p, owed)
  {
    var c := Choose(v, s);
    if c.Take? {
      var q := s.queues[c.key];
      assert QueueOK(v.cfg, q) && Homed(v.cfg, c.key, q);
      assert q[c.at].kind.ACTIVATE? || Typed(v.cfg, q[c.at]);
      if RefreshChoice(v, s) == Nothing {
        var x := ServeChoice(v, s).value;
        assert c == Served(v, s, x) && Offers(v, s, x);
        assert q[c.at].rank == x.rank;
      }
    }
  }

  lemma HeldRankDrains(cfg: Config, run: seq<Sys>)
    requires cfg.Valid() && RefreshOutlastsPrecharge(cfg) && IsRun(cfg, run) && Last(run).q.refreshWaiting
    ensures var S := Last(run);
            && Fits(cfg, S.banks, S.q)
            && match Pop(cfg, S.banks, S.q, S.now).0
               case None => true
               case Some(p) => p.rank == S.q.refreshRank ==> Drains(p, S.owed)
  {
    var S := Last(run);
    DramSafety.RunInv(cfg, run);
    PopSound(cfg, S.banks, S.q, S.owed, S.now);
    var s1 := TickWindows(S.q);
    var v := ViewOf(cfg, S.banks, s1, S.now);
    hide Pop, Sound, Good, Choose, IsRun, TickWindow, DramSafety.OnWire, DramSafety.InOrder, NotesOK, Fits;
    if Choose(v, s1) != Nothing {
      ChoiceDrains(v, s1, S.owed);
    }
  }

  // ---------------------------------------------------------------- closing banks

  /** No packet of the queue goes to this bank and row. */
  predicate Unwanted(q: seq<Packet>, bank: nat, row: int) {
    forall i | 0 <= i < |q| :: !(q[i].bank == bank && q[i].row == row)
  }

  /** Nothing that waits may be issued now. */
  ghost predicate NothingServable(v: View, s: QState)
    requires v.Fits() && Fits(v.cfg, v.banks, s)
  {
    forall x | InRange(v.cfg, x) :: !Offers(v, s, x)
  }

  lemma WindowsFit(cfg: Config, banks: BankTable, s: QState)
    requires Fits(cfg, banks, s)
    ensures Fits(cfg, banks, TickWindows(s))
  {
    hide TickWindow, Homed;
  }

  /** Which banks may be closed although nobody asked for a refresh. */
  lemma ClosableMeaning(v: View, s: QState, t: Slot)
    requires v.Fits() && Fits(v.cfg, v.banks, s) && InRange(v.cfg, t)
    ensures ClosableAt(v, s, t) <==>
            && v.banks[t].status.ROW_ACTIVE? && v.banks[t].nextPrecharge <= v.now
            && (Unwanted(s.queues[QueueKey(v.cfg, t)], t.bank, v.banks[t].openRow) ||
                v.hits[t] == v.cfg.totalRowAccesses)
  {
  }

  /** Why bank t is closed: it is open and may be closed, nothing wants its row, and nothing else can be done. */
  ghost predicate ClosedForGood(cfg: Config, banks: BankTable, s: QState, now: int, t: Slot)
    requires Fits(cfg, banks, s) && t in banks && t in s.hits
  {
    WindowsFit(cfg, banks, s);
    var k := QueueKey(cfg, t);
    && cfg.rowBufferPolicy.OpenPage?
    && banks[t].status.ROW_ACTIVE? && banks[t].nextPrecharge <= now
    && k in s.queues
    && (Unwanted(s.queues[k], t.bank, banks[t].openRow) || s.hits[t] == cfg.totalRowAccesses)
    && NothingServable(ViewOf(cfg, banks, TickWindows(s), now), TickWindows(s))
  }

  lemma CloseChoiceForGood(cfg: Config, banks: BankTable, s: QState, now: int)
    requires Fits(cfg, banks, s) && Fits(cfg, banks, TickWindows(s))
    requires var s1 := TickWindows(s); var v := ViewOf(cfg, banks, s1, now);
             ServeChoice(v, s1) == None && CloseChoice(v, s1).Some?
    ensures var t := CloseChoice(ViewOf(cfg, banks, TickWindows(s), now), TickWindows(s)).value;
            InRange(cfg, t) && ClosedForGood(cfg, banks, s, now, t)
  {
    var s1 := TickWindows(s);
    var v := ViewOf(cfg, banks, s1, now);
    var k := ServedInTurn(v, s1);
    var t := CloseChoice(v, s1).value;
    var q := s.queues[QueueKey(cfg, t)];
    hide TickWindow, ServeChoice, Homed, Offers;
    assert v.Closable(t, q);
    assert FirstFor(q, t.bank, banks[t].openRow, 0) == |q| ==> Unwanted(q, t.bank, banks[t].openRow);
  }

  lemma TakenIsNoPrecharge(cfg: Config, s: QState, c: Choice)
    requires Conservation.AllPaired(cfg, s) && c.Take? && Applicable(cfg, s, c)
    ensures !s.queues[c.key][c.at].kind.PRECHARGE?
  {
    assert Paired(cfg, s.queues[c.key]);
  }

  /**
   Unless its rank waits for a refresh, a bank is closed only if it is open, may be closed, and has used up its row
   accesses or has nothing left in its queue for its open row; and only if no queue has anything to offer. The next
   search for a bank to close starts there.
   */
  lemma ClosedOnlyIfUnwanted(cfg: Config, banks: BankTable, s: QState, now: int)
    requires Fits(cfg, banks, s) && Conservation.AllPaired(cfg, s)
    ensures match Pop(cfg, banks, s, now).0
            case None => true
            case Some(p) =>
              p.kind.PRECHARGE? && !(s.refreshWaiting && s.refreshRank == p.rank) ==>
                && InRange(cfg, p.Target()) && ClosedForGood(cfg, banks, s, now, p.Target())
                && Pop(cfg, banks, s, now).1.nextPRE == p.Target()
  {
    hide TickWindow, Homed, Conservation.AllPaired, ClosedForGood;
    var s1 := TickWindows(s);
    var v := ViewOf(cfg, banks, s1, now);
    WindowsFit(cfg, banks, s);
    var c := Choose(v, s1);
    ChooseApplicable(v, s1);
    if c.Take? {
      PairedWindows(cfg, s);
      TakenIsNoPrecharge(cfg, s1, c);
    } else if c.Close? {
      if RefreshChoice(v, s1) == Nothing {
        CloseChoiceForGood(cfg, banks, s, now);
        hide RefreshChoice, ServeChoice, CloseChoice;
      }
    }
  }

  lemma PairedWindows(cfg: Config, s: QState)
    requires Conservation.AllPaired(cfg, s)
    ensures Conservation.AllPaired(cfg, TickWindows(s))
  {
    hide TickWindow;
  }

  lemma {:induction false} ClosableWalk(v: View, s: QState, x: Slot, n: nat) returns (k: nat)
    requires v.Fits() && Fits(v.cfg, v.banks, s) && InRange(v.cfg, x)
    ensures k <= n && forall j: nat | j < k :: !ClosableAt(v, s, NthBank(v.cfg, x, j))
    ensures match FirstClosable(v, s, x, n)
            case None => k == n
            case Some(y) => k < n && y == NthBank(v.cfg, x, k)
    decreases n
  {
    k := 0;
    if n > 0 && !ClosableAt(v, s, x) {
      var y := NextRankAndBank(v.cfg, x);
      var m := ClosableWalk(v, s, y, n - 1);
      k := m + 1;
      NthBankShift(v.cfg, x, m);
      forall j: nat | j < k
        ensures !ClosableAt(v, s, NthBank(v.cfg, x, j))
      {
        if j > 0 {
          NthBankShift(v.cfg, x, j - 1);
          assert !ClosableAt(v, s, NthBank(v.cfg, y, j - 1));
        }
      }
    }
  }

  /** The bank that is closed is the first one on the way from the cursor that may be; k tells how far it is. */
  lemma ClosedInTurn(v: View, s: QState) returns (k: nat)
    requires v.Fits() && Fits(v.cfg, v.banks, s) && v.cfg.rowBufferPolicy.OpenPage?
    ensures match CloseChoice(v, s)
            case None => forall x | InRange(v.cfg, x) :: !ClosableAt(v, s, x)
            case Some(x) =>
              && k < Total(v.cfg) && x == NthBank(v.cfg, s.nextPRE, k) && ClosableAt(v, s, x)
              && forall j: nat | j < k :: !ClosableAt(v, s, NthBank(v.cfg, s.nextPRE, j))
  {
    k := ClosableWalk(v, s, s.nextPRE, Total(v.cfg));
    if CloseChoice(v, s).None? {
      forall x | InRange(v.cfg, x)
        ensures !ClosableAt(v, s, x)
      {
        var m := NthBankReaches(v.cfg, s.nextPRE, x);
        assert !ClosableAt(v, s, NthBank(v.cfg, s.nextPRE, m));
      }
    }
  }
}

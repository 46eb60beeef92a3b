/** Pop comes back empty-handed only if there is nothing it may do, and it serves in round-robin order. */
module WorkConservation {
  import opened DramTypes
  import opened CommandQueueSpec
  import opened RoundRobin

  /** None of the first k queues on the way from x offers anything. */
  ghost predicate Quiet(v: View, s: QState, x: Slot, k: nat)
    requires v.Fits() && Fits(v.cfg, v.banks, s) && InRange(v.cfg, x)
  {
    forall j: nat | j < k :: !Offers(v, s, NthQueue(v.cfg, x, j))
  }

  lemma QuietShift(v: View, s: QState, x: Slot, k: nat)
    requires v.Fits() && Fits(v.cfg, v.banks, s) && InRange(v.cfg, x)
    requires !Offers(v, s, x) && Quiet(v, s, ScanNext(v.cfg, x), k)
    ensures Quiet(v, s, x, k + 1)
  {
    forall j: nat | j < k + 1
      ensures !Offers(v, s, NthQueue(v.cfg, x, j))
    {
      if j > 0 {
        NthQueueShift(v.cfg, x, j - 1);
        assert !Offers(v, s, NthQueue(v.cfg, ScanNext(v.cfg, x), j - 1));
      }
    }
  }

  /** The scan finds the first offering queue on the way around, or proves that the whole way offers nothing. */
  lemma {:induction false} OfferingScan(v: View, s: QState, x: Slot, n: nat) returns (k: nat)
    requires v.Fits() && Fits(v.cfg, v.banks, s) && InRange(v.cfg, x)
    ensures k <= n && Quiet(v, s, x, k)
    ensures match FirstOffering(v, s, x, n)
            case None => k == n
            case Some(y) => k < n && y == NthQueue(v.cfg, x, k)
    decreases n
  {
    k := 0;
    if n > 0 && !Offers(v, s, x) {
      var m := OfferingScan(v, s, ScanNext(v.cfg, x), n - 1);
      QuietShift(v, s, x, m);
      NthQueueShift(v.cfg, x, m);
      k := m + 1;
    }
  }

  lemma {:induction false} NthQueueShift(cfg: Config, x: Slot, j: nat)
    requires InRange(cfg, x)
    ensures NthQueue(cfg, x, j + 1) == NthQueue(cfg, ScanNext(cfg, x), j)
  {
    if j > 0 {
      NthQueueShift(cfg, x, j - 1);
    }
  }

  lemma {:induction false} NthBankShift(cfg: Config, x: Slot, j: nat)
    requires InRange(cfg, x)
    ensures NthBank(cfg, x, j + 1) == NthBank(cfg, NextRankAndBank(cfg, x), j)
  {
    if j > 0 {
      NthBankShift(cfg, x, j - 1);
    }
  }

  predicate ClosableAt(v: View, s: QState, x: Slot)
    requires v.Fits() && Fits(v.cfg, v.banks, s) && InRange(v.cfg, x)
  {
    v.Closable(x, s.queues[QueueKey(v.cfg, x)])
  }

  lemma {:induction false} ClosableScan(v: View, s: QState, x: Slot, n: nat)
    requires v.Fits() && Fits(v.cfg, v.banks, s) && InRange(v.cfg, x)
    ensures FirstClosable(v, s, x, n).None? ==> forall j: nat | j < n :: !ClosableAt(v, s, NthBank(v.cfg, x, j))
    decreases n
  {
    if n > 0 && FirstClosable(v, s, x, n).None? {
      var y := NextRankAndBank(v.cfg, x);
      ClosableScan(v, s, y, n - 1);
      forall j: nat | j < n
        ensures !ClosableAt(v, s, NthBank(v.cfg, x, j))
      {
        if j > 0 {
          NthBankShift(v.cfg, x, j - 1);
          assert !ClosableAt(v, s, NthBank(v.cfg, y, j - 1));
        }
      }
    }
  }

  /** Whether a queue offers something depends on its rank and its key only. */
  lemma OffersByKey(v: View, s: QState, x: Slot, y: Slot)
    requires v.Fits() && Fits(v.cfg, v.banks, s) && InRange(v.cfg, x) && InRange(v.cfg, y)
    requires x.rank == y.rank && QueueKey(v.cfg, x) == QueueKey(v.cfg, y)
    ensures Offers(v, s, x) <==> Offers(v, s, y)
  {
  }

  /**
   May the i-th packet leave its queue: may it be issued, and does nothing in front of it hold it back? Open page: no
   earlier access to its row does. Close page: its own ACTIVATE does not; a queue of a single bank gives up its head.
   */
  predicate Eligible(v: View, q: seq<Packet>, i: nat)
    requires v.Fits() && i < |q| && InRange(v.cfg, q[i].Target())
  {
    && v.IsIssuable(q[i])
    && match v.cfg.rowBufferPolicy
       case OpenPage =>
         forall j | 0 <= j < i :: q[j].kind.ACTIVATE? || q[j].bank != q[i].bank || q[j].row != q[i].row
       case ClosePage =>
         || i == 0
         || (v.cfg.queuingStructure.PerRank? &&
             !(q[i-1].kind.ACTIVATE? && q[i-1].physicalAddress == q[i].physicalAddress))
  }

  /** A queue offers something exactly if its rank is not held for a refresh and some packet in it is eligible. */
  lemma OffersMeaning(v: View, s: QState, x: Slot)
    requires v.Fits() && Fits(v.cfg, v.banks, s) && InRange(v.cfg, x)
    ensures var q := s.queues[QueueKey(v.cfg, x)];
            Offers(v, s, x) <==>
            !(s.refreshWaiting && s.refreshRank == x.rank) &&
            exists i :: 0 <= i < |q| && InRange(v.cfg, q[i].Target()) && Eligible(v, q, i)
  {
    var q := s.queues[QueueKey(v.cfg, x)];
    assert Homed(v.cfg, QueueKey(v.cfg, x), q);
    forall i | 0 <= i < |q|
      ensures InRange(v.cfg, q[i].Target()) && (v.Servable(q, i) <==> Eligible(v, q, i))
    {
      ServableIsEligible(v, q, i);
    }
    hide View.Servable, Eligible;
    var k := v.FirstServable(q, 0);
    if k < |q| {
      assert v.Servable(q, k);
    }
  }

  lemma ServableIsEligible(v: View, q: seq<Packet>, i: nat)
    requires v.Fits() && i < |q| && InRange(v.cfg, q[i].Target())
    ensures v.Servable(q, i) <==> Eligible(v, q, i)
  {
  }

  /**
   Pop returns null if and only if the waiting refresh needs nothing, no queue of any rank offers a packet,
   and (open page) no bank may be closed; it then changes nothing but the windows.
   */
  lemma IdleIffNothingToDo(cfg: Config, banks: BankTable, s: QState, now: int)
    requires Fits(cfg, banks, s)
    ensures var s1 := TickWindows(s); var v := ViewOf(cfg, banks, s1, now);
            Pop(cfg, banks, s, now).0 == None <==>
            && RefreshChoice(v, s1) == Nothing
            && (forall x | InRange(cfg, x) :: !Offers(v, s1, x))
            && (cfg.rowBufferPolicy.OpenPage? ==> forall x | InRange(cfg, x) :: !ClosableAt(v, s1, x))
    ensures Pop(cfg, banks, s, now).0 == None ==> Pop(cfg, banks, s, now).1 == TickWindows(s)
  {
    var s1 := TickWindows(s);
    var v := ViewOf(cfg, banks, s1, now);
    ChooseApplicable(v, s1);
    if Choose(v, s1) == Nothing {
      var q := OfferingScan(v, s1, s1.next, ScanLength(cfg));
      ClosableScan(v, s1, s1.nextPRE, Total(cfg));
      forall x | InRange(cfg, x)
        ensures !Offers(v, s1, x)
        ensures cfg.rowBufferPolicy.OpenPage? ==> !ClosableAt(v, s1, x)
      {
        var k := NthQueueReaches(cfg, s1.next, x);
        OffersByKey(v, s1, x, NthQueue(cfg, s1.next, k));
        var m := NthBankReaches(cfg, s1.nextPRE, x);
        assert cfg.rowBufferPolicy.OpenPage? ==> !ClosableAt(v, s1, NthBank(cfg, s1.nextPRE, m));
      }
    }
  }

  /** When a queue is served, no queue between the cursor and it had anything to offer; k tells how far it is. */
  lemma ServedInTurn(v: View, s: QState) returns (k: nat)
    requires v.Fits() && Fits(v.cfg, v.banks, s)
    ensures match ServeChoice(v, s)
            case None => forall x | InRange(v.cfg, x) :: !Offers(v, s, x)
            case Some(x) =>
              && Offers(v, s, x)
              && k < ScanLength(v.cfg)
              && x == NthQueue(v.cfg, s.next, k)
              && Quiet(v, s, s.next, k)
  {
    k := OfferingScan(v, s, s.next, ScanLength(v.cfg));
    if ServeChoice(v, s).None? {
      forall x | InRange(v.cfg, x)
        ensures !Offers(v, s, x)
      {
        var i := NthQueueReaches(v.cfg, s.next, x);
        OffersByKey(v, s, x, NthQueue(v.cfg, s.next, i));
      }
    }
  }
}

/**
 What pop does under the close-page policy when only a few packets for the banks 0 and 1 of rank 0 wait.
 The packets are reads of row 0, or the ACTIVATEs in front of them, with addresses that decode to these banks. The
 only packet that can be issued goes; if there is none, nothing goes. While the rank waits for its refresh, its open
 banks are read first, and the refresh goes when no bank is open and all of them may be activated; other ranks may be
 refreshed meanwhile.
 */
module FewPackets {
  import opened DramTypes
  import opened CommandQueueSpec
  import opened WorkConservation
  import Conservation
  import AddressMapping
  import FourActivates

  const X0 := Slot(0, 0)
  const X1 := Slot(0, 1)

  /** A read of column 0 of row 0 in bank 0 or 1 of rank 0, or its ACTIVATE. */
  function Tx(bank: nat, kind: BusPacketType): Packet {
    Packet(0, 0, bank, 0, 64 * bank, kind, 0)
  }

  lemma {:induction false} ShiftedZero(k: nat)
    ensures AddressMapping.ShiftLeft(0, k) == 0
  {
    if k > 0 {
      ShiftedZero(k - 1);
    }
  }

  /** With one channel and bursts of 64 bytes these are the addresses that decode to these banks. */
  lemma TxDecodes(g: AddressMapping.Geometry, bank: nat)
    requires g.offset == 6 && g.chan == 0 && g.bank >= 1 && bank <= 1
    ensures AddressMapping.Decode(ClosePage, g, Tx(bank, READ_P).physicalAddress) ==
            (AddressMapping.Fields(0, 0, bank, 0, 0), 0)
  {
    var f := AddressMapping.Fields(0, 0, bank, 0, 0);
    AddressMapping.ComposeDecodes(ClosePage, g, f, 0, 0);
    ShiftedZero(g.row);
    ShiftedZero(g.col);
    ShiftedZero(g.rank);
    ShiftedZero(g.bank);
    assert AddressMapping.Compose(ClosePage, g, f, 0, 0) == AddressMapping.ShiftLeft(bank, 6) == 64 * bank;
  }

  /** The queue of key k when w0 waits for bank 0, and then w1 for bank 1, and nothing else waits. */
  function Waiting(cfg: Config, k: Slot, w0: seq<Packet>, w1: seq<Packet>): seq<Packet> {
    if cfg.queuingStructure.PerRank? then (if k == X0 then w0 + w1 else [])
    else if k == X0 then w0 else if k == X1 then w1 else []
  }

  ghost predicate Lists(cfg: Config, s: QState, w0: seq<Packet>, w1: seq<Packet>) {
    && (forall k | k in s.queues :: s.queues[k] == Waiting(cfg, k, w0, w1))
    && (forall p | p in w0 :: p.Target() == X0)
    && (forall p | p in w1 :: p.Target() == X1)
  }

  ghost predicate Issuable(cfg: Config, banks: BankTable, s: QState, now: int, p: Packet)
    requires Fits(cfg, banks, s) && InRange(cfg, p.Target())
  {
    ViewOf(cfg, banks, TickWindows(s), now).IsIssuable(p)
  }

  /** What a call of pop leaves alone, apart from its queues. */
  ghost predicate Kept(s: QState, s': QState, more: nat)
    requires |s.faw| > 0
  {
    && s'.hits == s.hits
    && |s'.faw| == |s.faw| && |s'.faw[0]| <= |s.faw[0]| + more
  }

  lemma WindowGrowth(cfg: Config, banks: BankTable, s: QState, now: int)
    requires Fits(cfg, banks, s)
    ensures |Pop(cfg, banks, s, now).1.faw| == |s.faw| > 0
    ensures |Pop(cfg, banks, s, now).1.faw[0]| <= |s.faw[0]| + 1
    ensures match Pop(cfg, banks, s, now).0
            case Some(p) => !p.kind.ACTIVATE? ==> |Pop(cfg, banks, s, now).1.faw[0]| <= |s.faw[0]|
            case None => |Pop(cfg, banks, s, now).1.faw[0]| <= |s.faw[0]|
  {
    FourActivates.PopWindows(cfg, banks, s, now);
  }

  /** If nothing in the queues can be issued and no refresh is due, pop does nothing. */
  lemma PopNothing(cfg: Config, banks: BankTable, s: QState, now: int)
    requires Fits(cfg, banks, s) && cfg.rowBufferPolicy.ClosePage?
    requires RefreshChoice(ViewOf(cfg, banks, TickWindows(s), now), TickWindows(s)) == Nothing
    requires forall k, i | k in s.queues && 0 <= i < |s.queues[k]| ::
               InRange(cfg, s.queues[k][i].Target()) &&
               (Issuable(cfg, banks, s, now, s.queues[k][i]) ==> s.refreshWaiting && s.refreshRank == k.rank)
    ensures Pop(cfg, banks, s, now).0 == None
    ensures Pop(cfg, banks, s, now).1.queues == s.queues && Kept(s, Pop(cfg, banks, s, now).1, 0)
    ensures Pop(cfg, banks, s, now).1.refreshWaiting == s.refreshWaiting
    ensures Pop(cfg, banks, s, now).1.refreshRank == s.refreshRank
  {
    var s1 := TickWindows(s);
    var v := ViewOf(cfg, banks, s1, now);
    forall x | InRange(cfg, x)
      ensures !Offers(v, s1, x)
    {
      OffersMeaning(v, s1, x);
      assert QueueKey(cfg, x).rank == x.rank;
    }
    IdleIffNothingToDo(cfg, banks, s, now);
    WindowGrowth(cfg, banks, s, now);
  }

  /** What pop does once the round has chosen the queue of y and its packet i. */
  lemma PopServed(cfg: Config, banks: BankTable, s: QState, now: int, y: Slot, k: Slot, i: nat)
    requires Fits(cfg, banks, s) && !s.refreshWaiting && InRange(cfg, y) && k in s.queues && i < |s.queues[k]|
    requires var s1 := TickWindows(s); var v := ViewOf(cfg, banks, s1, now);
             ServeChoice(v, s1) == Some(y) && Served(v, s1, y) == Take(k, i, false)
    ensures var (r, s') := Pop(cfg, banks, s, now);
            && r == Some(s.queues[k][i])
            && s'.queues == s.queues[k := Removed(s.queues[k], i, false)]
            && !s'.refreshWaiting && s'.hits == s.hits
  {
    Conservation.PopFits(cfg, banks, s, now);
    hide ServeChoice, Served, Removed, Homed, Cursors, TickWindow;
  }

  /** If exactly one packet in the queues can be issued, and its queue may give it up, that one goes. */
  lemma PopOnly(cfg: Config, banks: BankTable, s: QState, now: int, k: Slot, i: nat)
    requires Fits(cfg, banks, s) && cfg.rowBufferPolicy.ClosePage? && !s.refreshWaiting
    requires k in s.queues && i < |s.queues[k]| && InRange(cfg, s.queues[k][i].Target())
    requires ViewOf(cfg, banks, TickWindows(s), now).Servable(s.queues[k], i)
    requires forall k', j | k' in s.queues && 0 <= j < |s.queues[k']| && (k' != k || j != i) ::
               InRange(cfg, s.queues[k'][j].Target()) && !Issuable(cfg, banks, s, now, s.queues[k'][j])
    ensures var (r, s') := Pop(cfg, banks, s, now);
            && r == Some(s.queues[k][i])
            && s'.queues == s.queues[k := Removed(s.queues[k], i, false)]
            && !s'.refreshWaiting && Kept(s, s', if r.value.kind.ACTIVATE? then 1 else 0)
  {
    hide Pop, Removed;
    var s1 := TickWindows(s);
    var v := ViewOf(cfg, banks, s1, now);
    var q := s.queues[k];
    assert Homed(cfg, k, q);
    OffersMeaning(v, s1, q[i].Target());
    var n := ServedInTurn(v, s1);
    var y := ServeChoice(v, s1).value;
    OffersMeaning(v, s1, y);
    assert QueueKey(cfg, y) == k && Offer(v, s1, y) == i;
    PopServed(cfg, banks, s, now, y, k, i);
    WindowGrowth(cfg, banks, s, now);
  }

  /** None of these packets can be issued. */
  ghost predicate Stuck(cfg: Config, banks: BankTable, s: QState, now: int, w: seq<Packet>)
    requires Fits(cfg, banks, s)
  {
    forall p | p in w :: InRange(cfg, p.Target()) && !Issuable(cfg, banks, s, now, p)
  }

  lemma OthersStuck(cfg: Config, banks: BankTable, s: QState, now: int, w0: seq<Packet>, w1: seq<Packet>)
    requires Fits(cfg, banks, s) && Lists(cfg, s, w0, w1) && w0 != []
    requires Stuck(cfg, banks, s, now, w0[1..]) && Stuck(cfg, banks, s, now, w1)
    ensures forall k, j | k in s.queues && 0 <= j < |s.queues[k]| && (k != X0 || j != 0) ::
              InRange(cfg, s.queues[k][j].Target()) && !Issuable(cfg, banks, s, now, s.queues[k][j])
  {
    hide Fits, Issuable;
    forall k, j | k in s.queues && 0 <= j < |s.queues[k]| && (k != X0 || j != 0)
      ensures InRange(cfg, s.queues[k][j].Target()) && !Issuable(cfg, banks, s, now, s.queues[k][j])
    {
      assert s.queues[k] == Waiting(cfg, k, w0, w1);
      assert s.queues[k][j] in w0[1..] || s.queues[k][j] in w1;
    }
  }

  lemma FirstRemoved(cfg: Config, s: QState, s': QState, w0: seq<Packet>, w1: seq<Packet>)
    requires Lists(cfg, s, w0, w1) && w0 != [] && X0 in s.queues && |s.queues[X0]| > 0
    requires s'.queues == s.queues[X0 := Removed(s.queues[X0], 0, false)]
    ensures Lists(cfg, s', w0[1..], w1)
  {
    assert s.queues[X0] == Waiting(cfg, X0, w0, w1);
    assert Removed(s.queues[X0], 0, false) == s.queues[X0][1..];
    assert (w0 + w1)[1..] == w0[1..] + w1;
    forall k | k in s'.queues
      ensures s'.queues[k] == Waiting(cfg, k, w0[1..], w1)
    {
      assert s.queues[k] == Waiting(cfg, k, w0, w1);
    }
  }

  /** The first packet for bank 0 goes. */
  lemma PopHead0(cfg: Config, banks: BankTable, s: QState, now: int, w0: seq<Packet>, w1: seq<Packet>)
    requires Fits(cfg, banks, s) && cfg.rowBufferPolicy.ClosePage? && cfg.numBanks > 1 && !s.refreshWaiting
    requires Lists(cfg, s, w0, w1) && w0 != [] && InRange(cfg, X0)
    requires Issuable(cfg, banks, s, now, w0[0]) && Stuck(cfg, banks, s, now, w0[1..]) && Stuck(cfg, banks, s, now, w1)
    ensures var (r, s') := Pop(cfg, banks, s, now);
            && r == Some(w0[0]) && Lists(cfg, s', w0[1..], w1)
            && !s'.refreshWaiting && Kept(s, s', if r.value.kind.ACTIVATE? then 1 else 0)
  {
    hide Pop, Stuck;
    assert IsKey(cfg, X0);
    assert s.queues[X0] == Waiting(cfg, X0, w0, w1) && s.queues[X0][0] == w0[0];
    OthersStuck(cfg, banks, s, now, w0, w1);
    PopOnly(cfg, banks, s, now, X0, 0);
    hide Lists, Issuable, Fits;
    FirstRemoved(cfg, s, Pop(cfg, banks, s, now).1, w0, w1);
  }

  /** The first packet for bank 1 goes, although what waits for bank 0 came first. */
  lemma PopHead1(cfg: Config, banks: BankTable, s: QState, now: int, w0: seq<Packet>, w1: seq<Packet>)
    requires Fits(cfg, banks, s) && cfg.rowBufferPolicy.ClosePage? && cfg.numBanks > 1 && !s.refreshWaiting
    requires Lists(cfg, s, w0, w1) && w1 != [] && InRange(cfg, X1) && (forall p | p in w0 :: !p.kind.ACTIVATE?)
    requires Issuable(cfg, banks, s, now, w1[0]) && Stuck(cfg, banks, s, now, w0) && Stuck(cfg, banks, s, now, w1[1..])
    ensures var (r, s') := Pop(cfg, banks, s, now);
            && r == Some(w1[0]) && Lists(cfg, s', w0, w1[1..])
            && !s'.refreshWaiting && Kept(s, s', if r.value.kind.ACTIVATE? then 1 else 0)
  {
    var k := QueueKey(cfg, X1);
    assert IsKey(cfg, k);
    var i := if cfg.queuingStructure.PerRank? then |w0| else 0;
    forall k', j | k' in s.queues && 0 <= j < |s.queues[k']| && (k' != k || j != i)
      ensures InRange(cfg, s.queues[k'][j].Target()) && !Issuable(cfg, banks, s, now, s.queues[k'][j])
    {
      assert s.queues[k'] == Waiting(cfg, k', w0, w1);
      assert s.queues[k'][j] in w0 || s.queues[k'][j] in w1[1..];
    }
    assert s.queues[k] == Waiting(cfg, k, w0, w1) && s.queues[k][i] == w1[0];
    assert i > 0 ==> s.queues[k][i-1] in w0;
    PopOnly(cfg, banks, s, now, k, i);
    var s' := Pop(cfg, banks, s, now).1;
    assert Removed(s.queues[k], i, false) == s.queues[k][..i] + s.queues[k][i+1..];
    assert (w0 + w1)[..|w0|] + (w0 + w1)[|w0|+1..] == w0 + w1[1..];
    forall k' | k' in s'.queues
      ensures s'.queues[k'] == Waiting(cfg, k', w0, w1[1..])
    {
      assert s.queues[k'] == Waiting(cfg, k', w0, w1);
    }
  }

  /** Nothing goes. */
  lemma PopStuck(cfg: Config, banks: BankTable, s: QState, now: int, w0: seq<Packet>, w1: seq<Packet>)
    requires Fits(cfg, banks, s) && cfg.rowBufferPolicy.ClosePage? && !s.refreshWaiting
    requires Lists(cfg, s, w0, w1) && Stuck(cfg, banks, s, now, w0) && Stuck(cfg, banks, s, now, w1)
    ensures Pop(cfg, banks, s, now).0 == None && Lists(cfg, Pop(cfg, banks, s, now).1, w0, w1)
    ensures !Pop(cfg, banks, s, now).1.refreshWaiting && Kept(s, Pop(cfg, banks, s, now).1, 0)
  {
    forall k, i | k in s.queues && 0 <= i < |s.queues[k]|
      ensures InRange(cfg, s.queues[k][i].Target()) && !Issuable(cfg, banks, s, now, s.queues[k][i])
    {
      assert s.queues[k] == Waiting(cfg, k, w0, w1);
      assert s.queues[k][i] in w0 || s.queues[k][i] in w1;
    }
    PopNothing(cfg, banks, s, now);
  }

  /** Nothing goes but perhaps the refresh of another rank. */
  lemma PopAside(cfg: Config, banks: BankTable, s: QState, now: int, w0: seq<Packet>)
    requires Fits(cfg, banks, s) && cfg.rowBufferPolicy.ClosePage? && !Held(s, 0)
    requires Lists(cfg, s, w0, []) && Stuck(cfg, banks, s, now, w0)
    ensures var (r, s') := Pop(cfg, banks, s, now);
            && Lists(cfg, s', w0, []) && !Held(s', 0) && Kept(s, s', 0)
            && match r
               case None => true
               case Some(p) => p.kind.REFRESH? && p.rank != 0
  {
    var s1 := TickWindows(s);
    var v := ViewOf(cfg, banks, s1, now);
    if RefreshChoice(v, s1) == Nothing {
      forall k, i | k in s.queues && 0 <= i < |s.queues[k]|
        ensures InRange(cfg, s.queues[k][i].Target()) && !Issuable(cfg, banks, s, now, s.queues[k][i])
      {
        assert s.queues[k] == Waiting(cfg, k, w0, []);
        assert s.queues[k][i] in w0;
      }
      PopNothing(cfg, banks, s, now);
    } else {
      forall x | InRange(cfg, x) && x.rank != 0
        ensures s.queues[QueueKey(cfg, x)] == []
      {
        assert s.queues[QueueKey(cfg, x)] == Waiting(cfg, QueueKey(cfg, x), w0, []);
      }
      assert RefreshChoice(v, s1) == Refresh(s1.refreshRank);
      Conservation.PopFits(cfg, banks, s, now);
      WindowGrowth(cfg, banks, s, now);
    }
  }

  // ---------------------------------------------------------------- the same while rank 0 waits for a refresh

  lemma HeldNothing(cfg: Config, banks: BankTable, s: QState, now: int, w0: seq<Packet>, w1: seq<Packet>)
    requires Fits(cfg, banks, s) && cfg.rowBufferPolicy.ClosePage? && Held(s, 0)
    requires Lists(cfg, s, w0, w1) && InRange(cfg, X0) && InRange(cfg, X1)
    requires RefreshChoice(ViewOf(cfg, banks, TickWindows(s), now), TickWindows(s)) == Nothing
    ensures Pop(cfg, banks, s, now).0 == None && Lists(cfg, Pop(cfg, banks, s, now).1, w0, w1)
    ensures Held(Pop(cfg, banks, s, now).1, 0) && Kept(s, Pop(cfg, banks, s, now).1, 0)
  {
    forall k, i | k in s.queues && 0 <= i < |s.queues[k]|
      ensures InRange(cfg, s.queues[k][i].Target()) && k.rank == 0
    {
      assert s.queues[k] == Waiting(cfg, k, w0, w1);
      assert s.queues[k][i] in w0 || s.queues[k][i] in w1;
    }
    PopNothing(cfg, banks, s, now);
  }

  lemma HeldTaken(cfg: Config, banks: BankTable, s: QState, now: int, k: Slot)
    requires Fits(cfg, banks, s) && Held(s, 0) && k in s.queues && |s.queues[k]| > 0 && !s.queues[k][0].kind.ACTIVATE?
    requires RefreshChoice(ViewOf(cfg, banks, TickWindows(s), now), TickWindows(s)) == Take(k, 0, false)
    ensures var (r, s') := Pop(cfg, banks, s, now);
            r == Some(s.queues[k][0]) && s'.queues == s.queues[k := s.queues[k][1..]] && Held(s', 0) && Kept(s, s', 0)
  {
    Conservation.PopFits(cfg, banks, s, now);
    WindowGrowth(cfg, banks, s, now);
    assert Removed(s.queues[k], 0, false) == s.queues[k][1..];
  }

  /** Bank 0 is open: the read that waits for it goes as soon as it can, and nothing else. */
  lemma HeldOpen0(cfg: Config, banks: BankTable, s: QState, now: int, w0: seq<Packet>, w1: seq<Packet>)
    requires Fits(cfg, banks, s) && cfg.rowBufferPolicy.ClosePage? && Held(s, 0) && InRange(cfg, X0) && InRange(cfg, X1)
    requires Lists(cfg, s, w0, w1) && (w0 == [] || w0 == [Tx(0, READ_P)])
    requires banks[X0].status.ROW_ACTIVE? && banks[X0].openRow == 0
    ensures var (r, s') := Pop(cfg, banks, s, now);
            && Held(s', 0) && Kept(s, s', 0)
            && if w0 != [] && Issuable(cfg, banks, s, now, w0[0]) then r == Some(w0[0]) && Lists(cfg, s', [], w1)
               else r == None && Lists(cfg, s', w0, w1)
  {
    var s1 := TickWindows(s);
    var v := ViewOf(cfg, banks, s1, now);
    assert v.Busy(X0) && v.FirstBusy(0, 0) == 0;
    assert IsKey(cfg, X0);
    var q := s.queues[X0];
    assert q == Waiting(cfg, X0, w0, w1);
    if w0 != [] {
      assert q[0] == w0[0] && FirstFor(q, 0, 0, 0) == 0;
      if Issuable(cfg, banks, s, now, w0[0]) {
        HeldTaken(cfg, banks, s, now, X0);
        var s' := Pop(cfg, banks, s, now).1;
        assert (w0 + w1)[1..] == [] + w1;
        forall k | k in s'.queues
          ensures s'.queues[k] == Waiting(cfg, k, [], w1)
        {
          assert s.queues[k] == Waiting(cfg, k, w0, w1);
        }
      } else {
        HeldNothing(cfg, banks, s, now, w0, w1);
      }
    } else {
      assert forall p | p in q :: p in w1;
      NotFor(q, 0, 0);
      HeldNothing(cfg, banks, s, now, w0, w1);
    }
  }

  lemma NotFor(q: seq<Packet>, bank: nat, row: int)
    requires forall p | p in q :: p.bank != bank
    ensures FirstFor(q, bank, row, 0) == |q|
  {
  }

  /** Bank 0 is closed but may not be activated yet: nothing goes. */
  lemma HeldTooEarly(cfg: Config, banks: BankTable, s: QState, now: int, w0: seq<Packet>, w1: seq<Packet>)
    requires Fits(cfg, banks, s) && cfg.rowBufferPolicy.ClosePage? && Held(s, 0) && InRange(cfg, X0) && InRange(cfg, X1)
    requires Lists(cfg, s, w0, w1)
    requires !banks[X0].status.ROW_ACTIVE? && banks[X0].nextActivate > now
    ensures var (r, s') := Pop(cfg, banks, s, now); Held(s', 0) && Kept(s, s', 0) && r == None && Lists(cfg, s', w0, w1)
  {
    var v := ViewOf(cfg, banks, TickWindows(s), now);
    assert v.Busy(X0) && v.FirstBusy(0, 0) == 0;
    HeldNothing(cfg, banks, s, now, w0, w1);
  }

  /** Bank 0 is free and bank 1 open: the read that waits for bank 1 goes as soon as it can. */
  lemma HeldOpen1(cfg: Config, banks: BankTable, s: QState, now: int, w1: seq<Packet>)
    requires Fits(cfg, banks, s) && cfg.rowBufferPolicy.ClosePage? && Held(s, 0) && InRange(cfg, X0) && InRange(cfg, X1)
    requires Lists(cfg, s, [], w1) && (w1 == [] || w1 == [Tx(1, READ_P)])
    requires !banks[X0].status.ROW_ACTIVE? && banks[X0].nextActivate <= now
    requires banks[X1].status.ROW_ACTIVE? && banks[X1].openRow == 0
    ensures var (r, s') := Pop(cfg, banks, s, now);
            && Held(s', 0) && Kept(s, s', 0)
            && if w1 != [] && Issuable(cfg, banks, s, now, w1[0]) then r == Some(w1[0]) && Lists(cfg, s', [], [])
               else r == None && Lists(cfg, s', [], w1)
  {
    var s1 := TickWindows(s);
    var v := ViewOf(cfg, banks, s1, now);
    assert !v.Busy(X0) && v.Busy(X1) && v.FirstBusy(0, 0) == 1;
    var k := QueueKey(cfg, X1);
    assert IsKey(cfg, k);
    var q := s.queues[k];
    assert q == Waiting(cfg, k, [], w1) == w1;
    if w1 != [] {
      assert q[0] == w1[0] && FirstFor(q, 1, 0, 0) == 0;
      if Issuable(cfg, banks, s, now, w1[0]) {
        HeldTaken(cfg, banks, s, now, k);
        var s' := Pop(cfg, banks, s, now).1;
        forall k' | k' in s'.queues
          ensures s'.queues[k'] == Waiting(cfg, k', [], [])
        {
          assert s.queues[k'] == Waiting(cfg, k', [], w1);
        }
      } else {
        HeldNothing(cfg, banks, s, now, [], w1);
      }
    } else {
      HeldNothing(cfg, banks, s, now, [], w1);
    }
  }

  /** No bank of rank 0 is open: the refresh goes if all of them may be activated, and nothing goes otherwise. */
  lemma HeldShut(cfg: Config, banks: BankTable, s: QState, now: int, w0: seq<Packet>, w1: seq<Packet>)
    requires Fits(cfg, banks, s) && cfg.rowBufferPolicy.ClosePage? && Held(s, 0) && InRange(cfg, X0) && InRange(cfg, X1)
    requires Lists(cfg, s, w0, w1)
    requires forall t | t in banks && t.rank == 0 :: !banks[t].status.ROW_ACTIVE? && !banks[t].status.POWER_DOWN?
    ensures var (r, s') := Pop(cfg, banks, s, now);
            && Kept(s, s', 0) && Lists(cfg, s', w0, w1)
            && if forall t | t in banks && t.rank == 0 :: banks[t].nextActivate <= now
               then r == Some(Packet(1, 1, 0, 0, 0, REFRESH, 0)) && !s'.refreshWaiting
               else r == None && Held(s', 0)
  {
    var s1 := TickWindows(s);
    var v := ViewOf(cfg, banks, s1, now);
    var b := v.FirstBusy(0, 0);
    assert forall t | t in banks && t.rank == 0 :: t == Slot(0, t.bank) && t.bank < cfg.numBanks;
    if b == cfg.numBanks {
      assert forall t | t in banks && t.rank == 0 :: !v.Busy(Slot(0, t.bank));
      assert RefreshChoice(v, s1) == Refresh(0);
      Conservation.PopFits(cfg, banks, s, now);
      WindowGrowth(cfg, banks, s, now);
    } else {
      assert v.Busy(Slot(0, b)) && InRange(cfg, Slot(0, b));
      HeldNothing(cfg, banks, s, now, w0, w1);
    }
  }
}

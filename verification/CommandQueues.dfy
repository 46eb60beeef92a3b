/** The command queue itself: an object whose fields pop edits in nested scans. */
module CommandQueues {
  import opened DramTypes
  import opened CommandQueueSpec
  import opened RoundRobin

  /** The controller's bank table; the command queue holds a reference to the same object. */
  class Banks {
    var state: BankTable

    constructor (cfg: Config)
      ensures Covers(cfg, state)
      ensures forall s | s in state :: state[s] == FRESH_BANK
    {
      state := map s: Slot | s in AllSlots(cfg) :: FRESH_BANK;
    }
  }

  function AllSlots(cfg: Config): (all: set<Slot>)
    ensures forall s :: s in all <==> InRange(cfg, s)
  {
    set r, b | 0 <= r < cfg.numRanks && 0 <= b < cfg.numBanks :: Slot(r, b)
  }

  class CommandQueue {
    const cfg: Config
    const table: Banks
    var queues: map<Slot, seq<Packet>>
    var rowAccessCounters: map<Slot, int>
    var tFAWCountdown: seq<seq<int>>
    var nextRank: nat
    var nextBank: nat
    var nextRankPRE: nat
    var nextBankPRE: nat
    var refreshRank: int
    var refreshWaiting: bool
    var sendAct: bool

    ghost function State(): QState
      reads this
    {
      QState(queues, rowAccessCounters, tFAWCountdown, Slot(nextRank, nextBank),
             Slot(nextRankPRE, nextBankPRE), refreshRank, refreshWaiting, sendAct)
    }

    ghost predicate Valid()
      reads this, table
    {
      Fits(cfg, table.state, State())
    }

    ghost function Sight(now: int): View
      reads this, table
    {
      ViewOf(cfg, table.state, State(), now)
    }

    constructor (cfg: Config, table: Banks)
      requires cfg.Valid() && Covers(cfg, table.state)
      ensures this.cfg == cfg && this.table == table
      ensures Valid()
      ensures State() == Initial(cfg)
    {
      this.cfg, this.table := cfg, table;
      sendAct, refreshWaiting, refreshRank := true, false, 0;
      nextRank, nextBank, nextRankPRE, nextBankPRE := 0, 0, 0, 0;
      rowAccessCounters := map s: Slot | s in AllSlots(cfg) :: 0;
      tFAWCountdown := seq(cfg.numRanks, _ => []);
      queues := map k: Slot | k in AllSlots(cfg) && IsKey(cfg, k) :: [];
      new;
      InitialFits(cfg, table.state);
    }

    /** Appends; false means that the simulator stops because the queue is longer than its depth. */
    method Enqueue(p: Packet) returns (ok: bool)
      requires Valid() && InRange(cfg, p.Target())
      modifies this`queues
      ensures Valid()
      ensures var k := QueueKey(cfg, p.Target());
              queues == old(queues)[k := old(queues)[k] + [p]] && ok == (|old(queues)[k]| < CMD_QUEUE_DEPTH)
    {
      var k := QueueKey(cfg, p.Target());
      queues := queues[k := queues[k] + [p]];
      ok := |queues[k]| <= CMD_QUEUE_DEPTH;
    }

    method NeedRefresh(rank: nat)
      requires Valid() && rank < cfg.numRanks
      modifies this`refreshWaiting, this`refreshRank
      ensures Valid() && State() == old(State()).(refreshWaiting := true, refreshRank := rank)
    {
      refreshWaiting := true;
      refreshRank := rank;
    }

    /** Slides every rank's four-activate window by one call. */
    method SlideWindows()
      requires Valid()
      modifies this`tFAWCountdown
      ensures Valid() && State() == TickWindows(old(State()))
    {
      ghost var was := tFAWCountdown;
      for i := 0 to cfg.numRanks
        invariant |tFAWCountdown| == |was| == cfg.numRanks
        invariant forall r | 0 <= r < i :: tFAWCountdown[r] == TickWindow(was[r])
        invariant forall r | i <= r < cfg.numRanks :: tFAWCountdown[r] == was[r]
      {
        var w := tFAWCountdown[i];
        for j := 0 to |w|
          invariant |w| == |was[i]|
          invariant forall k | 0 <= k < j :: w[k] == was[i][k] - 1
          invariant forall k | j <= k < |w| :: w[k] == was[i][k]
        {
          w := w[j := w[j] - 1];
        }
        assert w == seq(|was[i]|, k requires 0 <= k < |was[i]| => was[i][k] - 1);
        if |w| > 0 && w[0] == 0 {
          w := w[1..];
        }
        tFAWCountdown := tFAWCountdown[i := w];
      }
      assert tFAWCountdown == TickWindows(old(State())).faw;
    }

    /** Scans the queue for the first packet that goes to the bank's row. */
    method FindFor(q: seq<Packet>, bank: nat, row: int) returns (k: nat)
      ensures k == FirstFor(q, bank, row, 0)
    {
      k := 0;
      while k < |q| && !(q[k].bank == bank && q[k].row == row)
        invariant k <= |q| && FirstFor(q, bank, row, 0) == FirstFor(q, bank, row, k)
      {
        k := k + 1;
      }
    }

    /** Takes packet at, and possibly the ACTIVATE before it, out of its queue. */
    method TakeOut(key: Slot, at: nat, withAct: bool) returns (p: Packet)
      requires Valid() && key in queues && at < |queues[key]| && (withAct ==> at > 0)
      modifies this`queues, this`rowAccessCounters
      ensures Valid() && p == old(queues)[key][at]
      ensures Applicable(cfg, old(State()), Take(key, at, withAct))
      ensures State() == Take1(old(State()), Take(key, at, withAct))
    {
      var q := queues[key];
      p := q[at];
      assert InRange(cfg, p.Target());
      if withAct {
        rowAccessCounters := rowAccessCounters[p.Target() := rowAccessCounters[p.Target()] + 1];
        q := q[..at] + q[at+1..];
        q := q[..at-1] + q[at..];
      } else {
        q := q[..at] + q[at+1..];
      }
      assert q == Removed(queues[key], at, withAct);
      queues := queues[key := q];
    }

    /** First phase of pop: what the rank that waits for a refresh needs next. */
    method ServeRefresh(now: int) returns (r: Option<Packet>)
      requires Valid()
      modifies this
      ensures Valid()
      ensures var c := RefreshChoice(old(Sight(now)), old(State()));
              && Applicable(cfg, old(State()), c)
              && r == Chosen(cfg, old(State()), c)
              && State() == Effect(cfg, old(State()), c)
    {
      r := None;
      if !refreshWaiting { return; }
      ghost var v, s := Sight(now), State();
      var b := 0;
      while b < cfg.numBanks && table.state[Slot(refreshRank, b)].status != ROW_ACTIVE
            && table.state[Slot(refreshRank, b)].nextActivate <= now
        invariant b <= cfg.numBanks && v.FirstBusy(refreshRank, 0) == v.FirstBusy(refreshRank, b)
      {
        b := b + 1;
      }
      if b == cfg.numBanks {
        if table.state[Slot(refreshRank, 0)].status != POWER_DOWN {
          var fill := if cfg.rowBufferPolicy.ClosePage? then 1 else 0;
          r := Some(Packet(fill, fill, 0, refreshRank, 0, REFRESH, 0));
          refreshRank := -1;
          refreshWaiting := false;
        }
        return;
      }
      var x := Slot(refreshRank, b);
      var bank := table.state[x];
      if bank.status != ROW_ACTIVE { return; }
      var key := QueueKey(cfg, x);
      var k := FindFor(queues[key], b, bank.openRow);
      if k < |queues[key]| && queues[key][k].kind != ACTIVATE {
        assert InRange(cfg, queues[key][k].Target());
        if IsIssuable(queues[key][k], now) {
          var p := TakeOut(key, k, false);
          r := Some(p);
        }
      } else if cfg.rowBufferPolicy.OpenPage? && now >= bank.nextPrecharge {
        rowAccessCounters := rowAccessCounters[x := 0];
        r := Some(Packet(0, 0, b, refreshRank, 0, PRECHARGE, 0));
      }
    }

    predicate IsIssuable(p: Packet, now: int)
      requires Sight(now).Fits() && InRange(cfg, p.Target())
      reads this, table
    {
      View(cfg, table.state, rowAccessCounters, tFAWCountdown, now).IsIssuable(p)
    }

    /** The inner scan of the second phase over one queue. */
    method ScanQueue(q: seq<Packet>, now: int) returns (k: nat)
      requires Sight(now).Fits() && (forall j | 0 <= j < |q| :: InRange(cfg, q[j].Target()))
      ensures k == Sight(now).FirstServable(q, 0)
    {
      ghost var v := Sight(now);
      k := 0;
      while k < |q|
        invariant k <= |q| && v.FirstServable(q, 0) == v.FirstServable(q, k)
      {
        if IsIssuable(q[k], now) {
          if cfg.rowBufferPolicy.ClosePage? {
            if cfg.queuingStructure.PerRankPerBank? {
              if k == 0 { return; }
            } else if !(k > 0 && q[k-1].kind == ACTIVATE && q[k-1].physicalAddress == q[k].physicalAddress) {
              return;
            }
          } else {
            var dependencyFound := false;
            var j := 0;
            while j < k && !dependencyFound
              invariant j <= k
              invariant dependencyFound <==>
                exists i :: 0 <= i < j && !q[i].kind.ACTIVATE? && q[i].bank == q[k].bank && q[i].row == q[k].row
            {
              if q[j].kind != ACTIVATE && q[j].bank == q[k].bank && q[j].row == q[k].row {
                dependencyFound := true;
              }
              j := j + 1;
            }
            if !dependencyFound { return; }
          }
        }
        k := k + 1;
      }
    }

    /** What the queue of bank x offers; s is the state in which the scan started. */
    method OfferOf(x: Slot, now: int, ghost s: QState) returns (k: nat)
      requires InRange(cfg, x) && Fits(cfg, table.state, s)
      requires queues == s.queues && rowAccessCounters == s.hits && tFAWCountdown == s.faw
      requires refreshWaiting == s.refreshWaiting && refreshRank == s.refreshRank
      ensures k == Offer(ViewOf(cfg, table.state, s, now), s, x)
    {
      var q := queues[QueueKey(cfg, x)];
      assert Homed(cfg, QueueKey(cfg, x), q);
      k := |q|;
      if |q| > 0 && !(refreshWaiting && x.rank == refreshRank) {
        k := ScanQueue(q, now);
      }
    }

    /** Rank round robin when a rank has one queue, rank and bank round robin otherwise. */
    method AdvanceCursor()
      requires InRange(cfg, Slot(nextRank, nextBank))
      modifies this`nextRank, this`nextBank
      ensures Slot(nextRank, nextBank) == ScanNext(cfg, old(Slot(nextRank, nextBank)))
    {
      if cfg.queuingStructure.PerRank? {
        nextRank := (nextRank + 1) % cfg.numRanks;
      } else {
        var n := NextRankAndBank(cfg, Slot(nextRank, nextBank));
        nextRank, nextBank := n.rank, n.bank;
      }
    }

    /** Walks the cursor to the first queue with something to offer, or once around. */
    method FindQueue(now: int) returns (found: bool, k: nat)
      requires Valid()
      modifies this`nextRank, this`nextBank
      ensures var x := ServeChoice(old(Sight(now)), old(State()));
              && found == x.Some?
              && State() == (if found then old(State()).(next := x.value) else old(State()))
              && (found ==> k == Offer(old(Sight(now)), old(State()), x.value))
    {
      ghost var v, s := Sight(now), State();
      var startingRank, startingBank := nextRank, nextBank;
      ghost var n := 0;
      found, k := false, 0;
      TotalPositive(cfg);
      while true
        invariant n < ScanLength(cfg) && Sight(now) == v && !found
        invariant InRange(cfg, Slot(nextRank, nextBank))
        invariant Slot(nextRank, nextBank) == NthQueue(cfg, s.next, n)
        invariant cfg.queuingStructure.PerRank? ==> nextBank == startingBank
        invariant ServeChoice(v, s) == FirstOffering(v, s, Slot(nextRank, nextBank), ScanLength(cfg) - n)
        decreases ScanLength(cfg) - n
      {
        var x := Slot(nextRank, nextBank);
        k := OfferOf(x, now, s);
        if k < |queues[QueueKey(cfg, x)]| {
          found := true;
          return;
        }
        NthQueueCycles(cfg, s.next, n);
        n := n + 1;
        AdvanceCursor();
        if startingRank == nextRank && (cfg.queuingStructure.PerRank? || startingBank == nextBank) { break; }
      }
    }

    /** Second phase of pop: round robin over the queues. */
    method ServeQueues(now: int) returns (r: Option<Packet>)
      requires Valid()
      modifies this`queues, this`rowAccessCounters, this`nextRank, this`nextBank
      ensures Valid()
      ensures match ServeChoice(old(Sight(now)), old(State()))
              case None => r == None && State() == old(State())
              case Some(x) =>
                var c := Served(old(Sight(now)), old(State()), x);
                && Applicable(cfg, old(State()), c)
                && r == Chosen(cfg, old(State()), c)
                && State() == Effect(cfg, old(State()), c).(next := x)
    {
      hide Offer, FirstOffering, Homed;
      var found, k := FindQueue(now);
      r := None;
      if found {
        var key := QueueKey(cfg, Slot(nextRank, nextBank));
        var withAct := cfg.rowBufferPolicy.OpenPage? && k > 0 && queues[key][k-1].kind == ACTIVATE;
        var p := TakeOut(key, k, withAct);
        r := Some(p);
      }
    }

    /** Walks the precharge cursor to the first bank that may be closed, or once around. */
    method FindIdleBank(now: int) returns (found: bool)
      requires Valid()
      modifies this`nextRankPRE, this`nextBankPRE
      ensures var x := FirstClosable(old(Sight(now)), old(State()), old(State()).nextPRE, Total(cfg));
              && found == x.Some?
              && State() == (if found then old(State()).(nextPRE := x.value) else old(State()))
    {
      hide FirstFor, Homed;
      ghost var v, s := Sight(now), State();
      var startingRank, startingBank := nextRankPRE, nextBankPRE;
      ghost var n := 0;
      found := false;
      TotalPositive(cfg);
      while true
        invariant n < Total(cfg) && Sight(now) == v && !found
        invariant InRange(cfg, Slot(nextRankPRE, nextBankPRE))
        invariant Slot(nextRankPRE, nextBankPRE) == NthBank(cfg, s.nextPRE, n)
        invariant FirstClosable(v, s, s.nextPRE, Total(cfg)) ==
                  FirstClosable(v, s, Slot(nextRankPRE, nextBankPRE), Total(cfg) - n)
        decreases Total(cfg) - n
      {
        var x := Slot(nextRankPRE, nextBankPRE);
        var bank := table.state[x];
        var q := queues[QueueKey(cfg, x)];
        if bank.status == ROW_ACTIVE {
          var i := FindFor(q, x.bank, bank.openRow);
          if i == |q| || rowAccessCounters[x] == cfg.totalRowAccesses {
            if now >= bank.nextPrecharge {
              found := true;
              return;
            }
          }
        }
        assert !v.Closable(x, q);
        NthBankCycles(cfg, s.nextPRE, n);
        n := n + 1;
        var y := NextRankAndBank(cfg, x);
        nextRankPRE, nextBankPRE := y.rank, y.bank;
        if startingRank == nextRankPRE && startingBank == nextBankPRE { break; }
      }
    }

    /** Third phase of pop: an open bank that may be closed. */
    method CloseIdleBank(now: int) returns (r: Option<Packet>)
      requires Valid() && cfg.rowBufferPolicy.OpenPage?
      modifies this`rowAccessCounters, this`nextRankPRE, this`nextBankPRE
      ensures Valid()
      ensures match CloseChoice(old(Sight(now)), old(State()))
              case None => r == None && State() == old(State())
              case Some(x) =>
                && r == Chosen(cfg, old(State()), Close(x))
                && State() == Effect(cfg, old(State()), Close(x)).(nextPRE := x)
    {
      var found := FindIdleBank(now);
      r := None;
      if found {
        var x := Slot(nextRankPRE, nextBankPRE);
        rowAccessCounters := rowAccessCounters[x := 0];
        r := Some(Packet(0, 0, x.bank, x.rank, 0, PRECHARGE, 0));
      }
    }

    /** The three phases of pop without the bookkeeping around them. */
    method FindCommand(now: int) returns (r: Option<Packet>)
      requires Valid()
      modifies this
      ensures Valid()
      ensures var v, s := old(Sight(now)), old(State());
              var c := Choose(v, s);
              && Applicable(cfg, s, c)
              && r == Chosen(cfg, s, c)
              && State() == Effect(cfg, s, c).(next := Cursors(v, s).0, nextPRE := Cursors(v, s).1)
    {
      ChooseApplicable(Sight(now), State());
      r := ServeRefresh(now);
      if r == None {
        r := ServeQueues(now);
        if r == None && cfg.rowBufferPolicy.OpenPage? {
          r := CloseIdleBank(now);
        }
      }
    }

    /** One command per RAM tick, or none. */
    method Pop(now: int) returns (r: Option<Packet>)
      requires Valid()
      modifies this
      ensures Valid()
      ensures (r, State()) == CommandQueueSpec.Pop(cfg, table.state, old(State()), now)
    {
      SlideWindows();
      r := FindCommand(now);
      if r != None {
        Book(r.value);
      }
    }

    /** Posted-CAS flag, cursor and four-activate window after a packet was found. */
    method Book(p: Packet)
      requires Valid() && p.rank < cfg.numRanks
      modifies this`sendAct, this`nextRank, this`nextBank, this`tFAWCountdown
      ensures Valid() && State() == Finish(cfg, old(State()), p)
    {
      if cfg.tAL > 0 && sendAct {
        sendAct := false;
      } else {
        sendAct := true;
        var n := NextRankAndBank(cfg, Slot(nextRank, nextBank));
        nextRank, nextBank := n.rank, n.bank;
      }
      if p.kind == ACTIVATE {
        tFAWCountdown := tFAWCountdown[p.rank := tFAWCountdown[p.rank] + [cfg.tFAW]];
      }
    }

    method HasRoomFor(num: int, rank: nat, bank: nat) returns (room: bool)
      requires Valid() && InRange(cfg, Slot(rank, bank))
      ensures room == CommandQueueSpec.HasRoomFor(cfg, State(), num, Slot(rank, bank))
    {
      room := CMD_QUEUE_DEPTH - |queues[QueueKey(cfg, Slot(rank, bank))]| >= num;
    }
  }

  function Initial(cfg: Config): QState {
    QState(map k: Slot | k in AllSlots(cfg) && IsKey(cfg, k) :: [],
           map s: Slot | s in AllSlots(cfg) :: 0,
           seq(cfg.numRanks, _ => []), Slot(0, 0), Slot(0, 0), 0, false, true)
  }

  lemma InitialFits(cfg: Config, banks: BankTable)
    requires cfg.Valid() && Covers(cfg, banks)
    ensures Fits(cfg, banks, Initial(cfg))
  {
    forall k
      ensures k in Initial(cfg).queues <==> IsKey(cfg, k)
    {
      assert IsKey(cfg, k) ==> InRange(cfg, k);
    }
  }
}

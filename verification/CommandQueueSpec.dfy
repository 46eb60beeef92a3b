/** What one call of the command queue decides, on values; the imperative queue is proved against these functions. */
module CommandQueueSpec {
  // Which packets may go, which packet a queue offers, in which order the queues are asked, and what the choice does to
  // the queues.

  import opened DramTypes

  const CMD_QUEUE_DEPTH := 1024

  datatype QState = QState(
    queues: map<Slot, seq<Packet>>,
    hits: map<Slot, int>,
    faw: seq<seq<int>>,
    next: Slot,
    nextPRE: Slot,
    refreshRank: int,
    refreshWaiting: bool,
    sendAct: bool)

  /** The queue that holds the packets of a bank: one per rank or one per bank. */
  function QueueKey(cfg: Config, s: Slot): Slot {
    if cfg.queuingStructure.PerRank? then Slot(s.rank, 0) else s
  }

  predicate IsKey(cfg: Config, k: Slot) {
    k.rank < cfg.numRanks && k.bank < (if cfg.queuingStructure.PerRank? then 1 else cfg.numBanks)
  }

  /** Shape of the queue state: every table covers its index range and every packet is in its own queue. */
  ghost predicate Fits(cfg: Config, banks: BankTable, s: QState) {
    && cfg.Valid()
    && Covers(cfg, banks)
    && Covers(cfg, s.hits)
    && (forall k :: k in s.queues <==> IsKey(cfg, k))
    && |s.faw| == cfg.numRanks
    && InRange(cfg, s.next)
    && InRange(cfg, s.nextPRE)
    && (s.refreshWaiting ==> 0 <= s.refreshRank < cfg.numRanks)
    && (forall k | k in s.queues :: Homed(cfg, k, s.queues[k]))
  }

  ghost predicate Homed(cfg: Config, k: Slot, q: seq<Packet>) {
    forall i | 0 <= i < |q| :: InRange(cfg, q[i].Target()) && QueueKey(cfg, q[i].Target()) == k
  }

  /** Everything a scheduling decision looks at besides the queues. */
  datatype View = View(cfg: Config, banks: BankTable, hits: map<Slot, int>, faw: seq<seq<int>>, now: int)
  {
    ghost predicate Fits() {
      Covers(cfg, banks) && Covers(cfg, hits) && |faw| == cfg.numRanks
    }

    /** May the packet be issued now, as far as the controller's bank table knows? */
    predicate IsIssuable(p: Packet)
      requires Fits() && InRange(cfg, p.Target())
    {
      var bank := banks[p.Target()];
      match p.kind
      case ACTIVATE =>
        (bank.status.IDLE? || bank.status.REFRESHING?) && now >= bank.nextActivate && |faw[p.rank]| < 4
      case WRITE | WRITE_P =>
        bank.status.ROW_ACTIVE? && now >= bank.nextWrite && p.row == bank.openRow &&
        hits[p.Target()] < cfg.totalRowAccesses
      case READ | READ_P =>
        bank.status.ROW_ACTIVE? && now >= bank.nextRead && p.row == bank.openRow &&
        hits[p.Target()] < cfg.totalRowAccesses
      case PRECHARGE =>
        bank.status.ROW_ACTIVE? && now >= bank.nextPrecharge
      case REFRESH => false
      case DATA => false
    }

    /** May the queue give up its i-th packet in the round-robin phase? */
    predicate Servable(q: seq<Packet>, i: nat)
      requires Fits() && i < |q| && InRange(cfg, q[i].Target())
    {
      IsIssuable(q[i]) &&
      match cfg.rowBufferPolicy
      case ClosePage =>
        if cfg.queuingStructure.PerRank?
        then !(i > 0 && q[i-1].kind.ACTIVATE? && q[i-1].physicalAddress == q[i].physicalAddress)
        else i == 0
      case OpenPage => !Blocked(q, i)
    }

    /** The first packet, from position i on, that the queue may give up; |q| when there is none. */
    function FirstServable(q: seq<Packet>, i: nat): (k: nat)
      requires Fits() && i <= |q| && (forall j | 0 <= j < |q| :: InRange(cfg, q[j].Target()))
      ensures i <= k <= |q|
      ensures k < |q| ==> Servable(q, k)
      ensures forall j | i <= j < k :: !Servable(q, j)
      decreases |q| - i
    {
      if i == |q| || Servable(q, i) then i else FirstServable(q, i + 1)
    }

    /** Is the bank still open, or is its activation time still ahead? */
    predicate Busy(s: Slot)
      requires Fits() && InRange(cfg, s)
    {
      banks[s].status.ROW_ACTIVE? || banks[s].nextActivate > now
    }

    /** The first bank of the rank, from bank b on, that keeps a REFRESH waiting; numBanks when there is none. */
    function FirstBusy(rank: nat, b: nat): (k: nat)
      requires Fits() && rank < cfg.numRanks && b <= cfg.numBanks
      ensures b <= k <= cfg.numBanks
      ensures k < cfg.numBanks ==> Busy(Slot(rank, k))
      ensures forall j | b <= j < k :: !Busy(Slot(rank, j))
      decreases cfg.numBanks - b
    {
      if b == cfg.numBanks || Busy(Slot(rank, b)) then b else FirstBusy(rank, b + 1)
    }

    /** May an open bank be closed although nobody asked for a refresh? */
    predicate Closable(s: Slot, q: seq<Packet>)
      requires Fits() && InRange(cfg, s)
    {
      && banks[s].status.ROW_ACTIVE?
      && (FirstFor(q, s.bank, banks[s].openRow, 0) == |q| || hits[s] == cfg.totalRowAccesses)
      && now >= banks[s].nextPrecharge
    }
  }

  /** An earlier column access of the same bank and row holds back the i-th packet. */
  predicate Blocked(q: seq<Packet>, i: nat)
    requires i < |q|
  {
    exists j :: 0 <= j < i && !q[j].kind.ACTIVATE? && q[j].bank == q[i].bank && q[j].row == q[i].row
  }

  /** The first packet from position i on that goes to the bank's row; |q| when there is none. */
  function FirstFor(q: seq<Packet>, bank: nat, row: int, i: nat): (k: nat)
    requires i <= |q|
    ensures i <= k <= |q|
    ensures k < |q| ==> q[k].bank == bank && q[k].row == row
    ensures forall j | i <= j < k :: !(q[j].bank == bank && q[j].row == row)
    decreases |q| - i
  {
    if i == |q| || (q[i].bank == bank && q[i].row == row) then i else FirstFor(q, bank, row, i + 1)
  }

  // ---------------------------------------------------------------- the order of asking

  function NextRankAndBank(cfg: Config, s: Slot): (n: Slot)
    requires InRange(cfg, s)
    ensures InRange(cfg, n)
  {
    match cfg.schedulingPolicy
    case RankThenBankRoundRobin =>
      if s.rank + 1 < cfg.numRanks then Slot(s.rank + 1, s.bank)
      else if s.bank + 1 < cfg.numBanks then Slot(0, s.bank + 1)
      else Slot(0, 0)
    case BankThenRankRoundRobin =>
      if s.bank + 1 < cfg.numBanks then Slot(s.rank, s.bank + 1)
      else if s.rank + 1 < cfg.numRanks then Slot(s.rank + 1, 0)
      else Slot(0, 0)
  }

  /** The queue scan steps over ranks only when a rank has a single queue. */
  function ScanNext(cfg: Config, s: Slot): (n: Slot)
    requires InRange(cfg, s)
    ensures InRange(cfg, n)
  {
    if cfg.queuingStructure.PerRank? then Slot((s.rank + 1) % cfg.numRanks, s.bank) else NextRankAndBank(cfg, s)
  }

  // ---------------------------------------------------------------- what is chosen

  /** Take: a queued packet leaves, with the ACTIVATE in front of it or alone. */
  datatype Choice = Nothing | Take(key: Slot, at: nat, withAct: bool) | Close(slot: Slot) | Refresh(rank: nat)

  /** First phase: the rank that waits for a refresh. */
  function RefreshChoice(v: View, s: QState): Choice
    requires v.Fits() && Fits(v.cfg, v.banks, s)
  {
    if !s.refreshWaiting then Nothing
    else
      var b := v.FirstBusy(s.refreshRank, 0);
      if b == v.cfg.numBanks then
        if v.banks[Slot(s.refreshRank, 0)].status.POWER_DOWN? then Nothing else Refresh(s.refreshRank)
      else
        var x := Slot(s.refreshRank, b);
        if !v.banks[x].status.ROW_ACTIVE? then Nothing
        else
          var key := QueueKey(v.cfg, x);
          var q := s.queues[key];
          var k := FirstFor(q, b, v.banks[x].openRow, 0);
          if k < |q| && !q[k].kind.ACTIVATE? then
            assert InRange(v.cfg, q[k].Target());
            if v.IsIssuable(q[k]) then Take(key, k, false) else Nothing
          else if v.cfg.rowBufferPolicy.OpenPage? && v.now >= v.banks[x].nextPrecharge then Close(x)
          else Nothing
  }

  /** Does the rank of this queue have to hold still for a refresh? */
  predicate Held(s: QState, rank: nat) {
    s.refreshWaiting && rank == s.refreshRank
  }

  /** The packet that the queue of slot x would give up, as an index; the queue's length if none. */
  function Offer(v: View, s: QState, x: Slot): (k: nat)
    requires v.Fits() && Fits(v.cfg, v.banks, s) && InRange(v.cfg, x)
    ensures k <= |s.queues[QueueKey(v.cfg, x)]|
  {
    var q := s.queues[QueueKey(v.cfg, x)];
    if Held(s, x.rank) then |q| else v.FirstServable(q, 0)
  }

  predicate Offers(v: View, s: QState, x: Slot)
    requires v.Fits() && Fits(v.cfg, v.banks, s) && InRange(v.cfg, x)
  {
    Offer(v, s, x) < |s.queues[QueueKey(v.cfg, x)]|
  }

  /** Second phase: the first of the next n queues, from x on, that has something to offer. */
  function FirstOffering(v: View, s: QState, x: Slot, n: nat): (r: Option<Slot>)
    requires v.Fits() && Fits(v.cfg, v.banks, s) && InRange(v.cfg, x)
    ensures r.Some? ==> InRange(v.cfg, r.value) && Offers(v, s, r.value)
    decreases n
  {
    if n == 0 then None
    else if Offers(v, s, x) then Some(x)
    else FirstOffering(v, s, ScanNext(v.cfg, x), n - 1)
  }

  /** Third phase (open page): the first of the next n banks, from x on, that may be closed. */
  function FirstClosable(v: View, s: QState, x: Slot, n: nat): (r: Option<Slot>)
    requires v.Fits() && Fits(v.cfg, v.banks, s) && InRange(v.cfg, x)
    ensures r.Some? ==> InRange(v.cfg, r.value) && v.Closable(r.value, s.queues[QueueKey(v.cfg, r.value)])
    decreases n
  {
    if n == 0 then None
    else if v.Closable(x, s.queues[QueueKey(v.cfg, x)]) then Some(x)
    else FirstClosable(v, s, NextRankAndBank(v.cfg, x), n - 1)
  }

  function Total(cfg: Config): nat {
    cfg.numRanks * cfg.numBanks
  }

  function ScanLength(cfg: Config): nat {
    if cfg.queuingStructure.PerRank? then cfg.numRanks else Total(cfg)
  }

  function ServeChoice(v: View, s: QState): Option<Slot>
    requires v.Fits() && Fits(v.cfg, v.banks, s)
  {
    FirstOffering(v, s, s.next, ScanLength(v.cfg))
  }

  function CloseChoice(v: View, s: QState): Option<Slot>
    requires v.Fits() && Fits(v.cfg, v.banks, s)
  {
    if v.cfg.rowBufferPolicy.OpenPage? then FirstClosable(v, s, s.nextPRE, Total(v.cfg)) else None
  }

  /** A served column access takes the ACTIVATE in front of it along under the open-page policy. */
  function Served(v: View, s: QState, x: Slot): Choice
    requires v.Fits() && Fits(v.cfg, v.banks, s) && InRange(v.cfg, x)
  {
    var key := QueueKey(v.cfg, x);
    var q := s.queues[key];
    var k := Offer(v, s, x);
    Take(key, k, v.cfg.rowBufferPolicy.OpenPage? && 0 < k <= |q| && q[k-1].kind.ACTIVATE?)
  }

  function Choose(v: View, s: QState): Choice
    requires v.Fits() && Fits(v.cfg, v.banks, s)
  {
    var c := RefreshChoice(v, s);
    if c != Nothing then c
    else match ServeChoice(v, s)
      case Some(x) => Served(v, s, x)
      case None =>
        match CloseChoice(v, s)
        case Some(x) => Close(x)
        case None => Nothing
  }

  // ---------------------------------------------------------------- what the choice does

  /** The queue without packet at, and without the packet before it if that goes too. */
  function Removed(q: seq<Packet>, at: nat, withAct: bool): seq<Packet>
    requires at < |q| && (withAct ==> at > 0)
  {
    q[..if withAct then at - 1 else at] + q[at + 1..]
  }

  predicate Applicable(cfg: Config, s: QState, c: Choice) {
    match c
    case Nothing => true
    case Take(key, at, withAct) =>
      key in s.queues && at < |s.queues[key]| && (withAct ==> at > 0) && InRange(cfg, s.queues[key][at].Target())
    case Close(slot) => InRange(cfg, slot)
    case Refresh(rank) => rank < cfg.numRanks
  }

  function Chosen(cfg: Config, s: QState, c: Choice): Option<Packet>
    requires Applicable(cfg, s, c)
  {
    match c
    case Nothing => None
    case Take(key, at, _) => Some(s.queues[key][at])
    case Close(slot) => Some(Packet(0, 0, slot.bank, slot.rank, 0, PRECHARGE, 0))
    case Refresh(rank) =>
      var fill := if cfg.rowBufferPolicy.ClosePage? then 1 else 0;
      Some(Packet(fill, fill, 0, rank, 0, REFRESH, 0))
  }

  function Take1(s: QState, c: Choice): QState
    requires c.Take? && c.key in s.queues && c.at < |s.queues[c.key]| && (c.withAct ==> c.at > 0)
    requires s.queues[c.key][c.at].Target() in s.hits
  {
    var p := s.queues[c.key][c.at];
    s.(queues := s.queues[c.key := Removed(s.queues[c.key], c.at, c.withAct)],
       hits := if c.withAct then s.hits[p.Target() := s.hits[p.Target()] + 1] else s.hits)
  }

  function Effect(cfg: Config, s: QState, c: Choice): QState
    requires Applicable(cfg, s, c) && Covers(cfg, s.hits)
  {
    match c
    case Nothing => s
    case Take(_, _, _) => Take1(s, c)
    case Close(slot) => s.(hits := s.hits[slot := 0])
    case Refresh(_) => s.(refreshRank := -1, refreshWaiting := false)
  }

  /** The cursors: where the two scans came to rest. */
  function Cursors(v: View, s: QState): (Slot, Slot)
    requires v.Fits() && Fits(v.cfg, v.banks, s)
  {
    if RefreshChoice(v, s) != Nothing then (s.next, s.nextPRE)
    else match ServeChoice(v, s)
      case Some(x) => (x, s.nextPRE)
      case None =>
        match CloseChoice(v, s)
        case Some(x) => (s.next, x)
        case None => (s.next, s.nextPRE)
  }

  /** Bookkeeping after a packet was found: posted-CAS flag, cursor, four-activate window. */
  function Finish(cfg: Config, s: QState, p: Packet): QState
    requires InRange(cfg, s.next) && p.rank < |s.faw|
  {
    var s1 := if cfg.tAL > 0 && s.sendAct then s.(sendAct := false)
              else s.(sendAct := true, next := NextRankAndBank(cfg, s.next));
    if p.kind.ACTIVATE? then s1.(faw := s1.faw[p.rank := s1.faw[p.rank] + [cfg.tFAW]]) else s1
  }

  /** Every countdown loses one; a head that reaches zero leaves. */
  function TickWindow(w: seq<int>): seq<int> {
    var d := seq(|w|, i requires 0 <= i < |w| => w[i] - 1);
    if |d| > 0 && d[0] == 0 then d[1..] else d
  }

  function TickWindows(s: QState): QState {
    s.(faw := seq(|s.faw|, i requires 0 <= i < |s.faw| => TickWindow(s.faw[i])))
  }

  function ViewOf(cfg: Config, banks: BankTable, s: QState, now: int): View {
    View(cfg, banks, s.hits, s.faw, now)
  }

  lemma ChooseApplicable(v: View, s: QState)
    requires v.Fits() && Fits(v.cfg, v.banks, s)
    ensures Applicable(v.cfg, s, Choose(v, s))
    ensures Choose(v, s).Take? ==>
        Applicable(v.cfg, s, Choose(v, s)) && s.queues[Choose(v, s).key][Choose(v, s).at].Target() in s.hits
  {
  }

  /** One call of pop: the packet it returns and the queue state it leaves. */
  function Pop(cfg: Config, banks: BankTable, s: QState, now: int): (Option<Packet>, QState)
    requires Fits(cfg, banks, s)
  {
    var s1 := TickWindows(s);
    var v := ViewOf(cfg, banks, s1, now);
    var c := Choose(v, s1);
    ChooseApplicable(v, s1);
    var r := Chosen(cfg, s1, c);
    if r.None? then (None, s1)
    else
      var cs := Cursors(v, s1);
      (r, Finish(cfg, Effect(cfg, s1, c).(next := cs.0, nextPRE := cs.1), r.value))
  }

  // ---------------------------------------------------------------- the other operations

  /** A transaction enters: its ACTIVATE and right behind it its column access. */
  function EnqueuePair(cfg: Config, s: QState, b: Packet): QState
    requires QueueKey(cfg, b.Target()) in s.queues
  {
    var k := QueueKey(cfg, b.Target());
    s.(queues := s.queues[k := s.queues[k] + [b.Act(), b]])
  }

  function HasRoomFor(cfg: Config, s: QState, num: int, x: Slot): bool
    requires QueueKey(cfg, x) in s.queues
  {
    CMD_QUEUE_DEPTH - |s.queues[QueueKey(cfg, x)]| >= num
  }
}

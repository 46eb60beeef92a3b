module RankRules {
  // A rank accepts exactly the commands that the timing rules and the rows left open by its earlier commands allow.

  import opened DramTypes
  import opened BankRules
  import opened TimingRules

  // ---------------------------------------------------------------- what a log says

  /** The row that the commands leave open in bank t. */
  function RowAfter(log: seq<Cmd>, t: Slot): Option<int> {
    if log == [] then None
    else
      var p := log[|log|-1].p;
      var before := RowAfter(log[..|log|-1], t);
      if p.Target() != t then before
      else match p.kind
        case ACTIVATE => Some(p.row)
        case PRECHARGE | READ_P | WRITE_P => None
        case _ => before
  }

  /** May command p reach the rank at time x, after this log? */
  ghost predicate Legal(cfg: Config, log: seq<Cmd>, p: Packet, x: int) {
    var t := p.Target();
    match p.kind
    case ACTIVATE => RowAfter(log, t) == None && WaitsOver(cfg, AtRank, log, ToActivate, t, x)
    case READ | READ_P => RowAfter(log, t) == Some(p.row) && WaitsOver(cfg, AtRank, log, ToRead, t, x)
    case WRITE | WRITE_P => RowAfter(log, t) == Some(p.row) && WaitsOver(cfg, AtRank, log, ToWrite, t, x)
    case PRECHARGE => RowAfter(log, t).Some? && WaitsOver(cfg, AtRank, log, ToPrecharge, t, x)
    case REFRESH => forall b: nat | b < cfg.numBanks :: RowAfter(log, Slot(p.rank, b)) == None
    case DATA => true
  }

  ghost predicate Addressed(cfg: Config, id: nat, p: Packet) {
    p.rank == id && p.bank < cfg.numBanks && !p.kind.DATA?
  }

  /** A log of commands for one rank, each of them legal when it came. */
  ghost predicate Obeyed(cfg: Config, id: nat, log: seq<Cmd>) {
    forall k | 0 <= k < |log| ::
      Addressed(cfg, id, log[k].p) && log[k].at >= 0 && Legal(cfg, log[..k], log[k].p, log[k].at)
  }

  // ---------------------------------------------------------------- what the rank makes of it

  /** Bank b of the rank's own table after the commands of the log. */
  function BankAfter(cfg: Config, log: seq<Cmd>, b: nat): BankState {
    if log == [] then FRESH_BANK
    else
      var c := log[|log|-1];
      ArriveBank(cfg, c.p, c.at, b, BankAfter(cfg, log[..|log|-1], b))
  }

  /** The times in the table are exactly those that the rules demand. */
  ghost predicate TimeExact(cfg: Config, log: seq<Cmd>, w: Want, t: Slot, time: int, x: int) {
    time <= x <==> WaitsOver(cfg, AtRank, log, w, t, x)
  }

  ghost predicate Exact(cfg: Config, log: seq<Cmd>, t: Slot, bs: BankState) {
    && (if RowAfter(log, t).Some? then bs.status.ROW_ACTIVE? && bs.openRow == RowAfter(log, t).value
        else bs.status.IDLE?)
    && (forall x | x >= 0 :: TimeExact(cfg, log, ToActivate, t, bs.nextActivate, x))
    && (bs.status.ROW_ACTIVE? ==>
          && (forall x :: TimeExact(cfg, log, ToRead, t, bs.nextRead, x))
          && (forall x :: TimeExact(cfg, log, ToWrite, t, bs.nextWrite, x))
          && (forall x :: TimeExact(cfg, log, ToPrecharge, t, bs.nextPrecharge, x)))
  }

  /** What the rank checks about bank t is what the rules demand of it. */
  lemma AcceptsIffLegalFor(cfg: Config, log: seq<Cmd>, p: Packet, x: int, t: Slot, bs: BankState)
    requires t.rank == p.rank && Exact(cfg, log, t, bs) && !p.kind.DATA? && x >= 0
    ensures BankAccepts(p, x, t.bank, bs) <==>
            if p.kind.REFRESH? then RowAfter(log, t) == None else t == p.Target() ==> Legal(cfg, log, p, x)
  {
    assert TimeExact(cfg, log, ToActivate, t, bs.nextActivate, x);
    if bs.status.ROW_ACTIVE? {
      assert TimeExact(cfg, log, ToRead, t, bs.nextRead, x);
      assert TimeExact(cfg, log, ToWrite, t, bs.nextWrite, x);
      assert TimeExact(cfg, log, ToPrecharge, t, bs.nextPrecharge, x);
    }
    hide WaitsOver, RowAfter;
  }

  lemma RowAppend(log: seq<Cmd>, c: Cmd, t: Slot)
    ensures RowAfter(log + [c], t) ==
            if c.p.Target() != t then RowAfter(log, t)
            else match c.p.kind
              case ACTIVATE => Some(c.p.row)
              case PRECHARGE | READ_P | WRITE_P => None
              case _ => RowAfter(log, t)
  {
    assert (log + [c])[..|log|] == log;
  }

  lemma TimeAppend(cfg: Config, log: seq<Cmd>, c: Cmd, w: Want, t: Slot, time: int, time': int, x: int)
    requires TimeExact(cfg, log, w, t, time, x)
    requires time' <= x <==> (Lifts(AtRank, c.p, w, t) || time <= x) && OwnOver(cfg, c, w, t, x)
    ensures TimeExact(cfg, log + [c], w, t, time', x)
  {
    WaitsAppend(cfg, AtRank, log, c, w, t, x);
    hide Lifts, OwnOver;
  }

  /** A legal command leaves an exact table exact. */
  lemma ArriveExact(cfg: Config, log: seq<Cmd>, c: Cmd, t: Slot, bs: BankState)
    requires t.rank == c.p.rank && Exact(cfg, log, t, bs) && !c.p.kind.DATA? && c.at >= 0
    requires BankAccepts(c.p, c.at, t.bank, bs)
    ensures Exact(cfg, log + [c], t, ArriveBank(cfg, c.p, c.at, t.bank, bs))
  {
    var bs' := ArriveBank(cfg, c.p, c.at, t.bank, bs);
    RowAppend(log, c, t);
    hide WaitsOver, RowAfter;
    assert c.p.Target() == t <==> c.p.bank == t.bank;
    forall x | x >= 0
      ensures TimeExact(cfg, log + [c], ToActivate, t, bs'.nextActivate, x)
    {
      assert TimeExact(cfg, log, ToActivate, t, bs.nextActivate, x);
      TimeAppend(cfg, log, c, ToActivate, t, bs.nextActivate, bs'.nextActivate, x);
    }
    if bs'.status.ROW_ACTIVE? {
      forall x
        ensures TimeExact(cfg, log + [c], ToRead, t, bs'.nextRead, x)
        ensures TimeExact(cfg, log + [c], ToWrite, t, bs'.nextWrite, x)
        ensures TimeExact(cfg, log + [c], ToPrecharge, t, bs'.nextPrecharge, x)
      {
        ColumnsExact(cfg, log, c, t, bs, x);
      }
    }
  }

  lemma ColumnsExact(cfg: Config, log: seq<Cmd>, c: Cmd, t: Slot, bs: BankState, x: int)
    requires t.rank == c.p.rank && Exact(cfg, log, t, bs) && !c.p.kind.DATA?
    requires BankAccepts(c.p, c.at, t.bank, bs)
    requires ArriveBank(cfg, c.p, c.at, t.bank, bs).status.ROW_ACTIVE?
    ensures var bs' := ArriveBank(cfg, c.p, c.at, t.bank, bs);
            && TimeExact(cfg, log + [c], ToRead, t, bs'.nextRead, x)
            && TimeExact(cfg, log + [c], ToWrite, t, bs'.nextWrite, x)
            && TimeExact(cfg, log + [c], ToPrecharge, t, bs'.nextPrecharge, x)
  {
    var bs' := ArriveBank(cfg, c.p, c.at, t.bank, bs);
    assert c.p.Target() == t <==> c.p.bank == t.bank;
    WaitsAppend(cfg, AtRank, log, c, ToRead, t, x);
    WaitsAppend(cfg, AtRank, log, c, ToWrite, t, x);
    WaitsAppend(cfg, AtRank, log, c, ToPrecharge, t, x);
    hide WaitsOver, RowAfter;
    if bs.status.ROW_ACTIVE? {
      assert TimeExact(cfg, log, ToRead, t, bs.nextRead, x);
      assert TimeExact(cfg, log, ToWrite, t, bs.nextWrite, x);
      assert TimeExact(cfg, log, ToPrecharge, t, bs.nextPrecharge, x);
    }
  }

  // ---------------------------------------------------------------- results

  /** Bank b of the rank lets the command pass. */
  predicate Takes(cfg: Config, log: seq<Cmd>, p: Packet, x: int, b: nat) {
    BankAccepts(p, x, b, BankAfter(cfg, log, b))
  }

  /** Every bank of the table agrees with the log. */
  lemma {:induction false} TableExact(cfg: Config, id: nat, log: seq<Cmd>, b: nat)
    requires Obeyed(cfg, id, log) && b < cfg.numBanks
    ensures Exact(cfg, log, Slot(id, b), BankAfter(cfg, log, b))
  {
    if log != [] {
      var n := |log| - 1;
      var pre := log[..n];
      forall k | 0 <= k < n
        ensures Addressed(cfg, id, pre[k].p) && pre[k].at >= 0 && Legal(cfg, pre[..k], pre[k].p, pre[k].at)
      {
        assert pre[..k] == log[..k];
      }
      TableExact(cfg, id, pre, b);
      var c := log[n];
      assert Addressed(cfg, id, c.p) && c.at >= 0 && Legal(cfg, log[..n], c.p, c.at);
      assert log == pre + [c];
      hide Exact, Legal, WaitsOver, RowAfter;
      LegalAccepted(cfg, id, pre, c, b);
      ArriveExact(cfg, pre, c, Slot(id, b), BankAfter(cfg, pre, b));
    }
  }

  lemma LegalAccepted(cfg: Config, id: nat, log: seq<Cmd>, c: Cmd, b: nat)
    requires Addressed(cfg, id, c.p) && c.at >= 0 && Legal(cfg, log, c.p, c.at) && b < cfg.numBanks
    requires Exact(cfg, log, Slot(id, b), BankAfter(cfg, log, b))
    ensures BankAccepts(c.p, c.at, b, BankAfter(cfg, log, b))
  {
    AcceptsIffLegalFor(cfg, log, c.p, c.at, Slot(id, b), BankAfter(cfg, log, b));
    hide Exact, WaitsOver, RowAfter, BankAccepts;
  }

  /** After any log of legal commands the rank accepts a command if and only if it is legal. */
  lemma AcceptsIffLegal(cfg: Config, id: nat, log: seq<Cmd>, p: Packet, x: nat)
    requires Obeyed(cfg, id, log) && Addressed(cfg, id, p)
    ensures (forall b: nat | b < cfg.numBanks :: Takes(cfg, log, p, x, b)) <==> Legal(cfg, log, p, x)
  {
    hide BankAfter, BankAccepts, WaitsOver, RowAfter, Exact;
    forall b: nat | b < cfg.numBanks
      ensures Takes(cfg, log, p, x, b) <==>
              if p.kind.REFRESH? then RowAfter(log, Slot(id, b)) == None else b == p.bank ==> Legal(cfg, log, p, x)
    {
      TableExact(cfg, id, log, b);
      AcceptsIffLegalFor(cfg, log, p, x, Slot(id, b), BankAfter(cfg, log, b));
      assert Slot(id, b) == p.Target() <==> b == p.bank;
    }
    if !p.kind.REFRESH? {
      assert Takes(cfg, log, p, x, p.bank) <==> Legal(cfg, log, p, x);
    }
  }

  lemma TakenObeyed(cfg: Config, id: nat, log: seq<Cmd>, p: Packet, x: nat)
    requires Obeyed(cfg, id, log) && Addressed(cfg, id, p) && Legal(cfg, log, p, x)
    ensures Obeyed(cfg, id, log + [Cmd(p, x, {})])
  {
    var log' := log + [Cmd(p, x, {})];
    forall k | 0 <= k < |log'|
      ensures Addressed(cfg, id, log'[k].p) && log'[k].at >= 0 && Legal(cfg, log'[..k], log'[k].p, log'[k].at)
    {
      if k < |log| {
        assert log'[..k] == log[..k];
      } else {
        assert log'[..k] == log;
      }
    }
  }
}

/** A rank: checks every command against its own bank table and puts read data on the channel's bus. */
module Ranks {
  import opened DramTypes
  import opened BankRules
  import opened TimingRules
  import opened RankRules

  /** The part of the controller that its ranks share: when the data bus is free again. */
  class Channel {
    var busFreeTime: int

    constructor ()
      ensures busFreeTime == 0
    {
      busFreeTime := 0;
    }
  }

  /** The simulator stops, nothing follows, or the event comes back at a later time. */
  datatype Reaction = Stopped | Quiet | Again(p: Packet, at: int) | Response(at: int)

  class Rank {
    const cfg: Config
    const id: nat
    const parent: Channel
    const bankStates: array<BankState>
    var refreshWaiting: bool
    ghost var log: seq<Cmd>     // the commands that the rank took

    /** The rank took legal commands only, and its table is what they make of it. */
    ghost predicate Valid()
      reads this, bankStates
    {
      && bankStates.Length == cfg.numBanks
      && Obeyed(cfg, id, log)
      && forall b | 0 <= b < bankStates.Length :: bankStates[b] == BankAfter(cfg, log, b)
    }

    predicate Accepts(p: Packet, now: int)
      reads bankStates
    {
      forall b | 0 <= b < bankStates.Length :: BankAccepts(p, now, b, bankStates[b])
    }

    constructor (cfg: Config, id: nat, parent: Channel)
      ensures this.cfg == cfg && this.id == id && this.parent == parent && Valid() && log == []
      ensures fresh(bankStates) && bankStates.Length == cfg.numBanks
      ensures forall b | 0 <= b < bankStates.Length :: bankStates[b] == FRESH_BANK
    {
      this.cfg, this.id, this.parent, log := cfg, id, parent, [];
      bankStates := new BankState[cfg.numBanks](_ => FRESH_BANK);
      refreshWaiting := false;
    }

    /** Later reads and writes of all banks after a column access. */
    method DelayColumns(nextRead: int, nextWrite: int)
      modifies bankStates
      ensures forall b | 0 <= b < bankStates.Length ::
        bankStates[b] == old(bankStates[b]).(nextRead := Max(old(bankStates[b]).nextRead, nextRead),
                                             nextWrite := Max(old(bankStates[b]).nextWrite, nextWrite))
    {
      for i := 0 to bankStates.Length
        invariant forall b | i <= b < bankStates.Length :: bankStates[b] == old(bankStates[b])
        invariant forall b | 0 <= b < i ::
          bankStates[b] == old(bankStates[b]).(nextRead := Max(old(bankStates[b]).nextRead, nextRead),
                                               nextWrite := Max(old(bankStates[b]).nextWrite, nextWrite))
      {
        var bs := bankStates[i];
        bankStates[i] := bs.(nextRead := Max(bs.nextRead, nextRead), nextWrite := Max(bs.nextWrite, nextWrite));
      }
    }

    method TakeColumn(p: Packet, now: int) returns (ok: bool)
      requires p.IsColumn() && p.bank < bankStates.Length
      modifies bankStates
      ensures ok == old(Accepts(p, now))
      ensures ok ==> forall b | 0 <= b < bankStates.Length ::
          bankStates[b] == ArriveBank(cfg, p, now, b, old(bankStates[b]))
    {
      var reading := p.kind.READ? || p.kind.READ_P?;
      var bs := bankStates[p.bank];
      ok := bs.status == ROW_ACTIVE && now >= (if reading then bs.nextRead else bs.nextWrite) && p.row == bs.openRow;
      if !ok { return; }
      match p.kind {
        case READ => bankStates[p.bank] := bs.(nextPrecharge := Max(bs.nextPrecharge, now + cfg.readToPreDelay));
        case WRITE => bankStates[p.bank] := bs.(nextPrecharge := Max(bs.nextPrecharge, now + cfg.writeToPreDelay));
        case READ_P =>
          bankStates[p.bank] := bs.(status := IDLE, nextActivate := Max(bs.nextActivate, now + cfg.readAutopreDelay));
        case WRITE_P =>
          bankStates[p.bank] := bs.(status := IDLE, nextActivate := Max(bs.nextActivate, now + cfg.writeAutopreDelay));
      }
      if reading {
        DelayColumns(now + Max(cfg.tCCD, cfg.tBL / 2), now + cfg.readToWriteDelay);
      } else {
        DelayColumns(now + cfg.writeToReadDelayB, now + Max(cfg.tBL / 2, cfg.tCCD));
      }
    }

    method TakeActivate(p: Packet, now: int) returns (ok: bool)
      requires p.kind.ACTIVATE? && p.bank < bankStates.Length
      modifies bankStates
      ensures ok == old(Accepts(p, now))
      ensures ok ==> forall b | 0 <= b < bankStates.Length ::
          bankStates[b] == ArriveBank(cfg, p, now, b, old(bankStates[b]))
    {
      var bs := bankStates[p.bank];
      ok := bs.status == IDLE && now >= bs.nextActivate;
      if !ok { return; }
      bankStates[p.bank] := bs.(status := ROW_ACTIVE, nextActivate := now + cfg.tRC, openRow := p.row,
        nextWrite := now + (cfg.tRCD - cfg.tAL), nextRead := now + (cfg.tRCD - cfg.tAL),
        nextPrecharge := now + cfg.tRAS);
      for i := 0 to bankStates.Length
        invariant forall b | 0 <= b < bankStates.Length ::
          bankStates[b] == if b < i || b == p.bank then ArriveBank(cfg, p, now, b, old(bankStates[b]))
              else old(bankStates[b])
      {
        if i != p.bank {
          var other := bankStates[i];
          bankStates[i] := other.(nextActivate := Max(other.nextActivate, now + cfg.tRRD));
        }
      }
    }

    method TakeRefresh(p: Packet, now: int) returns (ok: bool)
      requires p.kind.REFRESH?
      modifies bankStates, this`refreshWaiting
      ensures ok == old(Accepts(p, now)) && !refreshWaiting
      ensures ok ==> forall b | 0 <= b < bankStates.Length ::
          bankStates[b] == ArriveBank(cfg, p, now, b, old(bankStates[b]))
    {
      refreshWaiting := false;
      ok := true;
      for i := 0 to bankStates.Length
        invariant ok && !refreshWaiting
        invariant forall b | 0 <= b < bankStates.Length ::
          bankStates[b] == if b < i then ArriveBank(cfg, p, now, b, old(bankStates[b])) else old(bankStates[b])
        invariant forall b | 0 <= b < i :: old(bankStates[b]).status.IDLE?
      {
        if bankStates[i].status != IDLE {
          ok := false;
          assert !old(BankAccepts(p, now, i, bankStates[i]));
          return;
        }
        bankStates[i] := bankStates[i].(nextActivate := now + cfg.tRFC);
      }
    }

    /** A command arrives. The rank stops the simulator exactly if the command is not legal after those it took. */
    method HandleCommand(p: Packet, now: nat) returns (r: Reaction)
      requires Valid() && Addressed(cfg, id, p)
      modifies bankStates, this`refreshWaiting, this`log
      ensures r.Stopped? <==> !Legal(cfg, old(log), p, now)
      ensures r.Stopped? <==> !old(Accepts(p, now))
      ensures !r.Stopped? ==> Valid() && log == old(log) + [Cmd(p, now, {})]
      ensures !r.Stopped? ==>
        forall b | 0 <= b < bankStates.Length :: bankStates[b] == ArriveBank(cfg, p, now, b, old(bankStates[b]))
      ensures !r.Stopped? ==>
        r == if p.kind.READ? || p.kind.READ_P? then Again(p.(kind := DATA), now + cfg.tRL) else Quiet
    {
      AcceptsIffLegal(cfg, id, log, p, now);
      assert forall b: nat | b < cfg.numBanks :: Takes(cfg, log, p, now, b) <==> BankAccepts(p, now, b, bankStates[b]);
      assert Accepts(p, now) ==> forall b: nat | b < cfg.numBanks :: Takes(cfg, log, p, now, b);
      r := Quiet;
      var ok := true;
      match p.kind {
        case READ | READ_P =>
          ok := TakeColumn(p, now);
          r := Again(p.(kind := DATA), now + cfg.tRL);
        case WRITE | WRITE_P =>
          ok := TakeColumn(p, now);
        case ACTIVATE =>
          ok := TakeActivate(p, now);
        case PRECHARGE =>
          var bs := bankStates[p.bank];
          ok := bs.status == ROW_ACTIVE && now >= bs.nextPrecharge;
          if ok {
            bankStates[p.bank] := bs.(status := IDLE, nextActivate := Max(bs.nextActivate, now + cfg.tRP));
          }
        case REFRESH =>
          ok := TakeRefresh(p, now);
      }
      if !ok {
        r := Stopped;
        return;
      }
      ghost var was := log;
      log := was + [Cmd(p, now, {})];
      TakenObeyed(cfg, id, was, p, now);
      assert log[..|was|] == was;
    }

    /** Read data are ready: they take the bus if that is free, or come back when it will be. */
    method HandleData(p: Packet, now: int) returns (r: Reaction)
      requires p.kind.DATA?
      modifies parent
      ensures (r, parent.busFreeTime) == Grant(cfg.tBL / 2, old(parent.busFreeTime), p, now)
    {
      if now >= parent.busFreeTime {
        parent.busFreeTime := now + cfg.tBL / 2;
        r := Response(now + cfg.tBL / 2);
      } else {
        r := Again(p, parent.busFreeTime);
      }
    }
  }

  function Grant(burst: nat, free: int, p: Packet, now: int): (Reaction, int) {
    if now >= free then (Response(now + burst), now + burst) else (Again(p, free), free)
  }

  /** A data event that is handled at this time. */
  datatype Arrival = Arrival(p: Packet, now: int)

  /** The start times of the bursts that are granted while these data events are handled. */
  function Bursts(burst: nat, free: int, arrivals: seq<Arrival>): seq<int>
    decreases arrivals
  {
    if arrivals == [] then []
    else
      var (r, free') := Grant(burst, free, arrivals[0].p, arrivals[0].now);
      (if r.Response? then [arrivals[0].now] else []) + Bursts(burst, free', arrivals[1..])
  }

  /** Each start is at least one burst after every earlier one, and none comes before the bus was free. */
  predicate Spaced(burst: nat, free: int, s: seq<int>) {
    && (forall i | 0 <= i < |s| :: s[i] >= free)
    && (forall i, j | 0 <= i < j < |s| :: s[i] + burst <= s[j])
  }

  /** Bursts on a channel never overlap and never start before the bus was free, whatever the order of arrival. */
  lemma {:induction false} BurstsDisjoint(burst: nat, free: int, arrivals: seq<Arrival>)
    ensures Spaced(burst, free, Bursts(burst, free, arrivals))
    decreases arrivals
  {
    if arrivals != [] {
      var (r, free') := Grant(burst, free, arrivals[0].p, arrivals[0].now);
      BurstsDisjoint(burst, free', arrivals[1..]);
      var rest := Bursts(burst, free', arrivals[1..]);
      assert Spaced(burst, free', rest);
      assert Spaced(burst, free, (if r.Response? then [arrivals[0].now] else []) + rest);
    }
  }

  /** The two tables of one rank: the rank's array and the slots of the system-wide table. */
  ghost predicate Mirrors(states: seq<BankState>, id: nat, ranks: BankTable) {
    forall s | s in ranks && s.rank == id :: s.bank < |states| && ranks[s] == states[s.bank]
  }

  /** What the rank object checks is what the transition system checks, and so is what it makes of the command. */
  lemma RankMirrorsSystem(cfg: Config, states: seq<BankState>, states': seq<BankState>, ranks: BankTable,
                          p: Packet, now: int)
    requires Mirrors(states, p.rank, ranks) && forall b: nat | b < |states| :: Slot(p.rank, b) in ranks
    requires |states'| == |states| && forall b | 0 <= b < |states| ::
        states'[b] == ArriveBank(cfg, p, now, b, states[b])
    ensures (forall b | 0 <= b < |states| :: BankAccepts(p, now, b, states[b])) <==> Accepts(ranks, p, now)
    ensures Mirrors(states', p.rank, Arrive(cfg, ranks, p, now))
    ensures forall s | s in ranks && s.rank != p.rank :: Arrive(cfg, ranks, p, now)[s] == ranks[s]
  {
    if Accepts(ranks, p, now) {
      forall b | 0 <= b < |states|
        ensures BankAccepts(p, now, b, states[b])
      {
        assert Slot(p.rank, b) in ranks;
      }
    }
  }
}

/** The bank tables of controller and rank, after the same commands, agree well enough that none is refused. */
module Agreement {
  import opened DramTypes
  import opened CommandQueueSpec
  import opened BankRules
  import opened DramSystem
  import opened SchedulerSafety
  import opened SchedulerInvariant

  /** Open for the rank too: active, and not about to precharge by itself. */
  predicate Open(c: BankState) {
    c.status.ROW_ACTIVE? && !AutoPrecharging(c)
  }

  /** c: the bank as the controller sees it; r: as the rank will see it once all issued commands have arrived. */
  predicate Agree(cfg: Config, c: BankState, r: BankState) {
    && r.nextActivate <= c.nextActivate + cfg.tCMD
    && if Open(c) then
         && r.status.ROW_ACTIVE?
         && r.openRow == c.openRow
         && r.nextRead <= c.nextRead + cfg.tCMD
         && r.nextWrite <= c.nextWrite + cfg.tCMD
         && r.nextPrecharge <= c.nextPrecharge + cfg.tCMD
       else r.status.IDLE?
  }

  ghost predicate AllAgree(cfg: Config, banks: BankTable, ranks: BankTable) {
    banks.Keys == ranks.Keys && forall t | t in banks :: Agree(cfg, banks[t], ranks[t])
  }

  /** The rank's tables after all commands on the wire have arrived; None if one of them is refused. */
  ghost function Replay(cfg: Config, ranks: BankTable, wire: seq<Flit>): Option<BankTable> {
    if wire == [] then Some(ranks)
    else if !Accepts(ranks, wire[0].p, wire[0].at) then None
    else Replay(cfg, Arrive(cfg, ranks, wire[0].p, wire[0].at), wire[1..])
  }

  lemma {:induction false} ReplayAppend(cfg: Config, ranks: BankTable, wire: seq<Flit>, f: Flit)
    requires Replay(cfg, ranks, wire).Some?
    ensures Replay(cfg, ranks, wire + [f]) ==
            var r := Replay(cfg, ranks, wire).value;
            if Accepts(r, f.p, f.at) then Some(Arrive(cfg, r, f.p, f.at)) else None
  {
    if wire == [] {
      assert wire + [f] == [f];
      assert [f][1..] == [];
    } else {
      assert (wire + [f])[1..] == wire[1..] + [f];
      ReplayAppend(cfg, Arrive(cfg, ranks, wire[0].p, wire[0].at), wire[1..], f);
    }
  }

  lemma IssueAgree(cfg: Config, banks: BankTable, p: Packet, now: int, t: Slot, r: BankState)
    requires Allowed(cfg, banks, p, now) && t in banks && Agree(cfg, banks[t], r)
    requires p.IsColumn() ==> Typed(cfg, p)
    ensures t.rank == p.rank ==>
              && BankAccepts(p, now + cfg.tCMD, t.bank, r)
              && Agree(cfg, IssueBank(cfg, p, now, t, banks[t]), ArriveBank(cfg, p, now + cfg.tCMD, t.bank, r))
    ensures t.rank != p.rank ==> Agree(cfg, IssueBank(cfg, p, now, t, banks[t]), r)
  {
    assert t.rank == p.rank && t.bank == p.bank ==> t == p.Target();
  }

  /** A command that the controller allows is accepted tCMD later, and the tables agree again. */
  lemma IssueKeepsAgreement(cfg: Config, banks: BankTable, ranks: BankTable, p: Packet, now: int)
    requires Allowed(cfg, banks, p, now) && AllAgree(cfg, banks, ranks)
    requires p.IsColumn() ==> Typed(cfg, p)
    ensures Accepts(ranks, p, now + cfg.tCMD)
    ensures AllAgree(cfg, Issue(cfg, banks, p, now), Arrive(cfg, ranks, p, now + cfg.tCMD))
  {
    forall t | t in banks
      ensures t.rank == p.rank ==> BankAccepts(p, now + cfg.tCMD, t.bank, ranks[t])
      ensures Agree(cfg, Issue(cfg, banks, p, now)[t], Arrive(cfg, ranks, p, now + cfg.tCMD)[t])
    {
      IssueAgree(cfg, banks, p, now, t, ranks[t]);
    }
  }

  /** A state-update note keeps the agreement if and only if it is timely. */
  lemma UpdateAgreesIffTimely(cfg: Config, banks: BankTable, s: QState, owed: map<Slot, Option<Packet>>,
                              ranks: BankTable, u: Update)
    requires Sound(cfg, banks, s, owed) && AllAgree(cfg, banks, ranks) && u.slot in banks
    ensures AllAgree(cfg, Updated(banks, u), ranks) <==>
            (banks[u.slot].lastCommand.REFRESH? ==> forall t | t in banks && t.rank == u.slot.rank :: !Open(banks[t]))
    ensures Timely(banks, u) ==> AllAgree(cfg, Updated(banks, u), ranks)
  {
    var banks' := Updated(banks, u);
    assert BankOK(cfg, banks[u.slot], s.hits[u.slot], owed[u.slot]);
    if banks[u.slot].lastCommand.REFRESH? {
      forall t | t in banks && t.rank == u.slot.rank
        ensures Agree(cfg, banks'[t], ranks[t]) <==> !Open(banks[t])
      {
        assert BankOK(cfg, banks[t], s.hits[t], owed[t]);
        assert Agree(cfg, banks[t], ranks[t]);
      }
      if AllAgree(cfg, banks', ranks) {
        forall t | t in banks && t.rank == u.slot.rank
          ensures !Open(banks[t])
        {
          assert Agree(cfg, banks'[t], ranks[t]);
        }
      }
    } else {
      forall t | t in banks
        ensures Agree(cfg, banks'[t], ranks[t])
      {
        assert BankOK(cfg, banks[t], s.hits[t], owed[t]);
        assert Agree(cfg, banks[t], ranks[t]);
      }
    }
  }
}

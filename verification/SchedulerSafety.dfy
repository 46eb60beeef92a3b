/** Every command that pop chooses is one that the controller's own bookkeeping allows. */
module SchedulerSafety {
  import opened DramTypes
  import opened CommandQueueSpec
  import opened DramSystem
  import opened QueueShape

  predicate AutoPrecharging(bs: BankState) {
    bs.lastCommand.READ_P? || bs.lastCommand.WRITE_P?
  }

  /** One bank of the controller: its state, its row-hit counter and the column access it still owes. */
  ghost predicate BankOK(cfg: Config, bs: BankState, hits: int, owed: Option<Packet>) {
    && (owed.Some? ==> bs.status.ROW_ACTIVE? && bs.openRow == owed.value.row && bs.lastCommand.ACTIVATE? && hits == 0)
    && 0 <= hits
    && (cfg.rowBufferPolicy.ClosePage? ==> hits == 0)
    && (!bs.status.ROW_ACTIVE? ==> hits == 0)
    && (AutoPrecharging(bs) ==> cfg.rowBufferPolicy.ClosePage? && bs.status.ROW_ACTIVE?)
    && (bs.lastCommand.PRECHARGE? || bs.lastCommand.REFRESH? ==> !bs.status.ROW_ACTIVE?)
  }

  ghost predicate OrphansOwed(q: seq<Packet>, owed: map<Slot, Option<Packet>>) {
    forall i | 0 <= i < |q| ::
      Orphan(q, i) ==> q[i].Target() in owed && owed[q[i].Target()] == Some(q[i].Act())
  }

  ghost predicate OwedQueued(cfg: Config, s: QState, t: Slot, o: Option<Packet>) {
    o.Some? ==>
      && o.value.Target() == t
      && QueueKey(cfg, t) in s.queues
      && HoldsOrphan(s.queues[QueueKey(cfg, t)], o.value)
  }

  /** The controller's half of the system invariant. */
  ghost predicate Sound(cfg: Config, banks: BankTable, s: QState, owed: map<Slot, Option<Packet>>) {
    && Fits(cfg, banks, s)
    && Covers(cfg, owed)
    && (forall t | t in banks :: BankOK(cfg, banks[t], s.hits[t], owed[t]))
    && (forall k | k in s.queues :: QueueOK(cfg, s.queues[k]))
    && (forall k | k in s.queues :: OrphansOwed(s.queues[k], owed))
    && (forall t | t in owed :: OwedQueued(cfg, s, t, owed[t]))
  }

  /** The four-activate condition aside, what the controller must know before it issues p. */
  ghost predicate Allowed(cfg: Config, banks: BankTable, p: Packet, now: int) {
    && p.Target() in banks
    && var bs := banks[p.Target()];
       match p.kind
       case READ | READ_P => bs.status.ROW_ACTIVE? && !AutoPrecharging(bs) && now >= bs.nextRead && p.row == bs.openRow
       case WRITE | WRITE_P => bs.status.ROW_ACTIVE? && !AutoPrecharging(bs) && now >= bs.nextWrite &&
           p.row == bs.openRow
       case ACTIVATE => (bs.status.IDLE? || bs.status.REFRESHING?) && now >= bs.nextActivate
       case PRECHARGE => bs.status.ROW_ACTIVE? && !AutoPrecharging(bs) && now >= bs.nextPrecharge
       case REFRESH => forall t | t in banks && t.rank == p.rank ::
           !banks[t].status.ROW_ACTIVE? && banks[t].nextActivate <= now
       case DATA => false
  }

  ghost predicate GoodTake(v: View, s: QState, owed: map<Slot, Option<Packet>>, c: Choice)
    requires c.Take? && c.key in s.queues && c.at < |s.queues[c.key]|
  {
    var q := s.queues[c.key];
    var p := q[c.at];
    && (c.withAct ==> c.at > 0 && v.cfg.rowBufferPolicy.OpenPage?)
    && Takeable(q, c.at, c.withAct)
    && (p.IsColumn() ==> First(q, c.at))
    && (p.kind.ACTIVATE? ==> p.rank < |v.faw| && |v.faw[p.rank]| < 4)
    && p.Target() in owed
    && (p.IsColumn() && !c.withAct ==> owed[p.Target()] == Some(p.Act()))
    && (p.kind.ACTIVATE? || c.withAct ==> owed[p.Target()] == None)
  }

  ghost predicate Good(v: View, s: QState, owed: map<Slot, Option<Packet>>, c: Choice) {
    && Applicable(v.cfg, s, c)
    && (Chosen(v.cfg, s, c).Some? ==> Allowed(v.cfg, v.banks, Chosen(v.cfg, s, c).value, v.now))
    && match c
       case Nothing => true
       case Take(_, _, _) => GoodTake(v, s, owed, c)
       case Close(t) => v.cfg.rowBufferPolicy.OpenPage? && t in owed && owed[t] == None
       case Refresh(_) => true
  }

  /** A bank that owes a column access has it in its queue, in front of everything else for that row. */
  lemma OwedIsFirst(cfg: Config, banks: BankTable, s: QState, owed: map<Slot, Option<Packet>>, t: Slot) returns (i: nat)
    requires Sound(cfg, banks, s, owed) && t in owed && owed[t].Some?
    ensures var q := s.queues[QueueKey(cfg, t)];
            && i < |q| && Orphan(q, i) && q[i].Act() == owed[t].value && Leads(q, i)
            && q[i].bank == t.bank && q[i].row == banks[t].openRow && s.hits[t] == 0
            && banks[t].lastCommand.ACTIVATE?
  {
    var q := s.queues[QueueKey(cfg, t)];
    assert OwedQueued(cfg, s, t, owed[t]);
    i :| 0 <= i < |q| && Orphan(q, i) && q[i].Act() == owed[t].value;
    assert QueueOK(cfg, q);
    assert q[i].Act().Target() == q[i].Target() && q[i].Act().row == q[i].row;
    assert BankOK(cfg, banks[t], s.hits[t], owed[t]);
  }

  /** A queue's packets for the same bank and key go to the same slot. */
  lemma SameSlot(cfg: Config, k: Slot, q: seq<Packet>, i: nat, j: nat)
    requires Homed(cfg, k, q) && i < |q| && j < |q| && q[i].bank == q[j].bank
    ensures q[i].Target() == q[j].Target() && InRange(cfg, q[i].Target()) && QueueKey(cfg, q[i].Target()) == k
  {
  }

  lemma RefreshChoiceGood(v: View, s: QState, owed: map<Slot, Option<Packet>>)
    requires Sound(v.cfg, v.banks, s, owed) && v.hits == s.hits && v.faw == s.faw
    ensures Good(v, s, owed, RefreshChoice(v, s))
  {
    var c := RefreshChoice(v, s);
    match c
    case Nothing =>
    case Refresh(r) =>
      forall t | t in v.banks && t.rank == r
        ensures !v.banks[t].status.ROW_ACTIVE? && v.banks[t].nextActivate <= v.now
      {
        assert !v.Busy(Slot(r, t.bank)) && t == Slot(r, t.bank);
      }
    case Take(key, at, _) => RefreshTakeGood(v, s, owed);
    case Close(t) =>
      assert BankOK(v.cfg, v.banks[t], s.hits[t], owed[t]);
      if owed[t].Some? {
        var i := OwedIsFirst(v.cfg, v.banks, s, owed, t);
        assert false;
      }
  }

  lemma RefreshTakeGood(v: View, s: QState, owed: map<Slot, Option<Packet>>)
    requires Sound(v.cfg, v.banks, s, owed) && v.hits == s.hits && v.faw == s.faw
    requires RefreshChoice(v, s).Take?
    ensures Good(v, s, owed, RefreshChoice(v, s))
  {
    var c := RefreshChoice(v, s);
    var q := s.queues[c.key];
    var x := Slot(s.refreshRank, v.FirstBusy(s.refreshRank, 0));
    assert QueueOK(v.cfg, q) && Homed(v.cfg, c.key, q) && OrphansOwed(q, owed);
    assert q[c.at].kind.ACTIVATE? || Typed(v.cfg, q[c.at]);
    assert Partnered(q, c.at);
    if c.at > 0 { assert Partnered(q, c.at - 1); }
    if c.at > 0 && q[c.at-1].kind.ACTIVATE? {
      assert false;
    }
    assert Orphan(q, c.at);
    assert BankOK(v.cfg, v.banks[q[c.at].Target()], s.hits[q[c.at].Target()], owed[q[c.at].Target()]);
    OrphanIsFirst(v.cfg, q, c.at);
  }

  lemma OrphanIsFirst(cfg: Config, q: seq<Packet>, i: nat)
    requires QueueOK(cfg, q) && i < |q| && Orphan(q, i)
    ensures First(q, i)
  {
    assert Leads(q, i);
  }

  lemma CloseChoiceGood(v: View, s: QState, owed: map<Slot, Option<Packet>>)
    requires Sound(v.cfg, v.banks, s, owed) && v.hits == s.hits && v.faw == s.faw
    requires CloseChoice(v, s).Some?
    ensures Good(v, s, owed, Close(CloseChoice(v, s).value))
  {
    var t := CloseChoice(v, s).value;
    var q := s.queues[QueueKey(v.cfg, t)];
    assert BankOK(v.cfg, v.banks[t], s.hits[t], owed[t]);
    if owed[t].Some? {
      var i := OwedIsFirst(v.cfg, v.banks, s, owed, t);
      assert false;
    }
  }

  /** An ACTIVATE that may be served has nothing in front of it for its bank and row. */
  lemma ServedActLeads(v: View, s: QState, owed: map<Slot, Option<Packet>>, key: Slot, i: nat)
    requires Sound(v.cfg, v.banks, s, owed) && v.hits == s.hits && v.faw == s.faw
    requires key in s.queues && i < |s.queues[key]| && s.queues[key][i].kind.ACTIVATE?
    requires Homed(v.cfg, key, s.queues[key])
    requires v.Servable(s.queues[key], i) && forall j | 0 <= j < i :: !v.Servable(s.queues[key], j)
    ensures Leads(s.queues[key], i)
  {
    var q := s.queues[key];
    assert QueueOK(v.cfg, q) && OrphansOwed(q, owed);
    forall j | 0 <= j < i
      ensures !(q[j].bank == q[i].bank && q[j].row == q[i].row)
    {
      if q[j].bank == q[i].bank && q[j].row == q[i].row {
        SameSlot(v.cfg, key, q, i, j);
        var a := j;   // an ACTIVATE for the same bank and row, if there is one
        assert Partnered(q, j);
        if !q[j].kind.ACTIVATE? {
          assert BankOK(v.cfg, v.banks[q[j].Target()], s.hits[q[j].Target()], owed[q[j].Target()]);
          assert !Orphan(q, j);
          a := j - 1;
          assert Partnered(q, a);
        }
        assert Partnered(q, a);
        if v.cfg.rowBufferPolicy.OpenPage? {
          assert false;
        } else {
          if a > 0 { assert Partnered(q, a - 1); }
          assert q[a].Target() == q[i].Target();
          assert v.Servable(q, a);
        }
      }
    }
  }

  /** A row hit that overtakes its own ACTIVATE finds no owed access on its bank. */
  lemma ServedPairOwesNothing(v: View, s: QState, owed: map<Slot, Option<Packet>>, key: Slot, i: nat)
    requires Sound(v.cfg, v.banks, s, owed) && v.hits == s.hits && v.faw == s.faw
    requires key in s.queues && 0 < i < |s.queues[key]| && s.queues[key][i-1].kind.ACTIVATE?
    requires Homed(v.cfg, key, s.queues[key]) && v.cfg.rowBufferPolicy.OpenPage?
    requires s.queues[key][i].IsColumn() && v.Servable(s.queues[key], i)
    ensures owed[s.queues[key][i].Target()] == None
  {
    var q := s.queues[key];
    var t := q[i].Target();
    if owed[t].Some? {
      var j := OwedIsFirst(v.cfg, v.banks, s, owed, t);
      assert false;
    }
  }

  lemma ServedGood(v: View, s: QState, owed: map<Slot, Option<Packet>>, x: Slot)
    requires Sound(v.cfg, v.banks, s, owed) && v.hits == s.hits && v.faw == s.faw
    requires InRange(v.cfg, x) && Offers(v, s, x)
    ensures Good(v, s, owed, Served(v, s, x))
  {
    var c := Served(v, s, x);
    var q := s.queues[c.key];
    var i := c.at;
    assert QueueOK(v.cfg, q) && Homed(v.cfg, c.key, q) && OrphansOwed(q, owed);
    var t := q[i].Target();
    assert BankOK(v.cfg, v.banks[t], s.hits[t], owed[t]);
    assert q[i].kind.ACTIVATE? || Typed(v.cfg, q[i]);
    assert Partnered(q, i);
    if i > 0 { assert Partnered(q, i - 1); }
    if q[i].kind.ACTIVATE? {
      ServedActLeads(v, s, owed, c.key, i);
    } else if c.withAct {
      ServedPairOwesNothing(v, s, owed, c.key, i);
      ServableIsFirst(v, s, c.key, i);
    } else {
      assert Orphan(q, i);
      OrphanIsFirst(v.cfg, q, i);
    }
  }

  lemma ServableIsFirst(v: View, s: QState, key: Slot, i: nat)
    requires v.Fits() && key in s.queues && i < |s.queues[key]| && Homed(v.cfg, key, s.queues[key])
    requires v.Servable(s.queues[key], i) && v.cfg.rowBufferPolicy.OpenPage?
    ensures First(s.queues[key], i)
  {
    var q := s.queues[key];
    forall j | 0 <= j < i
      ensures !(q[j].IsColumn() && q[j].Target() == q[i].Target() && q[j].row == q[i].row)
    {
      if q[j].IsColumn() && q[j].Target() == q[i].Target() && q[j].row == q[i].row {
        assert false;
      }
    }
  }

  /** Whatever pop chooses, in any sound state, is allowed and keeps the queues in shape. */
  lemma ChooseGood(v: View, s: QState, owed: map<Slot, Option<Packet>>)
    requires Sound(v.cfg, v.banks, s, owed) && v.hits == s.hits && v.faw == s.faw
    ensures Good(v, s, owed, Choose(v, s))
  {
    RefreshChoiceGood(v, s, owed);
    if RefreshChoice(v, s) == Nothing {
      match ServeChoice(v, s)
      case Some(x) => ServedGood(v, s, owed, x);
      case None =>
        if CloseChoice(v, s).Some? {
          CloseChoiceGood(v, s, owed);
        }
    }
  }
}

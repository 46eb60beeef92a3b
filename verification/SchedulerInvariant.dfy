/**
 The controller's invariant is kept by everything that touches its tables and queues.
 A call of pop takes a packet, closes a bank or refreshes a rank, and the bank table follows; a transaction enters with
 its ACTIVATE in front; a note is read. After each of them every bank's state, row-hit counter and owed access fit each
 other, and every queue has its shape.
 */
module SchedulerInvariant {
  import opened DramTypes
  import opened CommandQueueSpec
  import opened BankRules
  import opened DramSystem
  import opened QueueShape
  import opened SchedulerSafety
  import CommandQueues

  lemma InitSound(cfg: Config)
    requires cfg.Valid()
    ensures Shaped(cfg, Init(cfg)) && Sound(cfg, Init(cfg).banks, Init(cfg).q, Init(cfg).owed)
  {
    CommandQueues.InitialFits(cfg, Init(cfg).banks);
  }

  /** The invariant looks at the queues and the row-hit counters only. */
  lemma SameQueuesSound(cfg: Config, banks: BankTable, s: QState, s': QState, owed: map<Slot, Option<Packet>>)
    requires Sound(cfg, banks, s, owed) && Fits(cfg, banks, s') && s'.queues == s.queues && s'.hits == s.hits
    ensures Sound(cfg, banks, s', owed)
  {
    forall t | t in owed
      ensures OwedQueued(cfg, s', t, owed[t])
    {
      assert OwedQueued(cfg, s, t, owed[t]);
    }
  }

  /** A choice as the tables see it: which counter changes. */
  function HitsAfter(h: int, own: bool, p: Packet, withAct: bool): int {
    if !own then h else if p.kind.PRECHARGE? then 0 else if withAct then h + 1 else h
  }

  lemma IssueBankOK(cfg: Config, p: Packet, now: int, t: Slot, bs: BankState, h: int, withAct: bool, o: Option<Packet>)
    requires BankOK(cfg, bs, h, o) && (p.IsColumn() ==> Typed(cfg, p)) && !p.kind.DATA?
    requires withAct ==> cfg.rowBufferPolicy.OpenPage?
    requires t == p.Target() && p.IsColumn() ==> bs.status.ROW_ACTIVE? && (o.Some? ==> o == Some(p.Act()))
    requires t == p.Target() && p.kind.ACTIVATE? ==> !bs.status.ROW_ACTIVE? && !withAct
    requires t == p.Target() && p.kind.PRECHARGE? ==> o == None && !AutoPrecharging(bs)
    requires t.rank == p.rank && p.kind.REFRESH? ==> !bs.status.ROW_ACTIVE? && !withAct
    ensures var o' := if t != p.Target() then o
                      else if p.kind.ACTIVATE? then Some(p)
                      else if p.IsColumn() && o == Some(p.Act()) then None else o;
            BankOK(cfg, IssueBank(cfg, p, now, t, bs), HitsAfter(h, t == p.Target(), p, withAct), o')
  {
  }

  lemma TakeBanksOK(v: View, s: QState, owed: map<Slot, Option<Packet>>, c: Choice, t: Slot)
    requires Sound(v.cfg, v.banks, s, owed) && c.Take? && Good(v, s, owed, c) && t in v.banks
    ensures var p := s.queues[c.key][c.at];
            BankOK(v.cfg, Issue(v.cfg, v.banks, p, v.now)[t], Take1(s, c).hits[t], OwedAfter(owed, p)[t])
  {
    var q := s.queues[c.key];
    var p := q[c.at];
    assert QueueOK(v.cfg, q);
    assert p.kind.ACTIVATE? || Typed(v.cfg, p);
    assert BankOK(v.cfg, v.banks[t], s.hits[t], owed[t]);
    IssueBankOK(v.cfg, p, v.now, t, v.banks[t], s.hits[t], c.withAct, owed[t]);
  }

  lemma TakeOwedQueued(v: View, s: QState, owed: map<Slot, Option<Packet>>, c: Choice, t: Slot)
    requires Sound(v.cfg, v.banks, s, owed) && c.Take? && Good(v, s, owed, c) && t in owed
    ensures OwedQueued(v.cfg, Take1(s, c), t, OwedAfter(owed, s.queues[c.key][c.at])[t])
  {
    var q := s.queues[c.key];
    var p := q[c.at];
    var o := OwedAfter(owed, p)[t];
    assert QueueOK(v.cfg, q) && Homed(v.cfg, c.key, q);
    assert OwedQueued(v.cfg, s, t, owed[t]);
    if o.Some? && QueueKey(v.cfg, t) == c.key {
      assert p.Act().Target() == p.Target();
      OrphanAfter(v.cfg, q, c.at, c.withAct, o.value);
    }
  }

  lemma TakeQueueKept(v: View, s: QState, owed: map<Slot, Option<Packet>>, c: Choice, k: Slot)
    requires Sound(v.cfg, v.banks, s, owed) && c.Take? && Good(v, s, owed, c) && k in s.queues
    ensures var q := Take1(s, c).queues[k];
            Homed(v.cfg, k, q) && QueueOK(v.cfg, q) && OrphansOwed(q, OwedAfter(owed, s.queues[c.key][c.at]))
  {
    var q := s.queues[c.key];
    assert QueueOK(v.cfg, q) && Homed(v.cfg, c.key, q);
    assert Homed(v.cfg, k, s.queues[k]) && OrphansOwed(s.queues[k], owed);
    if k == c.key {
      RemovedAt(q, c.at, c.withAct);
      RemovedOK(v.cfg, q, c.at, c.withAct);
      TakeOrphansOwed(v, s, owed, c);
    } else {
      OtherOrphansOwed(v.cfg, s, owed, k, c.key, q[c.at]);
    }
  }

  lemma TakeSound(v: View, s: QState, owed: map<Slot, Option<Packet>>, c: Choice)
    requires Sound(v.cfg, v.banks, s, owed) && c.Take? && Good(v, s, owed, c)
    ensures var p := s.queues[c.key][c.at];
            Sound(v.cfg, Issue(v.cfg, v.banks, p, v.now), Take1(s, c), OwedAfter(owed, p))
  {
    hide BankOK, OwedQueued, QueueOK, OrphansOwed, Homed, IssueBank, Takeable, First;
    var p := s.queues[c.key][c.at];
    var s', banks', owed' := Take1(s, c), Issue(v.cfg, v.banks, p, v.now), OwedAfter(owed, p);
    forall t | t in banks'
      ensures BankOK(v.cfg, banks'[t], s'.hits[t], owed'[t])
    {
      TakeBanksOK(v, s, owed, c, t);
    }
    forall k | k in s'.queues
      ensures Homed(v.cfg, k, s'.queues[k]) && QueueOK(v.cfg, s'.queues[k]) && OrphansOwed(s'.queues[k], owed')
    {
      TakeQueueKept(v, s, owed, c, k);
    }
    forall t | t in owed'
      ensures OwedQueued(v.cfg, s', t, owed'[t])
    {
      TakeOwedQueued(v, s, owed, c, t);
    }
  }

  /** In the queue that lost a packet, every orphan is owed. */
  lemma TakeOrphansOwed(v: View, s: QState, owed: map<Slot, Option<Packet>>, c: Choice)
    requires Sound(v.cfg, v.banks, s, owed) && c.Take? && Good(v, s, owed, c)
    ensures var q := s.queues[c.key];
            OrphansOwed(Removed(q, c.at, c.withAct), OwedAfter(owed, q[c.at]))
  {
    var q := s.queues[c.key];
    var p := q[c.at];
    var r := Removed(q, c.at, c.withAct);
    assert QueueOK(v.cfg, q) && Homed(v.cfg, c.key, q) && OrphansOwed(q, owed);
    RemovedAt(q, c.at, c.withAct);
    forall j | 0 <= j < |r| && Orphan(r, j)
      ensures r[j].Target() in OwedAfter(owed, p) && OwedAfter(owed, p)[r[j].Target()] == Some(r[j].Act())
    {
      var b := Before(j, c.at, c.withAct);
      OrphanBefore(v.cfg, q, c.at, c.withAct, j);
      assert Partnered(q, c.at);
      if Orphan(q, b) {
        assert owed[q[b].Target()] == Some(q[b].Act());
        if q[b].Target() == p.Target() {
          OrphansDiffer(v.cfg, q, owed, c.at, b);
        }
      }
    }
  }

  /** A queue holds no two orphans of one bank. */
  lemma OrphansDiffer(cfg: Config, q: seq<Packet>, owed: map<Slot, Option<Packet>>, i: nat, j: nat)
    requires QueueOK(cfg, q) && OrphansOwed(q, owed) && i < |q| && j < |q| && i != j
    requires Orphan(q, i) && Orphan(q, j)
    ensures q[i].Target() != q[j].Target()
  {
    assert Leads(q, i) && Leads(q, j);
    assert q[i].Act().row == q[i].row && q[j].Act().row == q[j].row;
    if q[i].Target() == q[j].Target() {
      assert false;
    }
  }

  lemma OtherOrphansOwed(cfg: Config, s: QState, owed: map<Slot, Option<Packet>>, k: Slot, key: Slot, p: Packet)
    requires k in s.queues && k != key && Homed(cfg, k, s.queues[k]) && OrphansOwed(s.queues[k], owed)
    requires p.Target() in owed && QueueKey(cfg, p.Target()) == key
    ensures OrphansOwed(s.queues[k], OwedAfter(owed, p))
  {
  }

  lemma CloseSound(v: View, s: QState, owed: map<Slot, Option<Packet>>, c: Choice)
    requires Sound(v.cfg, v.banks, s, owed) && c.Close? && Good(v, s, owed, c)
    ensures var p := Chosen(v.cfg, s, c).value;
            Sound(v.cfg, Issue(v.cfg, v.banks, p, v.now), Effect(v.cfg, s, c), OwedAfter(owed, p))
  {
    var p := Chosen(v.cfg, s, c).value;
    var banks' := Issue(v.cfg, v.banks, p, v.now);
    var s' := Effect(v.cfg, s, c);
    forall t | t in banks'
      ensures BankOK(v.cfg, banks'[t], s'.hits[t], owed[t])
    {
      assert BankOK(v.cfg, v.banks[t], s.hits[t], owed[t]);
      IssueBankOK(v.cfg, p, v.now, t, v.banks[t], s.hits[t], false, owed[t]);
    }
    forall t | t in owed
      ensures OwedQueued(v.cfg, s', t, owed[t])
    {
      assert OwedQueued(v.cfg, s, t, owed[t]);
    }
  }

  lemma RefreshSound(v: View, s: QState, owed: map<Slot, Option<Packet>>, c: Choice)
    requires Sound(v.cfg, v.banks, s, owed) && c.Refresh? && Good(v, s, owed, c)
    ensures var p := Chosen(v.cfg, s, c).value;
            Sound(v.cfg, Issue(v.cfg, v.banks, p, v.now), Effect(v.cfg, s, c), OwedAfter(owed, p))
  {
    var p := Chosen(v.cfg, s, c).value;
    var banks' := Issue(v.cfg, v.banks, p, v.now);
    var s' := Effect(v.cfg, s, c);
    forall t | t in banks'
      ensures BankOK(v.cfg, banks'[t], s'.hits[t], owed[t])
    {
      assert BankOK(v.cfg, v.banks[t], s.hits[t], owed[t]);
      IssueBankOK(v.cfg, p, v.now, t, v.banks[t], s.hits[t], false, owed[t]);
    }
    forall t | t in owed
      ensures OwedQueued(v.cfg, s', t, owed[t])
    {
      assert OwedQueued(v.cfg, s, t, owed[t]);
    }
  }

  lemma EffectSound(v: View, s: QState, owed: map<Slot, Option<Packet>>, c: Choice)
    requires Sound(v.cfg, v.banks, s, owed) && Good(v, s, owed, c) && c != Nothing
    ensures var p := Chosen(v.cfg, s, c).value;
            && p.Target() in owed
            && Sound(v.cfg, Issue(v.cfg, v.banks, p, v.now), Effect(v.cfg, s, c), OwedAfter(owed, p))
  {
    match c
    case Take(_, _, _) => TakeSound(v, s, owed, c);
    case Close(_) => CloseSound(v, s, owed, c);
    case Refresh(_) => RefreshSound(v, s, owed, c);
  }

  lemma FinishFits(cfg: Config, banks: BankTable, s: QState, x: Slot, y: Slot, p: Packet)
    requires Fits(cfg, banks, s) && InRange(cfg, x) && InRange(cfg, y) && InRange(cfg, p.Target())
    ensures var e := s.(next := x, nextPRE := y);
            && Fits(cfg, banks, Finish(cfg, e, p))
            && Finish(cfg, e, p).queues == s.queues && Finish(cfg, e, p).hits == s.hits
  {
  }

  /** What pop leaves behind: a good choice, carried out. */
  lemma PopSound(cfg: Config, banks: BankTable, s: QState, owed: map<Slot, Option<Packet>>, now: int)
    requires Sound(cfg, banks, s, owed)
    ensures var s1 := TickWindows(s); var v := ViewOf(cfg, banks, s1, now);
            && Sound(cfg, banks, s1, owed)
            && Good(v, s1, owed, Choose(v, s1))
            && Pop(cfg, banks, s, now).0 == Chosen(cfg, s1, Choose(v, s1))
    ensures match Pop(cfg, banks, s, now).0
            case None => Pop(cfg, banks, s, now).1 == TickWindows(s)
            case Some(p) => p.Target() in owed &&
                            Sound(cfg, Issue(cfg, banks, p, now), Pop(cfg, banks, s, now).1, OwedAfter(owed, p))
  {
    var s1 := TickWindows(s);
    var v := ViewOf(cfg, banks, s1, now);
    SameQueuesSound(cfg, banks, s, s1, owed);
    var c := Choose(v, s1);
    ChooseGood(v, s1, owed);
    if c != Nothing {
      var p := Chosen(cfg, s1, c).value;
      EffectSound(v, s1, owed, c);
      var e := Effect(cfg, s1, c);
      var banks', owed' := Issue(cfg, banks, p, now), OwedAfter(owed, p);
      var (x, y) := Cursors(v, s1);
      FinishFits(cfg, banks', e, x, y, p);
      SameQueuesSound(cfg, banks', e, Finish(cfg, e.(next := x, nextPRE := y), p), owed');
    }
  }

  lemma TransactionSound(cfg: Config, banks: BankTable, s: QState, owed: map<Slot, Option<Packet>>, b: Packet)
    requires Sound(cfg, banks, s, owed) && InRange(cfg, b.Target()) && Typed(cfg, b)
    requires QueueKey(cfg, b.Target()) in s.queues
    ensures Sound(cfg, banks, EnqueuePair(cfg, s, b), owed)
  {
    var k := QueueKey(cfg, b.Target());
    var s' := EnqueuePair(cfg, s, b);
    assert Homed(cfg, k, s.queues[k]) && QueueOK(cfg, s.queues[k]) && OrphansOwed(s.queues[k], owed);
    PairAppended(cfg, s.queues[k], b);
    assert b.Act().Target() == b.Target();
    forall k' | k' in s'.queues
      ensures Homed(cfg, k', s'.queues[k']) && OrphansOwed(s'.queues[k'], owed)
    {
      assert Homed(cfg, k', s.queues[k']) && OrphansOwed(s.queues[k'], owed);
    }
    forall t | t in owed
      ensures OwedQueued(cfg, s', t, owed[t])
    {
      assert OwedQueued(cfg, s, t, owed[t]);
    }
  }

  /** A state-update note is harmless unless it reports a refresh while a bank of that rank is open. */
  predicate Timely(banks: BankTable, u: Update)
    requires u.slot in banks
  {
    banks[u.slot].lastCommand.REFRESH? ==>
      forall t | t in banks && t.rank == u.slot.rank :: !banks[t].status.ROW_ACTIVE?
  }

  lemma UpdateSound(cfg: Config, banks: BankTable, s: QState, owed: map<Slot, Option<Packet>>, u: Update)
    requires Sound(cfg, banks, s, owed) && u.slot in banks && Timely(banks, u)
    ensures Sound(cfg, Updated(banks, u), s, owed)
  {
    var banks' := Updated(banks, u);
    assert BankOK(cfg, banks[u.slot], s.hits[u.slot], owed[u.slot]);
    forall t | t in banks'
      ensures BankOK(cfg, banks'[t], s.hits[t], owed[t])
    {
      assert BankOK(cfg, banks[t], s.hits[t], owed[t]);
    }
  }
}

/** Pairs stay pairs and no column access is lost or duplicated: in every run, whatever the timing parameters. */
module Conservation {
  import opened DramTypes
  import opened CommandQueueSpec
  import opened DramSystem
  import opened QueueShape
  import CommandQueues
  import SchedulerInvariant

  ghost predicate AllPaired(cfg: Config, s: QState) {
    forall k | k in s.queues :: Paired(cfg, s.queues[k])
  }

  /** How often p entered is how often it left plus how often it is still queued. */
  ghost predicate Balanced(cfg: Config, enqueued: seq<Packet>, issued: seq<Packet>, queues: map<Slot, seq<Packet>>,
                           p: Packet) {
    QueueKey(cfg, p.Target()) in queues ==>
      multiset(enqueued)[p] == multiset(issued)[p] + multiset(queues[QueueKey(cfg, p.Target())])[p]
  }

  ghost predicate AllBalanced(cfg: Config, enqueued: seq<Packet>, issued: seq<Packet>, queues: map<Slot, seq<Packet>>) {
    forall p: Packet | p.IsColumn() :: Balanced(cfg, enqueued, issued, queues, p)
  }

  ghost predicate Kept(cfg: Config, S: Sys) {
    Shaped(cfg, S) && AllPaired(cfg, S.q) && AllBalanced(cfg, S.enqueued, S.issued, S.q.queues)
  }

  lemma ServedSeparable(v: View, s: QState, x: Slot)
    requires v.Fits() && Fits(v.cfg, v.banks, s) && AllPaired(v.cfg, s) && InRange(v.cfg, x) && Offers(v, s, x)
    ensures var c := Served(v, s, x); Separable(s.queues[c.key], c.at, c.withAct)
  {
    var c := Served(v, s, x);
    var q := s.queues[c.key];
    assert Paired(v.cfg, q) && Homed(v.cfg, c.key, q);
    assert v.Servable(q, c.at);
    assert Partnered(q, c.at);
    if c.at > 0 { assert Partnered(q, c.at - 1); }
  }

  lemma RefreshSeparable(v: View, s: QState)
    requires v.Fits() && Fits(v.cfg, v.banks, s) && AllPaired(v.cfg, s) && RefreshChoice(v, s).Take?
    ensures var c := RefreshChoice(v, s); Separable(s.queues[c.key], c.at, c.withAct)
  {
    var c := RefreshChoice(v, s);
    var q := s.queues[c.key];
    assert Paired(v.cfg, q);
    if c.at > 0 { assert Partnered(q, c.at - 1); }
  }

  lemma ChooseSeparable(v: View, s: QState)
    requires v.Fits() && Fits(v.cfg, v.banks, s) && AllPaired(v.cfg, s) && Choose(v, s).Take?
    ensures var c := Choose(v, s); Separable(s.queues[c.key], c.at, c.withAct)
  {
    if RefreshChoice(v, s) != Nothing {
      RefreshSeparable(v, s);
    } else {
      ServedSeparable(v, s, ServeChoice(v, s).value);
    }
  }

  lemma RemovedPaired(cfg: Config, q: seq<Packet>, at: nat, withAct: bool)
    requires Paired(cfg, q) && at < |q| && (withAct ==> at > 0) && Separable(q, at, withAct)
    ensures Paired(cfg, Removed(q, at, withAct))
  {
    RemovedAt(q, at, withAct);
    forall j | 0 <= j < |Removed(q, at, withAct)|
      ensures Partnered(Removed(q, at, withAct), j)
    {
      PartneredAfter(cfg, q, at, withAct, j);
    }
  }

  lemma RemovedCount(q: seq<Packet>, at: nat, withAct: bool, p: Packet)
    requires at < |q| && (withAct ==> at > 0 && q[at-1].kind.ACTIVATE?) && p.IsColumn()
    ensures multiset(q)[p] == multiset(Removed(q, at, withAct))[p] + (if q[at] == p then 1 else 0)
  {
    var lo := if withAct then at - 1 else at;
    assert q == q[..lo] + q[lo..at] + [q[at]] + q[at+1..];
    assert multiset(q[lo..at])[p] == 0;
  }

  /** The queue state that pop leaves fits its tables, and is the chosen removal. */
  lemma PopFits(cfg: Config, banks: BankTable, s: QState, now: int)
    requires Fits(cfg, banks, s)
    ensures Fits(cfg, banks, Pop(cfg, banks, s, now).1)
    ensures var s1 := TickWindows(s); var c := Choose(ViewOf(cfg, banks, s1, now), s1);
            && Applicable(cfg, s1, c)
            && Pop(cfg, banks, s, now).0 == Chosen(cfg, s1, c)
            && Pop(cfg, banks, s, now).1.queues == Effect(cfg, s1, c).queues
  {
    var s1 := TickWindows(s);
    var v := ViewOf(cfg, banks, s1, now);
    var c := Choose(v, s1);
    ChooseApplicable(v, s1);
    var e := Effect(cfg, s1, c);
    EffectFits(cfg, banks, s1, c);
    if c != Nothing {
      SchedulerInvariant.FinishFits(cfg, banks, e, Cursors(v, s1).0, Cursors(v, s1).1, Chosen(cfg, s1, c).value);
    }
  }

  lemma EffectFits(cfg: Config, banks: BankTable, s: QState, c: Choice)
    requires Fits(cfg, banks, s) && Applicable(cfg, s, c)
    ensures Fits(cfg, banks, Effect(cfg, s, c))
    ensures Chosen(cfg, s, c).Some? ==> InRange(cfg, Chosen(cfg, s, c).value.Target())
    ensures c.Take? ==> QueueKey(cfg, s.queues[c.key][c.at].Target()) == c.key
  {
    if c.Take? {
      var q := s.queues[c.key];
      assert Homed(cfg, c.key, q);
      RemovedAt(q, c.at, c.withAct);
      forall k | k in Effect(cfg, s, c).queues
        ensures Homed(cfg, k, Effect(cfg, s, c).queues[k])
      {
        assert Homed(cfg, k, s.queues[k]);
      }
    } else {
      forall k | k in s.queues
        ensures Homed(cfg, k, Effect(cfg, s, c).queues[k])
      {
        assert Homed(cfg, k, s.queues[k]);
      }
    }
  }

  lemma TakeKept(cfg: Config, enqueued: seq<Packet>, issued: seq<Packet>, s: QState, c: Choice)
    requires AllPaired(cfg, s) && AllBalanced(cfg, enqueued, issued, s.queues)
    requires c.Take? && Applicable(cfg, s, c) && Separable(s.queues[c.key], c.at, c.withAct)
    requires QueueKey(cfg, s.queues[c.key][c.at].Target()) == c.key
    ensures var p := s.queues[c.key][c.at];
            var queues := s.queues[c.key := Removed(s.queues[c.key], c.at, c.withAct)];
            && (forall k | k in queues :: Paired(cfg, queues[k]))
            && AllBalanced(cfg, enqueued, if p.IsColumn() then issued + [p] else issued, queues)
  {
    var q := s.queues[c.key];
    var p := q[c.at];
    var queues := s.queues[c.key := Removed(q, c.at, c.withAct)];
    var issued' := if p.IsColumn() then issued + [p] else issued;
    assert Paired(cfg, q);
    RemovedPaired(cfg, q, c.at, c.withAct);
    forall r: Packet | r.IsColumn()
      ensures Balanced(cfg, enqueued, issued', queues, r)
    {
      assert Balanced(cfg, enqueued, issued, s.queues, r);
      assert multiset(issued')[r] == multiset(issued)[r] + (if p == r then 1 else 0);
      if QueueKey(cfg, r.Target()) == c.key {
        RemovedCount(q, c.at, c.withAct, r);
      }
    }
  }

  lemma CycleKept(cfg: Config, S: Sys)
    requires Kept(cfg, S)
    ensures Kept(cfg, CycleStep(cfg, S))
  {
    var s1 := TickWindows(S.q);
    var v := ViewOf(cfg, S.banks, s1, S.now);
    var c := Choose(v, s1);
    PopFits(cfg, S.banks, S.q, S.now);
    EffectFits(cfg, S.banks, s1, c);
    if c.Take? {
      ChooseSeparable(v, s1);
      TakeKept(cfg, S.enqueued, S.issued, s1, c);
    }
    var (r, q') := Pop(cfg, S.banks, S.q, S.now);
    PoppedKept(cfg, S, s1, c, S.(q := q', calls := S.calls + [r]));
  }

  /** The rest of the tick touches neither queues nor the order of issue beyond the command itself. */
  lemma PoppedKept(cfg: Config, S: Sys, s1: QState, c: Choice, S1: Sys)
    requires Kept(cfg, S) && s1.queues == S.q.queues && Covers(cfg, s1.hits) && Applicable(cfg, s1, c)
    requires S1 == S.(q := S1.q, calls := S1.calls) && Fits(cfg, S.banks, S1.q)
    requires Chosen(cfg, s1, c).Some? ==> InRange(cfg, Chosen(cfg, s1, c).value.Target())
    requires S1.q.queues == Effect(cfg, s1, c).queues
    requires c.Take? ==>
               var p := s1.queues[c.key][c.at];
               && (forall k | k in S1.q.queues :: Paired(cfg, S1.q.queues[k]))
               && AllBalanced(cfg, S.enqueued, if p.IsColumn() then S.issued + [p] else S.issued, S1.q.queues)
    ensures Kept(cfg, match Chosen(cfg, s1, c) case Some(p) => IssueStep(cfg, S1, p) case None => S1)
  {
    hide Paired, AllBalanced, Homed;
  }

  lemma TransactionBalanced(cfg: Config, enqueued: seq<Packet>, issued: seq<Packet>, s: QState, b: Packet, p: Packet)
    requires Balanced(cfg, enqueued, issued, s.queues, p) && QueueKey(cfg, b.Target()) in s.queues && p.IsColumn()
    ensures Balanced(cfg, enqueued + [b], issued, EnqueuePair(cfg, s, b).queues, p)
  {
    assert [b.Act(), b] == [b.Act()] + [b];
  }

  lemma TransactionKept(cfg: Config, S: Sys, b: Packet)
    requires Kept(cfg, S) && Enabled(cfg, S, Transaction(b))
    ensures Kept(cfg, Do(cfg, S, Transaction(b)))
  {
    hide Balanced;
    var S' := Do(cfg, S, Transaction(b));
    var k := QueueKey(cfg, b.Target());
    assert b.Act().Target() == b.Target();
    forall k' | k' in S'.q.queues
      ensures Homed(cfg, k', S'.q.queues[k']) && Paired(cfg, S'.q.queues[k'])
    {
      assert Homed(cfg, k', S.q.queues[k']) && Paired(cfg, S.q.queues[k']);
      if k' == k {
        PairedAppended(cfg, S.q.queues[k], b);
      }
    }
    forall p: Packet | p.IsColumn()
      ensures Balanced(cfg, S'.enqueued, S'.issued, S'.q.queues, p)
    {
      TransactionBalanced(cfg, S.enqueued, S.issued, S.q, b, p);
    }
  }

  lemma PairedAppended(cfg: Config, q: seq<Packet>, b: Packet)
    requires Paired(cfg, q) && Typed(cfg, b)
    ensures Paired(cfg, q + [b.Act(), b])
  {
    var r := q + [b.Act(), b];
    forall i | 0 <= i < |r|
      ensures Partnered(r, i)
    {
      if i < |q| {
        assert Partnered(q, i);
      }
    }
  }

  lemma NextKept(cfg: Config, S: Sys, S': Sys)
    requires Kept(cfg, S) && Next(cfg, S, S')
    ensures Kept(cfg, S')
  {
    var a :| Step(cfg, S, a, S');
    if Enabled(cfg, S, a) && a.Transaction? {
      TransactionKept(cfg, S, a.b);
    } else if Enabled(cfg, S, a) && a.Cycle? {
      CycleKept(cfg, S);
    } else {
      OtherKept(cfg, S, a);
    }
  }

  lemma OtherKept(cfg: Config, S: Sys, a: Action)
    requires Kept(cfg, S) && (Enabled(cfg, S, a) ==> !a.Transaction? && !a.Cycle?)
    ensures Kept(cfg, Do(cfg, S, a))
  {
    hide AllBalanced, Paired, Homed, Post;
  }

  lemma InitKept(cfg: Config)
    requires cfg.Valid()
    ensures Kept(cfg, Init(cfg))
  {
    CommandQueues.InitialFits(cfg, Init(cfg).banks);
  }

  lemma {:induction false} RunKept(cfg: Config, run: seq<Sys>)
    requires cfg.Valid() && IsRun(cfg, run)
    ensures Kept(cfg, Last(run))
  {
    hide Kept;
    if |run| == 1 {
      InitKept(cfg);
    } else {
      var n := |run| - 2;
      RunPrefix(cfg, run, n);
      RunKept(cfg, run[..n+1]);
      NextKept(cfg, run[n], run[n+1]);
    }
  }

  /** Every queued ACTIVATE is immediately followed by its own column access. */
  lemma ActivatesKeepTheirAccess(cfg: Config, run: seq<Sys>, k: Slot, i: nat)
    requires cfg.Valid() && IsRun(cfg, run)
    requires k in Last(run).q.queues && i < |Last(run).q.queues[k]| && Last(run).q.queues[k][i].kind.ACTIVATE?
    ensures var q := Last(run).q.queues[k];
            i + 1 < |q| && q[i+1].IsColumn() && q[i+1].Act() == q[i]
  {
    RunKept(cfg, run);
    assert Paired(cfg, Last(run).q.queues[k]);
    assert Partnered(Last(run).q.queues[k], i);
  }

  /** What entered is what was issued plus what waits, access by access, and nothing waits in a foreign queue. */
  lemma NothingLostOrDuplicated(cfg: Config, run: seq<Sys>, p: Packet)
    requires cfg.Valid() && IsRun(cfg, run) && p.IsColumn() && InRange(cfg, p.Target())
    ensures var S := Last(run); var k := QueueKey(cfg, p.Target());
            && k in S.q.queues
            && multiset(S.enqueued)[p] == multiset(S.issued)[p] + multiset(S.q.queues[k])[p]
            && (forall k' | k' in S.q.queues && k' != k :: p !in S.q.queues[k'])
  {
    RunKept(cfg, run);
    var S := Last(run);
    assert Balanced(cfg, S.enqueued, S.issued, S.q.queues, p);
    forall k' | k' in S.q.queues && p in S.q.queues[k']
      ensures k' == QueueKey(cfg, p.Target())
    {
      assert Homed(cfg, k', S.q.queues[k']);
    }
  }
}

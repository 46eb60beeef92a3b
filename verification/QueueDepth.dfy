/** No queue ever grows beyond its depth, and transactions are let in up to that depth. */
module QueueDepth {
  import opened DramTypes
  import opened CommandQueueSpec
  import opened BankRules
  import opened DramSystem
  import opened QueueShape
  import Conservation

  ghost predicate InDepth(queues: map<Slot, seq<Packet>>) {
    forall k | k in queues :: |queues[k]| <= CMD_QUEUE_DEPTH
  }

  /** A transaction is let in exactly if its queue then is no longer than its depth. */
  lemma AdmittedIffItFits(cfg: Config, s: QState, b: Packet)
    requires QueueKey(cfg, b.Target()) in s.queues
    ensures HasRoomFor(cfg, s, 2, b.Target()) <==>
            |EnqueuePair(cfg, s, b).queues[QueueKey(cfg, b.Target())]| <= CMD_QUEUE_DEPTH
  {
  }

  lemma EffectInDepth(cfg: Config, s: QState, c: Choice)
    requires Applicable(cfg, s, c) && Covers(cfg, s.hits) && InDepth(s.queues)
    ensures InDepth(Effect(cfg, s, c).queues)
  {
    if c.Take? {
      RemovedAt(s.queues[c.key], c.at, c.withAct);
    }
  }

  lemma PopInDepth(cfg: Config, banks: BankTable, s: QState, now: int)
    requires Fits(cfg, banks, s) && InDepth(s.queues)
    ensures InDepth(Pop(cfg, banks, s, now).1.queues)
  {
    hide Pop, Choose, Effect, Homed, TickWindow;
    Conservation.PopFits(cfg, banks, s, now);
    var s1 := TickWindows(s);
    EffectInDepth(cfg, s1, Choose(ViewOf(cfg, banks, s1, now), s1));
  }

  lemma StepInDepth(cfg: Config, S: Sys, a: Action)
    requires Shaped(cfg, S) && InDepth(S.q.queues)
    ensures InDepth(Do(cfg, S, a).q.queues)
  {
    hide Fits, Pop, Issue, IssueUpdates, Post, Updated, FollowUps, Accepts, Arrive;
    if Enabled(cfg, S, a) && a.Cycle? {
      PopInDepth(cfg, S.banks, S.q, S.now);
      hide InDepth;
    }
  }

  lemma NextInDepth(cfg: Config, S: Sys, S': Sys)
    requires Conservation.Kept(cfg, S) && InDepth(S.q.queues) && Next(cfg, S, S')
    ensures InDepth(S'.q.queues)
  {
    var a :| Step(cfg, S, a, S');
    hide InDepth, Do, Fits;
    StepInDepth(cfg, S, a);
  }

  /** In every run no queue is ever longer than its depth, so the overflow of a queue is never reported. */
  lemma {:induction false} QueuesNeverOverflow(cfg: Config, run: seq<Sys>)
    requires cfg.Valid() && IsRun(cfg, run)
    ensures InDepth(Last(run).q.queues)
  {
    if |run| > 1 {
      hide InDepth, Next, StepAt, Conservation.Kept;
      var n := |run| - 2;
      RunPrefix(cfg, run, n);
      QueuesNeverOverflow(cfg, run[..n+1]);
      Conservation.RunKept(cfg, run[..n+1]);
      StepIsNext(cfg, run, n);
      NextInDepth(cfg, run[n], run[n+1]);
    }
  }

  lemma StepIsNext(cfg: Config, run: seq<Sys>, n: nat)
    requires n + 1 < |run| && StepAt(cfg, run, n)
    ensures Next(cfg, run[n], run[n+1])
  {
  }
}

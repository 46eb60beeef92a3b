/** The posted-CAS flag: with additive latency the queue that was just served is asked first once more. */
module PostedCas {
  // So the column access paired with an ACTIVATE can follow it; without additive latency the round always moves on.

  import opened DramTypes
  import opened CommandQueueSpec
  import opened RoundRobin
  import opened DramSystem
  import Conservation

  /** How many calls of pop returned a command. */
  function Commands(calls: seq<Option<Packet>>): nat {
    if calls == [] then 0
    else Commands(calls[..|calls|-1]) + (if calls[|calls|-1].Some? then 1 else 0)
  }

  /** Is it the turn of the first command of a pair? */
  predicate InStep(cfg: Config, s: QState, calls: seq<Option<Packet>>) {
    s.sendAct <==> cfg.tAL == 0 || Commands(calls) % 2 == 0
  }

  lemma PopFlag(cfg: Config, banks: BankTable, s: QState, now: int)
    requires Fits(cfg, banks, s)
    ensures var (r, s') := Pop(cfg, banks, s, now);
            s'.sendAct == if r.Some? then cfg.tAL == 0 || !s.sendAct else s.sendAct
  {
    hide Choose, Cursors, Homed, Chosen;
  }

  lemma CallInStep(cfg: Config, banks: BankTable, s: QState, now: int, calls: seq<Option<Packet>>)
    requires Fits(cfg, banks, s) && InStep(cfg, s, calls)
    ensures var (r, s') := Pop(cfg, banks, s, now); InStep(cfg, s', calls + [r])
  {
    var (r, s') := Pop(cfg, banks, s, now);
    assert (calls + [r])[..|calls|] == calls;
    PopFlag(cfg, banks, s, now);
    hide Pop;
  }

  lemma NextInStep(cfg: Config, S: Sys, S': Sys)
    requires Shaped(cfg, S) && InStep(cfg, S.q, S.calls) && Next(cfg, S, S')
    ensures InStep(cfg, S'.q, S'.calls)
  {
    var a :| Step(cfg, S, a, S');
    CallInStep(cfg, S.banks, S.q, S.now, S.calls);
    hide Pop, Enabled;
  }

  /**
   With posted CAS every second command moves the round on, whatever the commands are; without, every command does.
   */
  lemma {:induction false} FlagAlternates(cfg: Config, run: seq<Sys>)
    requires cfg.Valid() && IsRun(cfg, run)
    ensures Last(run).q.sendAct <==> cfg.tAL == 0 || Commands(Last(run).calls) % 2 == 0
  {
    if |run| > 1 {
      hide Conservation.AllPaired, Conservation.AllBalanced;
      var n := |run| - 2;
      RunPrefix(cfg, run, n);
      FlagAlternates(cfg, run[..n+1]);
      Conservation.RunKept(cfg, run[..n+1]);
      NextInStep(cfg, run[n], run[n+1]);
    }
  }

  /** Where the next round starts: at the bank just served while its pair is incomplete, else one bank further. */
  lemma RoundMovesOn(cfg: Config, banks: BankTable, s: QState, now: int)
    requires Fits(cfg, banks, s) && Pop(cfg, banks, s, now).0.Some?
    ensures var s1 := TickWindows(s); var v := ViewOf(cfg, banks, s1, now); var s' := Pop(cfg, banks, s, now).1;
            var served := RefreshChoice(v, s1) == Nothing && ServeChoice(v, s1).Some?;
            var at := if served then ServeChoice(v, s1).value else s.next;
            && InRange(cfg, at)
            && s'.next == NthBank(cfg, at, if cfg.tAL > 0 && s.sendAct then 0 else 1)
  {
    var s1 := TickWindows(s);
    ChooseApplicable(ViewOf(cfg, banks, s1, now), s1);
  }
}

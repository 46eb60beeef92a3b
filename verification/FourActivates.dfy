/** The sliding window that limits a rank to four ACTIVATEs in any tFAW consecutive calls of pop. */
module FourActivates {
  import opened DramTypes
  import opened CommandQueueSpec
  import opened DramSystem
  import Conservation

  predicate ActivatesRank(c: Option<Packet>, rank: nat) {
    c.Some? && c.value.kind.ACTIVATE? && c.value.rank == rank
  }

  /** How many of the last n calls activated a row of the rank. */
  function Recent(calls: seq<Option<Packet>>, rank: nat, n: nat): nat {
    if calls == [] || n == 0 then 0
    else Recent(calls[..|calls|-1], rank, n - 1) + (if ActivatesRank(calls[|calls|-1], rank) then 1 else 0)
  }

  /** The ticks that each of these ACTIVATEs still has to stay in a window of n calls, oldest first. */
  function Countdown(calls: seq<Option<Packet>>, rank: nat, n: nat): seq<int> {
    if calls == [] || n == 0 then []
    else Countdown(calls[..|calls|-1], rank, n - 1) + (if ActivatesRank(calls[|calls|-1], rank) then [n] else [])
  }

  lemma {:induction false} CountdownShape(calls: seq<Option<Packet>>, rank: nat, n: nat)
    ensures var w := Countdown(calls, rank, n);
            && |w| == Recent(calls, rank, n)
            && (forall i | 0 <= i < |w| :: 1 <= w[i] <= n)
            && (forall i, j | 0 <= i < j < |w| :: w[i] < w[j])
  {
    if calls != [] && n > 0 {
      CountdownShape(calls[..|calls|-1], rank, n - 1);
    }
  }

  lemma TickAppend(w: seq<int>, n: int)
    requires n >= 2
    ensures TickWindow(w + [n]) == TickWindow(w) + [n - 1]
  {
    var d := seq(|w|, i requires 0 <= i < |w| => w[i] - 1);
    assert seq(|w + [n]|, i requires 0 <= i < |w + [n]| => (w + [n])[i] - 1) == d + [n - 1];
    if |d| > 0 && d[0] == 0 {
      assert (d + [n - 1])[1..] == d[1..] + [n - 1];
    }
  }

  /** Sliding the window: the smallest countdown is the head, so dropping the head is enough. */
  lemma {:induction false} CountdownTicks(calls: seq<Option<Packet>>, rank: nat, n: nat)
    requires n >= 1
    ensures TickWindow(Countdown(calls, rank, n)) == Countdown(calls, rank, n - 1)
  {
    if calls != [] && n > 1 {
      var pre := calls[..|calls|-1];
      LastCall(calls, rank, n);
      LastCall(calls, rank, n - 1);
      hide TickWindow, Countdown;
      CountdownTicks(pre, rank, n - 1);
      TickAppend(Countdown(pre, rank, n - 1), n);
    }
  }

  lemma LastCall(calls: seq<Option<Packet>>, rank: nat, n: nat)
    requires calls != [] && n >= 1
    ensures Countdown(calls, rank, n) ==
            Countdown(calls[..|calls|-1], rank, n - 1) + if ActivatesRank(calls[|calls|-1], rank) then [n] else []
  {
  }

  ghost predicate Windowed(cfg: Config, s: QState, calls: seq<Option<Packet>>) {
    && |s.faw| == cfg.numRanks
    && (forall r | 0 <= r < cfg.numRanks :: s.faw[r] == Countdown(calls, r, cfg.tFAW))
    && (forall m, r | 0 <= m <= |calls| && 0 <= r < cfg.numRanks :: AtMostFour(cfg, calls, m, r))
  }

  /** The tFAW calls that end with the m-th one activated the rank at most four times. */
  predicate AtMostFour(cfg: Config, calls: seq<Option<Packet>>, m: nat, rank: nat)
    requires m <= |calls|
  {
    Recent(calls[..m], rank, cfg.tFAW) <= 4
  }

  lemma ChosenActivateHasRoom(v: View, s: QState)
    requires v.Fits() && Fits(v.cfg, v.banks, s) && Applicable(v.cfg, s, Choose(v, s)) && v.faw == s.faw
    ensures match Chosen(v.cfg, s, Choose(v, s))
            case Some(p) => p.kind.ACTIVATE? ==> p.rank < |s.faw| && |s.faw[p.rank]| < 4
            case None => true
  {
    var c := Choose(v, s);
    if c.Take? {
      assert Homed(v.cfg, c.key, s.queues[c.key]);
    }
  }

  /** A call of pop slides all windows, and one of them grows if a row was activated. */
  lemma PopSlides(cfg: Config, banks: BankTable, s: QState, now: int)
    requires Fits(cfg, banks, s)
    ensures var (r, s') := Pop(cfg, banks, s, now); var w := TickWindows(s).faw;
            && |w| == |s.faw| == cfg.numRanks
            && (r.Some? ==> r.value.rank < cfg.numRanks)
            && s'.faw == if r.Some? && r.value.kind.ACTIVATE?
                         then w[r.value.rank := w[r.value.rank] + [cfg.tFAW]] else w
  {
    Conservation.PopFits(cfg, banks, s, now);
    ChooseApplicable(ViewOf(cfg, banks, TickWindows(s), now), TickWindows(s));
    hide Choose, Cursors, Homed, TickWindow;
  }

  lemma PopHasRoom(cfg: Config, banks: BankTable, s: QState, now: int)
    requires Fits(cfg, banks, s)
    ensures match Pop(cfg, banks, s, now).0
            case Some(p) => p.kind.ACTIVATE? ==> p.rank < |TickWindows(s).faw| && |TickWindows(s).faw[p.rank]| < 4
            case None => true
  {
    var s1 := TickWindows(s);
    Conservation.PopFits(cfg, banks, s, now);
    ChosenActivateHasRoom(ViewOf(cfg, banks, s1, now), s1);
    hide Pop, Choose, TickWindow, Homed;
  }

  /** What one call of pop does to the windows. */
  lemma PopWindows(cfg: Config, banks: BankTable, s: QState, now: int)
    requires Fits(cfg, banks, s)
    ensures var (r, s') := Pop(cfg, banks, s, now);
            && |s'.faw| == |s.faw| == cfg.numRanks
            && forall i | 0 <= i < cfg.numRanks ::
                 s'.faw[i] == TickWindow(s.faw[i]) + (if ActivatesRank(r, i) then [cfg.tFAW] else []) &&
                 (ActivatesRank(r, i) ==> |TickWindow(s.faw[i])| < 4)
  {
    hide Pop, TickWindow;
    PopSlides(cfg, banks, s, now);
    PopHasRoom(cfg, banks, s, now);
  }

  lemma CallWindowed(cfg: Config, banks: BankTable, s: QState, now: int, calls: seq<Option<Packet>>)
    requires Fits(cfg, banks, s) && Windowed(cfg, s, calls)
    ensures var (r, s') := Pop(cfg, banks, s, now); Windowed(cfg, s', calls + [r])
  {
    var (r, s') := Pop(cfg, banks, s, now);
    PopWindows(cfg, banks, s, now);
    var calls' := calls + [r];
    assert calls'[..|calls|] == calls;
    forall i | 0 <= i < cfg.numRanks
      ensures s'.faw[i] == Countdown(calls', i, cfg.tFAW) && |s'.faw[i]| <= 4
    {
      assert s.faw[i] == Countdown(calls, i, cfg.tFAW);
      CountdownShape(calls', i, cfg.tFAW);
      CountdownShape(calls, i, cfg.tFAW);
      assert AtMostFour(cfg, calls, |calls|, i) && calls[..|calls|] == calls;
      CountdownTicks(calls, i, cfg.tFAW);
    }
    forall m, i | 0 <= m <= |calls'| && 0 <= i < cfg.numRanks
      ensures AtMostFour(cfg, calls', m, i)
    {
      if m <= |calls| {
        assert calls'[..m] == calls[..m];
        assert AtMostFour(cfg, calls, m, i);
      } else {
        assert calls'[..m] == calls';
        CountdownShape(calls', i, cfg.tFAW);
      }
    }
  }

  lemma StepWindows(cfg: Config, S: Sys, a: Action)
    requires Shaped(cfg, S)
    ensures var S' := Do(cfg, S, a);
            if Enabled(cfg, S, a) && a.Cycle?
            then S'.q == Pop(cfg, S.banks, S.q, S.now).1 && S'.calls == S.calls + [Pop(cfg, S.banks, S.q, S.now).0]
            else S'.q.faw == S.q.faw && S'.calls == S.calls
  {
    hide Pop, Enabled;
  }

  lemma NextWindowed(cfg: Config, S: Sys, S': Sys)
    requires Shaped(cfg, S) && Windowed(cfg, S.q, S.calls) && Next(cfg, S, S')
    ensures Windowed(cfg, S'.q, S'.calls)
  {
    var a :| Step(cfg, S, a, S');
    StepWindows(cfg, S, a);
    CallWindowed(cfg, S.banks, S.q, S.now, S.calls);
    hide Do, Pop;
  }

  lemma {:induction false} RunWindowed(cfg: Config, run: seq<Sys>)
    requires cfg.Valid() && IsRun(cfg, run)
    ensures Windowed(cfg, Last(run).q, Last(run).calls)
  {
    if |run| > 1 {
      hide Windowed, Conservation.AllPaired, Conservation.AllBalanced;
      var n := |run| - 2;
      RunPrefix(cfg, run, n);
      RunWindowed(cfg, run[..n+1]);
      Conservation.RunKept(cfg, run[..n+1]);
      NextWindowed(cfg, run[n], run[n+1]);
    }
  }

  /** Any tFAW consecutive calls of pop, ending with call m of any run, issue at most four ACTIVATEs to a rank. */
  lemma AtMostFourActivates(cfg: Config, run: seq<Sys>, m: nat, rank: nat)
    requires cfg.Valid() && IsRun(cfg, run) && m <= |Last(run).calls| && rank < cfg.numRanks
    ensures Recent(Last(run).calls[..m], rank, cfg.tFAW) <= 4
  {
    RunWindowed(cfg, run);
    assert AtMostFour(cfg, Last(run).calls, m, rank);
  }

  /**
   The countdown list is strictly increasing within 1..tFAW and lists exactly the ACTIVATEs of the last tFAW calls.
   */
  lemma CountdownListExact(cfg: Config, run: seq<Sys>, rank: nat)
    requires cfg.Valid() && IsRun(cfg, run) && rank < cfg.numRanks
    ensures rank < |Last(run).q.faw|
    ensures var w := Last(run).q.faw[rank];
            && |w| == Recent(Last(run).calls, rank, cfg.tFAW)
            && (forall i | 0 <= i < |w| :: 1 <= w[i] <= cfg.tFAW)
            && (forall i, j | 0 <= i < j < |w| :: w[i] < w[j])
  {
    RunWindowed(cfg, run);
    CountdownShape(Last(run).calls, rank, cfg.tFAW);
  }
}

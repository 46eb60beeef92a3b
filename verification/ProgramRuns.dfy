module ProgramRuns {
  // Every run of the program's ticks is a run of the transition system, so what holds of those holds of the program.

  import opened DramTypes
  import opened CommandQueueSpec
  import opened BankRules
  import opened DramSystem
  import opened SchedulerSafety
  import opened PendingNotes
  import opened ProgramTicks
  import CommandQueues
  import Conservation
  import Controllers
  import DramSafety

  lemma One(e: Event)
    ensures Notes([e]) == (if e.Note? then [e.d] else []) && Commands([e]) == if e.Command? then [e.f] else []
  {
    assert [e][1..] == [];
  }

  lemma {:induction false} NotesConcat(a: seq<Event>, b: seq<Event>)
    ensures Notes(a + b) == Notes(a) + Notes(b)
  {
    if a == [] {
      assert a + b == b;
    } else {
      var first := NoteOf(a[0]);
      hide NoteOf;
      assert Notes(a) == first + Notes(a[1..]);
      assert (a + b)[0] == a[0] && (a + b)[1..] == a[1..] + b;
      assert Notes(a + b) == first + Notes(a[1..] + b);
      hide Notes;
      NotesConcat(a[1..], b);
      assert first + (Notes(a[1..]) + Notes(b)) == first + Notes(a[1..]) + Notes(b);
    }
  }

  lemma {:induction false} CommandsConcat(a: seq<Event>, b: seq<Event>)
    ensures Commands(a + b) == Commands(a) + Commands(b)
  {
    if a == [] {
      assert a + b == b;
    } else {
      var first := CommandOf(a[0]);
      hide CommandOf;
      assert Commands(a) == first + Commands(a[1..]);
      assert (a + b)[0] == a[0] && (a + b)[1..] == a[1..] + b;
      assert Commands(a + b) == first + Commands(a[1..] + b);
      hide Commands;
      CommandsConcat(a[1..], b);
      assert first + (Commands(a[1..]) + Commands(b)) == first + Commands(a[1..]) + Commands(b);
    }
  }

  lemma Concat(a: seq<Event>, b: seq<Event>)
    ensures Notes(a + b) == Notes(a) + Notes(b) && Commands(a + b) == Commands(a) + Commands(b)
  {
    NotesConcat(a, b);
    CommandsConcat(a, b);
  }

  lemma {:induction false} NoCommands(a: seq<Event>)
    requires forall i | 0 <= i < |a| :: a[i].Note?
    ensures Commands(a) == []
  {
    if a != [] {
      NoCommands(a[1..]);
    }
  }

  lemma {:induction false} PostedNotes(us: seq<Update>, now: int)
    ensures multiset(Notes(Posted(us, now))) == Post(us, now) && Commands(Posted(us, now)) == []
  {
    NoCommands(Posted(us, now));
    if us != [] {
      assert Posted(us, now)[1..] == Posted(us[1..], now);
      PostedNotes(us[1..], now);
      var rest := Notes(Posted(us[1..], now));
      assert Notes(Posted(us, now)) == [DueOf(us[0], now)] + rest;
    }
  }

  lemma Halves<T>(s: seq<T>, k: nat)
    requires k < |s|
    ensures s[..k] + s[k..] == s && [s[k]] + s[k+1..] == s[k..]
  {
  }

  lemma Cut(agenda: seq<Event>, k: nat)
    requires k < |agenda|
    ensures Notes(agenda) == Notes(agenda[..k]) + (Notes([agenda[k]]) + Notes(agenda[k+1..]))
    ensures Commands(agenda) == Commands(agenda[..k]) + (Commands([agenda[k]]) + Commands(agenda[k+1..]))
  {
    hide Notes, Commands;
    var a, e, b, eb := agenda[..k], [agenda[k]], agenda[k+1..], agenda[k..];
    Halves(agenda, k);
    Concat(a, eb);
    Concat(e, b);
  }

  lemma NoteRemoved(agenda: seq<Event>, k: nat)
    requires k < |agenda| && agenda[k].Note?
    ensures multiset(Notes(agenda)) == multiset(Notes(Without(agenda, k))) + multiset{agenda[k].d}
    ensures Commands(Without(agenda, k)) == Commands(agenda)
  {
    hide Notes, Commands;
    Cut(agenda, k);
    One(agenda[k]);
    Concat(agenda[..k], agenda[k+1..]);
  }

  lemma CommandRemoved(agenda: seq<Event>, k: nat)
    requires k < |agenda| && agenda[k].Command? && forall j | 0 <= j < k :: agenda[j].Note?
    ensures Notes(Without(agenda, k)) == Notes(agenda)
    ensures Commands(agenda) == [agenda[k].f] + Commands(Without(agenda, k))
  {
    hide Notes, Commands;
    Cut(agenda, k);
    One(agenda[k]);
    Concat(agenda[..k], agenda[k+1..]);
    NoCommands(agenda[..k]);
  }

  /** Commands reach their ranks in the order of issue and nothing is overdue. */
  ghost predicate InStep(cfg: Config, now: int, agenda: seq<Event>) {
    && (forall i, j | 0 <= i < j < |agenda| && agenda[i].Command? && agenda[j].Command? ::
          DueAt(agenda[i]) <= DueAt(agenda[j]))
    && (forall i | 0 <= i < |agenda| :: now <= DueAt(agenda[i]))
    && (forall i | 0 <= i < |agenda| && agenda[i].Command? :: DueAt(agenda[i]) <= now + cfg.tCMD)
  }

  /** The machine and the transition system are in the same state. */
  ghost predicate Same(M: Machine, S: Sys) {
    && S.now == M.now && S.q == M.q && S.banks == M.banks && S.ranks == M.ranks
    && S.wire == Commands(M.agenda) && S.pending == multiset(Notes(M.agenda))
    && !S.aborted
  }

  ghost predicate Simulates(cfg: Config, M: Machine, S: Sys) {
    && Reachable(cfg, S)
    && if M.stopped then S.aborted else Same(M, S) && InStep(cfg, M.now, M.agenda)
  }

  lemma ReachShaped(cfg: Config, S: Sys)
    requires cfg.Valid() && Reachable(cfg, S)
    ensures Shaped(cfg, S)
  {
    var run :| IsRun(cfg, run) && Last(run) == S;
    Conservation.RunKept(cfg, run);
  }

  // ---------------------------------------------------------------- one event

  /** What becomes of the agenda when a note is read. */
  lemma NoteHandled(cfg: Config, M: Machine, d: Due)
    requires AtHome(M) && FirstDue(M.agenda, M.now) < |M.agenda| && M.agenda[FirstDue(M.agenda, M.now)] == Note(d)
    requires InStep(cfg, M.now, M.agenda)
    ensures d.u.slot in M.banks && d.due <= M.now && d in Notes(M.agenda)
    ensures var R := Handle(cfg, M);
            && R == M.(banks := Updated(M.banks, d.u), agenda := R.agenda)
            && InStep(cfg, M.now, R.agenda)
            && Commands(R.agenda) == Commands(M.agenda)
            && multiset(Notes(R.agenda)) ==
               multiset(Notes(M.agenda)) - multiset{d} + Post(FollowUps(cfg, M.banks, d.u), M.now)
  {
    var k := FirstDue(M.agenda, M.now);
    assert M.agenda[k] in M.agenda;
    var us := FollowUps(cfg, M.banks, d.u);
    assert Handle(cfg, M).agenda == Without(M.agenda, k) + Posted(us, M.now);
    hide Notes, Commands, FirstDue, Post, FollowUps, Updated, InStep, Without, Posted, AtHome;
    NoteRemoved(M.agenda, k);
    PostedNotes(us, M.now);
    Concat(Without(M.agenda, k), Posted(us, M.now));
    StillInStep(cfg, M.now, M.agenda, k, us);
    assert d in multiset(Notes(M.agenda));
  }

  lemma HandleNote(cfg: Config, M: Machine, S: Sys) returns (S': Sys)
    requires cfg.Valid() && AtHome(M) && !M.stopped && Simulates(cfg, M, S)
    requires FirstDue(M.agenda, M.now) < |M.agenda| && M.agenda[FirstDue(M.agenda, M.now)].Note?
    ensures Simulates(cfg, Handle(cfg, M), S')
  {
    hide Reachable, InStep, Commands, Notes, Shaped, Post, Do, AtHome, Updated, FollowUps;
    var d := M.agenda[FirstDue(M.agenda, M.now)].d;
    NoteHandled(cfg, M, d);
    hide Handle, FirstDue;
    ReachShaped(cfg, S);
    ReachStep(cfg, S, DeliverUpdate(d));
    NoteDelivered(cfg, S, d);
    S' := Do(cfg, S, DeliverUpdate(d));
  }

  lemma NoteDelivered(cfg: Config, S: Sys, d: Due)
    requires Shaped(cfg, S) && !S.aborted && d in S.pending && d.u.slot in S.banks && d.due <= S.now
    ensures Do(cfg, S, DeliverUpdate(d)) ==
            S.(banks := Updated(S.banks, d.u), late := true,
               pending := S.pending - multiset{d} + Post(FollowUps(cfg, S.banks, d.u), S.now))
  {
  }

  lemma CommandDelivered(cfg: Config, S: Sys)
    requires Shaped(cfg, S) && !S.aborted && |S.wire| > 0 && S.wire[0].at <= S.now
    ensures Do(cfg, S, DeliverCommand) ==
            if Accepts(S.ranks, S.wire[0].p, S.now)
            then S.(wire := S.wire[1..], ranks := Arrive(cfg, S.ranks, S.wire[0].p, S.now), late := true)
            else S.(aborted := true)
  {
  }

  lemma StillInStep(cfg: Config, now: int, agenda: seq<Event>, k: nat, us: seq<Update>)
    requires InStep(cfg, now, agenda) && k < |agenda|
    ensures InStep(cfg, now, Without(agenda, k) + Posted(us, now)) && InStep(cfg, now, Without(agenda, k))
  {
  }

  lemma FirstCommand(cfg: Config, now: int, agenda: seq<Event>)
    requires InStep(cfg, now, agenda) && FirstDue(agenda, now) < |agenda| && agenda[FirstDue(agenda, now)].Command?
    ensures forall j | 0 <= j < FirstDue(agenda, now) :: agenda[j].Note?
  {
  }

  lemma IssueInStep(cfg: Config, now: int, agenda: seq<Event>, us: seq<Update>, p: Packet)
    requires InStep(cfg, now, agenda)
    ensures InStep(cfg, now, agenda + Posted(us, now) + [Command(Flit(p, now + cfg.tCMD))])
  {
  }

  lemma HandleCommand(cfg: Config, M: Machine, S: Sys) returns (S': Sys)
    requires cfg.Valid() && AtHome(M) && !M.stopped && Simulates(cfg, M, S)
    requires FirstDue(M.agenda, M.now) < |M.agenda| && M.agenda[FirstDue(M.agenda, M.now)].Command?
    ensures Simulates(cfg, Handle(cfg, M), S')
  {
    hide Reachable;
    var k := FirstDue(M.agenda, M.now);
    FirstCommand(cfg, M.now, M.agenda);
    CommandRemoved(M.agenda, k);
    ReachShaped(cfg, S);
    ReachStep(cfg, S, DeliverCommand);
    hide Commands, Notes, Shaped, Accepts, Arrive;
    S' := Do(cfg, S, DeliverCommand);
    assert S.wire[0] == M.agenda[k].f && S.wire[1..] == Commands(Without(M.agenda, k));
    CommandDelivered(cfg, S);
    hide Do;
    StillInStep(cfg, M.now, M.agenda, k, []);
    hide InStep, Without;
  }

  lemma {:induction false} DrainSimulates(cfg: Config, M: Machine, S: Sys) returns (S': Sys)
    requires cfg.Valid() && AtHome(M) && Simulates(cfg, M, S)
    ensures Simulates(cfg, Drain(cfg, M), S')
    decreases ClosingBanks(M.banks), |M.agenda|
  {
    if M.stopped || FirstDue(M.agenda, M.now) == |M.agenda| {
      S' := S;
    } else {
      HandleShrinks(cfg, M);
      var S1: Sys;
      if M.agenda[FirstDue(M.agenda, M.now)].Note? {
        S1 := HandleNote(cfg, M, S);
      } else {
        S1 := HandleCommand(cfg, M, S);
      }
      hide Handle, Simulates;
      S' := DrainSimulates(cfg, Handle(cfg, M), S1);
    }
  }

  // ---------------------------------------------------------------- the parts of the tick

  lemma AskSimulates(cfg: Config, M: Machine, S: Sys, ask: Option<nat>) returns (S': Sys)
    requires cfg.Valid() && !M.stopped && Simulates(cfg, M, S) && !S.late && RankExists(cfg, ask)
    ensures Simulates(cfg, M.(q := Asked(M.q, ask)), S') && !S'.late
  {
    hide Reachable;
    S' := S;
    if ask.Some? {
      ReachShaped(cfg, S);
      ReachStep(cfg, S, RequestRefresh(ask.value));
      S' := Do(cfg, S, RequestRefresh(ask.value));
      hide Shaped;
    }
  }

  lemma Cycled(cfg: Config, S: Sys) returns (S': Sys)
    requires Shaped(cfg, S) && !S.aborted && !S.late
    ensures S' == Do(cfg, S, Cycle)
    ensures S'.now == S.now && S'.ranks == S.ranks && !S'.aborted && !S'.late
    ensures S'.q == Pop(cfg, S.banks, S.q, S.now).1
    ensures match Pop(cfg, S.banks, S.q, S.now).0
            case None => S'.banks == S.banks && S'.wire == S.wire && S'.pending == S.pending
            case Some(p) =>
              && S'.banks == Issue(cfg, S.banks, p, S.now)
              && S'.wire == S.wire + [Flit(p, S.now + cfg.tCMD)]
              && S'.pending == S.pending + Post(IssueUpdates(cfg, p, S.now), S.now)
  {
    hide Fits, Pop, Issue, IssueUpdates, Post;
    S' := CycleStep(cfg, S);
  }

  /** What becomes of the agenda when a command is issued. */
  lemma CommandPosted(cfg: Config, now: int, agenda: seq<Event>, p: Packet)
    requires InStep(cfg, now, agenda)
    ensures var agenda' := agenda + Posted(IssueUpdates(cfg, p, now), now) + [Command(Flit(p, now + cfg.tCMD))];
            && InStep(cfg, now, agenda')
            && Commands(agenda') == Commands(agenda) + [Flit(p, now + cfg.tCMD)]
            && multiset(Notes(agenda')) == multiset(Notes(agenda)) + Post(IssueUpdates(cfg, p, now), now)
  {
    var us := IssueUpdates(cfg, p, now);
    var f := Command(Flit(p, now + cfg.tCMD));
    One(f);
    IssueInStep(cfg, now, agenda, us, p);
    hide Commands, Notes, IssueUpdates, InStep, Post, Posted;
    PostedNotes(us, now);
    var posted := Posted(us, now);
    Concat(agenda, posted);
    Concat(agenda + posted, [f]);
    assert Notes(agenda + posted + [f]) == Notes(agenda) + Notes(posted);
    assert Commands(agenda + posted + [f]) == Commands(agenda) + [f.f];
  }

  lemma PopSimulates(cfg: Config, M: Machine, S: Sys) returns (S': Sys)
    requires cfg.Valid() && !M.stopped && Simulates(cfg, M, S) && !S.late && Fits(cfg, M.banks, M.q)
    ensures Simulates(cfg, RamCycle(cfg, M, None), S') && !S'.late
  {
    hide Reachable, Shaped, Fits, Pop, Issue, IssueUpdates, Commands, Notes, Post, InStep, Posted;
    ReachShaped(cfg, S);
    ReachStep(cfg, S, Cycle);
    S' := Cycled(cfg, S);
    hide Do;
    match Pop(cfg, M.banks, M.q, M.now).0 {
      case None =>
      case Some(p) => CommandPosted(cfg, M.now, M.agenda, p);
    }
  }

  lemma EnqueueSimulates(cfg: Config, M: Machine, S: Sys) returns (S': Sys)
    requires cfg.Valid() && !M.stopped && Simulates(cfg, M, S) && Fits(cfg, M.banks, M.q)
    requires forall p | p in M.pend :: InRange(cfg, p.Target()) && Typed(cfg, p)
    ensures Simulates(cfg, Enqueue(cfg, M), S')
  {
    hide Reachable;
    S' := S;
    var k := Controllers.FirstWithRoom(cfg, M.q, M.pend, 0);
    if k < |M.pend| {
      var b := M.pend[k];
      assert b in M.pend && IsKey(cfg, QueueKey(cfg, b.Target()));
      ReachShaped(cfg, S);
      ReachStep(cfg, S, Transaction(b));
      S' := Do(cfg, S, Transaction(b));
      PairFits(cfg, M.banks, M.q, b);
    }
  }

  lemma PairFits(cfg: Config, banks: BankTable, s: QState, b: Packet)
    requires Fits(cfg, banks, s) && InRange(cfg, b.Target())
    ensures Fits(cfg, banks, EnqueuePair(cfg, s, b))
  {
    var k := QueueKey(cfg, b.Target());
    forall k' | k' in EnqueuePair(cfg, s, b).queues
      ensures Homed(cfg, k', EnqueuePair(cfg, s, b).queues[k'])
    {
      assert Homed(cfg, k', s.queues[k']);
      assert b.Act().Target() == b.Target();
    }
  }

  lemma {:induction false} InAgenda(agenda: seq<Event>)
    ensures forall d | d in Notes(agenda) :: Note(d) in agenda
    ensures forall f | f in Commands(agenda) :: Command(f) in agenda
  {
    if agenda != [] {
      InAgenda(agenda[1..]);
    }
  }

  lemma NothingDue(cfg: Config, M: Machine, S: Sys)
    requires Same(M, S) && FirstDue(M.agenda, M.now) == |M.agenda|
    ensures forall d | d in S.pending :: d.due >= M.now + 1
    ensures forall i | 0 <= i < |S.wire| :: S.wire[i].at >= M.now + 1
    ensures InStep(cfg, M.now, M.agenda) ==> InStep(cfg, M.now + 1, M.agenda)
  {
    InAgenda(M.agenda);
    hide Notes, Commands;
    forall d | d in S.pending
      ensures d.due >= M.now + 1
    {
      assert d in Notes(M.agenda) && DueAt(Note(d)) > M.now;
    }
    forall i | 0 <= i < |S.wire|
      ensures S.wire[i].at >= M.now + 1
    {
      assert S.wire[i] in Commands(M.agenda) && DueAt(Command(S.wire[i])) > M.now;
    }
  }

  lemma Advanced(cfg: Config, S: Sys, to: int)
    requires Shaped(cfg, S) && !S.aborted && to > S.now
    requires (forall d | d in S.pending :: d.due >= to) && forall i | 0 <= i < |S.wire| :: S.wire[i].at >= to
    ensures Do(cfg, S, Advance(to)) == S.(now := to, late := false)
  {
  }

  lemma ClockSimulates(cfg: Config, M: Machine, S: Sys) returns (S': Sys)
    requires cfg.Valid() && !M.stopped && Simulates(cfg, M, S) && FirstDue(M.agenda, M.now) == |M.agenda|
    ensures Simulates(cfg, M.(now := M.now + 1), S') && !S'.late
  {
    hide Reachable, Shaped, InStep, Do;
    ReachShaped(cfg, S);
    NothingDue(cfg, M, S);
    ReachStep(cfg, S, Advance(M.now + 1));
    Advanced(cfg, S, M.now + 1);
    S' := S.(now := M.now + 1, late := false);
  }

  // ---------------------------------------------------------------- the whole tick

  lemma EndReady(cfg: Config, M: Machine, ram: bool, arrivals: seq<Packet>)
    requires Ready(cfg, M) && forall p | p in arrivals :: InRange(cfg, p.Target()) && Typed(cfg, p)
    ensures Ready(cfg, M.(pend := M.pend + arrivals))
    ensures ram ==> Ready(cfg, Enqueue(cfg, M.(pend := M.pend + arrivals)))
  {
    var M3 := M.(pend := M.pend + arrivals);
    var k := Controllers.FirstWithRoom(cfg, M3.q, M3.pend, 0);
    if k < |M3.pend| {
      assert M3.pend[k] in M3.pend;
      PairFits(cfg, M3.banks, M3.q, M3.pend[k]);
    }
    hide Fits;
  }

  lemma DrainReady(cfg: Config, M: Machine)
    requires Ready(cfg, M)
    ensures Ready(cfg, Drain(cfg, M))
  {
    hide Homed, Drain;
  }

  lemma ReadyAnyTime(cfg: Config, M: Machine, now: nat)
    requires Ready(cfg, M)
    ensures Ready(cfg, M.(now := now))
  {
    hide Fits;
  }

  /** After every tick the next one is possible. */
  lemma TickReady(cfg: Config, M: Machine, ram: bool, ask: Option<nat>, arrivals: seq<Packet>)
    requires Ready(cfg, M) && RankExists(cfg, ask) && Admissible(cfg, arrivals)
    ensures Ready(cfg, Tick(cfg, M, ram, ask, arrivals))
  {
    hide RamCycle, Drain, Enqueue, Fits, AtHome;
    RamCycleReady(cfg, M, ask);
    var M1 := if ram then RamCycle(cfg, M, ask) else M;
    DrainReady(cfg, M1);
    var M2 := Drain(cfg, M1);
    EndReady(cfg, M2, ram, arrivals);
    var M3 := M2.(pend := M2.pend + arrivals);
    var M4 := if ram then Enqueue(cfg, M3) else M3;
    ReadyAnyTime(cfg, M4, M4.now + 1);
    hide Ready;
  }

  lemma RamSimulates(cfg: Config, M: Machine, S: Sys, ask: Option<nat>) returns (S': Sys)
    requires cfg.Valid() && !M.stopped && Simulates(cfg, M, S) && !S.late
    requires Ready(cfg, M) && RankExists(cfg, ask)
    ensures Fits(cfg, M.banks, Asked(M.q, ask)) && Simulates(cfg, RamCycle(cfg, M, ask), S')
  {
    hide Fits, Simulates, Pop;
    AskedFits(cfg, M.banks, M.q, ask);
    var S1 := AskSimulates(cfg, M, S, ask);
    S' := PopSimulates(cfg, M.(q := Asked(M.q, ask)), S1);
    assert RamCycle(cfg, M.(q := Asked(M.q, ask)), None) == RamCycle(cfg, M, ask);
  }

  lemma EndSimulates(cfg: Config, M: Machine, S: Sys, ram: bool, arrivals: seq<Packet>) returns (S': Sys)
    requires cfg.Valid() && !M.stopped && Simulates(cfg, M, S) && FirstDue(M.agenda, M.now) == |M.agenda|
    requires Ready(cfg, M) && forall p | p in arrivals :: InRange(cfg, p.Target()) && Typed(cfg, p)
    ensures var M3 := M.(pend := M.pend + arrivals);
            var M4 := if ram then Enqueue(cfg, M3) else M3;
            Simulates(cfg, M4.(now := M4.now + 1), S') && !S'.late
  {
    hide Reachable, Same, InStep, Fits;
    var M3 := M.(pend := M.pend + arrivals);
    EndReady(cfg, M, ram, arrivals);
    SameAnyPend(cfg, M, S, M3.pend);
    var S1 := S;
    if ram {
      S1 := EnqueueSimulates(cfg, M3, S);
    }
    S' := ClockSimulates(cfg, if ram then Enqueue(cfg, M3) else M3, S1);
  }

  lemma SameAnyPend(cfg: Config, M: Machine, S: Sys, pend: seq<Packet>)
    requires Simulates(cfg, M, S)
    ensures Simulates(cfg, M.(pend := pend), S)
  {
  }

  lemma TickSimulates(cfg: Config, M: Machine, S: Sys, ram: bool, ask: Option<nat>, arrivals: seq<Packet>)
    returns (S': Sys)
    requires cfg.Valid() && Ready(cfg, M) && RankExists(cfg, ask) && Admissible(cfg, arrivals)
    requires Simulates(cfg, M, S) && (M.stopped || !S.late)
    ensures var M' := Tick(cfg, M, ram, ask, arrivals); Simulates(cfg, M', S') && (M'.stopped || !S'.late)
  {
    hide RamCycle, Drain, Enqueue, Fits, Simulates;
    S' := S;
    if !M.stopped {
      RamCycleReady(cfg, M, ask);
      var M1, S1 := M, S;
      if ram {
        M1 := RamCycle(cfg, M, ask);
        S1 := RamSimulates(cfg, M, S, ask);
      }
      S' := DrainSimulates(cfg, M1, S1);
      DrainReady(cfg, M1);
      if !Drain(cfg, M1).stopped {
        S' := EndSimulates(cfg, Drain(cfg, M1), S', ram, arrivals);
      }
    }
  }

  lemma StartSimulates(cfg: Config)
    requires cfg.Valid()
    ensures Ready(cfg, Start(cfg)) && Simulates(cfg, Start(cfg), Init(cfg))
  {
    ReachInit(cfg);
    CommandQueues.InitialFits(cfg, Start(cfg).banks);
  }

  lemma StepSimulates(cfg: Config, clocks: Clocks, M: Machine, M': Machine, S: Sys) returns (S': Sys)
    requires cfg.Valid() && Ticks(cfg, clocks, M, M') && Simulates(cfg, M, S) && (M.stopped || !S.late)
    ensures Ready(cfg, M') && Simulates(cfg, M', S') && (M'.stopped || !S'.late)
  {
    var ram, ask := RamTicks(clocks, M.now), AskAt(cfg, clocks, M.now);
    var arrivals :| Ready(cfg, M) && Admissible(cfg, arrivals) && M' == Tick(cfg, M, ram, ask, arrivals);
    hide Simulates, Ready, Admissible, Tick;
    S' := TickSimulates(cfg, M, S, ram, ask, arrivals);
    TickReady(cfg, M, ram, ask, arrivals);
  }

  /** To every run of the program there is a run of the transition system that ends in the same state. */
  lemma {:induction false} ProgramRunIsRun(cfg: Config, clocks: Clocks, run: seq<Machine>) returns (S: Sys)
    requires cfg.Valid() && IsProgramRun(cfg, clocks, run)
    ensures Ready(cfg, Final(run)) && Simulates(cfg, Final(run), S) && (Final(run).stopped || !S.late)
  {
    hide Ticks, Simulates, Ready;
    if |run| == 1 {
      StartSimulates(cfg);
      S := Init(cfg);
    } else {
      var n := |run| - 2;
      var pre := run[..n+1];
      forall k | 0 <= k < |pre| - 1
        ensures TickAt(cfg, clocks, pre, k)
      {
        assert TickAt(cfg, clocks, run, k);
      }
      S := ProgramRunIsRun(cfg, clocks, pre);
      assert TickAt(cfg, clocks, run, n);
      S := StepSimulates(cfg, clocks, run[n], run[n+1], S);
    }
  }

  /**
   Whatever the clocks and the refresh period, no rank refuses a command if refreshes outlast the second notes of
   closing banks.
   */
  lemma ProgramNeverStops(cfg: Config, clocks: Clocks, run: seq<Machine>)
    requires cfg.Valid() && RefreshOutlastsPrecharge(cfg) && IsProgramRun(cfg, clocks, run)
    ensures !Final(run).stopped
  {
    hide IsProgramRun;
    var S := ProgramRunIsRun(cfg, clocks, run);
    var run' :| IsRun(cfg, run') && Last(run') == S;
    DramSafety.RankNeverRefuses(cfg, run');
  }
}

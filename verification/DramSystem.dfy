/** The memory controller, its command queue, the ranks and the events between them as one transition system. */
module DramSystem {
  // A list of actions is a run; an action that is not enabled changes nothing, so every list is a run. Within a tick
  // pop comes before the events, and these may be handled in any order, but never late: time does not pass a pending
  // event. The program's own tick, module ProgramTicks, is one way through these actions.

  import opened DramTypes
  import opened CommandQueueSpec
  import opened BankRules
  import CommandQueues

  /** A command on its way to its rank. */
  datatype Flit = Flit(p: Packet, at: int)

  /** A state-update note and the tick at which the event queue delivers it. */
  datatype Due = Due(u: Update, due: int)

  datatype Sys = Sys(
    now: int,
    q: QState,
    banks: BankTable,
    ranks: BankTable,
    wire: seq<Flit>,
    pending: multiset<Due>,
    owed: map<Slot, Option<Packet>>,    // history: the ACTIVATE whose column access is still to come
    enqueued: seq<Packet>,              // history: column accesses in the order of entry
    issued: seq<Packet>,                // history: column accesses in the order of issue
    calls: seq<Option<Packet>>,         // history: what each call of pop returned
    late: bool,                         // events of this tick were handled: no pop until the next
    aborted: bool)

  datatype Action =
    | Transaction(b: Packet)
    | RequestRefresh(rank: nat)
    | Cycle
    | DeliverUpdate(d: Due)
    | DeliverCommand
    | Advance(to: int)

  /** The kind of column access that the row-buffer policy produces. */
  predicate Typed(cfg: Config, p: Packet) {
    match cfg.rowBufferPolicy
    case OpenPage => p.kind.READ? || p.kind.WRITE?
    case ClosePage => p.kind.READ_P? || p.kind.WRITE_P?
  }

  function Init(cfg: Config): Sys {
    var all := CommandQueues.AllSlots(cfg);
    Sys(0, CommandQueues.Initial(cfg), map s | s in all :: FRESH_BANK, map s | s in all :: FRESH_BANK,
        [], multiset{}, map s | s in all :: None, [], [], [], false, false)
  }

  ghost predicate Shaped(cfg: Config, S: Sys) {
    Fits(cfg, S.banks, S.q) && Covers(cfg, S.ranks) && Covers(cfg, S.owed)
  }

  ghost predicate Enabled(cfg: Config, S: Sys, a: Action) {
    && Shaped(cfg, S)
    && !S.aborted
    && match a
       case Transaction(b) => InRange(cfg, b.Target()) && Typed(cfg, b) &&
                              QueueKey(cfg, b.Target()) in S.q.queues && HasRoomFor(cfg, S.q, 2, b.Target())
       case RequestRefresh(rank) => rank < cfg.numRanks
       case Cycle => !S.late
       case DeliverUpdate(d) => d in S.pending && d.u.slot in S.banks && d.due <= S.now
       case DeliverCommand => |S.wire| > 0 && S.wire[0].at <= S.now
       case Advance(to) => to > S.now && (forall d | d in S.pending :: d.due >= to) &&
                           (forall i | 0 <= i < |S.wire| :: S.wire[i].at >= to)
  }

  /** When the event queue delivers a note that is posted now. */
  function DueOf(u: Update, now: int): Due {
    Due(u, Max(u.at, now))
  }

  function Post(us: seq<Update>, now: int): multiset<Due> {
    if us == [] then multiset{} else multiset{DueOf(us[0], now)} + Post(us[1..], now)
  }

  function OwedAfter(owed: map<Slot, Option<Packet>>, p: Packet): map<Slot, Option<Packet>>
    requires p.Target() in owed
  {
    if p.kind.ACTIVATE? then owed[p.Target() := Some(p)]
    else if p.IsColumn() && owed[p.Target()] == Some(p.Act()) then owed[p.Target() := None]
    else owed
  }

  /** The controller's part of a tick after pop returned a command. */
  function IssueStep(cfg: Config, S: Sys, p: Packet): Sys
    requires p.Target() in S.owed
  {
    S.(banks := Issue(cfg, S.banks, p, S.now),
       wire := S.wire + [Flit(p, S.now + cfg.tCMD)],
       pending := S.pending + Post(IssueUpdates(cfg, p, S.now), S.now),
       owed := OwedAfter(S.owed, p),
       issued := if p.IsColumn() then S.issued + [p] else S.issued)
  }

  lemma PopInRange(cfg: Config, banks: BankTable, s: QState, now: int)
    requires Fits(cfg, banks, s)
    ensures Pop(cfg, banks, s, now).0.Some? ==> InRange(cfg, Pop(cfg, banks, s, now).0.value.Target())
  {
    var s1 := TickWindows(s);
    ChooseApplicable(ViewOf(cfg, banks, s1, now), s1);
  }

  function CycleStep(cfg: Config, S: Sys): Sys
    requires Shaped(cfg, S)
  {
    var (r, q') := Pop(cfg, S.banks, S.q, S.now);
    PopInRange(cfg, S.banks, S.q, S.now);
    var S1 := S.(q := q', calls := S.calls + [r]);
    if r.Some? then IssueStep(cfg, S1, r.value) else S1
  }

  ghost function Do(cfg: Config, S: Sys, a: Action): Sys {
    if !Enabled(cfg, S, a) then S
    else match a
      case Transaction(b) => S.(q := EnqueuePair(cfg, S.q, b), enqueued := S.enqueued + [b])
      case RequestRefresh(rank) => S.(q := S.q.(refreshWaiting := true, refreshRank := rank))
      case Cycle => CycleStep(cfg, S)
      case DeliverUpdate(d) =>
        S.(banks := Updated(S.banks, d.u), late := true,
           pending := S.pending - multiset{d} + Post(FollowUps(cfg, S.banks, d.u), S.now))
      case DeliverCommand =>
        var f := S.wire[0];
        if Accepts(S.ranks, f.p, S.now)
        then S.(wire := S.wire[1..], ranks := Arrive(cfg, S.ranks, f.p, S.now), late := true)
        else S.(aborted := true)
      case Advance(to) => S.(now := to, late := false)
  }

  ghost predicate Step(cfg: Config, S: Sys, a: Action, S': Sys) {
    S' == Do(cfg, S, a)
  }

  ghost predicate Next(cfg: Config, S: Sys, S': Sys) {
    exists a :: Step(cfg, S, a, S')
  }

  ghost predicate StepAt(cfg: Config, run: seq<Sys>, i: nat)
    requires i + 1 < |run|
  {
    Next(cfg, run[i], run[i+1])
  }

  /** The states that the system passes through, from the start. */
  ghost predicate IsRun(cfg: Config, run: seq<Sys>) {
    && |run| > 0
    && run[0] == Init(cfg)
    && forall i | 0 <= i < |run| - 1 :: StepAt(cfg, run, i)
  }

  function Last(run: seq<Sys>): Sys
    requires |run| > 0
  {
    run[|run|-1]
  }

  /** The first n + 1 states of a run are a run; the next state follows by some action. */
  lemma RunPrefix(cfg: Config, run: seq<Sys>, n: nat)
    requires IsRun(cfg, run) && n + 1 < |run|
    ensures IsRun(cfg, run[..n+1]) && Last(run[..n+1]) == run[n] && StepAt(cfg, run, n)
  {
    var pre := run[..n+1];
    forall i | 0 <= i < |pre| - 1
      ensures StepAt(cfg, pre, i)
    {
      assert StepAt(cfg, run, i);
      assert pre[i] == run[i] && pre[i+1] == run[i+1];
    }
    assert StepAt(cfg, run, n);
  }

  /** Some run ends in this state. */
  ghost predicate Reachable(cfg: Config, S: Sys) {
    exists run :: IsRun(cfg, run) && Last(run) == S
  }

  lemma ReachInit(cfg: Config)
    ensures Reachable(cfg, Init(cfg))
  {
    assert IsRun(cfg, [Init(cfg)]) && Last([Init(cfg)]) == Init(cfg);
  }

  lemma ReachStep(cfg: Config, S: Sys, a: Action)
    requires Reachable(cfg, S)
    ensures Reachable(cfg, Do(cfg, S, a))
  {
    hide Do;
    var run :| IsRun(cfg, run) && Last(run) == S;
    var run' := run + [Do(cfg, S, a)];
    assert Step(cfg, S, a, Do(cfg, S, a));
    forall i | 0 <= i < |run'| - 1
      ensures StepAt(cfg, run', i)
    {
      if i < |run| - 1 {
        assert StepAt(cfg, run, i);
        assert run'[i] == run[i] && run'[i+1] == run[i+1];
      } else {
        assert run'[i] == S && run'[i+1] == Do(cfg, S, a);
      }
    }
    assert Last(run') == Do(cfg, S, a);
  }
}

/** The memory controller: issues at most one command per RAM tick and keeps its own table of bank states. */
module Controllers {
  import opened DramTypes
  import opened CommandQueueSpec
  import opened BankRules
  import opened CommandQueues
  import DramSystem
  import RefreshRotation

  /** What the controller puts into the event queue. */
  datatype Posted =
    | Note(u: Update)
    | ToRank(p: Packet, at: int)

  /** The notes first, the command to the rank last. */
  function IssuePosts(cfg: Config, p: Packet, now: int): seq<Posted> {
    Notes(IssueUpdates(cfg, p, now)) + [ToRank(p, now + cfg.tCMD)]
  }

  function Notes(us: seq<Update>): seq<Posted> {
    seq(|us|, i requires 0 <= i < |us| => Note(us[i]))
  }

  /** The first pending transaction whose queue has room for a pair; the length if there is none. */
  function FirstWithRoom(cfg: Config, s: QState, pend: seq<Packet>, i: nat): (k: nat)
    requires i <= |pend| && forall j | 0 <= j < |pend| :: QueueKey(cfg, pend[j].Target()) in s.queues
    ensures i <= k <= |pend|
    ensures k < |pend| ==> CommandQueueSpec.HasRoomFor(cfg, s, 2, pend[k].Target())
    ensures forall j | i <= j < k :: !CommandQueueSpec.HasRoomFor(cfg, s, 2, pend[j].Target())
    decreases |pend| - i
  {
    if i == |pend| || CommandQueueSpec.HasRoomFor(cfg, s, 2, pend[i].Target()) then i
    else FirstWithRoom(cfg, s, pend, i + 1)
  }

  /** The queue state after the refresh counters had their say. */
  function Asked(s: QState, rot: RefreshRotation.Rotation): QState
    requires rot.cursor < |rot.count|
  {
    if RefreshRotation.Requests(rot) then s.(refreshWaiting := true, refreshRank := rot.cursor) else s
  }

  class Controller {
    const cfg: Config
    const period: int
    const table: Banks
    const commandQueue: CommandQueue
    var refreshCount: seq<int>
    var refreshRank: nat
    var pendingTransQueue: seq<Packet>
    var posted: seq<Posted>

    ghost predicate Valid()
      reads this, table, commandQueue
    {
      && commandQueue.cfg == cfg && commandQueue.table == table
      && commandQueue.Valid()
      && |refreshCount| == cfg.numRanks && refreshRank < cfg.numRanks
      && (forall i | 0 <= i < |pendingTransQueue| :: InRange(cfg, pendingTransQueue[i].Target()))
    }

    ghost function Rotation(): RefreshRotation.Rotation
      reads this
    {
      RefreshRotation.Rotation(refreshCount, refreshRank)
    }

    /** refreshTicks is the refresh period divided by the clock period, a real number. */
    constructor (cfg: Config, refreshTicks: real)
      requires cfg.Valid()
      ensures this.cfg == cfg && period == RefreshRotation.Period(refreshTicks)
      ensures Valid() && commandQueue.State() == Initial(cfg)
      ensures forall t | t in table.state :: table.state[t] == FRESH_BANK
      ensures Rotation() == RefreshRotation.Start(refreshTicks, cfg.numRanks)
      ensures posted == [] && pendingTransQueue == []
    {
      this.cfg, this.period := cfg, refreshTicks.Floor;
      var banks := new Banks(cfg);
      table := banks;
      commandQueue := new CommandQueue(cfg, banks);
      refreshRank := 0;
      pendingTransQueue, posted := [], [];
      refreshCount := [];
      new;
      InitialCounts(refreshTicks);
    }

    method InitialCounts(refreshTicks: real)
      requires cfg.numRanks >= 1
      modifies this`refreshCount
      ensures refreshCount == RefreshRotation.Start(refreshTicks, cfg.numRanks).count
    {
      refreshCount := [];
      ghost var all := RefreshRotation.Start(refreshTicks, cfg.numRanks).count;
      for i := 0 to cfg.numRanks
        invariant refreshCount == all[..i]
      {
        assert all[..i+1] == all[..i] + [all[i]];
        assert all[i] == RefreshRotation.Share(refreshTicks, cfg.numRanks) * (i + 1);
        refreshCount := refreshCount + [(refreshTicks / cfg.numRanks as real).Floor * (i + 1)];
      }
    }

    /** Timing of the other banks after a read or a write. */
    method SpreadColumn(p: Packet, now: int)
      requires Covers(cfg, table.state)
      modifies table
      ensures table.state ==
        map s | s in old(table.state) ::
          if p.kind.READ? || p.kind.READ_P? then AfterRead(cfg, p, now, s, old(table.state)[s])
          else AfterWrite(cfg, p, now, s, old(table.state)[s])
    {
      ghost var was := table.state;
      var reading := p.kind.READ? || p.kind.READ_P?;
      for i := 0 to cfg.numRanks
        invariant table.state.Keys == was.Keys
        invariant forall s | s in was && s.rank < i ::
          table.state[s] == if reading then AfterRead(cfg, p, now, s, was[s]) else AfterWrite(cfg, p, now, s, was[s])
        invariant forall s | s in was && s.rank >= i :: table.state[s] == was[s]
      {
        for j := 0 to cfg.numBanks
          invariant table.state.Keys == was.Keys
          invariant forall s | s in was && (s.rank < i || (s.rank == i && s.bank < j)) ::
            table.state[s] == if reading then AfterRead(cfg, p, now, s, was[s]) else AfterWrite(cfg, p, now, s, was[s])
          invariant forall s | s in was && (s.rank > i || (s.rank == i && s.bank >= j)) :: table.state[s] == was[s]
        {
          var x := Slot(i, j);
          var bs := table.state[x];
          if reading {
            if i != p.rank {
              if bs.status == ROW_ACTIVE {
                bs := bs.(nextRead := Max(now + cfg.tBL / 2 + cfg.tRTRS, bs.nextRead),
                          nextWrite := Max(now + cfg.readToWriteDelay, bs.nextWrite));
              }
            } else {
              bs := bs.(nextRead := Max(now + Max(cfg.tCCD, cfg.tBL / 2), bs.nextRead),
                        nextWrite := Max(now + cfg.readToWriteDelay, bs.nextWrite));
            }
          } else {
            if i != p.rank {
              if bs.status == ROW_ACTIVE {
                bs := bs.(nextWrite := Max(now + cfg.tBL / 2 + cfg.tRTRS, bs.nextWrite),
                          nextRead := Max(now + cfg.writeToReadDelayR, bs.nextRead));
              }
            } else {
              bs := bs.(nextWrite := Max(now + Max(cfg.tBL / 2, cfg.tCCD), bs.nextWrite),
                        nextRead := Max(now + cfg.writeToReadDelayB, bs.nextRead));
            }
          }
          table.state := table.state[x := bs];
        }
      }
    }

    /** A read or a write was popped. */
    method IssueColumn(p: Packet, now: int)
      requires Covers(cfg, table.state) && InRange(cfg, p.Target()) && p.IsColumn()
      modifies table
      ensures table.state == Issue(cfg, old(table.state), p, now)
    {
      var x := p.Target();
      var bs := table.state[x];
      match p.kind {
        case READ_P =>
          bs := bs.(nextActivate := Max(now + cfg.readAutopreDelay, bs.nextActivate), lastCommand := READ_P);
        case READ =>
          bs := bs.(nextPrecharge := Max(now + cfg.readToPreDelay, bs.nextPrecharge), lastCommand := READ);
        case WRITE_P =>
          bs := bs.(nextActivate := Max(now + cfg.writeAutopreDelay, bs.nextActivate), lastCommand := WRITE_P);
        case WRITE =>
          bs := bs.(nextPrecharge := Max(now + cfg.writeToPreDelay, bs.nextPrecharge), lastCommand := WRITE);
      }
      table.state := table.state[x := bs];
      SpreadColumn(p, now);
      if p.kind.READ_P? || p.kind.WRITE_P? {
        bs := table.state[x];
        table.state := table.state[x := bs.(nextRead := bs.nextActivate, nextWrite := bs.nextActivate)];
      }
    }

    method IssueActivate(p: Packet, now: int)
      requires Covers(cfg, table.state) && InRange(cfg, p.Target()) && p.kind.ACTIVATE?
      modifies table
      ensures table.state == Issue(cfg, old(table.state), p, now)
    {
      var x := p.Target();
      var bs := table.state[x];
      table.state := table.state[x := bs.(status := ROW_ACTIVE, lastCommand := ACTIVATE, openRow := p.row,
        nextActivate := Max(now + cfg.tRC, bs.nextActivate),
        nextPrecharge := Max(now + cfg.tRAS, bs.nextPrecharge),
        nextRead := Max(now + (cfg.tRCD - cfg.tAL), bs.nextRead),
        nextWrite := Max(now + (cfg.tRCD - cfg.tAL), bs.nextWrite))];
      ghost var was := table.state;
      for i := 0 to cfg.numBanks
        invariant table.state.Keys == was.Keys
        invariant forall s | s in was ::
          table.state[s] == if s.rank == p.rank && s.bank < i && s.bank != p.bank
                            then was[s].(nextActivate := Max(now + cfg.tRRD, was[s].nextActivate)) else was[s]
      {
        if i != p.bank {
          var y := Slot(p.rank, i);
          var other := table.state[y];
          table.state := table.state[y := other.(nextActivate := Max(now + cfg.tRRD, other.nextActivate))];
        }
      }
    }

    method IssueRefresh(p: Packet, now: int)
      requires Covers(cfg, table.state) && InRange(cfg, p.Target()) && p.kind.REFRESH?
      modifies table
      ensures table.state == Issue(cfg, old(table.state), p, now)
    {
      ghost var was := table.state;
      for i := 0 to cfg.numBanks
        invariant table.state.Keys == was.Keys
        invariant forall s | s in was ::
          table.state[s] == if s.rank == p.rank && s.bank < i
                            then was[s].(nextActivate := now + cfg.tRFC, status := REFRESHING, lastCommand := REFRESH)
                            else was[s]
      {
        var y := Slot(p.rank, i);
        table.state := table.state[y :=
          table.state[y].(nextActivate := now + cfg.tRFC, status := REFRESHING, lastCommand := REFRESH)];
      }
    }

    /** The state update according to the popped packet, and the events it causes. */
    method IssueCommand(p: Packet, now: int)
      requires Covers(cfg, table.state) && InRange(cfg, p.Target()) && !p.kind.DATA?
      modifies table, this`posted
      ensures table.state == Issue(cfg, old(table.state), p, now)
      ensures posted == old(posted) + IssuePosts(cfg, p, now)
    {
      var x := p.Target();
      match p.kind {
        case READ | WRITE =>
          IssueColumn(p, now);
        case READ_P =>
          IssueColumn(p, now);
          posted := posted + [Note(Update(x, now + cfg.readToPreDelay))];
        case WRITE_P =>
          IssueColumn(p, now);
          posted := posted + [Note(Update(x, now + cfg.writeToPreDelay))];
        case ACTIVATE =>
          IssueActivate(p, now);
        case PRECHARGE =>
          var bs := table.state[x];
          table.state := table.state[x := bs.(status := PRECHARGING, lastCommand := PRECHARGE,
                                              nextActivate := Max(now + cfg.tRP, bs.nextActivate))];
          posted := posted + [Note(Update(x, now + cfg.tRP - 1))];
        case REFRESH =>
          IssueRefresh(p, now);
          posted := posted + [Note(Update(x, now + cfg.tRFC - 1))];
      }
      posted := posted + [ToRank(p, now + cfg.tCMD)];
    }

    /** Asks for a refresh if the counter under the cursor has run out. */
    method RequestRefresh()
      requires Valid()
      modifies this`refreshCount, this`refreshRank, commandQueue`refreshWaiting, commandQueue`refreshRank
      ensures Valid()
      ensures commandQueue.State() == Asked(old(commandQueue.State()), old(Rotation()))
      ensures Rotation() == RefreshRotation.Ask(period, old(Rotation()))
    {
      if refreshCount[refreshRank] == 0 {
        commandQueue.NeedRefresh(refreshRank);
        refreshCount := refreshCount[refreshRank := period];
        refreshRank := refreshRank + 1;
        if refreshRank == cfg.numRanks {
          refreshRank := 0;
        }
      }
    }

    method CountDown()
      requires |refreshCount| == cfg.numRanks
      modifies this`refreshCount
      ensures refreshCount == RefreshRotation.CountedDown(old(refreshCount))
    {
      ghost var was := refreshCount;
      for i := 0 to cfg.numRanks
        invariant |refreshCount| == cfg.numRanks
        invariant forall j | 0 <= j < cfg.numRanks :: refreshCount[j] == if j < i then was[j] - 1 else was[j]
      {
        refreshCount := refreshCount[i := refreshCount[i] - 1];
      }
    }

    /** One RAM tick: perhaps a refresh request, perhaps a command, then the refresh counters count down. */
    method OneCycleOperation(now: int) returns (b: Option<Packet>)
      requires Valid()
      modifies this`refreshCount, this`refreshRank, this`posted, table, commandQueue
      ensures Valid()
      ensures Rotation() == RefreshRotation.Tick(period, old(Rotation()))
      ensures Fits(cfg, old(table.state), Asked(old(commandQueue.State()), old(Rotation())))
      ensures (b, commandQueue.State()) ==
              CommandQueueSpec.Pop(cfg, old(table.state), Asked(old(commandQueue.State()), old(Rotation())), now)
      ensures b.None? ==> table.state == old(table.state) && posted == old(posted)
      ensures b.Some? ==> table.state == Issue(cfg, old(table.state), b.value, now) &&
                          posted == old(posted) + IssuePosts(cfg, b.value, now)
    {
      hide Fits, Pop, Issue, IssuePosts;
      RequestRefresh();
      b := PopAndIssue(now);
      CountDown();
    }

    /** Pops a command and, if there is one, issues it. */
    method PopAndIssue(now: int) returns (b: Option<Packet>)
      requires Valid()
      modifies this`posted, table, commandQueue
      ensures Valid()
      ensures (b, commandQueue.State()) == CommandQueueSpec.Pop(cfg, old(table.state), old(commandQueue.State()), now)
      ensures b.None? ==> table.state == old(table.state) && posted == old(posted)
      ensures b.Some? ==> table.state == Issue(cfg, old(table.state), b.value, now) &&
                          posted == old(posted) + IssuePosts(cfg, b.value, now)
    {
      PoppedShape(cfg, table.state, commandQueue.State(), now);
      b := commandQueue.Pop(now);
      if b != None {
        IssueCommand(b.value, now);
        RefitTable(cfg, commandQueue.State(), old(table.state), table.state);
      }
    }

    /** A state-update event arrives: the implicit end of a precharge, an auto-precharge or a refresh. */
    method HandleStateUpdate(u: Update)
      requires Valid() && InRange(cfg, u.slot)
      modifies table, this`posted
      ensures Valid()
      ensures table.state == Updated(old(table.state), u)
      ensures posted == old(posted) + Notes(FollowUps(cfg, old(table.state), u))
    {
      ghost var was := table.state;
      var bank := table.state[u.slot];
      assert Notes([]) == [] && posted + [] == posted;
      assert Notes([Update(u.slot, u.at + cfg.tRP - 1)]) == [Note(Update(u.slot, u.at + cfg.tRP - 1))];
      match bank.lastCommand {
        case READ_P | WRITE_P =>
          table.state := table.state[u.slot := bank.(status := PRECHARGING, lastCommand := PRECHARGE)];
          posted := posted + [Note(Update(u.slot, u.at + cfg.tRP - 1))];
        case REFRESH =>
          for i := 0 to cfg.numBanks
            invariant table.state.Keys == was.Keys && posted == old(posted)
            invariant forall s | s in was ::
              table.state[s] == if s.rank == u.slot.rank && s.bank < i then was[s].(status := IDLE) else was[s]
          {
            var y := Slot(u.slot.rank, i);
            table.state := table.state[y := table.state[y].(status := IDLE)];
          }
        case PRECHARGE =>
          table.state := table.state[u.slot := bank.(status := IDLE)];
        case _ =>
      }
      RefitTable(cfg, commandQueue.State(), was, table.state);
    }

    /** Moves one pending transaction into its command queue, if any queue has room. */
    method EnqueueToCommandQ()
      requires Valid()
      modifies this`pendingTransQueue, commandQueue
      ensures Valid()
      ensures var pend, s := old(pendingTransQueue), old(commandQueue.State());
              && (forall j | 0 <= j < |pend| :: QueueKey(cfg, pend[j].Target()) in s.queues)
              && var k := FirstWithRoom(cfg, s, pend, 0);
                 if k == |pend| then pendingTransQueue == pend && commandQueue.State() == s
                 else pendingTransQueue == pend[1..] && commandQueue.State() == EnqueuePair(cfg, s, pend[k])
    {
      ghost var s := commandQueue.State();
      PendingHaveQueues(cfg, table.state, s, pendingTransQueue);
      var i := 0;
      while i < |pendingTransQueue|
        invariant i <= |pendingTransQueue| && Valid() && commandQueue.State() == s
        invariant pendingTransQueue == old(pendingTransQueue)
        invariant FirstWithRoom(cfg, s, pendingTransQueue, 0) == FirstWithRoom(cfg, s, pendingTransQueue, i)
      {
        var b := pendingTransQueue[i];
        var room := commandQueue.HasRoomFor(2, b.rank, b.bank);
        if room {
          assert b.Act().Target() == b.Target();
          var ok1 := commandQueue.Enqueue(b.Act());
          var ok2 := commandQueue.Enqueue(b);
          assert ok1 && ok2;
          PairInTwoSteps(cfg, s, b);
          pendingTransQueue := pendingTransQueue[1..];
          return;
        }
        i := i + 1;
      }
    }
  }

  lemma PendingHaveQueues(cfg: Config, banks: BankTable, s: QState, pend: seq<Packet>)
    requires Fits(cfg, banks, s) && forall i | 0 <= i < |pend| :: InRange(cfg, pend[i].Target())
    ensures forall i | 0 <= i < |pend| :: QueueKey(cfg, pend[i].Target()) in s.queues
  {
    hide Homed;
  }

  lemma PairInTwoSteps(cfg: Config, s: QState, b: Packet)
    requires QueueKey(cfg, b.Target()) in s.queues
    ensures var k := QueueKey(cfg, b.Target());
            var once := s.queues[k := s.queues[k] + [b.Act()]];
            once[k := once[k] + [b]] == EnqueuePair(cfg, s, b).queues
  {
    var q := s.queues[QueueKey(cfg, b.Target())];
    assert q + [b.Act()] + [b] == q + [b.Act(), b];
  }

  /** What pop returns is never data and is addressed to a real bank. */
  lemma PoppedShape(cfg: Config, banks: BankTable, s: QState, now: int)
    requires Fits(cfg, banks, s)
    ensures match Pop(cfg, banks, s, now).0
            case Some(p) => InRange(cfg, p.Target()) && !p.kind.DATA?
            case None => true
  {
    var s1 := TickWindows(s);
    var v := ViewOf(cfg, banks, s1, now);
    ChooseApplicable(v, s1);
  }

  /**
   One call of OneCycleOperation is a step of the whole system, or two if a refresh is requested: the queue, the bank
   table, the command on its way to the rank and the note are exactly those of the actions RequestRefresh and Cycle.
   */
  lemma OneCycleIsSteps(cfg: Config, S: DramSystem.Sys, rot: RefreshRotation.Rotation)
    requires DramSystem.Shaped(cfg, S) && !S.aborted && !S.late
    requires |rot.count| == cfg.numRanks && rot.cursor < cfg.numRanks
    ensures Fits(cfg, S.banks, Asked(S.q, rot))
    ensures var ask := DramSystem.RequestRefresh(rot.cursor);
            var S1 := if RefreshRotation.Requests(rot) then DramSystem.Do(cfg, S, ask) else S;
            var S2 := DramSystem.Do(cfg, S1, DramSystem.Cycle);
            var (b, q) := Pop(cfg, S.banks, Asked(S.q, rot), S.now);
            && S2.q == q && S2.ranks == S.ranks && !S2.aborted
            && match b
               case None => S2.banks == S.banks && S2.wire == S.wire && S2.pending == S.pending
               case Some(p) =>
                 && S2.banks == Issue(cfg, S.banks, p, S.now)
                 && S2.wire == S.wire + [DramSystem.Flit(p, S.now + cfg.tCMD)]
                 && S2.pending == S.pending + DramSystem.Post(IssueUpdates(cfg, p, S.now), S.now)
  {
    hide Homed, Pop, Issue, IssueUpdates, DramSystem.Post;
    var S1 := if RefreshRotation.Requests(rot) then DramSystem.Do(cfg, S, DramSystem.RequestRefresh(rot.cursor)) else S;
    assert S1 == S.(q := Asked(S.q, rot));
    var (b, q) := Pop(cfg, S1.banks, S1.q, S1.now);
    var S2 := DramSystem.CycleStep(cfg, S1);
    assert S2.q == q;
    assert DramSystem.Do(cfg, S1, DramSystem.Cycle) == S2;
  }

  lemma RefitTable(cfg: Config, s: QState, banks: BankTable, banks': BankTable)
    requires Fits(cfg, banks, s) && banks'.Keys == banks.Keys
    ensures Fits(cfg, banks', s)
  {
  }

  /**
   The move neither loses nor doubles a pending transaction if and only if the queue of the first pending transaction
   has room: otherwise another one enters, and the first is removed.
   */
  lemma MoveConservesIffHead(cfg: Config, s: QState, pend: seq<Packet>)
    requires forall j | 0 <= j < |pend| :: QueueKey(cfg, pend[j].Target()) in s.queues
    requires FirstWithRoom(cfg, s, pend, 0) < |pend|
    ensures multiset(pend) == multiset(pend[1..]) + multiset{pend[FirstWithRoom(cfg, s, pend, 0)]} <==>
            CommandQueueSpec.HasRoomFor(cfg, s, 2, pend[0].Target())
  {
    var k := FirstWithRoom(cfg, s, pend, 0);
    assert pend == [pend[0]] + pend[1..];
    if multiset(pend) == multiset(pend[1..]) + multiset{pend[k]} {
      assert multiset(pend)[pend[0]] == multiset(pend[1..])[pend[0]] + 1;
    }
  }
}

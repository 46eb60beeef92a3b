module NotesOwed {
  // Whenever the controller waits for a bank to close or to be refreshed, a note that ends the wait is on its way.
  // Whatever the delays: this does not rest on the condition under which no rank refuses a command.

  import opened DramTypes
  import opened CommandQueueSpec
  import opened BankRules
  import opened DramSystem
  import opened SchedulerSafety
  import opened IssueLog
  import opened PendingNotes
  import Conservation

  /** What the controller waits for: Closing until an access has closed its own bank, which then is precharging. */
  datatype Phase = Steady | Closing | Precharging | Refreshing

  function PhaseOf(bs: BankState): Phase {
    if AutoPrecharging(bs) then Closing
    else if bs.status.PRECHARGING? then Precharging
    else if bs.status.REFRESHING? then Refreshing
    else Steady
  }

  /** How long the phase may last. */
  function Length(cfg: Config, bs: BankState): int {
    match PhaseOf(bs)
    case Closing => if bs.lastCommand.READ_P? then cfg.readToPreDelay else cfg.writeToPreDelay
    case Precharging => Max(cfg.tRP - 1, 0)
    case Refreshing => cfg.tRFC - 1
    case Steady => 0
  }

  /** A command that starts a phase of bank t. */
  predicate Restarts(p: Packet, t: Slot) {
    if p.kind.REFRESH? then p.rank == t.rank
    else p.Target() == t && (p.kind.READ_P? || p.kind.WRITE_P? || p.kind.PRECHARGE?)
  }

  predicate Starts(S: Sys, S': Sys, t: Slot)
    requires t in S.banks && t in S'.banks
  {
    || PhaseOf(S.banks[t]) != PhaseOf(S'.banks[t])
    || match IssuedBetween(S, S')
       case None => false
       case Some(p) => Restarts(p, t)
  }

  /** When the present phase of bank t began. */
  function Since(run: seq<Sys>, t: Slot): int
    requires |run| > 0 && forall i | 0 <= i < |run| :: t in run[i].banks
  {
    var n := |run| - 1;
    if n == 0 then run[0].now
    else if Starts(run[n-1], run[n], t) then run[n-1].now
    else Since(run[..n], t)
  }

  // ---------------------------------------------------------------- the invariant

  /** A note for the bank is due at this time. */
  ghost predicate Noted(pending: multiset<Due>, t: Slot, end: int) {
    exists d :: d in pending && d.u.slot == t && d.due == end
  }

  function FirstBank(t: Slot): Slot {
    Slot(t.rank, 0)
  }

  /** The note of a refresh is about the rank's first bank, which cannot be activated before. */
  ghost predicate RefreshNoted(banks: BankTable, pending: multiset<Due>, t: Slot, end: int) {
    && FirstBank(t) in banks && banks[FirstBank(t)].lastCommand.REFRESH?
    && exists d :: d in pending && d.u.slot == FirstBank(t) && d.due == end && d.due < banks[FirstBank(t)].nextActivate
  }

  ghost predicate Awaited(cfg: Config, banks: BankTable, pending: multiset<Due>, t: Slot, since: int) {
    && t in banks
    && match PhaseOf(banks[t])
       case Steady => true
       case Refreshing => RefreshNoted(banks, pending, t, since + Length(cfg, banks[t]))
       case _ => Noted(pending, t, since + Length(cfg, banks[t]))
  }

  predicate StatusOK(bs: BankState) {
    && (bs.lastCommand.PRECHARGE? || bs.lastCommand.REFRESH? ==> !bs.status.ROW_ACTIVE?)
    && (bs.status.PRECHARGING? ==> bs.lastCommand.PRECHARGE?)
    && (bs.status.REFRESHING? ==> bs.lastCommand.REFRESH?)
    && !bs.status.POWER_DOWN?
  }

  ghost predicate AllStatusOK(banks: BankTable) {
    forall t | t in banks :: StatusOK(banks[t])
  }

  ghost predicate NotesPunctual(cfg: Config, now: int, banks: BankTable, pending: multiset<Due>) {
    forall d | d in pending ::
        d.u.slot in banks && now <= d.due && d.u.at <= d.due && (cfg.tRP >= 1 ==> d.u.at == d.due)
  }

  ghost predicate Orderly(cfg: Config, S: Sys) {
    AllStatusOK(S.banks) && NotesPunctual(cfg, S.now, S.banks, S.pending)
  }

  // ---------------------------------------------------------------- a command

  lemma IssueStatusOK(cfg: Config, banks: BankTable, p: Packet, now: int)
    requires AllStatusOK(banks) && OnTime(banks, p, now)
    ensures AllStatusOK(Issue(cfg, banks, p, now))
  {
  }

  lemma IssuePunctual(cfg: Config, banks: BankTable, pending: multiset<Due>, p: Packet, now: int)
    requires NotesPunctual(cfg, now, banks, pending) && p.Target() in banks && cfg.tRFC >= 1
    ensures NotesPunctual(cfg, now, Issue(cfg, banks, p, now), pending + Post(IssueUpdates(cfg, p, now), now))
  {
    PostOne(IssueUpdates(cfg, p, now), now);
  }

  /** The notes that a command posts. */
  lemma Posts(cfg: Config, pending: multiset<Due>, p: Packet, now: int, u: Update)
    requires IssueUpdates(cfg, p, now) == [u]
    ensures DueOf(u, now) in pending + Post(IssueUpdates(cfg, p, now), now)
  {
    PostOne(IssueUpdates(cfg, p, now), now);
  }

  lemma NotedMore(pending: multiset<Due>, more: multiset<Due>, t: Slot, end: int)
    requires Noted(pending, t, end)
    ensures Noted(pending + more, t, end)
  {
    var d :| d in pending && d.u.slot == t && d.due == end;
    assert d in pending + more;
  }

  lemma RestartAwaited(cfg: Config, banks: BankTable, pending: multiset<Due>, p: Packet, now: int, t: Slot)
    requires cfg.tRFC >= 1 && t in banks && AllStatusOK(banks) && OnTime(banks, p, now) && Restarts(p, t)
    requires p.kind.REFRESH? ==> FirstBank(t) in banks
    ensures Awaited(cfg, Issue(cfg, banks, p, now), pending + Post(IssueUpdates(cfg, p, now), now), t, now)
  {
    var u := IssueUpdates(cfg, p, now)[0];
    Posts(cfg, pending, p, now, u);
    hide Post;
    assert DueOf(u, now).u.slot == if p.kind.REFRESH? then FirstBank(t) else t;
  }

  lemma OtherAwaited(cfg: Config, banks: BankTable, pending: multiset<Due>, p: Packet, now: int, t: Slot, since: int)
    requires Awaited(cfg, banks, pending, t, since) && AllStatusOK(banks) && NotesPunctual(cfg, now, banks, pending)
    requires OnTime(banks, p, now) && !Restarts(p, t)
    ensures Awaited(cfg, Issue(cfg, banks, p, now), pending + Post(IssueUpdates(cfg, p, now), now), t, since)
  {
    var banks' := Issue(cfg, banks, p, now);
    var more := Post(IssueUpdates(cfg, p, now), now);
    hide Post, IssueUpdates;
    match PhaseOf(banks[t]) {
      case Steady =>
      case Refreshing =>
        var f := FirstBank(t);
        var d :| d in pending && d.u.slot == f && d.due == since + Length(cfg, banks[t]) &&
            d.due < banks[f].nextActivate;
        assert d in pending + more;
        assert StatusOK(banks[f]) && StatusOK(banks[t]) && p.Target() != f;
      case _ =>
        NotedMore(pending, more, t, since + Length(cfg, banks[t]));
        assert StatusOK(banks[t]);
    }
  }

  // ---------------------------------------------------------------- a note

  lemma UpdateStatusOK(banks: BankTable, u: Update)
    requires AllStatusOK(banks) && u.slot in banks
    ensures AllStatusOK(Updated(banks, u))
  {
    assert StatusOK(banks[u.slot]);
    forall t | t in banks
      ensures StatusOK(Updated(banks, u)[t])
    {
      assert StatusOK(banks[t]);
    }
  }

  lemma UpdatePunctual(cfg: Config, now: int, banks: BankTable, pending: multiset<Due>, d: Due)
    requires NotesPunctual(cfg, now, banks, pending) && d in pending
    ensures NotesPunctual(cfg, now, Updated(banks, d.u),
                          pending - multiset{d} + Post(FollowUps(cfg, banks, d.u), now))
  {
    PostOne(FollowUps(cfg, banks, d.u), now);
  }

  lemma NotedStill(pending: multiset<Due>, d: Due, more: multiset<Due>, t: Slot, end: int)
    requires Noted(pending, t, end) && d.u.slot != t
    ensures Noted(pending - multiset{d} + more, t, end)
  {
    var e :| e in pending && e.u.slot == t && e.due == end;
    assert e in pending - multiset{d} + more;
  }

  /** The note of a bank ends the bank's phase; if the bank now is precharging, the next note is on its way. */
  lemma OwnNoteAwaited(cfg: Config, now: int, banks: BankTable, pending: multiset<Due>, d: Due)
    requires AllStatusOK(banks) && d.u.slot in banks && d.u.at <= now && (cfg.tRP >= 1 ==> d.u.at == now)
    ensures var t, banks' := d.u.slot, Updated(banks, d.u);
            && (PhaseOf(banks[t]).Steady? || PhaseOf(banks'[t]) != PhaseOf(banks[t]))
            && Awaited(cfg, banks', pending - multiset{d} + Post(FollowUps(cfg, banks, d.u), now), t, now)
  {
    var t := d.u.slot;
    var us := FollowUps(cfg, banks, d.u);
    assert StatusOK(banks[t]);
    PostOne(us, now);
    if AutoPrecharging(banks[t]) {
      var e := DueOf(us[0], now);
      assert e in pending - multiset{d} + Post(us, now);
      assert e.u.slot == t && e.due == now + Max(cfg.tRP - 1, 0);
    }
  }

  /** Another note leaves what is awaited for bank t on its way, or ends the refresh of its rank. */
  lemma OtherNoteAwaited(cfg: Config, now: int, banks: BankTable, pending: multiset<Due>, d: Due, t: Slot, since: int)
    requires AllStatusOK(banks) && d.u.slot in banks && d.u.slot != t && Awaited(cfg, banks, pending, t, since)
    ensures var banks' := Updated(banks, d.u);
            && (PhaseOf(banks'[t]) == PhaseOf(banks[t]) || PhaseOf(banks'[t]).Steady?)
            && Awaited(cfg, banks', pending - multiset{d} + Post(FollowUps(cfg, banks, d.u), now), t, since)
  {
    var more := Post(FollowUps(cfg, banks, d.u), now);
    assert StatusOK(banks[t]) && StatusOK(banks[d.u.slot]);
    hide Post, FollowUps;
    match PhaseOf(banks[t]) {
      case Steady =>
      case Refreshing =>
        var f := FirstBank(t);
        if d.u.slot != f {
          var e :| e in pending && e.u.slot == f && e.due == since + Length(cfg, banks[t]) &&
              e.due < banks[f].nextActivate;
          assert e in pending - multiset{d} + more;
        }
      case _ =>
        NotedStill(pending, d, more, t, since + Length(cfg, banks[t]));
    }
  }

  // ---------------------------------------------------------------- steps and runs

  /** The phase of bank t in a state and when it began, and that a note for its end is on its way. */
  ghost predicate Told(cfg: Config, S: Sys, t: Slot, since: int) {
    Orderly(cfg, S) && Awaited(cfg, S.banks, S.pending, t, since)
  }

  function SinceAfter(S: Sys, S': Sys, t: Slot, since: int): int
    requires t in S.banks && t in S'.banks
  {
    if Starts(S, S', t) then S.now else since
  }

  lemma CycleTold(cfg: Config, S: Sys, t: Slot, since: int)
    requires Shaped(cfg, S) && t in S.banks && Told(cfg, S, t, since)
    ensures var S' := CycleStep(cfg, S); t in S'.banks && Told(cfg, S', t, SinceAfter(S, S', t, since))
  {
    hide Pop, OnTime, Issue, IssueUpdates, Post, AllStatusOK, NotesPunctual, Awaited, Restarts, PhaseOf, Homed;
    PopOnTime(cfg, S.banks, S.q, S.now);
    hide Fits;
    match Pop(cfg, S.banks, S.q, S.now).0 {
      case None =>
      case Some(p) => CommandTold(cfg, S, p, t, since);
    }
  }

  lemma CommandTold(cfg: Config, S: Sys, p: Packet, t: Slot, since: int)
    requires cfg.Valid() && Covers(cfg, S.banks) && Told(cfg, S, t, since) && OnTime(S.banks, p, S.now)
    ensures var banks' := Issue(cfg, S.banks, p, S.now);
            var pending' := S.pending + Post(IssueUpdates(cfg, p, S.now), S.now);
            && t in banks' && AllStatusOK(banks') && NotesPunctual(cfg, S.now, banks', pending')
            && Awaited(cfg, banks', pending', t,
                       if Restarts(p, t) || PhaseOf(banks'[t]) != PhaseOf(S.banks[t]) then S.now else since)
  {
    assert InRange(cfg, t) && InRange(cfg, FirstBank(t));
    IssueStatusOK(cfg, S.banks, p, S.now);
    IssuePunctual(cfg, S.banks, S.pending, p, S.now);
    if Restarts(p, t) {
      RestartAwaited(cfg, S.banks, S.pending, p, S.now, t);
    } else {
      OtherAwaited(cfg, S.banks, S.pending, p, S.now, t, since);
      assert StatusOK(S.banks[t]);
      hide Post, IssueUpdates, NotesPunctual, AllStatusOK, Noted, RefreshNoted;
    }
  }

  lemma NoteTold(cfg: Config, S: Sys, d: Due, t: Slot, since: int)
    requires Told(cfg, S, t, since) && d in S.pending && d.due <= S.now
    ensures var banks' := Updated(S.banks, d.u);
            var pending' := S.pending - multiset{d} + Post(FollowUps(cfg, S.banks, d.u), S.now);
            && d.u.slot in S.banks && t in banks' && AllStatusOK(banks') && NotesPunctual(cfg, S.now, banks', pending')
            && Awaited(cfg, banks', pending', t, if PhaseOf(banks'[t]) != PhaseOf(S.banks[t]) then S.now else since)
  {
    UpdateStatusOK(S.banks, d.u);
    UpdatePunctual(cfg, S.now, S.banks, S.pending, d);
    if d.u.slot == t {
      OwnNoteAwaited(cfg, S.now, S.banks, S.pending, d);
    } else {
      OtherNoteAwaited(cfg, S.now, S.banks, S.pending, d, t, since);
    }
    hide Post, FollowUps, NotesPunctual, AllStatusOK, Updated, Noted, RefreshNoted;
  }

  lemma StepTold(cfg: Config, S: Sys, a: Action, t: Slot, since: int)
    requires Shaped(cfg, S) && t in S.banks && Told(cfg, S, t, since)
    ensures var S' := Do(cfg, S, a); t in S'.banks && Told(cfg, S', t, SinceAfter(S, S', t, since))
  {
    hide Fits, Updated, CycleStep, Post, FollowUps, Accepts, Arrive, AllStatusOK, Awaited, PhaseOf;
    if Enabled(cfg, S, a) {
      match a {
        case Cycle => CycleTold(cfg, S, t, since);
        case DeliverUpdate(d) => NoteTold(cfg, S, d, t, since);
        case _ =>
      }
    }
  }

  lemma NextTold(cfg: Config, S: Sys, S': Sys, t: Slot, since: int)
    requires Shaped(cfg, S) && t in S.banks && Told(cfg, S, t, since) && Next(cfg, S, S')
    ensures t in S'.banks && Told(cfg, S', t, SinceAfter(S, S', t, since))
  {
    var a :| Step(cfg, S, a, S');
    hide Told, SinceAfter, Fits;
    StepTold(cfg, S, a, t, since);
  }

  lemma KeptNextTold(cfg: Config, S: Sys, S': Sys, t: Slot, since: int)
    requires Conservation.Kept(cfg, S) && t in S.banks && Told(cfg, S, t, since) && Next(cfg, S, S')
    ensures t in S'.banks && Told(cfg, S', t, SinceAfter(S, S', t, since))
  {
    hide Told, SinceAfter, Next;
    NextTold(cfg, S, S', t, since);
  }

  lemma SinceLast(run: seq<Sys>, n: nat, t: Slot)
    requires n + 2 == |run| && forall i | 0 <= i < |run| :: t in run[i].banks
    ensures Since(run, t) == SinceAfter(run[n], run[n+1], t, Since(run[..n+1], t))
  {
  }

  lemma {:induction false} RunTold(cfg: Config, run: seq<Sys>, t: Slot)
    requires cfg.Valid() && IsRun(cfg, run) && InRange(cfg, t)
    ensures forall i | 0 <= i < |run| :: t in run[i].banks
    ensures Told(cfg, Last(run), t, Since(run, t))
  {
    hide Told, Next, Starts, SinceAfter, StepAt, Conservation.Kept;
    if |run| == 1 {
      StartTold(cfg, t);
      assert Init(cfg).now == 0;
    } else {
      var n := |run| - 2;
      hide Since;
      RunPrefix(cfg, run, n);
      RunTold(cfg, run[..n+1], t);
      Conservation.RunKept(cfg, run[..n+1]);
      assert run[..n+1][n] == run[n];
      KeptNextTold(cfg, run[n], run[n+1], t, Since(run[..n+1], t));
      hide IsRun;
      forall i | 0 <= i < |run|
        ensures t in run[i].banks
      {
        if i <= n { assert run[..n+1][i] == run[i]; }
      }
      SinceLast(run, n, t);
    }
  }

  lemma StartTold(cfg: Config, t: Slot)
    requires cfg.Valid() && InRange(cfg, t)
    ensures t in Init(cfg).banks && Told(cfg, Init(cfg), t, 0)
  {
  }

  // ---------------------------------------------------------------- results

  /**
   In every run: while a bank closes itself, is precharging, or is refreshed with its rank, a note that ends this is
   pending, due exactly when the phase has lasted its time; so no phase outlasts that.
   */
  lemma PhasesEnd(cfg: Config, run: seq<Sys>, t: Slot)
    requires cfg.Valid() && IsRun(cfg, run) && InRange(cfg, t)
    ensures forall i | 0 <= i < |run| :: t in run[i].banks
    ensures var S := Last(run); var bs := S.banks[t]; var end := Since(run, t) + Length(cfg, bs);
            && (!PhaseOf(bs).Steady? ==> S.now <= end)
            && (PhaseOf(bs).Closing? || PhaseOf(bs).Precharging? ==> Noted(S.pending, t, end))
            && (PhaseOf(bs).Refreshing? ==> Noted(S.pending, FirstBank(t), end))
  {
    RunTold(cfg, run, t);
    hide Since, IsRun;
  }

  /** The controller never holds a bank in power-down, and a bank that it closed or refreshed is not open. */
  lemma StatusesFit(cfg: Config, run: seq<Sys>, t: Slot)
    requires cfg.Valid() && IsRun(cfg, run) && InRange(cfg, t)
    ensures t in Last(run).banks && StatusOK(Last(run).banks[t])
  {
    RunTold(cfg, run, t);
  }
}

/** State-update notes: how many a bank can have, and why none reports a refresh too late. */
module PendingNotes {
  import opened DramTypes
  import opened CommandQueueSpec
  import opened BankRules
  import opened DramSystem
  import opened SchedulerSafety
  import opened SchedulerInvariant

  /**
   A column access with auto-precharge posts a second note tRP - 1 after its first. A refresh may be issued in
   between, at the earliest in the tick after the first note; unless the refresh outlasts the second note, that note
   is taken for the end of the refresh and closes whatever other bank of the rank was opened meanwhile.
   */
  predicate RefreshOutlastsPrecharge(cfg: Config) {
    cfg.rowBufferPolicy.ClosePage? && cfg.numBanks > 1 ==>
      && cfg.tRP <= cfg.tRFC + Max(1, cfg.readAutopreDelay - cfg.readToPreDelay)
      && cfg.tRP <= cfg.tRFC + Max(1, cfg.writeAutopreDelay - cfg.writeToPreDelay)
  }

  ghost predicate Alone(pending: multiset<Due>, d: Due) {
    pending[d] == 1 && forall e | e in pending && e.u.slot == d.u.slot :: e == d
  }

  /** The rank of a refresh note is closed and stays unusable beyond the note. */
  ghost predicate RankShutBeyond(banks: BankTable, rank: nat, due: int) {
    forall t | t in banks && t.rank == rank ::
      banks[t].lastCommand.REFRESH? && !banks[t].status.ROW_ACTIVE? && banks[t].nextActivate > due
  }

  /** How far the end of an auto-precharge lies beyond the first note, by the controller's reckoning. */
  function Slack(cfg: Config, bs: BankState): int {
    if bs.lastCommand.READ_P? then cfg.readAutopreDelay - cfg.readToPreDelay
    else cfg.writeAutopreDelay - cfg.writeToPreDelay
  }

  /** now: the current tick; pop: the earliest tick at which a command may still be issued. */
  ghost predicate NoteOK(cfg: Config, now: int, pop: int, banks: BankTable, pending: multiset<Due>, d: Due) {
    && d.u.slot in banks
    && now <= d.due
    && var bs := banks[d.u.slot];
       match bs.lastCommand
       case READ_P | WRITE_P =>
         Alone(pending, d) && bs.status.ROW_ACTIVE? && d.due == d.u.at && bs.nextActivate >= d.due + Slack(cfg, bs)
       case PRECHARGE =>
         Alone(pending, d) && !bs.status.ROW_ACTIVE? && bs.status.PRECHARGING? &&
         d.due < Max(pop, bs.nextActivate) + cfg.tRFC
       case REFRESH => RankShutBeyond(banks, d.u.slot.rank, d.due)
       case _ => false
  }

  ghost predicate NotesTimed(cfg: Config, now: int, pop: int, banks: BankTable, pending: multiset<Due>) {
    forall d | d in pending :: NoteOK(cfg, now, pop, banks, pending, d)
  }

  ghost predicate NotesInTime(now: int, banks: BankTable, pending: multiset<Due>) {
    forall d | d in pending :: d.u.slot in banks && now <= d.due
  }

  /** With a single bank per rank no note can hurt another bank. */
  ghost predicate NotesOK(cfg: Config, now: int, pop: int, banks: BankTable, pending: multiset<Due>) {
    NotesInTime(now, banks, pending) && (cfg.numBanks > 1 ==> NotesTimed(cfg, now, pop, banks, pending))
  }

  /** The later the next command, the more room the notes have. */
  lemma NotesLater(cfg: Config, now: int, pop: int, pop': int, banks: BankTable, pending: multiset<Due>)
    requires NotesOK(cfg, now, pop, banks, pending) && pop <= pop'
    ensures NotesOK(cfg, now, pop', banks, pending)
  {
    if cfg.numBanks > 1 {
      forall d | d in pending
        ensures NoteOK(cfg, now, pop', banks, pending, d)
      {
        assert NoteOK(cfg, now, pop, banks, pending, d);
      }
    }
  }

  lemma PostOne(us: seq<Update>, now: int)
    requires |us| <= 1
    ensures Post(us, now) == if us == [] then multiset{} else multiset{DueOf(us[0], now)}
  {
    if |us| == 1 {
      assert us[1..] == [];
    }
  }

  /** A bank that is about to receive an ACTIVATE, a column access or a PRECHARGE has no note pending. */
  lemma NoNoteBeforeCommand(cfg: Config, now: int, banks: BankTable, pending: multiset<Due>, p: Packet)
    requires NotesTimed(cfg, now, now, banks, pending) && Allowed(cfg, banks, p, now) && !p.kind.REFRESH?
    ensures forall d | d in pending :: d.u.slot != p.Target()
  {
    forall d | d in pending
      ensures d.u.slot != p.Target()
    {
      assert NoteOK(cfg, now, now, banks, pending, d);
    }
  }

  /** A command changes neither a foreign rank's states nor lets an activation time slip back, REFRESH aside. */
  lemma IssueMonotone(cfg: Config, banks: BankTable, p: Packet, now: int, t: Slot)
    requires t in banks && (p.kind.REFRESH? ==> t.rank != p.rank)
    ensures Issue(cfg, banks, p, now)[t].nextActivate >= banks[t].nextActivate
    ensures t != p.Target() ==>
              Issue(cfg, banks, p, now)[t].status == banks[t].status &&
              Issue(cfg, banks, p, now)[t].lastCommand == banks[t].lastCommand
  {
  }

  lemma OldNoteKept(cfg: Config, now: int, banks: BankTable, pending: multiset<Due>, p: Packet, d: Due)
    requires NotesTimed(cfg, now, now, banks, pending) && Allowed(cfg, banks, p, now) && d in pending
    requires !p.kind.REFRESH?
    ensures NoteOK(cfg, now, now, Issue(cfg, banks, p, now), pending + Post(IssueUpdates(cfg, p, now), now), d)
  {
    var banks' := Issue(cfg, banks, p, now);
    assert NoteOK(cfg, now, now, banks, pending, d);
    PostOne(IssueUpdates(cfg, p, now), now);
    NoNoteBeforeCommand(cfg, now, banks, pending, p);
    IssueMonotone(cfg, banks, p, now, d.u.slot);
    if banks[d.u.slot].lastCommand.REFRESH? {
      forall t | t in banks' && t.rank == d.u.slot.rank
        ensures banks'[t].lastCommand.REFRESH? && !banks'[t].status.ROW_ACTIVE? && banks'[t].nextActivate > d.due
      {
        IssueMonotone(cfg, banks, p, now, t);
      }
    }
  }

  lemma NewNoteOK(cfg: Config, now: int, banks: BankTable, pending: multiset<Due>, p: Packet, d: Due)
    requires cfg.tRFC >= 1
    requires NotesTimed(cfg, now, now, banks, pending) && Allowed(cfg, banks, p, now) && !p.kind.REFRESH?
    requires d in Post(IssueUpdates(cfg, p, now), now)
    ensures NoteOK(cfg, now, now, Issue(cfg, banks, p, now), pending + Post(IssueUpdates(cfg, p, now), now), d)
  {
    PostOne(IssueUpdates(cfg, p, now), now);
    NoNoteBeforeCommand(cfg, now, banks, pending, p);
  }

  lemma RefreshNotesTimed(cfg: Config, now: int, banks: BankTable, pending: multiset<Due>, p: Packet)
    requires cfg.tRFC >= 1
    requires NotesTimed(cfg, now, now, banks, pending) && Allowed(cfg, banks, p, now) && p.kind.REFRESH?
    ensures NotesTimed(cfg, now, now, Issue(cfg, banks, p, now), pending + Post(IssueUpdates(cfg, p, now), now))
  {
    var banks' := Issue(cfg, banks, p, now);
    var pending' := pending + Post(IssueUpdates(cfg, p, now), now);
    PostOne(IssueUpdates(cfg, p, now), now);
    forall d | d in pending'
      ensures NoteOK(cfg, now, now, banks', pending', d)
    {
      if d in pending {
        assert NoteOK(cfg, now, now, banks, pending, d);
      }
      if d.u.slot.rank != p.rank && banks[d.u.slot].lastCommand.REFRESH? {
        assert RankShutBeyond(banks, d.u.slot.rank, d.due);
        assert RankShutBeyond(banks', d.u.slot.rank, d.due);
      }
    }
  }

  lemma IssueNotesTimed(cfg: Config, now: int, banks: BankTable, pending: multiset<Due>, p: Packet)
    requires cfg.tRFC >= 1
    requires NotesTimed(cfg, now, now, banks, pending) && Allowed(cfg, banks, p, now)
    ensures NotesTimed(cfg, now, now, Issue(cfg, banks, p, now), pending + Post(IssueUpdates(cfg, p, now), now))
  {
    var banks' := Issue(cfg, banks, p, now);
    var pending' := pending + Post(IssueUpdates(cfg, p, now), now);
    if p.kind.REFRESH? {
      RefreshNotesTimed(cfg, now, banks, pending, p);
    } else {
      forall d | d in pending'
        ensures NoteOK(cfg, now, now, banks', pending', d)
      {
        if d in pending {
          OldNoteKept(cfg, now, banks, pending, p, d);
        } else {
          NewNoteOK(cfg, now, banks, pending, p, d);
        }
      }
    }
  }

  lemma IssueNotesOK(cfg: Config, now: int, banks: BankTable, pending: multiset<Due>, p: Packet)
    requires cfg.tRFC >= 1
    requires NotesOK(cfg, now, now, banks, pending) && Allowed(cfg, banks, p, now)
    ensures NotesOK(cfg, now, now, Issue(cfg, banks, p, now), pending + Post(IssueUpdates(cfg, p, now), now))
  {
    PostOne(IssueUpdates(cfg, p, now), now);
    if cfg.numBanks > 1 {
      IssueNotesTimed(cfg, now, banks, pending, p);
    }
  }

  /** A note that is delivered on time is timely in the sense of the agreement. */
  lemma DeliveredIsTimely(cfg: Config, now: int, pop: int, banks: BankTable, s: QState, owed: map<Slot, Option<Packet>>,
                          pending: multiset<Due>, d: Due)
    requires Sound(cfg, banks, s, owed) && NotesOK(cfg, now, pop, banks, pending) && d in pending
    ensures d.u.slot in banks && Timely(banks, d.u)
  {
    if cfg.numBanks > 1 {
      assert NoteOK(cfg, now, pop, banks, pending, d);
    } else {
      assert BankOK(cfg, banks[d.u.slot], s.hits[d.u.slot], owed[d.u.slot]);
      assert forall t | t in banks && t.rank == d.u.slot.rank :: t == d.u.slot;
    }
  }

  /** Reading a note never opens a bank, moves no activation time and changes at most the noted bank's last command. */
  lemma UpdateMonotone(banks: BankTable, u: Update, t: Slot)
    requires u.slot in banks && t in banks
    ensures Updated(banks, u)[t].nextActivate == banks[t].nextActivate
    ensures Updated(banks, u)[t].status.ROW_ACTIVE? ==> banks[t].status.ROW_ACTIVE?
    ensures t != u.slot ==> Updated(banks, u)[t].lastCommand == banks[t].lastCommand
    ensures t.rank != u.slot.rank || (t != u.slot && !banks[u.slot].lastCommand.REFRESH?) ==>
        Updated(banks, u)[t] == banks[t]
  {
  }

  /** Every other note stays in order when one is read. */
  lemma OtherNoteKept(cfg: Config, now: int, pop: int, banks: BankTable, pending: multiset<Due>, d: Due, e: Due)
    requires pop <= now + 1 && NotesTimed(cfg, now, pop, banks, pending) && d in pending && e in pending - multiset{d}
    ensures NoteOK(cfg, now, now + 1, Updated(banks, d.u),
        pending - multiset{d} + Post(FollowUps(cfg, banks, d.u), now), e)
  {
    var banks' := Updated(banks, d.u);
    assert NoteOK(cfg, now, pop, banks, pending, d) && NoteOK(cfg, now, pop, banks, pending, e);
    PostOne(FollowUps(cfg, banks, d.u), now);
    UpdateMonotone(banks, d.u, e.u.slot);
    if banks[e.u.slot].lastCommand.REFRESH? {
      forall t | t in banks' && t.rank == e.u.slot.rank
        ensures banks'[t].lastCommand.REFRESH? && !banks'[t].status.ROW_ACTIVE? && banks'[t].nextActivate > e.due
      {
        UpdateMonotone(banks, d.u, t);
      }
    }
  }

  lemma FollowUpOK(cfg: Config, now: int, pop: int, banks: BankTable, pending: multiset<Due>, d: Due, e: Due)
    requires cfg.tRFC >= 1 && cfg.rowBufferPolicy.ClosePage? && cfg.numBanks > 1 && RefreshOutlastsPrecharge(cfg)
    requires pop <= now + 1 && NotesTimed(cfg, now, pop, banks, pending) && d in pending && d.due <= now
    requires e in Post(FollowUps(cfg, banks, d.u), now)
    ensures NoteOK(cfg, now, now + 1, Updated(banks, d.u),
        pending - multiset{d} + Post(FollowUps(cfg, banks, d.u), now), e)
  {
    assert NoteOK(cfg, now, pop, banks, pending, d);
    PostOne(FollowUps(cfg, banks, d.u), now);
  }

  lemma UpdateNotesTimed(cfg: Config, now: int, pop: int, banks: BankTable, pending: multiset<Due>, d: Due)
    requires cfg.tRFC >= 1 && cfg.numBanks > 1 && RefreshOutlastsPrecharge(cfg)
    requires pop <= now + 1 && NotesTimed(cfg, now, pop, banks, pending)
    requires d in pending && d.due <= now && d.u.slot in banks
    requires AutoPrecharging(banks[d.u.slot]) ==> cfg.rowBufferPolicy.ClosePage?
    ensures NotesTimed(cfg, now, now + 1, Updated(banks, d.u),
        pending - multiset{d} + Post(FollowUps(cfg, banks, d.u), now))
  {
    var banks' := Updated(banks, d.u);
    var pending' := pending - multiset{d} + Post(FollowUps(cfg, banks, d.u), now);
    forall e | e in pending'
      ensures NoteOK(cfg, now, now + 1, banks', pending', e)
    {
      if e in pending - multiset{d} {
        OtherNoteKept(cfg, now, pop, banks, pending, d, e);
      } else {
        PostOne(FollowUps(cfg, banks, d.u), now);
        FollowUpOK(cfg, now, pop, banks, pending, d, e);
      }
    }
  }

  lemma UpdateNotesOK(cfg: Config, now: int, pop: int, banks: BankTable, pending: multiset<Due>, d: Due)
    requires cfg.tRFC >= 1 && RefreshOutlastsPrecharge(cfg)
    requires pop <= now + 1 && NotesOK(cfg, now, pop, banks, pending)
    requires d in pending && d.due <= now && d.u.slot in banks
    requires AutoPrecharging(banks[d.u.slot]) ==> cfg.rowBufferPolicy.ClosePage?
    ensures NotesOK(cfg, now, now + 1, Updated(banks, d.u),
        pending - multiset{d} + Post(FollowUps(cfg, banks, d.u), now))
  {
    PostOne(FollowUps(cfg, banks, d.u), now);
    if cfg.numBanks > 1 {
      UpdateNotesTimed(cfg, now, pop, banks, pending, d);
    }
  }
}

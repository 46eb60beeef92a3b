/** The timing rules of the memory as rules about a log of commands: how long one command waits after another. */
module TimingRules {
  // The same rules are kept in two tables, the controller's and the rank's. A log says nothing about either.

  import opened DramTypes

  /** A command, its time, and the banks of all ranks that were open for the controller just before it. */
  datatype Cmd = Cmd(p: Packet, at: int, open: set<Slot>)

  /** Who keeps the rules. */
  datatype Side = AtController | AtRank

  /** An ACTIVATE waits for its own bank, and for the rank. */
  function ActivateWait(cfg: Config, p: Packet, t: Slot): Option<int> {
    match p.kind
    case REFRESH => if p.rank == t.rank then Some(cfg.tRFC) else None
    case ACTIVATE =>
      if p.Target() == t then Some(cfg.tRC) else if p.rank == t.rank then Some(cfg.tRRD) else None
    case PRECHARGE => if p.Target() == t then Some(cfg.tRP) else None
    case READ_P => if p.Target() == t then Some(cfg.readAutopreDelay) else None
    case WRITE_P => if p.Target() == t then Some(cfg.writeAutopreDelay) else None
    case _ => None
  }

  predicate ClosesItself(p: Packet, t: Slot) {
    p.Target() == t && (p.kind.READ_P? || p.kind.WRITE_P?)
  }

  /**
   A column access waits for its row, and for the accesses of its rank and of the other ranks on the bus; not for one
   that closes the same bank, as the bank has to be activated again first.
   */
  function ReadWait(cfg: Config, p: Packet, t: Slot, open: bool): Option<int> {
    if ClosesItself(p, t) then None
    else
      match p.kind
      case ACTIVATE => if p.Target() == t then Some(cfg.tRCD - cfg.tAL) else None
      case READ | READ_P =>
        if p.rank == t.rank then Some(Max(cfg.tCCD, cfg.tBL / 2))
        else if open then Some(cfg.tBL / 2 + cfg.tRTRS) else None
      case WRITE | WRITE_P =>
        if p.rank == t.rank then Some(cfg.writeToReadDelayB) else if open then Some(cfg.writeToReadDelayR) else None
      case _ => None
  }

  function WriteWait(cfg: Config, p: Packet, t: Slot, open: bool): Option<int> {
    if ClosesItself(p, t) then None
    else
      match p.kind
      case ACTIVATE => if p.Target() == t then Some(cfg.tRCD - cfg.tAL) else None
      case READ | READ_P => if p.rank == t.rank || open then Some(cfg.readToWriteDelay) else None
      case WRITE | WRITE_P =>
        if p.rank == t.rank then Some(Max(cfg.tCCD, cfg.tBL / 2))
        else if open then Some(cfg.tBL / 2 + cfg.tRTRS) else None
      case _ => None
  }

  function PrechargeWait(cfg: Config, p: Packet, t: Slot): Option<int> {
    if p.Target() != t then None
    else match p.kind
      case ACTIVATE => Some(cfg.tRAS)
      case READ => Some(cfg.readToPreDelay)
      case WRITE => Some(cfg.writeToPreDelay)
      case _ => None
  }

  /** What the four kinds of waiting commands are; a refresh waits as an ACTIVATE of each bank would. */
  datatype Want = ToActivate | ToRead | ToWrite | ToPrecharge

  /** How long what is wanted of bank t waits after a command; open: was the bank open when the command was issued? */
  function Wait(cfg: Config, p: Packet, w: Want, t: Slot, open: bool): Option<int> {
    match w
    case ToActivate => ActivateWait(cfg, p, t)
    case ToRead => ReadWait(cfg, p, t, open)
    case ToWrite => WriteWait(cfg, p, t, open)
    case ToPrecharge => PrechargeWait(cfg, p, t)
  }

  /** Command q takes the place of all that earlier commands demand of bank t. */
  predicate Lifts(side: Side, q: Packet, w: Want, t: Slot) {
    match w
    case ToActivate => q.kind.REFRESH? && q.rank == t.rank
    case _ =>
      match side
      case AtRank => q.kind.ACTIVATE? && q.Target() == t
      case AtController => !w.ToPrecharge? && ClosesItself(q, t)
  }

  ghost predicate Lifted(side: Side, log: seq<Cmd>, k: nat, w: Want, t: Slot) {
    exists m :: k < m < |log| && Lifts(side, log[m].p, w, t)
  }

  /** The k-th command of the log no longer keeps bank t from what is wanted of it at time x. */
  ghost predicate WaitOver(cfg: Config, side: Side, log: seq<Cmd>, k: nat, w: Want, t: Slot, x: int)
    requires k < |log|
  {
    var c := log[k];
    match Wait(cfg, c.p, w, t, t in c.open)
    case None => true
    case Some(n) => c.at + n <= x || Lifted(side, log, k, w, t)
  }

  ghost predicate WaitsOver(cfg: Config, side: Side, log: seq<Cmd>, w: Want, t: Slot, x: int) {
    forall k | 0 <= k < |log| :: WaitOver(cfg, side, log, k, w, t, x)
  }

  /** What a new command does to the waits: it may lift the old ones, and it adds its own. */
  lemma WaitsAppend(cfg: Config, side: Side, log: seq<Cmd>, c: Cmd, w: Want, t: Slot, x: int)
    ensures WaitsOver(cfg, side, log + [c], w, t, x) <==>
            && (Lifts(side, c.p, w, t) || WaitsOver(cfg, side, log, w, t, x))
            && OwnOver(cfg, c, w, t, x)
  {
    var log' := log + [c];
    forall k | 0 <= k < |log|
      ensures Lifted(side, log', k, w, t) <==> Lifts(side, c.p, w, t) || Lifted(side, log, k, w, t)
    {
      if Lifts(side, c.p, w, t) {
        assert log'[|log|] == c;
      } else if Lifted(side, log, k, w, t) {
        var m :| k < m < |log| && Lifts(side, log[m].p, w, t);
        assert log'[m] == log[m];
      }
    }
    assert !Lifted(side, log', |log|, w, t);
    hide Lifts, Lifted, Wait;
    assert WaitOver(cfg, side, log', |log|, w, t, x) <==> OwnOver(cfg, c, w, t, x);
    forall k | 0 <= k < |log|
      ensures WaitOver(cfg, side, log', k, w, t, x) <==>
              Lifts(side, c.p, w, t) || WaitOver(cfg, side, log, k, w, t, x)
    {
      assert log'[k] == log[k];
    }
  }

  /** What a command demands by itself. */
  ghost predicate OwnOver(cfg: Config, c: Cmd, w: Want, t: Slot, x: int) {
    match Wait(cfg, c.p, w, t, t in c.open)
    case None => true
    case Some(n) => c.at + n <= x
  }
}

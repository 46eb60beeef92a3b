/**
 What a command does to a bank: once in the controller's table, at the moment it is issued, and once in
 the rank's own table, when it arrives. The two are written down separately in the program and here.
 */
module BankRules {
  import opened DramTypes

  // ---------------------------------------------------------------- controller side

  /** Time after a read at which other banks may be read or written again. */
  function AfterRead(cfg: Config, p: Packet, now: int, s: Slot, bs: BankState): BankState {
    if s.rank == p.rank then
      bs.(nextRead := Max(now + Max(cfg.tCCD, cfg.tBL / 2), bs.nextRead),
          nextWrite := Max(now + cfg.readToWriteDelay, bs.nextWrite))
    else if bs.status.ROW_ACTIVE? then
      bs.(nextRead := Max(now + cfg.tBL / 2 + cfg.tRTRS, bs.nextRead),
          nextWrite := Max(now + cfg.readToWriteDelay, bs.nextWrite))
    else bs
  }

  function AfterWrite(cfg: Config, p: Packet, now: int, s: Slot, bs: BankState): BankState {
    if s.rank == p.rank then
      bs.(nextWrite := Max(now + Max(cfg.tBL / 2, cfg.tCCD), bs.nextWrite),
          nextRead := Max(now + cfg.writeToReadDelayB, bs.nextRead))
    else if bs.status.ROW_ACTIVE? then
      bs.(nextWrite := Max(now + cfg.tBL / 2 + cfg.tRTRS, bs.nextWrite),
          nextRead := Max(now + cfg.writeToReadDelayR, bs.nextRead))
    else bs
  }

  /** Column commands with auto-precharge keep the bank unusable until it may be activated again. */
  function Sealed(bs: BankState): BankState {
    bs.(nextRead := bs.nextActivate, nextWrite := bs.nextActivate)
  }

  /** The controller's view of bank s after command p was issued at time now. */
  function IssueBank(cfg: Config, p: Packet, now: int, s: Slot, bs: BankState): BankState {
    var own := s == p.Target();
    match p.kind
    case READ =>
      AfterRead(cfg, p, now, s,
        if own then bs.(nextPrecharge := Max(now + cfg.readToPreDelay, bs.nextPrecharge), lastCommand := READ) else bs)
    case READ_P =>
      if own then
        Sealed(AfterRead(cfg, p, now, s,
          bs.(nextActivate := Max(now + cfg.readAutopreDelay, bs.nextActivate), lastCommand := READ_P)))
      else AfterRead(cfg, p, now, s, bs)
    case WRITE =>
      AfterWrite(cfg, p, now, s,
        if own then bs.(nextPrecharge := Max(now + cfg.writeToPreDelay, bs.nextPrecharge), lastCommand := WRITE)
            else bs)
    case WRITE_P =>
      if own then
        Sealed(AfterWrite(cfg, p, now, s,
          bs.(nextActivate := Max(now + cfg.writeAutopreDelay, bs.nextActivate), lastCommand := WRITE_P)))
      else AfterWrite(cfg, p, now, s, bs)
    case ACTIVATE =>
      if own then
        bs.(status := ROW_ACTIVE, lastCommand := ACTIVATE, openRow := p.row,
            nextActivate := Max(now + cfg.tRC, bs.nextActivate),
            nextPrecharge := Max(now + cfg.tRAS, bs.nextPrecharge),
            nextRead := Max(now + (cfg.tRCD - cfg.tAL), bs.nextRead),
            nextWrite := Max(now + (cfg.tRCD - cfg.tAL), bs.nextWrite))
      else if s.rank == p.rank then bs.(nextActivate := Max(now + cfg.tRRD, bs.nextActivate))
      else bs
    case PRECHARGE =>
      if own then
        bs.(status := PRECHARGING, lastCommand := PRECHARGE, nextActivate := Max(now + cfg.tRP, bs.nextActivate))
      else bs
    case REFRESH =>
      if s.rank == p.rank then bs.(nextActivate := now + cfg.tRFC, status := REFRESHING, lastCommand := REFRESH)
      else bs
    case DATA => bs
  }

  function Issue(cfg: Config, banks: BankTable, p: Packet, now: int): BankTable {
    map s | s in banks :: IssueBank(cfg, p, now, s, banks[s])
  }

  /** A note from the controller to itself: look at the bank again at this time. */
  datatype Update = Update(slot: Slot, at: int)

  function IssueUpdates(cfg: Config, p: Packet, now: int): seq<Update> {
    match p.kind
    case READ_P => [Update(p.Target(), now + cfg.readToPreDelay)]
    case WRITE_P => [Update(p.Target(), now + cfg.writeToPreDelay)]
    case PRECHARGE => [Update(p.Target(), now + cfg.tRP - 1)]
    case REFRESH => [Update(p.Target(), now + cfg.tRFC - 1)]
    case _ => []
  }

  /** The bank table after the note is read. */
  function Updated(banks: BankTable, u: Update): BankTable
    requires u.slot in banks
  {
    var bank := banks[u.slot];
    match bank.lastCommand
    case READ_P | WRITE_P => banks[u.slot := bank.(status := PRECHARGING, lastCommand := PRECHARGE)]
    case REFRESH => map s | s in banks :: if s.rank == u.slot.rank then banks[s].(status := IDLE) else banks[s]
    case PRECHARGE => banks[u.slot := bank.(status := IDLE)]
    case _ => banks
  }

  function FollowUps(cfg: Config, banks: BankTable, u: Update): seq<Update>
    requires u.slot in banks
  {
    if banks[u.slot].lastCommand.READ_P? || banks[u.slot].lastCommand.WRITE_P?
    then [Update(u.slot, u.at + cfg.tRP - 1)] else []
  }

  // ---------------------------------------------------------------- rank side

  /** Would the rank take the command at time now, or stop the simulation? */
  predicate BankAccepts(p: Packet, now: int, bank: nat, bs: BankState) {
    match p.kind
    case READ | READ_P => bank == p.bank ==> bs.status.ROW_ACTIVE? && now >= bs.nextRead && p.row == bs.openRow
    case WRITE | WRITE_P => bank == p.bank ==> bs.status.ROW_ACTIVE? && now >= bs.nextWrite && p.row == bs.openRow
    case ACTIVATE => bank == p.bank ==> bs.status.IDLE? && now >= bs.nextActivate
    case PRECHARGE => bank == p.bank ==> bs.status.ROW_ACTIVE? && now >= bs.nextPrecharge
    case REFRESH => bs.status.IDLE?
    case DATA => true
  }

  /** The rank's own view of one of its banks after the command. */
  function ArriveBank(cfg: Config, p: Packet, now: int, bank: nat, bs: BankState): BankState {
    var own := bank == p.bank;
    match p.kind
    case READ =>
      var b1 := if own then bs.(nextPrecharge := Max(bs.nextPrecharge, now + cfg.readToPreDelay)) else bs;
      b1.(nextRead := Max(b1.nextRead, now + Max(cfg.tCCD, cfg.tBL / 2)),
          nextWrite := Max(b1.nextWrite, now + cfg.readToWriteDelay))
    case READ_P =>
      var b1 := if own then bs.(status := IDLE, nextActivate := Max(bs.nextActivate, now + cfg.readAutopreDelay))
                else bs;
      b1.(nextRead := Max(b1.nextRead, now + Max(cfg.tCCD, cfg.tBL / 2)),
          nextWrite := Max(b1.nextWrite, now + cfg.readToWriteDelay))
    case WRITE =>
      var b1 := if own then bs.(nextPrecharge := Max(bs.nextPrecharge, now + cfg.writeToPreDelay)) else bs;
      b1.(nextRead := Max(b1.nextRead, now + cfg.writeToReadDelayB),
          nextWrite := Max(b1.nextWrite, now + Max(cfg.tBL / 2, cfg.tCCD)))
    case WRITE_P =>
      var b1 := if own then bs.(status := IDLE, nextActivate := Max(bs.nextActivate, now + cfg.writeAutopreDelay))
                else bs;
      b1.(nextRead := Max(b1.nextRead, now + cfg.writeToReadDelayB),
          nextWrite := Max(b1.nextWrite, now + Max(cfg.tCCD, cfg.tBL / 2)))
    case ACTIVATE =>
      if own then
        bs.(status := ROW_ACTIVE, nextActivate := now + cfg.tRC, openRow := p.row,
            nextWrite := now + (cfg.tRCD - cfg.tAL), nextRead := now + (cfg.tRCD - cfg.tAL),
            nextPrecharge := now + cfg.tRAS)
      else bs.(nextActivate := Max(bs.nextActivate, now + cfg.tRRD))
    case PRECHARGE =>
      if own then bs.(status := IDLE, nextActivate := Max(bs.nextActivate, now + cfg.tRP)) else bs
    case REFRESH => bs.(nextActivate := now + cfg.tRFC)
    case DATA => bs
  }

  ghost predicate Accepts(ranks: BankTable, p: Packet, now: int) {
    forall s | s in ranks && s.rank == p.rank :: BankAccepts(p, now, s.bank, ranks[s])
  }

  /** All ranks' tables together after one of them took the command. */
  function Arrive(cfg: Config, ranks: BankTable, p: Packet, now: int): BankTable {
    map s | s in ranks :: if s.rank == p.rank then ArriveBank(cfg, p, now, s.bank, ranks[s]) else ranks[s]
  }
}

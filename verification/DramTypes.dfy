/** Data shared by the DRAM controller, its command queue and its ranks. */
module DramTypes {

  datatype Option<+T> = None | Some(value: T)

  datatype RowBufferPolicy = OpenPage | ClosePage

  datatype QueuingStructure = PerRank | PerRankPerBank

  datatype SchedulingPolicy = RankThenBankRoundRobin | BankThenRankRoundRobin

  datatype BusPacketType = READ | READ_P | WRITE | WRITE_P | ACTIVATE | PRECHARGE | REFRESH | DATA

  datatype BankStatus = IDLE | ROW_ACTIVE | PRECHARGING | REFRESHING | POWER_DOWN

  /** The fields of the memory configuration that scheduling depends on; all delays are free parameters. */
  datatype Config = Config(
    numRanks: nat,
    numBanks: nat,
    rowBufferPolicy: RowBufferPolicy,
    queuingStructure: QueuingStructure,
    schedulingPolicy: SchedulingPolicy,
    totalRowAccesses: nat,
    tAL: nat, tBL: nat, tCCD: nat, tCMD: nat, tFAW: nat, tRAS: nat, tRC: nat, tRCD: nat,
    tRFC: nat, tRP: nat, tRRD: nat, tRTP: nat, tRTRS: nat, tRL: nat, tWL: nat, tWR: nat, tWTR: nat,
    readToPreDelay: nat, writeToPreDelay: nat, readToWriteDelay: nat,
    readAutopreDelay: nat, writeAutopreDelay: nat,
    writeToReadDelayB: nat, writeToReadDelayR: nat)
  {
    ghost predicate Valid() {
      numRanks >= 1 && numBanks >= 1 && totalRowAccesses >= 1 && tFAW >= 1 && tRFC >= 1
    }

    /** How the program derives the compound delays from the configured ones when it reads the configuration. */
    ghost predicate DelaysDerived() {
      && readToPreDelay == tAL + tBL / 2 + (if tRTP < tCCD then tCCD else tRTP) - tCCD
      && writeToPreDelay == tWL + tBL / 2 + tWR
      && readToWriteDelay == tRL + tBL / 2 + tRTRS - tWL
      && readAutopreDelay == tAL + tRTP + tRP
      && writeAutopreDelay == tWL + tBL / 2 + tWR + tRP
      && writeToReadDelayB == tWL + tBL / 2 + tWTR
      && writeToReadDelayR == tWL + tBL / 2 + tRTRS - tRL
    }
  }

  /** A bank, named by its rank and its number within the rank: an index pair of the source's two-dimensional tables. */
  datatype Slot = Slot(rank: nat, bank: nat)

  predicate InRange(cfg: Config, s: Slot) {
    s.rank < cfg.numRanks && s.bank < cfg.numBanks
  }

  datatype Packet = Packet(
    row: int, column: int, bank: nat, rank: nat, physicalAddress: int, kind: BusPacketType, testid: int)
  {
    function Target(): Slot {
      Slot(rank, bank)
    }

    /** A read or a write, with or without auto-precharge. */
    predicate IsColumn() {
      kind.READ? || kind.READ_P? || kind.WRITE? || kind.WRITE_P?
    }

    /** The ACTIVATE that the controller clones from a transaction. */
    function Act(): Packet {
      this.(kind := ACTIVATE)
    }
  }

  /** One bank as the controller, or as its rank, sees it. */
  datatype BankState = BankState(
    status: BankStatus,
    openRow: int,
    nextRead: int,
    nextWrite: int,
    nextActivate: int,
    nextPrecharge: int,
    lastCommand: BusPacketType)

  const FRESH_BANK := BankState(IDLE, 0, 0, 0, 0, 0, READ)

  type BankTable = map<Slot, BankState>

  ghost predicate Covers<T>(cfg: Config, m: map<Slot, T>) {
    forall s :: s in m <==> InRange(cfg, s)
  }

  function Max(a: int, b: int): int {
    if a < b then b else a
  }
}

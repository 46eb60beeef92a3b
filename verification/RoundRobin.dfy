/** The order in which queues and banks are asked: one cycle through all of them. */
module RoundRobin {
  import opened DramTypes
  import opened CommandQueueSpec

  /** Place of a bank in the round: rank-major or bank-major. */
  function Place(cfg: Config, s: Slot): int {
    match cfg.schedulingPolicy
    case RankThenBankRoundRobin => s.bank * cfg.numRanks + s.rank
    case BankThenRankRoundRobin => s.rank * cfg.numBanks + s.bank
  }

  lemma TotalPositive(cfg: Config)
    requires cfg.Valid()
    ensures Total(cfg) >= 1
  {
  }

  lemma DigitsBound(hi: nat, lo: nat, n: nat, base: nat)
    requires hi < n && lo < base
    ensures 0 <= hi * base + lo < n * base
    ensures hi * base + lo == n * base - 1 <==> hi == n - 1 && lo == base - 1
  {
    assert (hi + 1) * base <= n * base;
    if hi < n - 1 {
      assert (hi + 2) * base <= n * base;
    }
  }

  lemma DigitsOrdered(h1: nat, l1: nat, h2: nat, base: nat)
    requires l1 < base
    ensures h1 < h2 ==> h1 * base + l1 < h2 * base
  {
    if h1 < h2 {
      assert (h1 + 1) * base <= h2 * base;
    }
  }

  lemma DigitsInjective(h1: nat, l1: nat, h2: nat, l2: nat, base: nat)
    requires l1 < base && l2 < base && h1 * base + l1 == h2 * base + l2
    ensures h1 == h2 && l1 == l2
  {
    DigitsOrdered(h1, l1, h2, base);
    DigitsOrdered(h2, l2, h1, base);
  }

  /** Counting on by one in a number of two digits. */
  lemma DigitsSucc(hi: nat, lo: nat, n: nat, base: nat)
    requires hi < n && lo < base
    ensures hi * base + lo + 1 == n * base <==> hi == n - 1 && lo == base - 1
    ensures lo + 1 == base ==> (hi + 1) * base == hi * base + lo + 1
  {
    DigitsBound(hi, lo, n, base);
  }

  lemma ModSucc(r: nat, n: nat)
    requires r < n
    ensures (r + 1) % n == if r + 1 == n then 0 else r + 1
  {
  }

  lemma PlaceBounds(cfg: Config, s: Slot)
    requires InRange(cfg, s)
    ensures 0 <= Place(cfg, s) < Total(cfg)
  {
    match cfg.schedulingPolicy
    case RankThenBankRoundRobin => DigitsBound(s.bank, s.rank, cfg.numBanks, cfg.numRanks);
    case BankThenRankRoundRobin => DigitsBound(s.rank, s.bank, cfg.numRanks, cfg.numBanks);
  }

  lemma PlaceInjective(cfg: Config, s: Slot, t: Slot)
    requires InRange(cfg, s) && InRange(cfg, t) && Place(cfg, s) == Place(cfg, t)
    ensures s == t
  {
    match cfg.schedulingPolicy
    case RankThenBankRoundRobin => DigitsInjective(s.bank, s.rank, t.bank, t.rank, cfg.numRanks);
    case BankThenRankRoundRobin => DigitsInjective(s.rank, s.bank, t.rank, t.bank, cfg.numBanks);
  }

  lemma NextPlace(cfg: Config, s: Slot)
    requires InRange(cfg, s)
    ensures Place(cfg, NextRankAndBank(cfg, s)) ==
            if Place(cfg, s) + 1 == Total(cfg) then 0 else Place(cfg, s) + 1
  {
    match cfg.schedulingPolicy
    case RankThenBankRoundRobin => DigitsSucc(s.bank, s.rank, cfg.numBanks, cfg.numRanks);
    case BankThenRankRoundRobin => DigitsSucc(s.rank, s.bank, cfg.numRanks, cfg.numBanks);
  }

  /** The bank that is asked after k steps from s. */
  function NthBank(cfg: Config, s: Slot, k: nat): (n: Slot)
    requires InRange(cfg, s)
    ensures InRange(cfg, n)
  {
    if k == 0 then s else NextRankAndBank(cfg, NthBank(cfg, s, k - 1))
  }

  function NthQueue(cfg: Config, s: Slot, k: nat): (n: Slot)
    requires InRange(cfg, s)
    ensures InRange(cfg, n)
  {
    if k == 0 then s else ScanNext(cfg, NthQueue(cfg, s, k - 1))
  }

  function Wrap(a: int, n: int): int {
    if a < n then a else a - n
  }

  lemma {:induction false} NthBankPlace(cfg: Config, s: Slot, k: nat)
    requires InRange(cfg, s) && k <= Total(cfg)
    ensures Place(cfg, NthBank(cfg, s, k)) == Wrap(Place(cfg, s) + k, Total(cfg))
  {
    PlaceBounds(cfg, s);
    if k > 0 {
      NthBankPlace(cfg, s, k - 1);
      NextPlace(cfg, NthBank(cfg, s, k - 1));
    }
  }

  /** The round closes after exactly Total steps, not earlier. */
  lemma NthBankCycles(cfg: Config, s: Slot, k: nat)
    requires InRange(cfg, s) && k < Total(cfg)
    ensures NthBank(cfg, s, k + 1) == s <==> k + 1 == Total(cfg)
  {
    PlaceBounds(cfg, s);
    NthBankPlace(cfg, s, k + 1);
    if k + 1 == Total(cfg) {
      PlaceInjective(cfg, NthBank(cfg, s, k + 1), s);
    }
  }

  /** Every bank is reached within one round. */
  lemma NthBankReaches(cfg: Config, s: Slot, t: Slot) returns (k: nat)
    requires InRange(cfg, s) && InRange(cfg, t)
    ensures k < Total(cfg) && NthBank(cfg, s, k) == t
  {
    PlaceBounds(cfg, s);
    PlaceBounds(cfg, t);
    var d := Place(cfg, t) - Place(cfg, s);
    k := if d >= 0 then d else d + Total(cfg);
    NthBankPlace(cfg, s, k);
    PlaceInjective(cfg, NthBank(cfg, s, k), t);
  }

  lemma {:induction false} NthQueuePlace(cfg: Config, s: Slot, k: nat)
    requires InRange(cfg, s) && k <= ScanLength(cfg)
    ensures if cfg.queuingStructure.PerRank?
            then NthQueue(cfg, s, k) == Slot(Wrap(s.rank + k, cfg.numRanks), s.bank)
            else NthQueue(cfg, s, k) == NthBank(cfg, s, k)
  {
    if k > 0 {
      NthQueuePlace(cfg, s, k - 1);
      if cfg.queuingStructure.PerRank? {
        ModSucc(Wrap(s.rank + k - 1, cfg.numRanks), cfg.numRanks);
      }
    }
  }

  lemma NthQueueCycles(cfg: Config, s: Slot, k: nat)
    requires InRange(cfg, s) && k < ScanLength(cfg)
    ensures NthQueue(cfg, s, k + 1) == s <==> k + 1 == ScanLength(cfg)
  {
    NthQueuePlace(cfg, s, k + 1);
    if cfg.queuingStructure.PerRankPerBank? {
      NthBankCycles(cfg, s, k);
    }
  }

  /** Every queue is asked within one scan. */
  lemma NthQueueReaches(cfg: Config, s: Slot, t: Slot) returns (k: nat)
    requires InRange(cfg, s) && InRange(cfg, t)
    ensures k < ScanLength(cfg) && QueueKey(cfg, NthQueue(cfg, s, k)) == QueueKey(cfg, t)
    ensures NthQueue(cfg, s, k).rank == t.rank
  {
    if cfg.queuingStructure.PerRank? {
      var d := t.rank - s.rank;
      k := if d >= 0 then d else d + cfg.numRanks;
      NthQueuePlace(cfg, s, k);
    } else {
      k := NthBankReaches(cfg, s, t);
      NthQueuePlace(cfg, s, k);
    }
  }
}

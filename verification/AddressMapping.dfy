/** How a physical byte address is cut into channel, column, bank, rank and row. */
module AddressMapping {
  // Addresses are unsigned 64-bit words, and the logarithms of the (power of two) dimensions are given as bit counts.

  import opened DramTypes

  function Pow2(k: nat): (p: nat)
    ensures p >= 1
  {
    if k == 0 then 1 else 2 * Pow2(k - 1)
  }

  /** Exclusive or, bit by bit. */
  function Xor(a: nat, b: nat): nat
    decreases a + b
  {
    if a == 0 && b == 0 then 0 else 2 * Xor(a / 2, b / 2) + (a % 2 + b % 2) % 2
  }

  lemma {:induction false} XorSelf(a: nat)
    ensures Xor(a, a) == 0
  {
    if a > 0 {
      XorSelf(a / 2);
    }
  }

  /** Unsigned shift to the right by k bits. */
  function ShiftRight(a: nat, k: nat): nat
    decreases k
  {
    if k == 0 then a else ShiftRight(a / 2, k - 1)
  }

  /** Shift to the left by k bits. */
  function ShiftLeft(a: nat, k: nat): nat {
    if k == 0 then a else 2 * ShiftLeft(a, k - 1)
  }

  /** The low k bits. */
  function Low(a: nat, k: nat): nat
    decreases k
  {
    if k == 0 then 0 else 2 * Low(a / 2, k - 1) + a % 2
  }

  /** The word with its low k bits cleared: shifted right and back. */
  function Cleared(a: nat, k: nat): nat {
    ShiftLeft(ShiftRight(a, k), k)
  }

  lemma XorStep(a: nat, c: nat)
    ensures Xor(a, c) == 2 * Xor(a / 2, c / 2) + (a % 2 + c % 2) % 2
  {
  }

  /** Clearing the low k bits of a word and taking the exclusive or with the word leaves just these bits. */
  lemma {:induction false} XorIsLowBits(a: nat, k: nat)
    ensures Xor(a, Cleared(a, k)) == Low(a, k)
    decreases k
  {
    if k == 0 {
      XorSelf(a);
    } else {
      XorIsLowBits(a / 2, k - 1);
      assert Cleared(a, k) == 2 * Cleared(a / 2, k - 1);
      hide Cleared, Xor;
      XorStep(a, Cleared(a, k));
    }
  }

  /** One decoding step: the low bits as a field, and the word that remains. */
  function Split(a: nat, bits: nat): (nat, nat) {
    (Xor(a, Cleared(a, bits)), ShiftRight(a, bits))
  }

  function Join(high: nat, bits: nat, f: nat): nat {
    ShiftLeft(high, bits) + f
  }

  lemma {:induction false} ShiftJoins(a: nat, bits: nat)
    ensures a == Join(ShiftRight(a, bits), bits, Low(a, bits)) && Low(a, bits) < Pow2(bits)
    decreases bits
  {
    if bits > 0 {
      ShiftJoins(a / 2, bits - 1);
    }
  }

  lemma {:induction false} JoinShifts(f: nat, rest: nat, bits: nat)
    requires f < Pow2(bits)
    ensures ShiftRight(Join(rest, bits, f), bits) == rest && Low(Join(rest, bits, f), bits) == f
    decreases bits
  {
    if bits > 0 {
      JoinShifts(f / 2, rest, bits - 1);
      var j := Join(rest, bits - 1, f / 2);
      assert Join(rest, bits, f) == 2 * j + f % 2;
      assert Join(rest, bits, f) / 2 == j;
    }
  }

  lemma SplitJoins(a: nat, bits: nat)
    ensures Split(a, bits).0 < Pow2(bits) && a == Join(Split(a, bits).1, bits, Split(a, bits).0)
  {
    XorIsLowBits(a, bits);
    ShiftJoins(a, bits);
  }

  lemma JoinSplits(f: nat, rest: nat, bits: nat)
    requires f < Pow2(bits)
    ensures Split(Join(rest, bits, f), bits) == (f, rest)
    ensures ShiftRight(Join(rest, bits, f), bits) == rest && Low(Join(rest, bits, f), bits) == f
  {
    JoinShifts(f, rest, bits);
    XorIsLowBits(Join(rest, bits, f), bits);
  }

  /** Bit counts of the geometry; offset covers the bus width and the burst, col what the burst leaves. */
  datatype Geometry = Geometry(offset: nat, chan: nat, col: nat, bank: nat, rank: nat, row: nat)

  datatype Fields = Fields(chan: nat, col: nat, bank: nat, rank: nat, row: nat)

  predicate Fit(g: Geometry, f: Fields) {
    f.chan < Pow2(g.chan) && f.col < Pow2(g.col) && f.bank < Pow2(g.bank) && f.rank < Pow2(g.rank) &&
        f.row < Pow2(g.row)
  }

  /** The fields of an address, and the high bits that no field uses. */
  function Decode(policy: RowBufferPolicy, g: Geometry, address: nat): (Fields, nat) {
    var a0 := ShiftRight(address, g.offset);
    var (chan, a1) := Split(a0, g.chan);
    match policy
    case OpenPage =>
      var (col, a2) := Split(a1, g.col);
      var (bank, a3) := Split(a2, g.bank);
      var (rank, a4) := Split(a3, g.rank);
      var (row, a5) := Split(a4, g.row);
      (Fields(chan, col, bank, rank, row), a5)
    case ClosePage =>
      var (bank, a2) := Split(a1, g.bank);
      var (rank, a3) := Split(a2, g.rank);
      var (col, a4) := Split(a3, g.col);
      var (row, a5) := Split(a4, g.row);
      (Fields(chan, col, bank, rank, row), a5)
  }

  /** The address with these fields, unused high bits and dropped low bits. */
  function Compose(policy: RowBufferPolicy, g: Geometry, f: Fields, high: nat, low: nat): nat {
    var upper := match policy
      case OpenPage => Join(Join(Join(Join(high, g.row, f.row), g.rank, f.rank), g.bank, f.bank), g.col, f.col)
      case ClosePage => Join(Join(Join(Join(high, g.row, f.row), g.col, f.col), g.rank, f.rank), g.bank, f.bank);
    Join(Join(upper, g.chan, f.chan), g.offset, low)
  }

  // ---------------------------------------------------------------- where the fields are

  lemma Doubled(x: int, y: int)
    ensures 2 * (x * y) == (2 * x) * y && x * y == y * x && (2 * x) * y == y * (2 * x)
  {
  }

  lemma {:induction false} Pow2Sum(a: nat, b: nat)
    ensures Pow2(a + b) == Pow2(a) * Pow2(b)
  {
    if a > 0 {
      assert Pow2(a) == 2 * Pow2(a - 1) && Pow2(a + b) == 2 * Pow2(a - 1 + b);
      hide Pow2;
      Pow2Sum(a - 1, b);
      Doubled(Pow2(a - 1), Pow2(b));
    }
  }

  lemma {:induction false} ShiftIsTimes(a: nat, k: nat)
    ensures ShiftLeft(a, k) == a * Pow2(k)
  {
    if k > 0 {
      assert Pow2(k) == 2 * Pow2(k - 1);
      hide Pow2;
      ShiftIsTimes(a, k - 1);
      Doubled(Pow2(k - 1), a);
    }
  }

  lemma Distributed(h: int, p: int, f: int, s: int)
    ensures (h * p + f) * s == h * (p * s) + f * s
  {
  }

  /** A joined word from bit s on: its low field stays there, the rest moves up. */
  lemma JoinAt(high: nat, bits: nat, f: nat, s: nat)
    ensures Join(high, bits, f) * Pow2(s) == high * Pow2(s + bits) + f * Pow2(s)
  {
    hide Pow2, ShiftLeft;
    ShiftIsTimes(high, bits);
    Pow2Sum(bits, s);
    Distributed(high, Pow2(bits), f, Pow2(s));
  }

  /** The lowest bit of each field: open page keeps neighbouring bursts in a row, close page spreads them over banks. */
  function BankBit(policy: RowBufferPolicy, g: Geometry): nat {
    match policy
    case OpenPage => g.offset + g.chan + g.col
    case ClosePage => g.offset + g.chan
  }

  function RankBit(policy: RowBufferPolicy, g: Geometry): nat {
    match policy
    case OpenPage => g.offset + g.chan + g.col + g.bank
    case ClosePage => g.offset + g.chan + g.bank
  }

  function ColumnBit(policy: RowBufferPolicy, g: Geometry): nat {
    match policy
    case OpenPage => g.offset + g.chan
    case ClosePage => g.offset + g.chan + g.bank + g.rank
  }

  function RowBit(g: Geometry): nat {
    g.offset + g.chan + g.col + g.bank + g.rank
  }

  /** The address is the sum of its fields, each at its own bit. */
  lemma FieldsByPosition(policy: RowBufferPolicy, g: Geometry, address: nat)
    ensures var (f, high) := Decode(policy, g, address);
            address == high * Pow2(RowBit(g) + g.row) + f.row * Pow2(RowBit(g)) +
                       f.rank * Pow2(RankBit(policy, g)) + f.bank * Pow2(BankBit(policy, g)) +
                       f.col * Pow2(ColumnBit(policy, g)) + f.chan * Pow2(g.offset) + Low(address, g.offset)
  {
    DecodeComposes(policy, g, address);
    var (f, high) := Decode(policy, g, address);
    hide Decode, Join, Low, Pow2, Fit;
    var b := g.offset + g.chan;
    var top := Join(high, g.row, f.row);
    JoinAt(high, g.row, f.row, RowBit(g));
    var upper: nat;
    match policy {
      case OpenPage =>
        var r := Join(top, g.rank, f.rank);
        var k := Join(r, g.bank, f.bank);
        upper := Join(k, g.col, f.col);
        JoinAt(k, g.col, f.col, b);
        JoinAt(r, g.bank, f.bank, b + g.col);
        JoinAt(top, g.rank, f.rank, b + g.col + g.bank);
      case ClosePage =>
        var c := Join(top, g.col, f.col);
        var r := Join(c, g.rank, f.rank);
        upper := Join(r, g.bank, f.bank);
        JoinAt(r, g.bank, f.bank, b);
        JoinAt(c, g.rank, f.rank, b + g.bank);
        JoinAt(top, g.col, f.col, b + g.bank + g.rank);
        assert b + g.bank + g.rank + g.col == RowBit(g);
    }
    JoinAt(upper, g.chan, f.chan, g.offset);
    JoinAt(Join(upper, g.chan, f.chan), g.offset, Low(address, g.offset), 0);
    PowZero();
  }

  lemma PowZero()
    ensures Pow2(0) == 1
  {
  }

  /** The channel that a cache routes a request to. */
  function FindChannelNumber(g: Geometry, address: nat): nat {
    Split(ShiftRight(address, g.offset), g.chan).0
  }

  /** Decoding loses nothing but the dropped bits: every field is in range and they recompose to the address. */
  lemma DecodeComposes(policy: RowBufferPolicy, g: Geometry, address: nat)
    ensures var (f, high) := Decode(policy, g, address);
            Fit(g, f) && Compose(policy, g, f, high, Low(address, g.offset)) == address
  {
    hide Join, Split, ShiftRight, Low;
    ShiftJoins(address, g.offset);
    var a0 := ShiftRight(address, g.offset);
    SplitJoins(a0, g.chan);
    var a1 := Split(a0, g.chan).1;
    match policy {
      case OpenPage =>
        SplitJoins(a1, g.col);
        var a2 := Split(a1, g.col).1;
        SplitJoins(a2, g.bank);
        var a3 := Split(a2, g.bank).1;
        SplitJoins(a3, g.rank);
        SplitJoins(Split(a3, g.rank).1, g.row);
      case ClosePage =>
        SplitJoins(a1, g.bank);
        var a2 := Split(a1, g.bank).1;
        SplitJoins(a2, g.rank);
        var a3 := Split(a2, g.rank).1;
        SplitJoins(a3, g.col);
        SplitJoins(Split(a3, g.col).1, g.row);
    }
  }

  /** Every combination of in-range fields is the decoding of an address: of exactly one, the other bits given. */
  lemma ComposeDecodes(policy: RowBufferPolicy, g: Geometry, f: Fields, high: nat, low: nat)
    requires Fit(g, f) && low < Pow2(g.offset)
    ensures Decode(policy, g, Compose(policy, g, f, high, low)) == (f, high)
    ensures Low(Compose(policy, g, f, high, low), g.offset) == low
  {
    hide Join, Split, ShiftRight, Low;
    var top := Join(high, g.row, f.row);
    JoinSplits(f.row, high, g.row);
    var upper: nat;
    match policy {
      case OpenPage =>
        JoinSplits(f.rank, top, g.rank);
        var r := Join(top, g.rank, f.rank);
        JoinSplits(f.bank, r, g.bank);
        var b := Join(r, g.bank, f.bank);
        JoinSplits(f.col, b, g.col);
        upper := Join(b, g.col, f.col);
      case ClosePage =>
        JoinSplits(f.col, top, g.col);
        var c := Join(top, g.col, f.col);
        JoinSplits(f.rank, c, g.rank);
        var r := Join(c, g.rank, f.rank);
        JoinSplits(f.bank, r, g.bank);
        upper := Join(r, g.bank, f.bank);
    }
    JoinSplits(f.chan, upper, g.chan);
    JoinSplits(low, Join(upper, g.chan, f.chan), g.offset);
  }

  /** Under both policies the channel field is the channel the cache has routed the request to. */
  lemma ChannelIsRoute(policy: RowBufferPolicy, g: Geometry, address: nat)
    ensures Decode(policy, g, address).0.chan == FindChannelNumber(g, address)
    ensures FindChannelNumber(g, address) == Low(ShiftRight(address, g.offset), g.chan)
  {
    XorIsLowBits(ShiftRight(address, g.offset), g.chan);
  }

  /** Two addresses with the same fields, high bits and low bits are equal. */
  lemma DecodeInjective(policy: RowBufferPolicy, g: Geometry, a: nat, b: nat)
    requires Decode(policy, g, a) == Decode(policy, g, b) && Low(a, g.offset) == Low(b, g.offset)
    ensures a == b
  {
    DecodeComposes(policy, g, a);
    DecodeComposes(policy, g, b);
  }
}

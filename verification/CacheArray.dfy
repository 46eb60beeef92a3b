/** The line array of a set-associative cache: lookup, fill with replacement, and the guard in front of a fill. */
module CacheArray {

  datatype MESI = MODIFIED | EXCLUSIVE | SHARED | INVALID

  datatype Line = Line(tag: int, address: int, timestamp: int, state: MESI)
  {
    predicate IsValid() { state != INVALID }
  }

  const EMPTY_LINE := Line(-1, -1, 0, INVALID)

  /** sets = 2^numSetsBits, block = 2^blockSizeBits; nuca tells whether the cache is a NUCA bank. */
  datatype Geometry = Geometry(sets: nat, block: nat, assoc: nat, nuca: bool)
  {
    ghost predicate Valid() { sets >= 1 && block >= 1 && assoc >= 1 }
  }

  function BlockOf(g: Geometry, addr: int): int
    requires g.block >= 1
  {
    addr / g.block
  }

  function ComputeTag(g: Geometry, addr: nat): nat
    requires g.sets >= 1 && g.block >= 1
  {
    BlockOf(g, addr) / g.sets
  }

  function GetStartIdx(g: Geometry, addr: nat): (s: nat)
    requires g.sets >= 1 && g.block >= 1
    ensures s < g.sets
  {
    BlockOf(g, addr) % g.sets
  }

  function GetNextIdx(g: Geometry, startIdx: nat, idx: nat): nat {
    startIdx + idx * g.sets
  }

  /** Tag and set together name the block. */
  lemma TagAndSetNameBlock(g: Geometry, a: nat, b: nat)
    requires g.Valid()
    ensures ComputeTag(g, a) == ComputeTag(g, b) && GetStartIdx(g, a) == GetStartIdx(g, b)
            <==> BlockOf(g, a) == BlockOf(g, b)
  {
    var x, y := BlockOf(g, a), BlockOf(g, b);
    assert x == g.sets * (x / g.sets) + x % g.sets;
    assert y == g.sets * (y / g.sets) + y % g.sets;
  }

  lemma DivUnique(a: int, d: int, q: int, r: int)
    requires d > 0 && a == q * d + r && 0 <= r < d
    ensures a / d == q && a % d == r
  {
    var p := a / d;
    assert a == p * d + a % d;
    Apart(q - p, d);
    assert (q - p) * d == q * d - p * d;
  }

  lemma Apart(k: int, d: int)
    requires d > 0
    ensures k >= 1 ==> k * d >= d
    ensures k <= -1 ==> k * d <= -d
  {
  }

  /** The places of a set, and no other, have its number as remainder. */
  lemma PlaceOfSet(g: Geometry, set': nat, idx: nat)
    requires g.Valid() && set' < g.sets && idx < g.assoc
    ensures GetNextIdx(g, set', idx) < g.assoc * g.sets
    ensures GetNextIdx(g, set', idx) % g.sets == set' && GetNextIdx(g, set', idx) / g.sets == idx
  {
    DivUnique(GetNextIdx(g, set', idx), g.sets, idx, set');
    Apart(g.assoc - idx, g.sets);
    assert (g.assoc - idx) * g.sets == g.assoc * g.sets - idx * g.sets;
  }

  lemma PlaceFromIndex(g: Geometry, i: nat)
    requires g.Valid() && i < g.assoc * g.sets
    ensures i / g.sets < g.assoc && GetNextIdx(g, i % g.sets, i / g.sets) == i
  {
    var q := i / g.sets;
    assert i == q * g.sets + i % g.sets;
    Apart(q - g.assoc + 1, g.sets);
    assert (q - g.assoc + 1) * g.sets == q * g.sets - g.assoc * g.sets + g.sets;
  }

  ghost predicate Sized(g: Geometry, lines: seq<Line>) {
    g.Valid() && |lines| == g.assoc * g.sets
  }

  /** The way of a set, as a line. */
  function Way(g: Geometry, lines: seq<Line>, set': nat, idx: nat): Line
    requires Sized(g, lines) && set' < g.sets && idx < g.assoc
  {
    PlaceOfSet(g, set', idx);
    lines[GetNextIdx(g, set', idx)]
  }

  lemma WayAt(g: Geometry, lines: seq<Line>, i: nat)
    requires Sized(g, lines) && i < |lines|
    ensures i / g.sets < g.assoc && Way(g, lines, i % g.sets, i / g.sets) == lines[i]
  {
    PlaceFromIndex(g, i);
  }

  // ---------------------------------------------------------------- what a fill chooses

  predicate Locked(g: Geometry, locked: set<int>, l: Line)
    requires g.block >= 1
  {
    BlockOf(g, l.address) in locked
  }

  /** The first way from idx on that carries the tag; assoc if there is none. */
  function FindTag(g: Geometry, lines: seq<Line>, set': nat, tag: int, idx: nat): (k: nat)
    requires Sized(g, lines) && set' < g.sets && idx <= g.assoc
    ensures idx <= k <= g.assoc
    ensures k < g.assoc ==> Way(g, lines, set', k).tag == tag
    ensures forall j | idx <= j < k :: Way(g, lines, set', j).tag != tag
    decreases g.assoc - idx
  {
    if idx == g.assoc || Way(g, lines, set', idx).tag == tag then idx else FindTag(g, lines, set', tag, idx + 1)
  }

  /** May the line be overwritten without an eviction? */
  predicate Vacant(g: Geometry, locked: set<int>, l: Line)
    requires g.block >= 1
  {
    !l.IsValid() && (g.nuca || !Locked(g, locked, l))
  }

  function FindVacant(g: Geometry, lines: seq<Line>, locked: set<int>, set': nat, idx: nat): (k: nat)
    requires Sized(g, lines) && set' < g.sets && idx <= g.assoc
    ensures idx <= k <= g.assoc
    ensures k < g.assoc ==> Vacant(g, locked, Way(g, lines, set', k))
    ensures forall j | idx <= j < k :: !Vacant(g, locked, Way(g, lines, set', j))
    decreases g.assoc - idx
  {
    if idx == g.assoc || Vacant(g, locked, Way(g, lines, set', idx)) then idx
    else FindVacant(g, lines, locked, set', idx + 1)
  }

  /** Among the first n ways, the first of the unlocked ones with the least time stamp; assoc if all are locked. */
  function FindOldest(g: Geometry, lines: seq<Line>, locked: set<int>, set': nat, n: nat): (k: nat)
    requires Sized(g, lines) && set' < g.sets && n <= g.assoc
    ensures k < n || k == g.assoc
    ensures k == g.assoc ==> forall j | 0 <= j < n :: Locked(g, locked, Way(g, lines, set', j))
    ensures k < g.assoc ==> !Locked(g, locked, Way(g, lines, set', k))
    ensures k < g.assoc ==> forall j | 0 <= j < n && !Locked(g, locked, Way(g, lines, set', j)) ::
              Way(g, lines, set', k).timestamp <= Way(g, lines, set', j).timestamp
  {
    if n == 0 then g.assoc
    else
      var b := FindOldest(g, lines, locked, set', n - 1);
      var l := Way(g, lines, set', n - 1);
      if Locked(g, locked, l) then b
      else if b == g.assoc || Way(g, lines, set', b).timestamp > l.timestamp then n - 1
      else b
  }

  /** Hit: the block is there. Free: a vacant line. Evict: the oldest unlocked line. Stuck: the program stops. */
  datatype Choice = Hit(way: nat) | Free(way: nat) | Evict(way: nat) | Stuck

  function Choose(g: Geometry, lines: seq<Line>, locked: set<int>, addr: nat): (c: Choice)
    requires Sized(g, lines)
    ensures !c.Stuck? ==> c.way < g.assoc
  {
    var s := GetStartIdx(g, addr);
    var h := FindTag(g, lines, s, ComputeTag(g, addr), 0);
    var v := FindVacant(g, lines, locked, s, 0);
    var o := FindOldest(g, lines, locked, s, g.assoc);
    if h < g.assoc then Hit(h) else if v < g.assoc then Free(v) else if o < g.assoc then Evict(o) else Stuck
  }

  /** Where the new line goes. */
  function Place(g: Geometry, lines: seq<Line>, locked: set<int>, addr: nat): (i: nat)
    requires Sized(g, lines) && !Choose(g, lines, locked, addr).Stuck?
    ensures i < |lines| && i % g.sets == GetStartIdx(g, addr)
  {
    var c := Choose(g, lines, locked, addr);
    PlaceOfSet(g, GetStartIdx(g, addr), c.way);
    GetNextIdx(g, GetStartIdx(g, addr), c.way)
  }

  function Filled(g: Geometry, lines: seq<Line>, locked: set<int>, addr: nat, state: MESI, now: int): (r: seq<Line>)
    requires Sized(g, lines) && !Choose(g, lines, locked, addr).Stuck?
    ensures Sized(g, r)
  {
    lines[Place(g, lines, locked, addr) := Line(ComputeTag(g, addr), addr, now, state)]
  }

  /** Lookup: the way that carries the address's tag. */
  function Access(g: Geometry, lines: seq<Line>, addr: nat): (k: nat)
    requires Sized(g, lines)
    ensures k <= g.assoc
  {
    FindTag(g, lines, GetStartIdx(g, addr), ComputeTag(g, addr), 0)
  }

  /** The place that a successful lookup names. */
  function Found(g: Geometry, lines: seq<Line>, addr: nat): (i: nat)
    requires Sized(g, lines) && Access(g, lines, addr) < g.assoc
    ensures i < |lines| && i % g.sets == GetStartIdx(g, addr) && lines[i].tag == ComputeTag(g, addr)
  {
    PlaceOfSet(g, GetStartIdx(g, addr), Access(g, lines, addr));
    GetNextIdx(g, GetStartIdx(g, addr), Access(g, lines, addr))
  }

  /** A hit needs a line that is present and valid. */
  predicate Hits(g: Geometry, lines: seq<Line>, addr: nat)
    requires Sized(g, lines)
  {
    Access(g, lines, addr) < g.assoc && lines[Found(g, lines, addr)].IsValid()
  }

  /** The lines after the one that is hit was marked. */
  function Marked(g: Geometry, lines: seq<Line>, addr: nat, now: int): (r: seq<Line>)
    requires Sized(g, lines) && Hits(g, lines, addr)
    ensures Sized(g, r)
  {
    var i := Found(g, lines, addr);
    lines[i := lines[i].(timestamp := now)]
  }

  /** The lines after coherence changed the state of the one that is present, if any. */
  function Restated(g: Geometry, lines: seq<Line>, addr: nat, state: MESI): (r: seq<Line>)
    requires Sized(g, lines)
    ensures Sized(g, r)
  {
    if Access(g, lines, addr) == g.assoc then lines
    else
      var i := Found(g, lines, addr);
      lines[i := lines[i].(state := state)]
  }

  // ---------------------------------------------------------------- the cache

  class Cache {
    const g: Geometry
    const lines: array<Line>
    var timestamp: int

    ghost predicate Valid()
      reads this, lines
    {
      Sized(g, lines[..]) && Consistent(g, lines[..], timestamp)
    }

    constructor (g: Geometry)
      requires g.Valid()
      ensures this.g == g && Valid() && timestamp == 0 && fresh(lines)
      ensures forall i | 0 <= i < lines.Length :: lines[i] == EMPTY_LINE
    {
      this.g := g;
      lines := new Line[g.assoc * g.sets](_ => EMPTY_LINE);
      timestamp := 0;
    }

    /** The place of the line that holds the address, if there is one. */
    method Lookup(addr: nat) returns (found: bool, index: nat)
      requires Sized(g, lines[..])
      ensures found == (Access(g, lines[..], addr) < g.assoc)
      ensures found ==> index == Found(g, lines[..], addr)
    {
      var startIdx := GetStartIdx(g, addr);
      var tag := ComputeTag(g, addr);
      var idx := 0;
      found, index := false, 0;
      while idx < g.assoc
        invariant idx <= g.assoc
        invariant Access(g, lines[..], addr) == FindTag(g, lines[..], startIdx, tag, idx)
      {
        PlaceOfSet(g, startIdx, idx);
        index := GetNextIdx(g, startIdx, idx);
        if lines[index].tag == tag {
          found := true;
          return;
        }
        idx := idx + 1;
      }
    }

    /** A hit moves the line to the most recent position. */
    method AccessAndMark(addr: nat) returns (hit: bool)
      requires Valid()
      modifies lines, this`timestamp
      ensures Valid()
      ensures hit == Hits(g, old(lines[..]), addr)
      ensures hit <==> exists i ::
          && 0 <= i < lines.Length
          && Holds(g, old(lines[..]), i, BlockOf(g, addr)) && old(lines[..])[i].state != INVALID
      ensures lines[..] == if hit then Marked(g, old(lines[..]), addr, old(timestamp)) else old(lines[..])
      ensures timestamp == if hit then old(timestamp) + 1 else old(timestamp)
    {
      ghost var was := lines[..];
      HitsMeaning(g, was, timestamp, addr);
      var found, i := Lookup(addr);
      hit := found && lines[i].IsValid();
      if hit {
        MarkConsistent(g, lines[..], timestamp, i);
        lines[i] := lines[i].(timestamp := timestamp);
        assert lines[..] == was[i := was[i].(timestamp := timestamp)];
        timestamp := timestamp + 1;
      }
    }

    /** Coherence changes the state of a line that is present, whatever its state. */
    method UpdateStateOfCacheLine(addr: nat, newState: MESI)
      requires Valid()
      modifies lines
      ensures Valid()
      ensures lines[..] == Restated(g, old(lines[..]), addr, newState)
      ensures forall i | 0 <= i < lines.Length ::
                lines[i] == if Holds(g, old(lines[..]), i, BlockOf(g, addr)) then old(lines[i]).(state := newState)
                            else old(lines[i])
    {
      ghost var was := lines[..];
      forall i | 0 <= i < lines.Length
        ensures Restated(g, was, addr, newState)[i] ==
                if Holds(g, was, i, BlockOf(g, addr)) then was[i].(state := newState) else was[i]
      {
        RestatedMeaning(g, was, timestamp, addr, newState, i);
      }
      var found, i := Lookup(addr);
      if found {
        StateConsistent(g, lines[..], timestamp, i, newState, addr);
        lines[i] := lines[i].(state := newState);
        assert lines[..] == was[i := was[i].(state := newState)];
      }
    }

    method FindVacantWay(locked: set<int>, startIdx: nat) returns (k: nat)
      requires Sized(g, lines[..]) && startIdx < g.sets
      ensures k == FindVacant(g, lines[..], locked, startIdx, 0)
    {
      k := 0;
      while k < g.assoc
        invariant k <= g.assoc
        invariant FindVacant(g, lines[..], locked, startIdx, 0) == FindVacant(g, lines[..], locked, startIdx, k)
      {
        PlaceOfSet(g, startIdx, k);
        var ll := lines[GetNextIdx(g, startIdx, k)];
        if (!ll.IsValid() && BlockOf(g, ll.address) !in locked) || (g.nuca && !ll.IsValid()) {
          return;
        }
        k := k + 1;
      }
    }

    method FindOldestWay(locked: set<int>, startIdx: nat) returns (k: nat)
      requires Sized(g, lines[..]) && startIdx < g.sets
      ensures k == FindOldest(g, lines[..], locked, startIdx, g.assoc)
    {
      k := g.assoc;
      var minTimeStamp := 0;
      for idx := 0 to g.assoc
        invariant k == FindOldest(g, lines[..], locked, startIdx, idx)
        invariant k < g.assoc ==> minTimeStamp == Way(g, lines[..], startIdx, k).timestamp
      {
        PlaceOfSet(g, startIdx, idx);
        var ll := lines[GetNextIdx(g, startIdx, idx)];
        if BlockOf(g, ll.address) !in locked && (k == g.assoc || minTimeStamp > ll.timestamp) {
          minTimeStamp := ll.timestamp;
          k := idx;
        }
      }
    }

    /** Puts a block into the cache. ok is false when the program stops; evicted is the replaced line. */
    method Fill(addr: nat, state: MESI, locked: set<int>) returns (ok: bool, evicted: seq<Line>)
      requires Valid()
      modifies lines, this`timestamp
      ensures Valid()
      ensures var c := Choose(g, old(lines[..]), locked, addr);
              && ok == !c.Stuck?
              && (ok ==> lines[..] == Filled(g, old(lines[..]), locked, addr, state, old(timestamp)) &&
                         timestamp == old(timestamp) + 1)
              && (!ok ==> lines[..] == old(lines[..]) && timestamp == old(timestamp))
              && evicted == if c.Evict? then [Way(g, old(lines[..]), GetStartIdx(g, addr), c.way)] else []
    {
      ghost var was := lines[..];
      var startIdx := GetStartIdx(g, addr);
      var tag := ComputeTag(g, addr);
      var fillIdx: nat;
      evicted, ok := [], true;
      var present, index := Lookup(addr);
      if present {
        fillIdx := index;
      } else {
        var k := FindVacantWay(locked, startIdx);
        if k == g.assoc {
          k := FindOldestWay(locked, startIdx);
          if k == g.assoc {
            ok := false;
            return;
          }
          PlaceOfSet(g, startIdx, k);
          evicted := [lines[GetNextIdx(g, startIdx, k)]];
        }
        PlaceOfSet(g, startIdx, k);
        fillIdx := GetNextIdx(g, startIdx, k);
      }
      FillConsistent(g, was, locked, addr, state, timestamp);
      lines[fillIdx] := Line(tag, addr, timestamp, state);
      assert lines[..] == was[fillIdx := Line(tag, addr, timestamp, state)];
      timestamp := timestamp + 1;
    }

    /** The guard that a response passes before its block is filled in. */
    method IsThereAnUnlockedOrInvalidEntryInCacheSet(addr: nat, locked: set<int>) returns (room: bool)
      requires Sized(g, lines[..])
      ensures room <==> Guard(g, lines[..], locked, addr)
    {
      var startIdx := GetStartIdx(g, addr);
      var idx := 0;
      room := false;
      while idx < g.assoc
        invariant idx <= g.assoc
        invariant forall j | 0 <= j < idx :: !Admits(g, locked, Way(g, lines[..], startIdx, j), addr)
      {
        PlaceOfSet(g, startIdx, idx);
        var ll := lines[GetNextIdx(g, startIdx, idx)];
        assert ll == Way(g, lines[..], startIdx, idx);
        if ll.address == addr {
          return true;
        }
        if (!ll.IsValid() && BlockOf(g, ll.address) !in locked) || (g.nuca && !ll.IsValid()) {
          return true;
        }
        if BlockOf(g, ll.address) !in locked {
          return true;
        }
        idx := idx + 1;
      }
    }
  }

  predicate Admits(g: Geometry, locked: set<int>, l: Line, addr: int)
    requires g.block >= 1
  {
    l.address == addr || Vacant(g, locked, l) || !Locked(g, locked, l)
  }

  predicate Guard(g: Geometry, lines: seq<Line>, locked: set<int>, addr: nat)
    requires Sized(g, lines)
  {
    exists j :: 0 <= j < g.assoc && Admits(g, locked, Way(g, lines, GetStartIdx(g, addr), j), addr)
  }

  // ---------------------------------------------------------------- invariant

  /** An empty line was never filled; any other sits in the set of its address, with the address's tag. */
  predicate LineOK(g: Geometry, l: Line, i: nat, timestamp: int)
    requires g.Valid()
  {
    if l.tag == -1 then l == EMPTY_LINE
    else l.address >= 0 && l.tag == ComputeTag(g, l.address) && i % g.sets == GetStartIdx(g, l.address) &&
         0 <= l.timestamp < timestamp
  }

  /** Two lines of one set never carry the same tag, and no two lines were marked at the same time. */
  predicate Distinct(g: Geometry, a: Line, i: nat, b: Line, j: nat)
    requires g.Valid()
  {
    a.tag != -1 && b.tag != -1 ==>
      a.timestamp != b.timestamp && (i % g.sets == j % g.sets ==> a.tag != b.tag)
  }

  ghost predicate Consistent(g: Geometry, lines: seq<Line>, timestamp: int)
    requires Sized(g, lines)
  {
    && timestamp >= 0
    && (forall i | 0 <= i < |lines| :: LineOK(g, lines[i], i, timestamp))
    && (forall i, j | 0 <= i < j < |lines| :: Distinct(g, lines[i], i, lines[j], j))
  }

  /** Replacing one line by a consistent one that differs from all others. */
  lemma ReplaceConsistent(g: Geometry, lines: seq<Line>, timestamp: int, k: nat, l: Line)
    requires Sized(g, lines) && Consistent(g, lines, timestamp) && k < |lines|
    requires LineOK(g, l, k, timestamp + 1)
    requires forall j | 0 <= j < |lines| && j != k :: Distinct(g, l, k, lines[j], j)
    ensures Consistent(g, lines[k := l], timestamp + 1)
  {
    var r := lines[k := l];
    forall i | 0 <= i < |r|
      ensures LineOK(g, r[i], i, timestamp + 1)
    {
      assert LineOK(g, lines[i], i, timestamp);
    }
    forall i, j | 0 <= i < j < |r|
      ensures Distinct(g, r[i], i, r[j], j)
    {
      assert Distinct(g, lines[i], i, lines[j], j);
    }
  }

  lemma MarkConsistent(g: Geometry, lines: seq<Line>, timestamp: int, k: nat)
    requires Sized(g, lines) && Consistent(g, lines, timestamp) && k < |lines| && lines[k].tag != -1
    ensures Consistent(g, lines[k := lines[k].(timestamp := timestamp)], timestamp + 1)
  {
    assert LineOK(g, lines[k], k, timestamp);
    forall j | 0 <= j < |lines| && j != k
      ensures Distinct(g, lines[k].(timestamp := timestamp), k, lines[j], j)
    {
      assert LineOK(g, lines[j], j, timestamp);
      assert if j < k then Distinct(g, lines[j], j, lines[k], k) else Distinct(g, lines[k], k, lines[j], j);
    }
    ReplaceConsistent(g, lines, timestamp, k, lines[k].(timestamp := timestamp));
  }

  lemma StateConsistent(g: Geometry, lines: seq<Line>, timestamp: int, k: nat, state: MESI, addr: nat)
    requires Sized(g, lines) && Consistent(g, lines, timestamp) && k < |lines| && lines[k].tag == ComputeTag(g, addr)
    ensures Consistent(g, lines[k := lines[k].(state := state)], timestamp)
  {
    var r := lines[k := lines[k].(state := state)];
    forall i | 0 <= i < |r|
      ensures LineOK(g, r[i], i, timestamp)
    {
      assert LineOK(g, lines[i], i, timestamp);
    }
    forall i, j | 0 <= i < j < |r|
      ensures Distinct(g, r[i], i, r[j], j)
    {
      assert Distinct(g, lines[i], i, lines[j], j);
    }
  }

  /** Two filled lines at different places differ in time stamp, and in tag if they share a set. */
  lemma PlacesDiffer(g: Geometry, lines: seq<Line>, timestamp: int, i: nat, j: nat)
    requires Sized(g, lines) && Consistent(g, lines, timestamp) && i < |lines| && j < |lines|
    ensures i != j ==> Distinct(g, lines[i], i, lines[j], j)
  {
    if i < j {
      assert Distinct(g, lines[i], i, lines[j], j);
    } else if j < i {
      assert Distinct(g, lines[j], j, lines[i], i);
    }
  }

  /** If a way of the set carries the tag, the fill goes to a line that carries it. */
  lemma HitPlace(g: Geometry, lines: seq<Line>, locked: set<int>, addr: nat, w: nat)
    requires Sized(g, lines) && !Choose(g, lines, locked, addr).Stuck?
    requires w < g.assoc && Way(g, lines, GetStartIdx(g, addr), w).tag == ComputeTag(g, addr)
    ensures lines[Place(g, lines, locked, addr)].tag == ComputeTag(g, addr)
  {
  }

  /** In a set, only the place chosen for the address may carry its tag. */
  lemma TagOnlyAtPlace(g: Geometry, lines: seq<Line>, timestamp: int, locked: set<int>, addr: nat, j: nat)
    requires Sized(g, lines) && Consistent(g, lines, timestamp) && !Choose(g, lines, locked, addr).Stuck?
    requires j < |lines| && j % g.sets == GetStartIdx(g, addr) && lines[j].tag == ComputeTag(g, addr)
    ensures j == Place(g, lines, locked, addr)
  {
    hide Consistent, GetNextIdx, ComputeTag, GetStartIdx, Choose, Place, Way;
    WayAt(g, lines, j);
    HitPlace(g, lines, locked, addr, j / g.sets);
    PlacesDiffer(g, lines, timestamp, Place(g, lines, locked, addr), j);
  }

  lemma FillConsistent(g: Geometry, lines: seq<Line>, locked: set<int>, addr: nat, state: MESI, timestamp: int)
    requires Sized(g, lines) && Consistent(g, lines, timestamp) && !Choose(g, lines, locked, addr).Stuck?
    ensures Consistent(g, Filled(g, lines, locked, addr, state, timestamp), timestamp + 1)
  {
    var k := Place(g, lines, locked, addr);
    var l := Line(ComputeTag(g, addr), addr, timestamp, state);
    forall j | 0 <= j < |lines| && j != k
      ensures Distinct(g, l, k, lines[j], j)
    {
      assert LineOK(g, lines[j], j, timestamp);
      if j % g.sets == k % g.sets && lines[j].tag == l.tag {
        TagOnlyAtPlace(g, lines, timestamp, locked, addr, j);
      }
    }
    ReplaceConsistent(g, lines, timestamp, k, l);
  }

  // ---------------------------------------------------------------- results

  /** Line i holds block b. */
  predicate Holds(g: Geometry, lines: seq<Line>, i: nat, b: int)
    requires g.block >= 1 && i < |lines|
  {
    lines[i].tag != -1 && BlockOf(g, lines[i].address) == b
  }

  /** A line holds the block of an address exactly if it is in the address's set and carries its tag. */
  lemma HoldsMeansTag(g: Geometry, lines: seq<Line>, timestamp: int, i: nat, addr: nat)
    requires Sized(g, lines) && Consistent(g, lines, timestamp) && i < |lines|
    ensures Holds(g, lines, i, BlockOf(g, addr)) <==>
            i % g.sets == GetStartIdx(g, addr) && lines[i].tag == ComputeTag(g, addr)
  {
    assert LineOK(g, lines[i], i, timestamp);
    if lines[i].tag != -1 {
      TagAndSetNameBlock(g, lines[i].address, addr);
    }
  }

  lemma TagIsFound(g: Geometry, lines: seq<Line>, addr: nat, w: nat)
    requires Sized(g, lines) && w < g.assoc && Way(g, lines, GetStartIdx(g, addr), w).tag == ComputeTag(g, addr)
    ensures Access(g, lines, addr) < g.assoc
  {
  }

  /** Lookup is exact: it succeeds exactly if some line holds the block, and then names that line. */
  lemma AccessIsExact(g: Geometry, lines: seq<Line>, timestamp: int, addr: nat)
    requires Sized(g, lines) && Consistent(g, lines, timestamp)
    ensures Access(g, lines, addr) < g.assoc ==> Holds(g, lines, Found(g, lines, addr), BlockOf(g, addr))
    ensures forall i | 0 <= i < |lines| && Holds(g, lines, i, BlockOf(g, addr)) ::
              Access(g, lines, addr) < g.assoc && i == Found(g, lines, addr)
  {
    hide Consistent, GetNextIdx, ComputeTag, GetStartIdx, Access, Way, Holds;
    if Access(g, lines, addr) < g.assoc {
      HoldsMeansTag(g, lines, timestamp, Found(g, lines, addr), addr);
    }
    forall i | 0 <= i < |lines| && Holds(g, lines, i, BlockOf(g, addr))
      ensures Access(g, lines, addr) < g.assoc && i == Found(g, lines, addr)
    {
      HoldsMeansTag(g, lines, timestamp, i, addr);
      WayAt(g, lines, i);
      TagIsFound(g, lines, addr, i / g.sets);
      PlacesDiffer(g, lines, timestamp, i, Found(g, lines, addr));
    }
  }

  /** A hit: some line holds the block, and that line is not invalid; the place a lookup names is then the only one. */
  lemma HitsMeaning(g: Geometry, lines: seq<Line>, timestamp: int, addr: nat)
    requires Sized(g, lines) && Consistent(g, lines, timestamp)
    ensures Hits(g, lines, addr) <==>
            exists i :: 0 <= i < |lines| && Holds(g, lines, i, BlockOf(g, addr)) && lines[i].state != INVALID
    ensures forall i | 0 <= i < |lines| && Holds(g, lines, i, BlockOf(g, addr)) :: i == PlaceOf(g, lines, addr)
  {
    AccessIsExact(g, lines, timestamp, addr);
    hide Consistent, Access, Holds;
    if Hits(g, lines, addr) {
      assert Holds(g, lines, Found(g, lines, addr), BlockOf(g, addr));
    }
  }

  /** The place that a lookup names; beyond all places if it fails. */
  function PlaceOf(g: Geometry, lines: seq<Line>, addr: nat): (i: nat)
    requires Sized(g, lines)
  {
    if Access(g, lines, addr) < g.assoc then Found(g, lines, addr) else |lines|
  }

  /** A change of state reaches exactly the lines that hold the block, and nothing of them but the state. */
  lemma RestatedMeaning(g: Geometry, lines: seq<Line>, timestamp: int, addr: nat, state: MESI, i: nat)
    requires Sized(g, lines) && Consistent(g, lines, timestamp) && i < |lines|
    ensures Restated(g, lines, addr, state)[i] ==
            if Holds(g, lines, i, BlockOf(g, addr)) then lines[i].(state := state) else lines[i]
  {
    AccessIsExact(g, lines, timestamp, addr);
    hide Consistent, Access, Holds;
  }

  /** After a fill the block is held at the chosen place; every other place, so every other set, is untouched. */
  lemma FillHolds(g: Geometry, lines: seq<Line>, locked: set<int>, addr: nat, state: MESI, timestamp: int, i: nat,
                  b: int)
    requires Sized(g, lines) && Consistent(g, lines, timestamp) && !Choose(g, lines, locked, addr).Stuck?
    requires i < |lines|
    ensures var r := Filled(g, lines, locked, addr, state, timestamp);
            var k := Place(g, lines, locked, addr);
            && k % g.sets == GetStartIdx(g, addr)
            && Holds(g, r, k, BlockOf(g, addr)) && r[k].state == state
            && (i != k ==> r[i] == lines[i])
            && (b == BlockOf(g, addr) ==> (Holds(g, r, i, b) <==> i == k))
            && (b != BlockOf(g, addr) ==> (Holds(g, r, i, b) <==> Holds(g, lines, i, b) && i != k))
  {
    var k := Place(g, lines, locked, addr);
    FillConsistent(g, lines, locked, addr, state, timestamp);
    AccessIsExact(g, Filled(g, lines, locked, addr, state, timestamp), timestamp + 1, addr);
    assert Holds(g, Filled(g, lines, locked, addr, state, timestamp), k, BlockOf(g, addr));
  }

  /** A fill succeeds exactly if the block is present, a line is unlocked or, in a NUCA bank, a line is invalid. */
  lemma FillSucceedsIff(g: Geometry, lines: seq<Line>, locked: set<int>, addr: nat)
    requires Sized(g, lines)
    ensures !Choose(g, lines, locked, addr).Stuck? <==>
            exists j :: 0 <= j < g.assoc &&
              (var l := Way(g, lines, GetStartIdx(g, addr), j);
               l.tag == ComputeTag(g, addr) || !Locked(g, locked, l) || (g.nuca && l.state == INVALID))
  {
    var s := GetStartIdx(g, addr);
    var c := Choose(g, lines, locked, addr);
    if !c.Stuck? {
      var l := Way(g, lines, s, c.way);
      assert l.tag == ComputeTag(g, addr) || !Locked(g, locked, l) || (g.nuca && l.state == INVALID);
    }
  }

  /**
   A valid line is replaced only as the victim that is handed out, unless the fill is for its own block; and there is a
   victim only if no line of the set is both invalid and free to be overwritten.
   */
  lemma ValidLinesLeaveAsVictims(g: Geometry, lines: seq<Line>, locked: set<int>, addr: nat, timestamp: int, j: nat)
    requires Sized(g, lines) && Consistent(g, lines, timestamp) && !Choose(g, lines, locked, addr).Stuck? && j < g.assoc
    ensures var c, k := Choose(g, lines, locked, addr), Place(g, lines, locked, addr);
            var l := Way(g, lines, GetStartIdx(g, addr), j);
            && (lines[k].state != INVALID && !Holds(g, lines, k, BlockOf(g, addr)) ==> c.Evict?)
            && (c.Evict? ==> l.state != INVALID || (Locked(g, locked, l) && !g.nuca))
            && (c.Evict? ==> !Holds(g, lines, k, BlockOf(g, addr)))
  {
    var c, k := Choose(g, lines, locked, addr), Place(g, lines, locked, addr);
    assert lines[k] == Way(g, lines, GetStartIdx(g, addr), c.way);
    HoldsMeansTag(g, lines, timestamp, k, addr);
  }

  /** Behind the guard a fill always finds a line, and a line that it evicts is not locked. */
  lemma GuardIsSound(g: Geometry, lines: seq<Line>, locked: set<int>, addr: nat, timestamp: int)
    requires Sized(g, lines) && Consistent(g, lines, timestamp) && Guard(g, lines, locked, addr)
    ensures var c := Choose(g, lines, locked, addr);
            && !c.Stuck?
            && (c.Evict? ==> !Locked(g, locked, Way(g, lines, GetStartIdx(g, addr), c.way)))
  {
    var s := GetStartIdx(g, addr);
    var j :| 0 <= j < g.assoc && Admits(g, locked, Way(g, lines, s, j), addr);
    PlaceOfSet(g, s, j);
    assert LineOK(g, lines[GetNextIdx(g, s, j)], GetNextIdx(g, s, j), timestamp);
    FillSucceedsIff(g, lines, locked, addr);
  }

  /** The line belongs to the address, or its block is not locked, or it is an invalid line of a NUCA bank. */
  predicate Passes(g: Geometry, locked: set<int>, l: Line, addr: int)
    requires g.block >= 1
  {
    l.address == addr || BlockOf(g, l.address) !in locked || (g.nuca && l.state == INVALID)
  }

  /** The guard holds exactly if some line of the set passes. */
  lemma GuardIsExact(g: Geometry, lines: seq<Line>, locked: set<int>, addr: nat)
    requires Sized(g, lines)
    ensures Guard(g, lines, locked, addr) <==>
            exists j :: 0 <= j < g.assoc && Passes(g, locked, Way(g, lines, GetStartIdx(g, addr), j), addr)
  {
    forall j | 0 <= j < g.assoc
      ensures Admits(g, locked, Way(g, lines, GetStartIdx(g, addr), j), addr) <==>
              Passes(g, locked, Way(g, lines, GetStartIdx(g, addr), j), addr)
    {
      hide Way;
    }
    hide Admits, Passes, Way;
  }

  /** The evicted line is valid and was marked before every other unlocked line of its set. */
  lemma VictimIsLeastRecent(g: Geometry, lines: seq<Line>, locked: set<int>, addr: nat, timestamp: int, j: nat)
    requires Sized(g, lines) && Consistent(g, lines, timestamp)
    requires Choose(g, lines, locked, addr).Evict? && j < g.assoc
    ensures var s := GetStartIdx(g, addr); var k := Choose(g, lines, locked, addr).way;
            var victim, other := Way(g, lines, s, k), Way(g, lines, s, j);
            && victim.IsValid() && !Locked(g, locked, victim)
            && (j != k && !Locked(g, locked, other) ==> other.IsValid() && victim.timestamp < other.timestamp)
  {
    var s := GetStartIdx(g, addr);
    var k := Choose(g, lines, locked, addr).way;
    PlaceOfSet(g, s, k);
    PlaceOfSet(g, s, j);
    var x, y := GetNextIdx(g, s, k), GetNextIdx(g, s, j);
    assert Way(g, lines, s, k) == lines[x] && Way(g, lines, s, j) == lines[y];
    assert !Vacant(g, locked, lines[x]) && !Vacant(g, locked, lines[y]);
    assert !Locked(g, locked, lines[y]) ==> lines[x].timestamp <= lines[y].timestamp;
    assert j != k ==> x != y;
    assert LineOK(g, lines[x], x, timestamp) && LineOK(g, lines[y], y, timestamp);
    PlacesDiffer(g, lines, timestamp, x, y);
    hide Consistent, Sized, Choose;
  }
}

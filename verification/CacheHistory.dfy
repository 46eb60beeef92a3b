/**
 Whole histories of a cache: what a lookup finds and what a fill replaces, told by the operations alone.
 A history is any sequence of fills, accesses and changes of state. It keeps for each place the block that was last
 filled into it, the state that it was last given, and the order in which the places were marked; nothing of this looks
 at the lines.
 */
module CacheHistory {
  import opened CacheArray

  datatype Op =
    | Fill(addr: nat, state: MESI, locked: set<int>)
    | Touch(addr: nat)
    | SetState(addr: nat, state: MESI)

  /**
   last: the block that was last filled into each place; given: the state that the place was last given, by that fill
   or by a change of state that named its block; marks: the places in the order in which they were marked.
   */
  datatype History = History(
    lines: seq<Line>, timestamp: int, last: map<nat, int>, given: map<nat, MESI>, marks: seq<nat>)

  /** Every place that was last filled with block b is given the state. */
  function Given(h: History, b: int, state: MESI): map<nat, MESI> {
    map i | i in h.given :: if i in h.last && h.last[i] == b then state else h.given[i]
  }

  function Apply(g: Geometry, h: History, op: Op): (r: History)
    requires Sized(g, h.lines)
    ensures Sized(g, r.lines)
  {
    match op
    case Fill(addr, state, locked) =>
      if Choose(g, h.lines, locked, addr).Stuck? then h
      else
        var i := Place(g, h.lines, locked, addr);
        History(Filled(g, h.lines, locked, addr, state, h.timestamp), h.timestamp + 1,
                h.last[i := BlockOf(g, addr)], h.given[i := state], h.marks + [i])
    case Touch(addr) =>
      if !Hits(g, h.lines, addr) then h
      else h.(lines := Marked(g, h.lines, addr, h.timestamp), timestamp := h.timestamp + 1,
              marks := h.marks + [Found(g, h.lines, addr)])
    case SetState(addr, state) =>
      h.(lines := Restated(g, h.lines, addr, state), given := Given(h, BlockOf(g, addr), state))
  }

  function After(g: Geometry, ops: seq<Op>): (h: History)
    requires g.Valid()
    ensures Sized(g, h.lines)
  {
    if ops == [] then History(seq(g.assoc * g.sets, _ => EMPTY_LINE), 0, map[], map[], [])
    else Apply(g, After(g, ops[..|ops|-1]), ops[|ops|-1])
  }

  /** When the place was marked last; -1 if never. */
  function LastMark(marks: seq<nat>, i: nat): (t: int)
    ensures -1 <= t < |marks|
    ensures t >= 0 ==> marks[t] == i
    ensures forall u | t < u < |marks| :: marks[u] != i
  {
    if marks == [] then -1
    else if marks[|marks|-1] == i then |marks| - 1
    else LastMark(marks[..|marks|-1], i)
  }

  /** A line remembers what its place was last filled with, what state it was last given, and when it was marked. */
  ghost predicate Told(g: Geometry, h: History, i: nat)
    requires g.Valid() && i < |h.lines|
  {
    && (i in h.last <==> h.lines[i].tag != -1)
    && (i in h.given <==> i in h.last)
    && h.lines[i].state == (if i in h.given then h.given[i] else INVALID)
    && (i in h.last ==> BlockOf(g, h.lines[i].address) == h.last[i] && h.lines[i].timestamp == LastMark(h.marks, i))
  }

  ghost predicate Faithful(g: Geometry, h: History) {
    && Sized(g, h.lines)
    && Consistent(g, h.lines, h.timestamp)
    && |h.marks| == h.timestamp
    && forall i | 0 <= i < |h.lines| :: Told(g, h, i)
  }

  lemma MarkAdded(marks: seq<nat>, i: nat, j: nat)
    ensures LastMark(marks + [i], j) == if i == j then |marks| else LastMark(marks, j)
  {
    assert (marks + [i])[..|marks|] == marks;
  }

  lemma FillFaithful(g: Geometry, h: History, op: Op)
    requires Faithful(g, h) && op.Fill?
    ensures Faithful(g, Apply(g, h, op))
  {
    if !Choose(g, h.lines, op.locked, op.addr).Stuck? {
      var h' := Apply(g, h, op);
      var k := Place(g, h.lines, op.locked, op.addr);
      FillConsistent(g, h.lines, op.locked, op.addr, op.state, h.timestamp);
      hide Consistent, Choose, Place;
      forall i | 0 <= i < |h'.lines|
        ensures Told(g, h', i)
      {
        assert Told(g, h, i);
        MarkAdded(h.marks, k, i);
      }
    }
  }

  lemma TouchFaithful(g: Geometry, h: History, op: Op)
    requires Faithful(g, h) && op.Touch?
    ensures Faithful(g, Apply(g, h, op))
  {
    if Hits(g, h.lines, op.addr) {
      var h' := Apply(g, h, op);
      var k := Found(g, h.lines, op.addr);
      MarkConsistent(g, h.lines, h.timestamp, k);
      hide Consistent, Found, Hits;
      forall i | 0 <= i < |h'.lines|
        ensures Told(g, h', i)
      {
        assert Told(g, h, i);
        MarkAdded(h.marks, k, i);
      }
    }
  }

  lemma SetStateFaithful(g: Geometry, h: History, op: Op)
    requires Faithful(g, h) && op.SetState?
    ensures Faithful(g, Apply(g, h, op))
  {
    var h' := Apply(g, h, op);
    if Access(g, h.lines, op.addr) < g.assoc {
      StateConsistent(g, h.lines, h.timestamp, Found(g, h.lines, op.addr), op.state, op.addr);
    }
    assert Consistent(g, h'.lines, h'.timestamp);
    forall i | 0 <= i < |h'.lines|
      ensures Told(g, h', i)
    {
      RestatedMeaning(g, h.lines, h.timestamp, op.addr, op.state, i);
      hide Consistent, Restated;
      assert Told(g, h, i);
    }
  }

  lemma {:induction false} AlwaysFaithful(g: Geometry, ops: seq<Op>)
    requires g.Valid()
    ensures Faithful(g, After(g, ops))
  {
    hide Faithful, Apply;
    if ops == [] {
      StartFaithful(g);
    } else {
      var h := After(g, ops[..|ops|-1]);
      AlwaysFaithful(g, ops[..|ops|-1]);
      match ops[|ops|-1]
      case Fill(_, _, _) => FillFaithful(g, h, ops[|ops|-1]);
      case Touch(_) => TouchFaithful(g, h, ops[|ops|-1]);
      case SetState(_, _) => SetStateFaithful(g, h, ops[|ops|-1]);
    }
  }

  lemma StartFaithful(g: Geometry)
    requires g.Valid()
    ensures Faithful(g, After(g, []))
  {
  }

  /**
   After any operations, a lookup succeeds exactly if some place was last filled with the block, and names that
   place.
   */
  lemma LookupFindsLastFilled(g: Geometry, ops: seq<Op>, addr: nat, i: nat)
    requires g.Valid() && i < |After(g, ops).lines|
    ensures var h := After(g, ops);
            i in h.last && h.last[i] == BlockOf(g, addr) <==>
            Access(g, h.lines, addr) < g.assoc && i == Found(g, h.lines, addr)
  {
    var h := After(g, ops);
    AlwaysFaithful(g, ops);
    assert Told(g, h, i);
    AccessIsExact(g, h.lines, h.timestamp, addr);
    hide Consistent, Access, Found;
    assert Holds(g, h.lines, i, BlockOf(g, addr)) <==> i in h.last && h.last[i] == BlockOf(g, addr);
  }

  /** After any operations every line is in the state that its place was last given, INVALID if it was never filled. */
  lemma StateIsLastGiven(g: Geometry, ops: seq<Op>, i: nat)
    requires g.Valid() && i < |After(g, ops).lines|
    ensures var h := After(g, ops);
            h.lines[i].state == if i in h.given then h.given[i] else INVALID
  {
    AlwaysFaithful(g, ops);
    assert Told(g, After(g, ops), i);
  }

  /** Place i was last filled with the block, and the state it was last given is not INVALID. */
  predicate Live(h: History, i: nat, b: int) {
    i in h.last && h.last[i] == b && i in h.given && h.given[i] != INVALID
  }

  /**
   After any operations, an access hits exactly if some place was last filled with the block and was last given a state
   other than INVALID; then it marks that place, and otherwise nothing changes.
   */
  lemma HitsIffLive(g: Geometry, ops: seq<Op>, addr: nat)
    requires g.Valid()
    ensures var h := After(g, ops); var h' := After(g, ops + [Touch(addr)]); var b := BlockOf(g, addr);
            && (Hits(g, h.lines, addr) <==> exists i: nat :: i < |h.lines| && Live(h, i, b))
            && (Hits(g, h.lines, addr) ==>
                  |h'.marks| == |h.marks| + 1 && h'.marks[..|h.marks|] == h.marks && Live(h, h'.marks[|h.marks|], b))
            && (!Hits(g, h.lines, addr) ==> h' == h)
  {
    var h, h' := After(g, ops), After(g, ops + [Touch(addr)]);
    assert (ops + [Touch(addr)])[..|ops|] == ops;
    AlwaysFaithful(g, ops);
    HitsMeaning(g, h.lines, h.timestamp, addr);
    AccessIsExact(g, h.lines, h.timestamp, addr);
    hide Consistent, After, Access, Found;
    forall i | 0 <= i < |h.lines|
      ensures Live(h, i, BlockOf(g, addr)) <==>
              Holds(g, h.lines, i, BlockOf(g, addr)) && h.lines[i].state != INVALID
    {
      assert Told(g, h, i);
    }
  }

  /** After any operations, a fill that evicts takes the unlocked place of the set that was marked longest ago. */
  lemma EvictsLeastRecentlyMarked(g: Geometry, ops: seq<Op>, addr: nat, locked: set<int>, j: nat)
    requires g.Valid() && Choose(g, After(g, ops).lines, locked, addr).Evict? && j < g.assoc
    ensures var h := After(g, ops); var s := GetStartIdx(g, addr);
            var victim := Place(g, h.lines, locked, addr);
            && GetNextIdx(g, s, j) < |h.lines|
            && !Locked(g, locked, h.lines[victim])
            && (GetNextIdx(g, s, j) != victim && !Locked(g, locked, h.lines[GetNextIdx(g, s, j)]) ==>
                  LastMark(h.marks, victim) < LastMark(h.marks, GetNextIdx(g, s, j)))
  {
    var h := After(g, ops);
    var s := GetStartIdx(g, addr);
    var victim := Place(g, h.lines, locked, addr);
    PlaceOfSet(g, s, j);
    AlwaysFaithful(g, ops);
    assert Told(g, h, victim) && Told(g, h, GetNextIdx(g, s, j));
    VictimIsLeastRecent(g, h.lines, locked, addr, h.timestamp, j);
    assert Way(g, h.lines, s, j) == h.lines[GetNextIdx(g, s, j)];
    assert LineOK(g, h.lines[victim], victim, h.timestamp);
    assert LineOK(g, h.lines[GetNextIdx(g, s, j)], GetNextIdx(g, s, j), h.timestamp);
  }

  /** After any operations, a fill behind the guard finds a line, and if it evicts one, not a locked one. */
  lemma GuardedFillNeverStops(g: Geometry, ops: seq<Op>, addr: nat, locked: set<int>)
    requires g.Valid() && Guard(g, After(g, ops).lines, locked, addr)
    ensures var h := After(g, ops);
            && !Choose(g, h.lines, locked, addr).Stuck?
            && (Choose(g, h.lines, locked, addr).Evict? ==>
                !Locked(g, locked, h.lines[Place(g, h.lines, locked, addr)]))
  {
    AlwaysFaithful(g, ops);
    GuardIsSound(g, After(g, ops).lines, locked, addr, After(g, ops).timestamp);
  }
}

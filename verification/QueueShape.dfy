/** What every queue looks like, and why taking packets out keeps it so. */
module QueueShape {
  import opened DramTypes
  import opened CommandQueueSpec
  import opened DramSystem

  /** An ACTIVATE stands directly in front of its own column access. */
  predicate Partnered(q: seq<Packet>, i: nat)
    requires i < |q|
  {
    q[i].kind.ACTIVATE? ==> i + 1 < |q| && q[i+1].IsColumn() && q[i+1].Act() == q[i]
  }

  /** A column access whose ACTIVATE is no longer queued. */
  predicate Orphan(q: seq<Packet>, i: nat)
    requires i < |q|
  {
    q[i].IsColumn() && (i == 0 || !q[i-1].kind.ACTIVATE?)
  }

  /** No packet in front of position i goes to the same bank and row. */
  ghost predicate Leads(q: seq<Packet>, i: nat)
    requires i < |q|
  {
    forall j | 0 <= j < i :: !(q[j].bank == q[i].bank && q[j].row == q[i].row)
  }

  ghost predicate Paired(cfg: Config, q: seq<Packet>) {
    && (forall i | 0 <= i < |q| :: q[i].kind.ACTIVATE? || Typed(cfg, q[i]))
    && (forall i | 0 <= i < |q| :: Partnered(q, i))
  }

  ghost predicate QueueOK(cfg: Config, q: seq<Packet>) {
    && Paired(cfg, q)
    && (forall i | 0 <= i < |q| :: Orphan(q, i) ==> Leads(q, i))
  }

  /** The queue holds, alone, the column access that belongs to ACTIVATE a. */
  ghost predicate HoldsOrphan(q: seq<Packet>, a: Packet) {
    exists i :: 0 <= i < |q| && Orphan(q, i) && q[i].Act() == a
  }

  /** What may be taken from a queue without breaking a pair. */
  predicate Separable(q: seq<Packet>, at: nat, withAct: bool)
    requires at < |q|
  {
    if q[at].kind.ACTIVATE? then !withAct
    else if withAct then at > 0 && q[at-1].kind.ACTIVATE?
    else Orphan(q, at)
  }

  /** What may be taken from a queue without breaking it. */
  ghost predicate Takeable(q: seq<Packet>, at: nat, withAct: bool)
    requires at < |q|
  {
    Separable(q, at, withAct) && (q[at].kind.ACTIVATE? ==> Leads(q, at))
  }

  /** Where position j of the shortened queue was before. */
  function Before(j: nat, at: nat, withAct: bool): nat {
    var lo := if withAct then at - 1 else at;
    if j < lo then j else j + at + 1 - lo
  }

  lemma RemovedAt(q: seq<Packet>, at: nat, withAct: bool)
    requires at < |q| && (withAct ==> at > 0)
    ensures var r := Removed(q, at, withAct);
            && |r| == |q| - (if withAct then 2 else 1)
            && forall j | 0 <= j < |r| :: Before(j, at, withAct) < |q| && r[j] == q[Before(j, at, withAct)]
  {
  }

  /** An orphan of the shortened queue was one before, unless the ACTIVATE just taken was its own. */
  lemma OrphanBefore(cfg: Config, q: seq<Packet>, at: nat, withAct: bool, j: nat)
    requires QueueOK(cfg, q) && at < |q| && (withAct ==> at > 0) && Takeable(q, at, withAct)
    requires j < |Removed(q, at, withAct)|
    ensures var r := Removed(q, at, withAct); var b := Before(j, at, withAct);
            && (Orphan(r, j) <==> Orphan(q, b) || (q[at].kind.ACTIVATE? && b == at + 1))
            && (Orphan(r, j) ==> Leads(r, j))
  {
    RemovedAt(q, at, withAct);
    var r := Removed(q, at, withAct);
    var b := Before(j, at, withAct);
    assert Partnered(q, at);
    if at > 0 { assert Partnered(q, at - 1); }
    if at > 1 { assert Partnered(q, at - 2); }
    if Orphan(r, j) {
      forall i | 0 <= i < j
        ensures !(r[i].bank == r[j].bank && r[i].row == r[j].row)
      {
        var c := Before(i, at, withAct);
        assert r[i] == q[c] && c < b;
        if q[at].kind.ACTIVATE? && b == at + 1 {
          assert Leads(q, at) && c < at && q[b].Act() == q[at];
        } else {
          assert Leads(q, b);
        }
      }
    }
  }

  lemma PartneredAfter(cfg: Config, q: seq<Packet>, at: nat, withAct: bool, j: nat)
    requires Paired(cfg, q) && at < |q| && (withAct ==> at > 0) && Separable(q, at, withAct)
    requires j < |Removed(q, at, withAct)|
    ensures Partnered(Removed(q, at, withAct), j)
  {
    RemovedAt(q, at, withAct);
    assert Partnered(q, Before(j, at, withAct));
    assert Partnered(q, at);
    if at > 0 { assert Partnered(q, at - 1); }
  }

  /** Taking a takeable packet leaves a queue of the same shape. */
  lemma RemovedOK(cfg: Config, q: seq<Packet>, at: nat, withAct: bool)
    requires QueueOK(cfg, q) && at < |q| && (withAct ==> at > 0) && Takeable(q, at, withAct)
    ensures QueueOK(cfg, Removed(q, at, withAct))
  {
    var r := Removed(q, at, withAct);
    RemovedAt(q, at, withAct);
    forall j | 0 <= j < |r|
      ensures Partnered(r, j) && (Orphan(r, j) ==> Leads(r, j))
    {
      PartneredAfter(cfg, q, at, withAct, j);
      OrphanBefore(cfg, q, at, withAct, j);
    }
  }

  /** Any other orphan stays; the column access of an ACTIVATE that was taken becomes one. */
  lemma OrphanAfter(cfg: Config, q: seq<Packet>, at: nat, withAct: bool, a: Packet)
    requires QueueOK(cfg, q) && at < |q| && (withAct ==> at > 0) && Takeable(q, at, withAct)
    requires if q[at].kind.ACTIVATE? && q[at] == a then true else HoldsOrphan(q, a) && q[at].Act() != a
    ensures HoldsOrphan(Removed(q, at, withAct), a)
  {
    RemovedAt(q, at, withAct);
    var r := Removed(q, at, withAct);
    assert Partnered(q, at);
    var i: nat;
    if q[at].kind.ACTIVATE? && q[at] == a {
      i := at + 1;
    } else {
      i :| 0 <= i < |q| && Orphan(q, i) && q[i].Act() == a;
    }
    var j := if i < at then i else if withAct then i - 2 else i - 1;
    assert Before(j, at, withAct) == i;
    OrphanBefore(cfg, q, at, withAct, j);
    assert r[j].Act() == a;
  }

  /** A transaction at the end of a queue keeps its shape and all its orphans. */
  lemma PairAppended(cfg: Config, q: seq<Packet>, b: Packet)
    requires QueueOK(cfg, q) && Typed(cfg, b)
    ensures QueueOK(cfg, q + [b.Act(), b])
    ensures forall a | HoldsOrphan(q, a) :: HoldsOrphan(q + [b.Act(), b], a)
    ensures forall i | 0 <= i < |q| + 2 && Orphan(q + [b.Act(), b], i) :: i < |q| && Orphan(q, i)
  {
    var r := q + [b.Act(), b];
    forall i | 0 <= i < |r|
      ensures Partnered(r, i) && (Orphan(r, i) ==> i < |q| && Orphan(q, i) && Leads(r, i))
    {
      if i < |q| {
        assert Partnered(q, i);
        assert Orphan(r, i) <==> Orphan(q, i);
      } else if i == |q| && i > 0 {
        assert Partnered(q, i - 1);
      }
    }
    forall a | HoldsOrphan(q, a)
      ensures HoldsOrphan(r, a)
    {
      var i :| 0 <= i < |q| && Orphan(q, i) && q[i].Act() == a;
      assert Orphan(r, i) && r[i].Act() == a;
    }
  }

  // ---------------------------------------------------------------- column accesses of one bank and row

  /** The column accesses of s that go to bank t and the row, in order. */
  function Stream(s: seq<Packet>, t: Slot, row: int): seq<Packet> {
    if s == [] then []
    else Stream(s[..|s|-1], t, row) +
         (var p := s[|s|-1]; if p.IsColumn() && p.Target() == t && p.row == row then [p] else [])
  }

  lemma {:induction false} StreamConcat(a: seq<Packet>, b: seq<Packet>, t: Slot, row: int)
    ensures Stream(a + b, t, row) == Stream(a, t, row) + Stream(b, t, row)
  {
    if b == [] {
      assert a + b == a;
    } else {
      var n := |b| - 1;
      assert (a + b)[..|a + b| - 1] == a + b[..n];
      StreamConcat(a, b[..n], t, row);
    }
  }

  lemma {:induction false} StreamEmpty(s: seq<Packet>, t: Slot, row: int)
    requires forall i | 0 <= i < |s| :: !(s[i].IsColumn() && s[i].Target() == t && s[i].row == row)
    ensures Stream(s, t, row) == []
  {
    if s != [] {
      StreamEmpty(s[..|s|-1], t, row);
    }
  }

  /** No earlier column access of the queue has the bank and row of position at. */
  ghost predicate First(q: seq<Packet>, at: nat)
    requires at < |q|
  {
    forall j | 0 <= j < at :: !(q[j].IsColumn() && q[j].Target() == q[at].Target() && q[j].row == q[at].row)
  }

  lemma StreamSplit(q: seq<Packet>, lo: nat, at: nat, t: Slot, row: int)
    requires lo <= at < |q|
    ensures Stream(q, t, row) ==
            Stream(q[..lo], t, row) + Stream(q[lo..at], t, row) + Stream([q[at]], t, row) + Stream(q[at+1..], t, row)
  {
    assert q[..at] == q[..lo] + q[lo..at];
    assert q[..at+1] == q[..at] + [q[at]];
    assert q == q[..at+1] + q[at+1..];
    StreamConcat(q[..lo], q[lo..at], t, row);
    StreamConcat(q[..at], [q[at]], t, row);
    StreamConcat(q[..at+1], q[at+1..], t, row);
  }

  lemma Swapped(l: seq<Packet>, m: seq<Packet>, p: seq<Packet>, r: seq<Packet>)
    requires m == [] && (l == [] || p == [])
    ensures l + m + p + r == p + (l + r)
  {
    assert l + m + p + r == p + (l + r);
  }

  /** Taking the first column access of a bank and row takes the head of that stream and touches no other. */
  lemma StreamRemoved(q: seq<Packet>, at: nat, withAct: bool, t: Slot, row: int)
    requires at < |q| && (withAct ==> at > 0 && !q[at-1].IsColumn())
    requires q[at].IsColumn() ==> First(q, at)
    ensures Stream(q, t, row) == Stream([q[at]], t, row) + Stream(Removed(q, at, withAct), t, row)
  {
    var lo := if withAct then at - 1 else at;
    StreamSplit(q, lo, at, t, row);
    StreamConcat(q[..lo], q[at+1..], t, row);
    StreamEmpty(q[lo..at], t, row);
    if q[at].IsColumn() && q[at].Target() == t && q[at].row == row {
      StreamEmpty(q[..lo], t, row);
    } else {
      StreamEmpty([q[at]], t, row);
    }
    Swapped(Stream(q[..lo], t, row), Stream(q[lo..at], t, row), Stream([q[at]], t, row), Stream(q[at+1..], t, row));
  }

  /** Every column access is counted in exactly the stream of its own bank and row. */
  lemma {:induction false} StreamCount(s: seq<Packet>, p: Packet)
    requires p.IsColumn()
    ensures multiset(Stream(s, p.Target(), p.row))[p] == multiset(s)[p]
  {
    if s != [] {
      var n := |s| - 1;
      assert s == s[..n] + [s[n]];
      StreamCount(s[..n], p);
    }
  }
}

/** Histories of the data bus that the ranks of a channel share: read data that find it busy come back later. */
module DataBus {
  // An event is handled at its time, earlier ones first; one that is sent away is handled again at the time that it was
  // given. New data become ready at any time that is not past.

  import opened DramTypes
  import opened Ranks

  /** The data of one read and when they were ready; an event that waits for them; a burst on the bus. */
  datatype Data = Data(p: Packet, ready: int)
  datatype Wish = Wish(d: Data, at: int)
  datatype Burst = Burst(d: Data, start: int, end: int)

  datatype Bus = Bus(now: int, free: int, asked: seq<Data>, waiting: seq<Wish>, granted: seq<Burst>)

  datatype Action = Ready(d: Data) | Handle(i: nat)

  ghost predicate Earliest(waiting: seq<Wish>, i: nat) {
    i < |waiting| && forall j | 0 <= j < |waiting| :: waiting[i].at <= waiting[j].at
  }

  ghost predicate Enabled(b: Bus, a: Action) {
    match a
    case Ready(d) => d.ready >= b.now
    case Handle(i) => Earliest(b.waiting, i)
  }

  function Without(waiting: seq<Wish>, i: nat): seq<Wish>
    requires i < |waiting|
  {
    waiting[..i] + waiting[i+1..]
  }

  ghost function Apply(burst: nat, b: Bus, a: Action): Bus {
    if !Enabled(b, a) then b
    else match a
      case Ready(d) => b.(asked := b.asked + [d], waiting := b.waiting + [Wish(d, d.ready)])
      case Handle(i) =>
        var w := b.waiting[i];
        var (r, free') := Grant(burst, b.free, w.d.p, w.at);
        var b' := b.(now := w.at, free := free');
        match r
        case Response(t) =>
          b'.(waiting := Without(b.waiting, i), granted := b.granted + [Burst(w.d, w.at, t)])
        case Again(p, t) => b'.(waiting := b.waiting[i := Wish(w.d.(p := p), t)])
        case _ => b'
  }

  ghost function After(burst: nat, acts: seq<Action>): Bus {
    if acts == [] then Bus(0, 0, [], [], [])
    else Apply(burst, After(burst, acts[..|acts|-1]), acts[|acts|-1])
  }

  // ---------------------------------------------------------------- the invariant

  /** At time x some burst occupies the bus. */
  ghost predicate Occupied(granted: seq<Burst>, x: int) {
    exists k :: 0 <= k < |granted| && granted[k].start <= x < granted[k].end
  }

  ghost predicate OccupiedThrough(granted: seq<Burst>, from: int, to: int) {
    forall x | from <= x < to :: Occupied(granted, x)
  }

  ghost predicate BurstOK(burst: nat, granted: seq<Burst>, g: Burst) {
    g.d.ready <= g.start && g.end == g.start + burst && OccupiedThrough(granted, g.d.ready, g.start)
  }

  ghost predicate WishOK(now: int, granted: seq<Burst>, w: Wish) {
    now <= w.at && w.d.ready <= w.at && OccupiedThrough(granted, w.d.ready, w.at)
  }

  ghost predicate Apart(granted: seq<Burst>, free: int) {
    && (forall j, k | 0 <= j < k < |granted| :: granted[j].end <= granted[k].start)
    && (forall k | 0 <= k < |granted| :: granted[k].end <= free)
  }

  function Wished(waiting: seq<Wish>): multiset<Data> {
    if waiting == [] then multiset{} else multiset{waiting[0].d} + Wished(waiting[1..])
  }

  function Served(granted: seq<Burst>): multiset<Data> {
    if granted == [] then multiset{} else Served(granted[..|granted|-1]) + multiset{granted[|granted|-1].d}
  }

  ghost predicate Inv(burst: nat, b: Bus) {
    && (forall k | 0 <= k < |b.waiting| :: WishOK(b.now, b.granted, b.waiting[k]))
    && (forall k | 0 <= k < |b.granted| :: BurstOK(burst, b.granted, b.granted[k]))
    && OccupiedThrough(b.granted, b.now, b.free)
    && Apart(b.granted, b.free)
    && multiset(b.asked) == Wished(b.waiting) + Served(b.granted)
  }

  lemma StillOccupied(granted: seq<Burst>, g: Burst, from: int, to: int)
    requires OccupiedThrough(granted, from, to)
    ensures OccupiedThrough(granted + [g], from, to)
  {
    forall x | from <= x < to
      ensures Occupied(granted + [g], x)
    {
      assert Occupied(granted, x);
      var k :| 0 <= k < |granted| && granted[k].start <= x < granted[k].end;
      assert (granted + [g])[k] == granted[k];
    }
  }

  lemma {:induction false} WishedSplit(waiting: seq<Wish>, i: nat)
    requires i < |waiting|
    ensures Wished(waiting) == Wished(Without(waiting, i)) + multiset{waiting[i].d}
  {
    if i > 0 {
      WishedSplit(waiting[1..], i - 1);
      assert Without(waiting, i)[1..] == Without(waiting[1..], i - 1);
    } else {
      assert Without(waiting, i) == waiting[1..];
    }
  }

  lemma {:induction false} WishedAppend(waiting: seq<Wish>, w: Wish)
    ensures Wished(waiting + [w]) == Wished(waiting) + multiset{w.d}
  {
    if waiting == [] {
      assert waiting + [w] == [w] && [w][1..] == [];
    } else {
      assert (waiting + [w])[1..] == waiting[1..] + [w];
      WishedAppend(waiting[1..], w);
    }
  }

  lemma Replaced(waiting: seq<Wish>, i: nat, w: Wish)
    requires i < |waiting| && w.d == waiting[i].d
    ensures Wished(waiting[i := w]) == Wished(waiting)
  {
    WishedSplit(waiting, i);
    WishedSplit(waiting[i := w], i);
    assert Without(waiting[i := w], i) == Without(waiting, i);
  }

  lemma ReadyInv(burst: nat, b: Bus, d: Data)
    requires Inv(burst, b) && d.ready >= b.now
    ensures Inv(burst, Apply(burst, b, Ready(d)))
  {
    WishedAppend(b.waiting, Wish(d, d.ready));
    hide Occupied;
  }

  lemma StillWishOK(now: int, now': int, granted: seq<Burst>, g: Burst, w: Wish)
    requires WishOK(now, granted, w) && now' <= w.at
    ensures WishOK(now', granted + [g], w)
  {
    StillOccupied(granted, g, w.d.ready, w.at);
    hide OccupiedThrough;
  }

  lemma StillBurstOK(burst: nat, granted: seq<Burst>, g: Burst, h: Burst)
    requires BurstOK(burst, granted, h)
    ensures BurstOK(burst, granted + [g], h)
  {
    StillOccupied(granted, g, h.d.ready, h.start);
    hide OccupiedThrough;
  }

  lemma NewBurstOccupies(granted: seq<Burst>, g: Burst)
    ensures OccupiedThrough(granted + [g], g.start, g.end)
  {
    assert (granted + [g])[|granted|] == g;
  }

  lemma Joined(granted: seq<Burst>, a: int, b: int, c: int, d: int)
    requires OccupiedThrough(granted, a, b) && OccupiedThrough(granted, c, d) && c <= b
    ensures OccupiedThrough(granted, a, d)
  {
    hide Occupied;
  }

  lemma StillApart(granted: seq<Burst>, free: int, g: Burst)
    requires Apart(granted, free) && free <= g.start <= g.end
    ensures Apart(granted + [g], g.end)
  {
  }

  lemma GrantInv(burst: nat, b: Bus, i: nat)
    requires Inv(burst, b) && Earliest(b.waiting, i) && b.waiting[i].at >= b.free
    ensures Inv(burst, Apply(burst, b, Handle(i)))
  {
    var b' := Apply(burst, b, Handle(i));
    var w := b.waiting[i];
    var g := Burst(w.d, w.at, w.at + burst);
    assert b' == b.(now := w.at, free := w.at + burst, waiting := Without(b.waiting, i), granted := b.granted + [g]);
    WishedSplit(b.waiting, i);
    assert b'.granted[..|b.granted|] == b.granted;
    assert Served(b'.granted) == Served(b.granted) + multiset{w.d};
    hide Wished, Served, Apply, OccupiedThrough, Apart, BurstOK;
    assert WishOK(b.now, b.granted, w);
    StillOccupied(b.granted, g, w.d.ready, w.at);
    NewBurstOccupies(b.granted, g);
    StillApart(b.granted, b.free, g);
    hide WishOK;
    forall k | 0 <= k < |b'.waiting|
      ensures WishOK(b'.now, b'.granted, b'.waiting[k])
    {
      var j := if k < i then k else k + 1;
      assert b'.waiting[k] == b.waiting[j] && WishOK(b.now, b.granted, b.waiting[j]);
      StillWishOK(b.now, b'.now, b.granted, g, b.waiting[j]);
    }
    forall k | 0 <= k < |b'.granted|
      ensures BurstOK(burst, b'.granted, b'.granted[k])
    {
      if k < |b.granted| {
        StillBurstOK(burst, b.granted, g, b.granted[k]);
      } else {
        NewBurstOK(burst, b.now, b.granted, w);
      }
    }
  }

  lemma NewBurstOK(burst: nat, now: int, granted: seq<Burst>, w: Wish)
    requires WishOK(now, granted, w)
    ensures var g := Burst(w.d, w.at, w.at + burst); BurstOK(burst, granted + [g], g)
  {
    StillOccupied(granted, Burst(w.d, w.at, w.at + burst), w.d.ready, w.at);
    hide OccupiedThrough;
  }

  lemma DeferInv(burst: nat, b: Bus, i: nat)
    requires Inv(burst, b) && Earliest(b.waiting, i) && b.waiting[i].at < b.free
    ensures Inv(burst, Apply(burst, b, Handle(i)))
  {
    var b' := Apply(burst, b, Handle(i));
    var w := b.waiting[i];
    var w' := Wish(w.d, b.free);
    assert b' == b.(now := w.at, waiting := b.waiting[i := w']);
    Replaced(b.waiting, i, w');
    hide Wished, Served, Apply, OccupiedThrough, Apart, BurstOK;
    assert WishOK(b.now, b.granted, w);
    Joined(b.granted, w.d.ready, w.at, b.now, b.free);
    Joined(b.granted, w.at, w.at, b.now, b.free);
    forall k | 0 <= k < |b'.waiting|
      ensures WishOK(b'.now, b'.granted, b'.waiting[k])
    {
      assert WishOK(b.now, b.granted, b.waiting[k]);
    }
  }

  lemma {:induction false} RunInv(burst: nat, acts: seq<Action>)
    ensures Inv(burst, After(burst, acts))
  {
    if acts != [] {
      var b := After(burst, acts[..|acts|-1]);
      RunInv(burst, acts[..|acts|-1]);
      if Enabled(b, acts[|acts|-1]) {
        match acts[|acts|-1]
        case Ready(d) => ReadyInv(burst, b, d);
        case Handle(i) =>
          if b.waiting[i].at >= b.free { GrantInv(burst, b, i); } else { DeferInv(burst, b, i); }
      }
    }
  }

  // ---------------------------------------------------------------- results

  /** In every history each read's data are still waiting or were granted, and that exactly once. */
  lemma GrantedOnce(burst: nat, acts: seq<Action>)
    ensures var b := After(burst, acts); multiset(b.asked) == Wished(b.waiting) + Served(b.granted)
  {
    RunInv(burst, acts);
  }

  /**
   In every history a burst takes its time, never overlaps a later one, and starts later than its data were ready only
   if the bus was occupied without a gap up to its start.
   */
  lemma LateOnlyIfBusy(burst: nat, acts: seq<Action>, k: nat)
    requires k < |After(burst, acts).granted|
    ensures var granted := After(burst, acts).granted; var g := granted[k];
            && g.d.ready <= g.start && g.end == g.start + burst
            && (forall x | g.d.ready <= x < g.start :: Occupied(granted, x))
            && (forall j | k < j < |granted| :: g.end <= granted[j].start)
  {
    RunInv(burst, acts);
    assert BurstOK(burst, After(burst, acts).granted, After(burst, acts).granted[k]);
  }

  // ---------------------------------------------------------------- nothing waits for ever

  /** How many events are to be handled before the bus is free. */
  function Early(waiting: seq<Wish>, free: int): (n: nat)
    ensures n <= |waiting|
  {
    if waiting == [] then 0 else (if waiting[0].at < free then 1 else 0) + Early(waiting[1..], free)
  }

  lemma {:induction false} OneFewer(waiting: seq<Wish>, i: nat, w: Wish, free: int)
    requires i < |waiting| && waiting[i].at < free <= w.at
    ensures Early(waiting[i := w], free) == Early(waiting, free) - 1
  {
    if i > 0 {
      OneFewer(waiting[1..], i - 1, w, free);
      assert waiting[i := w][1..] == waiting[1..][i - 1 := w];
    } else {
      assert waiting[i := w][1..] == waiting[1..];
    }
  }

  /** No more than this many events will be handled unless new data become ready. */
  function Handlings(b: Bus): nat {
    Triangle(|b.waiting|) + Early(b.waiting, b.free)
  }

  function Triangle(n: nat): nat {
    if n == 0 then 0 else n + Triangle(n - 1)
  }

  /** Every event handled takes the history closer to its end, so nothing is sent away for ever. */
  lemma HandlingCounts(burst: nat, b: Bus, i: nat)
    requires Earliest(b.waiting, i)
    ensures Handlings(Apply(burst, b, Handle(i))) < Handlings(b)
  {
    var w := b.waiting[i];
    if w.at < b.free {
      OneFewer(b.waiting, i, Wish(w.d, b.free), b.free);
    }
  }

  lemma {:induction false} SomeEarliest(waiting: seq<Wish>) returns (i: nat)
    requires waiting != []
    ensures Earliest(waiting, i)
  {
    i := 0;
    if |waiting| > 1 {
      var k := SomeEarliest(waiting[1..]);
      i := if waiting[0].at <= waiting[k + 1].at then 0 else k + 1;
      forall j | 0 <= j < |waiting|
        ensures waiting[i].at <= waiting[j].at
      {
        if j > 0 {
          assert waiting[1..][j-1] == waiting[j] && waiting[1..][k] == waiting[k + 1];
        }
      }
    }
  }

  /** From every state of a history handling the waiting events grants all of them. */
  lemma {:induction false} AllGranted(burst: nat, acts: seq<Action>) returns (more: seq<Action>)
    ensures |more| <= Handlings(After(burst, acts))
    ensures (forall k | 0 <= k < |more| :: more[k].Handle?) && After(burst, acts + more).waiting == []
    decreases Handlings(After(burst, acts))
  {
    var b := After(burst, acts);
    if b.waiting == [] {
      more := [];
      assert acts + more == acts;
    } else {
      var i := SomeEarliest(b.waiting);
      HandlingCounts(burst, b, i);
      var next := acts + [Handle(i)];
      assert next[..|next|-1] == acts;
      var rest := AllGranted(burst, next);
      more := [Handle(i)] + rest;
      assert acts + more == next + rest;
    }
  }
}

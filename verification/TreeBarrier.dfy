/** One episode of the tree barrier, with messages delivered in any order. */
module TreeBarrier {
  // Arrivals climb a binary tree of cores numbered 1, 2, 3, ... as in a heap, releases descend it.

  /** Arrive: the core itself, or one of its subtrees, has arrived. Release: the core may go on. */
  datatype Msg = Arrive(core: nat) | Release(core: nat)

  /** The program's leaf level as the number of its first core: half the greatest power of two up to size. */
  function FirstLeaf(size: nat): (p: nat)
    requires size >= 2
    ensures p >= 1 && 2 * p <= size < 4 * p
  {
    if size < 4 then 1 else 2 * FirstLeaf(size / 2)
  }

  predicate IsLeaf(half: nat, c: nat) {
    half <= c < 2 * half
  }

  datatype St = St(
    tree: seq<nat>,
    flight: multiset<Msg>,
    arrived: set<nat>,
    sent: set<nat>,            // history: cores that have passed the arrival of their subtree on
    active: multiset<nat>,
    delivered: nat)

  function Init(n: nat): St {
    St(seq(n + 1, _ => 0), multiset{}, {}, {}, multiset{}, 0)
  }

  /** Does this arrival complete the subtree of its core? */
  predicate Completes(half: nat, tree: seq<nat>, c: nat)
    requires c < |tree|
  {
    IsLeaf(half, c) || tree[c] + 1 == 3
  }

  function TreeAfter(half: nat, tree: seq<nat>, m: Msg): (t: seq<nat>)
    requires m.core < |tree|
    ensures |t| == |tree|
  {
    if m.Arrive? && !IsLeaf(half, m.core) then tree[m.core := tree[m.core] + 1] else tree
  }

  /** The messages that handling m posts. */
  function Posts(n: nat, half: nat, tree: seq<nat>, m: Msg): seq<Msg>
    requires m.core < |tree|
  {
    match m
    case Arrive(c) =>
      if !Completes(half, tree, c) then []
      else if !IsLeaf(half, c) && c == 1 then [Release(1)]
      else [Arrive(c / 2)]
    case Release(c) =>
      if 2 * c < n then [Release(2 * c), Release(2 * c + 1)] else []
  }

  // ---------------------------------------------------------------- the program

  class Barrier {
    const numThreads: nat
    var TreeInfo: seq<nat>

    constructor (numThreads: nat)
      ensures this.numThreads == numThreads && TreeInfo == Init(numThreads).tree
    {
      this.numThreads := numThreads;
      TreeInfo := seq(numThreads + 1, _ => 0);
    }

    method AddTreeInfo(node: nat)
      requires node < |TreeInfo|
      modifies this`TreeInfo
      ensures TreeInfo == old(TreeInfo)[node := old(TreeInfo)[node] + 1]
    {
      TreeInfo := TreeInfo[node := TreeInfo[node] + 1];
    }
  }

  class CoreBcastBus {
    var posted: seq<Msg>
    var activated: seq<nat>

    method HandleEvent(bar: Barrier, m: Msg)
      requires bar.numThreads >= 1 && |bar.TreeInfo| == bar.numThreads + 1 && m.core <= bar.numThreads
      modifies this, bar`TreeInfo
      ensures var half := FirstLeaf(bar.numThreads + 1);
              && bar.TreeInfo == TreeAfter(half, old(bar.TreeInfo), m)
              && posted == old(posted) + Posts(bar.numThreads, half, old(bar.TreeInfo), m)
      ensures activated == old(activated) + (if m.Release? then [m.core] else [])
    {
      var c := m.core;
      if m.Release? {
        activated := activated + [c];
        if c * 2 < bar.numThreads {
          posted := posted + [Release(c * 2), Release(c * 2 + 1)];
        }
      } else {
        var half := FirstLeaf(bar.numThreads + 1);
        if half <= c && c < 2 * half {
          posted := posted + [Arrive(c / 2)];
        } else {
          bar.AddTreeInfo(c);
          if bar.TreeInfo[c] == 3 {
            posted := posted + [if c == 1 then Release(1) else Arrive(c / 2)];
          }
        }
      }
    }
  }

  // ---------------------------------------------------------------- runs

  datatype Action = Post(core: nat) | Deliver(m: Msg)

  predicate Enabled(n: nat, S: St, a: Action) {
    match a
    case Post(c) => 1 <= c <= n && c !in S.arrived
    case Deliver(m) => m in S.flight && m.core < |S.tree|
  }

  function Do(n: nat, half: nat, S: St, a: Action): St
    requires Enabled(n, S, a)
  {
    match a
    case Post(c) => S.(arrived := S.arrived + {c}, flight := S.flight + multiset{Arrive(c)})
    case Deliver(m) =>
      S.(tree := TreeAfter(half, S.tree, m),
         flight := S.flight - multiset{m} + multiset(Posts(n, half, S.tree, m)),
         sent := if m.Arrive? && Completes(half, S.tree, m.core) then S.sent + {m.core} else S.sent,
         active := if m.Release? then S.active + multiset{m.core} else S.active,
         delivered := S.delivered + 1)
  }

  ghost predicate Next(n: nat, half: nat, S: St, S': St) {
    exists a :: Enabled(n, S, a) && S' == Do(n, half, S, a)
  }

  ghost predicate StepAt(n: nat, half: nat, run: seq<St>, i: nat)
    requires i + 1 < |run|
  {
    Next(n, half, run[i], run[i+1])
  }

  ghost predicate IsRun(n: nat, half: nat, run: seq<St>) {
    |run| > 0 && run[0] == Init(n) && forall i | 0 <= i < |run| - 1 :: StepAt(n, half, run, i)
  }

  function Last(run: seq<St>): St
    requires |run| > 0
  {
    run[|run|-1]
  }

  // ---------------------------------------------------------------- invariant

  function B(b: bool): nat {
    if b then 1 else 0
  }

  /** Arrivals at core c: counted, in flight, or not yet sent. */
  ghost predicate ArrivalOK(half: nat, S: St, c: nat) {
    && c < |S.tree|
    && if IsLeaf(half, c) then
         S.flight[Arrive(c)] == B(c in S.arrived && c !in S.sent) && (c in S.sent ==> c in S.arrived)
       else if c < half then
         && S.tree[c] + S.flight[Arrive(c)] == B(c in S.arrived) + B(2 * c in S.sent) + B(2 * c + 1 in S.sent)
         && (c in S.sent <==> S.tree[c] >= 3)
       else S.tree[c] + S.flight[Arrive(c)] == B(c in S.arrived) && c !in S.sent
  }

  /** Releases of core c: granted or in flight, as often as its parent was activated. */
  ghost predicate ReleaseOK(n: nat, S: St, c: nat) {
    S.flight[Release(c)] + S.active[c] ==
      if c == 1 then B(1 in S.sent) else if 2 * (c / 2) < n then S.active[c / 2] else 0
  }

  /** The activated cores that have passed the release on. */
  ghost function Parents(n: nat, S: St): set<nat> {
    set c: nat | c < n && c in S.active && 2 * c < n
  }

  ghost predicate Ranges(n: nat, half: nat, S: St) {
    && |S.tree| == n + 1
    && (forall c | c in S.arrived :: 1 <= c <= n)
    && (forall c | c in S.sent :: 1 <= c < 2 * half)
    && (forall m | m in S.flight :: 1 <= m.core <= n)
    && 0 !in S.active
  }

  ghost predicate CoresOK(n: nat, half: nat, S: St) {
    forall c: nat | 1 <= c <= n :: ArrivalOK(half, S, c) && ReleaseOK(n, S, c)
  }

  /** Every message ever posted was delivered or is in flight. */
  ghost predicate Counted(n: nat, S: St) {
    S.delivered + |S.flight| == |S.arrived| + |S.sent| + 2 * |Parents(n, S)|
  }

  ghost predicate Inv(n: nat, half: nat, S: St) {
    Ranges(n, half, S) && CoresOK(n, half, S) && Counted(n, S)
  }

  /** The shape the invariant needs: at least one inner core, and a full tree within 1..n. */
  predicate Shape(n: nat, half: nat) {
    half >= 2 && 2 * half - 1 <= n
  }

  lemma {:induction false} ActiveAtMostOnce(n: nat, half: nat, S: St, c: nat)
    requires CoresOK(n, half, S) && 1 <= c <= n
    ensures S.active[c] + S.flight[Release(c)] <= 1
    ensures S.active[c] >= 1 ==> 1 in S.sent
    decreases c
  {
    assert ReleaseOK(n, S, c);
    if c > 1 {
      ActiveAtMostOnce(n, half, S, c / 2);
    }
  }

  /** Whoever passed an arrival on has arrived, and so has everybody below. */
  lemma {:induction false} SentBelow(n: nat, half: nat, S: St, c: nat)
    requires Shape(n, half) && Inv(n, half, S) && 1 in S.sent && 1 <= c < 2 * half
    ensures c in S.sent && c in S.arrived
    decreases c
  {
    assert ArrivalOK(half, S, c);
    if c > 1 {
      SentBelow(n, half, S, c / 2);
      assert ArrivalOK(half, S, c / 2);
      assert c == 2 * (c / 2) || c == 2 * (c / 2) + 1;
    }
  }

  lemma PostInv(n: nat, half: nat, S: St, c: nat)
    requires Shape(n, half) && Inv(n, half, S) && Enabled(n, S, Post(c))
    ensures Inv(n, half, Do(n, half, S, Post(c)))
  {
    var S' := Do(n, half, S, Post(c));
    assert ArrivalOK(half, S, c);
    assert Counted(n, S') by {
      assert Parents(n, S') == Parents(n, S);
    }
    forall d: nat | 1 <= d <= n
      ensures ArrivalOK(half, S', d) && ReleaseOK(n, S', d)
    {
      assert ArrivalOK(half, S, d) && ReleaseOK(n, S, d);
    }
  }

  lemma Halves(c: nat, d: nat)
    ensures c == 2 * d || c == 2 * d + 1 <==> c / 2 == d
  {
  }

  /** The multiset of messages after one was replaced by others. */
  lemma Replaced(flight: multiset<Msg>, m: Msg, posts: seq<Msg>, x: Msg)
    requires m in flight
    ensures (flight - multiset{m} + multiset(posts))[x] == flight[x] - B(x == m) + multiset(posts)[x]
    ensures |flight - multiset{m} + multiset(posts)| == |flight| - 1 + |posts|
  {
  }

  lemma ArriveKeepsArrivals(n: nat, half: nat, S: St, c: nat, d: nat)
    requires Shape(n, half) && |S.tree| == n + 1 && Enabled(n, S, Deliver(Arrive(c))) && 1 <= c <= n && 1 <= d <= n
    requires ArrivalOK(half, S, c) && ArrivalOK(half, S, d)
    ensures ArrivalOK(half, Do(n, half, S, Deliver(Arrive(c))), d)
  {
    Replaced(S.flight, Arrive(c), Posts(n, half, S.tree, Arrive(c)), Arrive(d));
    Halves(c, d);
  }

  lemma ArriveKeepsReleases(n: nat, half: nat, S: St, c: nat, d: nat)
    requires Shape(n, half) && |S.tree| == n + 1 && Enabled(n, S, Deliver(Arrive(c))) && 1 <= c <= n && 1 <= d <= n
    requires ArrivalOK(half, S, c) && ReleaseOK(n, S, d)
    ensures ReleaseOK(n, Do(n, half, S, Deliver(Arrive(c))), d)
  {
    Replaced(S.flight, Arrive(c), Posts(n, half, S.tree, Arrive(c)), Release(d));
  }

  lemma ArriveCompletes(half: nat, S: St, c: nat)
    requires ArrivalOK(half, S, c) && Arrive(c) in S.flight
    ensures Completes(half, S.tree, c) ==> c !in S.sent && c < 2 * half
  {
  }

  lemma ArriveCounted(n: nat, half: nat, S: St, c: nat)
    requires Ranges(n, half, S) && Counted(n, S) && Arrive(c) in S.flight
    requires Completes(half, S.tree, c) ==> c !in S.sent
    ensures Counted(n, Do(n, half, S, Deliver(Arrive(c))))
  {
    var S' := Do(n, half, S, Deliver(Arrive(c)));
    Replaced(S.flight, Arrive(c), Posts(n, half, S.tree, Arrive(c)), Arrive(c));
    assert Parents(n, S') == Parents(n, S);
  }

  lemma ArriveInv(n: nat, half: nat, S: St, c: nat)
    requires Shape(n, half) && Inv(n, half, S) && Enabled(n, S, Deliver(Arrive(c)))
    ensures Inv(n, half, Do(n, half, S, Deliver(Arrive(c))))
  {
    var S' := Do(n, half, S, Deliver(Arrive(c)));
    ArriveCompletes(half, S, c);
    ArriveCounted(n, half, S, c);
    forall d: nat | 1 <= d <= n
      ensures ArrivalOK(half, S', d) && ReleaseOK(n, S', d)
    {
      ArriveKeepsArrivals(n, half, S, c, d);
      ArriveKeepsReleases(n, half, S, c, d);
    }
    hide ArrivalOK, ReleaseOK, Counted;
  }

  lemma ReleaseKeepsArrivals(n: nat, half: nat, S: St, c: nat, d: nat)
    requires Shape(n, half) && |S.tree| == n + 1 && Enabled(n, S, Deliver(Release(c))) && 1 <= c <= n && 1 <= d <= n
    requires ArrivalOK(half, S, d)
    ensures ArrivalOK(half, Do(n, half, S, Deliver(Release(c))), d)
  {
    Replaced(S.flight, Release(c), Posts(n, half, S.tree, Release(c)), Arrive(d));
  }

  lemma ReleaseKeepsReleases(n: nat, half: nat, S: St, c: nat, d: nat)
    requires Shape(n, half) && |S.tree| == n + 1 && Enabled(n, S, Deliver(Release(c))) && 1 <= c <= n && 1 <= d <= n
    requires ReleaseOK(n, S, d)
    ensures ReleaseOK(n, Do(n, half, S, Deliver(Release(c))), d)
  {
    Replaced(S.flight, Release(c), Posts(n, half, S.tree, Release(c)), Release(d));
    Halves(d, c);
  }

  lemma ParentsGrow(n: nat, S: St, S': St, c: nat)
    requires c !in S.active && S'.active == S.active + multiset{c}
    ensures |Parents(n, S')| == |Parents(n, S)| + B(2 * c < n)
  {
    assert Parents(n, S') == if 2 * c < n then Parents(n, S) + {c} else Parents(n, S);
  }

  lemma ReleaseCounted(n: nat, half: nat, S: St, c: nat)
    requires Ranges(n, half, S) && Counted(n, S) && Release(c) in S.flight && c !in S.active
    ensures Counted(n, Do(n, half, S, Deliver(Release(c))))
  {
    var S' := Do(n, half, S, Deliver(Release(c)));
    Replaced(S.flight, Release(c), Posts(n, half, S.tree, Release(c)), Release(c));
    ParentsGrow(n, S, S', c);
    hide Parents;
  }

  lemma ReleaseInv(n: nat, half: nat, S: St, c: nat)
    requires Shape(n, half) && Inv(n, half, S) && Enabled(n, S, Deliver(Release(c)))
    ensures Inv(n, half, Do(n, half, S, Deliver(Release(c))))
  {
    var S' := Do(n, half, S, Deliver(Release(c)));
    ActiveAtMostOnce(n, half, S, c);
    ReleaseCounted(n, half, S, c);
    forall d: nat | 1 <= d <= n
      ensures ArrivalOK(half, S', d) && ReleaseOK(n, S', d)
    {
      ReleaseKeepsArrivals(n, half, S, c, d);
      ReleaseKeepsReleases(n, half, S, c, d);
    }
    hide ArrivalOK, ReleaseOK, Counted;
  }

  lemma NextInv(n: nat, half: nat, S: St, S': St)
    requires Shape(n, half) && Inv(n, half, S) && Next(n, half, S, S')
    ensures Inv(n, half, S')
  {
    var a :| Enabled(n, S, a) && S' == Do(n, half, S, a);
    match a
    case Post(c) => PostInv(n, half, S, c);
    case Deliver(m) =>
      match m
      case Arrive(c) => ArriveInv(n, half, S, c);
      case Release(c) => ReleaseInv(n, half, S, c);
  }

  lemma InitInv(n: nat, half: nat)
    requires Shape(n, half)
    ensures Inv(n, half, Init(n))
  {
    assert Parents(n, Init(n)) == {};
  }

  lemma {:induction false} RunInv(n: nat, half: nat, run: seq<St>)
    requires Shape(n, half) && IsRun(n, half, run)
    ensures Inv(n, half, Last(run))
  {
    hide Inv;
    if |run| == 1 {
      InitInv(n, half);
    } else {
      var k := |run| - 2;
      var pre := run[..k+1];
      forall i | 0 <= i < |pre| - 1
        ensures StepAt(n, half, pre, i)
      {
        assert StepAt(n, half, run, i);
      }
      RunInv(n, half, pre);
      assert StepAt(n, half, run, k);
      NextInv(n, half, run[k], run[k+1]);
    }
  }

  // ---------------------------------------------------------------- results

  /** The program's tree is the whole set of cores: n = 2^k - 1 with k >= 2. */
  predicate FullTree(n: nat) {
    n >= 3 && n == 2 * FirstLeaf(n + 1) - 1
  }

  /** No core is activated before all n have arrived, and none is activated twice. */
  lemma ReleasedOnceAndNotEarly(n: nat, run: seq<St>, c: nat)
    requires FullTree(n) && IsRun(n, FirstLeaf(n + 1), run) && 1 <= c <= n
    ensures Last(run).active[c] <= 1
    ensures Last(run).active[c] >= 1 ==> forall d: nat | 1 <= d <= n :: d in Last(run).arrived
  {
    var half := FirstLeaf(n + 1);
    RunInv(n, half, run);
    ActiveAtMostOnce(n, half, Last(run), c);
    if Last(run).active[c] >= 1 {
      forall d: nat | 1 <= d <= n
        ensures d in Last(run).arrived
      {
        SentBelow(n, half, Last(run), d);
      }
    }
  }

  /** The cores 1..k. */
  function Cores(k: nat): (s: set<nat>)
    ensures forall c :: c in s <==> 1 <= c <= k
    ensures |s| == k
  {
    if k == 0 then {} else Cores(k - 1) + {k}
  }

  lemma SubsetCount(a: set<nat>, b: set<nat>)
    requires a <= b
    ensures |a| <= |b|
  {
    assert b == a + (b - a);
  }

  /** When nothing is in flight and the tree's cores have arrived, every arrival has climbed to the top. */
  lemma {:induction false} Climbed(n: nat, half: nat, S: St, c: nat)
    requires Shape(n, half) && Inv(n, half, S) && S.flight == multiset{} && Cores(2 * half - 1) <= S.arrived
    requires 1 <= c < 2 * half
    ensures c in S.sent
    decreases 2 * half - c
  {
    assert c in Cores(2 * half - 1);
    assert ArrivalOK(half, S, c);
    if c < half {
      Climbed(n, half, S, 2 * c);
      Climbed(n, half, S, 2 * c + 1);
    }
  }

  /** ... and the release has come down to every core. */
  lemma {:induction false} Descended(n: nat, half: nat, S: St, c: nat)
    requires Shape(n, half) && Inv(n, half, S) && S.flight == multiset{} && Cores(2 * half - 1) <= S.arrived
    requires n == 2 * half - 1 && 1 <= c <= n
    ensures S.active[c] == 1
    decreases c
  {
    Climbed(n, half, S, 1);
    assert ReleaseOK(n, S, c);
    if c > 1 {
      Descended(n, half, S, c / 2);
    }
  }

  /** No run delivers more than 3n - 1 messages: two per core on the way up, less one, and one on the way down. */
  lemma DeliveriesBounded(n: nat, run: seq<St>)
    requires FullTree(n) && IsRun(n, FirstLeaf(n + 1), run)
    ensures Last(run).delivered + |Last(run).flight| <= 3 * n - 1
  {
    var half := FirstLeaf(n + 1);
    RunInv(n, half, run);
    InvBound(n, half, Last(run));
  }

  lemma InvBound(n: nat, half: nat, S: St)
    requires Shape(n, half) && Inv(n, half, S)
    ensures S.delivered + |S.flight| <= n + (2 * half - 1) + 2 * ((n - 1) / 2)
  {
    SubsetCount(S.arrived, Cores(n));
    SubsetCount(S.sent, Cores(2 * half - 1));
    SubsetCount(Parents(n, S), Cores((n - 1) / 2));
  }

  /** Once all have arrived and nothing is in flight, every core was activated once, after exactly 3n - 1 deliveries. */
  lemma DrainedMeansReleased(n: nat, run: seq<St>)
    requires FullTree(n) && IsRun(n, FirstLeaf(n + 1), run)
    requires Last(run).flight == multiset{} && Cores(n) <= Last(run).arrived
    ensures forall c: nat | 1 <= c <= n :: Last(run).active[c] == 1
    ensures Last(run).delivered == 3 * n - 1
  {
    var half := FirstLeaf(n + 1);
    var S := Last(run);
    RunInv(n, half, run);
    forall c: nat | 1 <= c <= n
      ensures S.active[c] == 1 && c in S.sent
    {
      Climbed(n, half, S, c);
      Descended(n, half, S, c);
    }
    AllReleasedCount(n, half, S);
  }

  lemma AllReleasedCount(n: nat, half: nat, S: St)
    requires n == 2 * half - 1 && half >= 1 && Ranges(n, half, S) && Counted(n, S) && S.flight == multiset{}
    requires Cores(n) <= S.arrived && forall c: nat | 1 <= c <= n :: S.active[c] == 1 && c in S.sent
    ensures S.delivered == 3 * n - 1
  {
    AllAtWork(n, half, S);
  }

  lemma AllAtWork(n: nat, half: nat, S: St)
    requires n == 2 * half - 1 && half >= 1 && Ranges(n, half, S)
    requires Cores(n) <= S.arrived && forall c: nat | 1 <= c <= n :: S.active[c] == 1 && c in S.sent
    ensures |S.arrived| == n && |S.sent| == n && |Parents(n, S)| == half - 1
  {
    assert S.arrived == Cores(n) && S.sent == Cores(n);
    forall c: nat
      ensures c in Parents(n, S) <==> c in Cores(half - 1)
    {
    }
    assert Parents(n, S) == Cores(half - 1);
  }

  // ---------------------------------------------------------------- which sizes work

  lemma Extended(n: nat, half: nat, run: seq<St>, a: Action) returns (run': seq<St>)
    requires IsRun(n, half, run) && Enabled(n, Last(run), a)
    ensures IsRun(n, half, run') && Last(run') == Do(n, half, Last(run), a)
  {
    run' := run + [Do(n, half, Last(run), a)];
    forall i | 0 <= i < |run'| - 1
      ensures StepAt(n, half, run', i)
    {
      if i < |run| - 1 {
        assert StepAt(n, half, run, i);
      }
    }
  }

  /** The cores 1..k arrive one after another. */
  lemma {:induction false} ArriveUpTo(n: nat, half: nat, k: nat) returns (run: seq<St>)
    requires k <= n
    ensures IsRun(n, half, run) && Last(run).arrived == Cores(k)
  {
    if k == 0 {
      run := [Init(n)];
    } else {
      var pre := ArriveUpTo(n, half, k - 1);
      run := Extended(n, half, pre, Post(k));
    }
  }

  /** Any run can be continued by deliveries until nothing is in flight. */
  lemma {:induction false} Drain(n: nat, half: nat, run: seq<St>) returns (drained: seq<St>)
    requires Shape(n, half) && IsRun(n, half, run)
    ensures IsRun(n, half, drained) && Last(drained).flight == multiset{}
    ensures Last(drained).arrived == Last(run).arrived
    decreases 5 * n - Last(run).delivered
  {
    RunInv(n, half, run);
    InvBound(n, half, Last(run));
    if Last(run).flight == multiset{} {
      drained := run;
    } else {
      var m :| m in Last(run).flight;
      var longer := Extended(n, half, run, Deliver(m));
      drained := Drain(n, half, longer);
    }
  }

  ghost predicate Safe(n: nat)
    requires n >= 1
  {
    forall run, c: nat | IsRun(n, FirstLeaf(n + 1), run) && 1 <= c <= n && Last(run).active[c] >= 1 ::
      Cores(n) <= Last(run).arrived
  }

  ghost predicate Live(n: nat)
    requires n >= 1
  {
    forall run, c: nat | IsRun(n, FirstLeaf(n + 1), run) && Last(run).flight == multiset{} &&
                         Cores(n) <= Last(run).arrived && 1 <= c <= n ::
      Last(run).active[c] >= 1
  }

  /** With one or two cores the root is a leaf: nobody is ever released. */
  lemma {:induction false} SmallNeverReleases(n: nat, run: seq<St>)
    requires IsRun(n, 1, run)
    ensures Last(run).active == multiset{} && forall m | m in Last(run).flight :: m.Arrive?
  {
    if |run| > 1 {
      var k := |run| - 2;
      var pre := run[..k+1];
      forall i | 0 <= i < |pre| - 1
        ensures StepAt(n, 1, pre, i)
      {
        assert StepAt(n, 1, run, i);
      }
      SmallNeverReleases(n, pre);
      assert StepAt(n, 1, run, k);
      var a :| Enabled(n, run[k], a) && run[k+1] == Do(n, 1, run[k], a);
      SmallStep(n, run[k], a);
    }
  }

  lemma SmallStep(n: nat, S: St, a: Action)
    requires Enabled(n, S, a) && S.active == multiset{} && forall m | m in S.flight :: m.Arrive?
    ensures Do(n, 1, S, a).active == multiset{} && forall m | m in Do(n, 1, S, a).flight :: m.Arrive?
  {
    if a.Deliver? {
      assert a.m in S.flight;
      forall m | m in Do(n, 1, S, a).flight
        ensures m.Arrive?
      {
        Replaced(S.flight, a.m, Posts(n, 1, S.tree, a.m), m);
      }
    }
  }

  lemma PostAlone(n: nat, S: St, c: nat)
    requires S.flight == multiset{} && Enabled(n, S, Post(c))
    ensures var S' := Do(n, 1, S, Post(c));
            S'.flight == multiset{Arrive(c)} && S'.tree == S.tree && S'.arrived == S.arrived + {c}
  {
  }

  lemma RootForwards(n: nat, S: St)
    requires S.flight == multiset{Arrive(1)} && |S.tree| > 1
    ensures var S' := Do(n, 1, S, Deliver(Arrive(1)));
            S'.flight == multiset{Arrive(0)} && S'.tree == S.tree && S'.arrived == S.arrived
  {
  }

  lemma OnlyCounted(n: nat, S: St, c: nat)
    requires S.flight == multiset{Arrive(c)} && c != 1 && c < |S.tree| && S.tree[c] == 0
    ensures var S' := Do(n, 1, S, Deliver(Arrive(c)));
            S'.flight == multiset{} && S'.tree == S.tree[c := 1] && S'.arrived == S.arrived
  {
  }

  /** Such a run: both cores arrive, and the messages come to rest at places where they are only counted. */
  lemma SmallDrained(n: nat) returns (run: seq<St>)
    requires 1 <= n <= 2
    ensures IsRun(n, 1, run) && Last(run).flight == multiset{} && Cores(n) <= Last(run).arrived
  {
    hide IsRun, Do;
    run := Alone(n);
    PostAlone(n, Last(run), 1);
    run := Extended(n, 1, run, Post(1));
    RootForwards(n, Last(run));
    run := Extended(n, 1, run, Deliver(Arrive(1)));
    OnlyCounted(n, Last(run), 0);
    run := Extended(n, 1, run, Deliver(Arrive(0)));
    if n == 2 {
      PostAlone(n, Last(run), 2);
      run := Extended(n, 1, run, Post(2));
      OnlyCounted(n, Last(run), 2);
      run := Extended(n, 1, run, Deliver(Arrive(2)));
    }
  }

  lemma Alone(n: nat) returns (run: seq<St>)
    ensures IsRun(n, 1, run) && Last(run) == Init(n)
  {
    run := [Init(n)];
  }

  /** With cores beyond the full tree, the root is released although the last core has not arrived. */
  lemma ExtraCoresUnsafe(n: nat)
    requires n >= 3 && !FullTree(n)
    ensures !Safe(n)
  {
    var half := FirstLeaf(n + 1);
    var posted := ArriveUpTo(n, half, 2 * half - 1);
    var run := Drain(n, half, posted);
    RunInv(n, half, run);
    Climbed(n, half, Last(run), 1);
    assert ReleaseOK(n, Last(run), 1);
    assert Last(run).active[1] >= 1 && n in Cores(n) && n !in Last(run).arrived;
  }

  lemma FullTreeWorks(n: nat)
    requires FullTree(n)
    ensures Safe(n) && Live(n)
  {
    forall run, c: nat | IsRun(n, FirstLeaf(n + 1), run) && 1 <= c <= n
      ensures Last(run).active[c] >= 1 ==> Cores(n) <= Last(run).arrived
      ensures Last(run).flight == multiset{} && Cores(n) <= Last(run).arrived ==> Last(run).active[c] >= 1
    {
      ReleasedOnceAndNotEarly(n, run, c);
      if Last(run).flight == multiset{} && Cores(n) <= Last(run).arrived {
        DrainedMeansReleased(n, run);
      }
    }
  }

  /** The barrier holds back and then releases everybody exactly for n = 2^k - 1 with k >= 2. */
  lemma WorksIffFullTree(n: nat)
    requires n >= 1
    ensures Safe(n) && Live(n) <==> FullTree(n)
  {
    if FullTree(n) {
      FullTreeWorks(n);
    } else if n >= 3 {
      ExtraCoresUnsafe(n);
    } else {
      var run := SmallDrained(n);
      SmallNeverReleases(n, run);
      assert Last(run).active[1] == 0;
    }
  }

  /**
   The first leaf is half the greatest power of two up to size, so a full tree has one core less than a power of two.
   */
  lemma {:induction false} FirstLeafIsPower(size: nat) returns (k: nat)
    requires size >= 2
    ensures FirstLeaf(size) == Power(k) && Power(k + 1) <= size < Power(k + 2)
  {
    if size < 4 {
      k := 0;
    } else {
      var j := FirstLeafIsPower(size / 2);
      k := j + 1;
    }
  }

  function Power(k: nat): nat {
    if k == 0 then 1 else 2 * Power(k - 1)
  }
}

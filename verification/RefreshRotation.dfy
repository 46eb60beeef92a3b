/** The refresh counters: which rank asks for a refresh at which tick. */
module RefreshRotation {
  import opened DramTypes

  datatype Rotation = Rotation(count: seq<int>, cursor: nat)

  /** The refresh period in ticks, and the share of one rank, as the program truncates them. */
  function Period(x: real): int {
    x.Floor
  }

  function Share(x: real, n: nat): int
    requires n >= 1
  {
    (x / n as real).Floor
  }

  lemma SharesFitPeriod(x: real, n: nat)
    requires n >= 1 && x >= 0.0
    ensures Share(x, n) * n <= Period(x)
  {
    var q := Share(x, n);
    assert q as real <= x / n as real;
    assert q as real * n as real <= x / n as real * n as real == x;
    assert (q * n) as real <= x;
  }

  function Start(x: real, n: nat): Rotation
    requires n >= 1
  {
    Rotation(seq(n, i requires 0 <= i < n => Share(x, n) * (i + 1)), 0)
  }

  predicate Requests(rot: Rotation)
    requires rot.cursor < |rot.count|
  {
    rot.count[rot.cursor] == 0
  }

  /** The rank under the cursor may ask and is rewound. */
  function Ask(period: int, rot: Rotation): (r: Rotation)
    requires rot.cursor < |rot.count|
    ensures |r.count| == |rot.count| && r.cursor < |r.count|
  {
    if Requests(rot) then
      Rotation(rot.count[rot.cursor := period], if rot.cursor + 1 == |rot.count| then 0 else rot.cursor + 1)
    else rot
  }

  function CountedDown(count: seq<int>): seq<int> {
    seq(|count|, i requires 0 <= i < |count| => count[i] - 1)
  }

  /** One tick: the rank under the cursor may ask, then every counter loses one. */
  function Tick(period: int, rot: Rotation): (r: Rotation)
    requires rot.cursor < |rot.count|
    ensures |r.count| == |rot.count| && r.cursor < |r.count|
  {
    Rotation(CountedDown(Ask(period, rot).count), Ask(period, rot).cursor)
  }

  /** The counters before tick t. */
  function At(x: real, n: nat, t: nat): (r: Rotation)
    requires n >= 1
    ensures |r.count| == n && r.cursor < n
  {
    if t == 0 then Start(x, n) else Tick(Period(x), At(x, n, t - 1))
  }

  /** The tick of rank i's request in round m. */
  function Due(q: int, period: int, i: nat, m: nat): int {
    q * (i + 1) + m * period
  }

  lemma DueOrdered(q: int, period: int, n: nat, i: nat, m: nat, j: nat, k: nat)
    requires q >= 1 && q * n <= period && i < n && j < n
    requires m < k || (m == k && i < j)
    ensures Due(q, period, i, m) < Due(q, period, j, k)
  {
    if m == k {
      assert q * (i + 1) < q * (j + 1);
    } else {
      assert q * (i + 1) <= q * n;
      assert (m + 1) * period <= k * period;
      assert q * (j + 1) >= 1;
    }
  }

  /** In round m, with the cursor at c, before tick t. */
  ghost predicate InRound(q: int, period: int, n: nat, t: nat, rot: Rotation, m: nat) {
    && |rot.count| == n && rot.cursor < n
    && (forall i: nat | i < n ::
          rot.count[i] == Due(q, period, i, if i < rot.cursor then m + 1 else m) - t)
    && t <= Due(q, period, rot.cursor, m)
    && (rot.cursor > 0 ==> t > Due(q, period, rot.cursor - 1, m))
    && (rot.cursor == 0 && m > 0 ==> t > Due(q, period, n - 1, m - 1))
  }

  lemma TickInRound(q: int, period: int, n: nat, t: nat, rot: Rotation, m: nat) returns (m': nat)
    requires q >= 1 && q * n <= period && InRound(q, period, n, t, rot, m)
    ensures InRound(q, period, n, t + 1, Tick(period, rot), m')
  {
    m' := m;
    if Requests(rot) {
      if rot.cursor + 1 == n {
        m' := m + 1;
        DueOrdered(q, period, n, n - 1, m, 0, m + 1);
      } else {
        DueOrdered(q, period, n, rot.cursor, m, rot.cursor + 1, m);
      }
      assert (m + 1) * period == m * period + period;
    }
  }

  lemma {:induction false} AlwaysInRound(x: real, n: nat, t: nat) returns (m: nat)
    requires n >= 1 && x >= 0.0 && Share(x, n) >= 1
    ensures InRound(Share(x, n), Period(x), n, t, At(x, n, t), m)
  {
    SharesFitPeriod(x, n);
    if t == 0 {
      m := 0;
    } else {
      var k := AlwaysInRound(x, n, t - 1);
      m := TickInRound(Share(x, n), Period(x), n, t - 1, At(x, n, t - 1), k);
    }
  }

  /** Rank i asks for a refresh exactly at the ticks q*(i+1) + m*P. */
  lemma RequestSchedule(x: real, n: nat, t: nat, i: nat)
    requires n >= 1 && x >= 0.0 && Share(x, n) >= 1 && i < n
    ensures At(x, n, t).cursor == i && Requests(At(x, n, t)) <==>
            exists m: nat :: t == Due(Share(x, n), Period(x), i, m)
  {
    SharesFitPeriod(x, n);
    var rot := At(x, n, t);
    var k := AlwaysInRound(x, n, t);
    var q, p := Share(x, n), Period(x);
    if rot.cursor == i && Requests(rot) {
      assert t == Due(q, p, i, k);
    }
    forall m: nat | t == Due(q, p, i, m)
      ensures rot.cursor == i && Requests(rot)
    {
      if m < k || (m == k && i < rot.cursor) {
        if rot.cursor > 0 {
          if i != rot.cursor - 1 || m != k { DueOrdered(q, p, n, i, m, rot.cursor - 1, k); }
        } else {
          if i != n - 1 || m != k - 1 { DueOrdered(q, p, n, i, m, n - 1, k - 1); }
        }
      } else if !(m == k && i == rot.cursor) {
        DueOrdered(q, p, n, rot.cursor, k, i, m);
      }
    }
  }

  /** The cursor always stands at the rank with the least count, and no count goes below zero unserved. */
  lemma CursorAtLeast(x: real, n: nat, t: nat, i: nat)
    requires n >= 1 && x >= 0.0 && Share(x, n) >= 1 && i < n
    ensures var rot := At(x, n, t); 0 <= rot.count[rot.cursor] <= rot.count[i]
    ensures var rot := At(x, n, t); i != rot.cursor ==> rot.count[rot.cursor] < rot.count[i]
  {
    SharesFitPeriod(x, n);
    var rot := At(x, n, t);
    var k := AlwaysInRound(x, n, t);
    var q, p := Share(x, n), Period(x);
    if i < rot.cursor {
      DueOrdered(q, p, n, rot.cursor, k, i, k + 1);
    } else if i > rot.cursor {
      DueOrdered(q, p, n, rot.cursor, k, i, k);
    }
  }
}

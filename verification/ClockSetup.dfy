/** The greatest common divisor and least common multiple that give every core its step size. */
module ClockSetup {

  ghost predicate Positive(f: seq<int>) {
    |f| > 0 && forall i | 0 <= i < |f| :: f[i] > 0
  }

  ghost predicate DividesAll(d: int, f: seq<int>) {
    d > 0 && forall i | 0 <= i < |f| :: f[i] % d == 0
  }

  ghost predicate MultipleOfAll(m: int, f: seq<int>) {
    m > 0 && forall i | 0 <= i < |f| :: f[i] > 0 && m % f[i] == 0
  }

  ghost predicate IsHCF(d: int, f: seq<int>) {
    DividesAll(d, f) && forall e | DividesAll(e, f) :: e <= d
  }

  ghost predicate IsLCM(m: int, f: seq<int>) {
    MultipleOfAll(m, f) && forall k | MultipleOfAll(k, f) :: m <= k
  }

  lemma RemainderOfSmaller(a: int, d: int)
    requires 0 < a < d
    ensures a % d != 0
  {
  }

  /** Tries 1, 2, 3, ... until a frequency itself is met; keeps the last number that divides them all. */
  method ComputeHCF(freqList: seq<int>) returns (hcf: int)
    requires Positive(freqList)
    ensures IsHCF(hcf, freqList)
  {
    hcf := 1;
    var i := 1;
    var found := false;
    while !found
      invariant 1 <= i && 1 <= hcf
      invariant !found ==> i <= freqList[0]
      invariant DividesAll(hcf, freqList)
      invariant forall e | 0 < e < i && DividesAll(e, freqList) :: e <= hcf
      invariant found ==> exists j :: 0 <= j < |freqList| && freqList[j] == i - 1
      decreases freqList[0] - i, !found
    {
      var flag := true;
      var j := 0;
      while j < |freqList| && flag
        invariant 0 <= j <= |freqList|
        invariant flag ==> forall k | 0 <= k < j :: freqList[k] % i == 0
        invariant !flag ==> j < |freqList| && freqList[j] % i != 0
        invariant found ==> exists k :: 0 <= k < |freqList| && freqList[k] == i
        invariant !found && j > 0 ==> freqList[0] != i
        decreases |freqList| - j, flag
      {
        if freqList[j] % i != 0 {
          flag := false;
        } else {
          if freqList[j] == i {
            found := true;
          }
          j := j + 1;
        }
      }
      if flag {
        hcf := i;
      }
      assert i % i == 0;
      assert !found ==> i < freqList[0];
      i := i + 1;
    }
    forall e | DividesAll(e, freqList)
      ensures e <= hcf
    {
      var j :| 0 <= j < |freqList| && freqList[j] == i - 1;
      if e >= i { RemainderOfSmaller(freqList[j], e); }
    }
  }

  function Product(f: seq<int>): int {
    if f == [] then 1 else f[0] * Product(f[1..])
  }

  lemma MultipleTimes(a: int, b: int, d: int)
    requires d > 0 && a % d == 0
    ensures (a * b) % d == 0
  {
    var q := a / d;
    assert a == d * q;
    assert a * b == d * (q * b);
    MultipleIsZero(d, q * b);
  }

  lemma MultipleBounds(d: int, k: int)
    requires d > 0
    ensures k >= 1 ==> d * k >= d
    ensures k <= -1 ==> d * k <= -d
  {
  }

  lemma MultipleIsZero(d: int, q: int)
    requires d > 0
    ensures (d * q) % d == 0 && d * q / d == q
  {
    QuotientUnique(d * q, d, q, 0);
  }

  lemma QuotientUnique(a: int, d: int, q: int, r: int)
    requires d > 0 && a == d * q + r && 0 <= r < d
    ensures a / d == q && a % d == r
  {
    var p := a / d;
    assert a == d * p + a % d;
    assert d * (q - p) == d * q - d * p;
    MultipleBounds(d, q - p);
  }

  /** There is a common multiple at all, which bounds the search. */
  lemma {:induction false} ProductIsMultiple(f: seq<int>)
    requires forall i | 0 <= i < |f| :: f[i] > 0
    ensures Product(f) > 0 && forall i | 0 <= i < |f| :: Product(f) % f[i] == 0
  {
    if f != [] {
      ProductIsMultiple(f[1..]);
      MultipleIsZero(f[0], Product(f[1..]));
      forall i | 0 <= i < |f|
        ensures Product(f) % f[i] == 0
      {
        if i > 0 {
          assert f[i] == f[1..][i-1];
          MultipleTimes(Product(f[1..]), f[0], f[i]);
        }
      }
    }
  }

  lemma Distribute(d: int, a: int, b: int)
    ensures d * (b - a) == d * b - d * a
    ensures d * (a + 1) == d * a + d
  {
  }

  lemma NextMultiple(cur: int, d: int, m: int)
    requires d > 0 && cur % d == 0 && m % d == 0 && cur < m
    ensures cur + d <= m && (cur + d) % d == 0
  {
    var a, b := cur / d, m / d;
    Distribute(d, a, b);
    MultipleBounds(d, b - a);
    MultipleIsZero(d, a + 1);
  }

  /** Tries the multiples of the first frequency. */
  method ComputeLCM(freqList: seq<int>) returns (lcm: int)
    requires Positive(freqList)
    ensures IsLCM(lcm, freqList)
  {
    ProductIsMultiple(freqList);
    ghost var bound := Product(freqList);
    MultipleIsZero(freqList[0], 1);
    FirstIsSmallest(freqList[0], bound);
    var cur := freqList[0];
    while true
      invariant cur > 0 && cur % freqList[0] == 0 && cur <= bound
      invariant forall k | MultipleOfAll(k, freqList) :: cur <= k
      decreases bound - cur
    {
      var flag := true;
      var i := 0;
      while i < |freqList| && flag
        invariant 0 <= i <= |freqList|
        invariant flag ==> forall k | 0 <= k < i :: cur % freqList[k] == 0
        invariant !flag ==> exists k :: 0 <= k < |freqList| && cur % freqList[k] != 0
        decreases |freqList| - i, flag
      {
        if cur % freqList[i] != 0 {
          flag := false;
        } else {
          i := i + 1;
        }
      }
      if flag {
        return cur;
      }
      assert cur != bound;
      NextMultiple(cur, freqList[0], bound);
      forall k | MultipleOfAll(k, freqList)
        ensures cur + freqList[0] <= k
      {
        assert cur != k;
        NextMultiple(cur, freqList[0], k);
      }
      cur := cur + freqList[0];
    }
  }

  lemma FirstIsSmallest(d: int, m: int)
    requires d > 0 && m > 0
    ensures m % d == 0 ==> d <= m
  {
    if m < d { RemainderOfSmaller(m, d); }
  }

  /** All steps are positive and every core advances by the same amount of time per global step. */
  ghost predicate Synchronous(steps: seq<int>, f: seq<int>, c: int) {
    |steps| == |f| && forall i | 0 <= i < |f| :: steps[i] > 0 && steps[i] * f[i] == c
  }

  /** The program's step sizes. */
  method StepSizes(frequencies: seq<int>) returns (steps: seq<int>, ghost c: int)
    requires Positive(frequencies)
    ensures Synchronous(steps, frequencies, c)
    ensures forall other, k | Synchronous(other, frequencies, k) ::
      forall i | 0 <= i < |steps| :: steps[i] <= other[i]
  {
    var hcf := ComputeHCF(frequencies);
    var list := [];
    for i := 0 to |frequencies|
      invariant |list| == i
      invariant forall j | 0 <= j < i ::
          list[j] == frequencies[j] / hcf && list[j] > 0 && list[j] * hcf == frequencies[j]
    {
      Quotient(frequencies[i], hcf);
      list := list + [frequencies[i] / hcf];
    }
    var lcm := ComputeLCM(list);
    steps := [];
    for i := 0 to |list|
      invariant |steps| == i
      invariant forall j | 0 <= j < i :: steps[j] > 0 && steps[j] * list[j] == lcm
    {
      Quotient(lcm, list[i]);
      steps := steps + [lcm / list[i]];
    }
    c := lcm * hcf;
    forall i | 0 <= i < |frequencies|
      ensures steps[i] * frequencies[i] == c
    {
      Regroup(steps[i], list[i], hcf);
    }
    forall other, k | Synchronous(other, frequencies, k)
      ensures forall i | 0 <= i < |steps| :: steps[i] <= other[i]
    {
      StepsLeast(frequencies, list, hcf, lcm, steps, other, k);
    }
  }

  lemma Quotient(a: int, d: int)
    requires a > 0 && d > 0 && a % d == 0
    ensures a / d > 0 && a / d * d == a
  {
  }

  lemma Regroup(a: int, b: int, c: int)
    ensures a * (b * c) == a * b * c
  {
  }

  /** Any other synchronous steps give a common multiple of the reduced frequencies, so they are no smaller. */
  lemma StepsLeast(f: seq<int>, list: seq<int>, hcf: int, lcm: int, steps: seq<int>, other: seq<int>, k: int)
    requires Positive(f) && hcf > 0 && |list| == |f| == |steps|
    requires forall j | 0 <= j < |f| :: list[j] > 0 && list[j] * hcf == f[j]
    requires IsLCM(lcm, list) && forall j | 0 <= j < |f| :: steps[j] > 0 && steps[j] * list[j] == lcm
    requires Synchronous(other, f, k)
    ensures forall i | 0 <= i < |f| :: steps[i] <= other[i]
  {
    var m := other[0] * list[0];
    forall j | 0 <= j < |f|
      ensures other[j] * list[j] == m
    {
      Regroup(other[j], list[j], hcf);
      Regroup(other[0], list[0], hcf);
      Cancel(other[j] * list[j], m, hcf);
    }
    forall j | 0 <= j < |f|
      ensures m > 0 && m % list[j] == 0
    {
      MultipleIsZero(list[j], other[j]);
      assert other[j] * list[j] == list[j] * other[j] == m;
    }
    assert MultipleOfAll(m, list);
    forall i | 0 <= i < |f|
      ensures steps[i] <= other[i]
    {
      Smaller(other[i], steps[i], list[i]);
    }
  }

  lemma Smaller(a: int, b: int, c: int)
    requires c > 0
    ensures a < b ==> a * c < b * c
  {
  }

  lemma Cancel(a: int, b: int, c: int)
    requires c > 0 && a * c == b * c
    ensures a == b
  {
    assert (a - b) * c == 0;
  }
}

/** The counters that let the RAM tick at its own rate while the cores' cycles are simulated. */
module ClockDivider {

  class Divider {
    const ramClock: nat
    const coreClock: nat
    var counter1: int
    var counter2: int

    constructor (ramClock: nat, coreClock: nat)
      ensures this.ramClock == ramClock && this.coreClock == coreClock
      ensures Counters() == Start()
    {
      this.ramClock, this.coreClock, counter1, counter2 := ramClock, coreClock, 0, 0;
    }

    function Counters(): State
      reads this
    {
      State(counter1, counter2, 0)
    }

    /** One core cycle; tells whether the RAM ran in it. */
    method CoreCycle() returns (ramCycleRun: bool)
      modifies this
      ensures Counters() == Cycle(ramClock, coreClock, old(Counters())).(ticks := 0)
      ensures ramCycleRun <==> Cycle(ramClock, coreClock, old(Counters())).ticks == 1
    {
      ramCycleRun := false;
      counter1 := counter1 + ramClock;
      if counter2 < counter1 {
        counter2 := counter2 + coreClock;
        ramCycleRun := true;
      }
      if counter1 == counter2 {
        counter1 := 0;
        counter2 := 0;
      }
    }

    /** Any number of core cycles; counts the RAM ticks. */
    method Simulate(n: nat) returns (ticks: nat)
      requires counter1 == counter2 == 0
      modifies this
      ensures ticks == After(ramClock, coreClock, n).ticks
    {
      ticks := 0;
      for i := 0 to n
        invariant Counters().(ticks := ticks) == After(ramClock, coreClock, i)
      {
        var ran := CoreCycle();
        if ran { ticks := ticks + 1; }
      }
    }
  }

  datatype State = State(counter1: int, counter2: int, ticks: nat)

  function Start(): State {
    State(0, 0, 0)
  }

  function Cycle(ram: nat, core: nat, s: State): State {
    var c1 := s.counter1 + ram;
    var runs := s.counter2 < c1;
    var c2 := if runs then s.counter2 + core else s.counter2;
    var t := if runs then s.ticks + 1 else s.ticks;
    if c1 == c2 then State(0, 0, t) else State(c1, c2, t)
  }

  /** The counters, and all RAM ticks so far, after n core cycles. */
  function After(ram: nat, core: nat, n: nat): State {
    if n == 0 then Start() else Cycle(ram, core, After(ram, core, n - 1))
  }

  function CeilDiv(a: nat, b: nat): nat
    requires b > 0
  {
    (a + b - 1) / b
  }

  lemma CeilDivUnique(a: nat, b: nat, q: nat)
    requires b > 0
    ensures q == CeilDiv(a, b) <==> a <= q * b < a + b
  {
    var c := CeilDiv(a, b);
    var r := (a + b - 1) % b;
    assert a + b - 1 == b * c + r;
    assert a <= c * b < a + b;
    if q < c {
      assert (q + 1) * b <= c * b;
    } else if q > c {
      assert (c + 1) * b <= q * b;
    }
  }

  /** The distance of the counters is the error of the division, whatever resets happened on the way. */
  lemma {:induction false} ErrorBounded(ram: nat, core: nat, n: nat)
    requires 0 < ram <= core
    ensures var s := After(ram, core, n);
            && s.counter2 - s.counter1 == s.ticks * core - n * ram
            && 0 <= s.counter2 - s.counter1 < core
  {
    if n > 0 {
      ErrorBounded(ram, core, n - 1);
      var s := After(ram, core, n - 1);
      assert (s.ticks + 1) * core == s.ticks * core + core;
      assert n * ram == (n - 1) * ram + ram;
    }
  }

  lemma TicksExact(ram: nat, core: nat, n: nat)
    requires 0 < ram <= core
    ensures After(ram, core, n).ticks == CeilDiv(n * ram, core)
  {
    ErrorBounded(ram, core, n);
    CeilDivUnique(n * ram, core, After(ram, core, n).ticks);
  }

  /** The RAM has run ceil(n * ram / core) times after every n core cycles exactly if it is not the faster clock. */
  lemma DriftFreeIff(ram: nat, core: nat)
    requires ram > 0 && core > 0
    ensures (forall n: nat :: After(ram, core, n).ticks == CeilDiv(n * ram, core)) <==> ram <= core
  {
    if ram <= core {
      forall n: nat
        ensures After(ram, core, n).ticks == CeilDiv(n * ram, core)
      {
        TicksExact(ram, core, n);
      }
    } else {
      assert After(ram, core, 0) == Start();
      assert After(ram, core, 1).ticks == 1;
      CeilDivUnique(1 * ram, core, 1);
      assert After(ram, core, 1).ticks != CeilDiv(1 * ram, core);
    }
  }
}

/** A first-come-first-served port with several servers. */
module Ports {

  class Port {
    const noOfPorts: nat
    const occupancy: nat
    const latency: int
    const portBusyUntil: array<int>

    ghost predicate Valid()
      reads this
    {
      noOfPorts >= 1 && occupancy >= 1 && portBusyUntil.Length == noOfPorts
    }

    /** The program stops when a first-come-first-served port is set up with other counts. */
    constructor (noOfPorts: nat, occupancy: nat, latency: int)
      requires noOfPorts > 0 && occupancy > 0
      ensures Valid() && fresh(portBusyUntil)
      ensures this.noOfPorts == noOfPorts && this.occupancy == occupancy && this.latency == latency
      ensures forall i | 0 <= i < noOfPorts :: portBusyUntil[i] == 0
    {
      this.noOfPorts, this.occupancy, this.latency := noOfPorts, occupancy, latency;
      portBusyUntil := new int[noOfPorts](_ => 0);
    }

    /** Reserves a server at time now; returns the time that is added to the event. */
    method Put(now: int) returns (added: int)
      requires Valid()
      modifies portBusyUntil
      ensures Valid()
      ensures var (slot, busy) := Served(occupancy, old(portBusyUntil[..]), now);
              portBusyUntil[..] == busy && added == busy[slot] + latency
    {
      ghost var was := portBusyUntil[..];
      var availablePortID := 0;
      for i := 0 to noOfPorts
        invariant 0 <= availablePortID < noOfPorts
        invariant i == 0 ==> availablePortID == 0
        invariant i > 0 ==> availablePortID < i && availablePortID == Earliest(was[..i])
      {
        assert was[..i+1][..i] == was[..i];
        if portBusyUntil[i] < portBusyUntil[availablePortID] {
          availablePortID := i;
        }
      }
      assert was[..noOfPorts] == was;
      if portBusyUntil[availablePortID] < now {
        portBusyUntil[availablePortID] := now + occupancy;
      } else {
        portBusyUntil[availablePortID] := portBusyUntil[availablePortID] + occupancy;
      }
      added := portBusyUntil[availablePortID] + latency;
    }
  }

  /** The first server among those that are free earliest. */
  function Earliest(busy: seq<int>): (k: nat)
    requires |busy| > 0
    ensures k < |busy|
    ensures forall i | 0 <= i < |busy| :: busy[k] <= busy[i]
    ensures forall i | 0 <= i < k :: busy[k] < busy[i]
  {
    var n := |busy| - 1;
    if n == 0 then 0
    else
      var k := Earliest(busy[..n]);
      if busy[n] < busy[k] then n else k
  }

  function Max(a: int, b: int): int {
    if a < b then b else a
  }

  /** Which server takes the transfer, and until when the servers are busy then. */
  function Served(occupancy: nat, busy: seq<int>, now: int): (r: (nat, seq<int>))
    requires |busy| > 0
    ensures r.0 < |busy| == |r.1|
  {
    var k := Earliest(busy);
    (k, busy[k := Max(now, busy[k]) + occupancy])
  }

  // ---------------------------------------------------------------- histories

  /** A transfer was asked for at time asked and occupies the server from start on. */
  datatype Transfer = Transfer(server: nat, asked: int, start: int)

  /** The servers and the transfers after the requests, given in the order in which they are made. */
  function Schedule(occupancy: nat, n: nat, asks: seq<int>): (r: (seq<int>, seq<Transfer>))
    requires n > 0
    ensures |r.0| == n && |r.1| == |asks|
  {
    if asks == [] then (seq(n, _ => 0), [])
    else
      var last := |asks| - 1;
      var (busy, log) := Schedule(occupancy, n, asks[..last]);
      var (k, busy') := Served(occupancy, busy, asks[last]);
      (busy', log + [Transfer(k, asks[last], busy'[k] - occupancy)])
  }

  predicate Ordered(asks: seq<int>) {
    forall i, j | 0 <= i < j < |asks| :: asks[i] <= asks[j]
  }

  /** Transfer t lies on one of the servers and within its busy time. */
  predicate Within(occupancy: nat, busy: seq<int>, t: Transfer) {
    t.server < |busy| && t.start + occupancy <= busy[t.server] && t.start >= t.asked
  }

  /** Transfer u comes after t: no earlier, and not before the end of t if they share a server. */
  predicate After(occupancy: nat, t: Transfer, u: Transfer) {
    t.start <= u.start && (t.server == u.server ==> t.start + occupancy <= u.start)
  }

  /** No server will be free, as seen at time now, before transfer t has started. */
  predicate Behind(busy: seq<int>, t: Transfer, now: int) {
    forall p | 0 <= p < |busy| :: t.start <= Max(now, busy[p])
  }

  ghost predicate Fair(occupancy: nat, busy: seq<int>, log: seq<Transfer>) {
    && (forall i | 0 <= i < |log| :: Within(occupancy, busy, log[i]))
    && (forall i, j | 0 <= i < j < |log| :: After(occupancy, log[i], log[j]))
    && (forall i | 0 <= i < |log| :: Behind(busy, log[i], log[|log|-1].asked))
  }

  /** A transfer that starts later than asked finds every server busy up to its start. */
  ghost predicate Prompt(occupancy: nat, n: nat, asks: seq<int>, i: nat)
    requires n > 0 && i < |asks|
  {
    var (busy, _) := Schedule(occupancy, n, asks[..i]);
    var t := Schedule(occupancy, n, asks[..i+1]).1[i];
    t.start > t.asked ==> forall p | 0 <= p < n :: busy[p] >= t.start
  }

  lemma OldTransfer(occupancy: nat, busy: seq<int>, t: Transfer, before: int, now: int)
    requires |busy| > 0 && Within(occupancy, busy, t) && Behind(busy, t, before) && before <= now
    ensures var (k, busy') := Served(occupancy, busy, now);
            && Within(occupancy, busy', t) && Behind(busy', t, now)
            && After(occupancy, t, Transfer(k, now, busy'[k] - occupancy))
  {
  }

  lemma NewTransfer(occupancy: nat, busy: seq<int>, now: int)
    requires |busy| > 0
    ensures var (k, busy') := Served(occupancy, busy, now); var t := Transfer(k, now, busy'[k] - occupancy);
            Within(occupancy, busy', t) && Behind(busy', t, now)
  {
  }

  /** One more transfer, asked for no earlier than the ones before it. */
  lemma FairExtended(occupancy: nat, busy: seq<int>, log: seq<Transfer>, now: int)
    requires |busy| > 0 && Fair(occupancy, busy, log) && (log != [] ==> log[|log|-1].asked <= now)
    ensures var (k, busy') := Served(occupancy, busy, now);
            Fair(occupancy, busy', log + [Transfer(k, now, busy'[k] - occupancy)])
  {
    var (k, busy') := Served(occupancy, busy, now);
    var t := Transfer(k, now, busy'[k] - occupancy);
    NewTransfer(occupancy, busy, now);
    forall i | 0 <= i < |log|
      ensures Within(occupancy, busy', log[i]) && Behind(busy', log[i], now) && After(occupancy, log[i], t)
    {
      OldTransfer(occupancy, busy, log[i], log[|log|-1].asked, now);
    }
    hide Within, Behind, After;
  }

  lemma NothingIsFair(occupancy: nat, busy: seq<int>)
    ensures Fair(occupancy, busy, [])
  {
  }

  lemma {:induction false} HistoryFair(occupancy: nat, n: nat, asks: seq<int>)
    requires n > 0 && Ordered(asks)
    ensures Fair(occupancy, Schedule(occupancy, n, asks).0, Schedule(occupancy, n, asks).1)
    ensures forall i | 0 <= i < |asks| :: Schedule(occupancy, n, asks).1[i].asked == asks[i]
  {
    hide Fair;
    if asks == [] {
      NothingIsFair(occupancy, Schedule(occupancy, n, asks).0);
    } else {
      var last := |asks| - 1;
      HistoryFair(occupancy, n, asks[..last]);
      var (busy, log) := Schedule(occupancy, n, asks[..last]);
      assert last > 0 ==> log[last-1].asked == asks[..last][last-1] <= asks[last];
      FairExtended(occupancy, busy, log, asks[last]);
    }
  }

  /** No two transfers overlap on a server, transfers start in the order of request, and none before its request. */
  lemma TransfersDisjointAndInOrder(occupancy: nat, n: nat, asks: seq<int>, i: nat, j: nat)
    requires n > 0 && Ordered(asks) && i < j < |asks|
    ensures var log := Schedule(occupancy, n, asks).1;
            && (log[i].server == log[j].server ==> log[i].start + occupancy <= log[j].start)
            && log[i].start <= log[j].start
            && asks[i] <= log[i].start
  {
    HistoryFair(occupancy, n, asks);
  }

  /** A transfer waits only while no server at all is free. */
  lemma NeverDelayedWhileFree(occupancy: nat, n: nat, asks: seq<int>, i: nat)
    requires n > 0 && i < |asks|
    ensures Prompt(occupancy, n, asks, i)
  {
    assert asks[..i+1][..i] == asks[..i];
  }
}

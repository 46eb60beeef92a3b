/** The event queue: a wheel of 1024 lists, turned by one place per tick, refines an agenda ordered by insertion. */
module TimingWheel {

  const SIZE := 1024

  datatype Event = Event(id: int, eventTime: int)

  /** An event and the tick at which it is to be handled. */
  datatype Due = Due(e: Event, at: int)

  function Max(a: int, b: int): int {
    if a < b then b else a
  }

  /**
   The turn at which the wheel hands an event back that is added at clock time clock, when the list at the head is that
   of the given turn. Before and while the events of a tick are processed the turn is the clock; afterwards, until the
   clock goes on, it is one further. Distances wrap around the wheel.
   */
  function WheelTick(e: Event, clock: int, turn: int): int {
    turn + Max(e.eventTime - clock, 0) % SIZE
  }

  /**
   An event is handed back at the intended tick, max(eventTime, clock), if and only if it is added before the events of
   its tick have been processed and is less than a turn ahead. Added afterwards it comes exactly one tick late, and a
   whole turn or more ahead it comes early.
   */
  lemma WheelTickExactIff(e: Event, clock: int, turn: int)
    requires turn == clock || turn == clock + 1
    ensures WheelTick(e, clock, turn) == Max(e.eventTime, clock) <==> turn == clock && e.eventTime - clock < SIZE
    ensures e.eventTime - clock < SIZE ==> WheelTick(e, clock, turn) == Max(e.eventTime, clock) + (turn - clock)
    ensures e.eventTime - clock >= SIZE ==> turn <= WheelTick(e, clock, turn) < e.eventTime
  {
    var d := Max(e.eventTime - clock, 0);
    if d >= SIZE {
      assert d % SIZE < SIZE && (d == SIZE ==> d % SIZE == 0);
    }
  }

  /** The simple form: what is still to be done, and the history of what was added and handled. */
  datatype World = World(turn: int, clock: int, agenda: seq<Due>, added: seq<Due>, handled: seq<Due>)

  /** The entries due at tick t, in order. */
  function At(s: seq<Due>, t: int): seq<Due> {
    if s == [] then [] else (if s[0].at == t then [s[0]] else []) + At(s[1..], t)
  }

  lemma {:induction false} AtConcat(a: seq<Due>, b: seq<Due>, t: int)
    ensures At(a + b, t) == At(a, t) + At(b, t)
  {
    if a == [] {
      assert a + b == b;
    } else {
      var first := if a[0].at == t then [a[0]] else [];
      assert At(a, t) == first + At(a[1..], t);
      assert (a + b)[0] == a[0] && (a + b)[1..] == a[1..] + b;
      assert At(a + b, t) == first + At(a[1..] + b, t);
      hide At;
      AtConcat(a[1..], b, t);
      assert first + (At(a[1..], t) + At(b, t)) == first + At(a[1..], t) + At(b, t);
    }
  }

  function Add(w: World, e: Event): World {
    var d := Due(e, WheelTick(e, w.clock, w.turn));
    w.(agenda := w.agenda + [d], added := w.added + [d])
  }

  function AddAll(w: World, es: seq<Event>): World
    decreases |es|
  {
    if es == [] then w else AddAll(Add(w, es[0]), es[1..])
  }

  /** The first entry due at tick t; the length if there is none. */
  function FirstDue(s: seq<Due>, t: int): (k: nat)
    ensures k <= |s|
    ensures k < |s| ==> s[k].at == t
    ensures forall j | 0 <= j < k :: s[j].at != t
  {
    if s == [] || s[0].at == t then 0 else 1 + FirstDue(s[1..], t)
  }

  /** Handles the first entry that is due now. */
  function Handle(w: World): World
    requires FirstDue(w.agenda, w.turn) < |w.agenda|
  {
    var k := FirstDue(w.agenda, w.turn);
    w.(agenda := w.agenda[..k] + w.agenda[k+1..], handled := w.handled + [w.agenda[k]])
  }

  /**
   Handles everything that is due now, including what the handlers themselves add: the i-th handled event
   makes its handler add the i-th list of the script, and nothing once the script is used up.
   */
  function Drain(w: World, script: seq<seq<Event>>): World
    decreases |script|, |w.agenda|
  {
    if FirstDue(w.agenda, w.turn) == |w.agenda| then w
    else if script == [] then Drain(Handle(w), [])
    else Drain(AddAll(Handle(w), script[0]), script[1..])
  }

  function Turn(w: World): World {
    w.(turn := w.turn + 1)
  }

  // ---------------------------------------------------------------- what the simple form promises

  /** For every tick: what was added for it was handled, or waits, in the order of insertion; the past is done. */
  ghost predicate Orderly(w: World) {
    && (forall t: int :: At(w.added, t) == At(w.handled, t) + At(w.agenda, t))
    && (forall i | 0 <= i < |w.agenda| :: w.turn <= w.agenda[i].at < w.turn + SIZE)
    && (forall i | 0 <= i < |w.handled| :: w.handled[i].at <= w.turn)
  }

  lemma AddOrderly(w: World, e: Event)
    requires Orderly(w)
    ensures Orderly(Add(w, e))
  {
    var d := Due(e, WheelTick(e, w.clock, w.turn));
    forall t: int
      ensures At(Add(w, e).added, t) == At(w.handled, t) + At(Add(w, e).agenda, t)
    {
      AtConcat(w.added, [d], t);
      AtConcat(w.agenda, [d], t);
    }
  }

  lemma {:induction false} AtRemoved(s: seq<Due>, t: int, u: int)
    requires FirstDue(s, t) < |s|
    ensures var k := FirstDue(s, t);
            At(s, u) == (if u == t then [s[k]] else []) + At(s[..k] + s[k+1..], u)
  {
    if s[0].at == t {
      assert s[..0] + s[1..] == s[1..];
    } else {
      var k := FirstDue(s, t);
      AtRemoved(s[1..], t, u);
      assert (s[..k] + s[k+1..])[1..] == s[1..][..k-1] + s[1..][k..];
    }
  }

  function Mine(d: Due, t: int): seq<Due> {
    if d.at == t then [d] else []
  }

  /** Handling moves one entry from the agenda to the history. */
  lemma HandledAt(w: World, t: int)
    requires FirstDue(w.agenda, w.turn) < |w.agenda|
    ensures var d := w.agenda[FirstDue(w.agenda, w.turn)];
            && At(w.agenda, t) == Mine(d, t) + At(Handle(w).agenda, t)
            && At(Handle(w).handled, t) == At(w.handled, t) + Mine(d, t)
  {
    var d := w.agenda[FirstDue(w.agenda, w.turn)];
    AtRemoved(w.agenda, w.turn, t);
    AtConcat(w.handled, [d], t);
    assert [d][1..] == [];
    assert At([d], t) == Mine(d, t);
  }

  lemma HandleBounds(w: World)
    requires FirstDue(w.agenda, w.turn) < |w.agenda|
    requires forall i | 0 <= i < |w.agenda| :: w.turn <= w.agenda[i].at < w.turn + SIZE
    ensures forall i | 0 <= i < |Handle(w).agenda| :: w.turn <= Handle(w).agenda[i].at < w.turn + SIZE
  {
  }

  lemma HandleOrderly(w: World)
    requires Orderly(w) && FirstDue(w.agenda, w.turn) < |w.agenda|
    ensures Orderly(Handle(w))
  {
    HandleBounds(w);
    var d := w.agenda[FirstDue(w.agenda, w.turn)];
    forall t: int
      ensures At(w.added, t) == At(Handle(w).handled, t) + At(Handle(w).agenda, t)
    {
      hide At, FirstDue, Handle, Mine;
      HandledAt(w, t);
      assert At(w.added, t) == At(w.handled, t) + At(w.agenda, t);
      assert At(w.handled, t) + (Mine(d, t) + At(Handle(w).agenda, t)) ==
             At(w.handled, t) + Mine(d, t) + At(Handle(w).agenda, t);
    }
  }

  lemma {:induction false} AddAllOrderly(w: World, es: seq<Event>)
    requires Orderly(w)
    ensures Orderly(AddAll(w, es)) && AddAll(w, es).turn == w.turn
    decreases |es|
  {
    if es != [] {
      AddOrderly(w, es[0]);
      AddAllOrderly(Add(w, es[0]), es[1..]);
    }
  }

  lemma {:induction false} DrainOrderly(w: World, script: seq<seq<Event>>)
    requires Orderly(w)
    ensures Orderly(Drain(w, script)) && Drain(w, script).turn == w.turn
    ensures forall i | 0 <= i < |Drain(w, script).agenda| :: Drain(w, script).agenda[i].at > w.turn
    decreases |script|, |w.agenda|
  {
    if FirstDue(w.agenda, w.turn) < |w.agenda| {
      HandleOrderly(w);
      if script == [] {
        DrainOrderly(Handle(w), []);
      } else {
        AddAllOrderly(Handle(w), script[0]);
        DrainOrderly(AddAll(Handle(w), script[0]), script[1..]);
      }
    }
  }

  /** After a tick, everything ever added for that tick or earlier has been handled, once and in order of insertion. */
  lemma TickHandlesAllDue(w: World, script: seq<seq<Event>>, t: int)
    requires Orderly(w) && t <= w.turn
    ensures var w' := Turn(Drain(w, script));
            && Orderly(w')
            && At(w'.handled, t) == At(w'.added, t)
  {
    DrainOrderly(w, script);
    var w' := Turn(Drain(w, script));
    NothingAt(w'.agenda, t);
  }

  /** During the tick only entries of this very tick are handled. */
  lemma {:induction false} TickHandlesOnlyDue(w: World, script: seq<seq<Event>>)
    ensures var h := Drain(w, script).handled;
            && w.handled <= h
            && forall i | |w.handled| <= i < |h| :: h[i].at == w.turn
    decreases |script|, |w.agenda|
  {
    if FirstDue(w.agenda, w.turn) < |w.agenda| {
      if script == [] {
        TickHandlesOnlyDue(Handle(w), []);
      } else {
        AddAllKeeps(Handle(w), script[0]);
        TickHandlesOnlyDue(AddAll(Handle(w), script[0]), script[1..]);
      }
    }
  }

  lemma {:induction false} AddAllKeeps(w: World, es: seq<Event>)
    ensures AddAll(w, es).handled == w.handled
    ensures AddAll(w, es).turn == w.turn && AddAll(w, es).clock == w.clock
    decreases |es|
  {
    if es != [] {
      AddAllKeeps(Add(w, es[0]), es[1..]);
    }
  }

  lemma {:induction false} NothingAt(s: seq<Due>, t: int)
    requires forall i | 0 <= i < |s| :: s[i].at != t
    ensures At(s, t) == []
  {
    if s != [] {
      NothingAt(s[1..], t);
    }
  }

  /** What the rest of the simulator does: adding an event, processing the events of a tick, counting the clock. */
  datatype Use = Adding(e: Event) | Processing(script: seq<seq<Event>>) | Clock

  function Used(w: World, use: Use): World {
    match use
    case Adding(e) => Add(w, e)
    case Processing(script) => Turn(Drain(w, script))
    case Clock => w.(clock := w.clock + 1)
  }

  function After(start: int, uses: seq<Use>): World {
    if uses == [] then World(start, start, [], [], []) else Used(After(start, uses[..|uses|-1]), uses[|uses|-1])
  }

  ghost predicate PastOnly(w: World) {
    Orderly(w) && forall i | 0 <= i < |w.handled| :: w.handled[i].at < w.turn
  }

  lemma {:induction false} AlwaysPastOnly(start: int, uses: seq<Use>)
    ensures PastOnly(After(start, uses))
  {
    if uses == [] {
    } else {
      var w := After(start, uses[..|uses|-1]);
      AlwaysPastOnly(start, uses[..|uses|-1]);
      match uses[|uses|-1]
      case Adding(e) => AddOrderly(w, e);
      case Processing(script) => DrainOrderly(w, script);
      case Clock =>
    }
  }

  /**
   In every history, whenever events are not being processed: what was ever added for an earlier turn has been handled,
   exactly once and in the order of insertion, and nothing that was added for a later turn has.
   */
  lemma HandledExactlyThePast(start: int, uses: seq<Use>, t: int)
    ensures var w := After(start, uses);
            At(w.handled, t) == if t < w.turn then At(w.added, t) else []
  {
    var w := After(start, uses);
    AlwaysPastOnly(start, uses);
    if t < w.turn {
      NothingAt(w.agenda, t);
    } else {
      NothingAt(w.handled, t);
    }
  }

  /** Events are processed once per clock tick; additions come at any time. */
  predicate Regular(start: int, uses: seq<Use>) {
    uses != [] ==>
      var w := After(start, uses[..|uses|-1]);
      && Regular(start, uses[..|uses|-1])
      && (uses[|uses|-1].Processing? ==> w.turn == w.clock)
      && (uses[|uses|-1].Clock? ==> w.turn == w.clock + 1)
  }

  lemma {:induction false} DrainKeepsTime(w: World, script: seq<seq<Event>>)
    ensures Drain(w, script).turn == w.turn && Drain(w, script).clock == w.clock
    decreases |script|, |w.agenda|
  {
    if FirstDue(w.agenda, w.turn) < |w.agenda| {
      if script == [] {
        DrainKeepsTime(Handle(w), []);
      } else {
        AddAllKeeps(Handle(w), script[0]);
        DrainKeepsTime(AddAll(Handle(w), script[0]), script[1..]);
      }
    }
  }

  lemma {:induction false} TurnFollowsClock(start: int, uses: seq<Use>)
    requires Regular(start, uses)
    ensures After(start, uses).turn == After(start, uses).clock ||
        After(start, uses).turn == After(start, uses).clock + 1
  {
    if uses != [] {
      TurnFollowsClock(start, uses[..|uses|-1]);
      match uses[|uses|-1]
      case Adding(_) =>
      case Processing(script) => DrainKeepsTime(After(start, uses[..|uses|-1]), script);
      case Clock =>
    }
  }

  /** In every regular history: whether the event that is added next will be handled at the intended tick. */
  lemma AddedOnTimeIff(start: int, uses: seq<Use>, e: Event)
    requires Regular(start, uses)
    ensures var w, w' := After(start, uses), After(start, uses + [Adding(e)]);
            && |w'.added| == |w.added| + 1 && w'.added[|w.added|].e == e
            && (w'.added[|w.added|].at == Max(e.eventTime, w.clock) <==>
                w.turn == w.clock && e.eventTime - w.clock < SIZE)
            && (w.turn == w.clock + 1 && e.eventTime - w.clock < SIZE ==>
                  w'.added[|w.added|].at == Max(e.eventTime, w.clock) + 1)
  {
    var w := After(start, uses);
    assert (uses + [Adding(e)])[..|uses|] == uses;
    TurnFollowsClock(start, uses);
    WheelTickExactIff(e, w.clock, w.turn);
  }

  // ---------------------------------------------------------------- the wheel

  function Names(s: seq<Due>): (r: seq<Event>)
    ensures |r| == |s|
  {
    seq(|s|, i requires 0 <= i < |s| => s[i].e)
  }

  /** List d places after the head holds what the agenda has for d turns from now. */
  ghost predicate Refines(slots: seq<seq<Event>>, head: nat, w: World)
    requires |slots| == SIZE && head < SIZE
  {
    && (forall d | 0 <= d < SIZE :: SlotOK(slots, head, w, d))
    && (forall i | 0 <= i < |w.agenda| :: w.turn <= w.agenda[i].at < w.turn + SIZE)
  }

  ghost predicate SlotOK(slots: seq<seq<Event>>, head: nat, w: World, d: nat)
    requires |slots| == SIZE && head < SIZE
  {
    slots[(head + d) % SIZE] == Names(At(w.agenda, w.turn + d))
  }

  lemma AddRefines(slots: seq<seq<Event>>, head: nat, w: World, e: Event)
    requires |slots| == SIZE && head < SIZE && Refines(slots, head, w)
    ensures var i := (head + Max(e.eventTime - w.clock, 0)) % SIZE;
            Refines(slots[i := slots[i] + [e]], head, Add(w, e))
  {
    var diff := Max(e.eventTime - w.clock, 0);
    var i := (head + diff) % SIZE;
    var new' := Due(e, WheelTick(e, w.clock, w.turn));
    var slots' := slots[i := slots[i] + [e]];
    forall d | 0 <= d < SIZE
      ensures SlotOK(slots', head, Add(w, e), d)
    {
      assert SlotOK(slots, head, w, d);
      AtConcat(w.agenda, [new'], w.turn + d);
      SameSlot(head, diff, d);
    }
  }

  lemma SameSlot(head: nat, diff: nat, d: nat)
    requires head < SIZE && d < SIZE
    ensures (head + diff) % SIZE == (head + d) % SIZE <==> diff % SIZE == d
  {
  }

  lemma NamesMine(d: Due, t: int, s: seq<Due>)
    ensures Names(Mine(d, t) + s) == if d.at == t then [d.e] + Names(s) else Names(s)
  {
    assert [] + s == s;
  }

  lemma ListStep(slots: seq<seq<Event>>, head: nat, i: nat, e: Event, after: seq<Event>)
    requires head < |slots| && i < |slots| && slots[head] != []
    requires slots[i] == if i == head then [e] + after else after
    ensures slots[head := slots[head][1..]][i] == after && (i == head ==> slots[head][0] == e)
  {
    if i == head {
      assert ([e] + after)[1..] == after;
    }
  }

  /** One list of the wheel when the first event of the current one is handled. */
  lemma HandleSlot(slots: seq<seq<Event>>, head: nat, w: World, d: nat)
    requires |slots| == SIZE && head < SIZE && d < SIZE && FirstDue(w.agenda, w.turn) < |w.agenda|
    requires SlotOK(slots, head, w, d) && slots[head] != []
    ensures SlotOK(slots[head := slots[head][1..]], head, Handle(w), d)
    ensures d == 0 ==> slots[head][0] == w.agenda[FirstDue(w.agenda, w.turn)].e
  {
    var e := w.agenda[FirstDue(w.agenda, w.turn)];
    var after := At(Handle(w).agenda, w.turn + d);
    HandledAt(w, w.turn + d);
    NamesMine(e, w.turn + d, after);
    HereOnly(head, d);
    hide At, FirstDue, Names, Mine, Handle;
    ListStep(slots, head, (head + d) % SIZE, e.e, Names(after));
  }

  lemma HereOnly(head: nat, d: nat)
    requires head < SIZE && d < SIZE
    ensures (head + d) % SIZE == head <==> d == 0
  {
  }

  lemma HandleRefines(slots: seq<seq<Event>>, head: nat, w: World)
    requires |slots| == SIZE && head < SIZE && Refines(slots, head, w)
    ensures slots[head] == [] <==> FirstDue(w.agenda, w.turn) == |w.agenda|
    ensures slots[head] != [] ==>
              && slots[head][0] == w.agenda[FirstDue(w.agenda, w.turn)].e
              && Refines(slots[head := slots[head][1..]], head, Handle(w))
  {
    EmptyIff(slots, head, w);
    if slots[head] != [] {
      HandleBounds(w);
      var slots' := slots[head := slots[head][1..]];
      assert SlotOK(slots, head, w, 0);
      HandleSlot(slots, head, w, 0);
      forall d | 0 <= d < SIZE
        ensures SlotOK(slots', head, Handle(w), d)
      {
        assert SlotOK(slots, head, w, d);
        HandleSlot(slots, head, w, d);
      }
      hide SlotOK, FirstDue;
    }
  }

  lemma EmptyIff(slots: seq<seq<Event>>, head: nat, w: World)
    requires |slots| == SIZE && head < SIZE && Refines(slots, head, w)
    ensures slots[head] == [] <==> FirstDue(w.agenda, w.turn) == |w.agenda|
  {
    assert SlotOK(slots, head, w, 0);
    if FirstDue(w.agenda, w.turn) == |w.agenda| {
      NothingAt(w.agenda, w.turn);
    } else {
      AtRemoved(w.agenda, w.turn, w.turn);
    }
    hide At;
  }

  lemma TurnRefines(slots: seq<seq<Event>>, head: nat, w: World)
    requires |slots| == SIZE && head < SIZE && Refines(slots, head, w) && slots[head] == []
    ensures Refines(slots, (head + 1) % SIZE, Turn(w))
  {
    HandleRefines(slots, head, w);
    var head' := (head + 1) % SIZE;
    forall d | 0 <= d < SIZE
      ensures SlotOK(slots, head', Turn(w), d)
    {
      if d == SIZE - 1 {
        assert (head' + d) % SIZE == head;
        NothingAt(w.agenda, w.turn + SIZE);
      } else {
        assert (head' + d) % SIZE == (head + (d + 1)) % SIZE;
        assert SlotOK(slots, head, w, d + 1);
      }
    }
  }

  lemma ClockRefines(slots: seq<seq<Event>>, head: nat, w: World)
    requires |slots| == SIZE && head < SIZE && Refines(slots, head, w)
    ensures Refines(slots, head, w.(clock := w.clock + 1))
  {
    var w' := w.(clock := w.clock + 1);
    forall d | 0 <= d < SIZE
      ensures SlotOK(slots, head, w', d)
    {
      assert SlotOK(slots, head, w, d);
    }
  }

  lemma DrainDone(w: World, script: seq<seq<Event>>)
    requires FirstDue(w.agenda, w.turn) == |w.agenda|
    ensures Drain(w, script) == w
  {
  }

  class EventQueue {
    const queue: array<seq<Event>>
    var head: nat
    ghost var world: World

    ghost predicate Valid()
      reads this, queue
    {
      queue.Length == SIZE && head < SIZE && Refines(queue[..], head, world) && Orderly(world)
    }

    constructor (now: int)
      ensures Valid() && fresh(queue) && world == World(now, now, [], [], [])
    {
      queue := new seq<Event>[SIZE](_ => []);
      head := 0;
      world := World(now, now, [], [], []);
    }

    function GetIndex(index: nat): nat
      reads this
    {
      (head + index) % SIZE
    }

    /** Called at any time: before, while or after the events of the current tick are processed. */
    method AddEvent(event: Event, currentTime: int)
      requires Valid() && currentTime == world.clock
      modifies queue, this`world
      ensures Valid() && world == Add(old(world), event)
    {
      ghost var slots := queue[..];
      AddRefines(slots, head, world, event);
      AddOrderly(world, event);
      var i := GetIndex(if event.eventTime < currentTime then 0 else event.eventTime - currentTime);
      queue[i] := queue[i] + [event];
      assert queue[..] == slots[i := slots[i] + [event]];
      world := Add(world, event);
    }

    /** The handler of one event adds these events. */
    method AddEvents(es: seq<Event>, currentTime: int)
      requires Valid() && currentTime == world.clock
      modifies queue, this`world
      ensures Valid() && world == AddAll(old(world), es)
      ensures world.turn == old(world).turn && world.clock == old(world).clock
    {
      ghost var w := world;
      for i := 0 to |es|
        invariant Valid() && world.turn == w.turn && world.clock == w.clock && AddAll(world, es[i..]) == AddAll(w, es)
      {
        assert es[i..][1..] == es[i+1..];
        AddEvent(es[i], currentTime);
      }
    }

    /** Takes the first event of the current list. */
    method PollFirst() returns (e: Event)
      requires Valid() && queue[head] != []
      modifies queue, this`world
      ensures FirstDue(old(world).agenda, old(world).turn) < |old(world).agenda|
      ensures Valid() && world == Handle(old(world))
      ensures e == old(world).agenda[FirstDue(old(world).agenda, old(world).turn)].e
    {
      ghost var slots := queue[..];
      HandleRefines(slots, head, world);
      HandleOrderly(world);
      e := queue[head][0];
      queue[head] := queue[head][1..];
      assert queue[..] == slots[head := slots[head][1..]];
      world := Handle(world);
    }

    /** The clock goes on, outside the event queue. */
    ghost method ClockIncremented()
      requires Valid()
      modifies this`world
      ensures Valid() && world == old(world).(clock := old(world).clock + 1)
    {
      ClockRefines(queue[..], head, world);
      world := world.(clock := world.clock + 1);
    }

    method TurnWheel()
      requires Valid() && queue[head] == []
      requires forall i | 0 <= i < |world.agenda| :: world.agenda[i].at > world.turn
      modifies this`head, this`world
      ensures Valid() && world == Turn(old(world))
    {
      TurnRefines(queue[..], head, world);
      head := (head + 1) % SIZE;
      world := Turn(world);
    }

    /** The current list is empty exactly if nothing is due now. */
    lemma ListEmptyIff()
      requires Valid()
      ensures queue[head] == [] <==> FirstDue(world.agenda, world.turn) == |world.agenda|
    {
      HandleRefines(queue[..], head, world);
    }

    /** Handles one event together with what its handler adds. */
    method HandleOne(currentTime: int, script: seq<seq<Event>>) returns (e: Event, rest: seq<seq<Event>>)
      requires Valid() && currentTime == world.clock && queue[head] != []
      modifies queue, this`world
      ensures Valid() && world.turn == old(world).turn && world.clock == old(world).clock
      ensures Drain(world, rest) == Drain(old(world), script)
      ensures Names(world.handled) == Names(old(world).handled) + [e]
      ensures |rest| < |script| || (rest == script == [] && |world.agenda| < |old(world).agenda|)
    {
      hide Refines, Orderly;
      e := PollFirst();
      rest := script;
      if rest != [] {
        AddAllKeeps(world, rest[0]);
        AddEvents(rest[0], currentTime);
        rest := rest[1..];
      }
    }

    /** Handles the events of this tick; script says what each handler adds. */
    method ProcessEvents(currentTime: int, script: seq<seq<Event>>) returns (handled: seq<Event>)
      requires Valid() && currentTime == world.clock
      modifies queue, this`head, this`world
      ensures Valid() && world == Turn(Drain(old(world), script))
      ensures Names(world.handled) == Names(old(world).handled) + handled
    {
      hide Refines, Orderly, Names, Drain;
      ghost var w := world;
      var rest := script;
      handled := [];
      ListEmptyIff();
      while queue[head] != []
        invariant Valid() && world.turn == w.turn && world.clock == w.clock
        invariant queue[head] == [] <==> FirstDue(world.agenda, world.turn) == |world.agenda|
        invariant Drain(world, rest) == Drain(w, script)
        invariant Names(world.handled) == Names(w.handled) + handled
        decreases |rest|, |world.agenda|
      {
        var e: Event;
        e, rest := HandleOne(currentTime, rest);
        handled := handled + [e];
        ListEmptyIff();
      }
      DrainOrderly(w, script);
      DrainDone(world, rest);
      TurnWheel();
    }
  }
}

/** The growable pool of instructions: a ring of linked elements, of which the stretch from head to tail is in stock. */
module CircularBuffer {

  /** A pooled object; only its identity matters. */
  class Item {
    constructor () {}
  }

  class Element {
    var object': Item
    var next: Element?

    constructor (next: Element?)
      ensures this.next == next && fresh(object')
    {
      object' := new Item();
      this.next := next;
    }
  }

  /** Consecutive elements are linked. */
  ghost predicate Linked(chain: seq<Element>)
    reads chain
  {
    forall i | 0 <= i < |chain| - 1 :: chain[i].next == chain[i+1]
  }

  predicate Different<T(==)>(s: seq<T>) {
    forall i, j | 0 <= i < j < |s| :: s[i] != s[j]
  }

  ghost function Objects(chain: seq<Element>): (s: seq<Item>)
    reads chain
    ensures |s| == |chain| && forall i | 0 <= i < |s| :: s[i] == chain[i].object'
  {
    seq(|chain|, i requires 0 <= i < |chain| reads chain => chain[i].object')
  }

  /** k new elements in front of an existing one. */
  method Prepend(k: nat, after: Element?) returns (first: Element?, ghost chain: seq<Element>)
    ensures |chain| == k && Linked(chain) && Different(chain) && Different(Objects(chain))
    ensures forall e | e in chain :: fresh(e) && fresh(e.object')
    ensures if k == 0 then first == after else first == chain[0] && chain[k-1].next == after
  {
    first, chain := after, [];
    for i := 0 to k
      invariant |chain| == i && Linked(chain) && Different(chain) && Different(Objects(chain))
      invariant forall e | e in chain :: fresh(e) && fresh(e.object')
      invariant if i == 0 then first == after else first == chain[0] && chain[i-1].next == after
    {
      var e := new Element(first);
      first := e;
      chain := [e] + chain;
    }
  }

  /** n new elements in a ring. */
  method MakeRing(n: nat) returns (first: Element, last: Element, ghost ring: seq<Element>)
    requires n >= 1
    ensures |ring| == n && first == ring[0] && last == ring[n-1]
    ensures Linked(ring) && last.next == first && Different(ring) && Different(Objects(ring))
    ensures forall i | 0 <= i < n :: fresh(ring[i]) && fresh(ring[i].object')
  {
    last := new Element(null);
    first, ring := last, [last];
    for i := 1 to n
      invariant |ring| == i && first == ring[0] && last == ring[i-1]
      invariant Linked(ring) && Different(ring) && Different(Objects(ring))
      invariant forall k | 0 <= k < i :: fresh(ring[k]) && fresh(ring[k].object')
    {
      first := new Element(first);
      ring := [first] + ring;
    }
    last.next := first;
  }

  /** A ring with new elements behind its first is still without repetition. */
  lemma Spliced(ring: seq<Element>, chain: seq<Element>)
    requires |ring| >= 1 && Different(ring) && Different(chain)
    requires forall a, b | 0 <= a < |chain| && 0 <= b < |ring| :: chain[a] != ring[b]
    ensures Different([ring[0]] + chain + ring[1..])
  {
    var r := [ring[0]] + chain + ring[1..];
    forall i, j | 0 <= i < j < |r|
      ensures r[i] != r[j]
    {
      assert i > |chain| ==> r[i] == ring[i - |chain|];
      assert 1 <= i <= |chain| ==> r[i] == chain[i-1];
      assert j > |chain| ==> r[j] == ring[j - |chain|];
      assert 1 <= j <= |chain| ==> r[j] == chain[j-1];
    }
  }

  lemma Rotated(ring: seq<Element>)
    requires |ring| >= 1 && Different(ring)
    ensures Different(ring[1..] + [ring[0]])
    ensures forall e | e in ring[1..] + [ring[0]] :: e in ring
  {
  }

  /** The program's null, the object, its stop for lack of room, or no return at all. */
  datatype Outcome = Null | Object(item: Item) | Overflow | NeverReturns

  class GenericCircularBuffer {
    var head: Element
    var tail: Element
    const minBufferSize: nat
    const maxBufferSize: nat
    const isGrowable: bool
    var currentMaxBufferSize: nat
    var currentSize: int
    ghost var ring: seq<Element>     // all elements, from the head on

    ghost predicate Valid()
      reads this, ring
    {
      && |ring| == currentMaxBufferSize
      && 2 <= currentSize <= currentMaxBufferSize
      && Different(ring)
      && Linked(ring) && ring[|ring|-1].next == ring[0]
      && head == ring[0] && tail == ring[currentSize-1]
    }

    /** The ring of a buffer that was made for fewer than two objects: one element, which is its own successor. */
    ghost predicate Tiny()
      reads this, ring
    {
      |ring| == 1 && head == tail == ring[0] && ring[0].next == ring[0] && currentSize <= 1
    }

    /** What is in stock, oldest first. */
    ghost function Contents(): seq<Item>
      requires Valid()
      reads this, ring
    {
      Objects(ring[..currentSize])
    }

    constructor (minBufferSize: nat, maxBufferSize: nat, isGrowable: bool)
      ensures fresh(ring)
      ensures this.minBufferSize == minBufferSize
      ensures this.maxBufferSize == maxBufferSize && this.isGrowable == isGrowable
      ensures currentSize == currentMaxBufferSize == minBufferSize
      ensures minBufferSize >= 2 ==>
                Valid() && Different(Contents()) && forall i | 0 <= i < minBufferSize :: fresh(Contents()[i])
      ensures minBufferSize < 2 ==> Tiny()
    {
      this.minBufferSize, this.maxBufferSize, this.isGrowable := minBufferSize, maxBufferSize, isGrowable;
      currentMaxBufferSize, currentSize := minBufferSize, minBufferSize;
      var first, last, all := MakeRing(if minBufferSize < 1 then 1 else minBufferSize);
      head, tail, ring := first, last, all;
      new;
      assert minBufferSize >= 2 ==> ring[..currentSize] == ring;
    }

    predicate IsFull()
      reads this
    {
      currentSize == currentMaxBufferSize
    }

    /** Two objects always stay in the ring. */
    predicate IsEmpty()
      reads this
    {
      currentSize == 2
    }

    method Append(newObject: Item) returns (ok: bool)
      requires Valid()
      modifies this`tail, this`currentSize, ring
      ensures Valid() && ring == old(ring) && currentMaxBufferSize == old(currentMaxBufferSize)
      ensures ok <==> old(currentSize) < currentMaxBufferSize
      ensures Contents() == if ok then old(Contents()) + [newObject] else old(Contents())
    {
      if IsFull() {
        return false;
      }
      assert tail.next == ring[currentSize];
      tail := tail.next;
      tail.object' := newObject;
      currentSize := currentSize + 1;
      ok := true;
      assert Contents() == old(Contents()) + [newObject];
    }

    /** Splices k new elements in behind the head. */
    method Splice(k: nat) returns (ghost chain: seq<Element>)
      requires Valid() && currentSize == 2
      modifies this`currentMaxBufferSize, this`currentSize, this`ring, head`next
      ensures Valid() && currentSize == 2 + k && currentMaxBufferSize == old(currentMaxBufferSize) + k
      ensures |chain| == k && ring == [old(ring)[0]] + chain + old(ring)[1..]
      ensures forall i | 0 <= i < k :: fresh(chain[i]) && fresh(chain[i].object')
      ensures Different(Objects(chain))
    {
      ghost var was := ring;
      var temp: Element?;
      temp, chain := Prepend(k, head.next);
      assert forall i | 0 <= i < k :: fresh(chain[i]) && fresh(chain[i].object');
      head.next := temp;
      currentMaxBufferSize := currentMaxBufferSize + k;
      currentSize := currentSize + k;
      ring := [was[0]] + chain + was[1..];
      Spliced(was, chain);
      forall i | 0 <= i < |ring| - 1
        ensures ring[i].next == ring[i+1]
      {
        if i > k {
          assert ring[i] == was[i-k] && ring[i+1] == was[i-k+1];
        } else if 1 <= i {
          assert ring[i] == chain[i-1];
        }
      }
    }

    method Grow(k: nat)
      requires Valid() && currentSize == 2
      modifies this, ring
      ensures Valid() && currentSize == 2 + k && currentMaxBufferSize == old(currentMaxBufferSize) + k
      ensures forall i | 0 <= i < |ring| :: ring[i] in old(ring) || fresh(ring[i])
      ensures |Contents()| == 2 + k && Contents()[0] == old(Contents())[0] && Contents()[1+k] == old(Contents())[1]
      ensures forall i | 1 <= i <= k :: fresh(Contents()[i])
      ensures forall i, j | 1 <= i < j <= k :: Contents()[i] != Contents()[j]
    {
      ghost var was := ring;
      ghost var chain := Splice(k);
      forall i | 1 <= i <= k
        ensures Contents()[i] == Objects(chain)[i-1] && fresh(Contents()[i])
      {
        assert ring[i] == chain[i-1];
      }
      forall i | 0 <= i < |ring|
        ensures ring[i] in was || fresh(ring[i])
      {
        if i > k { assert ring[i] == was[i-k]; }
        if 1 <= i <= k { assert ring[i] == chain[i-1]; }
      }
    }

    /** The object at the head leaves the stock; its element goes to the end of the ring. */
    method TakeHead() returns (toBeReturned: Item)
      requires (Valid() && currentSize > 2) || Tiny()
      modifies this`head, this`currentSize, this`ring
      ensures currentSize == old(currentSize) - 1
      ensures old(Tiny()) ==> Tiny() && ring == old(ring) && toBeReturned == old(head.object')
      ensures old(Valid()) ==>
                && Valid() && (forall e | e in ring :: e in old(ring))
                && toBeReturned == old(Contents())[0] && Contents() == old(Contents())[1..]
    {
      ghost var was := ring;
      assert |was| > 1 ==> head.next == was[1];
      toBeReturned := head.object';
      head := head.next;
      currentSize := currentSize - 1;
      ring := was[1..] + [was[0]];
      if |was| > 1 {
        Rotated(was);
        forall i | 0 <= i < |ring| - 1
          ensures ring[i].next == ring[i+1]
        {
          assert ring[i] == was[i+1];
        }
        assert forall i | 0 <= i < currentSize :: ring[i] == was[i+1];
      }
    }

    /** A buffer made for fewer than two objects is never empty and hands out the same object again and again. */
    method RemoveObjectAtHead() returns (r: Outcome)
      requires Valid() || Tiny()
      modifies this, ring
      ensures old(Tiny()) ==>
                && Tiny() && ring == old(ring)
                && r == Object(old(head.object')) && head.object' == old(head.object')
      ensures old(Valid()) ==> Valid() && forall e | e in ring && e !in old(ring) :: fresh(e)
      ensures old(Valid()) ==>
              var k := minBufferSize / 5;
              if old(currentSize) > 2 then
                && r == Object(old(Contents())[0])
                && Contents() == old(Contents())[1..] && currentMaxBufferSize == old(currentMaxBufferSize)
              else if !isGrowable then r == Null && Contents() == old(Contents()) &&
                  currentMaxBufferSize == old(currentMaxBufferSize)
              else if old(currentMaxBufferSize) + k > maxBufferSize then
                r == Overflow && Contents() == old(Contents()) && currentMaxBufferSize == old(currentMaxBufferSize)
              else if k == 0 then
                r == NeverReturns && Contents() == old(Contents()) && currentMaxBufferSize == old(currentMaxBufferSize)
              else
                && r == Object(old(Contents())[0])
                && |Contents()| == k + 1 && Contents()[k] == old(Contents())[1]
                && (forall i | 0 <= i < k :: fresh(Contents()[i]))
                && (forall i, j | 0 <= i < j < k :: Contents()[i] != Contents()[j])
                && currentMaxBufferSize == old(currentMaxBufferSize) + k
      decreases if currentSize == 2 then 1 else 0
    {
      if IsEmpty() && !isGrowable {
        r := Null;
      } else if !IsEmpty() {
        var toBeReturned := TakeHead();
        r := Object(toBeReturned);
      } else {
        var numElementsAdded := minBufferSize / 5;
        if currentMaxBufferSize + numElementsAdded > maxBufferSize {
          return Overflow;
        }
        if numElementsAdded == 0 {
          return NeverReturns;   // the program would call itself again in the same state
        }
        Grow(numElementsAdded);
        r := RemoveObjectAtHead();
      }
    }
  }

  /**
   The head leaves the stock for the lent set, after k new objects took the place of the head if the stock was low.
   */
  lemma HeadMoves(was: seq<Item>, now: seq<Item>, k: nat, lent: set<Item>)
    requires |was| >= 2 && Different(was) && forall x | x in lent :: x !in was
    requires if |was| > 2 then now == was[1..]
             else |now| == k + 1 && now[k] == was[1] && Different(now[..k]) &&
                  forall i | 0 <= i < k :: now[i] !in was && now[i] !in lent
    ensures Different(now) && forall x | x in lent + {was[0]} :: x !in now
  {
    if |was| == 2 {
      assert now == now[..k] + [was[1]];
      forall x | x in now
        ensures x !in lent + {was[0]}
      {
        var i :| 0 <= i < |now| && now[i] == x;
      }
    }
  }

  /** An object that is lent comes back behind the stock. */
  lemma TailReturns(was: seq<Item>, x: Item, lent: set<Item>)
    requires Different(was) && x in lent && forall y | y in lent :: y !in was
    ensures Different(was + [x]) && (forall y | y in lent - {x} :: y !in was + [x]) && |lent - {x}| == |lent| - 1
  {
  }

  /** Borrowing and returning: the buffer with the set of objects that are out. */
  class InstructionPool {
    const pool: GenericCircularBuffer
    ghost var lent: set<Item>

    /** Nothing is in stock twice, nothing that is lent is in stock, and everything is somewhere. */
    ghost predicate Valid()
      reads this, pool, pool.ring
    {
      && pool.Valid() && pool.isGrowable
      && Different(pool.Contents())
      && (forall x | x in lent :: x !in pool.Contents())
      && |lent| + pool.currentSize == pool.currentMaxBufferSize
    }

    constructor (minPoolSize: nat, maxPoolSize: nat)
      requires minPoolSize >= 2
      ensures Valid() && fresh(pool) && fresh(pool.ring) && lent == {}
      ensures pool.minBufferSize == minPoolSize && pool.maxBufferSize == maxPoolSize
      ensures pool.currentMaxBufferSize == minPoolSize
    {
      pool := new GenericCircularBuffer(minPoolSize, maxPoolSize, true);
      lent := {};
    }

    /** The oldest object in stock, which nobody else holds. */
    method BorrowObject() returns (r: Outcome)
      requires Valid()
      modifies this`lent, pool, pool.ring
      ensures Valid() && forall e | e in pool.ring && e !in old(pool.ring) :: fresh(e)
      ensures r.Object? ==> r.item == old(pool.Contents())[0] && r.item !in old(lent) && lent == old(lent) + {r.item}
      ensures !r.Object? ==> lent == old(lent)
      ensures r != Null
      ensures r == NeverReturns ==> pool.minBufferSize < 5
    {
      ghost var was := pool.Contents();
      r := pool.RemoveObjectAtHead();
      if r.Object? {
        HeadMoves(was, pool.Contents(), pool.minBufferSize / 5, lent);
        lent := lent + {r.item};
      }
    }

    /** Only objects that were borrowed come back; there is always room for them. */
    method ReturnObject(x: Item) returns (ok: bool)
      requires Valid() && x in lent
      modifies this`lent, pool, pool.ring
      ensures Valid() && ok
      ensures pool.Contents() == old(pool.Contents()) + [x] && lent == old(lent) - {x}
    {
      TailReturns(pool.Contents(), x, lent);
      ok := pool.Append(x);
      lent := lent - {x};
      hide Different;
    }
  }
}

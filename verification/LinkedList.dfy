/** The doubly linked list the cache orders its entries with: the part of Go's
    `container/list` that internal/cache/cache.go calls. */
module LinkedList {

  class Element<T> {
    const value: T
    var prev: Element?<T>
    var next: Element?<T>

    constructor (value: T)
      ensures this.value == value && prev == null && next == null
    {
      this.value := value;
      prev, next := null, null;
    }
  }

  /** The element before index `i`, or null at the front. */
  ghost function Before<T>(elems: seq<Element<T>>, i: nat): Element?<T>
    requires i <= |elems|
  {
    if i == 0 then null else elems[i - 1]
  }

  /** The element at index `i`, or null past the back. */
  ghost function At<T>(elems: seq<Element<T>>, i: nat): Element?<T>
    requires i <= |elems|
  {
    if i == |elems| then null else elems[i]
  }

  ghost function Drop<T>(elems: seq<T>, i: nat): seq<T>
    requires i < |elems|
  {
    elems[..i] + elems[i + 1..]
  }

  ghost predicate Apart<T>(elems: seq<Element<T>>, i: nat, j: nat)
    requires i < |elems| && j < |elems|
  {
    elems[i] != elems[j]
  }

  /** No element is listed twice. */
  ghost predicate Distinct<T>(elems: seq<Element<T>>) {
    forall i: nat, j: nat :: i < j < |elems| ==> Apart(elems, i, j)
  }

  lemma DistinctAt<T>(elems: seq<Element<T>>, i: nat, j: nat)
    requires Distinct(elems) && i < j < |elems|
    ensures elems[i] != elems[j]
  {
    assert Apart(elems, i, j);
  }

  /** The element at `i` points at its two neighbours. */
  ghost predicate Linked<T>(elems: seq<Element<T>>, i: nat)
    requires i < |elems|
    reads elems[i]
  {
    elems[i].prev == Before(elems, i) && elems[i].next == At(elems, i + 1)
  }

  /** Position `j` of `Drop(was, i)` in `was`. */
  ghost function Back(i: nat, j: nat): nat { if j < i then j else j + 1 }

  lemma DropDistinct<T>(was: seq<Element<T>>, i: nat)
    requires i < |was| && Distinct(was)
    ensures Distinct(Drop(was, i))
    ensures forall e :: e in Drop(was, i) <==> e in was && e != was[i]
  {
    var now := Drop(was, i);
    forall j: nat, k: nat | j < k < |now| ensures Apart(now, j, k) {
      assert Apart(was, Back(i, j), Back(i, k));
    }
    assert was == was[..i] + [was[i]] + was[i + 1..];
    forall e ensures e in now <==> e in was && e != was[i] {
      if e in now {
        var j :| 0 <= j < |now| && now[j] == e;
        assert Apart(was, Back(i, j), i) || Apart(was, i, Back(i, j));
      }
    }
  }

  class List<T> {
    var head: Element?<T>
    var tail: Element?<T>
    var len: nat
    ghost var elems: seq<Element<T>>  // front first
    ghost var nodes: set<Element<T>>  // the elements this list may write

    ghost predicate Valid()
      reads this, nodes
    {
      && (forall e {:trigger e in nodes} :: e in elems ==> e in nodes)
      && len == |elems|
      && head == At(elems, 0)
      && tail == Before(elems, |elems|)
      && Distinct(elems)
      && (forall i: nat :: i < |elems| ==> Linked(elems, i))
    }

    constructor ()
      ensures Valid() && elems == [] && nodes == {}
    {
      head, tail, len, elems, nodes := null, null, 0, [], {};
    }

    /** Empties the list; the detached elements keep their links. */
    method Init()
      modifies this
      ensures Valid() && elems == [] && nodes == old(nodes)
    {
      head, tail, len, elems := null, null, 0, [];
    }

    method PushFront(value: T) returns (e: Element<T>)
      requires Valid()
      modifies this, nodes
      ensures Valid() && fresh(e) && e.value == value
      ensures elems == [e] + old(elems) && nodes == old(nodes) + {e}
    {
      e := new Element(value);
      LinkFront(e);
    }

    method Previous(e: Element<T>, ghost i: nat) returns (p: Element?<T>)
      requires Valid() && i < |elems| && elems[i] == e
      ensures p == Before(elems, i)
    {
      assert Linked(elems, i);
      p := e.prev;
    }

    method Remove(e: Element<T>, ghost i: nat)
      requires Valid() && i < |elems| && elems[i] == e
      modifies this, nodes
      ensures Valid() && elems == Drop(old(elems), i) && nodes == old(nodes)
    {
      ghost var was := elems;
      DropDistinct(was, i);
      assert Linked(was, i);
      if e.prev == null { head := e.next; } else { e.prev.next := e.next; }
      if e.next == null { tail := e.prev; } else { e.next.prev := e.prev; }
      len := len - 1;
      elems := Drop(was, i);
      forall j: nat | j < |elems| ensures Linked(elems, j) {
        var k := Back(i, j);
        assert old(Linked(was, k));
        assert k < i - 1 ==> Apart(was, k, i - 1);
        assert k > i + 1 ==> Apart(was, i + 1, k);
        assert i > 0 && k > i - 1 ==> Apart(was, i - 1, k);
        assert i + 1 < |was| && k < i + 1 ==> Apart(was, k, i + 1);
      }
    }

    method MoveToFront(e: Element<T>, ghost i: nat)
      requires Valid() && i < |elems| && elems[i] == e
      modifies this, nodes
      ensures Valid() && elems == [e] + Drop(old(elems), i) && nodes == old(nodes)
    {
      if head == e {
        if i > 0 { DistinctAt(elems, 0, i); }
        assert elems == [e] + Drop(elems, 0);
        return;
      }
      DropDistinct(elems, i);
      Remove(e, i);
      LinkFront(e);
    }

    /** Puts a detached element in front. */
    method LinkFront(e: Element<T>)
      requires Valid() && e !in elems
      modifies this, e, nodes
      ensures Valid() && elems == [e] + old(elems) && nodes == old(nodes) + {e}
    {
      ghost var was := elems;
      e.prev, e.next := null, head;
      if head == null { tail := e; } else { head.prev := e; }
      head := e;
      len := len + 1;
      elems, nodes := [e] + was, nodes + {e};
      forall j: nat, k: nat | j < k < |elems| ensures Apart(elems, j, k) {
        if j > 0 { assert Apart(was, j - 1, k - 1); }
      }
      forall j: nat | j < |elems| ensures Linked(elems, j) {
        if j > 0 {
          assert old(Linked(was, j - 1));
          assert j > 1 ==> Apart(was, 0, j - 1);
        }
      }
    }
  }
}

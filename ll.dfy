// The doubly-linked list of tbancontrol: a head and a tail sentinel
// node with the data nodes between them, each linked to its neighbours
// both ways.  The ghost sequence `nodes` is the chain from head to tail
// and `Contents` the data it holds, in order.

module LinkedList {
  import opened TBanDefs

  const LL_OK: int := 0
  const LL_NO_ACTION: int := 1
  const LL_FUNCTION_NULL_POINTER: int := 2
  const LL_MI_NULL_POINTER: int := 3

  /** `MetaNode`: the sentinels carry no data. */
  class Node<T> {
    var data: Option<T>
    var next: Node?<T>
    var prev: Node?<T>

    constructor (d: Option<T>)
      ensures data == d && next == null && prev == null
    {
      data := d;
      next := null;
      prev := null;
    }
  }

  /** The position of the first element the callback matches with `d`
    * (`|s|` when there is none). */
  function FirstMatch<T>(s: seq<T>, eq: (T, T) -> int, d: T): (k: nat)
    ensures k <= |s|
    ensures k < |s| ==> eq(s[k], d) == 1
    ensures forall j :: 0 <= j < k ==> eq(s[j], d) != 1
  {
    if |s| == 0 then 0
    else if eq(s[0], d) == 1 then 0
    else 1 + FirstMatch(s[1..], eq, d)
  }

  /** `MetaInformation`. */
  class DList<T> {
    const head: Node<T>
    const tail: Node<T>
    ghost var nodes: seq<Node<T>>
    ghost var Contents: seq<T>
    ghost var Repr: set<object>

    ghost predicate Valid()
      reads this, Repr
    {
      this in Repr && 2 <= |nodes| && nodes[0] == head && nodes[|nodes| - 1] == tail &&
      (forall i :: 0 <= i < |nodes| ==> nodes[i] in Repr) &&
      (forall i, j :: 0 <= i < j < |nodes| ==> nodes[i] != nodes[j]) &&
      (forall i :: 0 <= i < |nodes| - 1 ==> nodes[i].next == nodes[i + 1]) &&
      (forall i :: 0 < i < |nodes| ==> nodes[i].prev == nodes[i - 1]) &&
      head.prev == null && tail.next == null && head.data.None? && tail.data.None? &&
      |Contents| == |nodes| - 2 &&
      (forall i :: 0 <= i < |Contents| ==> nodes[i + 1].data == Some(Contents[i]))
    }

    /** ll_init: an empty list, the head linked straight to the tail. */
    constructor ()
      ensures Valid() && fresh(Repr) && Contents == []
      ensures head.next == tail && tail.prev == head
    {
      var h := new Node<T>(None);
      var t := new Node<T>(None);
      h.next := t;
      t.prev := h;
      head := h;
      tail := t;
      nodes := [h, t];
      Contents := [];
      Repr := {this, h, t};
    }

    /** ll_prepend: a new node between the head and the first node. */
    method Prepend(d: T)
      requires Valid()
      modifies Repr
      ensures Valid() && fresh(Repr - old(Repr))
      ensures Contents == [d] + old(Contents)
    {
      var n := new Node<T>(Some(d));
      assert head.next == nodes[1] && nodes[1] in Repr;
      var first := head.next;
      n.next := first;
      n.prev := head;
      first.prev := n;
      head.next := n;
      nodes := [head, n] + nodes[1..];
      Contents := [d] + Contents;
      Repr := Repr + {n};
    }

    /** ll_append: a new node between the last node and the tail. */
    method Append(d: T)
      requires Valid()
      modifies Repr
      ensures Valid() && fresh(Repr - old(Repr))
      ensures Contents == old(Contents) + [d]
    {
      assert tail.prev == nodes[|nodes| - 2] && nodes[|nodes| - 2] in Repr;
      var beforeTail := tail.prev;
      var n := new Node<T>(Some(d));
      n.next := tail;
      n.prev := beforeTail;
      beforeTail.next := n;
      tail.prev := n;
      nodes := nodes[..|nodes| - 1] + [n, tail];
      Contents := Contents + [d];
      Repr := Repr + {n};
    }

    /** ll_first: the head sentinel, not the first element. */
    method First() returns (n: Node<T>)
      requires Valid()
      ensures n == nodes[0] && n.data.None?
    {
      n := head;
    }

    /** ll_last: the node before the tail, which is the head sentinel
      * when the list is empty. */
    method Last() returns (n: Node<T>)
      requires Valid()
      ensures |Contents| > 0 ==> n == nodes[|Contents|] && n.data == Some(Contents[|Contents| - 1])
      ensures |Contents| == 0 ==> n == head
    {
      assert tail.prev == nodes[|nodes| - 2];
      n := tail.prev;
    }

    /** ll_get: the node of element `number`, or null when there is
      * none. */
    method Get(number: int) returns (p: Node?<T>)
      requires Valid()
      ensures 0 <= number < |Contents| ==> p == nodes[number + 1] && p.data == Some(Contents[number])
      ensures !(0 <= number < |Contents|) ==> p == null
    {
      var i := 0;
      p := head.next;
      while p != tail
        invariant 0 <= i <= |Contents| && p == nodes[i + 1]
        invariant i <= number || number < 0
        decreases |Contents| - i
      {
        if i == number {
          return;
        }
        p := p.next;
        i := i + 1;
      }
      p := null;
    }

    /** Unlinking the node of element k. */
    method Unlink(p: Node<T>, ghost k: nat)
      requires Valid() && k < |Contents| && p == nodes[k + 1]
      modifies Repr
      ensures Valid() && Repr == old(Repr)
      ensures Contents == old(Contents[..k] + Contents[k + 1..])
    {
      assert p.prev == nodes[k] && p.next == nodes[k + 2] && nodes[k] in Repr && nodes[k + 2] in Repr;
      var before := p.prev;
      var after := p.next;
      before.next := after;
      after.prev := before;
      nodes := nodes[..k + 1] + nodes[k + 2..];
      Contents := Contents[..k] + Contents[k + 1..];
    }

    /** ll_removeindex: element `index` is removed and 0 returned, or -1
      * for an index outside the list, which then stays as it was. */
    method RemoveIndex(index: int) returns (r: int)
      requires Valid()
      modifies Repr
      ensures Valid() && Repr == old(Repr)
      ensures 0 <= index < |old(Contents)| ==> r == 0 && Contents == old(Contents[..index] + Contents[index + 1..])
      ensures !(0 <= index < |old(Contents)|) ==> r == -1 && Contents == old(Contents)
    {
      var i := 0;
      var p := head.next;
      while p != tail
        invariant 0 <= i <= |Contents| && p == nodes[i + 1]
        invariant i <= index || index < 0
        decreases |Contents| - i
      {
        if i == index {
          Unlink(p, i);
          return 0;
        }
        p := p.next;
        i := i + 1;
      }
      r := -1;
    }

    /** ll_remove: the first element the callback matches with `d` is
      * removed and 1 returned; 0 when nothing matches.  A missing
      * callback is refused. */
    method Remove(eq: Option<(T, T) -> int>, d: T) returns (r: int)
      requires Valid()
      modifies Repr
      ensures Valid() && Repr == old(Repr)
      ensures eq.None? ==> r == LL_FUNCTION_NULL_POINTER && Contents == old(Contents)
      ensures eq.Some? ==> var k := FirstMatch(old(Contents), eq.value, d);
        (k < |old(Contents)| ==> r == 1 && Contents == old(Contents[..k] + Contents[k + 1..])) &&
        (k == |old(Contents)| ==> r == 0 && Contents == old(Contents))
    {
      if eq.None? {
        return LL_FUNCTION_NULL_POINTER;
      }
      var f := eq.value;
      ghost var k := FirstMatch(Contents, f, d);
      var i := 0;
      var p := head.next;
      while p != tail
        invariant 0 <= i <= |Contents| && p == nodes[i + 1] && i <= k
        decreases |Contents| - i
      {
        assert p.data == Some(Contents[i]);
        if f(p.data.value, d) == 1 {
          Unlink(p, i);
          return 1;
        }
        p := p.next;
        i := i + 1;
      }
      r := 0;
    }

    /** ll_traverse_with_function: the callback is applied to each
      * element in order; what it gives back for each is collected. */
    method Traverse<R>(visit: Option<T -> R>) returns (r: int, results: seq<R>)
      requires Valid()
      ensures visit.None? ==> r == LL_FUNCTION_NULL_POINTER && results == []
      ensures visit.Some? ==>
        r == LL_OK && |results| == |Contents| && forall i :: 0 <= i < |Contents| ==> results[i] == visit.value(Contents[i])
    {
      results := [];
      if visit.None? {
        return LL_FUNCTION_NULL_POINTER, results;
      }
      var i := 0;
      var p := head.next;
      while p != tail
        invariant 0 <= i <= |Contents| && p == nodes[i + 1] && |results| == i
        invariant forall j :: 0 <= j < i ==> results[j] == visit.value(Contents[j])
        decreases |Contents| - i
      {
        assert p.data == Some(Contents[i]);
        results := results + [visit.value(p.data.value)];
        p := p.next;
        i := i + 1;
      }
      r := LL_OK;
    }
  }
}

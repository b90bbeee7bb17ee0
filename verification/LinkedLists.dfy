/** The doubly linked list of iotjs_util.h, over the heap. */
module LinkedLists {

  class Item<T> {
    var prev: Item?<T>
    var next: Item?<T>
    const data: T

    constructor (prev: Item?<T>, next: Item?<T>, data: T)
      ensures this.prev == prev && this.next == next && this.data == data
    {
      this.prev, this.next, this.data := prev, next, data;
    }
  }

  function Reversed<X>(s: seq<X>): seq<X> {
    if s == [] then [] else [s[|s| - 1]] + Reversed(s[..|s| - 1])
  }

  function Without<X>(s: seq<X>, i: nat): seq<X>
    requires i < |s|
  {
    s[..i] + s[i + 1..]
  }

  class LinkedList<T> {
    var head: Item?<T>
    var tail: Item?<T>
    var size: nat
    ghost var items: seq<Item<T>>

    ghost predicate Valid()
      reads this, items
    {
      && size == |items|
      && head == (if items == [] then null else items[0])
      && tail == (if items == [] then null else items[|items| - 1])
      && (forall i, j :: 0 <= i < j < |items| ==> items[i] != items[j])
      && (forall i {:trigger items[i].prev} :: 0 <= i < |items| ==>
            items[i].prev == if i == 0 then null else items[i - 1])
      && (forall i {:trigger items[i].next} :: 0 <= i < |items| ==>
            items[i].next == if i == |items| - 1 then null else items[i + 1])
    }

    constructor ()
      ensures Valid() && items == []
    {
      head, tail, size, items := null, null, 0, [];
    }

    method InsertHead(data: T) returns (item: Item<T>)
      requires Valid()
      modifies this, items
      ensures Valid() && fresh(item) && item.data == data
      ensures items == [item] + old(items)
    {
      item := new Item(null, head, data);
      if size == 0 {
        head, tail := item, item;
      } else {
        head.prev := item;
        head := item;
      }
      size := size + 1;
      items := [item] + items;
    }

    method InsertTail(data: T) returns (item: Item<T>)
      requires Valid()
      modifies this, items
      ensures Valid() && fresh(item) && item.data == data
      ensures items == old(items) + [item]
    {
      item := new Item(tail, null, data);
      if size == 0 {
        head, tail := item, item;
      } else {
        tail.next := item;
        tail := item;
      }
      size := size + 1;
      items := items + [item];
    }

    method RemoveHead()
      requires Valid() && size > 0
      modifies this, items
      ensures Valid() && items == old(items)[1..]
    {
      size := size - 1;
      if size == 0 {
        head, tail := null, null;
      } else {
        head := head.next;
        head.prev := null;
      }
      items := items[1..];
    }

    method RemoveTail()
      requires Valid() && size > 0
      modifies this, items
      ensures Valid() && items == old(items)[..|old(items)| - 1]
    {
      size := size - 1;
      if size == 0 {
        head, tail := null, null;
      } else {
        tail := tail.prev;
        tail.next := null;
      }
      items := items[..|items| - 1];
    }

    /** Takes out just the given item, wherever it is; `k` is its position. */
    method RemoveItem(item: Item<T>, ghost k: nat)
      requires Valid() && k < |items| && items[k] == item
      modifies this, items
      ensures Valid() && items == Without(old(items), k)
      ensures item.prev == old(item.prev) && item.next == old(item.next)
    {
      if item.prev != null {
        item.prev.next := item.next;
      } else {
        head := item.next;
      }
      if item.next != null {
        item.next.prev := item.prev;
      } else {
        tail := item.prev;
      }
      size := size - 1;
      items := Without(items, k);
    }

    method Clear()
      requires Valid()
      modifies this, items
      ensures Valid() && items == [] && size == 0 && head == null && tail == null
    {
      while size != 0
        invariant Valid()
        invariant size <= |old(items)| && items == old(items)[|old(items)| - size..]
        decreases size
      {
        RemoveHead();
      }
    }

    // Walking the links, with no help from `items`.

    ghost function Forward(from: Item?<T>, steps: nat): seq<Item<T>>
      reads this, items
    {
      if from == null || steps == 0 || from !in items then [] else [from] + Forward(from.next, steps - 1)
    }

    ghost function Backward(from: Item?<T>, steps: nat): seq<Item<T>>
      reads this, items
    {
      if from == null || steps == 0 || from !in items then [] else [from] + Backward(from.prev, steps - 1)
    }

    /** Following `next` from an item gives the rest of the list, and then null. */
    lemma {:induction false} ForwardFrom(i: nat, steps: nat)
      requires Valid() && i < |items| && steps >= |items| - i
      ensures Forward(items[i], steps) == items[i..]
      decreases |items| - i
    {
      if i + 1 < |items| {
        ForwardFrom(i + 1, steps - 1);
      }
      assert items[i..] == [items[i]] + items[i + 1..];
    }

    lemma {:induction false} BackwardFrom(i: nat, steps: nat)
      requires Valid() && i < |items| && steps > i
      ensures Backward(items[i], steps) == Reversed(items[..i + 1])
      decreases i
    {
      if i > 0 {
        BackwardFrom(i - 1, steps - 1);
      }
      assert items[..i + 1][..i] == items[..i];
    }

    /** From head, `next` gives the whole list in order; from tail, `prev` gives it in reverse.  Both
        walks end in null: no number of steps beyond `size` finds more. */
    lemma WalksAgree(steps: nat)
      requires Valid() && steps >= size
      ensures Forward(head, steps) == items
      ensures Backward(tail, steps) == Reversed(items)
    {
      if items != [] {
        ForwardFrom(0, steps);
        BackwardFrom(|items| - 1, steps);
        assert items[..|items| - 1 + 1] == items;
      }
    }
  }
}

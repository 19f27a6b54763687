/** The intrusive doubly linked list of linked_list.c, on the heap: nodes carry
    their own links and a list is a head pointing at the first and the last. */
module LinkedList {
  import opened Lists

  class ListItem {
    var prev: ListItem?
    var next: ListItem?

    constructor ()
      ensures prev == null && next == null
    {
      prev, next := null, null;
    }
  }

  // ----- Neighbours -----

  function Before(items: seq<ListItem>, i: nat): ListItem? {
    if 0 < i <= |items| then items[i - 1] else null
  }

  function After(items: seq<ListItem>, i: nat): ListItem? {
    if i + 1 < |items| then items[i + 1] else null
  }

  function IndexOf(items: seq<ListItem>, x: ListItem): (i: nat)
    requires x in items
    ensures i < |items| && items[i] == x && x !in items[..i]
  {
    if items[0] == x then 0 else
    var i := 1 + IndexOf(items[1..], x);
    assert items[..i] == [items[0]] + items[1..][..i - 1];
    i
  }

  // ----- Links around one place -----

  /** Item `i` is linked to its neighbours in the list. */
  ghost predicate Joined(items: seq<ListItem>, i: nat)
    requires i < |items|
    reads items[i]
  {
    items[i].prev == Before(items, i) && items[i].next == After(items, i)
  }

  ghost predicate LinkedUp(items: seq<ListItem>)
    reads items
  {
    forall i :: 0 <= i < |items| ==> Joined(items, i)
  }

  /** Item `i` of `u` is linked to its neighbours in the list that has `item`
      before position `k`. */
  ghost predicate JoinedThrough(u: seq<ListItem>, k: nat, item: ListItem, i: nat)
    requires i < |u|
    reads u[i]
  {
    && u[i].prev == (if i == k then item else Before(u, i))
    && u[i].next == (if i + 1 == k then item else After(u, i))
  }

  ghost predicate LinkedThrough(u: seq<ListItem>, k: nat, item: ListItem)
    reads u, item
  {
    && k <= |u| && item !in u
    && item.prev == Before(u, k) && item.next == (if k < |u| then u[k] else null)
    && forall i :: 0 <= i < |u| ==> JoinedThrough(u, k, item, i)
  }

  function With(u: seq<ListItem>, k: nat, item: ListItem): (items: seq<ListItem>)
    requires k <= |u|
    ensures |items| == |u| + 1 && items[k] == item
    ensures forall i :: 0 <= i < |u| ==> u[i] == items[if i < k then i else i + 1]
  {
    u[..k] + [item] + u[k..]
  }

  /** The links of `u` go through `item` exactly if the list with `item` in that
      place is linked up. */
  lemma LinkedWith(u: seq<ListItem>, k: nat, item: ListItem)
    requires k <= |u| && item !in u
    ensures LinkedThrough(u, k, item) <==> LinkedUp(With(u, k, item))
  {
    var items := With(u, k, item);
    if LinkedThrough(u, k, item) {
      forall i | 0 <= i < |items| ensures Joined(items, i) {
        if i < k {
          assert JoinedThrough(u, k, item, i);
        } else if i > k {
          assert JoinedThrough(u, k, item, i - 1);
        }
      }
    }
    if LinkedUp(items) {
      assert Joined(items, k);
      forall i | 0 <= i < |u| ensures JoinedThrough(u, k, item, i) {
        assert Joined(items, if i < k then i else i + 1);
      }
    }
  }

  lemma NoDupWith(u: seq<ListItem>, k: nat, item: ListItem)
    requires k <= |u|
    ensures NoDup(With(u, k, item)) <==> NoDup(u) && item !in u
  {
    var items := With(u, k, item);
    if NoDup(items) {
      forall i | 0 <= i < |u| ensures u[i] != item {
        assert items[k] == item && u[i] == items[if i < k then i else i + 1];
      }
      forall i, j | 0 <= i < j < |u| ensures u[i] != u[j] {
        assert u[i] == items[if i < k then i else i + 1] && u[j] == items[if j < k then j else j + 1];
      }
    }
  }

  // ----- Places -----

  /** Where the list without `x` is to be opened for `x` to be back. */
  lemma PlaceOf(items: seq<ListItem>, x: ListItem) returns (u: seq<ListItem>, k: nat)
    requires x in items && NoDup(items)
    ensures k <= |u| && items == With(u, k, x) && Detach(items, x) == u && x !in u && NoDup(u)
  {
    k := IndexOf(items, x);
    u := items[..k] + items[k + 1..];
    assert items == items[..k] + [x] + items[k + 1..];
    DetachSplits(items[..k], x, items[k + 1..]);
    assert u[..k] == items[..k] && u[k..] == items[k + 1..];
    NoDupWith(u, k, x);
  }

  /** Where an insertion after `p` opens the list. */
  lemma PlaceAfter(items: seq<ListItem>, p: ListItem?, x: ListItem) returns (k: nat)
    requires p == null || p in items
    ensures k <= |items| && p == Before(items, k)
    ensures InsertAfter(items, if p == null then None else Some(p), x) == With(items, k, x)
  {
    if p == null {
      k := 0;
      assert With(items, 0, x) == [x] + items;
    } else {
      k := IndexOf(items, p) + 1;
      assert items == items[..k - 1] + [p] + items[k..];
      InsertAfterSplits(items[..k - 1], p, items[k..], x);
      assert items[..k - 1] + [p, x] + items[k..] == items[..k] + [x] + items[k..];
    }
  }

  class ListHead {
    var first: ListItem?
    var last: ListItem?
    var size: int
    ghost var items: seq<ListItem>

    /** Forward and backward links agree with the listed items. */
    ghost predicate Valid()
      reads this, items
    {
      NoDup(items) && LinkedUp(items) && Heads()
    }

    /** The head refers to the ends of the list and counts its items. */
    ghost predicate Heads()
      reads this
    {
      && size == |items|
      && first == (if items == [] then null else items[0])
      && last == (if items == [] then null else items[|items| - 1])
    }

    /** List_init. */
    constructor ()
      ensures Valid() && items == []
    {
      first, last, size := null, null, 0;
      items := [];
    }

    /** List_find. */
    method Find(item: ListItem) returns (found: ListItem?)
      requires Valid()
      ensures found == if item in items then item else null
    {
      var aux := first;
      ghost var k := 0;
      while aux != null
        invariant k <= |items| && item !in items[..k]
        invariant aux == if k < |items| then items[k] else null
        decreases |items| - k
      {
        if aux == item {
          return item;
        }
        assert items[..k + 1] == items[..k] + [items[k]];
        assert Joined(items, k);
        aux := aux.next;
        k := k + 1;
      }
      assert items[..k] == items;
      return null;
    }

    /** List_insert: `item` goes right after `previous`, or in front without one.
        An item with a neighbour is refused; one without must not be the only
        item of this list, which its links do not show. */
    method Insert(previous: ListItem?, item: ListItem) returns (inserted: ListItem?)
      requires Valid() && (previous == null || previous in items)
      requires item.prev == null && item.next == null ==> item !in items
      modifies this, item, items
      ensures Valid()
      ensures inserted == if old(item.prev == null && item.next == null) then item else null
      ensures inserted == null ==> unchanged(this) && unchanged(item) && forall x :: x in items ==> unchanged(x)
      ensures inserted != null ==>
                items == InsertAfter(old(items), if previous == null then None else Some(previous), item)
    {
      if item.next != null || item.prev != null {
        return null;
      }
      ghost var k := PlaceAfter(items, previous, item);
      ghost var u := items;
      if previous != null {
        assert Joined(items, k - 1);
      }
      var next := if previous != null then previous.next else first;
      LinkIn(previous, item, next, k);
      LinkedWith(u, k, item);
      NoDupWith(u, k, item);
      HeadIn(previous, item, next, k);
      return item;
    }

    method HeadIn(prev: ListItem?, item: ListItem, next: ListItem?, ghost k: nat)
      requires Heads() && k <= |items| && prev == Before(items, k) && next == if k < |items| then items[k] else null
      requires NoDup(With(items, k, item)) && LinkedUp(With(items, k, item))
      modifies this
      ensures Valid() && items == With(old(items), k, item)
    {
      if prev == null {
        first := item;
      }
      if next == null {
        last := item;
      }
      size := size + 1;
      items := With(items, k, item);
    }

    method LinkIn(prev: ListItem?, item: ListItem, next: ListItem?, ghost k: nat)
      requires Valid() && item !in items && item.prev == null && item.next == null
      requires k <= |items| && prev == Before(items, k) && next == if k < |items| then items[k] else null
      modifies item, items
      ensures LinkedThrough(items, k, item)
    {
      if prev != null {
        item.prev := prev;
        prev.next := item;
      }
      if next != null {
        item.next := next;
        next.prev := item;
      }
      forall i | 0 <= i < |items| ensures JoinedThrough(items, k, item, i) {
        assert old(Joined(items, i));
      }
    }

    /** List_detach of an item of this list. */
    method DetachItem(item: ListItem) returns (detached: ListItem)
      requires Valid() && item in items
      modifies this, items
      ensures detached == item && items == Detach(old(items), item) && detached.prev == null && detached.next == null
      ensures Valid()
    {
      ghost var u, k := PlaceOf(items, item);
      LinkedWith(u, k, item);
      var prev, next := item.prev, item.next;
      LinkOut(prev, item, next, u, k);
      HeadOut(prev, item, next, u, k);
      return item;
    }

    method HeadOut(prev: ListItem?, item: ListItem, next: ListItem?, ghost u: seq<ListItem>, ghost k: nat)
      requires Heads() && k <= |u| && item !in u && items == With(u, k, item)
      requires prev == Before(u, k) && next == if k < |u| then u[k] else null
      requires NoDup(u) && LinkedUp(u)
      modifies this
      ensures Valid() && items == u && unchanged(item)
    {
      if item == first {
        first := next;
      }
      if item == last {
        last := prev;
      }
      size := size - 1;
      items := u;
    }

    method LinkOut(prev: ListItem?, item: ListItem, next: ListItem?, ghost u: seq<ListItem>, ghost k: nat)
      requires LinkedThrough(u, k, item) && NoDup(u) && prev == item.prev && next == item.next
               && items == With(u, k, item)
      modifies items
      ensures LinkedUp(u) && item.prev == null && item.next == null
    {
      if prev != null {
        prev.next := next;
      }
      if next != null {
        next.prev := prev;
      }
      assert items[k] == item;
      item.next, item.prev := null, null;
      forall i | 0 <= i < |u| ensures Joined(u, i) {
        assert old(JoinedThrough(u, k, item, i));
      }
    }
  }

  // ----- Several lists -----

  /** Two lists share no item. */
  ghost predicate Apart(a: ListHead, b: ListHead)
    reads a, b
  {
    a != b && forall x :: x in a.items ==> x !in b.items
  }

  /** A list none of whose nodes changes is as it was. */
  twostate lemma StaysValid(h: ListHead)
    requires old(h.Valid()) && unchanged(h) && forall x :: x in old(h.items) ==> unchanged(x)
    ensures h.Valid()
  {
    forall i | 0 <= i < |h.items| ensures Joined(h.items, i) {
      assert h.items[i] in old(h.items) && old(Joined(h.items, i));
    }
  }

  lemma DetachRest(items: seq<ListItem>, x: ListItem)
    requires NoDup(items) && x in items
    ensures x !in Detach(items, x) && forall y :: y in Detach(items, x) ==> y in items
  {
    var u, k := PlaceOf(items, x);
    forall y | y in u ensures y in items {
      var i :| 0 <= i < |u| && u[i] == y;
      assert items[if i < k then i else i + 1] == y;
    }
  }

  lemma InsertLast(items: seq<ListItem>, last: ListItem?, x: ListItem)
    requires NoDup(items) && last == if items == [] then null else items[|items| - 1]
    ensures InsertAfter(items, if last == null then None else Some(last), x) == items + [x]
  {
    if items != [] {
      var front := items[..|items| - 1];
      assert items == front + [last] + [];
      InsertAfterSplits(front, last, [], x);
      assert front + [last, x] + [] == items + [x];
    }
  }

  /** How the kernel moves a process from one list to the end of another: the
      item changes lists and no other list on the heap changes. */
  method MoveToEnd(from: ListHead, to: ListHead, item: ListItem, ghost others: set<ListHead>)
    requires from.Valid() && to.Valid() && Apart(from, to) && item in from.items
    requires forall h :: h in others ==> h.Valid() && Apart(h, from) && Apart(h, to)
    modifies from, to, from.items, to.items
    ensures from.Valid() && from.items == Detach(old(from.items), item)
    ensures to.Valid() && to.items == old(to.items) + [item]
    ensures Apart(from, to)
    ensures forall h :: h in others ==> h.Valid() && h.items == old(h.items) && Apart(h, from) && Apart(h, to)
  {
    InsertLast(to.items, to.last, item);
    DetachRest(from.items, item);
    var detached := from.DetachItem(item);
    StaysValid(to);
    label Detached:
    var inserted := to.Insert(to.last, detached);
    StaysValid@Detached(from);
    forall h | h in others ensures h.Valid() {
      StaysValid(h);
    }
  }
}

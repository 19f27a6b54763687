/** Sequence-level meaning of the intrusive lists of linked_list.c: what an
    insertion after a given element and a detach do to the listed elements. */
module Lists {

  datatype Option<+T> = None | Some(value: T)

  /** List_detach: the list without its (first) occurrence of `x`. */
  function Detach<T(==)>(s: seq<T>, x: T): seq<T> {
    if s == [] then []
    else if s[0] == x then s[1..]
    else [s[0]] + Detach(s[1..], x)
  }

  /** List_insert: `x` placed right after `prev`, or in front when there is no `prev`. */
  function InsertAfter<T(==)>(s: seq<T>, prev: Option<T>, x: T): seq<T> {
    match prev
    case None => [x] + s
    case Some(p) =>
      if s == [] then [x]
      else if s[0] == p then [p, x] + s[1..]
      else [s[0]] + InsertAfter(s[1..], prev, x)
  }

  /** A detach takes away one occurrence of `x` and nothing else. */
  lemma {:induction false} DetachElements<T>(s: seq<T>, x: T)
    ensures multiset(Detach(s, x)) == multiset(s) - multiset{x}
  {
    if s != [] {
      var rest := s[1..];
      assert s == [s[0]] + rest;
      if s[0] != x {
        DetachElements(rest, x);
        assert multiset(Detach(s, x)) == multiset{s[0]} + (multiset(rest) - multiset{x});
      }
    }
  }

  lemma {:induction false} DetachLength<T>(s: seq<T>, x: T)
    ensures |Detach(s, x)| == |s| - (if x in s then 1 else 0)
    ensures x !in s ==> Detach(s, x) == s
  {
    if s != [] && s[0] != x {
      DetachLength(s[1..], x);
      assert s == [s[0]] + s[1..];
    }
  }

  /** An insertion adds one occurrence of `x` and nothing else. */
  lemma {:induction false} InsertElements<T>(s: seq<T>, prev: Option<T>, x: T)
    ensures multiset(InsertAfter(s, prev, x)) == multiset(s) + multiset{x}
    ensures |InsertAfter(s, prev, x)| == |s| + 1
  {
    if prev.Some? && s != [] {
      assert s == [s[0]] + s[1..];
      InsertElements(s[1..], prev, x);
    }
  }

  predicate NoDup<T(==)>(s: seq<T>) {
    forall i, j :: 0 <= i < j < |s| ==> s[i] != s[j]
  }

  /** Where the element goes and that nothing else moves. */
  lemma {:induction false} InsertAfterSplits<T>(u: seq<T>, p: T, v: seq<T>, x: T)
    requires p !in u
    ensures InsertAfter(u + [p] + v, Some(p), x) == u + [p, x] + v
  {
    var s := u + [p] + v;
    if u == [] {
      assert s[1..] == v;
    } else {
      assert s[1..] == u[1..] + [p] + v;
      InsertAfterSplits(u[1..], p, v, x);
    }
  }

  lemma {:induction false} DetachSplits<T>(u: seq<T>, x: T, v: seq<T>)
    requires x !in u
    ensures Detach(u + [x] + v, x) == u + v
  {
    var s := u + [x] + v;
    if u == [] {
      assert s[0] == x && s[1..] == v == u + v;
    } else {
      assert s[0] == u[0] != x && s[1..] == u[1..] + [x] + v;
      DetachSplits(u[1..], x, v);
      assert [u[0]] + (u[1..] + v) == u + v;
    }
  }

  /** A detach undoes an insertion of a fresh element. */
  lemma {:induction false} DetachUndoesInsert<T>(s: seq<T>, prev: Option<T>, x: T)
    requires x !in s
    ensures Detach(InsertAfter(s, prev, x), x) == s
  {
    if prev.Some? && s != [] && s[0] != prev.value {
      DetachUndoesInsert(s[1..], prev, x);
    } else if prev.Some? && s != [] {
      DetachSplits([s[0]], x, s[1..]);
      assert [s[0]] + [x] + s[1..] == [s[0], x] + s[1..];
    }
  }
}

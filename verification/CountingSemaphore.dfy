/** The counting semaphore that semWait and semPost implement: a counter and a
    queue of blocked processes. A blocked process is handed its token by the
    post that releases it and does not test the counter again. */
module CountingSemaphore {
  import opened Lists

  datatype Sem<P> = Sem(count: int, queue: seq<P>)

  function Wait<P>(s: Sem<P>, p: P): Sem<P> {
    Sem(s.count - 1, if s.count <= 0 then s.queue + [p] else s.queue)
  }

  function Released<P>(s: Sem<P>): Option<P> {
    if s.count < 0 && s.queue != [] then Some(s.queue[0]) else None
  }

  function Post<P>(s: Sem<P>): Sem<P> {
    Sem(s.count + 1, if Released(s).Some? then s.queue[1..] else s.queue)
  }

  function Tokens<P>(s: Sem<P>): nat { if s.count > 0 then s.count else 0 }

  /** The queue holds exactly the deficit of the counter. */
  predicate Counted<P>(s: Sem<P>) {
    |s.queue| == if s.count < 0 then -s.count else 0
  }

  datatype Op<P> = DoWait(p: P) | DoPost

  /** A semaphore together with the history of its use: the processes that
      blocked, in order, those that posts released, in order, and the number
      of waits and posts issued. */
  datatype History<P> = History(sem: Sem<P>, blocked: seq<P>, released: seq<P>, waits: nat, posts: nat)

  function Record<P>(h: History<P>, op: Op<P>): History<P> {
    match op
    case DoWait(p) =>
      h.(sem := Wait(h.sem, p),
         blocked := if h.sem.count <= 0 then h.blocked + [p] else h.blocked,
         waits := h.waits + 1)
    case DoPost =>
      h.(sem := Post(h.sem),
         released := match Released(h.sem) case Some(p) => h.released + [p] case None => h.released,
         posts := h.posts + 1)
  }

  function Use<P>(v: int, ops: seq<Op<P>>): History<P> {
    if ops == [] then History(Sem(v, []), [], [], 0, 0)
    else Record(Use(v, ops[..|ops| - 1]), ops[|ops| - 1])
  }

  /** Waits that have gone through: issued and not still queued. */
  function Completed<P>(h: History<P>): int { h.waits - |h.sem.queue| }

  /** FIFO for every initial value: the released processes followed by those
      still queued are exactly the blocked ones, in the order they blocked. */
  lemma {:induction false} Fifo<P>(v: int, ops: seq<Op<P>>)
    ensures var h := Use(v, ops);
            h.released + h.sem.queue == h.blocked && h.sem.count == v + h.posts - h.waits
  {
    if ops != [] {
      var before := Use(v, ops[..|ops| - 1]);
      Fifo(v, ops[..|ops| - 1]);
      match ops[|ops| - 1] {
        case DoWait(p) =>
          assert before.released + (before.sem.queue + [p]) == before.blocked + [p];
        case DoPost =>
          if Released(before.sem).Some? {
            var q := before.sem.queue;
            assert before.released + q == before.released + [q[0]] + q[1..];
          }
      }
    }
  }

  /** Token accounting when the semaphore starts non-negative. */
  lemma {:induction false} Accounting<P>(v: nat, ops: seq<Op<P>>)
    ensures var h := Use(v, ops);
            Counted(h.sem) && Completed(h) <= v + h.posts &&
            (h.sem.queue != [] ==> Completed(h) == v + h.posts)
  {
    Fifo(v, ops);
    if ops != [] {
      Accounting(v, ops[..|ops| - 1]);
    }
  }

  /** A non-negative start is exactly what keeps completed waits within the
      tokens supplied: from a negative one, a wait followed by a post already
      completes a wait that no token pays for. */
  lemma AccountingExactly<P(!new)>(v: int, p: P)
    ensures v >= 0 <==>
            forall ops: seq<Op<P>> :: Completed(Use(v, ops)) <= Supplied(v, ops)
  {
    if v >= 0 {
      forall ops: seq<Op<P>> ensures Completed(Use(v, ops)) <= Supplied(v, ops) {
        Accounting(v, ops);
      }
    } else {
      var ops := [DoWait(p), DoPost];
      assert ops[..1] == [DoWait(p)] && ops[..1][..0] == [];
      assert Use(v, ops[..1]) == Record(Use(v, []), DoWait(p));
      assert Completed(Use(v, ops)) == 1 > Supplied(v, ops);
    }
  }

  /** Tokens there are to consume: the initial ones and those posted, if any. */
  function Supplied<P>(v: int, ops: seq<Op<P>>): nat {
    var supply := v + Use(v, ops).posts;
    if supply > 0 then supply else 0
  }
}

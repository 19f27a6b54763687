/** Every process block is in exactly one place, and its status says which. */
module ProcessInvariants {
  import opened Lists
  import opened KernelState

  function One(b: bool): nat { if b then 1 else 0 }

  /** How often `a` occurs in a list. */
  function Occ(s: seq<Addr>, a: Addr): nat { multiset(s)[a] }

  /** The places a block can be in, each counted as often as it is there. */
  function Places(s: State, a: Addr): nat {
    One(a == s.running) + Occ(s.ready, a) + Occ(s.waiting, a) + Occ(s.zombies, a) + Occ(s.freePcbs, a)
  }

  /** Conservation: every block of the pool is in exactly one place. */
  ghost predicate Partition(s: State) {
    forall a: Addr :: Places(s, a) == One(a < |s.pcbs|)
  }

  ghost predicate StatusOk(s: State) {
    && (forall a :: a in s.ready ==> At(s.pcbs, a).status == Ready)
    && (forall a :: a in s.waiting ==> At(s.pcbs, a).status == Waiting)
    && (forall a :: a in s.zombies ==> At(s.pcbs, a).status == Zombie)
    && (forall a :: a in s.freePcbs ==> At(s.pcbs, a).status == Zombie || At(s.pcbs, a).status == Created)
    && (Me(s).status == Running || Me(s).status == Ready)
  }

  /** What the partition says about one block. */
  lemma Exclusive(s: State, a: Addr)
    requires Partition(s)
    ensures a == s.running ==> a !in s.ready && a !in s.waiting && a !in s.zombies && a !in s.freePcbs
    ensures a in s.ready ==> a !in s.waiting && a !in s.zombies && a !in s.freePcbs && Occ(s.ready, a) == 1
    ensures a in s.waiting ==> a !in s.zombies && a !in s.freePcbs && Occ(s.waiting, a) == 1
    ensures a in s.zombies ==> a !in s.freePcbs && Occ(s.zombies, a) == 1
    ensures a in s.freePcbs ==> Occ(s.freePcbs, a) == 1
    ensures a < |s.pcbs| <==> a == s.running || a in s.ready || a in s.waiting || a in s.zombies || a in s.freePcbs
  {
    assert Places(s, a) == One(a < |s.pcbs|);
  }

  lemma Exclusives(s: State)
    requires Partition(s)
    ensures forall a :: a in s.ready ==>
              a < |s.pcbs| && a != s.running && a !in s.waiting && a !in s.zombies && a !in s.freePcbs
    ensures forall a :: a in s.waiting ==>
              a < |s.pcbs| && a != s.running && a !in s.ready && a !in s.zombies && a !in s.freePcbs
    ensures forall a :: a in s.zombies ==>
              a < |s.pcbs| && a != s.running && a !in s.ready && a !in s.waiting && a !in s.freePcbs
    ensures forall a :: a in s.freePcbs ==>
              a < |s.pcbs| && a != s.running && a !in s.ready && a !in s.waiting && a !in s.zombies
    ensures s.running < |s.pcbs|
  {
    forall a: Addr
      ensures a in s.ready ==> a < |s.pcbs| && a != s.running && a !in s.waiting && a !in s.zombies && a !in s.freePcbs
      ensures a in s.waiting ==> a < |s.pcbs| && a != s.running && a !in s.ready && a !in s.zombies && a !in s.freePcbs
      ensures a in s.zombies ==> a < |s.pcbs| && a != s.running && a !in s.ready && a !in s.waiting && a !in s.freePcbs
      ensures a in s.freePcbs ==> a < |s.pcbs| && a != s.running && a !in s.ready && a !in s.waiting && a !in s.zombies
    {
      Exclusive(s, a);
    }
    Exclusive(s, s.running);
  }

  /** A block's status is Waiting exactly while it is in the waiting list. */
  lemma WaitingIffListed(s: State, a: Addr)
    requires Partition(s) && StatusOk(s)
    ensures At(s.pcbs, a).status == Waiting <==> a in s.waiting
    ensures At(s.pcbs, a).status == Zombie ==> a in s.zombies || a in s.freePcbs
  {
    Exclusive(s, a);
  }

  // ----- Occurrences -----

  lemma OccIn(s: seq<Addr>, a: Addr)
    ensures a in s <==> Occ(s, a) > 0
  {
    if a in s {
      assert a in multiset(s);
    } else {
      assert a !in multiset(s);
    }
  }

  lemma OccTail(s: seq<Addr>, a: Addr)
    requires s != []
    ensures Occ(s, a) == One(s[0] == a) + Occ(s[1..], a)
  {
    assert s == [s[0]] + s[1..];
  }

  lemma OccAppend(s: seq<Addr>, x: Addr, a: Addr)
    ensures Occ(s + [x], a) == Occ(s, a) + One(x == a)
  {
  }

  lemma OccPush(x: Addr, s: seq<Addr>, a: Addr)
    ensures Occ([x] + s, a) == Occ(s, a) + One(x == a)
  {
  }

  lemma OccDetach(s: seq<Addr>, x: Addr, a: Addr)
    requires x in s
    ensures Occ(Detach(s, x), a) == Occ(s, a) - One(x == a)
    ensures a in Detach(s, x) ==> a in s
  {
    DetachElements(s, x);
    OccIn(Detach(s, x), a);
  }

  lemma OccInsert(s: seq<Addr>, prev: Option<Addr>, x: Addr, a: Addr)
    ensures Occ(InsertAfter(s, prev, x), a) == Occ(s, a) + One(x == a)
    ensures a in InsertAfter(s, prev, x) <==> a in s || a == x
  {
    InsertElements(s, prev, x);
    OccIn(InsertAfter(s, prev, x), a);
  }

  // ----- Conservation, step by step -----

  /** Nothing is created or lost: every block occurs as often as before. */
  ghost predicate Conserved(s: State, s': State) {
    |s'.pcbs| == |s.pcbs| && forall a: Addr :: Places(s', a) == Places(s, a)
  }

  lemma SwitchConserves(s: State)
    requires s.ready != []
    ensures Conserved(s, RunFirst(Suspend(s)))
  {
    forall a: Addr ensures Places(RunFirst(Suspend(s)), a) == Places(s, a) {
      OccTail(s.ready, a);
      OccAppend(s.waiting, s.running, a);
    }
  }

  lemma WakeFirstConserves(s: State, prev: Option<Addr>)
    requires s.timers != [] && s.timers[0].pcb in s.waiting
    ensures Conserved(s, WakeFirst(s, prev))
  {
    var x := s.timers[0].pcb;
    forall a: Addr ensures Places(WakeFirst(s, prev), a) == Places(s, a) {
      OccDetach(s.waiting, x, a);
      OccInsert(s.ready, prev, x, a);
    }
  }

  lemma RotateConserves(s: State)
    ensures Conserved(s, Rotate(s))
  {
    if s.ready != [] {
      forall a: Addr ensures Places(Rotate(s), a) == Places(s, a) {
        OccTail(s.ready, a);
        OccAppend(s.ready[1..], s.running, a);
      }
    }
  }

  lemma SpawnConserves(s: State)
    ensures Conserved(s, DoSpawn(s))
  {
    if s.freePcbs != [] && s.freePcbPtrs != 0 {
      forall a: Addr ensures Places(DoSpawn(s), a) == Places(s, a) {
        OccTail(s.freePcbs, a);
        OccAppend(s.ready, s.freePcbs[0], a);
      }
    }
  }

  lemma ReapConserves(s: State, kid: Addr, result: int)
    requires kid in s.zombies
    ensures Conserved(s, Reap(s, kid, result))
  {
    forall a: Addr ensures Places(Reap(s, kid, result), a) == Places(s, a) {
      OccDetach(s.zombies, kid, a);
      OccPush(kid, s.freePcbs, a);
    }
  }

  lemma StartFirstConserves(s: State, value: int)
    requires s.ready != []
    ensures Conserved(s, StartFirst(Die(s, value)))
  {
    forall a: Addr ensures Places(StartFirst(Die(s, value)), a) == Places(s, a) {
      OccTail(s.ready, a);
      OccAppend(s.zombies, s.running, a);
    }
  }

  lemma HandOverConserves(s: State, value: int, p: Addr)
    requires p in s.waiting
    ensures Conserved(s, HandOver(Die(s, value), p))
      || HandOver(Die(s, value), p).mode == Fault
  {
    var dead := Die(s, value);
    if ByPid(dead.pcbs, At(dead.pcbs, p).children, Me(dead).pid).Some? {
      forall a: Addr ensures Places(HandOver(dead, p), a) == Places(s, a) {
        OccAppend(s.zombies, s.running, a);
        OccDetach(s.zombies + [s.running], s.running, a);
        OccDetach(s.waiting, p, a);
        OccPush(s.running, s.freePcbs, a);
      }
    }
  }

  lemma PostConserves(s: State, a: Addr, t: SemTable)
    requires a in s.waiting
    ensures Conserved(s, Wake(s.(table := t), a).(ready := s.ready + [a]))
  {
    var s' := Wake(s.(table := t), a).(ready := s.ready + [a]);
    forall b: Addr ensures Places(s', b) == Places(s, b) {
      OccDetach(s.waiting, a, b);
      OccAppend(s.ready, a, b);
    }
  }
}

/** Each kernel step keeps the semaphores, their descriptors and their queues in
    agreement with the processes. */
module SemaphoreProofs {
  import opened Lists
  import opened KernelState
  import opened ProcessInvariants
  import opened KernelInvariants

  // ----- Steps that do not concern semaphores -----

  lemma HeldFrame(s: State, s': State)
    requires HeldOk(s) && s'.table == s.table
    requires forall a :: IsLive(s', a) && Held(s', a) != [] ==>
               IsLive(s, a) && Held(s', a) == Held(s, a) && At(s'.pcbs, a).lastSemFd == At(s.pcbs, a).lastSemFd
    ensures HeldOk(s')
  {
  }

  lemma QueuesFrame(s: State, s': State)
    requires QueuesOk(s) && s'.table == s.table
    requires forall a: Addr :: InSemWait(s', a) == InSemWait(s, a)
    requires forall a: Addr :: InSemWait(s, a) ==> CallOf(s', a) == CallOf(s, a) && Held(s', a) == Held(s, a)
    ensures QueuesOk(s')
  {
    assert forall d: Addr :: Queued(s, d) ==> InSemWait(s, DescAt(s.table, d).pcb);
    assert forall a: Addr :: InSemWait(s', a) == InSemWait(s, a);
  }

  // ----- Lookups -----

  lemma {:induction false} ByFdFinds(t: SemTable, ds: seq<Addr>, fd: int)
    ensures ByFd(t, ds, fd).Some? ==> ByFd(t, ds, fd).value in ds && DescAt(t, ByFd(t, ds, fd).value).fd == fd
    ensures ByFd(t, ds, fd).None? ==> forall d :: d in ds ==> DescAt(t, d).fd != fd
  {
    if ds != [] {
      ByFdFinds(t, ds[1..], fd);
    }
  }

  lemma {:induction false} ByFdFrame(t: SemTable, t': SemTable, ds: seq<Addr>, fd: int)
    requires forall d :: d in ds ==> DescAt(t', d) == DescAt(t, d)
    ensures ByFd(t', ds, fd) == ByFd(t, ds, fd)
  {
    if ds != [] {
      assert ds[0] in ds;
      ByFdFrame(t, t', ds[1..], fd);
    }
  }

  lemma {:induction false} BySemnumFinds(t: SemTable, ds: seq<Addr>, semnum: int)
    ensures BySemnum(t, ds, semnum).Some? ==>
              BySemnum(t, ds, semnum).value in ds && SemAt(t, DescAt(t, BySemnum(t, ds, semnum).value).sem).id == semnum
    ensures BySemnum(t, ds, semnum).None? ==> forall d :: d in ds ==> SemAt(t, DescAt(t, d).sem).id != semnum
  {
    if ds != [] {
      BySemnumFinds(t, ds[1..], semnum);
    }
  }

  lemma {:induction false} ByIdFinds(t: SemTable, list: seq<Addr>, semnum: int)
    ensures ById(t, list, semnum).Some? ==>
              ById(t, list, semnum).value in list && SemAt(t, ById(t, list, semnum).value).id == semnum
    ensures ById(t, list, semnum).None? ==> forall m :: m in list ==> SemAt(t, m).id != semnum
  {
    if list != [] {
      ByIdFinds(t, list[1..], semnum);
    }
  }

  /** The descriptor a process names is its own, and is not queued while the
      process runs. */
  lemma NamedDescriptor(s: State, fd: int) returns (d: Addr)
    requires Partition(s) && SemaphoresOk(s)
    requires ByFd(s.table, Held(s, s.running), fd).Some?
    ensures d == ByFd(s.table, Held(s, s.running), fd).value
    ensures d in Held(s, s.running) && OwnedOk(s, s.running, d) && DescAt(s.table, d).fd == fd
    ensures DescAt(s.table, d).sem < |s.table.sems|
    ensures d !in SemAt(s.table, DescAt(s.table, d).sem).waiting
  {
    d := ByFd(s.table, Held(s, s.running), fd).value;
    ByFdFinds(s.table, Held(s, s.running), fd);
    Exclusive(s, s.running);
    assert OwnedOk(s, s.running, d);
    Listed(s.table, DescAt(s.table, d).sem);
  }

  lemma Listed(t: SemTable, m: Addr)
    requires BlocksOk(t) && m in t.list
    ensures m < |t.sems| && m !in t.freeSems && Occ(t.list, m) == 1
  {
    assert Occ(t.list, m) + Occ(t.freeSems, m) == One(m < |t.sems|);
    OccIn(t.list, m);
    OccIn(t.freeSems, m);
  }

  // ----- Counters only -----

  /** Only counters differ. */
  ghost predicate SameLists(t: SemTable, t': SemTable) {
    && t'.list == t.list && t'.freeSems == t.freeSems && t'.descs == t.descs && t'.freeDescs == t.freeDescs
    && |t'.sems| == |t.sems|
    && forall m: Addr :: SemAt(t', m).id == SemAt(t, m).id && SemAt(t', m).descriptors == SemAt(t, m).descriptors
                      && SemAt(t', m).waiting == SemAt(t, m).waiting
  }

  lemma CountChange(t: SemTable, m: Addr, count: int)
    ensures SameLists(t, PutSem(t, m, SemAt(t, m).(count := count)))
  {
  }

  lemma SameListsTable(t: SemTable, t': SemTable)
    requires TableOk(t) && SameLists(t, t')
    ensures TableOk(t')
  {
  }

  lemma SameListsHeld(s: State, s': State)
    requires HeldOk(s) && SameLists(s.table, s'.table)
    requires forall a :: IsLive(s', a) ==>
               IsLive(s, a) && Held(s', a) == Held(s, a) && At(s'.pcbs, a).lastSemFd == At(s.pcbs, a).lastSemFd
    ensures HeldOk(s')
  {
    assert forall d: Addr :: DescAt(s'.table, d) == DescAt(s.table, d);
  }

  lemma SameListsQueues(s: State, s': State)
    requires QueuesOk(s) && SameLists(s.table, s'.table) && s'.waiting == s.waiting
    requires forall a: Addr :: CallOf(s', a) == CallOf(s, a) && Held(s', a) == Held(s, a)
    ensures QueuesOk(s')
  {
    assert forall d: Addr :: DescAt(s'.table, d) == DescAt(s.table, d);
    assert forall d: Addr :: Queued(s', d) == Queued(s, d);
    forall a | InSemWait(s', a) ensures ByFd(s'.table, Held(s', a), CallOf(s', a).fd).Some? {
      assert InSemWait(s, a);
      ByFdFrame(s.table, s'.table, Held(s, a), CallOf(s, a).fd);
    }
  }

  // ----- semWait blocks -----

  /** The table after the running process has queued descriptor `d` on `m`. */
  function Enqueued(t: SemTable, d: Addr): SemTable {
    var m := DescAt(t, d).sem;
    PutSem(t, m, SemAt(t, m).(count := SemAt(t, m).count - 1, waiting := SemAt(t, m).waiting + [d]))
  }

  lemma EnqueuedTable(t: SemTable, d: Addr)
    requires TableOk(t) && DescAt(t, d).sem in t.list
    requires d in SemAt(t, DescAt(t, d).sem).descriptors
    ensures TableOk(Enqueued(t, d))
  {
    Listed(t, DescAt(t, d).sem);
  }

  /** `s'` is `s` with the running process blocked on its descriptor `d`. */
  ghost predicate BlockedOn(s: State, s': State, d: Addr) {
    && s'.table == Enqueued(s.table, d)
    && s'.waiting == s.waiting + [s.running]
    && forall a: Addr :: CallOf(s', a) == CallOf(s, a) && Held(s', a) == Held(s, a)
                      && At(s'.pcbs, a).lastSemFd == At(s.pcbs, a).lastSemFd
  }

  lemma BlockedHeld(s: State, s': State, d: Addr)
    requires HeldOk(s) && BlockedOn(s, s', d)
    requires forall a :: IsLive(s', a) ==> IsLive(s, a)
    ensures HeldOk(s')
  {
    assert forall e: Addr :: DescAt(s'.table, e) == DescAt(s.table, e);
    assert forall m: Addr :: SemAt(s'.table, m).descriptors == SemAt(s.table, m).descriptors;
  }

  ghost predicate CanBlock(s: State, d: Addr) {
    && s.running !in s.waiting
    && d in Held(s, s.running) && DescAt(s.table, d).pcb == s.running
    && CallOf(s, s.running) == SemWait(DescAt(s.table, d).fd)
    && DescAt(s.table, d).sem in s.table.list && DescAt(s.table, d).sem < |s.table.sems|
  }

  lemma BlockedSound(s: State, s': State, d: Addr)
    requires QueueSound(s) && CanBlock(s, d) && BlockedOn(s, s', d)
    ensures QueueSound(s')
  {
    forall m, e | m in s'.table.list && e in SemAt(s'.table, m).waiting
      ensures DescAt(s'.table, e).sem == m && Queued(s', e)
    {
      var a := DescAt(s.table, e).pcb;
      assert CallOf(s', a) == CallOf(s, a) && Held(s', a) == Held(s, a);
      if e in SemAt(s.table, m).waiting {
        assert Queued(s, e);
      } else {
        assert e == d && m == DescAt(s.table, d).sem;
      }
    }
  }

  lemma BlockedComplete(s: State, s': State, d: Addr)
    requires QueueComplete(s) && HeldOk(s) && CanBlock(s, d) && BlockedOn(s, s', d)
    ensures QueueComplete(s')
  {
    forall a, e | a in s'.waiting && e in Held(s', a) && CallOf(s', a) == SemWait(DescAt(s'.table, e).fd)
      ensures e in SemAt(s'.table, DescAt(s'.table, e).sem).waiting
    {
      assert e in Held(s, a);
    }
  }

  lemma BlockedFound(s: State, s': State, d: Addr)
    requires QueueFound(s) && CanBlock(s, d) && BlockedOn(s, s', d)
    ensures QueueFound(s')
  {
    forall a | InSemWait(s', a) ensures ByFd(s'.table, Held(s', a), CallOf(s', a).fd).Some? {
      ByFdFrame(s.table, s'.table, Held(s, a), CallOf(s, a).fd);
      if a == s.running {
        ByFdFinds(s.table, Held(s, a), CallOf(s, a).fd);
      } else {
        assert InSemWait(s, a);
      }
    }
  }

  lemma BlockedOnce(s: State, s': State, d: Addr)
    requires QueueOnce(s.table) && QueueSound(s) && CanBlock(s, d) && BlockedOn(s, s', d)
    ensures QueueOnce(s'.table)
  {
    var m := DescAt(s.table, d).sem;
    OccIn(SemAt(s.table, m).waiting, d);
    forall n, e: Addr | n in s'.table.list ensures Occ(SemAt(s'.table, n).waiting, e) <= 1 {
      assert Occ(SemAt(s.table, n).waiting, e) <= 1;
      OccAppend(SemAt(s.table, m).waiting, d, e);
    }
  }

  lemma BlockedQueues(s: State, s': State, d: Addr)
    requires QueuesOk(s) && HeldOk(s) && CanBlock(s, d) && BlockedOn(s, s', d)
    ensures QueuesOk(s')
  {
    BlockedSound(s, s', d);
    BlockedComplete(s, s', d);
    BlockedFound(s, s', d);
    BlockedOnce(s, s', d);
  }

  // ----- semPost releases -----

  function Dequeued(t: SemTable, m: Addr): SemTable
    requires SemAt(t, m).waiting != []
  {
    PutSem(t, m, SemAt(t, m).(count := SemAt(t, m).count + 1, waiting := SemAt(t, m).waiting[1..]))
  }

  lemma DequeuedTable(t: SemTable, m: Addr)
    requires TableOk(t) && m in t.list && SemAt(t, m).waiting != []
    ensures TableOk(Dequeued(t, m))
  {
    Listed(t, m);
    assert forall d :: d in SemAt(t, m).waiting[1..] ==> d in SemAt(t, m).waiting;
  }

  /** `s'` is `s` with the first process queued on `m` released. */
  ghost predicate ReleasedFrom(s: State, s': State, m: Addr) {
    && SemAt(s.table, m).waiting != []
    && s'.table == Dequeued(s.table, m)
    && s'.waiting == Detach(s.waiting, DescAt(s.table, SemAt(s.table, m).waiting[0]).pcb)
    && forall a: Addr :: CallOf(s', a) == CallOf(s, a) && Held(s', a) == Held(s, a)
                      && At(s'.pcbs, a).lastSemFd == At(s.pcbs, a).lastSemFd
  }

  /** The process at the head of a queue is waiting, and on nothing else. */
  lemma HeadWaits(s: State, m: Addr)
    requires QueueSound(s) && m in s.table.list && SemAt(s.table, m).waiting != []
    ensures var h := SemAt(s.table, m).waiting[0];
            DescAt(s.table, h).sem == m && Queued(s, h)
  {
    assert SemAt(s.table, m).waiting[0] in SemAt(s.table, m).waiting;
  }

  lemma ReleasedHeld(s: State, s': State, m: Addr)
    requires HeldOk(s) && ReleasedFrom(s, s', m)
    requires forall a :: IsLive(s', a) ==> IsLive(s, a)
    ensures HeldOk(s')
  {
    assert forall e: Addr :: DescAt(s'.table, e) == DescAt(s.table, e);
    assert forall n: Addr :: SemAt(s'.table, n).descriptors == SemAt(s.table, n).descriptors;
  }

  /** The released process leaves the waiting list and the queue, nobody else. */
  lemma ReleasedLists(s: State, s': State, m: Addr, a: Addr, d: Addr)
    requires Partition(s) && QueuesOk(s) && m in s.table.list && ReleasedFrom(s, s', m) && m < |s.table.sems|
    ensures var h := SemAt(s.table, m).waiting[0];
            && (a in s'.waiting <==> a in s.waiting && a != DescAt(s.table, h).pcb)
            && (d in SemAt(s'.table, m).waiting <==> d in SemAt(s.table, m).waiting && d != h)
  {
    var h := SemAt(s.table, m).waiting[0];
    var b := DescAt(s.table, h).pcb;
    HeadWaits(s, m);
    Exclusive(s, b);
    OccDetach(s.waiting, b, a);
    OccIn(s'.waiting, a);
    OccIn(s.waiting, a);
    OccTail(SemAt(s.table, m).waiting, d);
    OccIn(SemAt(s.table, m).waiting, d);
    OccIn(SemAt(s.table, m).waiting[1..], d);
    assert Occ(SemAt(s.table, m).waiting, h) <= 1;
  }

  lemma ReleasedSound(s: State, s': State, m: Addr)
    requires Partition(s) && QueuesOk(s) && HeldOk(s) && m in s.table.list && ReleasedFrom(s, s', m)
             && m < |s.table.sems|
    ensures QueueSound(s')
  {
    var h := SemAt(s.table, m).waiting[0];
    HeadWaits(s, m);
    forall n, e | n in s'.table.list && e in SemAt(s'.table, n).waiting
      ensures DescAt(s'.table, e).sem == n && Queued(s', e)
    {
      var a := DescAt(s.table, e).pcb;
      ReleasedLists(s, s', m, a, e);
      assert e in SemAt(s.table, n).waiting && e != h;
      assert Queued(s, e) && e in Held(s, a);
      assert h in Held(s, DescAt(s.table, h).pcb);
    }
  }

  lemma ReleasedComplete(s: State, s': State, m: Addr)
    requires Partition(s) && QueuesOk(s) && HeldOk(s) && m in s.table.list && ReleasedFrom(s, s', m)
             && m < |s.table.sems|
    ensures QueueComplete(s')
  {
    var h := SemAt(s.table, m).waiting[0];
    forall a, e | a in s'.waiting && e in Held(s', a) && CallOf(s', a) == SemWait(DescAt(s'.table, e).fd)
      ensures e in SemAt(s'.table, DescAt(s'.table, e).sem).waiting
    {
      ReleasedLists(s, s', m, a, e);
      assert e in Held(s, a) && OwnedOk(s, a, e);
      assert e in SemAt(s.table, DescAt(s.table, e).sem).waiting;
    }
  }

  lemma ReleasedFound(s: State, s': State, m: Addr)
    requires Partition(s) && QueuesOk(s) && m in s.table.list && ReleasedFrom(s, s', m) && m < |s.table.sems|
    ensures QueueFound(s') && QueueOnce(s'.table)
  {
    forall a | InSemWait(s', a) ensures ByFd(s'.table, Held(s', a), CallOf(s', a).fd).Some? {
      ReleasedLists(s, s', m, a, 0);
      ByFdFrame(s.table, s'.table, Held(s, a), CallOf(s, a).fd);
      assert InSemWait(s, a);
    }
    forall n, e: Addr | n in s'.table.list ensures Occ(SemAt(s'.table, n).waiting, e) <= 1 {
      assert Occ(SemAt(s.table, n).waiting, e) <= 1;
      OccTail(SemAt(s.table, m).waiting, e);
    }
  }

  lemma ReleasedQueues(s: State, s': State, m: Addr)
    requires Partition(s) && QueuesOk(s) && HeldOk(s) && m in s.table.list && ReleasedFrom(s, s', m)
             && m < |s.table.sems|
    ensures QueuesOk(s')
  {
    ReleasedSound(s, s', m);
    ReleasedComplete(s, s', m);
    ReleasedFound(s, s', m);
  }

  // ----- semClose -----

  /** `s'` is `s` with the running process's descriptor `d` closed. */
  ghost predicate Closed(s: State, s': State, d: Addr) {
    && s'.table == CloseDesc(s.table, d, DescAt(s.table, d).sem)
    && s'.waiting == s.waiting
    && (forall a: Addr :: CallOf(s', a) == CallOf(s, a) && At(s'.pcbs, a).lastSemFd == At(s.pcbs, a).lastSemFd)
    && (forall a: Addr :: Held(s', a) == if a == s.running then Detach(Held(s, a), d) else Held(s, a))
  }

  ghost predicate CanClose(s: State, d: Addr) {
    && s.running !in s.waiting && d in Held(s, s.running) && OwnedOk(s, s.running, d)
    && DescAt(s.table, d).sem < |s.table.sems|
    && d !in SemAt(s.table, DescAt(s.table, d).sem).waiting
  }

  /** The semaphore's descriptors after the close, and which semaphores are left. */
  lemma ClosedLists(t: SemTable, d: Addr, n: Addr, e: Addr)
    requires TableOk(t) && DescAt(t, d).sem in t.list && d in SemAt(t, DescAt(t, d).sem).descriptors
    ensures var m := DescAt(t, d).sem;
            var t' := CloseDesc(t, d, m);
            && (e in SemAt(t', m).descriptors <==> e in SemAt(t, m).descriptors && e != d)
            && (n in t'.list <==> n in t.list && (n != m || SemAt(t', m).descriptors != []))
            && (n in t'.freeSems <==> n in t.freeSems || (n == m && SemAt(t', m).descriptors == []))
            && Occ(t'.list, n) + Occ(t'.freeSems, n) == Occ(t.list, n) + Occ(t.freeSems, n)
  {
    var m := DescAt(t, d).sem;
    var t' := CloseDesc(t, d, m);
    Listed(t, m);
    OccDetach(SemAt(t, m).descriptors, d, e);
    OccIn(SemAt(t, m).descriptors, e);
    OccIn(Detach(SemAt(t, m).descriptors, d), e);
    OccDetach(t.list, m, n);
    OccIn(t.list, n);
    OccIn(Detach(t.list, m), n);
  }

  /** The blocks are only freed when nobody waits. */
  lemma ClosedBlocks(t: SemTable, d: Addr)
    requires TableOk(t) && DescAt(t, d).sem in t.list && d in SemAt(t, DescAt(t, d).sem).descriptors
    requires d !in SemAt(t, DescAt(t, d).sem).waiting
    ensures BlocksOk(CloseDesc(t, d, DescAt(t, d).sem))
  {
    var m := DescAt(t, d).sem;
    var t' := CloseDesc(t, d, m);
    Listed(t, m);
    forall n: Addr ensures Occ(t'.list, n) + Occ(t'.freeSems, n) == One(n < |t'.sems|) {
      ClosedLists(t, d, n, d);
    }
    forall n, k | n in t'.list && k in t'.list && n != k ensures SemAt(t', n).id != SemAt(t', k).id {
      ClosedLists(t, d, n, d);
      ClosedLists(t, d, k, d);
    }
    forall n | n in t'.freeSems ensures SemAt(t', n).waiting == [] {
      ClosedLists(t, d, n, d);
      var w := SemAt(t, m).waiting;
      if n == m && w != [] {
        assert w[0] in w;
        ClosedLists(t, d, n, w[0]);
      }
    }
  }

  lemma ClosedFree(t: SemTable, d: Addr, e: Addr)
    requires ListedOk(t) && d < |t.descs| && d !in t.freeDescs
    ensures Occ([d] + t.freeDescs, e) <= One(e < |t.descs|)
    ensures e in [d] + t.freeDescs <==> e == d || e in t.freeDescs
  {
    OccIn(t.freeDescs, d);
    OccPush(d, t.freeDescs, e);
    assert Occ(t.freeDescs, e) <= One(e < |t.descs|);
  }

  /** What a semaphore still lists after the close. */
  lemma ClosedStillListed(t: SemTable, d: Addr, n: Addr, e: Addr)
    requires TableOk(t) && DescAt(t, d).sem in t.list && d in SemAt(t, DescAt(t, d).sem).descriptors
    ensures var t' := CloseDesc(t, d, DescAt(t, d).sem);
            n in t'.list && e in SemAt(t', n).descriptors ==>
              && e < |t'.descs| && e !in t'.freeDescs && DescAt(t', e).sem == n && Occ(SemAt(t', n).descriptors, e) == 1
  {
    var m := DescAt(t, d).sem;
    var t' := CloseDesc(t, d, m);
    Listed(t, m);
    ClosedLists(t, d, n, e);
    if n in t'.list && e in SemAt(t', n).descriptors {
      OccDetach(SemAt(t, m).descriptors, d, e);
      assert e in SemAt(t, n).descriptors;
    }
  }

  lemma ClosedListed(t: SemTable, d: Addr)
    requires TableOk(t) && DescAt(t, d).sem in t.list && d in SemAt(t, DescAt(t, d).sem).descriptors
    requires d !in SemAt(t, DescAt(t, d).sem).waiting
    ensures ListedOk(CloseDesc(t, d, DescAt(t, d).sem))
  {
    var t' := CloseDesc(t, d, DescAt(t, d).sem);
    forall e: Addr ensures Occ(t'.freeDescs, e) <= One(e < |t'.descs|) {
      ClosedFree(t, d, e);
    }
    forall n, e {:trigger e in SemAt(t', n).descriptors} | n in t'.list && e in SemAt(t', n).descriptors
      ensures e < |t'.descs| && e !in t'.freeDescs && DescAt(t', e).sem == n && Occ(SemAt(t', n).descriptors, e) == 1
    {
      ClosedStillListed(t, d, n, e);
    }
    forall n, e {:trigger e in SemAt(t', n).waiting} | n in t'.list && e in SemAt(t', n).waiting
      ensures e in SemAt(t', n).descriptors
    {
      ClosedLists(t, d, n, e);
      assert e in SemAt(t, n).waiting;
    }
  }

  lemma ClosedHeld(s: State, s': State, d: Addr)
    requires TableOk(s.table) && HeldOk(s) && CanClose(s, d) && Closed(s, s', d)
    requires forall a :: IsLive(s', a) ==> IsLive(s, a)
    ensures HeldOk(s')
  {
    var me := s.running;
    assert IsLive(s, me);
    forall a, e | IsLive(s', a) && e in Held(s', a)
      ensures OwnedOk(s', a, e) && Occ(Held(s', a), e) == 1 && e in Held(s, a) && e != d
    {
      ClosedStillHeld(s, s', d, a, e);
      assert OwnedOk(s, a, e);
      ClosedLists(s.table, d, DescAt(s.table, e).sem, e);
    }
  }

  lemma ClosedStillHeld(s: State, s': State, d: Addr, a: Addr, e: Addr)
    requires HeldOk(s) && CanClose(s, d) && Closed(s, s', d) && IsLive(s, a)
    ensures e in Held(s', a) ==> e in Held(s, a) && e != d && Occ(Held(s', a), e) == 1
  {
    OccDetach(Held(s, s.running), d, e);
    OccIn(Held(s', a), e);
    OccIn(Held(s, a), e);
    if e in Held(s, a) {
      assert OwnedOk(s, a, e);
    }
  }

  lemma ClosedQueues(s: State, s': State, d: Addr)
    requires TableOk(s.table) && QueuesOk(s) && CanClose(s, d) && Closed(s, s', d)
    ensures QueuesOk(s')
  {
    assert forall n: Addr :: SemAt(s'.table, n).waiting == SemAt(s.table, n).waiting;
    assert forall e: Addr :: DescAt(s'.table, e) == DescAt(s.table, e);
    forall n: Addr ensures n in s'.table.list ==> n in s.table.list {
      ClosedLists(s.table, d, n, d);
    }
    forall e | Queued(s, e) ensures Queued(s', e) {
    }
    forall a | InSemWait(s', a) ensures ByFd(s'.table, Held(s', a), CallOf(s', a).fd).Some? {
      assert InSemWait(s, a);
      ByFdFrame(s.table, s'.table, Held(s, a), CallOf(s, a).fd);
    }
  }

  // ----- semOpen -----

  lemma AllocSemBlocks(t: SemTable, semnum: int, value: int)
    requires BlocksOk(t) && t.freeSems != []
    requires forall m :: m in t.list ==> SemAt(t, m).id != semnum
    ensures BlocksOk(AllocSem(t, semnum, value))
  {
    var m := t.freeSems[0];
    var t' := AllocSem(t, semnum, value);
    FreshSem(t);
    forall n: Addr
      ensures Occ(t'.list, n) + Occ(t'.freeSems, n) == One(n < |t'.sems|)
      ensures n in t'.freeSems ==> n in t.freeSems && n != m
    {
      assert Occ(t.list, n) + Occ(t.freeSems, n) == One(n < |t.sems|);
      OccAppend(t.list, m, n);
      OccTail(t.freeSems, n);
      OccIn(t.freeSems[1..], n);
      OccIn(t.freeSems, n);
    }
  }

  /** The block the pool hands out is in range, unlisted, and nobody waits on it. */
  lemma FreshSem(t: SemTable)
    requires BlocksOk(t) && t.freeSems != []
    ensures t.freeSems[0] < |t.sems| && t.freeSems[0] !in t.list && SemAt(t, t.freeSems[0]).waiting == []
  {
    var m := t.freeSems[0];
    assert m in t.freeSems;
    OccIn(t.freeSems, m);
    OccIn(t.list, m);
    assert Occ(t.list, m) + Occ(t.freeSems, m) == One(m < |t.sems|);
  }

  /** The new semaphore starts with empty lists and the others are as they were. */
  lemma AllocSemOthers(t: SemTable, semnum: int, value: int, n: Addr)
    requires BlocksOk(t) && t.freeSems != []
    ensures var t' := AllocSem(t, semnum, value);
            && (n in t.list ==> SemAt(t', n) == SemAt(t, n))
            && (n in t'.list && n !in t.list ==> SemAt(t', n) == Semaphore(semnum, value, [], []))
            && DescAt(t', n) == DescAt(t, n)
  {
    FreshSem(t);
  }

  lemma AllocSemListed(t: SemTable, semnum: int, value: int)
    requires TableOk(t) && t.freeSems != []
    ensures ListedOk(AllocSem(t, semnum, value))
  {
    var t' := AllocSem(t, semnum, value);
    forall n: Addr
      ensures n in t'.list ==>
                (n in t.list && SemAt(t', n) == SemAt(t, n)) || SemAt(t', n) == Semaphore(semnum, value, [], [])
      ensures DescAt(t', n) == DescAt(t, n)
    {
      AllocSemOthers(t, semnum, value, n);
    }
  }

  /** Making a new semaphore changes nothing for the processes. */
  lemma AllocSemHeld(s: State, semnum: int, value: int)
    requires BlocksOk(s.table) && HeldOk(s) && s.table.freeSems != []
    ensures HeldOk(s.(table := AllocSem(s.table, semnum, value)))
  {
    var s' := s.(table := AllocSem(s.table, semnum, value));
    forall n: Addr ensures DescAt(s'.table, n) == DescAt(s.table, n) {
    }
    forall a, e | IsLive(s', a) && e in Held(s', a) ensures OwnedOk(s', a, e) && Occ(Held(s', a), e) == 1 {
      assert e in Held(s, a) && IsLive(s, a);
      assert OwnedOk(s, a, e);
      AllocSemOthers(s.table, semnum, value, DescAt(s.table, e).sem);
    }
    forall a, e, f | IsLive(s', a) && e in Held(s', a) && f in Held(s', a) && e != f
      ensures DescAt(s'.table, e).fd != DescAt(s'.table, f).fd && DescAt(s'.table, e).sem != DescAt(s'.table, f).sem
    {
      assert e in Held(s, a) && f in Held(s, a) && IsLive(s, a);
    }
  }

  lemma AllocSemQueues(s: State, semnum: int, value: int)
    requires BlocksOk(s.table) && HeldOk(s) && QueuesOk(s) && s.table.freeSems != []
    ensures QueuesOk(s.(table := AllocSem(s.table, semnum, value)))
  {
    var s' := s.(table := AllocSem(s.table, semnum, value));
    forall n: Addr
      ensures n in s'.table.list ==>
                SemAt(s'.table, n).waiting == [] || (n in s.table.list && SemAt(s'.table, n) == SemAt(s.table, n))
      ensures DescAt(s'.table, n) == DescAt(s.table, n)
    {
      AllocSemOthers(s.table, semnum, value, n);
    }
    assert forall e: Addr :: Queued(s', e) == Queued(s, e);
    forall a, e | a in s'.waiting && e in Held(s', a) && CallOf(s', a) == SemWait(DescAt(s'.table, e).fd)
      ensures e in SemAt(s'.table, DescAt(s'.table, e).sem).waiting
    {
      assert e in Held(s, a) && IsLive(s, a);
      AllocSemOthers(s.table, semnum, value, DescAt(s.table, e).sem);
    }
    forall a | InSemWait(s', a) ensures ByFd(s'.table, Held(s', a), CallOf(s', a).fd).Some? {
      assert InSemWait(s, a);
      ByFdFrame(s.table, s'.table, Held(s, a), CallOf(s, a).fd);
    }
  }

  /** The descriptor block the pool hands out is nobody's. */
  lemma FreshDesc(t: SemTable)
    requires ListedOk(t) && t.freeDescs != []
    ensures t.freeDescs[0] < |t.descs| && t.freeDescs[0] !in t.freeDescs[1..]
    ensures forall m :: m in t.list ==> t.freeDescs[0] !in SemAt(t, m).descriptors
  {
    var d := t.freeDescs[0];
    assert Occ(t.freeDescs, d) <= One(d < |t.descs|);
    OccTail(t.freeDescs, d);
    OccIn(t.freeDescs[1..], d);
    assert d in t.freeDescs;
  }

  lemma AllocDescTable(t: SemTable, x: Desc, ptrs: nat)
    requires TableOk(t) && t.freeDescs != []
    ensures TableOk(AllocDesc(t, x).(freePtrs := ptrs))
  {
    var t' := AllocDesc(t, x).(freePtrs := ptrs);
    FreshDesc(t);
    forall e: Addr ensures Occ(t'.freeDescs, e) <= One(e < |t'.descs|) {
      assert Occ(t.freeDescs, e) <= One(e < |t.descs|);
      OccTail(t.freeDescs, e);
    }
    assert forall e :: e in t'.freeDescs ==> e in t.freeDescs;
    assert forall n: Addr :: SemAt(t', n) == SemAt(t, n);
  }

  /** `s'` is `s` with a descriptor block taken for the running process and its
      next descriptor number used up. */
  ghost predicate Taken(s: State, s': State, x: Desc, ptrs: nat) {
    && s.table.freeDescs != []
    && s'.table == AllocDesc(s.table, x).(freePtrs := ptrs)
    && s'.waiting == s.waiting
    && (forall a: Addr :: CallOf(s', a) == CallOf(s, a) && Held(s', a) == Held(s, a))
    && (forall a: Addr :: At(s'.pcbs, a).lastSemFd >= At(s.pcbs, a).lastSemFd)
  }

  lemma TakenDescs(s: State, s': State, x: Desc, ptrs: nat, a: Addr, e: Addr)
    requires ListedOk(s.table) && HeldOk(s) && Taken(s, s', x, ptrs)
    requires IsLive(s, a) && e in Held(s, a)
    ensures e != s.table.freeDescs[0] && DescAt(s'.table, e) == DescAt(s.table, e)
  {
    assert OwnedOk(s, a, e);
    assert s.table.freeDescs[0] in s.table.freeDescs;
  }

  lemma TakenHeld(s: State, s': State, x: Desc, ptrs: nat)
    requires TableOk(s.table) && HeldOk(s) && Taken(s, s', x, ptrs)
    requires forall a :: IsLive(s', a) ==> IsLive(s, a)
    ensures HeldOk(s')
  {
    assert forall n: Addr :: SemAt(s'.table, n) == SemAt(s.table, n);
    forall a, e | IsLive(s', a) && e in Held(s', a)
      ensures OwnedOk(s', a, e) && Occ(Held(s', a), e) == 1 && DescAt(s'.table, e) == DescAt(s.table, e)
    {
      TakenDescs(s, s', x, ptrs, a, e);
      assert OwnedOk(s, a, e);
    }
  }

  lemma TakenQueues(s: State, s': State, x: Desc, ptrs: nat)
    requires SemaphoresOk(s) && Taken(s, s', x, ptrs)
    ensures QueuesOk(s')
  {
    FreshDesc(s.table);
    assert forall n: Addr :: SemAt(s'.table, n) == SemAt(s.table, n);
    forall n, e | n in s'.table.list && e in SemAt(s'.table, n).waiting
      ensures DescAt(s'.table, e).sem == n && Queued(s', e)
    {
      assert e in SemAt(s.table, n).descriptors && Queued(s, e);
    }
    forall a, e | a in s'.waiting && e in Held(s', a) && CallOf(s', a) == SemWait(DescAt(s'.table, e).fd)
      ensures e in SemAt(s'.table, DescAt(s'.table, e).sem).waiting
    {
      TakenDescs(s, s', x, ptrs, a, e);
    }
    forall a | InSemWait(s', a) ensures ByFd(s'.table, Held(s', a), CallOf(s', a).fd).Some? {
      assert InSemWait(s, a);
      forall e | e in Held(s, a) ensures DescAt(s'.table, e) == DescAt(s.table, e) {
        TakenDescs(s, s', x, ptrs, a, e);
      }
      ByFdFrame(s.table, s'.table, Held(s, a), CallOf(s, a).fd);
    }
  }

  /** `s'` is `s` with the descriptor `d` entered in the running process's list
      and in its semaphore's. */
  ghost predicate Attached(s: State, s': State, d: Addr) {
    var m := DescAt(s.table, d).sem;
    && s'.table == PutSem(s.table, m, SemAt(s.table, m).(descriptors := SemAt(s.table, m).descriptors + [d]))
    && s'.waiting == s.waiting
    && (forall a: Addr :: CallOf(s', a) == CallOf(s, a) && At(s'.pcbs, a).lastSemFd == At(s.pcbs, a).lastSemFd)
    && (forall a: Addr :: Held(s', a) == if a == s.running then Held(s, a) + [d] else Held(s, a))
  }

  /** The descriptor is the running process's, new, and of a new semaphore for it. */
  ghost predicate CanAttach(s: State, d: Addr) {
    var x := DescAt(s.table, d);
    && s.running !in s.waiting && d < |s.table.descs| && d !in s.table.freeDescs
    && x.pcb == s.running && x.sem in s.table.list && x.sem < |s.table.sems|
    && 0 <= x.fd < Me(s).lastSemFd
    && (forall m :: m in s.table.list ==> d !in SemAt(s.table, m).descriptors)
    && (forall e :: e in Held(s, s.running) ==> DescAt(s.table, e).fd < x.fd && DescAt(s.table, e).sem != x.sem)
  }

  lemma AttachedTable(s: State, s': State, d: Addr)
    requires TableOk(s.table) && CanAttach(s, d) && Attached(s, s', d)
    ensures TableOk(s'.table)
  {
    var m := DescAt(s.table, d).sem;
    Listed(s.table, m);
    OccIn(SemAt(s.table, m).descriptors, d);
    forall n, e | n in s'.table.list && e in SemAt(s'.table, n).descriptors
      ensures e < |s'.table.descs| && e !in s'.table.freeDescs && DescAt(s'.table, e).sem == n
      ensures Occ(SemAt(s'.table, n).descriptors, e) == 1
    {
      OccAppend(SemAt(s.table, m).descriptors, d, e);
      if e in SemAt(s.table, n).descriptors {
      } else {
        OccIn(SemAt(s.table, n).descriptors, e);
        assert e == d && n == m;
      }
    }
  }

  lemma AttachedHeld(s: State, s': State, d: Addr)
    requires HeldOk(s) && IsLive(s, s.running) && CanAttach(s, d) && Attached(s, s', d)
    requires forall a :: IsLive(s', a) ==> IsLive(s, a)
    ensures HeldOk(s')
  {
    var me := s.running;
    assert forall e: Addr :: DescAt(s'.table, e) == DescAt(s.table, e);
    OccIn(Held(s, me), d);
    forall a, e | IsLive(s', a) && e in Held(s', a)
      ensures OwnedOk(s', a, e) && Occ(Held(s', a), e) == 1
    {
      OccAppend(Held(s, me), d, e);
      if e in Held(s, a) {
        assert OwnedOk(s, a, e);
      } else {
        OccIn(Held(s, a), e);
        assert e == d && a == me;
      }
    }
    forall a, e, f | IsLive(s', a) && e in Held(s', a) && f in Held(s', a) && e != f
      ensures DescAt(s'.table, e).fd != DescAt(s'.table, f).fd && DescAt(s'.table, e).sem != DescAt(s'.table, f).sem
    {
      assert e in Held(s, a) || e == d;
      assert f in Held(s, a) || f == d;
    }
  }

  lemma AttachedQueues(s: State, s': State, d: Addr)
    requires QueuesOk(s) && CanAttach(s, d) && Attached(s, s', d)
    ensures QueuesOk(s')
  {
    assert forall n: Addr :: SemAt(s'.table, n).waiting == SemAt(s.table, n).waiting;
    assert forall e: Addr :: DescAt(s'.table, e) == DescAt(s.table, e);
    forall e | Queued(s, e) ensures Queued(s', e) {
    }
    forall a | InSemWait(s', a) ensures ByFd(s'.table, Held(s', a), CallOf(s', a).fd).Some? {
      assert InSemWait(s, a);
      ByFdFrame(s.table, s'.table, Held(s, a), CallOf(s, a).fd);
    }
  }
}

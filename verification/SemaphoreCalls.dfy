/** What each semaphore call does, all of it, again as statements about the step
    that traps with the call; what an open and a later open or close come to
    together; and what the first open of a new process returns. */
module SemaphoreCalls {
  import opened Lists
  import opened KernelState
  import opened ProcessInvariants
  import opened KernelInvariants
  import opened SemaphoreProofs
  import opened KernelSteps
  import opened DescriptorTheorems
  import opened CallTheorems
  import opened OtherProcesses
  import opened SystemCalls

  // ----- Semaphores: wait and post -----

  /** Descriptor `d` of the caller has this number. */
  predicate Numbered(s: State, fd: int, d: Addr) { d in Held(s, s.running) && DescAt(s.table, d).fd == fd }

  lemma Lookup(s: State, fd: int) returns (found: Option<Addr>)
    requires Inv(s)
    ensures found == ByFd(s.table, Held(s, s.running), fd)
    ensures match found
            case None => forall d :: !Numbered(s, fd, d)
            case Some(d) => Numbered(s, fd, d) && DescAt(s.table, d).sem < |s.table.sems|
  {
    found := ByFd(s.table, Held(s, s.running), fd);
    ByFdFinds(s.table, Held(s, s.running), fd);
    if found.Some? {
      var d := NamedDescriptor(s, fd);
    }
  }

  /** What the handlers of wait and post do with the descriptor found, if any. */
  lemma HandledBy(s: State, fd: int)
    requires s.mode == Active && s.running < |s.pcbs|
    ensures match ByFd(s.table, Held(s, s.running), fd)
            case None =>
              && Answered(s, SemWait(fd), Step(s, Trap(SemWait(fd))), ENOTMYSEM)
              && Answered(s, SemPost(fd), Step(s, Trap(SemPost(fd))), ENOTMYSEM)
            case Some(d) =>
              && Step(s, Trap(SemWait(fd))) == WaitOn(Record(s, SemWait(fd)), d, DescAt(s.table, d).sem)
              && Step(s, Trap(SemPost(fd))) == PostOn(Record(s, SemPost(fd)), DescAt(s.table, d).sem)
  {
  }

  /** Only semaphore `m` has changed, to `v`. */
  ghost predicate OnlySem(t: SemTable, t': SemTable, m: Addr, v: Semaphore) {
    && t' == t.(sems := t'.sems) && |t'.sems| == |t.sems| && SemAt(t', m) == v
    && forall n: Addr :: n != m ==> SemAt(t', n) == SemAt(t, n)
  }

  /** A wait through `d`: with a token left the caller takes it and runs on with
      0. Otherwise it is queued last and gives way, and the 0 is for the process
      that runs then; if none can, that is a deadlock. */
  ghost predicate HasWaitedOn(s: State, call: Call, s': State, d: Addr) {
    var m := DescAt(s.table, d).sem;
    var sem := SemAt(s.table, m);
    if sem.count > 0 then
      && s' == s.(pcbs := s'.pcbs, table := s'.table)
      && Me(s') == Me(s).(call := call, retvalue := 0) && OnlyChanges(s, s', {s.running})
      && OnlySem(s.table, s'.table, m, sem.(count := sem.count - 1))
    else if s.ready == [] then s'.mode == Deadlock
    else
      && s' == s.(pcbs := s'.pcbs, running := s'.running, ready := s'.ready, waiting := s'.waiting, table := s'.table)
      && GivesWay(s, s') && At(s'.pcbs, s.running) == Me(s).(call := call, status := Waiting)
      && Me(s') == At(s.pcbs, s.ready[0]).(retvalue := 0) && OnlyChanges(s, s', {s.running, s.ready[0]})
      && OnlySem(s.table, s'.table, m, sem.(count := sem.count - 1, waiting := sem.waiting + [d]))
  }

  /** A wait on a number that is not open is an error and changes nothing, and
      only that gives this error. */
  lemma SemWaitOutcome(s: State, fd: int)
    requires Inv(s)
    ensures var s' := Step(s, Trap(SemWait(fd)));
            if forall d :: !Numbered(s, fd, d) then Answered(s, SemWait(fd), s', ENOTMYSEM)
            else
              && (exists d :: Numbered(s, fd, d) && HasWaitedOn(s, SemWait(fd), s', d))
              && (s'.mode == Active && s'.running == s.running ==> Me(s').retvalue != ENOTMYSEM)
  {
    Exclusive(s, s.running);
    var found := Lookup(s, fd);
    HandledBy(s, fd);
    if found.Some? {
      WaitsOn(s, SemWait(fd), found.value);
    }
  }

  lemma WaitsOn(s: State, call: Call, d: Addr)
    requires Inv(s) && DescAt(s.table, d).sem < |s.table.sems|
    ensures var s' := WaitOn(Record(s, call), d, DescAt(s.table, d).sem);
            && HasWaitedOn(s, call, s', d)
            && (s'.mode == Active && s'.running == s.running ==> Me(s').retvalue != ENOTMYSEM)
  {
    Exclusive(s, s.running);
    if s.ready != [] {
      Exclusive(s, s.ready[0]);
    }
  }

  /** A post: if processes wait and the counter is negative, the first of them
      becomes the last ready process; the counter rises and the caller runs on
      with 0. */
  ghost predicate HasPostedOn(s: State, call: Call, s': State, m: Addr) {
    var sem := SemAt(s.table, m);
    if sem.count < 0 && sem.waiting != [] then
      var a := DescAt(s.table, sem.waiting[0]).pcb;
      && s' == s.(pcbs := s'.pcbs, table := s'.table, waiting := Detach(s.waiting, a), ready := s.ready + [a])
      && a in s.waiting && At(s'.pcbs, a) == At(s.pcbs, a).(status := Ready)
      && Me(s') == Me(s).(call := call, retvalue := 0) && OnlyChanges(s, s', {s.running, a})
      && OnlySem(s.table, s'.table, m, sem.(count := sem.count + 1, waiting := sem.waiting[1..]))
    else
      && s' == s.(pcbs := s'.pcbs, table := s'.table)
      && Me(s') == Me(s).(call := call, retvalue := 0) && OnlyChanges(s, s', {s.running})
      && OnlySem(s.table, s'.table, m, sem.(count := sem.count + 1))
  }

  /** Likewise a post. */
  lemma SemPostOutcome(s: State, fd: int)
    requires Inv(s)
    ensures var s' := Step(s, Trap(SemPost(fd)));
            if forall d :: !Numbered(s, fd, d) then Answered(s, SemPost(fd), s', ENOTMYSEM)
            else
              && (exists d :: Numbered(s, fd, d) && HasPostedOn(s, SemPost(fd), s', DescAt(s.table, d).sem))
              && Me(s').retvalue != ENOTMYSEM
  {
    Exclusive(s, s.running);
    var found := Lookup(s, fd);
    HandledBy(s, fd);
    if found.Some? {
      PostsOn(s, SemPost(fd), found.value);
    }
  }

  lemma PostsOn(s: State, call: Call, d: Addr)
    requires Inv(s) && call.SemPost? && Numbered(s, call.fd, d)
    requires DescAt(s.table, d).sem < |s.table.sems|
    ensures HasPostedOn(s, call, PostOn(Record(s, call), DescAt(s.table, d).sem), DescAt(s.table, d).sem)
  {
    var m := DescAt(s.table, d).sem;
    Exclusive(s, s.running);
    assert OwnedOk(s, s.running, d);
    if SemAt(s.table, m).waiting != [] {
      HeadWaits(s, m);
      Exclusive(s, DescAt(s.table, SemAt(s.table, m).waiting[0]).pcb);
    }
    PostIs(s, call, m);
  }

  lemma PostIs(s: State, call: Call, m: Addr)
    requires s.running < |s.pcbs| && m < |s.table.sems|
    requires SemAt(s.table, m).waiting != [] ==>
               var a := DescAt(s.table, SemAt(s.table, m).waiting[0]).pcb;
               a != s.running && a < |s.pcbs| && a in s.waiting
    ensures HasPostedOn(s, call, PostOn(Record(s, call), m), m)
  {
  }

  // ----- Semaphores: close -----

  /** The descriptor is gone and two pointer blocks with it, and the semaphore if
      that was its last. */
  ghost predicate HasClosed(s: State, call: Call, s': State, d: Addr) {
    var t, t' := s.table, s'.table;
    var m := DescAt(t, d).sem;
    var left := Detach(SemAt(t, m).descriptors, d);
    && s' == s.(pcbs := s'.pcbs, table := t') && OnlyChanges(s, s', {s.running})
    && Me(s') == Me(s).(call := call, semDescs := Detach(Held(s, s.running), d), retvalue := 0)
    && t'.descs == t.descs && t'.freeDescs == [d] + t.freeDescs && t'.freePtrs == t.freePtrs + 2
    && |t'.sems| == |t.sems| && SemAt(t', m) == SemAt(t, m).(descriptors := left)
    && (forall n: Addr :: n != m ==> SemAt(t', n) == SemAt(t, n))
    && t'.list == (if left == [] then Detach(t.list, m) else t.list)
    && t'.freeSems == (if left == [] then [m] + t.freeSems else t.freeSems)
  }

  /** A close of a number that is not open is an error and changes nothing. After
      a close the number is not open, and the caller's other numbers stand for
      what they stood for. */
  lemma CloseReports(s: State, fd: int)
    requires Inv(s)
    ensures var s' := Step(s, Trap(SemClose(fd)));
            && (if forall d :: !Numbered(s, fd, d) then Answered(s, SemClose(fd), s', ENOTMYSEM)
                else
                  && Me(s').retvalue != ENOTMYSEM
                  && exists d :: Numbered(s, fd, d) && HasClosed(s, SemClose(fd), s', d))
            && (forall n, m :: Names(s', n, m) <==> n != fd && Names(s, n, m))
  {
    var s' := Step(s, Trap(SemClose(fd)));
    Exclusive(s, s.running);
    var found := Lookup(s, fd);
    match found {
      case None =>
        NotClosed(s, fd);
        forall n, m ensures Names(s', n, m) <==> n != fd && Names(s, n, m) {
          SameNames(s, s', n, m);
        }
      case Some(d) =>
        Closes(s, SemClose(fd), d);
        forall n, m ensures Names(s', n, m) <==> n != fd && Names(s, n, m) {
          ClosedNames(s, fd, s', d, n, m);
        }
    }
  }

  lemma NotClosed(s: State, fd: int)
    requires s.mode == Active && s.running < |s.pcbs| && ByFd(s.table, Held(s, s.running), fd) == None
    ensures Answered(s, SemClose(fd), Step(s, Trap(SemClose(fd))), ENOTMYSEM)
  {
  }

  lemma Closes(s: State, call: Call, d: Addr)
    requires Inv(s) && call.SemClose? && DescAt(s.table, d).sem < |s.table.sems|
    requires ByFd(s.table, Held(s, s.running), call.fd) == Some(d)
    ensures HasClosed(s, call, Step(s, Trap(call)), d)
  {
    Exclusive(s, s.running);
  }

  lemma SameNames(s: State, s': State, n: int, m: Addr)
    requires Held(s', s'.running) == Held(s, s.running) && s'.table.descs == s.table.descs
    ensures Names(s', n, m) <==> Names(s, n, m)
  {
    assert forall d :: Numbered(s', n, d) <==> Numbered(s, n, d);
    assert forall d :: DescAt(s'.table, d) == DescAt(s.table, d);
  }

  lemma ClosedNames(s: State, fd: int, s': State, d: Addr, n: int, m: Addr)
    requires Inv(s) && Numbered(s, fd, d)
    requires s'.running == s.running && Held(s', s.running) == Detach(Held(s, s.running), d)
    requires s'.table.descs == s.table.descs
    ensures Names(s', n, m) <==> n != fd && Names(s, n, m)
  {
    assert forall e :: DescAt(s'.table, e) == DescAt(s.table, e);
    forall e ensures Numbered(s', n, e) <==> n != fd && Numbered(s, n, e) {
      HeldAfterClose(s, fd, d, e);
    }
  }

  lemma HeldAfterClose(s: State, fd: int, d: Addr, e: Addr)
    requires Inv(s) && Numbered(s, fd, d)
    ensures e in Detach(Held(s, s.running), d) <==> e in Held(s, s.running) && e != d
    ensures e in Held(s, s.running) && DescAt(s.table, e).fd == fd ==> e == d
  {
    assert IsLive(s, s.running) && Occ(Held(s, s.running), d) == 1;
    OccDetach(Held(s, s.running), d, e);
    OccIn(Detach(Held(s, s.running), d), e);
    OccIn(Held(s, s.running), e);
  }

  /** The caller's number `fd` stands for semaphore `m`. */
  ghost predicate Names(s: State, fd: int, m: Addr) {
    exists d :: Numbered(s, fd, d) && DescAt(s.table, d).sem == m
  }

  // ----- Semaphores: open -----

  /** The caller has semaphore `semnum` open, through `d`. */
  predicate HasOpen(s: State, semnum: int, d: Addr) {
    d in Held(s, s.running) && SemAt(s.table, DescAt(s.table, d).sem).id == semnum
  }

  predicate IsListed(t: SemTable, semnum: int, m: Addr) { m in t.list && SemAt(t, m).id == semnum }

  /** Semaphore block `m` is taken from the pool, with its initial value and
      nobody waiting. */
  ghost predicate HasCreated(t: SemTable, semnum: int, value: int, t': SemTable, m: Addr) {
    && t' == t.(sems := t'.sems, list := t.list + [m], freeSems := t'.freeSems) && t.freeSems == [m] + t'.freeSems
    && |t'.sems| == |t.sems| && SemAt(t', m) == Semaphore(semnum, value, [], [])
    && forall n: Addr :: n != m ==> SemAt(t', n) == SemAt(t, n)
  }

  /** From table `t`, in which `m` is the semaphore asked for: without a free
      descriptor, or with fewer than two pointer blocks, the open fails, and in
      the second case the descriptor, the pointer block and the number are used
      up; otherwise the caller has descriptor `d` under its next number. */
  ghost predicate HasOpened(s: State, call: Call, t: SemTable, s': State, m: Addr) {
    var me, t' := Me(s).(call := call), s'.table;
    var fd := me.lastSemFd;
    && s' == s.(pcbs := s'.pcbs, table := t') && OnlyChanges(s, s', {s.running})
    && if t.freeDescs == [] then t' == t && Me(s') == me.(retvalue := ECREATEFD)
       else
         var d := t.freeDescs[0];
         && t'.list == t.list && t'.freeSems == t.freeSems && [d] + t'.freeDescs == t.freeDescs
         && |t'.descs| == |t.descs| && DescAt(t', d) == Desc(s.running, m, fd)
         && (forall e: Addr :: e != d ==> DescAt(t', e) == DescAt(t, e))
         && if t.freePtrs < 2 then
              && t'.freePtrs == 0 && t'.sems == t.sems
              && Me(s') == me.(lastSemFd := fd + 1, retvalue := ECREATEPTR)
            else
              && t'.freePtrs + 2 == t.freePtrs && |t'.sems| == |t.sems|
              && SemAt(t', m) == SemAt(t, m).(descriptors := SemAt(t, m).descriptors + [d])
              && (forall n: Addr :: n != m ==> SemAt(t', n) == SemAt(t, n))
              && Me(s') == me.(lastSemFd := fd + 1, semDescs := Held(s, s.running) + [d], retvalue := fd)
  }

  /** Opening a semaphore that the caller has open gives its number again. One
      that is listed is opened; one that is not is created first, unless no block
      is left. */
  lemma OpenReports(s: State, semnum: int, value: int)
    requires Inv(s)
    ensures var call := SemOpen(semnum, value);
            var s' := Step(s, Trap(call));
            if exists d :: HasOpen(s, semnum, d) then
              exists d :: HasOpen(s, semnum, d) && Answered(s, call, s', DescAt(s.table, d).fd)
            else if exists m :: IsListed(s.table, semnum, m) then
              exists m :: IsListed(s.table, semnum, m) && HasOpened(s, call, s.table, s', m)
            else if s.table.freeSems == [] then Answered(s, call, s', ECREATESEM)
            else
              exists t, m :: HasCreated(s.table, semnum, value, t, m) && HasOpened(s, call, t, s', m)
  {
    var call := SemOpen(semnum, value);
    Exclusive(s, s.running);
    BySemnumFinds(s.table, Held(s, s.running), semnum);
    ByIdFinds(s.table, s.table.list, semnum);
    if BySemnum(s.table, Held(s, s.running), semnum).Some? {
      assert HasOpen(s, semnum, BySemnum(s.table, Held(s, s.running), semnum).value);
    } else if ById(s.table, s.table.list, semnum).Some? {
      var m := ById(s.table, s.table.list, semnum).value;
      assert IsListed(s.table, semnum, m);
      Listed(s.table, m);
      Opened(s, call, s.table, m);
    } else if s.table.freeSems != [] {
      var m := s.table.freeSems[0];
      AllocIs(s.table, semnum, value);
      Opened(s, call, AllocSem(s.table, semnum, value), m);
    }
  }

  lemma AllocIs(t: SemTable, semnum: int, value: int)
    requires TableOk(t) && t.freeSems != []
    ensures var t', m := AllocSem(t, semnum, value), t.freeSems[0];
            HasCreated(t, semnum, value, t', m) && m < |t'.sems| && ListedOk(t')
  {
    FreshSem(t);
    AllocSemListed(t, semnum, value);
  }

  lemma Opened(s: State, call: Call, t: SemTable, m: Addr)
    requires s.running < |s.pcbs| && ListedOk(t) && m < |t.sems|
    ensures HasOpened(s, call, t, OpenDesc(Record(s, call).(table := t), m), m)
  {
    if t.freeDescs != [] {
      FreshDesc(t);
    }
  }

  /** Each error of open is returned exactly when its pool has run out, and a
      number exactly otherwise. */
  lemma OpenErrors(s: State, semnum: int, value: int)
    requires Inv(s)
    ensures var result := Me(Step(s, Trap(SemOpen(semnum, value)))).retvalue;
            var t := s.table;
            var known, listed := exists d :: HasOpen(s, semnum, d), exists m :: IsListed(t, semnum, m);
            && (result == ECREATESEM <==> !known && !listed && t.freeSems == [])
            && (result == ECREATEFD <==> !known && (listed || t.freeSems != []) && t.freeDescs == [])
            && (result == ECREATEPTR <==>
                !known && (listed || t.freeSems != []) && t.freeDescs != [] && t.freePtrs < 2)
            && (result >= 0 <==>
                known || ((listed || t.freeSems != []) && t.freeDescs != [] && t.freePtrs >= 2))
  {
    var r := Record(s, SemOpen(semnum, value));
    RecordKeeps(s, SemOpen(semnum, value));
    Exclusive(s, s.running);
    OpenCodes(r, semnum, value);
    KnownIff(s, semnum);
    assert Held(r, r.running) == Held(s, s.running);
  }

  lemma KnownIff(s: State, semnum: int)
    ensures (exists d :: HasOpen(s, semnum, d)) <==> BySemnum(s.table, Held(s, s.running), semnum).Some?
    ensures (exists m :: IsListed(s.table, semnum, m)) <==> ById(s.table, s.table.list, semnum).Some?
  {
    BySemnumFinds(s.table, Held(s, s.running), semnum);
    ByIdFinds(s.table, s.table.list, semnum);
    if BySemnum(s.table, Held(s, s.running), semnum).Some? {
      assert HasOpen(s, semnum, BySemnum(s.table, Held(s, s.running), semnum).value);
    }
    if ById(s.table, s.table.list, semnum).Some? {
      assert IsListed(s.table, semnum, ById(s.table, s.table.list, semnum).value);
    }
  }

  /** The number that a successful open returns stands for a listed semaphore with
      the id asked for. */
  lemma OpenConnects(s: State, semnum: int, value: int)
    requires Inv(s) && Me(Step(s, Trap(SemOpen(semnum, value)))).retvalue >= 0
    ensures var s' := Step(s, Trap(SemOpen(semnum, value)));
            s'.running == s.running && exists m :: IsListed(s'.table, semnum, m) && Names(s', Me(s').retvalue, m)
  {
    var s1, s' := Record(s, SemOpen(semnum, value)), Step(s, Trap(SemOpen(semnum, value)));
    RecordKeeps(s, SemOpen(semnum, value));
    ConnectsOpened(s1, semnum, value);
    var fd := Me(s').retvalue;
    ByFdFinds(s'.table, Held(s', s'.running), fd);
    var d := ByFd(s'.table, Held(s', s'.running), fd).value;
    assert Numbered(s', fd, d);
    assert Names(s', fd, DescAt(s'.table, d).sem);
    OpenSameRunner(s1, semnum, value);
  }

  lemma OpenSameRunner(s: State, semnum: int, value: int)
    ensures DoSemOpen(s, semnum, value).running == s.running
  {
  }

  // ----- Open twice, open and close -----

  /** The state but for the call that the running process has recorded. */
  function Recorded(s: State, call: Call): State { s.(pcbs := Put(s.pcbs, s.running, Me(s).(call := call))) }

  lemma OpenDescRecorded(s: State, call: Call, m: Addr)
    requires s.running < |s.pcbs|
    ensures OpenDesc(Recorded(s, call), m) == Recorded(OpenDesc(s, m), call)
  {
    var s1 := OpenDesc(s, m);
    assert s1.pcbs == Put(s.pcbs, s.running, Me(s1));
    assert Recorded(s1, call).pcbs == OpenDesc(Recorded(s, call), m).pcbs;
  }

  lemma ReturnRecorded(s: State, call: Call, value: int)
    requires s.running < |s.pcbs|
    ensures Return(Recorded(s, call), value) == Recorded(Return(s, value), call)
  {
    assert Return(Recorded(s, call), value).pcbs == Recorded(Return(s, value), call).pcbs;
  }

  lemma OpenRecorded(s: State, call: Call, semnum: int, value: int)
    requires s.running < |s.pcbs|
    ensures DoSemOpen(Recorded(s, call), semnum, value) == Recorded(DoSemOpen(s, semnum, value), call)
  {
    assert Held(Recorded(s, call), s.running) == Held(s, s.running);
    match BySemnum(s.table, Held(s, s.running), semnum) {
      case Some(d) => ReturnRecorded(s, call, DescAt(s.table, d).fd);
      case None =>
        match ById(s.table, s.table.list, semnum) {
          case Some(m) => OpenDescRecorded(s, call, m);
          case None =>
            if s.table.freeSems == [] {
              ReturnRecorded(s, call, ECREATESEM);
            } else {
              OpenDescRecorded(s.(table := AllocSem(s.table, semnum, value)), call, s.table.freeSems[0]);
            }
        }
    }
  }

  lemma CloseRecorded(s: State, call: Call, fd: int)
    requires s.running < |s.pcbs|
    ensures DoSemClose(Recorded(s, call), fd) == Recorded(DoSemClose(s, fd), call)
  {
    assert Held(Recorded(s, call), s.running) == Held(s, s.running);
    assert DoSemClose(Recorded(s, call), fd).pcbs == Recorded(DoSemClose(s, fd), call).pcbs;
  }

  lemma OpenKeepsRunner(s: State, semnum: int, value: int)
    ensures var s' := DoSemOpen(s, semnum, value);
            && s'.running == s.running && |s'.pcbs| == |s.pcbs| && s'.mode == s.mode
            && Me(s').call == Me(s).call
  {
  }

  lemma SameButCall(s: State, s': State, call: Call)
    requires Recorded(s, call) == Recorded(s', call) && s.running == s'.running && Me(s).call == Me(s').call
    requires |s.pcbs| == |s'.pcbs|
    ensures s == s'
  {
    assert Me(s) == Me(s').(call := Me(s).call) by {
      assert At(Recorded(s, call).pcbs, s.running) == At(Recorded(s', call).pcbs, s.running);
    }
    forall a | 0 <= a < |s.pcbs| ensures s.pcbs[a] == s'.pcbs[a] {
      assert Recorded(s, call).pcbs[a] == Recorded(s', call).pcbs[a];
    }
    assert s == Recorded(s, call).(pcbs := s.pcbs);
  }

  /** Opening a semaphore number a second time, with whatever value, returns
      what the first open returned and changes nothing, exactly unless the first
      one ran out of pointer blocks, which uses up a descriptor every time. */
  lemma ReopenExactly(s: State, semnum: int, value: int, again: int)
    requires Inv(s)
    ensures var s1 := Step(s, Trap(SemOpen(semnum, value)));
            Step(s1, Trap(SemOpen(semnum, again))) == Recorded(s1, SemOpen(semnum, again))
            <==> !RunsOutOfPointers(s, semnum)
  {
    var open, more := SemOpen(semnum, value), SemOpen(semnum, again);
    var r := Record(s, open);
    var s1 := DoSemOpen(r, semnum, value);
    RecordKeeps(s, open);
    Exclusive(s, s.running);
    OpenThenOpen(s, semnum, value, again);
    ReopensSame(r, semnum, value, again);
    OpenKeepsRunner(r, semnum, value);
    OpenKeepsRunner(s1, semnum, again);
    if Recorded(DoSemOpen(s1, semnum, again), more) == Recorded(s1, more) {
      SameButCall(DoSemOpen(s1, semnum, again), s1, more);
    }
  }

  lemma OpenThenOpen(s: State, semnum: int, value: int, again: int)
    requires s.mode == Active && s.running < |s.pcbs|
    ensures var r := Record(s, SemOpen(semnum, value));
            var s1 := DoSemOpen(r, semnum, value);
            && Step(s, Trap(SemOpen(semnum, value))) == s1
            && Step(s1, Trap(SemOpen(semnum, again))) == Recorded(DoSemOpen(s1, semnum, again), SemOpen(semnum, again))
            && (RunsOutOfPointers(r, semnum) <==> RunsOutOfPointers(s, semnum))
  {
    var r := Record(s, SemOpen(semnum, value));
    OpenKeepsRunner(r, semnum, value);
    OpenRecorded(DoSemOpen(r, semnum, value), SemOpen(semnum, again), semnum, again);
  }

  /** An open that gives the process a new descriptor, and then the close of that
      descriptor, restore every list and every pool, the order of the free blocks
      included, exactly unless the semaphore was abandoned, which the close then
      frees. The process's next descriptor number alone has moved on. */
  lemma CloseUndoesOpen(s: State, semnum: int, value: int)
    requires Inv(s) && Opens(s, semnum)
    ensures var s1 := Step(s, Trap(SemOpen(semnum, value)));
            var fd := Me(s1).retvalue;
            var s2 := Step(s1, Trap(SemClose(fd)));
            && fd == Me(s).lastSemFd
            && (SameInUse(s.table, s2.table) <==> !Abandoned(s, semnum))
            && s2 == s.(table := s2.table, pcbs := s2.pcbs) && OnlyChanges(s, s2, {s.running})
            && Me(s2) == Me(s).(call := SemClose(fd), lastSemFd := fd + 1, retvalue := 0)
  {
    var open, fd := SemOpen(semnum, value), Me(s).lastSemFd;
    RecordKeeps(s, open);
    Exclusive(s, s.running);
    SameChances(s, open, semnum);
    ClosesOpened(Record(s, open), semnum, value);
    OpenThenClose(s, semnum, value, fd);
    OnlyMoved(s, open, SemClose(fd), DoSemClose(DoSemOpen(Record(s, open), semnum, value), fd));
  }

  lemma SameChances(s: State, call: Call, semnum: int)
    requires s.running < |s.pcbs|
    ensures Opens(Record(s, call), semnum) <==> Opens(s, semnum)
    ensures Abandoned(Record(s, call), semnum) <==> Abandoned(s, semnum)
    ensures Record(s, call).table == s.table && Me(Record(s, call)).lastSemFd == Me(s).lastSemFd
  {
  }

  lemma OnlyMoved(s: State, open: Call, close: Call, s': State)
    requires s.running < |s.pcbs|
    requires var r := Record(s, open);
             s' == r.(table := s'.table,
                      pcbs := Put(r.pcbs, r.running, Me(r).(lastSemFd := Me(r).lastSemFd + 1, retvalue := 0)))
    ensures var s2 := Recorded(s', close);
            && s2 == s.(table := s2.table, pcbs := s2.pcbs) && s2.table == s'.table && OnlyChanges(s, s2, {s.running})
            && Me(s2) == Me(s).(call := close, lastSemFd := Me(s).lastSemFd + 1, retvalue := 0)
  {
  }

  /** Two calls in a row are the two handlers in a row, but for the call recorded. */
  lemma OpenThenClose(s: State, semnum: int, value: int, fd: int)
    requires s.mode == Active && s.running < |s.pcbs|
    ensures var s1 := DoSemOpen(Record(s, SemOpen(semnum, value)), semnum, value);
            && Step(s, Trap(SemOpen(semnum, value))) == s1
            && Step(s1, Trap(SemClose(fd))) == Recorded(DoSemClose(s1, fd), SemClose(fd))
  {
    var r := Record(s, SemOpen(semnum, value));
    OpenKeepsRunner(r, semnum, value);
    CloseRecorded(DoSemOpen(r, semnum, value), SemClose(fd), fd);
  }

  // ----- The first open -----

  /** The process has opened nothing yet. */
  predicate Unopened(s: State, c: Addr) { IsLive(s, c) && Held(s, c) == [] && At(s.pcbs, c).lastSemFd == 0 }

  predicate OpensOrExits(s: State, l: Label, c: Addr) {
    l.Trap? && s.running == c && (l.call.SemOpen? || l.call.Exit?)
  }

  predicate SameOwn(s: State, s': State, c: Addr) {
    s'.mode == Active ==> Held(s', c) == Held(s, c) && At(s'.pcbs, c).lastSemFd == At(s.pcbs, c).lastSemFd
  }

  lemma RescheduleOwn(s: State, l: Label, c: Addr)
    requires Inv(s) && IsLive(s, c) && (l == Tick || l == Trap(Preempt))
    ensures SameOwn(s, Step(s, l), c)
  {
    Exclusive(s, c);
    Exclusive(s, s.running);
    Reschedule(s, l);
  }

  lemma BirthOwn(s: State, call: Call, c: Addr)
    requires Inv(s) && IsLive(s, c) && (call == Fork || call == Spawn)
    ensures SameOwn(s, Step(s, Trap(call)), c)
  {
    Exclusive(s, c);
    Exclusive(s, s.running);
    ForkOrSpawn(s, call);
  }

  lemma WaitOwn(s: State, pid: int, result: int, c: Addr)
    requires Inv(s) && IsLive(s, c)
    ensures SameOwn(s, Step(s, Trap(Wait(pid, result))), c)
  {
    Exclusive(s, c);
    Exclusive(s, s.running);
    WaitReports(s, pid, result);
  }

  lemma ExitOwn(s: State, value: int, c: Addr)
    requires Inv(s) && IsLive(s, c) && c != s.running
    ensures SameOwn(s, Step(s, Trap(Exit(value))), c)
  {
    Exclusive(s, c);
    Exclusive(s, s.running);
    ExitReports(s, value);
  }

  lemma SleepOwn(s: State, cycles: int, c: Addr)
    requires Inv(s) && IsLive(s, c)
    ensures SameOwn(s, Step(s, Trap(Sleep(cycles))), c)
  {
    Exclusive(s, c);
    Exclusive(s, s.running);
    SleepReports(s, cycles);
  }

  lemma OpenOwn(s: State, semnum: int, value: int, c: Addr)
    requires Inv(s) && IsLive(s, c) && c != s.running
    ensures SameOwn(s, Step(s, Trap(SemOpen(semnum, value))), c)
  {
    Exclusive(s, c);
    Exclusive(s, s.running);
    OpenReports(s, semnum, value);
  }

  lemma CloseOwn(s: State, fd: int, c: Addr)
    requires Inv(s) && IsLive(s, c) && (c == s.running ==> Held(s, c) == [])
    ensures SameOwn(s, Step(s, Trap(SemClose(fd))), c)
  {
    Exclusive(s, c);
    Exclusive(s, s.running);
    CloseReports(s, fd);
  }

  lemma SemWaitOwn(s: State, fd: int, c: Addr)
    requires Inv(s) && IsLive(s, c)
    ensures SameOwn(s, Step(s, Trap(SemWait(fd))), c)
  {
    Exclusive(s, c);
    Exclusive(s, s.running);
    SemWaitOutcome(s, fd);
  }

  lemma SemPostOwn(s: State, fd: int, c: Addr)
    requires Inv(s) && IsLive(s, c)
    ensures SameOwn(s, Step(s, Trap(SemPost(fd))), c)
  {
    Exclusive(s, c);
    Exclusive(s, s.running);
    SemPostOutcome(s, fd);
  }

  /** Nothing but its own opens and closes changes what a process has open. */
  lemma SameOpen(s: State, l: Label, c: Addr)
    requires Inv(s) && IsLive(s, c) && !OpensOrExits(s, l, c)
    requires l.Trap? && l.call.SemClose? && s.running == c ==> Held(s, c) == []
    ensures SameOwn(s, Step(s, l), c)
  {
    match l {
      case Tick => RescheduleOwn(s, l, c);
      case Trap(call) =>
        match call {
          case NoCall => UnknownCall(s);
          case Preempt => RescheduleOwn(s, l, c);
          case Fork => BirthOwn(s, call, c);
          case Spawn => BirthOwn(s, call, c);
          case Wait(pid, result) => WaitOwn(s, pid, result, c);
          case Exit(value) => ExitOwn(s, value, c);
          case Sleep(cycles) => SleepOwn(s, cycles, c);
          case SemOpen(semnum, value) => OpenOwn(s, semnum, value, c);
          case SemClose(fd) => CloseOwn(s, fd, c);
          case SemWait(fd) => SemWaitOwn(s, fd, c);
          case SemPost(fd) => SemPostOwn(s, fd, c);
        }
    }
  }

  lemma UnopenedKept(s: State, l: Label, c: Addr)
    requires Inv(s) && Step(s, l).mode == Active && Unopened(s, c) && !OpensOrExits(s, l, c)
    ensures Unopened(Step(s, l), c)
  {
    LiveKept(s, l, c);
    SameOpen(s, l, c);
  }

  /** The first open of a process that has opened nothing returns 0 if it
      succeeds, whatever the process and the others have done before. */
  lemma {:induction false} FirstOpen(s: State, labels: seq<Label>, c: Addr, semnum: int, value: int)
    requires Inv(s) && Unopened(s, c)
    requires forall k :: 0 <= k < |labels| ==> !OpensOrExits(Run(s, labels[..k]), labels[k], c)
    requires var s' := Run(s, labels); s'.mode == Active && s'.running == c
    ensures var s' := Step(Run(s, labels), Trap(SemOpen(semnum, value)));
            Me(s').retvalue >= 0 ==> Me(s').retvalue == 0
    decreases |labels|
  {
    if labels == [] {
      OpenReports(s, semnum, value);
    } else {
      var s1, rest := Step(s, labels[0]), labels[1..];
      ActiveSoFar(s, labels);
      assert labels[..0] == [];
      UnopenedKept(s, labels[0], c);
      forall k | 0 <= k < |rest| ensures !OpensOrExits(Run(s1, rest[..k]), rest[k], c) {
        assert labels[..k + 1][1..] == rest[..k];
      }
      FirstOpen(s1, rest, c, semnum, value);
    }
  }

  /** A process just forked or spawned has opened nothing, also in a recycled
      block: its first open returns 0 if it succeeds. */
  lemma FirstOpenReturnsZero(s: State, l: Label, c: Addr, labels: seq<Label>, semnum: int, value: int)
    requires Inv(s) && (l == Trap(Fork) || l == Trap(Spawn)) && Step(s, l).mode == Active && IsNew(s, Step(s, l), c)
    requires forall k :: 0 <= k < |labels| ==> !OpensOrExits(Run(Step(s, l), labels[..k]), labels[k], c)
    requires var s' := Run(Step(s, l), labels); s'.mode == Active && s'.running == c
    ensures var s' := Step(Run(Step(s, l), labels), Trap(SemOpen(semnum, value)));
            Me(s').retvalue >= 0 ==> Me(s').retvalue == 0
  {
    NewbornUnopened(s, l);
    StepKeeps(s, l);
    FirstOpen(Step(s, l), labels, c, semnum, value);
  }

  lemma NewbornUnopened(s: State, l: Label)
    requires Inv(s) && (l == Trap(Fork) || l == Trap(Spawn)) && Step(s, l).mode == Active
    ensures forall c :: IsNew(s, Step(s, l), c) ==> Unopened(Step(s, l), c)
  {
    ForkOrSpawn(s, l.call);
  }
}

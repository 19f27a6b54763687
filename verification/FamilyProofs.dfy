/** Each kernel step keeps the children lists, the process ids, the exit values
    and their delivery, and loses no wake-up between exit and wait. */
module FamilyProofs {
  import opened Lists
  import opened KernelState
  import opened ProcessInvariants
  import opened KernelInvariants

  // ----- Steps that do not concern the family -----

  ghost predicate SameRelations(p: Pcb, q: Pcb) {
    p.pid == q.pid && p.parent == q.parent && p.children == q.children && p.returnValue == q.returnValue
  }

  /** No process is born, dies, is reaped or changes its relations. */
  ghost predicate Quiet(s: State, s': State) {
    && s'.init == s.init && s'.lastPid == s.lastPid && s'.exits == s.exits && s'.delivered == s.delivered
    && s'.zombies == s.zombies && s'.freePcbs == s.freePcbs && |s'.pcbs| == |s.pcbs|
    && forall a: Addr :: SameRelations(At(s'.pcbs, a), At(s.pcbs, a))
  }

  lemma QuietRelations(s: State, s': State)
    requires Quiet(s, s')
    ensures forall a: Addr :: Kids(s', a) == Kids(s, a)
    ensures forall a: Addr :: ParentOf(s', a) == ParentOf(s, a)
    ensures forall a: Addr :: Pid(s', a) == Pid(s, a)
    ensures forall a: Addr :: Occupied(s', a) == Occupied(s, a)
  {
    forall a: Addr
      ensures Kids(s', a) == Kids(s, a) && ParentOf(s', a) == ParentOf(s, a) && Pid(s', a) == Pid(s, a)
    {
      assert SameRelations(At(s'.pcbs, a), At(s.pcbs, a));
    }
  }

  lemma QuietFamily(s: State, s': State)
    requires FamilyOk(s) && Quiet(s, s')
    ensures FamilyOk(s')
  {
    QuietRelations(s, s');
  }

  lemma QuietPids(s: State, s': State)
    requires PidsOk(s) && Quiet(s, s')
    ensures PidsOk(s')
  {
    QuietRelations(s, s');
    assert forall a: Addr :: SameRelations(At(s'.pcbs, a), At(s.pcbs, a));
  }

  lemma QuietDeliveries(s: State, s': State)
    requires DeliveriesOk(s) && Quiet(s, s')
    ensures DeliveriesOk(s')
  {
    QuietRelations(s, s');
  }

  /** Nobody starts to wait for a child. */
  lemma QuietWakeups(s: State, s': State)
    requires NoLostWakeup(s) && Quiet(s, s')
    requires forall h :: h in s'.waiting && CallOf(s', h).Wait? ==> h in s.waiting && CallOf(s', h) == CallOf(s, h)
    ensures NoLostWakeup(s')
  {
    QuietRelations(s, s');
  }

  lemma QuietGenealogy(s: State, s': State)
    requires GenealogyOk(s) && Quiet(s, s')
    requires forall h :: h in s'.waiting && CallOf(s', h).Wait? ==> h in s.waiting && CallOf(s', h) == CallOf(s, h)
    ensures GenealogyOk(s')
  {
    QuietFamily(s, s');
    QuietPids(s, s');
    QuietDeliveries(s, s');
    QuietWakeups(s, s');
  }

  // ----- Spawn -----

  ghost predicate CanSpawn(s: State) {
    s.freePcbs != [] && s.freePcbPtrs != 0
  }

  /** The relations after a spawn. */
  lemma SpawnRelations(s: State, c: Addr)
    requires Partition(s) && CanSpawn(s)
    ensures s.freePcbs[0] < |s.pcbs| && s.freePcbs[0] != s.running
    ensures var a := s.freePcbs[0];
            && Kids(DoSpawn(s), c) == (if c == a then [] else if c == s.running then Kids(s, c) + [a] else Kids(s, c))
            && ParentOf(DoSpawn(s), c) == (if c == a then Some(s.running) else ParentOf(s, c))
            && Pid(DoSpawn(s), c) == (if c == a then s.lastPid else Pid(s, c))
            && (Occupied(DoSpawn(s), c) <==> Occupied(s, c) || c == a)
            && (c != a ==> At(DoSpawn(s).pcbs, c).returnValue == At(s.pcbs, c).returnValue)
            && !Occupied(s, a)
  {
    var a := s.freePcbs[0];
    Exclusive(s, s.running);
    Exclusive(s, a);
    OccTail(s.freePcbs, a);
    OccIn(s.freePcbs[1..], a);
    OccTail(s.freePcbs, c);
    OccIn(s.freePcbs[1..], c);
    OccIn(s.freePcbs, c);
  }

  lemma SpawnKids(s: State)
    requires Partition(s) && CanSpawn(s) && InitOk(s) && KidsOk(s)
    ensures InitOk(DoSpawn(s)) && KidsOk(DoSpawn(s))
  {
    var a := s.freePcbs[0];
    var s' := DoSpawn(s);
    SpawnRelations(s, s.init);
    forall h, c | c in Kids(s', h)
      ensures Occupied(s', c) && c != s.init && Occ(Kids(s', h), c) == 1 && (h == s.init || ParentOf(s', c) == Some(h))
    {
      SpawnRelations(s, h);
      SpawnRelations(s, c);
      OccIn(Kids(s, h), a);
      OccIn(Kids(s, h), c);
    }
  }

  lemma SpawnHolders(s: State)
    requires Partition(s) && CanSpawn(s) && InitOk(s) && KidsOk(s) && HoldersOk(s) && SomeHolder(s) && OneHolder(s)
    ensures HoldersOk(DoSpawn(s)) && SomeHolder(DoSpawn(s)) && OneHolder(DoSpawn(s))
  {
    var a := s.freePcbs[0];
    var s' := DoSpawn(s);
    Exclusive(s, s.running);
    SpawnRelations(s, s.init);
    forall h | Kids(s', h) != [] ensures Occupied(s', h) && h !in s'.zombies {
      SpawnRelations(s, h);
    }
    forall c | Occupied(s', c) && c != s.init
      ensures ParentOf(s', c).Some? && (c in Kids(s', s.init) || c in Kids(s', ParentOf(s', c).value))
    {
      SpawnRelations(s, c);
      if c != a {
        SpawnRelations(s, ParentOf(s, c).value);
      } else {
        SpawnRelations(s, s.running);
      }
    }
    forall c | c in Kids(s', s.init) && ParentOf(s', c).Some? && c in Kids(s', ParentOf(s', c).value)
      ensures ParentOf(s', c) == Some(s.init)
    {
      SpawnRelations(s, c);
      SpawnRelations(s, ParentOf(s', c).value);
    }
  }

  lemma SpawnPids(s: State)
    requires Partition(s) && CanSpawn(s) && InitOk(s) && PidsOk(s) && DeliveriesOk(s) && s.lastPid >= 0
    ensures PidsOk(DoSpawn(s)) && DeliveriesOk(DoSpawn(s))
  {
    var s' := DoSpawn(s);
    Exclusives(s);
    SpawnRelations(s, s.init);
    forall c: Addr
      ensures Pid(s', c) == (if c == s.freePcbs[0] then s.lastPid else Pid(s, c))
      ensures Occupied(s', c) <==> Occupied(s, c) || c == s.freePcbs[0]
      ensures c != s.freePcbs[0] ==> At(s'.pcbs, c).returnValue == At(s.pcbs, c).returnValue
    {
      SpawnRelations(s, c);
    }
  }

  lemma SpawnWakeups(s: State)
    requires Partition(s) && CanSpawn(s) && NoLostWakeup(s)
    ensures NoLostWakeup(DoSpawn(s))
  {
    var s' := DoSpawn(s);
    Exclusives(s);
    forall h, c | h in s'.waiting && c in Kids(s', h) && ParentOf(s', c) == Some(h) && c in s'.zombies
      ensures !WaitsFor(s', h, c)
    {
      SpawnRelations(s, h);
      SpawnRelations(s, c);
      assert CallOf(s', h) == CallOf(s, h);
    }
  }

  lemma SpawnGenealogy(s: State)
    requires Partition(s) && CanSpawn(s) && GenealogyOk(s) && s.lastPid >= 0
    ensures GenealogyOk(DoSpawn(s))
  {
    SpawnKids(s);
    SpawnHolders(s);
    SpawnPids(s);
    SpawnWakeups(s);
  }

  // ----- A child is taken off its list and its block freed -----

  /** `s'` is `s` with the zombie `c` removed from the list of `h` and freed,
      its exit value delivered. */
  ghost predicate Removed(s: State, s': State, h: Addr, c: Addr) {
    && c in Kids(s, h) && c in s.zombies
    && s'.init == s.init && s'.lastPid == s.lastPid && s'.exits == s.exits && |s'.pcbs| == |s.pcbs|
    && s'.zombies == Detach(s.zombies, c) && s'.freePcbs == [c] + s.freePcbs
    && (forall a: Addr :: Kids(s', a) == if a == h then Detach(Kids(s, h), c) else Kids(s, a))
    && (forall a: Addr :: ParentOf(s', a) == ParentOf(s, a) && Pid(s', a) == Pid(s, a))
    && (forall a: Addr :: At(s'.pcbs, a).returnValue == At(s.pcbs, a).returnValue)
    && exists v ::
         (v == None || v == Some(At(s.pcbs, c).returnValue))
         && s'.delivered == s.delivered + [Delivery(h, Pid(s, c), v)]
  }

  /** A child is in one list only. */
  lemma OnlyHolder(s: State, h: Addr, g: Addr, c: Addr)
    requires KidsOk(s) && OneHolder(s) && InitOk(s)
    requires c in Kids(s, h) && c in Kids(s, g)
    ensures h == g
  {
    if h != s.init {
      assert ParentOf(s, c) == Some(h) && c in Kids(s, ParentOf(s, c).value);
    }
    if g != s.init {
      assert ParentOf(s, c) == Some(g) && c in Kids(s, ParentOf(s, c).value);
    }
  }

  /** After the removal the lists hold what they held, except the child. */
  lemma RemovedList(s: State, s': State, h: Addr, c: Addr, g: Addr, b: Addr)
    requires KidsOk(s) && OneHolder(s) && InitOk(s) && Removed(s, s', h, c)
    ensures b in Kids(s', g) <==> b in Kids(s, g) && b != c
    ensures b in Kids(s', g) ==> Occ(Kids(s', g), b) == 1
  {
    OccIn(Kids(s', g), b);
    OccIn(Kids(s, g), b);
    OccDetach(Kids(s, h), c, b);
    if b == c && b in Kids(s, g) {
      OnlyHolder(s, h, g, c);
    }
  }

  lemma RemovedKids(s: State, s': State, h: Addr, c: Addr)
    requires KidsOk(s) && OneHolder(s) && InitOk(s) && Removed(s, s', h, c)
    ensures KidsOk(s')
  {
    forall g, b | b in Kids(s', g)
      ensures Occupied(s', b) && b != s.init && Occ(Kids(s', g), b) == 1 && (g == s.init || ParentOf(s', b) == Some(g))
    {
      RemovedList(s, s', h, c, g, b);
      assert b in Kids(s, g) && Occupied(s, b);
    }
  }

  lemma RemovedInit(s: State, s': State, h: Addr, c: Addr)
    requires KidsOk(s) && OneHolder(s) && InitOk(s) && HoldersOk(s) && Removed(s, s', h, c)
    ensures InitOk(s') && HoldersOk(s')
  {
    forall a: Addr ensures a in s'.zombies ==> a in s.zombies {
      OccDetach(s.zombies, c, a);
    }
    forall g | Kids(s', g) != [] ensures Kids(s, g) != [] && g != c {
      RemovedList(s, s', h, c, g, Kids(s', g)[0]);
    }
  }

  lemma RemovedHolders(s: State, s': State, h: Addr, c: Addr)
    requires FamilyOk(s) && Removed(s, s', h, c)
    ensures SomeHolder(s') && OneHolder(s')
  {
    forall b | Occupied(s', b) && b != s.init
      ensures ParentOf(s', b).Some? && (b in Kids(s', s.init) || b in Kids(s', ParentOf(s', b).value))
    {
      assert Occupied(s, b);
      RemovedList(s, s', h, c, s.init, b);
      RemovedList(s, s', h, c, ParentOf(s, b).value, b);
    }
    forall b | b in Kids(s', s.init) && ParentOf(s', b).Some? && b in Kids(s', ParentOf(s', b).value)
      ensures ParentOf(s', b) == Some(s.init)
    {
      RemovedList(s, s', h, c, s.init, b);
      RemovedList(s, s', h, c, ParentOf(s, b).value, b);
    }
  }

  lemma RemovedPids(s: State, s': State, h: Addr, c: Addr)
    requires InitOk(s) && PidsOk(s) && Removed(s, s', h, c) && c < |s.pcbs|
    requires Occ(s.zombies, c) == 1
    ensures PidsOk(s')
  {
    forall a: Addr
      ensures a in s'.zombies <==> a in s.zombies && a != c
      ensures Occupied(s', a) <==> Occupied(s, a) && a != c
    {
      OccDetach(s.zombies, c, a);
      OccIn(s.zombies, a);
      OccIn(s'.zombies, a);
    }
  }

  lemma RemovedDeliveries(s: State, s': State, h: Addr, c: Addr)
    requires PidsOk(s) && DeliveriesOk(s) && Removed(s, s', h, c) && Occupied(s, c)
    ensures DeliveriesOk(s')
  {
    assert forall a: Addr :: Occupied(s', a) ==> Occupied(s, a) && a != c;
  }

  lemma RemovedWakeups(s: State, s': State, h: Addr, c: Addr)
    requires NoLostWakeup(s) && Removed(s, s', h, c)
    requires forall g :: g in s'.waiting && CallOf(s', g).Wait? ==> g in s.waiting && CallOf(s', g) == CallOf(s, g)
    ensures NoLostWakeup(s')
  {
    forall g, b: Addr ensures b in Kids(s', g) ==> b in Kids(s, g) {
      OccDetach(Kids(s, h), c, b);
    }
    forall b: Addr ensures b in s'.zombies ==> b in s.zombies {
      OccDetach(s.zombies, c, b);
    }
  }

  lemma RemovedRelations(s: State, s': State, h: Addr, c: Addr)
    requires FamilyOk(s) && PidsOk(s) && DeliveriesOk(s) && Removed(s, s', h, c) && Occ(s.zombies, c) == 1
    ensures FamilyOk(s') && PidsOk(s') && DeliveriesOk(s')
  {
    assert Occupied(s, c);
    RemovedKids(s, s', h, c);
    RemovedInit(s, s', h, c);
    RemovedHolders(s, s', h, c);
    RemovedPids(s, s', h, c);
    RemovedDeliveries(s, s', h, c);
  }

  lemma RemovedGenealogy(s: State, s': State, h: Addr, c: Addr)
    requires GenealogyOk(s) && Removed(s, s', h, c) && Occ(s.zombies, c) == 1
    requires forall g :: g in s'.waiting && CallOf(s', g).Wait? ==> g in s.waiting && CallOf(s', g) == CallOf(s, g)
    ensures GenealogyOk(s')
  {
    RemovedRelations(s, s', h, c);
    RemovedWakeups(s, s', h, c);
  }

  lemma ReapRemoves(s: State, kid: Addr, result: int)
    requires s.running < |s.pcbs| && kid in Kids(s, s.running) && kid in s.zombies
    ensures Removed(s, Reap(s, kid, result), s.running, kid)
  {
    var s' := Reap(s, kid, result);
    var v := Reported(result, At(s.pcbs, kid).returnValue);
    assert (v == None || v == Some(At(s.pcbs, kid).returnValue))
           && s'.delivered == s.delivered + [Delivery(s.running, Pid(s, kid), v)];
  }

  // ----- Exit -----

  lemma DieRelations(s: State, value: int, a: Addr)
    requires s.running < |s.pcbs| && s.init < |s.pcbs| && s.running != s.init
    ensures var s' := Die(s, value);
            && Kids(s', a) == (if a == s.running then [] else if a == s.init then Kids(s, a) + Kids(s, s.running)
                               else Kids(s, a))
            && ParentOf(s', a) == ParentOf(s, a) && Pid(s', a) == Pid(s, a) && CallOf(s', a) == CallOf(s, a)
            && At(s'.pcbs, a).returnValue == (if a == s.running then value else At(s.pcbs, a).returnValue)
            && Occupied(s', a) == Occupied(s, a)
  {
  }

  ghost predicate CanDie(s: State) {
    s.running < |s.pcbs| && s.init < |s.pcbs| && s.running != s.init && s.running !in s.freePcbs
      && s.running !in s.zombies
  }

  lemma OccConcat(u: seq<Addr>, v: seq<Addr>, a: Addr)
    ensures Occ(u + v, a) == Occ(u, a) + Occ(v, a)
  {
  }

  /** The lists after a death: the dead one's children are now init's. */
  lemma DieList(s: State, value: int, h: Addr, c: Addr)
    requires KidsOk(s) && OneHolder(s) && InitOk(s) && CanDie(s)
    ensures c in Kids(Die(s, value), h) <==>
              if h == s.init then c in Kids(s, s.init) || c in Kids(s, s.running)
              else c in Kids(s, h) && h != s.running
    ensures c in Kids(Die(s, value), h) ==> Occ(Kids(Die(s, value), h), c) == 1
  {
    DieRelations(s, value, h);
    if h == s.init {
      OccConcat(Kids(s, s.init), Kids(s, s.running), c);
      OccIn(Kids(s, s.init), c);
      OccIn(Kids(s, s.running), c);
      if c in Kids(s, s.init) && c in Kids(s, s.running) {
        OnlyHolder(s, s.init, s.running, c);
      }
    } else if h != s.running {
      assert Kids(Die(s, value), h) == Kids(s, h);
      assert c in Kids(s, h) ==> Occ(Kids(s, h), c) == 1;
    }
  }

  lemma DieKids(s: State, value: int)
    requires KidsOk(s) && OneHolder(s) && InitOk(s) && CanDie(s)
    ensures KidsOk(Die(s, value))
  {
    var s' := Die(s, value);
    forall h, c | c in Kids(s', h)
      ensures Occupied(s', c) && c != s.init && Occ(Kids(s', h), c) == 1 && (h == s.init || ParentOf(s', c) == Some(h))
    {
      DieList(s, value, h, c);
      DieRelations(s, value, c);
    }
  }

  lemma DieInit(s: State, value: int)
    requires KidsOk(s) && OneHolder(s) && InitOk(s) && HoldersOk(s) && CanDie(s)
    ensures InitOk(Die(s, value)) && HoldersOk(Die(s, value))
  {
    var s' := Die(s, value);
    DieRelations(s, value, s.init);
    forall h | Kids(s', h) != [] ensures Occupied(s', h) && h !in s'.zombies {
      DieRelations(s, value, h);
    }
  }

  lemma DieSomeHolder(s: State, value: int)
    requires FamilyOk(s) && CanDie(s)
    ensures SomeHolder(Die(s, value))
  {
    var s' := Die(s, value);
    forall c | Occupied(s', c) && c != s.init
      ensures ParentOf(s', c).Some? && (c in Kids(s', s.init) || c in Kids(s', ParentOf(s', c).value))
    {
      DieRelations(s, value, c);
      DieList(s, value, s.init, c);
      DieList(s, value, ParentOf(s, c).value, c);
    }
  }

  lemma DieOneHolder(s: State, value: int)
    requires FamilyOk(s) && CanDie(s)
    ensures OneHolder(Die(s, value))
  {
    var s' := Die(s, value);
    forall c | c in Kids(s', s.init) && ParentOf(s', c).Some? && c in Kids(s', ParentOf(s', c).value)
      ensures ParentOf(s', c) == Some(s.init)
    {
      var p := ParentOf(s', c).value;
      DieRelations(s, value, c);
      DieList(s, value, s.init, c);
      DieList(s, value, p, c);
      if p != s.init {
        StaysWithOne(s, p, c);
      }
    }
  }

  /** A child of a living parent other than the dying process and init is not
      also in either of their lists. */
  lemma StaysWithOne(s: State, p: Addr, c: Addr)
    requires KidsOk(s) && OneHolder(s) && InitOk(s)
    requires c in Kids(s, p) && p != s.running && p != s.init
    ensures c !in Kids(s, s.init) && c !in Kids(s, s.running)
  {
    if c in Kids(s, s.init) {
      OnlyHolder(s, p, s.init, c);
    }
    if c in Kids(s, s.running) {
      OnlyHolder(s, p, s.running, c);
    }
  }

  lemma DieFamily(s: State, value: int)
    requires FamilyOk(s) && CanDie(s)
    ensures FamilyOk(Die(s, value))
  {
    DieKids(s, value);
    DieInit(s, value);
    DieSomeHolder(s, value);
    DieOneHolder(s, value);
  }

  lemma DiePids(s: State, value: int)
    requires CanDie(s) && PidsOk(s) && DeliveriesOk(s)
    ensures PidsOk(Die(s, value)) && DeliveriesOk(Die(s, value))
  {
    var s' := Die(s, value);
    forall a: Addr
      ensures Pid(s', a) == Pid(s, a)
      ensures At(s'.pcbs, a).returnValue == (if a == s.running then value else At(s.pcbs, a).returnValue)
      ensures Occupied(s', a) == Occupied(s, a)
    {
      DieRelations(s, value, a);
    }
  }

  /** The death of the running process answers no wait but its parent's. */
  lemma DieWakeups(s: State, value: int)
    requires Partition(s) && StatusOk(s) && KidsOk(s) && CanDie(s) && NoLostWakeup(s)
    requires ParentOf(s, s.running).Some?
    requires !Answers(At(Die(s, value).pcbs, ParentOf(s, s.running).value), Pid(s, s.running))
    ensures NoLostWakeup(Die(s, value))
  {
    var s' := Die(s, value);
    Exclusive(s, s.running);
    forall h, c | h in s'.waiting && c in Kids(s', h) && ParentOf(s', c) == Some(h) && c in s'.zombies
      ensures !WaitsFor(s', h, c)
    {
      DieRelations(s, value, h);
      DieRelations(s, value, c);
    }
  }

  /** PCBPtr_byPID finds the dying process in the list of children, if it is there. */
  lemma {:induction false} ByPidFinds(pcbs: seq<Pcb>, kids: seq<Addr>, a: Addr)
    requires forall b :: b in kids && b != a ==> At(pcbs, b).pid != At(pcbs, a).pid
    ensures ByPid(pcbs, kids, At(pcbs, a).pid) == if a in kids then Some(a) else None
  {
    if kids != [] && kids[0] != a {
      assert kids[0] in kids;
      ByPidFinds(pcbs, kids[1..], a);
    }
  }

  /** When the hand-over goes through: exactly if the process is still among the
      children of the block its parent field points to. */
  lemma HandOverFinds(s: State, value: int, p: Addr)
    requires CanDie(s) && KidsOk(s) && OneHolder(s) && InitOk(s) && PidsOk(s)
    ensures ByPid(Die(s, value).pcbs, Kids(Die(s, value), p), Pid(s, s.running))
            == if s.running in Kids(Die(s, value), p) then Some(s.running) else None
  {
    var dead := Die(s, value);
    DieRelations(s, value, s.running);
    DieKids(s, value);
    forall b | b in Kids(dead, p) && b != s.running ensures Pid(dead, b) != Pid(dead, s.running) {
      DieRelations(s, value, b);
      assert Occupied(s, b) && Occupied(s, s.running);
    }
    ByPidFinds(dead.pcbs, Kids(dead, p), s.running);
  }

  lemma HandOverRemoves(s: State, value: int, p: Addr)
    requires CanDie(s) && KidsOk(s) && OneHolder(s) && InitOk(s) && PidsOk(s) && p < |s.pcbs|
    requires s.running in Kids(Die(s, value), p) && p != s.running
    ensures HandOver(Die(s, value), p).mode == s.mode
    ensures Removed(Die(s, value), HandOver(Die(s, value), p), p, s.running)
  {
    var dead := Die(s, value);
    var s' := HandOver(dead, p);
    HandOverFinds(s, value, p);
    DieRelations(s, value, s.running);
    var v := Reported(if CallOf(dead, p).Wait? then CallOf(dead, p).result else 0, value);
    assert s'.delivered == dead.delivered + [Delivery(p, Pid(dead, s.running), v)];
  }

  /** After the hand-over the parent has left the waiting list and the zombies
      are those there were. */
  lemma HandOverLists(s: State, value: int, p: Addr, a: Addr)
    requires Partition(s) && p in s.waiting && HandOver(Die(s, value), p).mode != Fault
    ensures a in HandOver(Die(s, value), p).waiting ==> a in s.waiting && a != p
    ensures a in HandOver(Die(s, value), p).zombies ==> a in s.zombies
  {
    Exclusive(s, s.running);
    Exclusive(s, p);
    OccDetach(s.waiting, p, a);
    OccIn(Detach(s.waiting, p), a);
    OccAppend(s.zombies, s.running, a);
    OccDetach(s.zombies + [s.running], s.running, a);
    OccIn(Detach(s.zombies + [s.running], s.running), a);
    OccIn(s.zombies, a);
  }

  lemma HandOverOthers(s: State, value: int, p: Addr, a: Addr)
    requires CanDie(s) && HandOver(Die(s, value), p).mode != Fault
    ensures var s' := HandOver(Die(s, value), p);
            && ParentOf(s', a) == ParentOf(s, a) && Pid(s', a) == Pid(s, a) && CallOf(s', a) == CallOf(s, a)
            && (a != p ==> Kids(s', a) == Kids(Die(s, value), a))
  {
    DieRelations(s, value, a);
  }

  lemma HandOverWakeups(s: State, value: int, p: Addr)
    requires CanDie(s) && Partition(s) && KidsOk(s) && NoLostWakeup(s)
    requires p in s.waiting && HandOver(Die(s, value), p).mode != Fault
    ensures NoLostWakeup(HandOver(Die(s, value), p))
  {
    var s' := HandOver(Die(s, value), p);
    Exclusive(s, s.running);
    forall h, c | h in s'.waiting && c in Kids(s', h) && ParentOf(s', c) == Some(h) && c in s'.zombies
      ensures !WaitsFor(s', h, c)
    {
      HandOverLists(s, value, p, h);
      HandOverLists(s, value, p, c);
      HandOverOthers(s, value, p, h);
      HandOverOthers(s, value, p, c);
      DieRelations(s, value, h);
    }
  }

  lemma HandOverRelations(s: State, value: int, p: Addr)
    requires CanDie(s) && FamilyOk(s) && PidsOk(s) && DeliveriesOk(s) && p < |s.pcbs| && p != s.running
    requires s.running in Kids(Die(s, value), p)
    ensures HandOver(Die(s, value), p).mode == s.mode
    ensures FamilyOk(HandOver(Die(s, value), p))
    ensures PidsOk(HandOver(Die(s, value), p)) && DeliveriesOk(HandOver(Die(s, value), p))
  {
    var dead := Die(s, value);
    assert Occ(dead.zombies, s.running) == 1 by {
      OccIn(s.zombies, s.running);
      OccAppend(s.zombies, s.running, s.running);
    }
    assert FamilyOk(dead) by { DieFamily(s, value); }
    assert PidsOk(dead) && DeliveriesOk(dead) by { DiePids(s, value); }
    assert HandOver(dead, p).mode == s.mode && Removed(dead, HandOver(dead, p), p, s.running) by {
      HandOverRemoves(s, value, p);
    }
    RemovedRelations(dead, HandOver(dead, p), p, s.running);
  }

  lemma HandOverGenealogy(s: State, value: int, p: Addr)
    requires CanDie(s) && Partition(s) && GenealogyOk(s) && p in s.waiting && p < |s.pcbs| && p != s.running
    requires s.running in Kids(Die(s, value), p) && s.mode == Active
    ensures HandOver(Die(s, value), p).mode == Active && GenealogyOk(HandOver(Die(s, value), p))
  {
    HandOverRelations(s, value, p);
    HandOverWakeups(s, value, p);
  }

  lemma StartFirstGenealogy(s: State, value: int)
    requires CanDie(s) && Partition(s) && StatusOk(s) && GenealogyOk(s) && s.ready != []
    requires ParentOf(s, s.running).Some?
    requires !Answers(At(Die(s, value).pcbs, ParentOf(s, s.running).value), Pid(s, s.running))
    ensures GenealogyOk(StartFirst(Die(s, value)))
  {
    DieFamily(s, value);
    DiePids(s, value);
    DieWakeups(s, value);
    QuietGenealogy(Die(s, value), StartFirst(Die(s, value)));
  }

  // ----- Wait -----

  /** What the scan of the children settles on. */
  lemma {:induction false} AwaitedChild(pcbs: seq<Pcb>, kids: seq<Addr>, pid: int)
    requires kids != []
    ensures Awaited(pcbs, kids, pid) in kids
    ensures pid == 0 && At(pcbs, Awaited(pcbs, kids, pid)).status != Zombie ==>
              forall k :: k in kids ==> At(pcbs, k).status != Zombie
    ensures pid != 0 && At(pcbs, Awaited(pcbs, kids, pid)).pid != pid ==>
              Awaited(pcbs, kids, pid) == kids[|kids| - 1] && forall k :: k in kids ==> At(pcbs, k).pid != pid
  {
    if |kids| > 1 {
      AwaitedChild(pcbs, kids[1..], pid);
    }
  }

  /** Blocking in wait leaves no zombie behind that the call was after. */
  lemma BlockWakeups(s: State, pid: int, result: int)
    requires Partition(s) && StatusOk(s) && FamilyOk(s) && PidsOk(s) && NoLostWakeup(s)
    requires CallOf(s, s.running) == Wait(pid, result)
    requires Kids(s, s.running) != [] && s.ready != []
    requires At(s.pcbs, Awaited(s.pcbs, Kids(s, s.running), pid)).status != Zombie
    ensures NoLostWakeup(RunFirst(Suspend(s)))
  {
    var s' := RunFirst(Suspend(s));
    var me := s.running;
    var kid := Awaited(s.pcbs, Kids(s, me), pid);
    AwaitedChild(s.pcbs, Kids(s, me), pid);
    forall h, c | h in s'.waiting && c in Kids(s', h) && ParentOf(s', c) == Some(h) && c in s'.zombies
      ensures !WaitsFor(s', h, c)
    {
      assert Kids(s', h) == Kids(s, h) && ParentOf(s', c) == ParentOf(s, c) && CallOf(s', h) == CallOf(s, h)
             && Pid(s', c) == Pid(s, c);
      if h == me && kid != c {
        assert Occupied(s, c) && Occupied(s, kid);
      }
    }
  }

  lemma BlockGenealogy(s: State, pid: int, result: int)
    requires Partition(s) && StatusOk(s) && GenealogyOk(s)
    requires CallOf(s, s.running) == Wait(pid, result)
    requires Kids(s, s.running) != [] && s.ready != []
    requires At(s.pcbs, Awaited(s.pcbs, Kids(s, s.running), pid)).status != Zombie
    ensures GenealogyOk(RunFirst(Suspend(s)))
  {
    var s' := RunFirst(Suspend(s));
    QuietFamily(s, s');
    QuietPids(s, s');
    QuietDeliveries(s, s');
    BlockWakeups(s, pid, result);
  }
}

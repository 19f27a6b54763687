/** When the bounded buffer can come to a deadlock: exactly if some of the
    exposed workers can be made to give up without whom the rest cannot finish. */
module BoundedBufferDropouts {
  import opened Lists
  import opened CountingSemaphore
  import opened BoundedBuffer
  import opened BoundedBufferProof
  import opened BoundedBufferLiveness
  import opened BoundedBufferDeadlock
  import opened BoundedBufferStuck

  /** The workers of `out` can all be made to give up: each has work and enters
      its loop with a value other than 0, and if there are producers among them
      the other producers have work enough to fill the buffer. */
  ghost predicate CanGiveUp(s: State, out: set<nat>) {
    && (forall i :: i in out ==> i < |s.workers| && s.workers[i].quota > 0 && s.workers[i].ret != 0)
    && (Total(Gone(Producer), Dropped(s.workers, out)) > 0 ==>
          Total(Stay(Producer), Dropped(s.workers, out)) >= |s.buf.cells|)
  }

  /** ... and then the rest cannot all finish. */
  ghost predicate Fatal(s: State, out: set<nat>) {
    var ws := Dropped(s.workers, out);
    CanGiveUp(s, out) && (Unbalanced(ws, |s.buf.cells|) || UsedUp(ws, |s.buf.cells|))
  }

  // ----- Luring the chosen workers -----

  /** What a first wait that blocks leaves of a worker. */
  function Blocked(w: Worker): Worker { w.(pc := CheckSlot, on := Some(SlotOf(w.role))) }

  predicate Due(w: Worker, r: Role, chosen: bool) {
    chosen && w.role == r ==> w.pc == WaitSlot && w.on == None && w.ret != 0
  }

  function LuredTo(ws: seq<Worker>, out: set<nat>, r: Role, k: nat): seq<Worker> {
    seq(|ws|, i requires 0 <= i < |ws| => if i in out && i < k && ws[i].role == r then Blocked(ws[i]) else ws[i])
  }

  lemma LureOne(s: State, r: Role, i: nat)
    requires Inv(s) && Get(s.sems, SlotOf(r)).count <= 0
    requires i < |s.workers| && s.workers[i].role == r && s.workers[i].pc == WaitSlot && s.workers[i].on == None
    ensures var s' := Step(s, Turn(i, None));
            && Inv(s') && s'.workers == s.workers[i := Blocked(s.workers[i])]
            && Get(s'.sems, SlotOf(r)).count <= 0 && |s'.buf.cells| == |s.buf.cells|
            && (forall q :: q != r ==> Get(s'.sems, SlotOf(q)) == Get(s.sems, SlotOf(q)))
  {
    StepKeepsInv(s, Turn(i, None));
  }

  lemma LuredNext(ws: seq<Worker>, out: set<nat>, r: Role, k: nat)
    requires k < |ws|
    ensures var lured := LuredTo(ws, out, r, k);
            && lured[k] == ws[k]
            && LuredTo(ws, out, r, k + 1) == if k in out && ws[k].role == r then lured[k := Blocked(ws[k])] else lured
  {
  }

  lemma ExecSnoc(s: State, first: seq<Turn>, t: Turn)
    requires |s.buf.cells| > 0
    ensures Exec(s, first + [t]) == Step(Exec(s, first), t)
  {
    ExecAppend(s, first, [t]);
    ExecCons(Exec(s, first), t, []);
    assert [t] + [] == [t];
  }

  /** One after the other, the chosen workers of a side without tokens wait and
      are misled; the kernel switches to other processes. */
  lemma {:induction false} LureAll(s: State, out: set<nat>, r: Role, k: nat) returns (schedule: seq<Turn>)
    requires Inv(s) && Get(s.sems, SlotOf(r)).count <= 0 && k <= |s.workers|
    requires forall i :: 0 <= i < |s.workers| ==> Due(s.workers[i], r, i in out)
    ensures LuredState(s, Exec(s, schedule), out, r, k)
  {
    schedule := [];
    if k == 0 {
      assert LuredTo(s.workers, out, r, 0) == s.workers;
    } else {
      schedule := LureAll(s, out, r, k - 1);
      var s1 := Exec(s, schedule);
      LuredNext(s.workers, out, r, k - 1);
      if k - 1 in out && s.workers[k - 1].role == r {
        assert Due(s.workers[k - 1], r, true);
        LureOne(s1, r, k - 1);
        ExecSnoc(s, schedule, Turn(k - 1, None));
        schedule := schedule + [Turn(k - 1, None)];
      }
    }
  }

  ghost predicate LuredState(s: State, s': State, out: set<nat>, r: Role, k: nat) {
    && Inv(s') && s'.workers == LuredTo(s.workers, out, r, k) && |s'.buf.cells| == |s.buf.cells|
    && Get(s'.sems, SlotOf(r)).count <= 0
    && forall q :: q != r ==> Get(s'.sems, SlotOf(q)) == Get(s.sems, SlotOf(q))
  }

  // ----- All of them misled -----

  /** The chosen are misled, the producers among them still blocked; nobody else
      is misled or queued for a slot, and no other consumer has begun. */
  predicate Poise(w: Worker, chosen: bool) {
    if chosen then Misled(w) && (w.role == Producer ==> w.on.Some?)
    else Patient(w, false) && w.on != Some(SlotOf(w.role))
  }

  ghost predicate Poised(s: State, out: set<nat>) {
    Inv(s) && forall k :: 0 <= k < |s.workers| ==> Poise(s.workers[k], k in out)
  }

  lemma PoisedQueue(s: State, out: set<nat>, r: Role)
    requires Poised(s, out)
    ensures OutFirst(Get(s.sems, SlotOf(r)).queue, out)
  {
    var q := Get(s.sems, SlotOf(r)).queue;
    assert QueueOk(Get(s.sems, SlotOf(r)), SlotOf(r), s.workers);
    forall k | 0 <= k < |q| ensures q[k] in out {
      assert WorkerOk(s.workers[q[k]]) && Poise(s.workers[q[k]], q[k] in out);
    }
  }

  lemma PoisedCounts(s: State, out: set<nat>)
    requires Poised(s, out)
    ensures Total(Lured(Producer), s.workers) + Total(Posts(Consumer), s.workers)
            == Total(Gone(Producer), Dropped(s.workers, out))
  {
    var ws := Dropped(s.workers, out);
    forall k | 0 <= k < |s.workers|
      ensures Weight(Lured(Producer), s.workers[k]) == Weight(Gone(Producer), ws[k])
      ensures Weight(Posts(Consumer), s.workers[k]) == 0
    {
      assert WorkerOk(s.workers[k]) && Poise(s.workers[k], k in out);
      PoisedWeights(s.workers[k], k in out);
      GoneWeight(s.workers, out, Producer, k);
    }
    TotalsCompare(Lured(Producer), s.workers, Gone(Producer), ws);
    TotalsCompare(Gone(Producer), ws, Lured(Producer), s.workers);
    NonePosted(s.workers);
  }

  lemma PoisedWeights(w: Worker, chosen: bool)
    requires WorkerOk(w) && Poise(w, chosen)
    ensures Weight(Lured(Producer), w) == One(w.role == Producer && (chosen || w.pc == GivenUp))
    ensures Weight(Posts(Consumer), w) == 0
  {
  }

  lemma PoisedServed(s: State, out: set<nat>)
    requires Poised(s, out)
    ensures OnlyMisled(s, out) && OutServed(s.workers, out)
  {
    forall k | 0 <= k < |s.workers|
      ensures Misled(s.workers[k]) <==> k in out
      ensures k !in out && s.workers[k].role == Consumer ==> !Flying(s.workers[k])
    {
      assert WorkerOk(s.workers[k]) && Poise(s.workers[k], k in out);
    }
  }

  lemma PoisedDeadlocks(s: State, out: set<nat>) returns (schedule: seq<Turn>)
    requires Poised(s, out)
    requires var ws := Dropped(s.workers, out); Unbalanced(ws, |s.buf.cells|) || UsedUp(ws, |s.buf.cells|)
    ensures Deadlocked(Exec(s, schedule))
  {
    PoisedServed(s, out);
    PoisedCounts(s, out);
    PoisedQueue(s, out, Producer);
    PoisedQueue(s, out, Consumer);
    schedule := SteadyDeadlocks(s, out);
  }

  // ----- From the start -----

  lemma ChosenProducer(ws: seq<Worker>, out: set<nat>, k: nat)
    requires k < |ws| && k in out && ws[k].role == Producer
    ensures Total(Gone(Producer), Dropped(ws, out)) > 0
  {
    TotalAtLeast(Gone(Producer), Dropped(ws, out), k);
  }

  /** First the chosen consumers are lured: the buffer is empty. */
  lemma LureConsumers(s: State, length: nat, out: set<nat>) returns (schedule: seq<Turn>)
    requires Initial(s, length) && Guarded(s.workers) && CanGiveUp(s, out)
    ensures var s' := Exec(s, schedule);
            && Inv(s') && |s'.workers| == |s.workers| && s'.sems.empty.count == |s'.buf.cells| == length
            && (forall k :: 0 <= k < |s.workers| ==>
                Patient(s'.workers[k], k in out) && s'.workers[k].role == s.workers[k].role)
            && (forall k :: 0 <= k < |s.workers| && k !in out ==> s'.workers[k].on == None)
  {
    InitialInv(s, length);
    schedule := LureAll(s, out, Consumer, |s.workers|);
    var s' := Exec(s, schedule);
    assert Get(s'.sems, SlotOf(Producer)) == Get(s.sems, SlotOf(Producer));
    forall k | 0 <= k < |s.workers|
      ensures Patient(s'.workers[k], k in out) && s'.workers[k].role == s.workers[k].role
      ensures k !in out ==> s'.workers[k].on == None
    {
      LuredIsPatient(s.workers[k], s'.workers[k], k in out);
    }
  }

  lemma LuredIsPatient(w: Worker, w': Worker, chosen: bool)
    requires w.left == w.quota && w.pc == LoopTop(w.left) && w.on == None && (chosen ==> w.quota > 0 && w.ret != 0)
    requires w' == if chosen && w.role == Consumer then Blocked(w) else w
    ensures Patient(w', chosen) && w'.role == w.role && (!chosen ==> w'.on == None)
  {
  }

  /** Then, if producers are chosen, the others fill the buffer and they are lured. */
  lemma LureProducers(s: State, out: set<nat>) returns (schedule: seq<Turn>)
    requires Filling(s, out)
    ensures Poised(Exec(s, schedule), out)
  {
    var first := FillUp(s, out);
    var full := Exec(s, first);
    forall k | 0 <= k < |full.workers| ensures Due(full.workers[k], Producer, k in out) {
      assert Patient(full.workers[k], k in out);
    }
    var rest := LureAll(full, out, Producer, |full.workers|);
    ExecAppend(s, first, rest);
    schedule := first + rest;
    FullIsPoised(full, Exec(full, rest), out);
  }

  lemma FullIsPoised(full: State, s: State, out: set<nat>)
    requires Filling(full, out) && full.sems.empty.count == 0
    requires LuredState(full, s, out, Producer, |full.workers|)
    ensures Poised(s, out)
  {
    assert QueueOk(Get(full.sems, Empty), Empty, full.workers);
    forall k | 0 <= k < |s.workers| ensures Poise(s.workers[k], k in out) {
      assert WorkerOk(full.workers[k]) && Patient(full.workers[k], k in out);
    }
  }

  lemma PoisedRun(s: State, length: nat, out: set<nat>) returns (schedule: seq<Turn>)
    requires Initial(s, length) && Guarded(s.workers) && CanGiveUp(s, out)
    ensures Poised(Exec(s, schedule), out)
  {
    schedule := LureConsumers(s, length, out);
    var s1 := Exec(s, schedule);
    if Total(Gone(Producer), Dropped(s.workers, out)) > 0 {
      FirstKeepsBalance(s, length, schedule, out);
      var rest := LureProducers(s1, out);
      ExecAppend(s, schedule, rest);
      schedule := schedule + rest;
    } else {
      forall k | 0 <= k < |s1.workers| ensures Poise(s1.workers[k], k in out) {
        if k in out && s.workers[k].role == Producer {
          ChosenProducer(s.workers, out, k);
        }
      }
    }
  }

  lemma FirstKeepsBalance(s: State, length: nat, schedule: seq<Turn>, out: set<nat>)
    requires Initial(s, length)
    requires Inv(Exec(s, schedule)) && forall k :: 0 <= k < |s.workers| ==>
               Patient(Exec(s, schedule).workers[k], k in out)
    ensures var ws, ws' := Dropped(s.workers, out), Dropped(Exec(s, schedule).workers, out);
            forall r :: Total(Stay(r), ws') == Total(Stay(r), ws)
  {
    var s' := Exec(s, schedule);
    forall k | 0 <= k < |s.workers| && k !in out ensures s'.workers[k].pc != GivenUp {
      assert WorkerOk(s'.workers[k]) && Patient(s'.workers[k], false);
    }
    RunKeepsBalance(s, schedule, out);
  }

  lemma FatalDeadlocks(s: State, length: nat, out: set<nat>) returns (schedule: seq<Turn>)
    requires Initial(s, length) && Guarded(s.workers) && Fatal(s, out)
    ensures Deadlocked(Exec(s, schedule))
  {
    var first := PoisedRun(s, length, out);
    var s' := Exec(s, first);
    forall k | 0 <= k < |s.workers| && k !in out ensures s'.workers[k].pc != GivenUp {
      assert WorkerOk(s'.workers[k]) && Poise(s'.workers[k], false);
    }
    RunKeepsBalance(s, first, out);
    var rest := PoisedDeadlocks(s', out);
    ExecAppend(s, first, rest);
    schedule := first + rest;
  }

  // ----- What a deadlock shows -----

  ghost predicate SomeMisled(ws: seq<Worker>, r: Role) {
    exists i :: 0 <= i < |ws| && ws[i].role == r && Misled(ws[i])
  }

  /** A producer is misled only after others have asked for every place, and is
      released only by a consumer's post. */
  ghost predicate Paid(s: State) {
    && (SomeMisled(s.workers, Producer) ==> Total(Fair(Producer), s.workers) >= |s.buf.cells|)
    && Total(Freed(Producer), s.workers) <= Total(Posts(Consumer), s.workers)
  }

  lemma FairIsWaits(ws: seq<Worker>)
    requires !SomeMisled(ws, Producer)
    ensures Total(Fair(Producer), ws) == Total(Waits(Producer), ws)
  {
    forall k | 0 <= k < |ws| ensures Weight(Fair(Producer), ws[k]) == Weight(Waits(Producer), ws[k]) {
    }
    TotalCompare(Fair(Producer), Waits(Producer), ws);
    TotalCompare(Waits(Producer), Fair(Producer), ws);
  }

  lemma WaitWeights(w: Worker, w': Worker)
    requires WorkerOk(w) && w.pc == WaitSlot && w.on == None
    requires w' == w.(pc := CheckSlot, on := Some(SlotOf(w.role))) || w' == w.(pc := CheckSlot, ret := 0)
    ensures Weight(Freed(Producer), w) == Weight(Freed(Producer), w') == 0
    ensures Weight(Posts(Consumer), w) == Weight(Posts(Consumer), w')
    ensures Weight(Fair(Producer), w') == Weight(Fair(Producer), w) + One(w.role == Producer && !Misled(w'))
  {
  }

  lemma WaitKeepsPaid(s: State, i: nat)
    requires Inv(s) && Paid(s) && i < |s.workers| && Enabled(s.workers[i]) && s.workers[i].pc == WaitSlot
    ensures Paid(Act(s, i))
  {
    var w, w' := s.workers[i], Act(s, i).workers[i];
    assert WorkerOk(w) && Act(s, i).workers == s.workers[i := w'];
    WaitWeights(w, w');
    TotalUpdate(Freed(Producer), s.workers, i, w');
    TotalUpdate(Posts(Consumer), s.workers, i, w');
    TotalUpdate(Fair(Producer), s.workers, i, w');
    if SomeMisled(Act(s, i).workers, Producer) && !SomeMisled(s.workers, Producer) {
      NewlyMisled(s, i);
    }
  }

  lemma NewlyMisled(s: State, i: nat)
    requires Inv(s) && i < |s.workers| && Enabled(s.workers[i]) && s.workers[i].pc == WaitSlot
    requires !SomeMisled(s.workers, Producer) && SomeMisled(Act(s, i).workers, Producer)
    ensures Total(Fair(Producer), s.workers) >= |s.buf.cells|
  {
    FairIsWaits(s.workers);
    PostsNonNegative(s, Consumer);
    assert Act(s, i).workers == s.workers[i := Act(s, i).workers[i]];
  }

  lemma SameMisled(ws: seq<Worker>, ws': seq<Worker>)
    requires |ws| == |ws'|
    requires forall k :: 0 <= k < |ws| && ws'[k].role == Producer && Misled(ws'[k]) ==>
               ws[k].role == Producer && Misled(ws[k])
    ensures SomeMisled(ws', Producer) ==> SomeMisled(ws, Producer)
  {
  }

  lemma PostKeepsPaid(s: State, i: nat)
    requires Inv(s) && Paid(s) && i < |s.workers| && Enabled(s.workers[i]) && s.workers[i].pc == PostItem
    ensures Paid(Act(s, i))
  {
    var w := s.workers[i];
    AtPostItemIs(s, i);
    PostItemIs(s, i);
    var freed := PostItemFrees(s, i);
    PostTotal(Freed(Producer), s, i, ItemOf(w.role), NextRound(w));
    PostTotal(Posts(Consumer), s, i, ItemOf(w.role), NextRound(w));
    PostTotal(Fair(Producer), s, i, ItemOf(w.role), NextRound(w));
    NextRoundWeights(w);
    NextRoundFair(w);
    if freed.Some? {
      HandOffWeights(s.workers[freed.value]);
      HandOffFair(s.workers[freed.value]);
    }
    forall k | 0 <= k < |s.workers|
      ensures Act(s, i).workers[k].role == s.workers[k].role && (Misled(Act(s, i).workers[k]) ==> Misled(s.workers[k]))
    {
      if k != i {
        OthersKept(s, i, k);
      }
    }
    SameMisled(s.workers, Act(s, i).workers);
  }

  lemma NextRoundFair(w: Worker)
    requires WorkerOk(w) && Enabled(w) && w.pc == PostItem
    ensures Weight(Fair(Producer), NextRound(w)) == Weight(Fair(Producer), w)
    ensures Weight(Freed(Producer), NextRound(w)) == Weight(Freed(Producer), w) == 0
  {
  }

  lemma HandOffFair(w: Worker)
    requires w.on.Some?
    ensures Weight(Fair(Producer), w.(on := None)) == Weight(Fair(Producer), w)
    ensures Weight(Freed(Producer), w) == 0 && Weight(Freed(Producer), w.(on := None)) <= One(w.role == Producer)
  {
  }

  /** Steps that change no count. */
  predicate SameCounts(w: Worker, w': Worker) {
    && w'.role == w.role && (Misled(w') <==> Misled(w))
    && Weight(Freed(Producer), w') == Weight(Freed(Producer), w)
    && Weight(Posts(Consumer), w') == Weight(Posts(Consumer), w)
    && Weight(Fair(Producer), w') == Weight(Fair(Producer), w)
  }

  lemma SamePaid(s: State, s': State)
    requires Paid(s) && |s'.workers| == |s.workers| && |s'.buf.cells| == |s.buf.cells|
    requires forall k :: 0 <= k < |s.workers| ==> SameCounts(s.workers[k], s'.workers[k])
    ensures Paid(s')
  {
    TotalsCompare(Freed(Producer), s'.workers, Freed(Producer), s.workers);
    TotalsCompare(Posts(Consumer), s.workers, Posts(Consumer), s'.workers);
    TotalsCompare(Fair(Producer), s.workers, Fair(Producer), s'.workers);
    SameMisled(s.workers, s'.workers);
  }

  lemma ActLength(s: State, i: nat)
    requires |s.buf.cells| > 0
    ensures |Act(s, i).buf.cells| == |s.buf.cells| && |Act(s, i).workers| == |s.workers|
  {
  }

  lemma OtherKeepsPaid(s: State, i: nat)
    requires Inv(s) && Paid(s) && i < |s.workers| && Enabled(s.workers[i])
    requires s.workers[i].pc != WaitSlot && s.workers[i].pc != PostItem
    ensures Paid(Act(s, i))
  {
    ActLength(s, i);
    forall k | 0 <= k < |s.workers| ensures SameCounts(s.workers[k], Act(s, i).workers[k]) {
      assert WorkerOk(s.workers[k]);
      if k == i {
        OwnCounts(s, i);
      } else if Act(s, i).workers[k] != s.workers[k] {
        OthersKept(s, i, k);
        FreedFromMutex(s, i, k);
      }
    }
    SamePaid(s, Act(s, i));
  }

  lemma OwnCounts(s: State, i: nat)
    requires |s.buf.cells| > 0 && i < |s.workers| && Enabled(s.workers[i]) && WorkerOk(s.workers[i])
    requires s.workers[i].pc != WaitSlot && s.workers[i].pc != PostItem
    requires Act(s, i).workers[i].on == None || Act(s, i).workers[i].pc == CheckMutex
    ensures SameCounts(s.workers[i], Act(s, i).workers[i])
  {
  }

  lemma FreedFromMutex(s: State, i: nat, k: nat)
    requires Inv(s) && i < |s.workers| && Enabled(s.workers[i]) && s.workers[i].pc != PostItem
    requires k < |s.workers| && k != i && Act(s, i).workers[k] != s.workers[k]
    ensures SameCounts(s.workers[k], s.workers[k].(on := None))
  {
    var name := MutexOf(s.workers[i].role);
    PostedMutex(s, i, k);
    assert QueueOk(Get(s.sems, name), name, s.workers);
    assert WorkerOk(s.workers[k]);
    OffMutex(s.workers[k]);
  }

  lemma PostedMutex(s: State, i: nat, k: nat)
    requires |s.buf.cells| > 0 && i < |s.workers| && Enabled(s.workers[i]) && s.workers[i].pc != PostItem
    requires k < |s.workers| && k != i && Act(s, i).workers[k] != s.workers[k]
    ensures Released(Get(s.sems, MutexOf(s.workers[i].role))) == Some(k)
  {
  }

  lemma OffMutex(w: Worker)
    requires WorkerOk(w) && (w.on == Some(Me1) || w.on == Some(Me2))
    ensures SameCounts(w, w.(on := None))
  {
  }

  lemma ResumeKeepsPaid(s: State, next: Option<nat>)
    requires WorkersOk(s.workers) && Paid(s)
    ensures Paid(Resume(s, next))
  {
    if next.Some? && next.value < |s.workers| && Enabled(s.workers[next.value]) {
      var j, w := next.value, s.workers[next.value];
      var ws := s.workers[j := w.(ret := 0)];
      Undeceived(w);
      TotalUpdate(Freed(Producer), s.workers, j, w.(ret := 0));
      TotalUpdate(Posts(Consumer), s.workers, j, w.(ret := 0));
      TotalUpdate(Fair(Producer), s.workers, j, w.(ret := 0));
      SameMisled(s.workers, ws);
    }
  }

  lemma Undeceived(w: Worker)
    requires WorkerOk(w)
    ensures !Misled(w.(ret := 0)) && Weight(Freed(Producer), w.(ret := 0)) <= Weight(Freed(Producer), w)
    ensures Weight(Posts(Consumer), w.(ret := 0)) == Weight(Posts(Consumer), w)
    ensures Weight(Fair(Producer), w.(ret := 0)) >= Weight(Fair(Producer), w)
  {
  }

  lemma StepKeepsPaid(s: State, t: Turn)
    requires Inv(s) && Paid(s)
    ensures Paid(Step(s, t))
  {
    var i := t.who;
    if i < |s.workers| && Enabled(s.workers[i]) {
      if s.workers[i].pc == WaitSlot {
        WaitKeepsPaid(s, i);
      } else if s.workers[i].pc == PostItem {
        PostKeepsPaid(s, i);
      } else {
        OtherKeepsPaid(s, i);
      }
      ActKeepsInv(s, i);
      ResumeKeepsPaid(Act(s, i), t.next);
    }
  }

  lemma {:induction false} RunKeepsPaid(s: State, schedule: seq<Turn>)
    requires Inv(s) && Paid(s)
    ensures Inv(Exec(s, schedule)) && Paid(Exec(s, schedule))
    decreases |schedule|
  {
    if schedule != [] {
      StepKeepsInv(s, schedule[0]);
      StepKeepsPaid(s, schedule[0]);
      RunKeepsPaid(Step(s, schedule[0]), schedule[1..]);
    }
  }

  lemma StartIsPaid(s: State, length: nat)
    requires Initial(s, length)
    ensures Paid(s)
  {
    forall k | 0 <= k < |s.workers|
      ensures Weight(Freed(Producer), s.workers[k]) == Weight(Posts(Consumer), s.workers[k]) == 0
    {
    }
    TotalNonNegative(Freed(Producer), s.workers);
    TotalNonNegative(Posts(Consumer), s.workers);
  }

  lemma StayWeights(w: Worker, r: Role)
    requires WorkerOk(w)
    ensures Weight(Posts(r), w) <= Weight(Stay(r), w) && Weight(Fair(r), w) <= Weight(Stay(r), w)
  {
  }

  lemma AskedWeights(w: Worker, r: Role)
    requires WorkerOk(w)
    ensures Weight(Waits(r), w) <= Weight(Stay(r), w) + Weight(Gone(r), w)
  {
  }

  lemma StayCounts(ws: seq<Worker>, r: Role)
    requires WorkersOk(ws)
    ensures Total(Posts(r), ws) <= Total(Stay(r), ws) && Total(Fair(r), ws) <= Total(Stay(r), ws)
    ensures Total(Waits(r), ws) <= Total(Stay(r), ws) + Total(Gone(r), ws)
  {
    forall k | 0 <= k < |ws|
      ensures Weight(Posts(r), ws[k]) <= Weight(Stay(r), ws[k]) && Weight(Fair(r), ws[k]) <= Weight(Stay(r), ws[k])
      ensures Weight(Waits(r), ws[k]) <= Weight(Stay(r), ws[k]) + Weight(Gone(r), ws[k])
    {
      assert WorkerOk(ws[k]);
      StayWeights(ws[k], r);
      AskedWeights(ws[k], r);
    }
    TotalCompare(Posts(r), Stay(r), ws);
    TotalCompare(Fair(r), Stay(r), ws);
    TotalsBelow(Waits(r), Stay(r), Gone(r), ws);
  }

  lemma {:induction false} TotalsBelow(m: Measure, m1: Measure, m2: Measure, ws: seq<Worker>)
    requires forall k :: 0 <= k < |ws| ==> Weight(m, ws[k]) <= Weight(m1, ws[k]) + Weight(m2, ws[k])
    ensures Total(m, ws) <= Total(m1, ws) + Total(m2, ws)
    decreases |ws|
  {
    if ws != [] {
      TotalsBelow(m, m1, m2, ws[1..]);
    }
  }

  /** A side without queue has done all the work of those that stayed. */
  lemma DoneSide(s: State, r: Role)
    requires Inv(s) && !SomeEnabled(s) && Get(s.sems, SlotOf(r)).count >= 0
    ensures Total(Posts(r), s.workers) >= Total(Stay(r), s.workers)
  {
    forall k | 0 <= k < |s.workers| ensures Weight(Stay(r), s.workers[k]) <= Weight(Posts(r), s.workers[k]) {
      DoneWorker(s, r, k);
    }
    TotalCompare(Stay(r), Posts(r), s.workers);
  }

  lemma DoneWorker(s: State, r: Role, k: nat)
    requires Inv(s) && !SomeEnabled(s) && Get(s.sems, SlotOf(r)).count >= 0 && k < |s.workers|
    ensures Weight(Stay(r), s.workers[k]) <= Weight(Posts(r), s.workers[k])
  {
    assert WorkerOk(s.workers[k]);
    if s.workers[k].role == r && s.workers[k].pc != Finished && s.workers[k].pc != GivenUp {
      StuckOffMutexes(s, k);
      BlockedOnSlot(s, k);
    }
  }

  /** When both sides are queued, those that gave up hold all places. */
  lemma AllPlacesGone(s: State)
    requires Inv(s) && !SomeEnabled(s) && s.sems.fill.count <= 0 && s.sems.empty.count <= 0
    ensures Total(Gone(Producer), s.workers) + Total(Gone(Consumer), s.workers) == |s.buf.cells|
  {
    forall k | 0 <= k < |s.workers|
      ensures Weight(Gone(Producer), s.workers[k]) + Weight(Gone(Consumer), s.workers[k])
              == Weight(InFlight, s.workers[k])
    {
      StuckPlaces(s, k);
    }
    TotalsAdd(Gone(Producer), Gone(Consumer), s.workers, InFlight, s.workers);
    TotalsBelow(InFlight, Gone(Producer), Gone(Consumer), s.workers);
  }

  lemma StuckPlaces(s: State, k: nat)
    requires Inv(s) && !SomeEnabled(s) && k < |s.workers|
    ensures Weight(Gone(Producer), s.workers[k]) + Weight(Gone(Consumer), s.workers[k])
            == Weight(InFlight, s.workers[k])
  {
    assert WorkerOk(s.workers[k]);
    if s.workers[k].pc != Finished && s.workers[k].pc != GivenUp {
      StuckOffMutexes(s, k);
    }
  }

  /** ... and some consumer has work left for the producers among them. */
  lemma ConsumersLeft(s: State, i: nat)
    requires Inv(s) && !SomeEnabled(s) && Paid(s)
    requires i < |s.workers| && s.workers[i].role == Consumer && s.workers[i].on.Some?
    ensures Total(Stay(Consumer), s.workers) > Total(Gone(Producer), s.workers)
  {
    var w := s.workers[i].(left := 0, pc := Finished);
    assert WorkerOk(s.workers[i]);
    var ws := s.workers[i := w];
    forall k | 0 <= k < |ws| ensures Weight(Posts(Consumer), ws[k]) <= Weight(Stay(Consumer), ws[k]) {
      assert WorkerOk(s.workers[k]);
    }
    TotalCompare(Posts(Consumer), Stay(Consumer), ws);
    TotalUpdate(Posts(Consumer), s.workers, i, w);
    TotalUpdate(Stay(Consumer), s.workers, i, w);
    GoneAreFreed(s.workers);
  }

  lemma GoneAreFreed(ws: seq<Worker>)
    requires WorkersOk(ws)
    ensures Total(Gone(Producer), ws) <= Total(Freed(Producer), ws)
  {
    forall k | 0 <= k < |ws| ensures Weight(Gone(Producer), ws[k]) <= Weight(Freed(Producer), ws[k]) {
      assert WorkerOk(ws[k]);
    }
    TotalCompare(Gone(Producer), Freed(Producer), ws);
  }

  lemma DeadlockIsFatal(s: State)
    requires Inv(s) && Paid(s) && Deadlocked(s)
    ensures Unbalanced(s.workers, |s.buf.cells|) || UsedUp(s.workers, |s.buf.cells|)
    ensures Total(Gone(Producer), s.workers) > 0 ==> Total(Stay(Producer), s.workers) >= |s.buf.cells|
  {
    StayCounts(s.workers, Producer);
    StayCounts(s.workers, Consumer);
    GoneMisled(s.workers);
    var i: nat :| i < |s.workers| && s.workers[i].on.Some?;
    BlockedOnSlot(s, i);
    if s.sems.fill.count >= 0 {
      DoneSide(s, Consumer);
    } else if s.sems.empty.count >= 0 {
      DoneSide(s, Producer);
    } else {
      AllPlacesGone(s);
      var k := SomeConsumerQueued(s);
      ConsumersLeft(s, k);
    }
  }

  lemma GoneMisled(ws: seq<Worker>)
    requires WorkersOk(ws)
    ensures Total(Gone(Producer), ws) > 0 ==> SomeMisled(ws, Producer)
  {
    if Total(Gone(Producer), ws) > 0 {
      var k := TotalWitness(Gone(Producer), ws);
      assert WorkerOk(ws[k]);
    }
  }

  lemma BlockedOnSlot(s: State, i: nat)
    requires Inv(s) && !SomeEnabled(s) && i < |s.workers| && s.workers[i].on.Some?
    ensures Get(s.sems, SlotOf(s.workers[i].role)).count < 0
  {
    assert WorkerOk(s.workers[i]);
    StuckOffMutexes(s, i);
    assert QueueOk(Get(s.sems, SlotOf(s.workers[i].role)), SlotOf(s.workers[i].role), s.workers);
  }

  lemma SomeConsumerQueued(s: State) returns (k: nat)
    requires Inv(s) && s.sems.fill.count < 0
    ensures k < |s.workers| && s.workers[k].role == Consumer && s.workers[k].on.Some?
  {
    assert QueueOk(Get(s.sems, Fill), Fill, s.workers);
    k := s.sems.fill.queue[0];
    assert WorkerOk(s.workers[k]);
  }

  ghost predicate CanDeadlock(s: State)
    requires |s.buf.cells| > 0
  {
    exists schedule: seq<Turn> :: Deadlocked(Exec(s, schedule))
  }

  /** From the start some schedule comes to where somebody is blocked and nobody
      can move, if and only if workers can be chosen that can all be made to give
      up and without whom the rest cannot all finish. */
  lemma DeadlockedExactly(s: State, length: nat)
    requires Initial(s, length) && Guarded(s.workers)
    ensures CanDeadlock(s) <==> exists out: set<nat> :: Fatal(s, out)
  {
    if CanDeadlock(s) {
      var schedule: seq<Turn> :| Deadlocked(Exec(s, schedule));
      var out := DeadlockShows(s, length, schedule);
    }
    if exists out: set<nat> :: Fatal(s, out) {
      var out: set<nat> :| Fatal(s, out);
      var schedule := FatalDeadlocks(s, length, out);
    }
  }

  lemma DeadlockShows(s: State, length: nat, schedule: seq<Turn>) returns (out: set<nat>)
    requires Initial(s, length) && Guarded(s.workers) && Deadlocked(Exec(s, schedule))
    ensures Fatal(s, out)
  {
    var s' := Exec(s, schedule);
    InitialInv(s, length);
    StartIsPaid(s, length);
    RunKeepsPaid(s, schedule);
    DeadlockIsFatal(s');
    out := set i: nat | i < |s.workers| && s'.workers[i].pc == GivenUp;
    assert Dropped(s'.workers, out) == s'.workers;
    RunKeepsBalance(s, schedule, out);
    forall i | i in out ensures s.workers[i].quota > 0 && s.workers[i].ret != 0 {
      assert WorkerOk(s'.workers[i]);
      RunKeepsSides(s, schedule, i);
      RunKeepsRet(s, schedule, i);
    }
  }

  lemma {:induction false} RunKeepsRet(s: State, schedule: seq<Turn>, c: nat)
    requires |s.buf.cells| > 0 && c < |s.workers| && Exec(s, schedule).workers[c].ret != 0
    ensures s.workers[c].ret != 0
    decreases |schedule|
  {
    if schedule != [] {
      RunKeepsRet(Step(s, schedule[0]), schedule[1..], c);
      RetAfter(s, schedule[0], c);
    }
  }
}

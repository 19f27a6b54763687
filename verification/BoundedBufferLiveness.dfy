/** What every schedule of the bounded buffer achieves: the invariants hold all
    along, every run comes to rest, and a completed one leaves the surplus. */
module BoundedBufferLiveness {
  import opened Lists
  import opened CountingSemaphore
  import opened BoundedBuffer
  import opened BoundedBufferProof

  predicate AllFinished(s: State) {
    forall i :: 0 <= i < |s.workers| ==> s.workers[i].pc == Finished
  }

  predicate SomeEnabled(s: State) {
    exists i :: 0 <= i < |s.workers| && Enabled(s.workers[i])
  }

  function Work(s: State, r: Role): int { Total(Quota(r), s.workers) }

  // ----- The start -----

  lemma {:induction false} SideAtStart(ws: seq<Worker>, r: Role)
    requires Guarded(ws)
    ensures Total(Unlocked(r), ws) == 0 || Total(Of(r), ws) == 1
    decreases |ws|
  {
    if ws != [] {
      assert Guarded(ws[1..]);
      SideAtStart(ws[1..], r);
      if ws[0].role == r && Total(Of(r), ws[1..]) != 0 {
        SomeoneElse(ws, r);
      }
      if ws[0].role == r {
        TotalCompare(Unlocked(r), Of(r), ws[1..]);
        TotalNonNegative(Unlocked(r), ws[1..]);
      }
    }
  }

  /** When the first worker of a side is not alone, everyone there is locked. */
  lemma SomeoneElse(ws: seq<Worker>, r: Role)
    requires Guarded(ws) && ws != [] && ws[0].role == r && Total(Of(r), ws[1..]) != 0
    ensures Total(Unlocked(r), ws) == 0
  {
    TotalNonNegative(Of(r), ws[1..]);
    var k := TotalWitness(Of(r), ws[1..]);
    assert ws[1..][k] == ws[k + 1];
    forall j | 0 <= j < |ws| ensures Weight(Unlocked(r), ws[j]) == 0 {
    }
    TotalNonNegative(Unlocked(r), ws);
  }

  lemma AtRest(m: Measure, s: State, length: nat)
    requires Initial(s, length)
    requires m == InFlight || m == Written || m == Holding
          || m == Posts(Producer) || m == Waits(Consumer) || m == Posts(Consumer) || m == Waits(Producer)
          || m == Busy(Producer) || m == Busy(Consumer) || m == Storing(Producer) || m == Storing(Consumer)
    ensures Total(m, s.workers) == 0
  {
    TotalNonNegative(m, s.workers);
  }

  lemma StartBalances(s: State, length: nat)
    requires Initial(s, length)
    ensures PlacesOk(s) && DepthOk(s) && FlowOk(s)
  {
    AtRest(InFlight, s, length);
    AtRest(Written, s, length);
    AtRest(Holding, s, length);
    AtRest(Posts(Producer), s, length);
    AtRest(Waits(Consumer), s, length);
    AtRest(Posts(Consumer), s, length);
    AtRest(Waits(Producer), s, length);
  }

  lemma StartSections(s: State, length: nat, r: Role)
    requires Initial(s, length) && Guarded(s.workers)
    ensures SectionOk(s, r)
  {
    SideAtStart(s.workers, r);
    AtRest(Busy(r), s, length);
  }

  lemma StartIndices(s: State, length: nat)
    requires Initial(s, length)
    ensures |s.buf.cells| > 0 && IndicesOk(s) && WindowOk(s)
  {
    AtRest(Storing(Producer), s, length);
    AtRest(Storing(Consumer), s, length);
    ModUnique(0, 0, 0, length);
    forall c | 0 <= c < length ensures Ticket(c, 0, length) >= 0 {
    }
  }

  lemma InitialInv(s: State, length: nat)
    requires Initial(s, length) && Guarded(s.workers)
    ensures Inv(s)
  {
    StartBalances(s, length);
    StartSections(s, length, Producer);
    StartSections(s, length, Consumer);
    StartIndices(s, length);
    forall name: SemName ensures QueueOk(Get(s.sems, name), name, s.workers) {
    }
  }

  // ----- Every run -----

  /** Safety of every schedule. */
  lemma {:induction false} RunKeepsInv(s: State, schedule: seq<Turn>)
    requires Inv(s)
    ensures Inv(Exec(s, schedule))
    decreases |schedule|
  {
    if schedule != [] {
      StepKeepsInv(s, schedule[0]);
      RunKeepsInv(Step(s, schedule[0]), schedule[1..]);
    }
  }

  lemma FixedTotals(ws: seq<Worker>, i: nat, w: Worker, r: Role)
    requires i < |ws| && w.role == ws[i].role && w.quota == ws[i].quota
    ensures Total(Quota(r), ws[i := w]) == Total(Quota(r), ws)
  {
    TotalUpdate(Quota(r), ws, i, w);
  }

  lemma UnblockKeepsWork(ws: seq<Worker>, who: Option<nat>, r: Role)
    ensures Total(Quota(r), Unblock(ws, who)) == Total(Quota(r), ws)
  {
    if who.Some? && who.value < |ws| {
      FixedTotals(ws, who.value, ws[who.value].(on := None), r);
    }
  }

  lemma ActKeepsWork(s: State, i: nat, r: Role)
    requires |s.buf.cells| > 0
    ensures Work(Act(s, i), r) == Work(s, r)
  {
    if i < |s.workers| && Enabled(s.workers[i]) {
      var w := s.workers[i];
      match w.pc {
        case PostMutex =>
          FixedTotals(s.workers, i, w.(pc := PostItem, ret := 0), r);
          UnblockKeepsWork(s.workers[i := w.(pc := PostItem, ret := 0)], Released(Get(s.sems, MutexOf(w.role))), r);
        case PostItem =>
          var left := if w.left > 0 then w.left - 1 else 0;
          var after := w.(left := left, pc := LoopTop(left), ret := 0);
          FixedTotals(s.workers, i, after, r);
          UnblockKeepsWork(s.workers[i := after], Released(Get(s.sems, ItemOf(w.role))), r);
        case Finished =>
        case GivenUp =>
        case _ =>
          FixedTotals(s.workers, i, Act(s, i).workers[i], r);
      }
    }
  }

  lemma StepKeepsWork(s: State, t: Turn, r: Role)
    requires |s.buf.cells| > 0
    ensures Work(Step(s, t), r) == Work(s, r)
  {
    var s' := Act(s, t.who);
    ActKeepsWork(s, t.who, r);
    if Blocks(s, t.who) && t.next.Some? && t.next.value < |s'.workers| {
      FixedTotals(s'.workers, t.next.value, s'.workers[t.next.value].(ret := 0), r);
    }
  }

  lemma {:induction false} RunKeepsWork(s: State, schedule: seq<Turn>, r: Role)
    requires |s.buf.cells| > 0
    ensures Work(Exec(s, schedule), r) == Work(s, r)
    decreases |schedule|
  {
    if schedule != [] {
      StepKeepsWork(s, schedule[0], r);
      RunKeepsWork(Step(s, schedule[0]), schedule[1..], r);
    }
  }

  // ----- Termination and the final state -----

  lemma PostMutexProgress(s: State, i: nat)
    requires |s.buf.cells| > 0 && i < |s.workers| && Enabled(s.workers[i]) && WorkerOk(s.workers[i])
    requires s.workers[i].pc == PostMutex
    requires QueueOk(Get(s.sems, MutexOf(s.workers[i].role)), MutexOf(s.workers[i].role), s.workers)
    ensures Total(StepsLeft, Act(s, i).workers) == Total(StepsLeft, s.workers) - 1
  {
    PostProgress(s, i, MutexOf(s.workers[i].role), s.workers[i].(pc := PostItem, ret := 0));
  }

  lemma PostItemProgress(s: State, i: nat)
    requires |s.buf.cells| > 0 && i < |s.workers| && Enabled(s.workers[i]) && WorkerOk(s.workers[i])
    requires s.workers[i].pc == PostItem
    requires QueueOk(Get(s.sems, ItemOf(s.workers[i].role)), ItemOf(s.workers[i].role), s.workers)
    ensures Total(StepsLeft, Act(s, i).workers) == Total(StepsLeft, s.workers) - 1
  {
    var w := s.workers[i];
    RoundCost(w);
    PostProgress(s, i, ItemOf(w.role), NextRound(w));
    assert Act(s, i) == SemPost(s, i, ItemOf(w.role), NextRound(w));
  }

  lemma RoundCost(w: Worker)
    requires WorkerOk(w) && w.pc == PostItem
    ensures StepsOf(NextRound(w)) == StepsOf(w) - 1
  {
  }

  lemma ActProgress(s: State, i: nat)
    requires Inv(s)
    requires i < |s.workers| && Enabled(s.workers[i])
    ensures Total(StepsLeft, Act(s, i).workers) == Total(StepsLeft, s.workers) - 1
  {
    var w := s.workers[i];
    assert WorkerOk(w);
    assert forall name: SemName :: QueueOk(Get(s.sems, name), name, s.workers);
    if w.pc == PostMutex {
      PostMutexProgress(s, i);
    } else if w.pc == PostItem {
      PostItemProgress(s, i);
    } else {
      LocalProgress(s, i);
    }
  }

  /** Every step taken brings the end one step nearer. */
  lemma StepProgress(s: State, t: Turn)
    requires Inv(s)
    requires t.who < |s.workers| && Enabled(s.workers[t.who])
    ensures Total(StepsLeft, Step(s, t).workers) == Total(StepsLeft, s.workers) - 1
  {
    ActProgress(s, t.who);
    ResumeIsFree(Act(s, t.who), t.next);
  }

  lemma ResumeIsFree(s: State, next: Option<nat>)
    ensures Total(StepsLeft, Resume(s, next).workers) == Total(StepsLeft, s.workers)
  {
    if next.Some? && next.value < |s.workers| {
      TotalUpdate(StepsLeft, s.workers, next.value, s.workers[next.value].(ret := 0));
      RetIsFree(s.workers[next.value]);
    }
  }

  lemma RetIsFree(w: Worker)
    ensures Weight(StepsLeft, w.(ret := 0)) == Weight(StepsLeft, w)
  {
  }

  lemma LocalProgress(s: State, i: nat)
    requires |s.buf.cells| > 0
    requires i < |s.workers| && Enabled(s.workers[i]) && WorkerOk(s.workers[i])
    requires s.workers[i].pc != PostMutex && s.workers[i].pc != PostItem
    ensures Total(StepsLeft, Act(s, i).workers) == Total(StepsLeft, s.workers) - 1
  {
    var w' := Act(s, i).workers[i];
    assert Act(s, i).workers == s.workers[i := w'];
    StepCost(s.workers[i], w');
    TotalUpdate(StepsLeft, s.workers, i, w');
  }

  /** Each move along the loop body costs one of the steps left. */
  lemma StepCost(w: Worker, w': Worker)
    requires WorkerOk(w) && w'.role == w.role && w'.locked == w.locked && w'.left == w.left
    requires || (w.pc == WaitSlot && w'.pc == CheckSlot)
             || (w.pc == CheckSlot && (w'.pc == AfterSlot(w) || w'.pc == GivenUp))
             || (w.pc == WaitMutex && w'.pc == CheckMutex)
             || (w.pc == CheckMutex && w'.pc == ReadIndex)
             || (w.pc == ReadIndex && w'.pc == TouchCell)
             || (w.pc == TouchCell && w'.pc == StoreIndex)
             || (w.pc == StoreIndex && w'.pc == AfterStore(w))
    ensures Weight(StepsLeft, w') == Weight(StepsLeft, w) - 1
  {
  }

  lemma PostProgress(s: State, i: nat, name: SemName, after: Worker)
    requires i < |s.workers| && s.workers[i].on == None
    requires QueueOk(Get(s.sems, name), name, s.workers)
    requires StepsOf(after) == StepsOf(s.workers[i]) - 1
    ensures Total(StepsLeft, SemPost(s, i, name, after).workers) == Total(StepsLeft, s.workers) - 1
  {
    var freed := PostFrees(s, i, name);
    PostTotal(StepsLeft, s, i, name, after);
    if freed.Some? {
      BlockingIsFree(s.workers[freed.value]);
    }
  }

  lemma BlockingIsFree(w: Worker)
    ensures Weight(StepsLeft, w.(on := None)) == Weight(StepsLeft, w)
  {
  }

  lemma StepsNonNegative(s: State)
    requires WorkersOk(s.workers)
    ensures Total(StepsLeft, s.workers) >= 0
  {
    forall k | 0 <= k < |s.workers| ensures Weight(StepsLeft, s.workers[k]) >= 0 {
      assert WorkerOk(s.workers[k]);
    }
    TotalNonNegative(StepsLeft, s.workers);
  }

  lemma ExecCons(s: State, t: Turn, rest: seq<Turn>)
    requires |s.buf.cells| > 0
    ensures |Step(s, t).buf.cells| > 0 && Exec(s, [t] + rest) == Exec(Step(s, t), rest)
  {
    assert ([t] + rest)[1..] == rest;
  }

  /** The kernel switches from a worker that blocks to a worker that can run, if
      there is one. */
  ghost predicate SwitchesToWorker(s: State, t: Turn)
    requires |s.buf.cells| > 0
  {
    var after := Act(s, t.who);
    Blocks(s, t.who) && SomeEnabled(after) ==>
      t.next.Some? && t.next.value < |after.workers| && Enabled(after.workers[t.next.value])
  }

  /** A run in which the workers have the processor to themselves. */
  ghost predicate Undisturbed(s: State, schedule: seq<Turn>)
    requires |s.buf.cells| > 0
    decreases |schedule|
  {
    schedule == [] || (SwitchesToWorker(s, schedule[0]) && Undisturbed(Step(s, schedule[0]), schedule[1..]))
  }

  /** The turn of worker `i` that leaves the processor to another worker. */
  lemma TurnOf(s: State, i: nat) returns (t: Turn)
    requires |s.buf.cells| > 0
    ensures t.who == i && SwitchesToWorker(s, t)
  {
    var after := Act(s, i);
    if SomeEnabled(after) {
      var j: nat :| j < |after.workers| && Enabled(after.workers[j]);
      t := Turn(i, Some(j));
    } else {
      t := Turn(i, None);
    }
  }

  /** Nothing undeceives a misled worker but being switched to by another one
      that blocks, and it can be let run before. */
  lemma StaysMisled(s: State, t: Turn, c: nat)
    requires Inv(s) && c < |s.workers| && Misled(s.workers[c])
    requires Enabled(s.workers[c]) ==> t.who == c
    ensures Misled(Step(s, t).workers[c])
  {
    if t.who == c {
      MisledGivesUp(s, c);
    } else {
      OthersKept(s, t.who, c);
    }
  }

  lemma MisledGivesUp(s: State, c: nat)
    requires |s.buf.cells| > 0 && c < |s.workers| && Misled(s.workers[c])
    ensures !Blocks(s, c) && Misled(Act(s, c).workers[c])
  {
  }

  /** A run can always be carried on until nobody can move, and takes exactly as
      many steps as were left; and a misled worker need not be undeceived. */
  lemma {:induction false} RunToRest(s: State, c: nat) returns (schedule: seq<Turn>)
    requires Inv(s)
    ensures !SomeEnabled(Exec(s, schedule)) && Undisturbed(s, schedule)
    ensures |schedule| == Total(StepsLeft, s.workers) - Total(StepsLeft, Exec(s, schedule).workers)
    ensures c < |s.workers| && Misled(s.workers[c]) ==> Misled(Exec(s, schedule).workers[c])
    decreases Total(StepsLeft, s.workers)
  {
    StepsNonNegative(s);
    if SomeEnabled(s) {
      var i: nat :| i < |s.workers| && Enabled(s.workers[i]) && (c < |s.workers| && Enabled(s.workers[c]) ==> i == c);
      var t := TurnOf(s, i);
      StepProgress(s, t);
      StepKeepsInv(s, t);
      if c < |s.workers| && Misled(s.workers[c]) {
        StaysMisled(s, t, c);
      }
      var rest := RunToRest(Step(s, t), c);
      ExecCons(s, t, rest);
      schedule := [t] + rest;
      assert schedule[1..] == rest;
    } else {
      schedule := [];
    }
  }

  ghost predicate SideFinished(s: State, r: Role) {
    forall j :: 0 <= j < |s.workers| && s.workers[j].role == r ==> s.workers[j].pc == Finished
  }

  lemma FinishedTotals(s: State, r: Role)
    requires WorkersOk(s.workers) && SideFinished(s, r)
    ensures Total(Posts(r), s.workers) == Work(s, r) && Total(Waits(r), s.workers) == Work(s, r)
  {
    forall j | 0 <= j < |s.workers|
      ensures Weight(Posts(r), s.workers[j]) == Weight(Quota(r), s.workers[j]) == Weight(Waits(r), s.workers[j])
    {
      assert WorkerOk(s.workers[j]);
    }
    TotalCompare(Posts(r), Quota(r), s.workers);
    TotalCompare(Quota(r), Posts(r), s.workers);
    TotalCompare(Waits(r), Quota(r), s.workers);
    TotalCompare(Quota(r), Waits(r), s.workers);
  }

  /** The iteration counts fit: every item asked for gets produced and no more
      is produced than is consumed or can stay in the buffer. */
  predicate Fits(s: State) {
    Work(s, Consumer) <= Work(s, Producer) <= Work(s, Consumer) + |s.buf.cells|
  }

  /** Where a completed run ends: the surplus items, in the order written, are
      all that the buffer holds, and the counters say so. */
  lemma FinalState(s: State)
    requires Inv(s) && AllFinished(s)
    ensures s.sems.fill.count == Work(s, Producer) - Work(s, Consumer) == |s.written| - s.cleared
    ensures s.sems.empty.count == |s.buf.cells| - s.sems.fill.count
    ensures Fits(s)
    ensures Work(s, Producer) == Work(s, Consumer) ==> forall c :: 0 <= c < |s.buf.cells| ==> s.buf.cells[c] == 0
  {
    assert WorkersOk(s.workers);
    forall j | 0 <= j < |s.workers|
      ensures Weight(InFlight, s.workers[j]) == Weight(Written, s.workers[j]) == Weight(Holding, s.workers[j]) == 0
    {
      assert WorkerOk(s.workers[j]);
    }
    TotalNonNegative(InFlight, s.workers);
    TotalNonNegative(Written, s.workers);
    TotalNonNegative(Holding, s.workers);
    assert !SomeEnabled(s);
    NoQueueAtEnd(s, Fill);
    NoQueueAtEnd(s, Empty);
    FinishedTotals(s, Producer);
    FinishedTotals(s, Consumer);
  }

  lemma SomeoneQueued(q: seq<nat>)
    ensures q != [] ==> exists j: nat :: j in q
  {
    if q != [] {
      assert q[0] in q;
    }
  }

  lemma NoQueueAtEnd(s: State, name: SemName)
    requires Inv(s) && AllFinished(s)
    ensures Get(s.sems, name).count >= 0 && Get(s.sems, name).queue == []
  {
    var q := Get(s.sems, name).queue;
    assert QueueOk(Get(s.sems, name), name, s.workers);
    forall j: nat ensures j !in q {
      if j < |s.workers| {
        assert WorkerOk(s.workers[j]);
      }
    }
    SomeoneQueued(q);
  }
}

/** How workers that give up bring about a deadlock: they keep the tokens they
    took, and in the end the others are all blocked. */
module BoundedBufferStuck {
  import opened Lists
  import opened CountingSemaphore
  import opened BoundedBuffer
  import opened BoundedBufferProof
  import opened BoundedBufferLiveness
  import opened BoundedBufferDeadlock

  /** Nobody can move and somebody is blocked: the kernel has just taken its
      no-process-can-run branch, unless another process is left. */
  ghost predicate Deadlocked(s: State) {
    !SomeEnabled(s) && exists i :: 0 <= i < |s.workers| && s.workers[i].on.Some?
  }

  // ----- Misleading nobody else -----

  /** The worker's next step is a first wait that will block and mislead it. */
  predicate AboutToBeMisled(s: State, i: nat) {
    i < |s.workers| && s.workers[i].pc == WaitSlot && s.workers[i].ret != 0
    && Get(s.sems, SlotOf(s.workers[i].role)).count <= 0
  }

  ghost predicate OnlyMisled(s: State, out: set<nat>) {
    forall i :: 0 <= i < |s.workers| ==> (Misled(s.workers[i]) <==> i in out)
  }

  /** A misled worker that can move moves before the others, none of whom is
      about to be misled. */
  ghost predicate Steady(s: State, t: Turn) {
    && !AboutToBeMisled(s, t.who)
    && forall i :: 0 <= i < |s.workers| && Misled(s.workers[i]) && Enabled(s.workers[i]) ==>
         t.who < |s.workers| && Misled(s.workers[t.who])
  }

  lemma NotMisled(s: State, t: Turn, i: nat)
    requires |s.buf.cells| > 0 && i < |s.workers| && !Misled(s.workers[i])
    requires t.who == i ==> WorkerOk(s.workers[i]) && !AboutToBeMisled(s, i)
    ensures !Misled(Step(s, t).workers[i])
  {
    RetAfter(s, t, i);
  }

  lemma StillMisled(s: State, t: Turn, i: nat)
    requires Inv(s) && i < |s.workers| && Misled(s.workers[i]) && Steady(s, t)
    ensures Misled(Step(s, t).workers[i])
  {
    if t.who == i {
      MisledGivesUp(s, i);
    } else {
      OthersKept(s, t.who, i);
      if Enabled(s.workers[i]) {
        MisledGivesUp(s, t.who);
      }
    }
  }

  lemma StepKeepsOnlyMisled(s: State, t: Turn, out: set<nat>)
    requires Inv(s) && OnlyMisled(s, out) && Steady(s, t)
    ensures OnlyMisled(Step(s, t), out)
  {
    var s' := Step(s, t);
    forall i | 0 <= i < |s'.workers| ensures Misled(s'.workers[i]) <==> i in out {
      assert WorkerOk(s.workers[i]);
      if i in out {
        StillMisled(s, t, i);
      } else {
        NotMisled(s, t, i);
      }
    }
  }

  /** A worker that can move without being misled, a misled one if there is any. */
  lemma SteadyTurn(s: State) returns (t: Turn)
    requires |s.buf.cells| > 0
    requires exists i: nat :: i < |s.workers| && Enabled(s.workers[i]) && !AboutToBeMisled(s, i)
    ensures Steady(s, t) && SwitchesToWorker(s, t) && t.who < |s.workers| && Enabled(s.workers[t.who])
  {
    var i: nat :| i < |s.workers| && Enabled(s.workers[i]) && !AboutToBeMisled(s, i);
    if j: nat :| j < |s.workers| && Misled(s.workers[j]) && Enabled(s.workers[j]) {
      i := j;
    }
    t := TurnOf(s, i);
  }

  // ----- When the chosen workers take every place -----

  /** Blocked workers of `out` are queued before all others. */
  ghost predicate OutFirst(q: seq<nat>, out: set<nat>) {
    forall k, l :: 0 <= k < l < |q| && q[l] in out ==> q[k] in out
  }

  predicate LuredConsumer(w: Worker) { w.role == Consumer && Misled(w) && w.on.Some? }

  /** No other consumer has an item before every consumer of `out` has one. */
  ghost predicate OutServed(ws: seq<Worker>, out: set<nat>) {
    forall i, j :: 0 <= i < |ws| && 0 <= j < |ws| && LuredConsumer(ws[i]) && ws[j].role == Consumer && j !in out ==>
      !Flying(ws[j])
  }

  /** Together the workers of `out` take all places, and each round of a consumer
      gives one to a producer among them. */
  ghost predicate Tight(s: State, out: set<nat>) {
    var ws := Dropped(s.workers, out);
    && Total(Gone(Producer), ws) + Total(Gone(Consumer), ws) == |s.buf.cells|
    && Total(Lured(Producer), s.workers) + Total(Posts(Consumer), s.workers) == Total(Gone(Producer), ws)
    && OutFirst(s.sems.fill.queue, out) && OutFirst(s.sems.empty.queue, out)
    && OutServed(s.workers, out)
  }

  lemma GoneWeight(ws: seq<Worker>, out: set<nat>, r: Role, k: nat)
    requires k < |ws|
    ensures Weight(Gone(r), Dropped(ws, out)[k]) == One(ws[k].role == r && (k in out || ws[k].pc == GivenUp))
  {
  }

  lemma GoneKept(ws: seq<Worker>, ws': seq<Worker>, out: set<nat>, r: Role)
    requires |ws| == |ws'| && forall k :: 0 <= k < |ws| ==> ws'[k].role == ws[k].role
    requires forall k :: 0 <= k < |ws| && k !in out ==> ws[k].pc != GivenUp && ws'[k].pc != GivenUp
    ensures Total(Gone(r), Dropped(ws', out)) == Total(Gone(r), Dropped(ws, out))
  {
    forall k | 0 <= k < |ws| ensures Weight(Gone(r), Dropped(ws', out)[k]) == Weight(Gone(r), Dropped(ws, out)[k]) {
      GoneWeight(ws, out, r, k);
      GoneWeight(ws', out, r, k);
    }
    TotalsCompare(Gone(r), Dropped(ws, out), Gone(r), Dropped(ws', out));
    TotalsCompare(Gone(r), Dropped(ws', out), Gone(r), Dropped(ws, out));
  }

  /** What a step does to the slot semaphore of a side. */
  lemma SlotAfter(s: State, i: nat, r: Role)
    requires |s.buf.cells| > 0
    ensures var sem, sem' := Get(s.sems, SlotOf(r)), Get(Act(s, i).sems, SlotOf(r));
            || sem' == sem
            || (i < |s.workers| && s.workers[i].pc == WaitSlot && sem' == Wait(sem, i))
            || sem' == Post(sem)
  {
  }

  lemma OutFirstAfter(s: State, i: nat, r: Role, out: set<nat>)
    requires Inv(s) && OnlyMisled(s, out) && OutFirst(Get(s.sems, SlotOf(r)).queue, out)
    ensures OutFirst(Get(Act(s, i).sems, SlotOf(r)).queue, out)
  {
    var q, q' := Get(s.sems, SlotOf(r)).queue, Get(Act(s, i).sems, SlotOf(r)).queue;
    SlotAfter(s, i, r);
    if q' != q && q != [] && q' == q[1..] {
      assert forall k :: 0 <= k < |q'| ==> q'[k] == q[k + 1];
    }
  }

  /** If a worker of `out` is queued, the next post on that semaphore releases one. */
  lemma HeadOut(s: State, r: Role, out: set<nat>, i: nat)
    requires Inv(s) && OnlyMisled(s, out) && OutFirst(Get(s.sems, SlotOf(r)).queue, out)
    requires i < |s.workers| && i in out && s.workers[i].role == r && s.workers[i].on.Some?
    ensures Get(s.sems, SlotOf(r)).count < 0 && Released(Get(s.sems, SlotOf(r))).Some?
    ensures Released(Get(s.sems, SlotOf(r))).value in out
  {
    assert WorkerOk(s.workers[i]);
    assert QueueOk(Get(s.sems, SlotOf(r)), SlotOf(r), s.workers);
    var q := Get(s.sems, SlotOf(r)).queue;
    var k :| 0 <= k < |q| && q[k] == i;
    assert k > 0 ==> q[0] in out;
  }

  /** A consumer not in `out` has an item only while a producer of `out` is still
      queued: otherwise those of `out` have all the places. */
  lemma SomeProducerLured(s: State, out: set<nat>, i: nat)
    requires Inv(s) && OnlyMisled(s, out) && Tight(s, out)
    requires i < |s.workers| && i !in out && s.workers[i].role == Consumer && Flying(s.workers[i])
    ensures Total(Lured(Producer), s.workers) > 0
  {
    if Total(Lured(Producer), s.workers) <= 0 {
      forall k | 0 <= k < |s.workers| && k in out ensures Flying(s.workers[k]) {
        AllServed(s, out, i, k);
      }
      OutFlying(s, out, i);
    }
  }

  lemma AllServed(s: State, out: set<nat>, i: nat, k: nat)
    requires Inv(s) && OnlyMisled(s, out) && OutServed(s.workers, out) && Total(Lured(Producer), s.workers) <= 0
    requires i < |s.workers| && i !in out && s.workers[i].role == Consumer && Flying(s.workers[i])
    requires k < |s.workers| && k in out
    ensures Flying(s.workers[k])
  {
    assert WorkerOk(s.workers[k]);
    if s.workers[k].on.Some? {
      assert s.workers[k].role == Producer;
      TotalAtLeast(Lured(Producer), s.workers, k);
    }
  }

  /** When all of `out` are in flight, and another worker besides, they are fewer
      than the places. */
  lemma OutFlying(s: State, out: set<nat>, i: nat)
    requires PlacesOk(s)
    requires i < |s.workers| && i !in out && Flying(s.workers[i])
    requires forall k :: 0 <= k < |s.workers| && k in out ==> Flying(s.workers[k])
    requires forall k :: 0 <= k < |s.workers| && s.workers[k].pc == GivenUp ==> k in out
    ensures Total(Gone(Producer), Dropped(s.workers, out))
            + Total(Gone(Consumer), Dropped(s.workers, out)) < |s.buf.cells|
  {
    var w := s.workers[i].(pc := Finished);
    var ws := s.workers[i := w];
    TotalUpdate(InFlight, s.workers, i, w);
    forall k | 0 <= k < |ws|
      ensures Weight(Gone(Producer), Dropped(s.workers, out)[k])
              + Weight(Gone(Consumer), Dropped(s.workers, out)[k]) <= Weight(InFlight, ws[k])
    {
      GoneWeight(s.workers, out, Producer, k);
      GoneWeight(s.workers, out, Consumer, k);
    }
    TotalsAdd(Gone(Producer), Gone(Consumer), Dropped(s.workers, out), InFlight, ws);
  }

  lemma {:induction false} TotalsAdd(m1: Measure, m2: Measure, ws: seq<Worker>, m: Measure, ws': seq<Worker>)
    requires |ws| == |ws'|
    requires forall k :: 0 <= k < |ws| ==> Weight(m1, ws[k]) + Weight(m2, ws[k]) <= Weight(m, ws'[k])
    ensures Total(m1, ws) + Total(m2, ws) <= Total(m, ws')
    decreases |ws|
  {
    if ws != [] {
      TotalsAdd(m1, m2, ws[1..], m, ws'[1..]);
    }
  }

  /** A consumer's post goes to a producer of `out`. */
  lemma PostServesOut(s: State, out: set<nat>, i: nat)
    requires Inv(s) && OnlyMisled(s, out) && Tight(s, out)
    requires i < |s.workers| && s.workers[i].role == Consumer && Enabled(s.workers[i]) && s.workers[i].pc == PostItem
    ensures Released(s.sems.empty).Some? && Released(s.sems.empty).value in out
  {
    FlyingAtPost(s.workers[i]);
    SomeProducerLured(s, out, i);
    var k := LuredProducer(s.workers);
    HeadOut(s, Producer, out, k);
  }

  lemma FlyingAtPost(w: Worker)
    requires w.pc == PostItem && w.on == None
    ensures Flying(w) && !Misled(w)
  {
  }

  lemma LuredProducer(ws: seq<Worker>) returns (k: nat)
    requires Total(Lured(Producer), ws) > 0
    ensures k < |ws| && ws[k].role == Producer && Misled(ws[k]) && ws[k].on.Some?
  {
    k := TotalWitness(Lured(Producer), ws);
  }

  lemma LuredAndPosts(s: State, out: set<nat>, i: nat)
    requires Inv(s) && OnlyMisled(s, out) && Tight(s, out)
    requires i < |s.workers| && Enabled(s.workers[i]) && s.workers[i].pc == PostItem
    ensures Total(Lured(Producer), Act(s, i).workers) + Total(Posts(Consumer), Act(s, i).workers)
         == Total(Lured(Producer), s.workers) + Total(Posts(Consumer), s.workers)
  {
    var w := s.workers[i];
    AtPostItemIs(s, i);
    PostItemIs(s, i);
    var freed := PostItemFrees(s, i);
    PostTotal(Lured(Producer), s, i, ItemOf(w.role), NextRound(w));
    PostTotal(Posts(Consumer), s, i, ItemOf(w.role), NextRound(w));
    NextRoundWeights(w);
    NotLured(w);
    NotLured(NextRound(w));
    if w.role == Consumer {
      PostServesOut(s, out, i);
    }
    if freed.Some? {
      HandOffWeights(s.workers[freed.value]);
      ReleaseLured(s.workers[freed.value]);
    }
  }

  lemma NotLured(w: Worker)
    requires !Misled(w) || w.on.None? || w.role == Consumer
    ensures Weight(Lured(Producer), w) == 0
  {
  }

  lemma ReleaseLured(w: Worker)
    requires w.on.Some?
    ensures Weight(Lured(Producer), w) == One(w.role == Producer && Misled(w))
            && Weight(Lured(Producer), w.(on := None)) == 0
  {
  }

  lemma LuredAndPostsKept(s: State, out: set<nat>, i: nat)
    requires Inv(s) && OnlyMisled(s, out) && !AboutToBeMisled(s, i)
    requires i < |s.workers| && Enabled(s.workers[i]) && s.workers[i].pc != PostItem
    ensures Total(Lured(Producer), Act(s, i).workers) == Total(Lured(Producer), s.workers)
    ensures Total(Posts(Consumer), Act(s, i).workers) == Total(Posts(Consumer), s.workers)
  {
    if s.workers[i].pc == PostMutex {
      MutexPostWeights(s, i);
    } else {
      var w' := Act(s, i).workers[i];
      LocalWeights(s, i);
      TotalUpdate(Lured(Producer), s.workers, i, w');
      TotalUpdate(Posts(Consumer), s.workers, i, w');
    }
  }

  lemma MutexPostWeights(s: State, i: nat)
    requires Inv(s) && i < |s.workers| && Enabled(s.workers[i]) && s.workers[i].pc == PostMutex
    ensures Total(Lured(Producer), Act(s, i).workers) == Total(Lured(Producer), s.workers)
    ensures Total(Posts(Consumer), Act(s, i).workers) == Total(Posts(Consumer), s.workers)
  {
    var w := s.workers[i];
    var name, after := MutexOf(w.role), w.(pc := PostItem, ret := 0);
    assert QueueOk(Get(s.sems, name), name, s.workers);
    var freed := PostFrees(s, i, name);
    PostTotal(Lured(Producer), s, i, name, after);
    PostTotal(Posts(Consumer), s, i, name, after);
    AfterMutexPost(w);
    if freed.Some? {
      assert WorkerOk(s.workers[freed.value]);
      AtMutex(s.workers[freed.value]);
    }
  }

  lemma AfterMutexPost(w: Worker)
    requires w.pc == PostMutex
    ensures Weight(Lured(Producer), w) == Weight(Lured(Producer), w.(pc := PostItem, ret := 0))
    ensures Weight(Posts(Consumer), w) == Weight(Posts(Consumer), w.(pc := PostItem, ret := 0))
  {
  }

  lemma AtMutex(w: Worker)
    requires WorkerOk(w) && (w.on == Some(Me1) || w.on == Some(Me2))
    ensures Weight(Lured(Producer), w) == Weight(Lured(Producer), w.(on := None))
    ensures Weight(Posts(Consumer), w) == Weight(Posts(Consumer), w.(on := None))
  {
  }

  lemma LocalWeights(s: State, i: nat)
    requires |s.buf.cells| > 0 && i < |s.workers| && Enabled(s.workers[i]) && WorkerOk(s.workers[i])
    requires !AboutToBeMisled(s, i) && s.workers[i].pc != PostMutex && s.workers[i].pc != PostItem
    ensures Act(s, i).workers == s.workers[i := Act(s, i).workers[i]]
    ensures Weight(Lured(Producer), Act(s, i).workers[i]) == 0 == Weight(Lured(Producer), s.workers[i])
    ensures Weight(Posts(Consumer), Act(s, i).workers[i]) == Weight(Posts(Consumer), s.workers[i])
  {
  }

  lemma ResumeWeights(s: State, next: Option<nat>)
    ensures Total(Lured(Producer), Resume(s, next).workers) == Total(Lured(Producer), s.workers)
    ensures Total(Posts(Consumer), Resume(s, next).workers) == Total(Posts(Consumer), s.workers)
  {
    if next.Some? && next.value < |s.workers| && Enabled(s.workers[next.value]) {
      TotalUpdate(Lured(Producer), s.workers, next.value, s.workers[next.value].(ret := 0));
      TotalUpdate(Posts(Consumer), s.workers, next.value, s.workers[next.value].(ret := 0));
    }
  }

  /** A consumer that comes to have an item takes it when nobody is queued, or is
      the first of the queue. */
  lemma StepKeepsServed(s: State, t: Turn, out: set<nat>)
    requires Inv(s) && OnlyMisled(s, out) && Steady(s, t) && OutServed(s.workers, out)
             && OutFirst(s.sems.fill.queue, out)
    requires |Step(s, t).workers| == |s.workers| && OnlyMisled(Step(s, t), out)
    ensures OutServed(Step(s, t).workers, out)
  {
    var ws' := Step(s, t).workers;
    forall i, j | 0 <= i < |ws'| && 0 <= j < |ws'| && LuredConsumer(ws'[i]) && ws'[j].role == Consumer && j !in out
      ensures !Flying(ws'[j])
    {
      RetAfter(s, t, j);
      ServedAfter(s, t, out, i, j);
    }
  }

  lemma ServedAfter(s: State, t: Turn, out: set<nat>, i: nat, j: nat)
    requires Inv(s) && OnlyMisled(s, out) && Steady(s, t) && OutServed(s.workers, out)
             && OutFirst(s.sems.fill.queue, out)
    requires OnlyMisled(Step(s, t), out)
    requires i < |s.workers| && LuredConsumer(Step(s, t).workers[i])
    requires j < |s.workers| && s.workers[j].role == Consumer && j !in out
    ensures !Flying(Step(s, t).workers[j])
  {
    LuredBefore(s, t, out, i);
    HeadOut(s, Consumer, out, i);
    ServedBefore(s, t, out, j);
  }

  lemma LuredBefore(s: State, t: Turn, out: set<nat>, i: nat)
    requires Inv(s) && OnlyMisled(s, out) && Steady(s, t) && i < |s.workers|
    requires OnlyMisled(Step(s, t), out) && LuredConsumer(Step(s, t).workers[i])
    ensures LuredConsumer(s.workers[i])
  {
    RetAfter(s, t, i);
    if t.who == i {
      MisledGivesUp(s, i);
    } else {
      OthersKept(s, t.who, i);
    }
  }

  lemma ServedBefore(s: State, t: Turn, out: set<nat>, j: nat)
    requires Inv(s) && j < |s.workers| && j !in out && s.workers[j].role == Consumer
    requires !Flying(s.workers[j]) && s.sems.fill.count < 0
    requires Released(s.sems.fill).Some? && Released(s.sems.fill).value in out
    ensures !Flying(Step(s, t).workers[j])
  {
    if t.who == j {
      StaysGrounded(s, j);
    } else {
      StaysQueued(s, t.who, j);
    }
  }

  lemma StaysGrounded(s: State, j: nat)
    requires |s.buf.cells| > 0 && j < |s.workers| && s.workers[j].role == Consumer
    requires !Flying(s.workers[j]) && s.sems.fill.count < 0
    ensures !Flying(Act(s, j).workers[j])
  {
  }

  lemma StaysQueued(s: State, i: nat, j: nat)
    requires Inv(s) && i != j && j < |s.workers| && s.workers[j].role == Consumer && !Flying(s.workers[j])
    requires Released(s.sems.fill) != Some(j)
    ensures !Flying(Act(s, i).workers[j])
  {
    if Act(s, i).workers[j] != s.workers[j] {
      NotReleased(s, j);
      var name := Unblocked(s, i, j);
    }
  }

  lemma NotReleased(s: State, j: nat)
    requires Inv(s) && j < |s.workers| && s.workers[j].role == Consumer && !Flying(s.workers[j])
    requires Released(s.sems.fill) != Some(j)
    ensures forall name :: Released(Get(s.sems, name)) != Some(j)
  {
    forall name ensures Released(Get(s.sems, name)) != Some(j) {
      assert QueueOk(Get(s.sems, name), name, s.workers) && WorkerOk(s.workers[j]);
    }
  }

  /** The only worker that another's step changes is the one its post releases. */
  lemma Unblocked(s: State, i: nat, j: nat) returns (name: SemName)
    requires |s.buf.cells| > 0 && i != j && j < |s.workers| && Act(s, i).workers[j] != s.workers[j]
    ensures Released(Get(s.sems, name)) == Some(j)
  {
    var w := s.workers[i];
    name := if w.pc == PostMutex then MutexOf(w.role) else ItemOf(w.role);
  }

  lemma StepLength(s: State, t: Turn)
    requires |s.buf.cells| > 0
    ensures |Step(s, t).buf.cells| == |s.buf.cells| && |Step(s, t).workers| == |s.workers|
  {
    ExecCons(s, t, []);
    assert [t] + [] == [t];
  }

  lemma MisledOnly(s: State, out: set<nat>)
    requires Inv(s) && OnlyMisled(s, out)
    ensures forall k :: 0 <= k < |s.workers| && k !in out ==> s.workers[k].pc != GivenUp
  {
    forall k | 0 <= k < |s.workers| && k !in out ensures s.workers[k].pc != GivenUp {
      assert WorkerOk(s.workers[k]);
    }
  }

  lemma StepKeepsGone(s: State, t: Turn, out: set<nat>, r: Role)
    requires Inv(s) && OnlyMisled(s, out) && Inv(Step(s, t)) && OnlyMisled(Step(s, t), out)
    ensures Total(Gone(r), Dropped(Step(s, t).workers, out)) == Total(Gone(r), Dropped(s.workers, out))
  {
    StepLength(s, t);
    forall k | 0 <= k < |s.workers| ensures Step(s, t).workers[k].role == s.workers[k].role {
      RetAfter(s, t, k);
    }
    MisledOnly(s, out);
    MisledOnly(Step(s, t), out);
    GoneKept(s.workers, Step(s, t).workers, out, r);
  }

  lemma StepKeepsTight(s: State, t: Turn, out: set<nat>)
    requires Inv(s) && OnlyMisled(s, out) && Steady(s, t) && Tight(s, out)
    requires t.who < |s.workers| && Enabled(s.workers[t.who])
    ensures Tight(Step(s, t), out)
  {
    StepLength(s, t);
    StepKeepsInv(s, t);
    StepKeepsOnlyMisled(s, t, out);
    StepKeepsServed(s, t, out);
    StepKeepsGone(s, t, out, Producer);
    StepKeepsGone(s, t, out, Consumer);
    OutFirstAfter(s, t.who, Producer, out);
    OutFirstAfter(s, t.who, Consumer, out);
    ResumeWeights(Act(s, t.who), t.next);
    if s.workers[t.who].pc == PostItem {
      LuredAndPosts(s, out, t.who);
    } else {
      LuredAndPostsKept(s, out, t.who);
    }
  }

  /** A run can be carried on, misleading nobody else, until that is all that
      the workers can still do. */
  lemma {:induction false} RunSteadily(s: State, out: set<nat>) returns (schedule: seq<Turn>)
    requires Inv(s) && OnlyMisled(s, out)
    ensures Undisturbed(s, schedule) && Inv(Exec(s, schedule)) && OnlyMisled(Exec(s, schedule), out)
    ensures Tight(s, out) ==> Tight(Exec(s, schedule), out)
    ensures forall i: nat {:trigger AboutToBeMisled(Exec(s, schedule), i)} ::
              i < |s.workers| && Enabled(Exec(s, schedule).workers[i]) ==> AboutToBeMisled(Exec(s, schedule), i)
    decreases Total(StepsLeft, s.workers)
  {
    StepsNonNegative(s);
    schedule := [];
    if exists i: nat :: i < |s.workers| && Enabled(s.workers[i]) && !AboutToBeMisled(s, i) {
      var t := SteadyTurn(s);
      StepKeepsOnlyMisled(s, t, out);
      if Tight(s, out) {
        StepKeepsTight(s, t, out);
      }
      StepKeepsInv(s, t);
      StepProgress(s, t);
      var rest := RunSteadily(Step(s, t), out);
      ExecCons(s, t, rest);
      schedule := [t] + rest;
      assert schedule[1..] == rest;
    }
  }

  // ----- Hopeless states -----

  /** Whoever can still move asks for a slot there is none of. */
  ghost predicate Hopeless(s: State) {
    forall i :: 0 <= i < |s.workers| && Enabled(s.workers[i]) ==>
      s.workers[i].pc == WaitSlot && Get(s.sems, SlotOf(s.workers[i].role)).count <= 0
  }

  lemma StepKeepsHopeless(s: State, t: Turn, k: nat)
    requires |s.buf.cells| > 0 && Hopeless(s)
    requires k < |s.workers| && (Enabled(s.workers[k]) || s.workers[k].on.Some?)
    ensures Hopeless(Step(s, t))
    ensures Enabled(Step(s, t).workers[k]) || Step(s, t).workers[k].on.Some?
  {
    if t.who < |s.workers| && Enabled(s.workers[t.who]) {
      var name := SlotOf(s.workers[t.who].role);
      assert Act(s, t.who) == SemWait(s, t.who, name, CheckSlot);
    }
  }

  lemma {:induction false} RunKeepsHopeless(s: State, schedule: seq<Turn>, k: nat)
    requires |s.buf.cells| > 0 && Hopeless(s)
    requires k < |s.workers| && (Enabled(s.workers[k]) || s.workers[k].on.Some?)
    ensures Enabled(Exec(s, schedule).workers[k]) || Exec(s, schedule).workers[k].on.Some?
    decreases |schedule|
  {
    if schedule != [] {
      StepKeepsHopeless(s, schedule[0], k);
      RunKeepsHopeless(Step(s, schedule[0]), schedule[1..], k);
    }
  }

  lemma HopelessRun(s: State, k: nat) returns (schedule: seq<Turn>)
    requires Inv(s) && Hopeless(s) && k < |s.workers| && (Enabled(s.workers[k]) || s.workers[k].on.Some?)
    ensures Undisturbed(s, schedule) && Deadlocked(Exec(s, schedule))
  {
    schedule := RunToRest(s, |s.workers|);
    RunKeepsHopeless(s, schedule, k);
  }

  // ----- Too little work, or too few places -----

  /** With the workers that have given up holding a token each, one side asks for
      more than the other can supply. */
  predicate Unbalanced(ws: seq<Worker>, length: nat) {
    || Total(Stay(Producer), ws) + Total(Gone(Producer), ws) > Total(Stay(Consumer), ws) + length
    || Total(Stay(Consumer), ws) + Total(Gone(Consumer), ws) > Total(Stay(Producer), ws)
  }

  /** They hold all places while consumers still have work. */
  predicate UsedUp(ws: seq<Worker>, length: nat) {
    && Total(Gone(Producer), ws) + Total(Gone(Consumer), ws) == length
    && Total(Stay(Consumer), ws) > Total(Gone(Producer), ws)
  }

  ghost predicate AtRest(ws: seq<Worker>) {
    forall k :: 0 <= k < |ws| ==> ws[k].on == None && (ws[k].pc == Finished || ws[k].pc == GivenUp)
  }

  lemma RestTotals(ws: seq<Worker>, r: Role)
    requires WorkersOk(ws) && AtRest(ws)
    ensures Total(Posts(r), ws) == Total(Stay(r), ws)
    ensures Total(Waits(r), ws) >= Total(Stay(r), ws) + Total(Gone(r), ws)
  {
    forall k | 0 <= k < |ws|
      ensures Weight(Posts(r), ws[k]) == Weight(Stay(r), ws[k])
      ensures Weight(Waits(r), ws[k]) >= Weight(Stay(r), ws[k]) + Weight(Gone(r), ws[k])
    {
      assert WorkerOk(ws[k]);
    }
    TotalCompare(Posts(r), Stay(r), ws);
    TotalCompare(Stay(r), Posts(r), ws);
    TotalsAdd(Stay(r), Gone(r), ws, Waits(r), ws);
  }

  lemma NobodyQueued(s: State, name: SemName)
    requires Inv(s) && AtRest(s.workers)
    ensures Get(s.sems, name).count >= 0
  {
    var q := Get(s.sems, name).queue;
    assert QueueOk(Get(s.sems, name), name, s.workers);
    SomeoneQueued(q);
  }

  /** When everybody has left, there was enough of everything. */
  lemma RestIsBalanced(s: State)
    requires Inv(s) && AtRest(s.workers)
    ensures !Unbalanced(s.workers, |s.buf.cells|)
  {
    RestTotals(s.workers, Producer);
    RestTotals(s.workers, Consumer);
    NobodyQueued(s, Fill);
    NobodyQueued(s, Empty);
  }

  lemma RestIsNotUsedUp(s: State, out: set<nat>)
    requires Inv(s) && AtRest(s.workers) && OnlyMisled(s, out) && Tight(s, out)
    ensures !UsedUp(s.workers, |s.buf.cells|)
  {
    AllDropped(s, out);
    RestTotals(s.workers, Consumer);
    LuredNonNegative(s.workers);
  }

  lemma LuredNonNegative(ws: seq<Worker>)
    ensures Total(Lured(Producer), ws) >= 0
  {
    TotalNonNegative(Lured(Producer), ws);
  }

  lemma AllDropped(s: State, out: set<nat>)
    requires Inv(s) && AtRest(s.workers) && OnlyMisled(s, out)
    ensures Dropped(s.workers, out) == s.workers
  {
    forall k | 0 <= k < |s.workers| ensures Dropped(s.workers, out)[k] == s.workers[k] {
      assert WorkerOk(s.workers[k]);
    }
  }

  lemma StayWeight(ws: seq<Worker>, out: set<nat>, r: Role, k: nat)
    requires k < |ws|
    ensures Weight(Stay(r), Dropped(ws, out)[k]) == if ws[k].role == r && k !in out && ws[k].pc != GivenUp
            then ws[k].quota else 0
  {
  }

  lemma StayKeptIn(ws: seq<Worker>, ws': seq<Worker>, out: set<nat>, r: Role)
    requires |ws| == |ws'| && forall k :: 0 <= k < |ws| ==> ws'[k].role == ws[k].role && ws'[k].quota == ws[k].quota
    requires forall k :: 0 <= k < |ws| && k !in out ==> ws[k].pc != GivenUp && ws'[k].pc != GivenUp
    ensures Total(Stay(r), Dropped(ws', out)) == Total(Stay(r), Dropped(ws, out))
  {
    forall k | 0 <= k < |ws| ensures Weight(Stay(r), Dropped(ws', out)[k]) == Weight(Stay(r), Dropped(ws, out)[k]) {
      StayWeight(ws, out, r, k);
      StayWeight(ws', out, r, k);
    }
    TotalsCompare(Stay(r), Dropped(ws, out), Stay(r), Dropped(ws', out));
    TotalsCompare(Stay(r), Dropped(ws', out), Stay(r), Dropped(ws, out));
  }

  /** Roles and rounds do not change, so neither does what those outside `out`
      have to do. */
  lemma RunKeepsBalance(s: State, schedule: seq<Turn>, out: set<nat>)
    requires |s.buf.cells| > 0
    requires forall k :: 0 <= k < |s.workers| && k !in out ==>
               s.workers[k].pc != GivenUp && Exec(s, schedule).workers[k].pc != GivenUp
    ensures var ws, ws' := Dropped(s.workers, out), Dropped(Exec(s, schedule).workers, out);
            && (forall r :: Total(Stay(r), ws') == Total(Stay(r), ws) && Total(Gone(r), ws') == Total(Gone(r), ws))
            && (Unbalanced(ws, |s.buf.cells|) <==> Unbalanced(ws', |s.buf.cells|))
            && (UsedUp(ws, |s.buf.cells|) <==> UsedUp(ws', |s.buf.cells|))
  {
    var s' := Exec(s, schedule);
    forall k | 0 <= k < |s.workers|
      ensures s'.workers[k].role == s.workers[k].role && s'.workers[k].quota == s.workers[k].quota
    {
      RunKeepsSides(s, schedule, k);
    }
    forall r
      ensures Total(Stay(r), Dropped(s'.workers, out)) == Total(Stay(r), Dropped(s.workers, out))
      ensures Total(Gone(r), Dropped(s'.workers, out)) == Total(Gone(r), Dropped(s.workers, out))
    {
      StayKeptIn(s.workers, s'.workers, out, r);
      GoneKept(s.workers, s'.workers, out, r);
    }
  }

  /** Once exactly those of `out` are misled and the rest cannot all finish, the
      workers can run into a deadlock, by themselves. */
  lemma SteadyDeadlocks(s: State, out: set<nat>) returns (schedule: seq<Turn>)
    requires Inv(s) && OnlyMisled(s, out)
    requires var ws := Dropped(s.workers, out);
             Unbalanced(ws, |s.buf.cells|) || (UsedUp(ws, |s.buf.cells|) && Tight(s, out))
    ensures Undisturbed(s, schedule) && Deadlocked(Exec(s, schedule))
  {
    var first := RunSteadily(s, out);
    var calm := Exec(s, first);
    SomeoneLeft(s, first, out);
    var k: nat :| k < |calm.workers| && (Enabled(calm.workers[k]) || calm.workers[k].on.Some?);
    assert forall i: nat :: i < |calm.workers| && Enabled(calm.workers[i]) ==> AboutToBeMisled(calm, i);
    var rest := HopelessRun(calm, k);
    ExecAppend(s, first, rest);
    schedule := first + rest;
  }

  lemma SomeoneLeft(s: State, first: seq<Turn>, out: set<nat>)
    requires Inv(s) && OnlyMisled(s, out)
    requires var ws := Dropped(s.workers, out);
             Unbalanced(ws, |s.buf.cells|) || (UsedUp(ws, |s.buf.cells|) && Tight(s, out))
    requires Inv(Exec(s, first)) && OnlyMisled(Exec(s, first), out) && (Tight(s, out) ==> Tight(Exec(s, first), out))
    ensures var ws := Exec(s, first).workers;
            exists k: nat :: k < |ws| && (Enabled(ws[k]) || ws[k].on.Some?)
  {
    var calm := Exec(s, first);
    MisledOnly(s, out);
    MisledOnly(calm, out);
    RunKeepsBalance(s, first, out);
    NotAtRest(calm, out);
  }

  lemma NotAtRest(s: State, out: set<nat>)
    requires Inv(s) && OnlyMisled(s, out)
    requires var ws := Dropped(s.workers, out);
             Unbalanced(ws, |s.buf.cells|) || (UsedUp(ws, |s.buf.cells|) && Tight(s, out))
    ensures exists k: nat :: k < |s.workers| && (Enabled(s.workers[k]) || s.workers[k].on.Some?)
  {
    if AtRest(s.workers) {
      AllDropped(s, out);
      RestIsBalanced(s);
      RestIsNotUsedUp(s, out);
      assert false;
    }
    var k: nat :| k < |s.workers|
      && !(s.workers[k].on == None && (s.workers[k].pc == Finished || s.workers[k].pc == GivenUp));
    assert Enabled(s.workers[k]) || s.workers[k].on.Some?;
  }

  /** With a consumer that enters its loop with a value other than 0 and without
      whose rounds the work does not fit, there is a deadlock, and it takes no
      process besides the workers. When the sides balance it is enough that the
      consumer's rounds exceed the buffer's length, as they do in all four tests
      of the program. */
  lemma ExposedConsumerDeadlocks(s: State, length: nat, c: nat) returns (schedule: seq<Turn>)
    requires Initial(s, length) && Guarded(s.workers) && Exposed(s, c) && s.workers[c].role == Consumer
    requires Work(s, Producer) > Work(s, Consumer) - s.workers[c].quota + length
    ensures Undisturbed(s, schedule) && Deadlocked(Exec(s, schedule))
  {
    InitialInv(s, length);
    var t := TurnOf(s, c);
    var s' := Step(s, t);
    BlockMisleads(s, t);
    StepKeepsInv(s, t);
    forall i | 0 <= i < |s'.workers| && i != c ensures !Misled(s'.workers[i]) {
      RetAfter(s, t, i);
    }
    OneConsumerLess(s, t, c);
    var rest := SteadyDeadlocks(s', {c});
    ExecCons(s, t, rest);
    schedule := [t] + rest;
    assert schedule[1..] == rest;
  }

  lemma OneConsumerLess(s: State, t: Turn, c: nat)
    requires |s.buf.cells| > 0 && c < |s.workers| && s.workers[c].role == Consumer
    requires forall k :: 0 <= k < |s.workers| ==> s.workers[k].pc != GivenUp
    requires forall k :: 0 <= k < |s.workers| && k != c ==> Step(s, t).workers[k].pc != GivenUp
    ensures var ws := Dropped(Step(s, t).workers, {c});
            && Total(Stay(Consumer), ws) == Work(s, Consumer) - s.workers[c].quota
            && Total(Stay(Producer), ws) == Work(s, Producer) && Total(Gone(Producer), ws) >= 0
  {
    DroppedOne(s.workers, c);
    ExecCons(s, t, []);
    assert [t] + [] == [t];
    RunKeepsBalance(s, [t], {c});
  }

  lemma DroppedOne(ws: seq<Worker>, c: nat)
    requires c < |ws| && ws[c].role == Consumer && forall k :: 0 <= k < |ws| ==> ws[k].pc != GivenUp
    ensures Total(Stay(Consumer), Dropped(ws, {c})) == Total(Quota(Consumer), ws) - ws[c].quota
    ensures Total(Stay(Producer), Dropped(ws, {c})) == Total(Quota(Producer), ws)
    ensures Total(Gone(Producer), Dropped(ws, {c})) >= 0
  {
    var w := ws[c].(pc := GivenUp);
    assert Dropped(ws, {c}) == ws[c := w];
    TotalUpdate(Stay(Consumer), ws, c, w);
    TotalUpdate(Stay(Producer), ws, c, w);
    AllStay(ws, Consumer);
    AllStay(ws, Producer);
    TotalNonNegative(Gone(Producer), Dropped(ws, {c}));
  }

  lemma AllStay(ws: seq<Worker>, r: Role)
    requires forall k :: 0 <= k < |ws| ==> ws[k].pc != GivenUp
    ensures Total(Stay(r), ws) == Total(Quota(r), ws)
  {
    TotalCompare(Quota(r), Stay(r), ws);
    TotalCompare(Stay(r), Quota(r), ws);
  }
}

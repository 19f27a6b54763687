/** What is in the buffer: every cell written holds its producer's pid, and each
    producer's pid has been written once for every round in which it got so far. */
module BoundedBufferItems {
  import opened Lists
  import opened BoundedBuffer
  import opened BoundedBufferProof
  import opened BoundedBufferLiveness
  import opened BoundedBufferDeadlock

  // ----- One step -----

  predicate Touches(s: State, i: nat, r: Role) {
    i < |s.workers| && Enabled(s.workers[i]) && s.workers[i].pc == TouchCell && s.workers[i].role == r
  }

  /** A producer that touches the buffer puts its pid into the next cell of the
      window, which was zero, and changes no other. */
  lemma ProducerPuts(s: State, t: Turn)
    requires Inv(s) && Touches(s, t.who, Producer)
    ensures var s', pid, cell := Step(s, t), s.workers[t.who].pid, |s.written| % |s.buf.cells|;
            && s.buf.cells[cell] == 0 && s'.buf.cells == s.buf.cells[cell := pid]
            && s'.written == s.written + [pid] && s'.cleared == s.cleared
            && s'.buf.indexProd == s.buf.indexProd && s'.buf.indexCons == s.buf.indexCons
  {
    RightCell(s, t.who);
    WritesZeroCell(s, t.who);
  }

  /** A consumer that does zeroes the cell of the oldest item, and no other. */
  lemma ConsumerTakes(s: State, t: Turn)
    requires Inv(s) && Touches(s, t.who, Consumer)
    ensures var s', cell := Step(s, t), s.cleared % |s.buf.cells|;
            && s.cleared < |s.written| && s.buf.cells[cell] == s.written[s.cleared]
            && s'.buf.cells == s.buf.cells[cell := 0]
            && s'.written == s.written && s'.cleared == s.cleared + 1
            && s'.buf.indexProd == s.buf.indexProd && s'.buf.indexCons == s.buf.indexCons
  {
    RightCell(s, t.who);
    ClearsOldestItem(s, t.who);
  }

  /** Nothing else touches the cells. */
  lemma CellsKept(s: State, t: Turn)
    requires |s.buf.cells| > 0 && forall r :: !Touches(s, t.who, r)
    ensures Step(s, t).buf.cells == s.buf.cells && Step(s, t).written == s.written && Step(s, t).cleared == s.cleared
  {
    if t.who < |s.workers| {
      assert !Touches(s, t.who, s.workers[t.who].role);
    }
  }

  // ----- Every run -----

  /** Each pid has been written as often as the producers with it have got to
      their cell. */
  ghost predicate WrittenBy(s: State) {
    forall pid: int :: multiset(s.written)[pid] == Total(Wrote(pid), s.workers)
  }

  lemma WroteAfterPost(s: State, i: nat, name: SemName, after: Worker, pid: int)
    requires i < |s.workers| && s.workers[i].on == None && QueueOk(Get(s.sems, name), name, s.workers)
    requires Weight(Wrote(pid), after) == Weight(Wrote(pid), s.workers[i])
    ensures Total(Wrote(pid), SemPost(s, i, name, after).workers) == Total(Wrote(pid), s.workers)
  {
    var freed := PostFrees(s, i, name);
    PostTotal(Wrote(pid), s, i, name, after);
    if freed.Some? {
      WroteUnblocked(s.workers[freed.value], pid);
    }
  }

  lemma WroteUnblocked(w: Worker, pid: int)
    ensures Weight(Wrote(pid), w.(on := None)) == Weight(Wrote(pid), w)
  {
  }

  lemma WroteLocally(s: State, i: nat, pid: int)
    requires |s.buf.cells| > 0 && i < |s.workers| && Enabled(s.workers[i])
    requires s.workers[i].pc != PostMutex && s.workers[i].pc != PostItem
    ensures Act(s, i).workers == s.workers[i := Act(s, i).workers[i]]
    ensures Weight(Wrote(pid), Act(s, i).workers[i])
            == Weight(Wrote(pid), s.workers[i]) + One(Touches(s, i, Producer) && s.workers[i].pid == pid)
  {
  }

  lemma WroteInRound(w: Worker, pid: int)
    requires WorkerOk(w)
    ensures w.pc == PostMutex ==> Weight(Wrote(pid), w.(pc := PostItem, ret := 0)) == Weight(Wrote(pid), w)
    ensures w.pc == PostItem ==> Weight(Wrote(pid), NextRound(w)) == Weight(Wrote(pid), w)
  {
  }

  lemma ActWrote(s: State, i: nat, pid: int)
    requires Inv(s) && i < |s.workers| && Enabled(s.workers[i])
    ensures Total(Wrote(pid), Act(s, i).workers)
            == Total(Wrote(pid), s.workers) + One(Touches(s, i, Producer) && s.workers[i].pid == pid)
  {
    var w := s.workers[i];
    assert WorkerOk(w);
    WroteInRound(w, pid);
    if w.pc == PostMutex {
      assert QueueOk(Get(s.sems, MutexOf(w.role)), MutexOf(w.role), s.workers);
      WroteAfterPost(s, i, MutexOf(w.role), w.(pc := PostItem, ret := 0), pid);
    } else if w.pc == PostItem {
      AtPostItemIs(s, i);
      PostItemIs(s, i);
      WroteAfterPost(s, i, ItemOf(w.role), NextRound(w), pid);
    } else {
      WroteLocally(s, i, pid);
      TotalUpdate(Wrote(pid), s.workers, i, Act(s, i).workers[i]);
    }
  }

  lemma StepWrote(s: State, t: Turn, pid: int)
    requires Inv(s)
    ensures Total(Wrote(pid), Step(s, t).workers)
            == Total(Wrote(pid), s.workers) + One(Touches(s, t.who, Producer) && s.workers[t.who].pid == pid)
  {
    if t.who < |s.workers| && Enabled(s.workers[t.who]) {
      ActWrote(s, t.who, pid);
      ResumeWrote(Act(s, t.who), t.next, pid);
    }
  }

  lemma ResumeWrote(s: State, next: Option<nat>, pid: int)
    ensures Total(Wrote(pid), Resume(s, next).workers) == Total(Wrote(pid), s.workers)
  {
    if next.Some? && next.value < |s.workers| {
      TotalUpdate(Wrote(pid), s.workers, next.value, s.workers[next.value].(ret := 0));
    }
  }

  lemma StepKeepsWritten(s: State, t: Turn)
    requires Inv(s) && WrittenBy(s)
    ensures WrittenBy(Step(s, t))
  {
    var s' := Step(s, t);
    forall pid: int ensures multiset(s'.written)[pid] == Total(Wrote(pid), s'.workers) {
      StepWrote(s, t, pid);
      if Touches(s, t.who, Producer) {
        ProducerPuts(s, t);
      } else if Touches(s, t.who, Consumer) {
        ConsumerTakes(s, t);
      } else {
        CellsKept(s, t);
      }
    }
  }

  lemma {:induction false} RunKeepsWritten(s: State, schedule: seq<Turn>)
    requires Inv(s) && WrittenBy(s)
    ensures Inv(Exec(s, schedule)) && WrittenBy(Exec(s, schedule))
    decreases |schedule|
  {
    if schedule != [] {
      StepKeepsInv(s, schedule[0]);
      StepKeepsWritten(s, schedule[0]);
      RunKeepsWritten(Step(s, schedule[0]), schedule[1..]);
    }
  }

  lemma StartIsWritten(s: State, length: nat)
    requires Initial(s, length)
    ensures WrittenBy(s)
  {
    forall pid: int ensures Total(Wrote(pid), s.workers) == 0 {
      forall k | 0 <= k < |s.workers| ensures Weight(Wrote(pid), s.workers[k]) == 0 {
      }
      TotalNonNegative(Wrote(pid), s.workers);
    }
  }

  predicate IsProducer(s: State, pid: int) {
    exists i :: 0 <= i < |s.workers| && s.workers[i].role == Producer && s.workers[i].pid == pid
  }

  /** From start-up, in every schedule: each pid has been written exactly as often
      as its producers have got to their cell, everything ever written is the pid
      of a producer, and so is every cell that is not zero; when all work is done,
      every producer's pid has been written once for each of its rounds. */
  lemma ItemsArePids(s: State, length: nat, schedule: seq<Turn>)
    requires Initial(s, length) && Guarded(s.workers)
    ensures var s' := Exec(s, schedule);
            && WrittenBy(s')
            && (forall k :: 0 <= k < |s'.written| ==> IsProducer(s, s'.written[k]))
            && (forall c :: 0 <= c < |s'.buf.cells| && s'.buf.cells[c] != 0 ==> IsProducer(s, s'.buf.cells[c]))
            && (AllFinished(s') ==> forall pid: int :: multiset(s'.written)[pid] == Total(RoundsOf(pid), s.workers))
  {
    InitialInv(s, length);
    StartIsWritten(s, length);
    RunKeepsWritten(s, schedule);
    var s' := Exec(s, schedule);
    forall k | 0 <= k < |s'.written| ensures IsProducer(s, s'.written[k]) {
      WriterOf(s, schedule, s'.written[k]);
    }
    if AllFinished(s') {
      forall pid: int ensures multiset(s'.written)[pid] == Total(RoundsOf(pid), s.workers) {
        AllWritten(s', pid);
        SameRounds(s, schedule, pid);
      }
    }
  }

  lemma WriterOf(s: State, schedule: seq<Turn>, pid: int)
    requires |s.buf.cells| > 0 && WrittenBy(Exec(s, schedule)) && pid in Exec(s, schedule).written
    ensures IsProducer(s, pid)
  {
    assert pid in multiset(Exec(s, schedule).written);
    var k := TotalWitness(Wrote(pid), Exec(s, schedule).workers);
    RunKeepsSides(s, schedule, k);
  }

  lemma SameRounds(s: State, schedule: seq<Turn>, pid: int)
    requires |s.buf.cells| > 0
    ensures Total(RoundsOf(pid), Exec(s, schedule).workers) == Total(RoundsOf(pid), s.workers)
  {
    var ws, ws' := s.workers, Exec(s, schedule).workers;
    forall k | 0 <= k < |ws| ensures Weight(RoundsOf(pid), ws'[k]) == Weight(RoundsOf(pid), ws[k]) {
      RunKeepsSides(s, schedule, k);
    }
    TotalsCompare(RoundsOf(pid), ws, RoundsOf(pid), ws');
    TotalsCompare(RoundsOf(pid), ws', RoundsOf(pid), ws);
  }

  lemma AllWritten(s: State, pid: int)
    requires Inv(s) && WrittenBy(s) && AllFinished(s)
    ensures multiset(s.written)[pid] == Total(RoundsOf(pid), s.workers)
  {
    forall k | 0 <= k < |s.workers| ensures Weight(Wrote(pid), s.workers[k]) == Weight(RoundsOf(pid), s.workers[k]) {
      assert WorkerOk(s.workers[k]);
    }
    TotalCompare(Wrote(pid), RoundsOf(pid), s.workers);
    TotalCompare(RoundsOf(pid), Wrote(pid), s.workers);
  }
}

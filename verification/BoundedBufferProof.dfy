/** Safety of the bounded buffer, step by step: the invariants of its semaphores,
    workers and cells, for any number of workers and any iteration counts, and
    why every step of every worker keeps them. */
module BoundedBufferProof {
  import opened Lists
  import opened CountingSemaphore
  import opened BoundedBuffer

  // ----- Invariants -----

  /** Two workers on the same side both use that side's mutex. */
  ghost predicate Guarded(ws: seq<Worker>) {
    forall i, j :: 0 <= i < j < |ws| && ws[i].role == ws[j].role ==> ws[i].locked && ws[j].locked
  }

  /** A worker reads a value its own loop has not written only after the very
      first wait on its slot semaphore. */
  predicate WorkerOk(w: Worker) {
    && w.pid > 0 && w.left <= w.quota
    && (w.pc == Finished <==> w.left == 0)
    && (w.pc == WaitMutex || w.pc == CheckMutex || w.pc == PostMutex ==> w.locked)
    && (w.on.Some? ==>
          || (w.on == Some(SlotOf(w.role)) && w.pc == CheckSlot)
          || (w.on == Some(MutexOf(w.role)) && w.pc == CheckMutex))
    && (w.ret != 0 ==>
        w.left == w.quota && (w.pc == WaitSlot || w.pc == CheckSlot || w.pc == GivenUp || w.pc == Finished))
    && (w.pc == GivenUp ==> w.ret != 0)
  }

  ghost predicate WorkersOk(ws: seq<Worker>) {
    forall i :: 0 <= i < |ws| ==> WorkerOk(ws[i])
  }

  /** A semaphore's queue lists, once each, exactly the workers blocked on it. */
  ghost predicate QueueOk(sem: Sem<nat>, name: SemName, ws: seq<Worker>) {
    && Counted(sem)
    && NoDup(sem.queue)
    && (forall k :: 0 <= k < |sem.queue| ==> sem.queue[k] < |ws| && ws[sem.queue[k]].on == Some(name))
    && (forall i :: 0 <= i < |ws| && ws[i].on == Some(name) ==> i in sem.queue)
  }

  ghost predicate QueuesOk(s: State) {
    forall name: SemName :: QueueOk(Get(s.sems, name), name, s.workers)
  }

  /** Either the side's mutex is held by at most one worker or free, or the
      side has a single worker and no mutex. */
  ghost predicate SectionOk(s: State, r: Role) {
    if Total(Unlocked(r), s.workers) == 0
    then Total(Busy(r), s.workers) + Tokens(Get(s.sems, MutexOf(r))) == 1
    else Total(Of(r), s.workers) == 1
  }

  /** Every place of the buffer is accounted for by a token or a worker. */
  ghost predicate PlacesOk(s: State) {
    Total(InFlight, s.workers) + Tokens(s.sems.empty) + Tokens(s.sems.fill) == |s.buf.cells|
  }

  /** The cells written and not cleared: announced, about to be announced, or
      claimed by a consumer that has not cleared its cell yet. */
  ghost predicate DepthOk(s: State) {
    |s.written| - s.cleared == Tokens(s.sems.fill) + Total(Written, s.workers) + Total(Holding, s.workers)
  }

  /** The fill counter is the items announced minus the items asked for, and the
      empty counter the free places likewise. */
  ghost predicate FlowOk(s: State) {
    && s.sems.fill.count == Total(Posts(Producer), s.workers) - Total(Waits(Consumer), s.workers)
    && s.sems.empty.count == |s.buf.cells| + Total(Posts(Consumer), s.workers) - Total(Waits(Producer), s.workers)
  }

  /** The number of the write, if any, that cell `c` may currently hold. */
  function Ticket(c: int, cleared: int, n: int): int
    requires n > 0
  {
    cleared + (c - cleared) % n
  }

  /** The non-zero cells are the circular window of writes not yet cleared, each
      holding the value written there; all other cells are zero. */
  ghost predicate Window(cells: seq<int>, written: seq<int>, cleared: nat)
    requires |cells| > 0
  {
    forall c :: 0 <= c < |cells| ==>
      cells[c] == if Ticket(c, cleared, |cells|) < |written| then written[Ticket(c, cleared, |cells|)] else 0
  }

  ghost predicate WindowOk(s: State)
    requires |s.buf.cells| > 0
  {
    && (forall k :: 0 <= k < |s.written| ==> s.written[k] > 0)
    && Window(s.buf.cells, s.written, s.cleared)
  }

  /** The shared indices are the next cells to write and to clear, once the
      worker that has just touched one has stored its index; and a worker's
      local copy is current while it uses it. */
  ghost predicate IndicesOk(s: State)
    requires |s.buf.cells| > 0
  {
    && s.buf.indexProd == (|s.written| - Total(Storing(Producer), s.workers)) % |s.buf.cells|
    && s.buf.indexCons == (s.cleared - Total(Storing(Consumer), s.workers)) % |s.buf.cells|
    && forall i :: 0 <= i < |s.workers| ==>
         (s.workers[i].pc == TouchCell || s.workers[i].pc == StoreIndex ==>
            s.workers[i].n == Index(s.buf, s.workers[i].role))
  }

  ghost predicate Inv(s: State) {
    && |s.buf.cells| > 0
    && WorkersOk(s.workers)
    && QueuesOk(s)
    && SectionOk(s, Producer) && SectionOk(s, Consumer)
    && PlacesOk(s) && DepthOk(s) && FlowOk(s)
    && WindowOk(s)
    && IndicesOk(s)
  }

  // ----- Counting lemmas -----

  /** A total of non-negative weights is at least the sum of any two of them. */
  lemma {:induction false} TotalAtLeast(m: Measure, ws: seq<Worker>, i: nat)
    requires forall k :: 0 <= k < |ws| ==> Weight(m, ws[k]) >= 0
    requires i < |ws|
    ensures Total(m, ws) >= Weight(m, ws[i])
    ensures forall j :: 0 <= j < |ws| && j != i ==> Total(m, ws) >= Weight(m, ws[i]) + Weight(m, ws[j])
    decreases |ws|
  {
    var rest := ws[1..];
    TotalNonNegative(m, rest);
    if i > 0 {
      TotalAtLeast(m, rest, i - 1);
    }
    forall j | 0 <= j < |ws| && j != i
      ensures Total(m, ws) >= Weight(m, ws[i]) + Weight(m, ws[j])
    {
      if i == 0 {
        TotalAtLeast(m, rest, j - 1);
      } else if j > 0 {
        assert rest[j - 1] == ws[j];
      }
    }
  }

  lemma {:induction false} TotalNonNegative(m: Measure, ws: seq<Worker>)
    requires forall k :: 0 <= k < |ws| ==> Weight(m, ws[k]) >= 0
    ensures Total(m, ws) >= 0
    ensures (forall k :: 0 <= k < |ws| ==> Weight(m, ws[k]) == 0) ==> Total(m, ws) == 0
    decreases |ws|
  {
    if ws != [] {
      TotalNonNegative(m, ws[1..]);
    }
  }

  /** A positive total has a worker behind it. */
  lemma {:induction false} TotalWitness(m: Measure, ws: seq<Worker>) returns (i: nat)
    requires Total(m, ws) > 0
    ensures i < |ws| && Weight(m, ws[i]) > 0
    decreases |ws|
  {
    if Weight(m, ws[0]) > 0 {
      i := 0;
    } else {
      i := TotalWitness(m, ws[1..]);
      i := i + 1;
    }
  }

  lemma TotalCompare(m: Measure, m': Measure, ws: seq<Worker>)
    requires forall k :: 0 <= k < |ws| ==> Weight(m, ws[k]) <= Weight(m', ws[k])
    ensures Total(m, ws) <= Total(m', ws)
  {
    TotalsCompare(m, ws, m', ws);
  }

  lemma {:induction false} TotalsCompare(m: Measure, ws: seq<Worker>, m': Measure, ws': seq<Worker>)
    requires |ws| == |ws'|
    requires forall k :: 0 <= k < |ws| ==> Weight(m, ws[k]) <= Weight(m', ws'[k])
    ensures Total(m, ws) <= Total(m', ws')
    decreases |ws|
  {
    if ws != [] {
      TotalsCompare(m, ws[1..], m', ws'[1..]);
    }
  }

  // ----- Mutual exclusion -----

  /** At most one worker a side is between its mutex calls. */
  lemma BusyAtMostOne(s: State, r: Role)
    requires SectionOk(s, r)
    ensures Total(Busy(r), s.workers) <= 1
  {
    TotalCompare(Busy(r), Of(r), s.workers);
  }

  /** A worker in its section is alone there, so the stored index is behind the
      cells only by that worker's own pending store. */
  lemma Alone(s: State, i: nat)
    requires i < |s.workers| && InSection(s.workers[i])
    requires SectionOk(s, s.workers[i].role)
    ensures forall j :: 0 <= j < |s.workers| && j != i && s.workers[j].role == s.workers[i].role ==>
              !InSection(s.workers[j])
    ensures Total(Storing(s.workers[i].role), s.workers) == One(s.workers[i].pc == StoreIndex)
  {
    var w := s.workers[i];
    BusyAtMostOne(s, w.role);
    TotalAtLeast(Busy(w.role), s.workers, i);
    var others := s.workers[i := w.(pc := Finished)];
    TotalUpdate(Storing(w.role), s.workers, i, w.(pc := Finished));
    TotalNonNegative(Storing(w.role), others);
  }

  // ----- The queues -----

  /** Changing a worker that is blocked on something else leaves a queue right. */
  lemma OtherQueue(sem: Sem<nat>, name: SemName, ws: seq<Worker>, i: nat, w: Worker)
    requires QueueOk(sem, name, ws)
    requires i < |ws| && ws[i].on != Some(name) && w.on != Some(name)
    ensures QueueOk(sem, name, ws[i := w])
  {
  }

  lemma QueueAfterWait(sem: Sem<nat>, name: SemName, ws: seq<Worker>, i: nat, w: Worker)
    requires QueueOk(sem, name, ws)
    requires i < |ws| && ws[i].on == None && w.on == if sem.count <= 0 then Some(name) else None
    ensures QueueOk(Wait(sem, i), name, ws[i := w])
  {
    var q := Wait(sem, i).queue;
    assert forall k :: 0 <= k < |sem.queue| ==> sem.queue[k] != i;
    if sem.count <= 0 {
      assert q[|q| - 1] == i;
    }
  }

  lemma QueueAfterPost(sem: Sem<nat>, name: SemName, ws: seq<Worker>)
    requires QueueOk(sem, name, ws)
    ensures QueueOk(Post(sem), name, Unblock(ws, Released(sem)))
    ensures Released(sem).Some? ==> Released(sem).value < |ws| && ws[Released(sem).value].on == Some(name)
  {
    if Released(sem).Some? {
      var q := sem.queue;
      assert forall k :: 0 <= k < |q[1..]| ==> q[1..][k] == q[k + 1];
      forall j | 0 <= j < |ws| && j != q[0] && ws[j].on == Some(name) ensures j in q[1..] {
        assert q == [q[0]] + q[1..];
      }
    }
  }

  lemma WaitKeepsQueues(s: State, i: nat, name: SemName, next: Pc)
    requires i < |s.workers| && s.workers[i].on == None
    requires QueuesOk(s)
    ensures QueuesOk(SemWait(s, i, name, next))
  {
    var s' := SemWait(s, i, name, next);
    var sem := Get(s.sems, name);
    var w := s'.workers[i];
    forall other: SemName ensures QueueOk(Get(s'.sems, other), other, s'.workers) {
      if other == name {
        QueueAfterWait(sem, name, s.workers, i, w);
      } else {
        OtherQueue(Get(s.sems, other), other, s.workers, i, w);
      }
    }
  }

  lemma PostKeepsQueues(s: State, i: nat, name: SemName, after: Worker)
    requires i < |s.workers| && s.workers[i].on == None && after.on == None
    requires QueuesOk(s)
    ensures QueuesOk(SemPost(s, i, name, after))
  {
    var s' := SemPost(s, i, name, after);
    var sem := Get(s.sems, name);
    var ws := s.workers[i := after];
    OtherQueue(sem, name, s.workers, i, after);
    QueueAfterPost(sem, name, ws);
    forall other: SemName ensures QueueOk(Get(s'.sems, other), other, s'.workers) {
      if other != name {
        OtherQueue(Get(s.sems, other), other, s.workers, i, after);
        if Released(sem).Some? {
          OtherQueue(Get(s.sems, other), other, ws, Released(sem).value, ws[Released(sem).value].(on := None));
        }
      }
    }
  }

  // ----- Tokens and sections -----

  /** A worker that keeps its role and its locking keeps the shape of its side. */
  lemma SectionTotals(ws: seq<Worker>, i: nat, w: Worker, r: Role)
    requires i < |ws| && w.role == ws[i].role && w.locked == ws[i].locked
    ensures Total(Of(r), ws[i := w]) == Total(Of(r), ws)
    ensures Total(Unlocked(r), ws[i := w]) == Total(Unlocked(r), ws)
    ensures ws[i].role == r && !ws[i].locked ==> Total(Unlocked(r), ws) > 0
    ensures Total(Busy(r), ws[i := w]) == Total(Busy(r), ws) - Weight(Busy(r), ws[i]) + Weight(Busy(r), w)
  {
    TotalUpdate(Of(r), ws, i, w);
    TotalUpdate(Unlocked(r), ws, i, w);
    TotalUpdate(Busy(r), ws, i, w);
    TotalAtLeast(Unlocked(r), ws, i);
  }

  lemma WaitSlotKeepsPlaces(s: State, i: nat)
    requires i < |s.workers| && Enabled(s.workers[i]) && s.workers[i].pc == WaitSlot
    requires PlacesOk(s)
    ensures PlacesOk(SemWait(s, i, SlotOf(s.workers[i].role), CheckSlot))
  {
    var w := s.workers[i];
    TotalUpdate(InFlight, s.workers, i, Waiter(s, i, SlotOf(w.role), CheckSlot));
  }

  lemma WaitSlotKeepsDepth(s: State, i: nat)
    requires i < |s.workers| && Enabled(s.workers[i]) && s.workers[i].pc == WaitSlot
    requires DepthOk(s)
    ensures DepthOk(SemWait(s, i, SlotOf(s.workers[i].role), CheckSlot))
  {
    var w := s.workers[i];
    TotalUpdate(Written, s.workers, i, Waiter(s, i, SlotOf(w.role), CheckSlot));
    TotalUpdate(Holding, s.workers, i, Waiter(s, i, SlotOf(w.role), CheckSlot));
  }

  lemma WaitSlotKeepsFlow(s: State, i: nat)
    requires i < |s.workers| && Enabled(s.workers[i]) && s.workers[i].pc == WaitSlot
    requires FlowOk(s)
    ensures FlowOk(SemWait(s, i, SlotOf(s.workers[i].role), CheckSlot))
  {
    var w := s.workers[i];
    var w' := Waiter(s, i, SlotOf(w.role), CheckSlot);
    FlowTotals(s.workers, i, w', Producer);
    FlowTotals(s.workers, i, w', Consumer);
  }

  lemma FlowTotals(ws: seq<Worker>, i: nat, w: Worker, r: Role)
    requires i < |ws| && ws[i].pc == WaitSlot && w.pc == CheckSlot
    requires w.role == ws[i].role && w.quota == ws[i].quota && w.left == ws[i].left
    ensures Total(Posts(r), ws[i := w]) == Total(Posts(r), ws)
    ensures Total(Waits(r), ws[i := w]) == Total(Waits(r), ws) + One(w.role == r)
  {
    TotalUpdate(Posts(r), ws, i, w);
    TotalUpdate(Waits(r), ws, i, w);
  }

  /** Workers may change in ways the tokens do not see. */
  ghost predicate SameTokens(ws: seq<Worker>, ws': seq<Worker>) {
    && Total(InFlight, ws') == Total(InFlight, ws)
    && Total(Written, ws') == Total(Written, ws)
    && Total(Holding, ws') == Total(Holding, ws)
    && Total(Posts(Producer), ws') == Total(Posts(Producer), ws)
    && Total(Waits(Consumer), ws') == Total(Waits(Consumer), ws)
    && Total(Posts(Consumer), ws') == Total(Posts(Consumer), ws)
    && Total(Waits(Producer), ws') == Total(Waits(Producer), ws)
  }

  lemma UnseenChange(ws: seq<Worker>, i: nat, w: Worker)
    requires i < |ws|
    requires Weight(InFlight, w) == Weight(InFlight, ws[i])
    requires Weight(Written, w) == Weight(Written, ws[i])
    requires Weight(Holding, w) == Weight(Holding, ws[i])
    requires Weight(Posts(Producer), w) == Weight(Posts(Producer), ws[i])
    requires Weight(Waits(Consumer), w) == Weight(Waits(Consumer), ws[i])
    requires Weight(Posts(Consumer), w) == Weight(Posts(Consumer), ws[i])
    requires Weight(Waits(Producer), w) == Weight(Waits(Producer), ws[i])
    ensures SameTokens(ws, ws[i := w])
  {
    TotalUpdate(InFlight, ws, i, w);
    TotalUpdate(Written, ws, i, w);
    TotalUpdate(Holding, ws, i, w);
    TotalUpdate(Posts(Producer), ws, i, w);
    TotalUpdate(Waits(Consumer), ws, i, w);
    TotalUpdate(Posts(Consumer), ws, i, w);
    TotalUpdate(Waits(Producer), ws, i, w);
  }

  lemma WaitMutexUnseen(s: State, i: nat)
    requires i < |s.workers| && Enabled(s.workers[i]) && s.workers[i].pc == WaitMutex
    ensures SameTokens(s.workers, SemWait(s, i, MutexOf(s.workers[i].role), CheckMutex).workers)
  {
    UnseenChange(s.workers, i, Waiter(s, i, MutexOf(s.workers[i].role), CheckMutex));
  }

  lemma PostMutexUnseen(s: State, i: nat)
    requires i < |s.workers| && Enabled(s.workers[i]) && s.workers[i].pc == PostMutex
    requires WorkersOk(s.workers)
    requires QueueOk(Get(s.sems, MutexOf(s.workers[i].role)), MutexOf(s.workers[i].role), s.workers)
    ensures SameTokens(s.workers,
                       SemPost(s, i, MutexOf(s.workers[i].role), s.workers[i].(pc := PostItem, ret := 0)).workers)
  {
    var w := s.workers[i];
    var freed := Released(Get(s.sems, MutexOf(w.role)));
    var ws := s.workers[i := w.(pc := PostItem, ret := 0)];
    UnseenChange(s.workers, i, w.(pc := PostItem, ret := 0));
    if freed.Some? {
      UnseenChange(ws, freed.value, ws[freed.value].(on := None));
    }
  }

  /** The worker that a post releases: another one, blocked on that semaphore,
      and there is one exactly when the counter was negative. */
  lemma PostFrees(s: State, i: nat, name: SemName) returns (freed: Option<nat>)
    requires i < |s.workers| && s.workers[i].on == None
    requires QueueOk(Get(s.sems, name), name, s.workers)
    ensures freed == Released(Get(s.sems, name))
    ensures freed.Some? ==> freed.value < |s.workers| && freed.value != i && s.workers[freed.value].on == Some(name)
    ensures freed.Some? <==> Get(s.sems, name).count < 0
  {
    freed := Released(Get(s.sems, name));
  }

  /** The totals of one measure after a post. */
  lemma PostTotal(m: Measure, s: State, i: nat, name: SemName, after: Worker)
    requires i < |s.workers| && s.workers[i].on == None
    requires QueueOk(Get(s.sems, name), name, s.workers)
    ensures var freed := Released(Get(s.sems, name));
            Total(m, SemPost(s, i, name, after).workers)
            == Total(m, s.workers) - Weight(m, s.workers[i]) + Weight(m, after)
             + if freed.Some? then Weight(m, s.workers[freed.value].(on := None)) - Weight(m, s.workers[freed.value])
               else 0
  {
    var freed := PostFrees(s, i, name);
    var ws := s.workers[i := after];
    TotalUpdate(m, s.workers, i, after);
    if freed.Some? {
      TotalUpdate(m, ws, freed.value, ws[freed.value].(on := None));
    }
  }

  function NextRound(w: Worker): Worker
    requires w.left > 0
  {
    w.(left := w.left - 1, pc := LoopTop(w.left - 1), ret := 0)
  }

  ghost predicate AtPostItem(s: State, i: nat) {
    && i < |s.workers| && Enabled(s.workers[i]) && s.workers[i].pc == PostItem
    && WorkersOk(s.workers)
    && QueueOk(Get(s.sems, ItemOf(s.workers[i].role)), ItemOf(s.workers[i].role), s.workers)
  }

  /** What completing a round changes in each count. */
  lemma NextRoundWeights(w: Worker)
    requires WorkerOk(w) && Enabled(w) && w.pc == PostItem
    ensures Weight(InFlight, w) == 1 && Weight(InFlight, NextRound(w)) == 0
    ensures Weight(Written, w) == One(w.role == Producer) && Weight(Written, NextRound(w)) == 0
    ensures Weight(Holding, w) == Weight(Holding, NextRound(w)) == 0
    ensures Weight(Posts(Producer), NextRound(w)) == Weight(Posts(Producer), w) + One(w.role == Producer)
    ensures Weight(Posts(Consumer), NextRound(w)) == Weight(Posts(Consumer), w) + One(w.role == Consumer)
    ensures Weight(Waits(Consumer), NextRound(w)) == Weight(Waits(Consumer), w)
    ensures Weight(Waits(Producer), NextRound(w)) == Weight(Waits(Producer), w)
  {
  }

  /** What being handed a slot token changes in each count. */
  lemma HandOffWeights(w: Worker)
    requires WorkerOk(w) && w.on == Some(SlotOf(w.role))
    ensures Weight(InFlight, w) == 0 && Weight(InFlight, w.(on := None)) == 1
    ensures Weight(Written, w.(on := None)) == Weight(Written, w)
    ensures Weight(Holding, w) == 0 && Weight(Holding, w.(on := None)) == One(w.role == Consumer)
    ensures Weight(Posts(Producer), w.(on := None)) == Weight(Posts(Producer), w)
    ensures Weight(Posts(Consumer), w.(on := None)) == Weight(Posts(Consumer), w)
    ensures Weight(Waits(Consumer), w.(on := None)) == Weight(Waits(Consumer), w)
    ensures Weight(Waits(Producer), w.(on := None)) == Weight(Waits(Producer), w)
  {
  }

  /** The worker that an announced item releases is on the other side. */
  lemma PostItemFrees(s: State, i: nat) returns (freed: Option<nat>)
    requires AtPostItem(s, i)
    ensures freed == Released(Get(s.sems, ItemOf(s.workers[i].role)))
    ensures freed.Some? <==> Get(s.sems, ItemOf(s.workers[i].role)).count < 0
    ensures freed.Some? ==>
              && freed.value < |s.workers| && freed.value != i
              && s.workers[freed.value].role != s.workers[i].role
              && s.workers[freed.value].on == Some(SlotOf(s.workers[freed.value].role))
  {
    freed := PostFrees(s, i, ItemOf(s.workers[i].role));
    if freed.Some? {
      assert WorkerOk(s.workers[freed.value]);
    }
  }

  lemma PostItemKeepsPlaces(s: State, i: nat)
    requires AtPostItem(s, i) && PlacesOk(s)
    ensures PlacesOk(SemPost(s, i, ItemOf(s.workers[i].role), NextRound(s.workers[i])))
  {
    var w := s.workers[i];
    var freed := PostItemFrees(s, i);
    PostTotal(InFlight, s, i, ItemOf(w.role), NextRound(w));
    NextRoundWeights(w);
    if freed.Some? {
      HandOffWeights(s.workers[freed.value]);
    }
  }

  lemma PostItemKeepsDepth(s: State, i: nat)
    requires AtPostItem(s, i) && DepthOk(s)
    ensures DepthOk(SemPost(s, i, ItemOf(s.workers[i].role), NextRound(s.workers[i])))
  {
    var w := s.workers[i];
    var freed := PostItemFrees(s, i);
    PostTotal(Written, s, i, ItemOf(w.role), NextRound(w));
    PostTotal(Holding, s, i, ItemOf(w.role), NextRound(w));
    NextRoundWeights(w);
    if freed.Some? {
      HandOffWeights(s.workers[freed.value]);
    }
  }

  lemma PostItemKeepsFlow(s: State, i: nat)
    requires AtPostItem(s, i) && FlowOk(s)
    ensures FlowOk(SemPost(s, i, ItemOf(s.workers[i].role), NextRound(s.workers[i])))
  {
    var w := s.workers[i];
    var freed := PostItemFrees(s, i);
    PostTotal(Posts(Producer), s, i, ItemOf(w.role), NextRound(w));
    PostTotal(Waits(Consumer), s, i, ItemOf(w.role), NextRound(w));
    PostTotal(Posts(Consumer), s, i, ItemOf(w.role), NextRound(w));
    PostTotal(Waits(Producer), s, i, ItemOf(w.role), NextRound(w));
    NextRoundWeights(w);
    if freed.Some? {
      HandOffWeights(s.workers[freed.value]);
    }
  }

  lemma TouchKeepsTokens(s: State, i: nat)
    requires i < |s.workers| && Enabled(s.workers[i]) && s.workers[i].pc == TouchCell
    requires PlacesOk(s) && DepthOk(s) && FlowOk(s)
    ensures |Touch(s, i).buf.cells| == |s.buf.cells|
    ensures PlacesOk(Touch(s, i)) && DepthOk(Touch(s, i)) && FlowOk(Touch(s, i))
  {
    var w := s.workers[i].(pc := StoreIndex);
    TotalUpdate(InFlight, s.workers, i, w);
    TotalUpdate(Written, s.workers, i, w);
    TotalUpdate(Holding, s.workers, i, w);
    TotalUpdate(Posts(Producer), s.workers, i, w);
    TotalUpdate(Waits(Consumer), s.workers, i, w);
    TotalUpdate(Posts(Consumer), s.workers, i, w);
    TotalUpdate(Waits(Producer), s.workers, i, w);
  }

  // ----- Sections -----

  lemma WaitKeepsSections(s: State, i: nat, name: SemName, next: Pc, r: Role)
    requires i < |s.workers| && Enabled(s.workers[i]) && WorkerOk(s.workers[i])
    requires var w := s.workers[i];
             || (w.pc == WaitSlot && name == SlotOf(w.role) && next == CheckSlot)
             || (w.pc == WaitMutex && name == MutexOf(w.role) && next == CheckMutex)
    requires SectionOk(s, r)
    ensures SectionOk(SemWait(s, i, name, next), r)
  {
    SectionTotals(s.workers, i, Waiter(s, i, name, next), r);
  }

  /** Moving within the section, or out of it without a mutex. */
  lemma LocalKeepsSections(s: State, s': State, i: nat, w: Worker, r: Role)
    requires i < |s.workers| && s'.workers == s.workers[i := w] && s'.sems == s.sems
    requires w.role == s.workers[i].role && w.locked == s.workers[i].locked
    requires w.locked ==> InSection(w) == InSection(s.workers[i])
    requires SectionOk(s, r)
    ensures SectionOk(s', r)
  {
    SectionTotals(s.workers, i, w, r);
  }

  /** A worker that was queued for its mutex gets into its section. */
  lemma HandedSection(ws: seq<Worker>, k: nat, r: Role)
    requires k < |ws| && WorkerOk(ws[k]) && ws[k].on == Some(MutexOf(ws[k].role))
    ensures var ws' := ws[k := ws[k].(on := None)];
            && Total(Busy(r), ws') == Total(Busy(r), ws) + One(ws[k].role == r)
            && Total(Of(r), ws') == Total(Of(r), ws) && Total(Unlocked(r), ws') == Total(Unlocked(r), ws)
  {
    SectionTotals(ws, k, ws[k].(on := None), r);
  }

  /** Leaving the section. */
  lemma LeftSection(ws: seq<Worker>, i: nat, r: Role)
    requires i < |ws| && ws[i].pc == PostMutex && ws[i].locked
    ensures var ws' := ws[i := ws[i].(pc := PostItem, ret := 0)];
            && Total(Busy(r), ws') == Total(Busy(r), ws) - One(ws[i].role == r)
            && Total(Of(r), ws') == Total(Of(r), ws) && Total(Unlocked(r), ws') == Total(Unlocked(r), ws)
  {
    SectionTotals(ws, i, ws[i].(pc := PostItem, ret := 0), r);
  }

  /** Whoever a mutex is handed to is on the side that it guards. */
  lemma MutexFrees(s: State, i: nat, k: nat)
    requires i < |s.workers| && k < |s.workers| && WorkerOk(s.workers[k])
    requires s.workers[k].on == Some(MutexOf(s.workers[i].role))
    ensures s.workers[k].role == s.workers[i].role
  {
  }

  /** Leaving the section hands it to the next in the queue, if any. */
  lemma PostMutexTotals(s: State, i: nat, r: Role)
    requires i < |s.workers| && Enabled(s.workers[i]) && s.workers[i].pc == PostMutex
    requires WorkersOk(s.workers)
    requires QueueOk(Get(s.sems, MutexOf(s.workers[i].role)), MutexOf(s.workers[i].role), s.workers)
    ensures var w := s.workers[i];
            var mutex := Get(s.sems, MutexOf(w.role));
            var ws' := SemPost(s, i, MutexOf(w.role), w.(pc := PostItem, ret := 0)).workers;
            && Total(Of(r), ws') == Total(Of(r), s.workers) && Total(Unlocked(r), ws') == Total(Unlocked(r), s.workers)
            && Total(Busy(r), ws') == Total(Busy(r), s.workers) - One(w.role == r && mutex.count >= 0)
  {
    var w := s.workers[i];
    var freed := PostFrees(s, i, MutexOf(w.role));
    assert WorkerOk(w);
    LeftSection(s.workers, i, r);
    if freed.Some? {
      MutexFrees(s, i, freed.value);
      HandedSection(s.workers[i := w.(pc := PostItem, ret := 0)], freed.value, r);
    }
  }

  /** So the section stays guarded. */
  lemma PostMutexKeepsSections(s: State, i: nat, r: Role)
    requires i < |s.workers| && Enabled(s.workers[i]) && s.workers[i].pc == PostMutex
    requires WorkersOk(s.workers)
    requires QueueOk(Get(s.sems, MutexOf(s.workers[i].role)), MutexOf(s.workers[i].role), s.workers)
    requires SectionOk(s, r)
    ensures SectionOk(SemPost(s, i, MutexOf(s.workers[i].role), s.workers[i].(pc := PostItem, ret := 0)), r)
  {
    PostMutexTotals(s, i, r);
  }

  /** A change that keeps a locked worker where it is with respect to the section. */
  lemma SectionUnseen(ws: seq<Worker>, i: nat, w: Worker, r: Role)
    requires i < |ws| && w.role == ws[i].role && w.locked == ws[i].locked
    requires w.locked ==> InSection(w) == InSection(ws[i])
    ensures Total(Of(r), ws[i := w]) == Total(Of(r), ws)
    ensures Total(Unlocked(r), ws[i := w]) == Total(Unlocked(r), ws)
    ensures Total(Unlocked(r), ws) == 0 ==> Total(Busy(r), ws[i := w]) == Total(Busy(r), ws)
  {
    SectionTotals(ws, i, w, r);
  }

  lemma PostItemKeepsSections(s: State, i: nat, r: Role)
    requires AtPostItem(s, i) && SectionOk(s, r)
    ensures SectionOk(SemPost(s, i, ItemOf(s.workers[i].role), NextRound(s.workers[i])), r)
  {
    var w := s.workers[i];
    var freed := PostItemFrees(s, i);
    SectionUnseen(s.workers, i, NextRound(w), r);
    if freed.Some? {
      var ws := s.workers[i := NextRound(w)];
      var f := ws[freed.value];
      assert WorkerOk(f) && f.on == Some(SlotOf(f.role));
      SectionUnseen(ws, freed.value, f.(on := None), r);
    }
  }

  // ----- Modular arithmetic of the circular buffer -----

  lemma MultipleOf(d: int, n: int)
    requires n > 0
    ensures d >= 1 ==> d * n >= n
    ensures d <= -1 ==> d * n <= -n
  {
    if d >= 1 {
      assert (d - 1) * n >= 0;
    } else if d <= -1 {
      assert (-1 - d) * n >= 0;
    }
  }

  lemma ModUnique(x: int, q: int, r: int, n: int)
    requires n > 0 && 0 <= r < n && x == q * n + r
    ensures x % n == r
  {
    var d := q - x / n;
    assert d * n == q * n - (x / n) * n == x % n - r;
    MultipleOf(d, n);
  }

  /** `d` places after `a` and back. */
  lemma ModBack(a: int, d: int, n: int)
    requires n > 0 && 0 <= d < n
    ensures ((a + d) % n - a) % n == d
  {
    var x := (a + d) % n - a;
    assert x == (a + d) - ((a + d) / n) * n - a;
    ModUnique(x, -((a + d) / n), d, n);
  }

  lemma ModForth(a: int, c: int, n: int)
    requires n > 0 && 0 <= c < n
    ensures (a + (c - a) % n) % n == c
  {
    var y := a + (c - a) % n;
    assert y == c - ((c - a) / n) * n;
    ModUnique(y, -((c - a) / n), c, n);
  }

  lemma ModNext(a: int, n: int)
    requires n > 0
    ensures (a % n + 1) % n == (a + 1) % n
  {
    var r := (a + 1) % n;
    assert a % n + 1 == a - (a / n) * n + 1 == ((a + 1) / n - a / n) * n + r;
    ModUnique(a % n + 1, (a + 1) / n - a / n, r, n);
  }

  /** Moving the start of the window one on renumbers only the cell passed. */
  lemma ModShift(a: int, c: int, n: int)
    requires n > 0 && 0 <= c < n
    ensures c != a % n ==> 1 + (c - (a + 1)) % n == (c - a) % n
    ensures c == a % n ==> (c - (a + 1)) % n == n - 1
  {
    var r := (c - a) % n;
    var q := (c - a) / n;
    assert c - a == q * n + r;
    if r == 0 {
      assert a == -q * n + c;
      ModUnique(a, -q, c, n);
      assert c - (a + 1) == (q - 1) * n + (n - 1);
      ModUnique(c - (a + 1), q - 1, n - 1, n);
    } else {
      ModUnique(c - (a + 1), q, r - 1, n);
      if c == a % n {
        ModUnique(c - a, -(a / n), 0, n);
      }
    }
  }

  // ----- The buffer -----

  lemma {:induction false} PlacesSplit(ws: seq<Worker>)
    requires WorkersOk(ws)
    ensures Total(InFlight, ws) == Total(Written, ws) + Total(Holding, ws) + Total(Claimed, ws)
    decreases |ws|
  {
    if ws != [] {
      assert WorkersOk(ws[1..]);
      PlacesSplit(ws[1..]);
    }
  }

  lemma WeightsNonNegative(w: Worker)
    requires WorkerOk(w)
    ensures Weight(Claimed, w) >= 0 && Weight(Written, w) >= 0 && Weight(Holding, w) >= 0
  {
  }

  /** The window never overruns the buffer; a producer about to write finds
      room and a consumer about to clear finds an item. */
  lemma DepthBounds(s: State)
    requires WorkersOk(s.workers) && PlacesOk(s) && DepthOk(s)
    ensures 0 <= |s.written| - s.cleared <= |s.buf.cells|
  {
    Nonnegatives(s.workers);
    PlacesSplit(s.workers);
  }

  lemma Nonnegatives(ws: seq<Worker>)
    requires WorkersOk(ws)
    ensures Total(Claimed, ws) >= 0 && Total(Written, ws) >= 0 && Total(Holding, ws) >= 0
  {
    forall k | 0 <= k < |ws|
      ensures Weight(Claimed, ws[k]) >= 0 && Weight(Written, ws[k]) >= 0 && Weight(Holding, ws[k]) >= 0
    {
      WeightsNonNegative(ws[k]);
    }
    TotalNonNegative(Claimed, ws);
    TotalNonNegative(Written, ws);
    TotalNonNegative(Holding, ws);
  }

  lemma RoomToWrite(s: State, i: nat)
    requires WorkersOk(s.workers) && PlacesOk(s) && DepthOk(s)
    requires i < |s.workers| && s.workers[i].role == Producer && s.workers[i].pc == TouchCell
    ensures 0 <= |s.written| - s.cleared < |s.buf.cells|
  {
    DepthBounds(s);
    PlacesSplit(s.workers);
    forall k | 0 <= k < |s.workers| ensures Weight(Claimed, s.workers[k]) >= 0 {
      WeightsNonNegative(s.workers[k]);
    }
    assert WorkerOk(s.workers[i]);
    TotalAtLeast(Claimed, s.workers, i);
  }

  lemma ItemToClear(s: State, i: nat)
    requires WorkersOk(s.workers) && DepthOk(s)
    requires i < |s.workers| && s.workers[i].role == Consumer && s.workers[i].pc == TouchCell
    ensures 0 < |s.written| - s.cleared
  {
    Nonnegatives(s.workers);
    assert WorkerOk(s.workers[i]);
    TotalAtLeast(Holding, s.workers, i);
  }

  /** A worker about to touch a cell has the right one. */
  lemma RightCell(s: State, i: nat)
    requires |s.buf.cells| > 0 && IndicesOk(s)
    requires i < |s.workers| && SectionOk(s, s.workers[i].role)
    requires s.workers[i].pc == TouchCell
    ensures s.workers[i].n < |s.buf.cells|
    ensures s.workers[i].role == Producer ==> s.workers[i].n == |s.written| % |s.buf.cells|
    ensures s.workers[i].role == Consumer ==> s.workers[i].n == s.cleared % |s.buf.cells|
  {
    Alone(s, i);
  }

  /** A producer only ever writes a zero cell. */
  lemma WritesZeroCell(s: State, i: nat)
    requires Inv(s)
    requires i < |s.workers| && s.workers[i].role == Producer && s.workers[i].pc == TouchCell
    ensures s.workers[i].n < |s.buf.cells| && s.buf.cells[s.workers[i].n] == 0
    ensures Ticket(s.workers[i].n, s.cleared, |s.buf.cells|) == |s.written|
  {
    RightCell(s, i);
    RoomToWrite(s, i);
    ModBack(s.cleared, |s.written| - s.cleared, |s.buf.cells|);
  }

  lemma OldestInWindow(cells: seq<int>, written: seq<int>, cleared: nat)
    requires |cells| > 0 && Window(cells, written, cleared) && cleared < |written|
    ensures 0 <= cleared % |cells| < |cells| && cells[cleared % |cells|] == written[cleared]
  {
    ModBack(cleared, 0, |cells|);
    assert Ticket(cleared % |cells|, cleared, |cells|) == cleared;
  }

  /** A consumer only ever clears a non-zero cell: the oldest item written. */
  lemma ClearsOldestItem(s: State, i: nat)
    requires Inv(s)
    requires i < |s.workers| && s.workers[i].role == Consumer && s.workers[i].pc == TouchCell
    ensures s.workers[i].n < |s.buf.cells| && s.cleared < |s.written|
    ensures s.buf.cells[s.workers[i].n] == s.written[s.cleared] != 0
  {
    RightCell(s, i);
    ItemToClear(s, i);
    OldestInWindow(s.buf.cells, s.written, s.cleared);
  }

  lemma WriteInWindow(cells: seq<int>, written: seq<int>, cleared: nat, n: nat, value: int)
    requires |cells| > 0 && Window(cells, written, cleared)
    requires n < |cells| && Ticket(n, cleared, |cells|) == |written|
    ensures Window(cells[n := value], written + [value], cleared)
  {
    forall c | 0 <= c < |cells| && c != n ensures Ticket(c, cleared, |cells|) != |written| {
      ModForth(cleared, c, |cells|);
      ModForth(cleared, n, |cells|);
    }
  }

  lemma TicketShift(c: int, cleared: int, n: int)
    requires n > 0 && 0 <= c < n
    ensures Ticket(c, cleared + 1, n) == if c == cleared % n then cleared + n else Ticket(c, cleared, n)
  {
    ModShift(cleared, c, n);
  }

  lemma ClearInWindow(cells: seq<int>, written: seq<int>, cleared: nat, n: nat)
    requires |cells| > 0 && Window(cells, written, cleared)
    requires n == cleared % |cells|
    requires cleared < |written| <= cleared + |cells|
    ensures Window(cells[n := 0], written, cleared + 1)
  {
    var after := cells[n := 0];
    forall c | 0 <= c < |after|
      ensures var k := Ticket(c, cleared + 1, |after|);
              after[c] == if k < |written| then written[k] else 0
    {
      TicketShift(c, cleared, |after|);
    }
  }

  lemma WriteKeepsWindow(s: State, i: nat)
    requires Inv(s) && i < |s.workers| && s.workers[i].pc == TouchCell && s.workers[i].role == Producer
    ensures s.workers[i].n < |s.buf.cells|
    ensures Window(s.buf.cells[s.workers[i].n := s.workers[i].pid], s.written + [s.workers[i].pid], s.cleared)
  {
    WritesZeroCell(s, i);
    WriteInWindow(s.buf.cells, s.written, s.cleared, s.workers[i].n, s.workers[i].pid);
  }

  lemma ClearKeepsWindow(s: State, i: nat)
    requires Inv(s) && i < |s.workers| && s.workers[i].pc == TouchCell && s.workers[i].role == Consumer
    ensures s.workers[i].n < |s.buf.cells|
    ensures Window(s.buf.cells[s.workers[i].n := 0], s.written, s.cleared + 1)
  {
    RightCell(s, i);
    DepthBounds(s);
    ItemToClear(s, i);
    ClearInWindow(s.buf.cells, s.written, s.cleared, s.workers[i].n);
  }

  lemma WriteStepKeepsWindow(s: State, i: nat)
    requires Inv(s) && i < |s.workers| && s.workers[i].pc == TouchCell && s.workers[i].role == Producer
    ensures |Touch(s, i).buf.cells| == |s.buf.cells| && WindowOk(Touch(s, i))
  {
    assert WorkerOk(s.workers[i]);
    WriteKeepsWindow(s, i);
  }

  lemma TouchKeepsWindow(s: State, i: nat)
    requires Inv(s)
    requires i < |s.workers| && s.workers[i].pc == TouchCell
    ensures |Touch(s, i).buf.cells| == |s.buf.cells| && WindowOk(Touch(s, i))
  {
    if s.workers[i].role == Producer {
      WriteStepKeepsWindow(s, i);
    } else {
      ClearKeepsWindow(s, i);
    }
  }

  // ----- The indices -----

  lemma StoringTotals(ws: seq<Worker>, i: nat, w: Worker)
    requires i < |ws|
    ensures Total(Storing(Producer), ws[i := w])
            == Total(Storing(Producer), ws) - Weight(Storing(Producer), ws[i]) + Weight(Storing(Producer), w)
    ensures Total(Storing(Consumer), ws[i := w])
            == Total(Storing(Consumer), ws) - Weight(Storing(Consumer), ws[i]) + Weight(Storing(Consumer), w)
  {
    TotalUpdate(Storing(Producer), ws, i, w);
    TotalUpdate(Storing(Consumer), ws, i, w);
  }

  lemma TouchKeepsIndices(s: State, i: nat)
    requires |s.buf.cells| > 0 && IndicesOk(s)
    requires i < |s.workers| && s.workers[i].pc == TouchCell
    ensures |Touch(s, i).buf.cells| == |s.buf.cells| && IndicesOk(Touch(s, i))
  {
    StoringTotals(s.workers, i, s.workers[i].(pc := StoreIndex));
  }

  lemma NextIndex(index: int, count: int, n: int)
    requires n > 0 && index == (count - 1) % n
    ensures (index + 1) % n == count % n
  {
    ModNext(count - 1, n);
  }

  /** The stored index catches up with the cell just touched. */
  lemma StoreCatchesUp(s: State, i: nat)
    requires |s.buf.cells| > 0 && IndicesOk(s)
    requires i < |s.workers| && s.workers[i].pc == StoreIndex
    requires SectionOk(s, s.workers[i].role)
    ensures var s' := StoreNext(s, i);
            && s'.buf.indexProd == (|s.written| - Total(Storing(Producer), s'.workers)) % |s.buf.cells|
            && s'.buf.indexCons == (s.cleared - Total(Storing(Consumer), s'.workers)) % |s.buf.cells|
  {
    var w := s.workers[i];
    Alone(s, i);
    StoringTotals(s.workers, i, w.(pc := AfterStore(w)));
    NextIndex(w.n, if w.role == Producer then |s.written| else s.cleared, |s.buf.cells|);
  }

  lemma StoreKeepsIndices(s: State, i: nat)
    requires |s.buf.cells| > 0 && IndicesOk(s)
    requires i < |s.workers| && s.workers[i].pc == StoreIndex
    requires SectionOk(s, s.workers[i].role)
    ensures IndicesOk(StoreNext(s, i))
  {
    Alone(s, i);
    StoreCatchesUp(s, i);
  }

  lemma ReadKeepsIndices(s: State, i: nat)
    requires |s.buf.cells| > 0 && IndicesOk(s)
    requires i < |s.workers| && s.workers[i].pc == ReadIndex
    ensures IndicesOk(s.(workers := s.workers[i := s.workers[i].(pc := TouchCell,
                                                                 n := Index(s.buf, s.workers[i].role))]))
  {
    StoringTotals(s.workers, i, s.workers[i].(pc := TouchCell, n := Index(s.buf, s.workers[i].role)));
  }

  /** Away from the section, workers may change freely. */
  lemma ElsewhereKeepsIndices(s: State, s': State, i: nat, w: Worker)
    requires |s.buf.cells| > 0 && IndicesOk(s)
    requires i < |s.workers| && s'.workers == s.workers[i := w]
    requires s'.buf == s.buf && s'.written == s.written && s'.cleared == s.cleared
    requires s.workers[i].pc != StoreIndex && w.pc != StoreIndex && w.pc != TouchCell
    ensures IndicesOk(s')
  {
    StoringTotals(s.workers, i, w);
  }

  // ----- Every step keeps everything -----

  /** What another worker does can unblock a worker and nothing else. */
  lemma OthersKept(s: State, i: nat, c: nat)
    requires |s.buf.cells| > 0 && c < |s.workers| && i != c
    ensures |Act(s, i).workers| == |s.workers|
    ensures Act(s, i).workers[c] == s.workers[c] || Act(s, i).workers[c] == s.workers[c].(on := None)
    ensures Blocks(s, i) ==> Act(s, i).workers[c] == s.workers[c]
  {
    if i < |s.workers| && Enabled(s.workers[i]) && (s.workers[i].pc == PostMutex || s.workers[i].pc == PostItem) {
      OthersKeptByPost(s, i, c);
    }
  }

  lemma OthersKeptByPost(s: State, i: nat, c: nat)
    requires |s.buf.cells| > 0 && c < |s.workers| && i < |s.workers| && i != c
    requires s.workers[i].on == None && (s.workers[i].pc == PostMutex || s.workers[i].pc == PostItem)
    ensures |Act(s, i).workers| == |s.workers|
    ensures Act(s, i).workers[c] == s.workers[c] || Act(s, i).workers[c] == s.workers[c].(on := None)
  {
  }

  lemma ActWorkerOk(s: State, i: nat)
    requires |s.buf.cells| > 0 && i < |s.workers| && WorkerOk(s.workers[i])
    ensures |Act(s, i).workers| == |s.workers| && WorkerOk(Act(s, i).workers[i])
  {
  }

  lemma ActKeepsWorkers(s: State, i: nat)
    requires |s.buf.cells| > 0 && WorkersOk(s.workers)
    ensures WorkersOk(Act(s, i).workers)
  {
    if i < |s.workers| {
      ActWorkerOk(s, i);
      forall c | 0 <= c < |s.workers| ensures WorkerOk(Act(s, i).workers[c]) {
        if c != i {
          OthersKept(s, i, c);
        }
      }
    }
  }

  lemma SlotStep(s: State, i: nat)
    requires Inv(s) && i < |s.workers| && Enabled(s.workers[i]) && s.workers[i].pc == WaitSlot
    ensures Inv(Act(s, i))
  {
    var w := s.workers[i];
    var w' := Waiter(s, i, SlotOf(w.role), CheckSlot);
    ActKeepsWorkers(s, i);
    assert WorkerOk(w);
    WaitKeepsQueues(s, i, SlotOf(w.role), CheckSlot);
    WaitKeepsSections(s, i, SlotOf(w.role), CheckSlot, Producer);
    WaitKeepsSections(s, i, SlotOf(w.role), CheckSlot, Consumer);
    WaitSlotKeepsPlaces(s, i);
    WaitSlotKeepsDepth(s, i);
    WaitSlotKeepsFlow(s, i);
    ElsewhereKeepsIndices(s, Act(s, i), i, w');
  }

  /** A change of worker `i` alone that neither semaphores nor counts see. */
  ghost predicate Local(s: State, s': State, i: nat, w: Worker) {
    && i < |s.workers| && s' == s.(workers := s.workers[i := w])
    && s.workers[i].on == None && w.on == None
    && w.role == s.workers[i].role && w.locked == s.workers[i].locked
    && (w.locked ==> InSection(w) == InSection(s.workers[i])) && Flying(w) == Flying(s.workers[i])
    && Unannounced(w) == Unannounced(s.workers[i]) && Uncleared(w) == Uncleared(s.workers[i])
    && w.left == s.workers[i].left && w.quota == s.workers[i].quota
    && (w.pc == WaitSlot <==> s.workers[i].pc == WaitSlot) && (w.pc == Finished <==> s.workers[i].pc == Finished)
  }

  lemma LocalKeepsSems(s: State, s': State, i: nat, w: Worker)
    requires QueuesOk(s) && SectionOk(s, Producer) && SectionOk(s, Consumer) && Local(s, s', i, w)
    ensures QueuesOk(s') && SectionOk(s', Producer) && SectionOk(s', Consumer)
  {
    LocalKeepsQueues(s, s', i, w);
    LocalKeepsSections(s, s', i, w, Producer);
    LocalKeepsSections(s, s', i, w, Consumer);
  }

  lemma LocalKeepsTokens(s: State, s': State, i: nat, w: Worker)
    requires PlacesOk(s) && DepthOk(s) && FlowOk(s) && Local(s, s', i, w)
    ensures PlacesOk(s') && DepthOk(s') && FlowOk(s')
  {
    UnseenChange(s.workers, i, w);
  }

  /** A test of a result changes nothing but where the worker stands. */
  lemma CheckStep(s: State, i: nat)
    requires Inv(s) && i < |s.workers| && Enabled(s.workers[i])
    requires s.workers[i].pc == CheckSlot || s.workers[i].pc == CheckMutex
    ensures Inv(Act(s, i))
  {
    var w' := Act(s, i).workers[i];
    ActKeepsWorkers(s, i);
    assert WorkerOk(s.workers[i]);
    LocalKeepsSems(s, Act(s, i), i, w');
    LocalKeepsTokens(s, Act(s, i), i, w');
    ElsewhereKeepsIndices(s, Act(s, i), i, w');
  }

  lemma MutexStep(s: State, i: nat)
    requires Inv(s) && i < |s.workers| && Enabled(s.workers[i]) && s.workers[i].pc == WaitMutex
    ensures Inv(Act(s, i))
  {
    var w := s.workers[i];
    var w' := Waiter(s, i, MutexOf(w.role), CheckMutex);
    ActKeepsWorkers(s, i);
    assert WorkerOk(w);
    WaitKeepsQueues(s, i, MutexOf(w.role), CheckMutex);
    WaitKeepsSections(s, i, MutexOf(w.role), CheckMutex, Producer);
    WaitKeepsSections(s, i, MutexOf(w.role), CheckMutex, Consumer);
    WaitMutexUnseen(s, i);
    ElsewhereKeepsIndices(s, Act(s, i), i, w');
  }

  lemma ReadStep(s: State, i: nat)
    requires Inv(s) && i < |s.workers| && Enabled(s.workers[i]) && s.workers[i].pc == ReadIndex
    ensures Inv(Act(s, i))
  {
    var w := s.workers[i];
    var w' := w.(pc := TouchCell, n := Index(s.buf, w.role));
    ActKeepsWorkers(s, i);
    LocalKeepsQueues(s, Act(s, i), i, w');
    LocalKeepsSections(s, Act(s, i), i, w', Producer);
    LocalKeepsSections(s, Act(s, i), i, w', Consumer);
    UnseenChange(s.workers, i, w');
    ReadKeepsIndices(s, i);
  }

  lemma LocalKeepsQueues(s: State, s': State, i: nat, w: Worker)
    requires QueuesOk(s) && i < |s.workers| && s'.workers == s.workers[i := w] && s'.sems == s.sems
    requires s.workers[i].on == None && w.on == None
    ensures QueuesOk(s')
  {
    forall name: SemName ensures QueueOk(Get(s'.sems, name), name, s'.workers) {
      OtherQueue(Get(s.sems, name), name, s.workers, i, w);
    }
  }

  lemma TouchStep(s: State, i: nat)
    requires Inv(s) && i < |s.workers| && Enabled(s.workers[i]) && s.workers[i].pc == TouchCell
    ensures Inv(Act(s, i))
  {
    var w' := s.workers[i].(pc := StoreIndex);
    ActKeepsWorkers(s, i);
    LocalKeepsQueues(s, Touch(s, i), i, w');
    LocalKeepsSections(s, Touch(s, i), i, w', Producer);
    LocalKeepsSections(s, Touch(s, i), i, w', Consumer);
    TouchKeepsTokens(s, i);
    TouchKeepsWindow(s, i);
    TouchKeepsIndices(s, i);
  }

  lemma StoreStep(s: State, i: nat)
    requires Inv(s) && i < |s.workers| && Enabled(s.workers[i]) && s.workers[i].pc == StoreIndex
    ensures Inv(Act(s, i))
  {
    var w := s.workers[i];
    var w' := w.(pc := AfterStore(w));
    ActKeepsWorkers(s, i);
    LocalKeepsQueues(s, StoreNext(s, i), i, w');
    LocalKeepsSections(s, StoreNext(s, i), i, w', Producer);
    LocalKeepsSections(s, StoreNext(s, i), i, w', Consumer);
    UnseenChange(s.workers, i, w');
    StoreKeepsIndices(s, i);
  }

  /** A post changes nothing the indices depend on. */
  lemma PostKeepsIndices(s: State, i: nat, name: SemName, after: Worker)
    requires |s.buf.cells| > 0 && IndicesOk(s) && WorkersOk(s.workers)
    requires i < |s.workers| && s.workers[i].on == None && s.workers[i].pc != StoreIndex
    requires after.pc != StoreIndex && after.pc != TouchCell
    requires QueueOk(Get(s.sems, name), name, s.workers)
    ensures IndicesOk(SemPost(s, i, name, after))
  {
    var freed := PostFrees(s, i, name);
    var mid := s.(workers := s.workers[i := after]);
    ElsewhereKeepsIndices(s, mid, i, after);
    if freed.Some? {
      assert WorkerOk(s.workers[freed.value]);
      ElsewhereKeepsIndices(mid, SemPost(s, i, name, after), freed.value, mid.workers[freed.value].(on := None));
    } else {
      assert SemPost(s, i, name, after).workers == mid.workers;
    }
  }

  lemma PostMutexStep(s: State, i: nat)
    requires Inv(s) && i < |s.workers| && Enabled(s.workers[i]) && s.workers[i].pc == PostMutex
    ensures Inv(Act(s, i))
  {
    var w := s.workers[i];
    var name := MutexOf(w.role);
    assert QueueOk(Get(s.sems, name), name, s.workers);
    ActKeepsWorkers(s, i);
    PostKeepsQueues(s, i, name, w.(pc := PostItem, ret := 0));
    PostMutexKeepsSections(s, i, Producer);
    PostMutexKeepsSections(s, i, Consumer);
    PostMutexUnseen(s, i);
    PostKeepsIndices(s, i, name, w.(pc := PostItem, ret := 0));
  }

  lemma PostItemKeepsTokens(s: State, i: nat)
    requires AtPostItem(s, i) && PlacesOk(s) && DepthOk(s) && FlowOk(s)
    ensures var s' := SemPost(s, i, ItemOf(s.workers[i].role), NextRound(s.workers[i]));
            PlacesOk(s') && DepthOk(s') && FlowOk(s')
  {
    PostItemKeepsPlaces(s, i);
    PostItemKeepsDepth(s, i);
    PostItemKeepsFlow(s, i);
  }

  /** Everything that does not concern the cells and the indices. */
  lemma PostItemCounts(s: State, i: nat)
    requires AtPostItem(s, i) && QueuesOk(s) && SectionOk(s, Producer) && SectionOk(s, Consumer)
    requires PlacesOk(s) && DepthOk(s) && FlowOk(s)
    ensures var s' := SemPost(s, i, ItemOf(s.workers[i].role), NextRound(s.workers[i]));
            QueuesOk(s') && SectionOk(s', Producer) && SectionOk(s', Consumer) && PlacesOk(s') && DepthOk(s')
              && FlowOk(s')
  {
    PostKeepsQueues(s, i, ItemOf(s.workers[i].role), NextRound(s.workers[i]));
    PostItemKeepsSections(s, i, Producer);
    PostItemKeepsSections(s, i, Consumer);
    PostItemKeepsTokens(s, i);
  }

  lemma PostItemRest(s: State, i: nat)
    requires AtPostItem(s, i) && |s.buf.cells| > 0 && IndicesOk(s)
    ensures var s' := SemPost(s, i, ItemOf(s.workers[i].role), NextRound(s.workers[i]));
            WorkersOk(s'.workers) && IndicesOk(s')
  {
    ActKeepsWorkers(s, i);
    PostKeepsIndices(s, i, ItemOf(s.workers[i].role), NextRound(s.workers[i]));
  }

  lemma PostItemIs(s: State, i: nat)
    requires |s.buf.cells| > 0 && AtPostItem(s, i)
    ensures Act(s, i) == SemPost(s, i, ItemOf(s.workers[i].role), NextRound(s.workers[i]))
  {
    assert WorkerOk(s.workers[i]);
  }

  lemma AtPostItemIs(s: State, i: nat)
    requires WorkersOk(s.workers) && QueuesOk(s)
    requires i < |s.workers| && Enabled(s.workers[i]) && s.workers[i].pc == PostItem
    ensures AtPostItem(s, i)
  {
    assert QueueOk(Get(s.sems, ItemOf(s.workers[i].role)), ItemOf(s.workers[i].role), s.workers);
  }

  lemma PostItemStep(s: State, i: nat)
    requires Inv(s) && i < |s.workers| && Enabled(s.workers[i]) && s.workers[i].pc == PostItem
    ensures Inv(Act(s, i))
  {
    AtPostItemIs(s, i);
    PostItemIs(s, i);
    PostItemCounts(s, i);
    PostItemRest(s, i);
  }

  lemma ActKeepsInv(s: State, i: nat)
    requires Inv(s)
    ensures Inv(Act(s, i))
  {
    if i < |s.workers| && Enabled(s.workers[i]) {
      match s.workers[i].pc {
        case WaitSlot => SlotStep(s, i);
        case CheckSlot => CheckStep(s, i);
        case WaitMutex => MutexStep(s, i);
        case CheckMutex => CheckStep(s, i);
        case ReadIndex => ReadStep(s, i);
        case TouchCell => TouchStep(s, i);
        case StoreIndex => StoreStep(s, i);
        case PostMutex => PostMutexStep(s, i);
        case PostItem => PostItemStep(s, i);
      }
    }
  }

  lemma RetKeepsWorkers(ws: seq<Worker>, j: nat)
    requires WorkersOk(ws) && j < |ws|
    ensures ws[j].pc != GivenUp ==> WorkersOk(ws[j := ws[j].(ret := 0)])
  {
  }

  lemma RetKeepsIndices(s: State, j: nat)
    requires |s.buf.cells| > 0 && IndicesOk(s) && j < |s.workers|
    ensures IndicesOk(s.(workers := s.workers[j := s.workers[j].(ret := 0)]))
  {
    StoringTotals(s.workers, j, s.workers[j].(ret := 0));
  }

  /** Writing a 0 where a return value is kept changes nothing that is counted. */
  lemma ResumeKeepsInv(s: State, next: Option<nat>)
    requires Inv(s)
    ensures Inv(Resume(s, next))
  {
    if next.Some? && next.value < |s.workers| && Enabled(s.workers[next.value]) {
      var j := next.value;
      var w := s.workers[j].(ret := 0);
      RetKeepsWorkers(s.workers, j);
      LocalKeepsSems(s, Resume(s, next), j, w);
      LocalKeepsTokens(s, Resume(s, next), j, w);
      RetKeepsIndices(s, j);
    }
  }

  lemma StepKeepsInv(s: State, t: Turn)
    requires Inv(s)
    ensures Inv(Step(s, t))
  {
    ActKeepsInv(s, t.who);
    if Blocks(s, t.who) {
      ResumeKeepsInv(Act(s, t.who), t.next);
    }
  }
}

/** The reclamation of popped nodes, and what the stack promises of every run. */
module HazardStackTheorems {
  import opened HazardStack
  import opened HazardStackProof
  import opened HazardStackSteps

  // ---------------------------------------------------------------- scanning the hazard slots

  /** A protected cell is in its thread's hazard slot. */
  lemma ProtectedIsPublished(s: State, u: nat, x: int)
    requires Inv(s) && u < |s.threads| && Protects(s.threads[u], x)
    ensures u < |s.slots| && s.slots[u] == x
  {
    InvThread(s, u);
    hide Inv;
  }

  /** Passing a slot that does not hold the target: its owner does not rely on the target. */
  lemma PassedClear(s: State, t: nat, th: Thread)
    requires Inv(s) && t < |s.threads| && Scanning(s.threads[t]) && s.threads[t].at < |s.slots|
    requires s.slots[s.threads[t].at] != Target(s.threads[t]) && th == s.threads[t].(at := s.threads[t].at + 1)
    ensures Clear(s.threads[t := th])
  {
    hide Inv, ThreadOk, Clear, SpineOk, LogOk, PlacesOk;
    InvThread(s, t);
    var at, x := s.threads[t].at, Target(s.threads[t]);
    if at < |s.threads| && Protects(s.threads[at], x) {
      ProtectedIsPublished(s, at, x);
    }
    ClearAdvances(s.threads, t);
  }

  lemma ClearAdvances(threads: seq<Thread>, t: nat)
    requires Clear(threads) && t < |threads| && Scanning(threads[t])
    requires threads[t].at < |threads| ==> !Protects(threads[threads[t].at], Target(threads[t]))
    ensures Clear(threads[t := threads[t].(at := threads[t].at + 1)])
  {
    var next := threads[t := threads[t].(at := threads[t].at + 1)];
    forall v, u | 0 <= v < |next| && 0 <= u < |next| ensures ClearOf(next[v], u, next[u]) {
      assert ClearOf(threads[v], u, threads[u]);
    }
  }

  /** The heart of the matter: a cell whose scan found no hazard pointer to it is used by nobody. */
  lemma ScannedIsFree(s: State, t: nat)
    requires Inv(s) && t < |s.threads| && Scanning(s.threads[t]) && s.threads[t].at == |s.slots|
    ensures forall u :: 0 <= u < |s.threads| ==> !Protects(s.threads[u], Target(s.threads[t]))
  {
    forall u | 0 <= u < |s.threads| ensures !Protects(s.threads[u], Target(s.threads[t])) {
      assert ClearOf(s.threads[t], u, s.threads[u]);
    }
  }

  lemma {:induction false} TwoHands(threads: seq<Thread>, t: nat, u: nat, x: int)
    requires t < u < |threads|
    ensures Private(threads[t], x) + Private(threads[u], x) <= InHands(threads, x)
  {
    if t == 0 {
      HandsHave(threads[1..], u - 1, x);
    } else {
      TwoHands(threads[1..], t - 1, u - 1, x);
    }
  }

  /** A waiting cell is in one thread's hands only. */
  lemma OneHand(s: State, t: nat, u: nat)
    requires PlacesOk(s.cells, s.threads, s.shared) && t < |s.threads| && u < |s.threads| && t != u
    requires InHand(s.threads[t].pc) && InHand(s.threads[u].pc)
    ensures s.threads[t].item != s.threads[u].item
  {
    if s.threads[t].item == s.threads[u].item {
      assert PlaceOk(s.cells, s.threads, s.shared, s.threads[t].item);
      TwoHands(s.threads, if t < u then t else u, if t < u then u else t, s.threads[t].item);
    }
  }

  /** Freeing the target after a full scan. */
  function Freed(s: State, t: nat, th: Thread): State
    requires t < |s.threads| && IsCell(s.cells, Target(s.threads[t]))
  {
    Go(s, t, th).(cells := WithLife(s.cells, Target(s.threads[t]), Free))
  }

  lemma FreedThread(s: State, t: nat)
    requires t < |s.threads| && Scanning(s.threads[t]) && ThreadOk(s.cells, s.slots, s.log, t, s.threads[t])
    ensures IsCell(s.cells, Target(s.threads[t])) && (s.cells[Target(s.threads[t])].life == Listed || s.cells[Target(s.threads[t])].life == Held(t))
    ensures s.cells[Target(s.threads[t])].life == Listed <==> s.threads[t].pc == SweepScan
    ensures var th' := s.threads[t].(pc := if s.threads[t].pc == PopScan then Return else SweepNext); var s' := Freed(s, t, th');
      ThreadOk(s'.cells, s'.slots, s'.log, t, th') && Continues(s, t, th')
  {
  }

  lemma FreesOwn(s: State, t: nat, th: Thread)
    requires Inv(s) && t < |s.threads| && Scanning(s.threads[t]) && s.threads[t].at == |s.slots| && IsCell(s.cells, Target(s.threads[t]))
    ensures FreesSafely(s, Freed(s, t, th).cells, t) && CellsEvolve(s.cells, Freed(s, t, th).cells, t)
  {
    InvThread(s, t);
    FreedThread(s, t);
    ScannedIsFree(s, t);
    var x, cells' := Target(s.threads[t]), Freed(s, t, th).cells;
    forall u | 0 <= u < |s.threads| && u != t ensures !Protects(s.threads[u], x) && !(InHand(s.threads[u].pc) && s.threads[u].item == x) {
      InvThread(s, u);
      if InHand(s.threads[u].pc) && s.threads[t].pc == SweepScan { OneHand(s, t, u); }
    }
  }

  lemma FreeKeeps(s: State, t: nat)
    requires Inv(s) && t < |s.threads| && Scanning(s.threads[t]) && s.threads[t].at == |s.slots| && IsCell(s.cells, Target(s.threads[t]))
    ensures Inv(Freed(s, t, s.threads[t].(pc := if s.threads[t].pc == PopScan then Return else SweepNext)))
  {
    InvThread(s, t);
    FreedThread(s, t);
    var th := s.threads[t];
    var th' := th.(pc := if th.pc == PopScan then Return else SweepNext);
    var s' := Freed(s, t, th');
    FreesOwn(s, t, th');
    ClearKept(s.threads, t, th');
    OffSpine(s.cells, s'.cells, s.head, s.spine, s.log);
    assert forall x :: Private(th', x) + Waits(s.cells, x) == Private(th, x) + Waits(s'.cells, x);
    hide Inv, ThreadOk, Clear, SpineOk, LogOk, CellsEvolve, FreesSafely;
    PlacesMove(s, t, th', s'.cells, s.shared);
    StepKeeps(s, s', t);
  }

  /** A popped node that somebody points to goes to the reclaim list. */
  function Deferred(s: State, t: nat): State
    requires t < |s.threads| && IsCell(s.cells, s.threads[t].oldHead)
  {
    var th := s.threads[t];
    Go(s, t, th.(pc := DeferLoad, item := th.oldHead, sweeping := false)).(cells := WithLife(s.cells, th.oldHead, Listed))
  }

  lemma DeferredThread(s: State, t: nat)
    requires t < |s.threads| && s.threads[t].pc == PopScan && ThreadOk(s.cells, s.slots, s.log, t, s.threads[t])
    ensures IsCell(s.cells, s.threads[t].oldHead) && s.cells[s.threads[t].oldHead].life == Held(t) && s.threads[t].list == []
    ensures var s' := Deferred(s, t); ThreadOk(s'.cells, s'.slots, s'.log, t, s'.threads[t])
  {
  }

  lemma DeferKeeps(s: State, t: nat)
    requires Inv(s) && t < |s.threads| && s.threads[t].pc == PopScan && IsCell(s.cells, s.threads[t].oldHead)
    ensures Inv(Deferred(s, t))
  {
    InvThread(s, t);
    DeferredThread(s, t);
    var th, s' := s.threads[t], Deferred(s, t);
    CellWritten(s, s'.cells, th.oldHead, t);
    ClearKept(s.threads, t, s'.threads[t]);
    OffSpine(s.cells, s'.cells, s.head, s.spine, s.log);
    assert forall x :: Private(s'.threads[t], x) + Waits(s.cells, x) == Private(th, x) + Waits(s'.cells, x);
    hide Inv, ThreadOk, Clear, SpineOk, LogOk, CellsEvolve, FreesSafely;
    PlacesMove(s, t, s'.threads[t], s'.cells, s.shared);
    StepKeeps(s, s', t);
  }

  lemma AdvanceKeeps(s: State, t: nat)
    requires Inv(s) && t < |s.threads| && Scanning(s.threads[t]) && s.threads[t].at < |s.slots|
    requires s.slots[s.threads[t].at] != Target(s.threads[t])
    ensures Inv(Go(s, t, s.threads[t].(at := s.threads[t].at + 1)))
  {
    InvThread(s, t);
    var th' := s.threads[t].(at := s.threads[t].at + 1);
    PassedClear(s, t, th');
    assert ThreadOk(s.cells, s.slots, s.log, t, th');
    hide Inv, ThreadOk, Clear;
    LocalKeeps(s, Go(s, t, th'), t);
  }

  lemma ScanKeeps(s: State, t: nat)
    requires Inv(s) && May(s, t) && s.threads[t].pc == PopScan
    ensures Inv(PopStep(s, t))
  {
    hide Inv;
    var th := s.threads[t];
    if th.at == |s.slots| {
      FreeKeeps(s, t);
    } else if s.slots[th.at] == th.oldHead {
      DeferKeeps(s, t);
    } else {
      AdvanceKeeps(s, t);
    }
  }

  // ---------------------------------------------------------------- the reclaim list

  lemma ReclaimThread(s: State, t: nat)
    requires t < |s.threads| && ThreadOk(s.cells, s.slots, s.log, t, s.threads[t]) && May(s, t)
    requires s.threads[t].pc in {DeferLoad, DeferSwap, CountUp, ResetCount, TakeList}
    ensures var s' := ReclaimStep(s, t); ThreadOk(s'.cells, s'.slots, s'.log, t, s'.threads[t])
    ensures var th, th' := s.threads[t], ReclaimStep(s, t).threads[t]; !Scanning(th') && forall x :: !Protects(th', x)
    ensures forall x :: InList(ReclaimStep(s, t).shared, x) + Private(ReclaimStep(s, t).threads[t], x)
                        == InList(s.shared, x) + Private(s.threads[t], x)
  {
    var s' := ReclaimStep(s, t);
    if s.threads[t].pc == DeferSwap {
      assert ([s.threads[t].item] + s.shared)[1..] == s.shared;
    }
  }

  lemma ReclaimKeeps(s: State, t: nat)
    requires Inv(s) && May(s, t) && s.threads[t].pc in {DeferLoad, DeferSwap, CountUp, ResetCount, TakeList}
    ensures Inv(ReclaimStep(s, t))
  {
    InvThread(s, t);
    ReclaimThread(s, t);
    hide Inv, ThreadOk;
    var s' := ReclaimStep(s, t);
    ClearKept(s.threads, t, s'.threads[t]);
    hide Clear;
    LocalKeeps(s, s', t);
  }

  /** An item of the list that is being swept is a waiting cell. */
  lemma SweptWaits(s: State, t: nat)
    requires PlacesOk(s.cells, s.threads, s.shared) && t < |s.threads| && s.threads[t].list != []
    ensures IsCell(s.cells, s.threads[t].list[0]) && s.cells[s.threads[t].list[0]].life == Listed
  {
    var x := s.threads[t].list[0];
    assert PlaceOk(s.cells, s.threads, s.shared, x);
    HandsHave(s.threads, t, x);
    assert InList(s.threads[t].list, x) > 0;
  }

  lemma SweepNextKeeps(s: State, t: nat)
    requires Inv(s) && May(s, t) && s.threads[t].pc == SweepNext
    ensures Inv(ReclaimStep(s, t))
  {
    InvThread(s, t);
    var s' := ReclaimStep(s, t);
    if s.threads[t].list != [] { SweptWaits(s, t); }
    assert ThreadOk(s'.cells, s'.slots, s'.log, t, s'.threads[t]);
    ClearKept(s.threads, t, s'.threads[t]);
    hide Inv, ThreadOk, Clear;
    LocalKeeps(s, s', t);
  }

  lemma SweepScanKeeps(s: State, t: nat)
    requires Inv(s) && May(s, t) && s.threads[t].pc == SweepScan
    ensures Inv(ReclaimStep(s, t))
  {
    InvThread(s, t);
    var th, s' := s.threads[t], ReclaimStep(s, t);
    if th.at == |s.slots| {
      hide Inv;
      FreeKeeps(s, t);
    } else if s.slots[th.at] == th.item {
      assert ThreadOk(s'.cells, s'.slots, s'.log, t, s'.threads[t]);
      ClearKept(s.threads, t, s'.threads[t]);
      hide Inv, ThreadOk, Clear;
      LocalKeeps(s, s', t);
    } else {
      hide Inv;
      AdvanceKeeps(s, t);
    }
  }

  // ---------------------------------------------------------------- calls and returns

  lemma CallPopKeeps(s: State, t: nat)
    requires Inv(s) && MayCall(s, t)
    ensures Inv(CallPop(s, t))
  {
    InvThread(s, t);
    var s' := CallPop(s, t);
    assert ThreadOk(s'.cells, s'.slots, s'.log, t, s'.threads[t]);
    ClearKept(s.threads, t, s'.threads[t]);
    hide Inv, ThreadOk, Clear;
    LocalKeeps(s, s', t);
  }

  lemma ReturnKeeps(s: State, t: nat)
    requires Inv(s) && May(s, t) && s.threads[t].pc == Return
    ensures Inv(Step(s, t))
  {
    InvThread(s, t);
    var th := s.threads[t];
    var m := Go(s, t, th.(pc := Idle));
    var d := Done(Outcome(th, t), th.start, th.point, |s.log|);
    assert ThreadOk(m.cells, m.slots, m.log, t, m.threads[t]) && DoneOk(s.log, d) && d.event.who == t;
    ClearKept(s.threads, t, m.threads[t]);
    RecordAdded(s, t, d);
    hide Inv, ThreadOk, Clear, DonesOk;
    LocalKeeps(s, m, t);
    DoneKept(m, d);
  }

  lemma RecordAdded(s: State, t: nat, d: Done)
    requires DonesOk(s) && t < |s.threads| && s.threads[t].pc != Idle && DoneOk(s.log, d) && d.event.who == t
    requires d.start == s.threads[t].start && d.end == |s.log|
    ensures DonesOk(Go(s, t, s.threads[t].(pc := Idle)).(done := s.done + [d]))
  {
    var s' := Go(s, t, s.threads[t].(pc := Idle)).(done := s.done + [d]);
    forall i, u | 0 <= i < |s'.done| && 0 <= u < |s'.threads| ensures EndsBefore(s'.done[i], u, s'.threads[u]) {
      assert i < |s.done| ==> EndsBefore(s.done[i], u, s.threads[u]);
    }
    forall i, j | 0 <= i < j < |s'.done| && s'.done[i].event.who == s'.done[j].event.who ensures s'.done[i].end <= s'.done[j].start {
      assert EndsBefore(s.done[i], t, s.threads[t]);
    }
  }

  lemma DoneKept(m: State, d: Done)
    requires Inv(m) && DonesOk(m.(done := m.done + [d]))
    ensures Inv(m.(done := m.done + [d]))
  {
  }

  // ---------------------------------------------------------------- runs

  lemma PopKeeps(s: State, t: nat)
    requires Inv(s) && May(s, t)
    requires s.threads[t].pc in {PopLoad, PopPublish, PopReload, PopNext, PopSwap, PopClear, PopTake, PopScan}
    ensures Inv(PopStep(s, t))
  {
    hide Inv;
    var th := s.threads[t];
    if th.pc == PopScan {
      ScanKeeps(s, t);
    } else if th.pc in {PopClear, PopTake} {
      PopTakesKeep(s, t);
    } else if th.pc == PopSwap && s.head == th.oldHead {
      PopSwapKeeps(s, t);
    } else if th.pc == PopReload && s.head == th.temp == NULL {
      PopEmptyKeeps(s, t);
    } else {
      PopReadsKeep(s, t);
    }
  }

  lemma StepIs(s: State, t: nat)
    requires May(s, t)
    ensures s.threads[t].pc in {PushLoad, PushSwap} ==> Step(s, t) == PushStep(s, t)
    ensures s.threads[t].pc in {PopLoad, PopPublish, PopReload, PopNext, PopSwap, PopClear, PopTake, PopScan} ==> Step(s, t) == PopStep(s, t)
    ensures s.threads[t].pc in {DeferLoad, DeferSwap, CountUp, ResetCount, TakeList, SweepNext, SweepScan} ==> Step(s, t) == ReclaimStep(s, t)
    ensures s.threads[t].pc in {PushLoad, PushSwap, PopLoad, PopPublish, PopReload, PopNext, PopSwap, PopClear, PopTake, PopScan,
                                DeferLoad, DeferSwap, CountUp, ResetCount, TakeList, SweepNext, SweepScan, Return}
  {
  }

  lemma NextKeeps(s: State, s': State)
    requires Inv(s) && Next(s, s')
    ensures Inv(s')
  {
    if t: nat, value, a :| MayCall(s, t) && MayAllocate(s.cells, a) && s' == CallPush(s, t, value, a) {
      hide Inv;
      CallPushKeeps(s, t, value, a);
    } else if t: nat :| MayCall(s, t) && s' == CallPop(s, t) {
      hide Inv;
      CallPopKeeps(s, t);
    } else {
      var t: nat :| May(s, t) && s' == Step(s, t);
      StepIs(s, t);
      var pc := s.threads[t].pc;
      hide Inv, Step, PushStep, PopStep, ReclaimStep, May;
      if pc in {PushLoad, PushSwap} {
        PushKeeps(s, t);
      } else if pc == Return {
        ReturnKeeps(s, t);
      } else if pc == SweepNext {
        SweepNextKeeps(s, t);
      } else if pc == SweepScan {
        SweepScanKeeps(s, t);
      } else if pc in {DeferLoad, DeferSwap, CountUp, ResetCount, TakeList} {
        ReclaimKeeps(s, t);
      } else {
        PopKeeps(s, t);
      }
    }
  }

  ghost predicate StepAt(run: seq<State>, i: int) {
    0 <= i < |run| - 1 && Next(run[i], run[i + 1])
  }

  ghost predicate Run(run: seq<State>) {
    |run| > 0 && Init(run[0]) && forall i :: 0 <= i < |run| - 1 ==> StepAt(run, i)
  }

  lemma {:induction false} NothingInHands(threads: seq<Thread>, x: int)
    requires forall t :: 0 <= t < |threads| ==> threads[t].pc == Idle && threads[t].list == []
    ensures InHands(threads, x) == 0
  {
    if threads != [] { NothingInHands(threads[1..], x); }
  }

  lemma InitOk(s: State)
    requires Init(s)
    ensures Inv(s)
  {
    forall x ensures PlaceOk(s.cells, s.threads, s.shared, x) {
      NothingInHands(s.threads, x);
    }
  }

  lemma {:induction false} RunKeeps(run: seq<State>, i: nat)
    requires Run(run) && i < |run|
    ensures Inv(run[i])
  {
    hide Inv, Next;
    if i == 0 {
      InitOk(run[0]);
    } else {
      RunKeeps(run, i - 1);
      assert StepAt(run, i - 1);
      NextKeeps(run[i - 1], run[i]);
    }
  }

  // ---------------------------------------------------------------- what every run promises

  /** The cell that the next step dereferences, or NULL. */
  function Touched(th: Thread): int {
    if th.pc in {PopNext, PopTake} then th.oldHead
    else if th.pc in {PushLoad, PushSwap} then th.own
    else NULL
  }

  /** No step ever dereferences a freed cell, under every interleaving and every reuse of addresses; nor
      does pop ever read a cell that a push is still preparing. */
  lemma NeverTouchesFreed(run: seq<State>, i: nat, t: nat)
    requires Run(run) && i < |run| && t < |run[i].threads| && Touched(run[i].threads[t]) != NULL
    ensures var s, x := run[i], Touched(run[i].threads[t]);
      && IsCell(s.cells, x) && s.cells[x].life != Free
      && (!s.threads[t].pushing ==> !s.cells[x].life.Own?)
  {
    RunKeeps(run, i);
    InvThread(run[i], t);
    hide Inv;
  }

  /** A pop's compare-and-swap that succeeds installs the successor that the top node has at that moment:
      no address reused in between can fool it. */
  lemma NoABA(run: seq<State>, i: nat, t: nat)
    requires Run(run) && i < |run| && t < |run[i].threads|
    requires run[i].threads[t].pc == PopSwap && run[i].head == run[i].threads[t].oldHead
    ensures var s := run[i];
      && s.spine != [] && s.spine[0] == s.head && IsCell(s.cells, s.head)
      && s.threads[t].next == s.cells[s.head].next == After(s.spine, 0)
  {
    RunKeeps(run, i);
    InvThread(run[i], t);
    hide Inv;
    EmptyIs(run[i].cells, run[i].head, run[i].spine);
  }

  /** A cell is freed only by the thread that popped it or took it from the reclaim list, never while
      it is free, on the stack or in another thread's hands: no double free. */
  lemma FreedByItsHolder(run: seq<State>, i: nat, t: nat)
    requires Run(run) && i < |run| && t < |run[i].threads| && Scanning(run[i].threads[t])
    ensures var s, x := run[i], Target(run[i].threads[t]);
      && IsCell(s.cells, x)
      && s.cells[x].life == (if s.threads[t].pc == PopScan then Held(t) else Listed)
      && (forall u :: 0 <= u < |s.threads| && u != t && InHand(s.threads[u].pc) ==> s.threads[u].item != x)
      && x !in s.spine
  {
    RunKeeps(run, i);
    var s, x := run[i], Target(run[i].threads[t]);
    InvThread(s, t);
    FreedThread(s, t);
    forall u | 0 <= u < |s.threads| && u != t && InHand(s.threads[u].pc) ensures s.threads[u].item != x {
      InvThread(s, u);
      if s.threads[t].pc == SweepScan { OneHand(s, t, u); }
    }
    hide Inv;
    OnSpine(s.cells, s.head, s.spine);
  }

  lemma OnSpine(cells: seq<Cell>, head: int, spine: seq<int>)
    requires SpineOk(cells, head, spine)
    ensures forall x :: x in spine ==> IsCell(cells, x) && cells[x].life == Linked
  {
    forall x | x in spine ensures IsCell(cells, x) && cells[x].life == Linked {
      var k :| 0 <= k < |spine| && spine[k] == x;
      assert LinkOk(cells, spine, k);
    }
  }

  /** Every thread inside an operation can take its next step. */
  lemma NeverStuck(run: seq<State>, i: nat, t: nat)
    requires Run(run) && i < |run| && t < |run[i].threads| && run[i].threads[t].pc != Idle
    ensures May(run[i], t)
  {
    RunKeeps(run, i);
    InvThread(run[i], t);
    hide Inv;
    EmptyIs(run[i].cells, run[i].head, run[i].spine);
  }

  /** The stack in memory, from head along `next`. */
  ghost predicate InMemory(cells: seq<Cell>, x: int, values: seq<int>)
    decreases |values|
  {
    if values == [] then x == NULL
    else IsCell(cells, x) && cells[x].value == values[0] && InMemory(cells, cells[x].next, values[1..])
  }

  lemma {:induction false} SpineInMemory(cells: seq<Cell>, spine: seq<int>, k: nat)
    requires SpineOk(cells, HeadOf(spine), spine) && k <= |spine|
    ensures InMemory(cells, if k < |spine| then spine[k] else NULL, Values(cells, spine[k..]))
    decreases |spine| - k
  {
    if k < |spine| {
      SpineInMemory(cells, spine, k + 1);
      assert LinkOk(cells, spine, k);
      assert spine[k..][0] == spine[k] && spine[k..][1..] == spine[k + 1..];
    }
  }

  /** Pushes and pops linearize to a sequential stack: the log is a last-in-first-out history, memory holds
      what it leaves, and every completed operation is exactly one event of it, lying between its call
      and its return, with the value it returned. */
  lemma StackLinearizable(run: seq<State>, i: nat)
    requires Run(run) && i < |run|
    ensures Lifo(run[i].log) && InMemory(run[i].cells, run[i].head, Replay(run[i].log, |run[i].log|))
    ensures forall d :: d in run[i].done ==> d.start <= d.point < d.end <= |run[i].log| && run[i].log[d.point] == d.event
    ensures forall a, b :: 0 <= a < b < |run[i].done| ==> run[i].done[a].point != run[i].done[b].point
  {
    RunKeeps(run, i);
    var s := run[i];
    SpineInMemory(s.cells, s.spine, 0);
    assert s.spine[0..] == s.spine;
    forall d | d in s.done ensures d.start <= d.point < d.end <= |s.log| && s.log[d.point] == d.event {
      var k :| 0 <= k < |s.done| && s.done[k] == d;
      assert DoneOk(s.log, s.done[k]);
    }
    forall a, b | 0 <= a < b < |s.done| ensures s.done[a].point != s.done[b].point {
      assert DoneOk(s.log, s.done[a]) && DoneOk(s.log, s.done[b]);
    }
  }
}

/** What the stack frees (include/lockfree_stack.hpp:77-84, include/hazard_ptr.hpp:110-129), and that it loses no
    node. */
module HazardStackPasses {
  import opened Linearizability
  import opened HazardStack
  import opened HazardStackProof
  import opened HazardStackCalls
  import T = HazardStackTheorems

  // ---------------------------------------------------------------- whose step it is

  /** What thread `t` sees of a step that is not its own. */
  predicate Theirs(s: State, s': State, t: nat) {
    t < |s.threads| == |s'.threads| && s'.threads[t] == s.threads[t] && |s'.slots| == |s.slots|
  }

  lemma OthersStep(s: State, l: StackLabel, s': State, t: nat)
    requires LabelOk(s, l, s') && l.who != t && t < |s.threads|
    ensures Theirs(s, s', t)
  {
    hide Calls, Step, May;
    match l
    case Call(u, q) => CallSizes(s, u, q, s');
    case Own(u) => StepSizes(s, u);
    case Return(u, answer) => StepSizes(s, u);
  }

  lemma CallSizes(s: State, u: nat, q: Query, s': State)
    requires Calls(s, u, q, s')
    ensures u < |s.threads| == |s'.threads| && s'.threads == s.threads[u := s'.threads[u]] && s'.slots == s.slots
  {
  }

  lemma StepSizes(s: State, u: nat)
    requires May(s, u)
    ensures |Step(s, u).threads| == |s.threads| && Step(s, u).threads == s.threads[u := Step(s, u).threads[u]]
    ensures |Step(s, u).slots| == |s.slots|
  {
  }

  lemma OwnStep(s: State, l: StackLabel, s': State, t: nat)
    requires LabelOk(s, l, s') && l.who == t && t < |s.threads| && s.threads[t].pc != Idle
    ensures May(s, t) && s' == Step(s, t)
  {
  }

  // ---------------------------------------------------------------- the scan of a pop

  /** In step `m` thread `t` loads hazard slot `j`, looking for its target `x`. */
  ghost predicate Loads(run: seq<State>, labels: seq<StackLabel>, t: nat, m: int, x: int, j: nat) {
    && 0 <= m < |labels| && m < |run| && labels[m].who == t && t < |run[m].threads| && Scanning(run[m].threads[t])
    && Target(run[m].threads[t]) == x && run[m].threads[t].at == j && j < |run[m].slots|
  }

  /** It does so between states `i` and `n`, and the slot points, or does not point, at `x`. */
  ghost predicate Loaded(run: seq<State>, labels: seq<StackLabel>, t: nat, i: nat, n: nat, x: int, j: nat, points: bool) {
    exists m :: i <= m < n && Loads(run, labels, t, m, x, j) && (run[m].slots[j] == x <==> points)
  }

  lemma LoadedOn(run: seq<State>, labels: seq<StackLabel>, t: nat, i: nat, n: nat, x: int, j: nat, points: bool)
    requires Loaded(run, labels, t, i, n, x, j, points)
    ensures Loaded(run, labels, t, i, n + 1, x, j, points)
  {
    var m :| i <= m < n && Loads(run, labels, t, m, x, j) && (run[m].slots[j] == x <==> points);
    assert i <= m < n + 1 && Loads(run, labels, t, m, x, j);
  }

  /** Thread `t` scans for its popped node from state `i` on and has left the scan at state `n`. */
  ghost predicate PopScans(run: seq<State>, labels: seq<StackLabel>, t: nat, i: nat, n: nat) {
    && Labelled(run, labels) && i < n < |run|
    && (forall m {:trigger run[m]} :: i <= m <= n ==> t < |run[m].threads|)
    && run[i].threads[t].pc == PopScan && run[i].threads[t].at == 0
    && (forall m {:trigger run[m]} :: i <= m < n ==> run[m].threads[t].pc == PopScan) && run[n].threads[t].pc != PopScan
  }

  lemma {:induction false} ScanReads(run: seq<State>, labels: seq<StackLabel>, t: nat, i: nat, n: nat, m: nat)
    requires PopScans(run, labels, t, i, n) && i <= m < n
    ensures var th := run[m].threads[t];
      && th.oldHead == run[i].threads[t].oldHead
      && forall j: nat {:trigger Loaded(run, labels, t, i, m, th.oldHead, j, false)} :: j < th.at ==> Loaded(run, labels, t, i, m, th.oldHead, j, false)
  {
    if m > i {
      var p, x := m - 1, run[i].threads[t].oldHead;
      ScanReads(run, labels, t, i, n, p);
      assert LabelledAt(run, labels, p);
      forall j: nat | j < run[p].threads[t].at ensures Loaded(run, labels, t, i, m, x, j, false) {
        LoadedOn(run, labels, t, i, p, x, j, false);
      }
      if labels[p].who == t {
        OwnStep(run[p], labels[p], run[m], t);
        ScanStays(run[p], t);
        assert Loads(run, labels, t, p, x, run[p].threads[t].at);
        hide Labelled, LabelOk, Step, May;
        assert i <= p < m && Loads(run, labels, t, p, x, run[p].threads[t].at);
        assert Loaded(run, labels, t, i, m, x, run[p].threads[t].at, false);
      } else {
        OthersStep(run[p], labels[p], run[m], t);
      }
    }
  }

  lemma ScanStays(s: State, t: nat)
    requires May(s, t) && s.threads[t].pc == PopScan
    ensures var th, s' := s.threads[t], Step(s, t);
      && t < |s'.threads|
      && (s'.threads[t].pc == PopScan ==>
            && th.at < |s.slots| && s.slots[th.at] != th.oldHead
            && s'.threads[t].at == th.at + 1 && s'.threads[t].oldHead == th.oldHead)
      && (s'.threads[t].pc != PopScan ==>
            IsCell(s'.cells, th.oldHead) &&
            if th.at == |s.slots| then s'.cells[th.oldHead].life == Free && s'.threads[t].pc == PC.Return
            else th.at < |s.slots| && s.slots[th.at] == th.oldHead && s'.cells[th.oldHead].life == Listed)
  {
  }

  /** A popped node is freed by its scan exactly if every hazard slot was loaded and none pointed at it; otherwise
      one pointed at it when it was loaded, and the node waits to be reclaimed. */
  lemma PopFrees(run: seq<State>, labels: seq<StackLabel>, t: nat, i: nat, n: nat)
    requires PopScans(run, labels, t, i, n)
    ensures var x := run[i].threads[t].oldHead;
      && IsCell(run[n].cells, x)
      && (if run[n].cells[x].life == Free
          then forall j: nat :: j < MAX_HAZARDS ==> Loaded(run, labels, t, i, n, x, j, false)
          else run[n].cells[x].life == Listed && exists j: nat :: Loaded(run, labels, t, i, n, x, j, true))
  {
    var p, x := n - 1, run[i].threads[t].oldHead;
    ScanReads(run, labels, t, i, n, p);
    assert LabelledAt(run, labels, p);
    SlotsStay(run, labels, p);
    var at := run[p].threads[t].at;
    assert labels[p].who == t by {
      if labels[p].who != t { OthersStep(run[p], labels[p], run[n], t); }
    }
    OwnStep(run[p], labels[p], run[n], t);
    ScanStays(run[p], t);
    hide Labelled, LabelOk, Step, May;
    if at == MAX_HAZARDS {
      forall j: nat | j < MAX_HAZARDS ensures Loaded(run, labels, t, i, n, x, j, false) {
        LoadedOn(run, labels, t, i, p, x, j, false);
      }
    } else {
      assert i <= p < n && Loads(run, labels, t, p, x, at);
      assert Loaded(run, labels, t, i, n, x, at, true);
    }
  }

  lemma {:induction false} SlotsStay(run: seq<State>, labels: seq<StackLabel>, i: nat)
    requires Labelled(run, labels) && i < |run|
    ensures |run[i].slots| == MAX_HAZARDS
  {
    if i > 0 {
      SlotsStay(run, labels, i - 1);
      assert LabelledAt(run, labels, i - 1);
      hide Step, CallPush, CallPop;
      match labels[i - 1]
      case Call(u, q) => CallSizes(run[i - 1], u, q, run[i]);
      case Own(u) => StepSizes(run[i - 1], u);
      case Return(u, answer) => StepSizes(run[i - 1], u);
    }
  }

  // ---------------------------------------------------------------- the sweep of the reclaim list

  predicate Sweeps(th: Thread) {
    th.pc in {SweepNext, SweepScan} || (th.pc in {DeferLoad, DeferSwap} && th.sweeping)
  }

  /** Thread `t` takes the reclaim list in step `i` and is done at state `n`. */
  ghost predicate SweepsList(run: seq<State>, labels: seq<StackLabel>, t: nat, i: nat, n: nat) {
    && Labelled(run, labels) && i < n < |run| && labels[i].who == t
    && (forall m {:trigger run[m]} :: i <= m <= n ==> t < |run[m].threads|)
    && run[i].threads[t].pc == TakeList
    && (forall m {:trigger run[m]} :: i < m < n ==> Sweeps(run[m].threads[t])) && run[n].threads[t].pc == PC.Return
  }

  /** Thread `t` freed `x` in one of the steps between states `i` and `n`. */
  ghost predicate FreedBy(run: seq<State>, labels: seq<StackLabel>, t: nat, i: nat, n: nat, x: int) {
    exists m :: i <= m < n && FreesAt(run, labels, t, m, x)
  }

  ghost predicate FreesAt(run: seq<State>, labels: seq<StackLabel>, t: nat, m: int, x: int) {
    0 <= m < |labels| && m + 1 < |run| && labels[m].who == t && IsCell(run[m + 1].cells, x) && run[m + 1].cells[x].life == Free
  }

  ghost predicate Met(run: seq<State>, labels: seq<StackLabel>, t: nat, i: nat, n: nat, x: int) {
    exists j: nat :: Loaded(run, labels, t, i, n, x, j, true)
  }

  ghost predicate ItemSwept(run: seq<State>, labels: seq<StackLabel>, t: nat, i: nat, m: nat, x: int)
    requires m < |run| && t < |run[m].threads|
  {
    var th := run[m].threads[t];
    x in th.list || (th.pc == SweepScan && th.item == x) || FreedBy(run, labels, t, i, m, x) || Met(run, labels, t, i, m, x)
  }

  lemma SweptOn(run: seq<State>, labels: seq<StackLabel>, t: nat, i: nat, m: nat, x: int)
    ensures FreedBy(run, labels, t, i, m, x) ==> FreedBy(run, labels, t, i, m + 1, x)
    ensures Met(run, labels, t, i, m, x) ==> Met(run, labels, t, i, m + 1, x)
  {
    if FreedBy(run, labels, t, i, m, x) {
      var k :| i <= k < m && FreesAt(run, labels, t, k, x);
      assert i <= k < m + 1 && FreesAt(run, labels, t, k, x);
    }
    if Met(run, labels, t, i, m, x) {
      var j: nat :| Loaded(run, labels, t, i, m, x, j, true);
      LoadedOn(run, labels, t, i, m, x, j, true);
    }
  }

  lemma SweepMoves(s: State, t: nat)
    requires May(s, t) && Sweeps(s.threads[t])
    ensures var th, s' := s.threads[t], Step(s, t);
      && t < |s'.threads|
      && var th' := s'.threads[t];
         && (th.pc == SweepNext && th.list != [] ==> th'.pc == SweepScan && th'.item == th.list[0] && th'.list == th.list[1..])
         && (th.pc == SweepNext && th.list == [] ==> th'.list == [])
         && (th.pc != SweepNext ==> th'.list == th.list)
         && (th.pc == SweepScan ==>
               || (th'.pc == SweepScan && th'.item == th.item)
               || (IsCell(s'.cells, th.item) && s'.cells[th.item].life == Free)
               || (th.at < |s.slots| && s.slots[th.at] == th.item))
         && (th'.pc == PC.Return ==> th.pc == SweepNext && th.list == [])
  {
  }

  lemma SweepStep(run: seq<State>, labels: seq<StackLabel>, t: nat, i: nat, m: nat, x: int)
    requires i <= m < |labels| && m + 1 < |run| && labels[m].who == t && t < |run[m].threads| && Sweeps(run[m].threads[t])
    requires May(run[m], t) && run[m + 1] == Step(run[m], t) && ItemSwept(run, labels, t, i, m, x)
    ensures t < |run[m + 1].threads| && ItemSwept(run, labels, t, i, m + 1, x)
    ensures run[m + 1].threads[t].pc == PC.Return ==> run[m + 1].threads[t].list == []
  {
    var th, s' := run[m].threads[t], run[m + 1];
    SweptOn(run, labels, t, i, m, x);
    SweepMoves(run[m], t);
    hide Step, May, Loaded, Met;
    if th.list != [] { assert th.list == [th.list[0]] + th.list[1..]; }
    if th.pc == SweepScan && th.item == x {
      if IsCell(s'.cells, x) && s'.cells[x].life == Free {
        assert i <= m < m + 1 && FreesAt(run, labels, t, m, x);
      } else if th.at < |run[m].slots| && run[m].slots[th.at] == x {
        MetNow(run, labels, t, i, m, x);
      }
    }
  }

  lemma MetNow(run: seq<State>, labels: seq<StackLabel>, t: nat, i: nat, m: nat, x: int)
    requires i <= m < |labels| && m < |run| && t < |run[m].threads|
    requires Loads(run, labels, t, m, x, run[m].threads[t].at) && run[m].slots[run[m].threads[t].at] == x
    ensures Met(run, labels, t, i, m + 1, x)
  {
    assert i <= m < m + 1 && Loads(run, labels, t, m, x, run[m].threads[t].at);
    assert Loaded(run, labels, t, i, m + 1, x, run[m].threads[t].at, true);
  }

  lemma TakeListMoves(s: State, t: nat)
    requires May(s, t) && s.threads[t].pc == TakeList
    ensures t < |Step(s, t).threads| && Step(s, t).threads[t].list == s.shared && Step(s, t).threads[t].pc == SweepNext
  {
  }

  lemma {:induction false} SweepKeeps(run: seq<State>, labels: seq<StackLabel>, t: nat, i: nat, n: nat, m: nat, x: int)
    requires SweepsList(run, labels, t, i, n) && i < m <= n && x in run[i].shared
    ensures ItemSwept(run, labels, t, i, m, x) && (run[m].threads[t].pc == PC.Return ==> run[m].threads[t].list == [])
  {
    hide LabelOk, Step, May, ItemSwept, Init, Loaded;
    var p := m - 1;
    assert LabelledAt(run, labels, p) && t < |run[p].threads|;
    assert p > i ==> Sweeps(run[p].threads[t]);
    hide Labelled, Sweeps;
    if p == i {
      SweepBegins(run, labels, t, i, x);
    } else {
      SweepKeeps(run, labels, t, i, n, p, x);
      if labels[p].who == t {
        SweepsInside(run[p].threads[t]);
        OwnStep(run[p], labels[p], run[m], t);
        SweepStep(run, labels, t, i, p, x);
      } else {
        OthersStep(run[p], labels[p], run[m], t);
        SweepWaits(run, labels, t, i, p, x);
      }
    }
  }

  lemma SweepBegins(run: seq<State>, labels: seq<StackLabel>, t: nat, i: nat, x: int)
    requires i < |labels| && i + 1 < |run| && labels[i].who == t && LabelOk(run[i], labels[i], run[i + 1])
    requires t < |run[i].threads| && t < |run[i + 1].threads| && run[i].threads[t].pc == TakeList && x in run[i].shared
    ensures ItemSwept(run, labels, t, i, i + 1, x) && run[i + 1].threads[t].pc != PC.Return
  {
    hide LabelOk, Step, May, Met, FreedBy;
    OwnStep(run[i], labels[i], run[i + 1], t);
    TakeListMoves(run[i], t);
  }

  lemma SweepsInside(th: Thread)
    requires Sweeps(th)
    ensures th.pc !in {Idle, PC.Return}
  {
  }

  lemma SweepWaits(run: seq<State>, labels: seq<StackLabel>, t: nat, i: nat, m: nat, x: int)
    requires m + 1 < |run| && t < |run[m].threads| && Theirs(run[m], run[m + 1], t) && ItemSwept(run, labels, t, i, m, x)
    ensures t < |run[m + 1].threads| && ItemSwept(run, labels, t, i, m + 1, x)
  {
    SweptOn(run, labels, t, i, m, x);
    hide Met, FreedBy;
  }

  /** A sweep frees every node of the reclaim list that it takes to which no hazard slot pointed when the sweep
      loaded it. */
  lemma SweepFrees(run: seq<State>, labels: seq<StackLabel>, t: nat, i: nat, n: nat, x: int)
    requires SweepsList(run, labels, t, i, n) && x in run[i].shared
    ensures FreedBy(run, labels, t, i, n, x) || exists j: nat :: Loaded(run, labels, t, i, n, x, j, true)
  {
    SweepKeeps(run, labels, t, i, n, n, x);
  }

  // ---------------------------------------------------------------- no node is lost

  /** Who is responsible for a node that is neither free nor on the stack. */
  ghost predicate Cared(s: State, x: int)
    requires IsCell(s.cells, x)
  {
    match s.cells[x].life
    case Free => true
    case Own(u) => u < |s.threads| && s.threads[u].pc in {PushLoad, PushSwap} && s.threads[u].own == x
    case Linked => true
    case Held(u) => u < |s.threads| && s.threads[u].pc in {PopClear, PopTake, PopScan} && s.threads[u].oldHead == x
    case Listed => true
  }

  ghost predicate AllCared(s: State) {
    forall x {:trigger s.cells[x]} :: IsCell(s.cells, x) ==> Cared(s, x)
  }

  lemma StepCares(s: State, t: nat)
    requires AllCared(s) && May(s, t) && ThreadOk(s.cells, s.slots, s.log, t, s.threads[t])
    ensures AllCared(Step(s, t))
  {
    var s', th := Step(s, t), s.threads[t];
    if th.pc in {PushLoad, PushSwap} {
      PushCares(s, t);
    } else if th.pc in {PopSwap, PopClear, PopTake, PopScan} {
      PopCares(s, t);
    } else {
      OtherCares(s, t);
    }
  }

  lemma PushCares(s: State, t: nat)
    requires AllCared(s) && May(s, t) && s.threads[t].pc in {PushLoad, PushSwap} && ThreadOk(s.cells, s.slots, s.log, t, s.threads[t])
    ensures AllCared(Step(s, t))
  {
    var s', th := Step(s, t), s.threads[t];
    forall x | IsCell(s'.cells, x) ensures Cared(s', x) {
      assert Cared(s, x);
    }
  }

  lemma PopCares(s: State, t: nat)
    requires AllCared(s) && May(s, t) && s.threads[t].pc in {PopSwap, PopClear, PopTake, PopScan} && ThreadOk(s.cells, s.slots, s.log, t, s.threads[t])
    ensures AllCared(Step(s, t))
  {
    var s', th := Step(s, t), s.threads[t];
    forall x | IsCell(s'.cells, x) ensures Cared(s', x) {
      assert Cared(s, x);
    }
  }

  lemma OtherCares(s: State, t: nat)
    requires AllCared(s) && May(s, t) && s.threads[t].pc !in {PushLoad, PushSwap, PopSwap, PopClear, PopTake, PopScan}
    requires ThreadOk(s.cells, s.slots, s.log, t, s.threads[t])
    ensures AllCared(Step(s, t))
  {
    var s' := Step(s, t);
    forall x | IsCell(s'.cells, x) ensures Cared(s', x) {
      assert Cared(s, x);
    }
  }

  lemma PushCallCares(s: State, t: nat, v: int, a: int)
    requires AllCared(s) && MayCall(s, t) && MayAllocate(s.cells, a)
    ensures AllCared(CallPush(s, t, v, a))
  {
    var s' := CallPush(s, t, v, a);
    forall x | IsCell(s'.cells, x) ensures Cared(s', x) {
      if x != a {
        assert Cared(s, x) && s'.cells[x] == s.cells[x];
      }
    }
  }

  lemma PopCallCares(s: State, t: nat)
    requires AllCared(s) && MayCall(s, t)
    ensures AllCared(CallPop(s, t))
  {
    var s' := CallPop(s, t);
    forall x | IsCell(s'.cells, x) ensures Cared(s', x) {
      assert Cared(s, x) && s'.cells[x] == s.cells[x];
    }
  }

  lemma CallCares(s: State, t: nat, q: Query, s': State)
    requires AllCared(s) && Calls(s, t, q, s')
    ensures AllCared(s')
  {
    hide AllCared, CallPush, CallPop;
    match q {
      case Push(v) =>
        var a :| MayAllocate(s.cells, a) && s' == CallPush(s, t, v, a);
        PushCallCares(s, t, v, a);
      case Pop => PopCallCares(s, t);
    }
  }

  lemma {:induction false} RunCares(run: seq<State>, labels: seq<StackLabel>, i: nat)
    requires Labelled(run, labels) && i < |run|
    ensures Inv(run[i]) && AllCared(run[i])
  {
    hide Inv, AllCared, Init, T.Run, LabelOk;
    LabelledRuns(run, labels);
    T.RunKeeps(run, i);
    if i == 0 {
      InitCares(run[0]);
    } else {
      RunCares(run, labels, i - 1);
      assert LabelledAt(run, labels, i - 1);
      NextCares(run[i - 1], labels[i - 1], run[i]);
    }
  }

  lemma InitCares(s: State)
    requires Init(s)
    ensures AllCared(s)
  {
    assert forall x :: !IsCell(s.cells, x);
  }

  lemma NextCares(s: State, l: StackLabel, s': State)
    requires Inv(s) && AllCared(s) && LabelOk(s, l, s')
    ensures AllCared(s')
  {
    if l.who < |s.threads| { InvThread(s, l.who); }
    hide Inv, AllCared, Step, May, Calls, ThreadOk;
    match l
    case Call(t, q) => CallCares(s, t, q, s');
    case Own(t) => StepCares(s, t);
    case Return(t, answer) => StepCares(s, t);
  }

  /** No node is lost: in every state a node that is not free is being pushed, or on the stack, or held by the pop
      that took it, or waits to be reclaimed in exactly one place. */
  lemma NoNodeIsLost(run: seq<State>, labels: seq<StackLabel>, i: nat, x: int)
    requires Labelled(run, labels) && i < |run| && IsCell(run[i].cells, x) && run[i].cells[x].life != Free
    ensures var s := run[i];
      || (exists u: nat :: u < |s.threads| && s.threads[u].pc in {PushLoad, PushSwap} && s.threads[u].own == x)
      || x in s.spine
      || (exists u: nat :: u < |s.threads| && s.threads[u].pc in {PopClear, PopTake, PopScan} && s.threads[u].oldHead == x)
      || InList(s.shared, x) + InHands(s.threads, x) == 1
  {
    RunCares(run, labels, i);
    var s := run[i];
    assert Cared(s, x);
    if s.threads != [] { InvThread(s, 0); }
    assert SpineOk(s.cells, s.head, s.spine) && PlaceOk(s.cells, s.threads, s.shared, x);
  }
}

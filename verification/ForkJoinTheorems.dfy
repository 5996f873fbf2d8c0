/** Waiting while helping cannot deadlock. */
module ForkJoinTheorems {
  import opened ForkJoin
  import opened ForkJoinProof

  // ---------------------------------------------------------------- every step keeps the invariant

  lemma Cut(q: seq<int>)
    requires q != []
    ensures q[1..] == q[..0] + q[1..] && q[..|q| - 1] == q[..|q| - 1] + q[|q|..]
  {
  }

  /** A thread that finds its home queue empty knows that its child has been started. */
  lemma ChildGone(s: State, t: nat)
    requires Inv(s) && t < |s.threads| && s.threads[t].stack != [] && Trying(s.threads[t].pc)
    requires |s.queues| == |s.threads| + 1 && s.queues[Home(s, t)] == []
    ensures IsTask(s, Top(s.threads[t]).child) && !s.tasks[Top(s.threads[t]).child].status.Queued?
  {
    var k := |s.threads[t].stack| - 1;
    ThreadAt(s, t);
    FrameAt(s, t, k);
    assert At(s, t, k) == Top(s.threads[t]) && ChildOk(s, t, k);
    TaskAt(s, At(s, t, k).child);
  }

  lemma StealKeeps(s: State, t: nat, from: nat)
    requires Inv(s) && May(s, t) && s.threads[t].pc == TrySteal
    ensures Inv(Step(s, t, from))
  {
    ThreadAt(s, t);
    var th := s.threads[t];
    var v := (th.from + th.at) % s.width;
    var q := s.queues[v];
    assert 0 <= v < |s.queues|;
    hide Inv;
    if th.at + 1 < s.width && q != [] {
      Cut(q);
      TakeKeeps(s, t, v, q[|q| - 1], |q| - 1, q[..|q| - 1]);
    } else if th.at + 1 >= s.width {
      LocalKeeps(s, t, th.(pc := Yield));
    } else {
      LocalKeeps(s, t, th.(at := th.at + 1));
    }
  }

  lemma PopKeeps(s: State, t: nat, from: nat)
    requires Inv(s) && May(s, t) && s.threads[t].pc in {TryLocal, TryShared}
    ensures Inv(Step(s, t, from))
  {
    ThreadAt(s, t);
    var th, v := s.threads[t], if s.threads[t].pc == TryLocal then t else |s.threads|;
    if th.stack != [] && s.queues[Home(s, t)] == [] { ChildGone(s, t); }
    hide Inv;
    if (th.pc == TryShared || t < s.width) && s.queues[v] != [] {
      Cut(s.queues[v]);
      TakeKeeps(s, t, v, s.queues[v][0], 0, s.queues[v][1..]);
    } else if th.pc == TryLocal {
      LocalKeeps(s, t, th.(pc := TryShared));
    } else {
      LocalKeeps(s, t, th.(pc := TrySteal, from := from, at := 0));
    }
  }

  lemma BeginKeeps(s: State, t: nat)
    requires Inv(s) && May(s, t) && s.threads[t].pc == Begin
    ensures Inv(if IsLeaf(Top(s.threads[t])) then LeafStep(s, t) else ForkStep(s, t))
  {
    ThreadAt(s, t);
    FrameAt(s, t, |s.threads[t].stack| - 1);
    var th := s.threads[t];
    var f := Top(th);
    hide Inv;
    if IsLeaf(f) {
      LocalKeeps(s, t, th.(pc := Ret));
      HitsIrrelevant(Go(s, t, th.(pc := Ret)), s.hits[f.root := s.hits[f.root] + Range(f.lo, f.hi)]);
    } else {
      ForkKeeps(s, t);
    }
  }

  lemma WaitKeeps(s: State, t: nat, from: nat)
    requires Inv(s) && May(s, t) && s.threads[t].pc in {Check, Yield}
    ensures Inv(Step(s, t, from))
  {
    ThreadAt(s, t);
    var th := s.threads[t];
    hide Inv;
    LocalKeeps(s, t, Step(s, t, from).threads[t]);
  }

  lemma StepKeeps(s: State, t: nat, from: nat)
    requires Inv(s) && May(s, t)
    ensures Inv(Step(s, t, from))
  {
    hide Inv;
    match s.threads[t].pc
    case Begin => BeginKeeps(s, t);
    case Check => WaitKeeps(s, t, from);
    case TryLocal => PopKeeps(s, t, from);
    case TryShared => PopKeeps(s, t, from);
    case TrySteal => StealKeeps(s, t, from);
    case Yield => WaitKeeps(s, t, from);
    case Ret => RetKeeps(s, t);
    case Rest =>
  }

  ghost predicate StepAt(run: seq<State>, i: int) {
    0 <= i < |run| - 1 && Next(run[i], run[i + 1])
  }

  ghost predicate Run(run: seq<State>) {
    |run| > 0 && Init(run[0]) && forall i :: 0 <= i < |run| - 1 ==> StepAt(run, i)
  }

  lemma NextKeeps(s: State, s': State)
    requires Inv(s) && Next(s, s')
    ensures Inv(s')
  {
    hide Inv, Step;
    if t: nat, lo, hi, depth: nat :| MayCall(s, t, lo, hi) && s' == CallFrom(s, t, lo, hi, depth) {
      CallKeeps(s, t, lo, hi, depth);
    } else {
      var t: nat, from: nat :| May(s, t) && s' == Step(s, t, from);
      StepKeeps(s, t, from);
    }
  }

  lemma {:induction false} RunKeeps(run: seq<State>, i: nat)
    requires Run(run) && i < |run|
    ensures Inv(run[i])
  {
    if i == 0 {
      assert forall t, k :: !IsFrame(run[0], t, k);
    } else {
      hide Inv, Next;
      RunKeeps(run, i - 1);
      assert StepAt(run, i - 1);
      NextKeeps(run[i - 1], run[i]);
    }
  }

  /** Every thread that is not at rest can take its next step: what it dereferences exists. */
  lemma NeverStuck(s: State, t: nat)
    requires Inv(s) && t < |s.threads| && s.threads[t].pc != Rest
    ensures May(s, t)
  {
    ThreadAt(s, t);
    var th := s.threads[t];
    if th.stack != [] {
      FrameAt(s, t, |th.stack| - 1);
      assert At(s, t, |th.stack| - 1) == Top(th) && ChildOk(s, t, |th.stack| - 1);
    }
    if th.pc == TryLocal && t < s.width && s.queues[t] != [] { QueueAt(s, t, 0); }
    if th.pc == TryShared && s.queues[|s.threads|] != [] { QueueAt(s, |s.threads|, 0); }
    if th.pc == TrySteal {
      var v := (th.from + th.at) % s.width;
      if s.queues[v] != [] { QueueAt(s, v, |s.queues[v]| - 1); }
    }
  }

  // ---------------------------------------------------------------- a measure

  /** The steps that a frame of this depth may still need, its subtree included. */
  function Cost(depth: nat): nat {
    if depth == 0 then 2 else 2 * Cost(depth - 1) + 4
  }

  lemma {:induction false} CostPositive(depth: nat)
    ensures Cost(depth) >= 2
  {
    if depth > 0 { CostPositive(depth - 1); }
  }

  function FrameCost(f: Frame, pc: PC): nat {
    if pc == Ret then 1 else if f.child == NONE then Cost(f.depth) else 2
  }

  function ThreadCost(th: Thread): nat {
    if th.stack == [] then 0 else 2 * (|th.stack| - 1) + FrameCost(Top(th), th.pc)
  }

  function TaskCost(k: Task): nat { if k.status.Queued? then Cost(k.depth) + 1 else 0 }

  function ThreadsCost(threads: seq<Thread>): nat {
    if threads == [] then 0 else ThreadCost(threads[0]) + ThreadsCost(threads[1..])
  }

  function TasksCost(tasks: seq<Task>): nat {
    if tasks == [] then 0 else TasksCost(tasks[..|tasks| - 1]) + TaskCost(tasks[|tasks| - 1])
  }

  function Measure(s: State): nat { ThreadsCost(s.threads) + TasksCost(s.tasks) }

  lemma {:induction false} ThreadsUpdate(threads: seq<Thread>, t: nat, th: Thread)
    requires t < |threads|
    ensures ThreadsCost(threads[t := th]) + ThreadCost(threads[t]) == ThreadsCost(threads) + ThreadCost(th)
  {
    var next := threads[t := th];
    if t == 0 {
      assert next[1..] == threads[1..];
    } else {
      ThreadsUpdate(threads[1..], t - 1, th);
      assert next[1..] == threads[1..][t - 1 := th] && next[0] == threads[0];
    }
  }

  lemma {:induction false} TasksUpdate(tasks: seq<Task>, c: nat, k: Task)
    requires c < |tasks|
    ensures TasksCost(tasks[c := k]) + TaskCost(tasks[c]) == TasksCost(tasks) + TaskCost(k)
  {
    var next, n := tasks[c := k], |tasks| - 1;
    if c == n {
      assert next[..n] == tasks[..n];
    } else {
      TasksUpdate(tasks[..n], c, k);
      assert next[..n] == tasks[..n][c := k] && next[n] == tasks[n];
    }
  }

  /** The step only moves thread `t` along its search for work. */
  predicate OnlyLooks(s: State, s': State, t: nat) {
    && t < |s.threads| == |s'.threads| && s' == Go(s, t, s'.threads[t])
    && s'.threads[t].stack == s.threads[t].stack && s'.threads[t].pc in {TryLocal, TryShared, TrySteal, Yield, Check}
  }

  lemma TakeDrops(s: State, t: nat, q: int, c: int, rest: seq<int>)
    requires t < |s.threads| && 0 <= q < |s.queues| && IsTask(s, c) && s.tasks[c].status.Queued?
    requires s.threads[t].pc in {TryLocal, TryShared, TrySteal} && (s.threads[t].stack != [] ==> Top(s.threads[t]).child != NONE)
    ensures Measure(TakeStep(s, t, q, c, rest)) < Measure(s)
  {
    var s' := TakeStep(s, t, q, c, rest);
    ThreadsUpdate(s.threads, t, s'.threads[t]);
    TasksUpdate(s.tasks, c, s'.tasks[c]);
  }

  lemma ForkDrops(s: State, t: nat)
    requires MayFork(s, t) && s.threads[t].stack != [] && Top(s.threads[t]).child == NONE
    ensures Measure(ForkStep(s, t)) < Measure(s)
  {
    var s' := ForkStep(s, t);
    ThreadsUpdate(s.threads, t, s'.threads[t]);
    assert s'.tasks[..|s'.tasks| - 1] == s.tasks;
  }

  lemma RetDrops(s: State, t: nat)
    requires Inv(s) && May(s, t) && s.threads[t].pc == Ret
    ensures Measure(RetStep(s, t)) < Measure(s)
  {
    var s', f, n := RetStep(s, t), Top(s.threads[t]), |s.threads[t].stack|;
    FrameAt(s, t, n - 1);
    assert At(s, t, n - 1) == f;
    if n > 1 { FrameAt(s, t, n - 2); }
    ThreadsUpdate(s.threads, t, s'.threads[t]);
    if f.task != NONE { TasksUpdate(s.tasks, f.task, s'.tasks[f.task]); }
  }

  lemma LeafDrops(s: State, t: nat)
    requires May(s, t) && s.threads[t].pc == Begin && s.threads[t].stack != [] && Top(s.threads[t]).child == NONE
    ensures Measure(LeafStep(s, t)) < Measure(s)
  {
    ThreadsUpdate(s.threads, t, s.threads[t].(pc := Ret));
    CostPositive(Top(s.threads[t]).depth);
  }

  lemma LookSame(s: State, t: nat, th: Thread)
    requires t < |s.threads| && th.stack == s.threads[t].stack && th.pc != Ret && s.threads[t].pc != Ret
    ensures Measure(Go(s, t, th)) == Measure(s)
  {
    ThreadsUpdate(s.threads, t, th);
  }

  /** The measure drops on every step but those that look for work and find none, and these change
      nothing else. */
  lemma StepDrops(s: State, t: nat, from: nat)
    requires Inv(s) && May(s, t)
    ensures Measure(Step(s, t, from)) < Measure(s) || (Measure(Step(s, t, from)) == Measure(s) && OnlyLooks(s, Step(s, t, from), t))
  {
    ThreadAt(s, t);
    var th, s' := s.threads[t], Step(s, t, from);
    if th.pc == Begin {
      FrameAt(s, t, |th.stack| - 1);
      assert At(s, t, |th.stack| - 1) == Top(th);
      hide Inv, Measure;
      if IsLeaf(Top(th)) { LeafDrops(s, t); } else { ForkDrops(s, t); }
    } else if th.pc == Ret {
      RetDrops(s, t);
    } else if th.pc in {Check, Yield} {
      ThreadsUpdate(s.threads, t, s'.threads[t]);
    } else {
      SearchDrops(s, t, from);
    }
  }

  lemma SearchDrops(s: State, t: nat, from: nat)
    requires Inv(s) && May(s, t) && s.threads[t].pc in {TryLocal, TryShared, TrySteal}
    ensures Measure(Step(s, t, from)) < Measure(s) || (Measure(Step(s, t, from)) == Measure(s) && OnlyLooks(s, Step(s, t, from), t))
  {
    ThreadAt(s, t);
    var th := s.threads[t];
    var v := if th.pc == TryLocal then t else if th.pc == TryShared then |s.threads| else (th.from + th.at) % s.width;
    assert 0 <= v < |s.queues|;
    var q := s.queues[v];
    if q != [] {
      QueueAt(s, v, 0);
      QueueAt(s, v, |q| - 1);
    }
    hide Inv, Measure;
    if th.pc == TryLocal {
      if t < s.width && q != [] { TakeDrops(s, t, v, q[0], q[1..]); } else { LookSame(s, t, th.(pc := TryShared)); }
    } else if th.pc == TryShared {
      if q != [] { TakeDrops(s, t, v, q[0], q[1..]); } else { LookSame(s, t, th.(pc := TrySteal, from := from, at := 0)); }
    } else {
      if th.at + 1 >= s.width { LookSame(s, t, th.(pc := Yield)); }
      else if q != [] { TakeDrops(s, t, v, q[|q| - 1], q[..|q| - 1]); }
      else { LookSame(s, t, th.(at := th.at + 1)); }
    }
  }

  // ---------------------------------------------------------------- somebody always has something to do

  /** No frame began after the top frame of thread `t`. */
  ghost predicate Latest(s: State, t: nat) {
    && t < |s.threads| && s.threads[t].stack != []
    && forall u, k {:trigger At(s, u, k)} :: IsFrame(s, u, k) ==> At(s, u, k).start <= Top(s.threads[t]).start
  }

  ghost predicate Unfinished(s: State) {
    (exists u: nat :: u < |s.threads| && s.threads[u].stack != []) || (exists q: nat :: q < |s.queues| && s.queues[q] != [])
  }

  lemma {:induction false} StackRises(s: State, t: nat, k: nat)
    requires Inv(s) && t < |s.threads| && k < |s.threads[t].stack|
    ensures At(s, t, k).start <= Top(s.threads[t]).start
    decreases |s.threads[t].stack| - k
  {
    FrameAt(s, t, k);
    var above := k + 1;
    if above < |s.threads[t].stack| {
      assert IsFrame(s, t, above);
      hide Inv;
      StackRises(s, t, above);
    }
  }

  /** Of the first `n` threads, one whose top frame began last. */
  lemma {:induction false} LatestOf(s: State, n: nat) returns (t: int)
    requires n <= |s.threads|
    ensures t == NONE ==> forall u :: 0 <= u < n ==> s.threads[u].stack == []
    ensures t != NONE ==> 0 <= t < n && s.threads[t].stack != []
    ensures t != NONE ==> forall u :: 0 <= u < n && s.threads[u].stack != [] ==> Top(s.threads[u]).start <= Top(s.threads[t]).start
  {
    if n == 0 {
      t := NONE;
    } else {
      t := LatestOf(s, n - 1);
      if s.threads[n - 1].stack != [] && (t == NONE || Top(s.threads[t]).start < Top(s.threads[n - 1]).start) {
        t := n - 1;
      }
    }
  }

  /** In every state with unfinished work some frame began last of all, and it is on top of its stack. */
  lemma SomeoneIsLatest(s: State) returns (t: nat)
    requires Inv(s) && Unfinished(s)
    ensures Latest(s, t)
  {
    var u := LatestOf(s, |s.threads|);
    t := if u == NONE then 0 else u;
    if u == NONE {
      var q: nat :| q < |s.queues| && s.queues[q] != [];
      QueueAt(s, q, 0);
      TaskAt(s, s.queues[q][0]);
    } else {
      forall v, k | IsFrame(s, v, k) ensures At(s, v, k).start <= Top(s.threads[t]).start {
        StackRises(s, v, k);
      }
    }
  }

  /** The latest frame, if it waits, waits for a task that is finished or in its thread's home queue. */
  lemma LatestWaits(s: State, t: nat)
    requires Inv(s) && Latest(s, t) && Trying(s.threads[t].pc)
    ensures IsTask(s, Top(s.threads[t]).child) && Shape(s)
    ensures var c := Top(s.threads[t]).child;
      s.tasks[c].status == Finished || (s.tasks[c].status == Queued(Home(s, t)) && c in s.queues[Home(s, t)])
  {
    var k := |s.threads[t].stack| - 1;
    ThreadAt(s, t);
    FrameAt(s, t, k);
    assert At(s, t, k) == Top(s.threads[t]) && ChildOk(s, t, k);
    TaskAt(s, At(s, t, k).child);
    var st := s.tasks[At(s, t, k).child].status;
    if st.Running? {
      assert !IsFrame(s, st.thread, st.at);
    }
  }

  /** The thread of the latest frame is not about to give up: it runs its frame, its child is finished, or
      its own queue (for a worker) or the shared one (from outside) holds a task that it has not looked
      past. */
  lemma LatestHasWork(s: State, t: nat)
    requires Inv(s) && Latest(s, t)
    ensures var th := s.threads[t];
      || th.pc in {Begin, Ret}
      || (IsTask(s, Top(th).child) && s.tasks[Top(th).child].status == Finished)
      || (0 <= Home(s, t) < |s.queues| && s.queues[Home(s, t)] != [] && (th.pc in {Check, TryLocal} || (th.pc == TryShared && s.width <= t)))
  {
    ThreadAt(s, t);
    if Trying(s.threads[t].pc) { LatestWaits(s, t); }
  }

  /** How many steps of its own the thread of the latest frame is away from one that makes progress. */
  function Distance(s: State, t: nat): nat
    requires t < |s.threads|
  {
    var th := s.threads[t];
    if th.pc == TryLocal then s.width + 4
    else if th.pc == TryShared then s.width + 3
    else if th.pc == TrySteal then if th.at < s.width then s.width + 2 - th.at else 2
    else if th.pc == Yield then 2
    else if th.pc == Check && th.stack != [] && !(IsTask(s, Top(th).child) && s.tasks[Top(th).child].status == Finished) then s.width + 5
    else 1
  }

  lemma LookingKeepsLatest(s: State, s': State, t: nat, u: nat)
    requires Latest(s, t) && OnlyLooks(s, s', u)
    ensures Latest(s', t)
  {
    forall v, k | IsFrame(s', v, k) ensures At(s', v, k).start <= Top(s'.threads[t]).start {
      assert At(s', v, k) == At(s, v, k);
    }
  }

  lemma LookingApproaches(s: State, t: nat, from: nat)
    requires Inv(s) && Latest(s, t) && May(s, t) && OnlyLooks(s, Step(s, t, from), t)
    requires Measure(Step(s, t, from)) == Measure(s)
    ensures Distance(Step(s, t, from), t) < Distance(s, t)
  {
    ThreadAt(s, t);
    hide Measure;
    var th := s.threads[t];
    if Trying(th.pc) { LatestWaits(s, t); }
    hide Inv, Latest;
    if th.pc in {TryLocal, TryShared, TrySteal} {
      assert Step(s, t, from).threads[t].stack == th.stack;
    }
  }

  /** Wait-while-helping cannot deadlock or starve: take the thread of the latest frame; every step of any
      thread either lowers the measure or leaves that frame the latest, and a step of its own thread
      that does not lower the measure brings it nearer, by at most width + 5 such steps, to one that does. */
  lemma EveryStepHelps(s: State, t: nat, u: nat, from: nat)
    requires Inv(s) && Latest(s, t) && May(s, u)
    ensures var s' := Step(s, u, from);
      || Measure(s') < Measure(s)
      || (Measure(s') == Measure(s) && Latest(s', t)
          && (if u == t then Distance(s', t) < Distance(s, t) else Distance(s', t) == Distance(s, t)))
    ensures 1 <= Distance(s, t) <= s.width + 5
  {
    StepDrops(s, u, from);
    var s' := Step(s, u, from);
    hide Measure, Step;
    if Measure(s') == Measure(s) {
      LookingKeepsLatest(s, s', t, u);
      if u == t { LookingApproaches(s, t, from); }
    }
  }

  /** No deadlock in any run: as long as work is unfinished, some thread can take a step, and each step that
      it can take finishes work or brings it nearer to finishing some. */
  lemma NoDeadlock(run: seq<State>, i: nat) returns (t: nat)
    requires Run(run) && i < |run| && Unfinished(run[i])
    ensures Latest(run[i], t) && May(run[i], t)
    ensures forall from: nat {:trigger Step(run[i], t, from)} :: var s' := Step(run[i], t, from);
      Measure(s') < Measure(run[i]) || (Measure(s') == Measure(run[i]) && Latest(s', t) && Distance(s', t) < Distance(run[i], t))
  {
    RunKeeps(run, i);
    t := SomeoneIsLatest(run[i]);
    ThreadAt(run[i], t);
    NeverStuck(run[i], t);
    hide Inv, Run, May, Step, Latest, Measure, Distance;
    forall from: nat
      ensures var s' := Step(run[i], t, from);
        Measure(s') < Measure(run[i]) || (Measure(s') == Measure(run[i]) && Latest(s', t) && Distance(s', t) < Distance(run[i], t))
    {
      EveryStepHelps(run[i], t, t, from);
    }
  }
}

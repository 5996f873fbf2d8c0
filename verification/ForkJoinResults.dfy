/** What parallel_for_each computes: each element of the range is visited exactly once. */
module ForkJoinResults {
  import opened ForkJoin
  import opened ForkJoinProof
  import opened ForkJoinTheorems

  // ---------------------------------------------------------------- what is still to be visited

  predicate Covers(lo: int, hi: int, root: int, r: int, x: int) { root == r && lo <= x < hi }

  /** A frame that has not begun will visit its range, itself or through its subtree. */
  function ThreadOwes(th: Thread, r: int, x: int): nat {
    if th.pc == Begin && th.stack != [] && Covers(Top(th).lo, Top(th).hi, Top(th).root, r, x) then 1 else 0
  }

  function TaskOwes(k: Task, r: int, x: int): nat {
    if k.status.Queued? && Covers(k.lo, k.hi, k.root, r, x) then 1 else 0
  }

  function ThreadsOwe(threads: seq<Thread>, r: int, x: int): nat {
    if threads == [] then 0 else ThreadOwes(threads[0], r, x) + ThreadsOwe(threads[1..], r, x)
  }

  function TasksOwe(tasks: seq<Task>, r: int, x: int): nat {
    if tasks == [] then 0 else TasksOwe(tasks[..|tasks| - 1], r, x) + TaskOwes(tasks[|tasks| - 1], r, x)
  }

  lemma {:induction false} ThreadsOweUpdate(threads: seq<Thread>, t: nat, th: Thread, r: int, x: int)
    requires t < |threads|
    ensures ThreadsOwe(threads[t := th], r, x) + ThreadOwes(threads[t], r, x) == ThreadsOwe(threads, r, x) + ThreadOwes(th, r, x)
  {
    var next := threads[t := th];
    if t == 0 {
      assert next[1..] == threads[1..];
    } else {
      ThreadsOweUpdate(threads[1..], t - 1, th, r, x);
      assert next[1..] == threads[1..][t - 1 := th] && next[0] == threads[0];
    }
  }

  lemma {:induction false} TasksOweUpdate(tasks: seq<Task>, c: nat, k: Task, r: int, x: int)
    requires c < |tasks|
    ensures TasksOwe(tasks[c := k], r, x) + TaskOwes(tasks[c], r, x) == TasksOwe(tasks, r, x) + TaskOwes(k, r, x)
  {
    var next, n := tasks[c := k], |tasks| - 1;
    if c == n {
      assert next[..n] == tasks[..n];
    } else {
      TasksOweUpdate(tasks[..n], c, k, r, x);
      assert next[..n] == tasks[..n][c := k] && next[n] == tasks[n];
    }
  }

  lemma {:induction false} NobodyOwes(threads: seq<Thread>, r: int, x: int)
    requires forall t :: 0 <= t < |threads| ==> ThreadOwes(threads[t], r, x) == 0
    ensures ThreadsOwe(threads, r, x) == 0
  {
    if threads != [] { NobodyOwes(threads[1..], r, x); }
  }

  lemma {:induction false} NothingQueued(tasks: seq<Task>, r: int, x: int)
    requires forall c :: 0 <= c < |tasks| ==> TaskOwes(tasks[c], r, x) == 0
    ensures TasksOwe(tasks, r, x) == 0
  {
    if tasks != [] { NothingQueued(tasks[..|tasks| - 1], r, x); }
  }

  lemma {:induction false} RangeHas(lo: int, hi: int, x: int)
    ensures Range(lo, hi)[x] == if lo <= x < hi then 1 else 0
    decreases hi - lo
  {
    if lo < hi { RangeHas(lo, hi - 1, x); }
  }

  /** Visited and still to be visited make up the call's range, each element once. */
  ghost predicate Accounted(s: State, r: int, x: int)
    requires 0 <= r < |s.calls| == |s.hits|
  {
    s.hits[r][x] + ThreadsOwe(s.threads, r, x) + TasksOwe(s.tasks, r, x) == Range(s.calls[r].lo, s.calls[r].hi)[x]
  }

  ghost predicate Accounts(s: State) {
    |s.calls| == |s.hits| && forall r, x {:trigger Accounted(s, r, x)} :: 0 <= r < |s.calls| ==> Accounted(s, r, x)
  }

  // ---------------------------------------------------------------- every step keeps the account

  lemma CallAccounts(s: State, t: nat, lo: int, hi: int, depth: nat, r: int, x: int)
    requires Inv(s) && Accounts(s) && MayCall(s, t, lo, hi) && 0 <= r <= |s.calls|
    ensures var s' := CallFrom(s, t, lo, hi, depth); |s'.calls| == |s.calls| + 1 == |s'.hits| && Accounted(s', r, x)
  {
    var s' := CallFrom(s, t, lo, hi, depth);
    ThreadAt(s, t);
    ThreadsOweUpdate(s.threads, t, s'.threads[t], r, x);
    RangeHas(lo, hi, x);
    if r < |s.calls| {
      assert Accounted(s, r, x);
    } else {
      forall u | 0 <= u < |s.threads| ensures ThreadOwes(s.threads[u], r, x) == 0 {
        if s.threads[u].stack != [] {
          FrameAt(s, u, |s.threads[u].stack| - 1);
          assert At(s, u, |s.threads[u].stack| - 1) == Top(s.threads[u]);
        }
      }
      forall c | 0 <= c < |s.tasks| ensures TaskOwes(s.tasks[c], r, x) == 0 {
        TaskAt(s, c);
      }
      NobodyOwes(s.threads, r, x);
      NothingQueued(s.tasks, r, x);
    }
  }

  lemma LeafAccounts(s: State, t: nat, r: int, x: int)
    requires Accounts(s) && May(s, t) && s.threads[t].pc == Begin && 0 <= r < |s.calls|
    ensures var s' := LeafStep(s, t); |s'.calls| == |s'.hits| == |s.calls| && Accounted(s', r, x)
  {
    var s', f := LeafStep(s, t), Top(s.threads[t]);
    assert Accounted(s, r, x);
    ThreadsOweUpdate(s.threads, t, s'.threads[t], r, x);
    RangeHas(f.lo, f.hi, x);
  }

  lemma ForkAccounts(s: State, t: nat, r: int, x: int)
    requires Accounts(s) && MayFork(s, t) && 0 <= r < |s.calls|
    ensures var s' := ForkStep(s, t); |s'.calls| == |s'.hits| == |s.calls| && Accounted(s', r, x)
  {
    var s', f := ForkStep(s, t), Top(s.threads[t]);
    assert Accounted(s, r, x);
    ThreadsOweUpdate(s.threads, t, s'.threads[t], r, x);
    assert s'.tasks[..|s'.tasks| - 1] == s.tasks;
    var mid := f.lo + (f.hi - f.lo) / 2;
    assert f.lo <= mid <= f.hi;
  }

  lemma TakeAccounts(s: State, t: nat, q: int, c: int, rest: seq<int>, r: int, x: int)
    requires Accounts(s) && t < |s.threads| && 0 <= q < |s.queues| && IsTask(s, c) && s.tasks[c].status.Queued?
    requires s.threads[t].pc != Begin && 0 <= r < |s.calls|
    ensures Accounted(TakeStep(s, t, q, c, rest), r, x)
  {
    var s' := TakeStep(s, t, q, c, rest);
    assert Accounted(s, r, x);
    ThreadsOweUpdate(s.threads, t, s'.threads[t], r, x);
    TasksOweUpdate(s.tasks, c, s'.tasks[c], r, x);
  }

  lemma RetAccounts(s: State, t: nat, r: int, x: int)
    requires Inv(s) && Accounts(s) && May(s, t) && s.threads[t].pc == Ret && 0 <= r < |s.calls|
    ensures Accounted(RetStep(s, t), r, x)
  {
    var s', f := RetStep(s, t), Top(s.threads[t]);
    assert Accounted(s, r, x);
    FrameAt(s, t, |s.threads[t].stack| - 1);
    assert At(s, t, |s.threads[t].stack| - 1) == f;
    ThreadsOweUpdate(s.threads, t, s'.threads[t], r, x);
    if f.task != NONE { TasksOweUpdate(s.tasks, f.task, s'.tasks[f.task], r, x); }
  }

  lemma LookAccounts(s: State, t: nat, th: Thread, r: int, x: int)
    requires Accounts(s) && t < |s.threads| && th.pc != Begin && s.threads[t].pc != Begin && 0 <= r < |s.calls|
    ensures Accounted(Go(s, t, th), r, x)
  {
    assert Accounted(s, r, x);
    ThreadsOweUpdate(s.threads, t, th, r, x);
  }

  lemma StepAccounts(s: State, t: nat, from: nat, r: int, x: int)
    requires Inv(s) && Accounts(s) && May(s, t) && 0 <= r < |s.calls|
    ensures var s' := Step(s, t, from); |s'.calls| == |s'.hits| == |s.calls| && Accounted(s', r, x)
  {
    ThreadAt(s, t);
    var th := s.threads[t];
    if th.pc == Begin {
      FrameAt(s, t, |th.stack| - 1);
      assert At(s, t, |th.stack| - 1) == Top(th);
      hide Inv, Accounted, Accounts;
      if IsLeaf(Top(th)) { LeafAccounts(s, t, r, x); } else { ForkAccounts(s, t, r, x); }
    } else if th.pc == Ret {
      hide Accounted, Accounts;
      RetAccounts(s, t, r, x);
    } else if th.pc in {Check, Yield} {
      hide Inv, Accounted, Accounts;
      LookAccounts(s, t, Step(s, t, from).threads[t], r, x);
    } else {
      hide Accounted;
      SearchAccounts(s, t, from, r, x);
    }
  }

  lemma SearchAccounts(s: State, t: nat, from: nat, r: int, x: int)
    requires Inv(s) && Accounts(s) && May(s, t) && s.threads[t].pc in {TryLocal, TryShared, TrySteal} && 0 <= r < |s.calls|
    ensures var s' := Step(s, t, from); |s'.calls| == |s'.hits| == |s.calls| && Accounted(s', r, x)
  {
    ThreadAt(s, t);
    var th := s.threads[t];
    var v := if th.pc == TryLocal then t else if th.pc == TryShared then |s.threads| else (th.from + th.at) % s.width;
    assert 0 <= v < |s.queues|;
    var q := s.queues[v];
    if q != [] {
      QueueAt(s, v, 0);
      QueueAt(s, v, |q| - 1);
    }
    assert |s.calls| == |s.hits|;
    hide Inv, Accounted, Accounts;
    if th.pc == TryLocal {
      if t < s.width && q != [] { TakeAccounts(s, t, v, q[0], q[1..], r, x); } else { LookAccounts(s, t, th.(pc := TryShared), r, x); }
    } else if th.pc == TryShared {
      if q != [] { TakeAccounts(s, t, v, q[0], q[1..], r, x); } else { LookAccounts(s, t, th.(pc := TrySteal, from := from, at := 0), r, x); }
    } else {
      if th.at + 1 >= s.width { LookAccounts(s, t, th.(pc := Yield), r, x); }
      else if q != [] { TakeAccounts(s, t, v, q[|q| - 1], q[..|q| - 1], r, x); }
      else { LookAccounts(s, t, th.(at := th.at + 1), r, x); }
    }
  }

  lemma NextAccounts(s: State, s': State)
    requires Inv(s) && Accounts(s) && Next(s, s')
    ensures Accounts(s')
  {
    InvShape(s);
    hide Inv, Accounted, Step;
    if t: nat, lo, hi, depth: nat :| MayCall(s, t, lo, hi) && s' == CallFrom(s, t, lo, hi, depth) {
      forall r, x | 0 <= r < |s'.calls| ensures Accounted(s', r, x) {
        CallAccounts(s, t, lo, hi, depth, r, x);
      }
    } else {
      var t: nat, from: nat :| May(s, t) && s' == Step(s, t, from);
      StepCalls(s, t, from);
      forall r, x | 0 <= r < |s'.calls| ensures Accounted(s', r, x) {
        StepAccounts(s, t, from, r, x);
      }
    }
  }

  lemma StepCalls(s: State, t: nat, from: nat)
    requires Inv(s) && May(s, t)
    ensures |Step(s, t, from).calls| == |s.calls| == |Step(s, t, from).hits|
  {
    InvShape(s);
    hide Inv;
  }

  lemma {:induction false} RunAccounts(run: seq<State>, i: nat)
    requires Run(run) && i < |run|
    ensures Inv(run[i]) && Accounts(run[i])
  {
    RunKeeps(run, i);
    if i > 0 {
      hide Inv, Next, Accounts;
      RunAccounts(run, i - 1);
      assert StepAt(run, i - 1);
      NextAccounts(run[i - 1], run[i]);
    }
  }

  // ---------------------------------------------------------------- a returning call is complete

  /** The call's own frame is about to return. */
  predicate Returning(s: State, t: nat) {
    t < |s.threads| && s.width <= t && |s.threads[t].stack| == 1 && s.threads[t].pc == Ret
  }

  /** Nobody else works for a call that is about to return: each frame's parent began before it. */
  lemma {:induction false} NobodyLeft(s: State, t: nat, u: int, k: int)
    requires Inv(s) && Returning(s, t) && IsFrame(s, u, k) && At(s, u, k).root == At(s, t, 0).root
    ensures u == t && k == 0
    decreases At(s, u, k).start
  {
    FrameAt(s, u, k);
    FrameAt(s, t, 0);
    ThreadAt(s, t);
    var f := At(s, u, k);
    if f.task != NONE {
      TaskAt(s, f.task);
      var p, j := s.tasks[f.task].parent, s.tasks[f.task].place;
      FrameAt(s, p, j);
      assert ChildOk(s, p, j);
      hide Inv;
      NobodyLeft(s, t, p, j);
    } else if k > 0 {
      var below := k - 1;
      FrameAt(s, u, below);
      assert IsFrame(s, u, below + 1);
      hide Inv;
      NobodyLeft(s, t, u, below);
    }
  }

  lemma NothingOwed(s: State, t: nat, x: int)
    requires Inv(s) && Returning(s, t)
    ensures ThreadsOwe(s.threads, At(s, t, 0).root, x) == 0 && TasksOwe(s.tasks, At(s, t, 0).root, x) == 0
  {
    var r := At(s, t, 0).root;
    forall u | 0 <= u < |s.threads| ensures ThreadOwes(s.threads[u], r, x) == 0 {
      var n := |s.threads[u].stack|;
      if n > 0 && Top(s.threads[u]).root == r {
        assert At(s, u, n - 1) == Top(s.threads[u]);
        NobodyLeft(s, t, u, n - 1);
      }
    }
    NobodyOwes(s.threads, r, x);
    forall c | 0 <= c < |s.tasks| ensures TaskOwes(s.tasks[c], r, x) == 0 {
      QueuedIsOthers(s, t, c);
    }
    NothingQueued(s.tasks, r, x);
  }

  lemma QueuedIsOthers(s: State, t: nat, c: int)
    requires Inv(s) && Returning(s, t) && IsTask(s, c)
    ensures s.tasks[c].status.Queued? ==> s.tasks[c].root != At(s, t, 0).root
  {
    TaskAt(s, c);
    ThreadAt(s, t);
    if s.tasks[c].status.Queued? && s.tasks[c].root == At(s, t, 0).root {
      FrameAt(s, s.tasks[c].parent, s.tasks[c].place);
      NobodyLeft(s, t, s.tasks[c].parent, s.tasks[c].place);
    }
  }

  /** When parallel_for_each returns, under every schedule, it has visited each element of its range exactly
      once and nothing else. */
  lemma VisitsEachOnce(run: seq<State>, i: nat, t: nat)
    requires Run(run) && i < |run| && Returning(run[i], t)
    ensures var s := run[i]; var r := s.threads[t].stack[0].root;
      && 0 <= r < |s.calls| == |s.hits| && s.calls[r].caller == t
      && s.hits[r] == Range(s.calls[r].lo, s.calls[r].hi)
  {
    RunAccounts(run, i);
    var s := run[i];
    FrameAt(s, t, 0);
    var r := At(s, t, 0).root;
    assert At(s, t, 0) == s.threads[t].stack[0];
    assert At(s, t, 0).task == NONE && s.calls[r].caller == t;
    hide Inv;
    forall x ensures s.hits[r][x] == Range(s.calls[r].lo, s.calls[r].hi)[x] {
      assert Accounted(s, r, x);
      NothingOwed(s, t, x);
    }
  }
}

/** What every step of the fork-join pool keeps. */
module ForkJoinProof {
  import opened ForkJoin

  predicate IsThread(s: State, t: int) { 0 <= t < |s.threads| }
  predicate IsFrame(s: State, t: int, k: int) { 0 <= t < |s.threads| && 0 <= k < |s.threads[t].stack| }
  function At(s: State, t: int, k: int): Frame
    requires IsFrame(s, t, k)
  {
    s.threads[t].stack[k]
  }

  predicate Trying(pc: PC) { pc in {Check, TryLocal, TryShared, TrySteal, Yield} }

  /** A forked child is queued where its parent would look first, or began after its parent, or is done. */
  ghost predicate ChildOk(s: State, t: int, k: int)
    requires IsFrame(s, t, k)
  {
    var f := At(s, t, k);
    f.child != NONE ==>
      && IsTask(s, f.child) && s.tasks[f.child].root == f.root
      && s.tasks[f.child].parent == t && s.tasks[f.child].place == k
      && match s.tasks[f.child].status
         case Queued(q) => q == Home(s, t)
         case Running(u, j) => IsFrame(s, u, j) && At(s, u, j).task == f.child && f.start < At(s, u, j).start
         case Finished => true
  }

  ghost predicate FrameOk(s: State, t: int, k: int)
    requires IsFrame(s, t, k)
  {
    var f, above := At(s, t, k), k + 1;
    && f.start < s.clock && 0 <= f.root < |s.calls| && f.lo <= f.hi
    && ChildOk(s, t, k)
    && (IsFrame(s, t, above) ==> f.child != NONE && f.start < At(s, t, above).start)
    && (f.task != NONE ==> IsTask(s, f.task) && s.tasks[f.task].status == Running(t, k) && s.tasks[f.task].root == f.root)
    && (f.task == NONE && 0 < k ==> At(s, t, k - 1).root == f.root)
    && (k == 0 ==> (f.task == NONE <==> s.width <= t) && (f.task == NONE ==> s.calls[f.root] == Call(f.lo, f.hi, t)))
  }

  ghost predicate TaskOk(s: State, c: int)
    requires IsTask(s, c)
  {
    var k := s.tasks[c];
    && 0 <= k.root < |s.calls| && k.lo <= k.hi
    && (k.status != Finished ==> IsFrame(s, k.parent, k.place) && At(s, k.parent, k.place).child == c)
    && match k.status
       case Queued(q) => 0 <= q < |s.queues| && c in s.queues[q]
       case Running(t, j) => IsFrame(s, t, j) && At(s, t, j).task == c
       case Finished => true
  }

  ghost predicate QueueOk(s: State, q: int, i: int)
    requires 0 <= q < |s.queues| && 0 <= i < |s.queues[q]|
  {
    var c := s.queues[q][i];
    && IsTask(s, c) && s.tasks[c].status == Queued(q)
    && forall j {:trigger s.queues[q][j]} :: 0 <= j < |s.queues[q]| && j != i ==> s.queues[q][j] != c
  }

  /** Where the thread is in the code. A worker that found its own queue empty, or an outside thread that
      found the shared queue empty, since it last tested its child will not find the child there. */
  ghost predicate ThreadOk(s: State, t: int)
    requires IsThread(s, t)
  {
    var th := s.threads[t];
    && (th.stack == [] ==> th.pc == Rest || (t < s.width && Trying(th.pc) && th.pc != Check))
    && (th.pc == Rest ==> th.stack == [] && s.width <= t)
    && (th.stack != [] && th.pc == Begin ==> Top(th).child == NONE)
    && (th.stack != [] && th.pc == Ret ==> Top(th).child == NONE || (IsTask(s, Top(th).child) && s.tasks[Top(th).child].status == Finished))
    && (th.stack != [] && Trying(th.pc) ==> Top(th).child != NONE)
    && (th.stack != [] && ((t < s.width && th.pc == TryShared) || th.pc in {TrySteal, Yield}) ==>
          IsTask(s, Top(th).child) && !s.tasks[Top(th).child].status.Queued?)
    && (th.pc == TrySteal ==> th.at < s.width)
  }

  ghost predicate Shape(s: State) {
    1 <= s.width <= |s.threads| && |s.queues| == |s.threads| + 1 && |s.hits| == |s.calls|
  }

  ghost predicate Inv(s: State) {
    && Shape(s)
    && (forall t, k {:trigger FrameOk(s, t, k)} :: IsFrame(s, t, k) ==> FrameOk(s, t, k))
    && (forall c {:trigger TaskOk(s, c)} :: IsTask(s, c) ==> TaskOk(s, c))
    && (forall q, i {:trigger QueueOk(s, q, i)} :: 0 <= q < |s.queues| && 0 <= i < |s.queues[q]| ==> QueueOk(s, q, i))
    && (forall t {:trigger ThreadOk(s, t)} :: IsThread(s, t) ==> ThreadOk(s, t))
  }

  lemma InvShape(s: State)
    requires Inv(s)
    ensures Shape(s)
  {
  }

  lemma FrameAt(s: State, t: int, k: int)
    requires Inv(s) && IsFrame(s, t, k)
    ensures FrameOk(s, t, k) && Shape(s)
  {
  }

  lemma TaskAt(s: State, c: int)
    requires Inv(s) && IsTask(s, c)
    ensures TaskOk(s, c) && Shape(s)
  {
  }

  lemma QueueAt(s: State, q: int, i: int)
    requires Inv(s) && 0 <= q < |s.queues| && 0 <= i < |s.queues[q]|
    ensures QueueOk(s, q, i) && Shape(s)
  {
  }

  lemma ThreadAt(s: State, t: int)
    requires Inv(s) && IsThread(s, t)
    ensures ThreadOk(s, t) && Shape(s)
  {
  }

  // ---------------------------------------------------------------- a step of the locals only

  lemma LocalKeeps(s: State, t: nat, th: Thread)
    requires Inv(s) && t < |s.threads| && th.stack == s.threads[t].stack
    requires ThreadOk(Go(s, t, th), t)
    ensures Inv(Go(s, t, th))
  {
    var s' := Go(s, t, th);
    InvShape(s);
    forall u, k | IsFrame(s', u, k) ensures FrameOk(s', u, k) {
      FrameAt(s, u, k);
      assert At(s', u, k) == At(s, u, k);
      var f := At(s, u, k);
      if f.child != NONE && s.tasks[f.child].status.Running? {
        assert At(s', s.tasks[f.child].status.thread, s.tasks[f.child].status.at) == At(s, s.tasks[f.child].status.thread, s.tasks[f.child].status.at);
      }
      assert ChildOk(s', u, k);
    }
    forall c | IsTask(s', c) ensures TaskOk(s', c) {
      TaskAt(s, c);
    }
    forall q, i | 0 <= q < |s'.queues| && 0 <= i < |s'.queues[q]| ensures QueueOk(s', q, i) {
      QueueAt(s, q, i);
    }
    forall u | IsThread(s', u) ensures ThreadOk(s', u) {
      ThreadAt(s, u);
    }
  }

  lemma HitsIrrelevant(s: State, hits: seq<multiset<int>>)
    requires Inv(s) && |hits| == |s.hits|
    ensures Inv(s.(hits := hits))
  {
    var s' := s.(hits := hits);
    InvShape(s);
    forall u, k | IsFrame(s', u, k) ensures FrameOk(s', u, k) {
      FrameAt(s, u, k);
      assert At(s', u, k) == At(s, u, k) && ChildOk(s, u, k);
      assert ChildOk(s', u, k);
    }
    forall c | IsTask(s', c) ensures TaskOk(s', c) {
      TaskAt(s, c);
    }
    forall q, i | 0 <= q < |s'.queues| && 0 <= i < |s'.queues[q]| ensures QueueOk(s', q, i) {
      QueueAt(s, q, i);
    }
    forall u | IsThread(s', u) ensures ThreadOk(s', u) {
      ThreadAt(s, u);
    }
  }

  // ---------------------------------------------------------------- a new frame from outside

  lemma CallFrame(s: State, t: nat, lo: int, hi: int, depth: nat, u: int, k: int)
    requires Inv(s) && MayCall(s, t, lo, hi) && IsFrame(CallFrom(s, t, lo, hi, depth), u, k)
    ensures FrameOk(CallFrom(s, t, lo, hi, depth), u, k)
  {
    var s' := CallFrom(s, t, lo, hi, depth);
    ThreadAt(s, t);
    if u != t {
      FrameAt(s, u, k);
      assert At(s', u, k) == At(s, u, k) && ChildOk(s, u, k);
      assert ChildOk(s', u, k);
    }
  }

  lemma CallKeeps(s: State, t: nat, lo: int, hi: int, depth: nat)
    requires Inv(s) && MayCall(s, t, lo, hi)
    ensures Inv(CallFrom(s, t, lo, hi, depth))
  {
    var s' := CallFrom(s, t, lo, hi, depth);
    InvShape(s);
    ThreadAt(s, t);
    forall u, k | IsFrame(s', u, k) ensures FrameOk(s', u, k) {
      CallFrame(s, t, lo, hi, depth, u, k);
    }
    forall c | IsTask(s', c) ensures TaskOk(s', c) {
      TaskAt(s, c);
    }
    forall q, i | 0 <= q < |s'.queues| && 0 <= i < |s'.queues[q]| ensures QueueOk(s', q, i) {
      QueueAt(s, q, i);
    }
    forall u | IsThread(s', u) ensures ThreadOk(s', u) {
      ThreadAt(s, u);
    }
  }

  // ---------------------------------------------------------------- forking

  predicate MayFork(s: State, t: nat) {
    May(s, t) && s.threads[t].pc == Begin && Top(s.threads[t]).depth > 0 && Top(s.threads[t]).lo <= Top(s.threads[t]).hi
  }

  lemma ForkFrame(s: State, t: nat, u: int, k: int)
    requires Inv(s) && MayFork(s, t) && IsFrame(ForkStep(s, t), u, k)
    ensures FrameOk(ForkStep(s, t), u, k)
  {
    var s', n := ForkStep(s, t), |s.threads[t].stack|;
    ThreadAt(s, t);
    FrameAt(s, t, n - 1);
    if u == t && k == n {
      assert ChildOk(s', u, k);
    } else {
      FrameAt(s, u, k);
      if u == t && k == n - 1 {
        assert ChildOk(s', u, k);
      } else {
        assert At(s', u, k) == At(s, u, k) && ChildOk(s, u, k);
        assert ChildOk(s', u, k);
      }
    }
  }

  lemma ForkTask(s: State, t: nat, c: int)
    requires Inv(s) && MayFork(s, t) && IsTask(ForkStep(s, t), c)
    ensures TaskOk(ForkStep(s, t), c)
  {
    var s', n := ForkStep(s, t), |s.threads[t].stack|;
    ThreadAt(s, t);
    FrameAt(s, t, n - 1);
    if c < |s.tasks| {
      TaskAt(s, c);
    }
  }

  lemma ForkQueue(s: State, t: nat, q: int, i: int)
    requires Inv(s) && MayFork(s, t) && 0 <= q < |s.queues| && 0 <= i < |ForkStep(s, t).queues[q]|
    ensures |ForkStep(s, t).queues| == |s.queues| && QueueOk(ForkStep(s, t), q, i)
  {
    var s', c := ForkStep(s, t), |s.tasks|;
    InvShape(s);
    forall j | 0 <= j < |s.queues[q]| ensures s.queues[q][j] != c && QueueOk(s, q, j) {
      QueueAt(s, q, j);
    }
  }

  lemma ForkKeeps(s: State, t: nat)
    requires Inv(s) && MayFork(s, t)
    ensures Inv(ForkStep(s, t))
  {
    var s' := ForkStep(s, t);
    InvShape(s);
    forall u, k | IsFrame(s', u, k) ensures FrameOk(s', u, k) {
      ForkFrame(s, t, u, k);
    }
    forall c | IsTask(s', c) ensures TaskOk(s', c) {
      ForkTask(s, t, c);
    }
    forall q, i | 0 <= q < |s'.queues| && 0 <= i < |s'.queues[q]| ensures QueueOk(s', q, i) {
      ForkQueue(s, t, q, i);
    }
    forall u | IsThread(s', u) ensures ThreadOk(s', u) {
      ThreadAt(s, u);
    }
  }

  // ---------------------------------------------------------------- taking a task

  /** Task `c` is entry `i` of queue `q`, and `rest` is the queue without it. */
  predicate Takes(s: State, t: nat, q: int, c: int, i: int, rest: seq<int>) {
    && t < |s.threads| && 0 <= q < |s.queues| && 0 <= i < |s.queues[q]| && s.queues[q][i] == c && IsTask(s, c)
    && rest == s.queues[q][..i] + s.queues[q][i + 1..]
    && s.threads[t].pc in {TryLocal, TryShared, TrySteal}
  }

  lemma TakeFrame(s: State, t: nat, q: int, c: int, i: int, rest: seq<int>, u: int, k: int)
    requires Inv(s) && Takes(s, t, q, c, i, rest) && IsFrame(TakeStep(s, t, q, c, rest), u, k)
    ensures FrameOk(TakeStep(s, t, q, c, rest), u, k)
  {
    var s', n := TakeStep(s, t, q, c, rest), |s.threads[t].stack|;
    ThreadAt(s, t);
    QueueAt(s, q, i);
    TaskAt(s, c);
    if u == t && k == n {
      assert ChildOk(s', u, k);
    } else {
      FrameAt(s, u, k);
      assert At(s', u, k) == At(s, u, k) && ChildOk(s, u, k);
      if u == t && k == n - 1 { assert At(s, u, k) == Top(s.threads[t]); }
      assert ChildOk(s', u, k);
    }
  }

  lemma TakeTask(s: State, t: nat, q: int, c: int, i: int, rest: seq<int>, d: int)
    requires Inv(s) && Takes(s, t, q, c, i, rest) && IsTask(s, d)
    ensures TaskOk(TakeStep(s, t, q, c, rest), d)
  {
    InvShape(s);
    TaskAt(s, d);
    TaskAt(s, c);
    QueueAt(s, q, i);
    if d != c && s.tasks[d].status == Queued(q) {
      var j :| 0 <= j < |s.queues[q]| && s.queues[q][j] == d;
      assert rest[if j < i then j else j - 1] == d;
    }
  }

  lemma TakeQueue(s: State, t: nat, q: int, c: int, i: int, rest: seq<int>, p: int, j: int)
    requires Inv(s) && Takes(s, t, q, c, i, rest) && 0 <= p < |s.queues| && 0 <= j < |TakeStep(s, t, q, c, rest).queues[p]|
    ensures QueueOk(TakeStep(s, t, q, c, rest), p, j)
  {
    QueueAt(s, q, i);
    if p == q {
      QueueAt(s, q, if j < i then j else j + 1);
      forall l | 0 <= l < |rest| ensures rest[l] == s.queues[q][if l < i then l else l + 1] {
      }
    } else {
      QueueAt(s, p, j);
    }
  }

  lemma TakeKeeps(s: State, t: nat, q: int, c: int, i: int, rest: seq<int>)
    requires Inv(s) && Takes(s, t, q, c, i, rest)
    ensures Inv(TakeStep(s, t, q, c, rest))
  {
    var s' := TakeStep(s, t, q, c, rest);
    InvShape(s);
    forall u, k | IsFrame(s', u, k) ensures FrameOk(s', u, k) {
      TakeFrame(s, t, q, c, i, rest, u, k);
    }
    forall d | IsTask(s', d) ensures TaskOk(s', d) {
      TakeTask(s, t, q, c, i, rest, d);
    }
    forall p, j | 0 <= p < |s'.queues| && 0 <= j < |s'.queues[p]| ensures QueueOk(s', p, j) {
      TakeQueue(s, t, q, c, i, rest, p, j);
    }
    QueueAt(s, q, i);
    forall u | IsThread(s', u) ensures ThreadOk(s', u) {
      ThreadAt(s, u);
    }
  }

  // ---------------------------------------------------------------- returning

  lemma RetFrame(s: State, t: nat, u: int, k: int)
    requires Inv(s) && May(s, t) && s.threads[t].pc == Ret && IsFrame(RetStep(s, t), u, k)
    ensures FrameOk(RetStep(s, t), u, k)
  {
    var s', n := RetStep(s, t), |s.threads[t].stack|;
    ThreadAt(s, t);
    FrameAt(s, t, n - 1);
    FrameAt(s, u, k);
    assert At(s', u, k) == At(s, u, k) && ChildOk(s, u, k);
    assert ChildOk(s', u, k);
  }

  lemma RetTask(s: State, t: nat, c: int)
    requires Inv(s) && May(s, t) && s.threads[t].pc == Ret && IsTask(s, c)
    ensures TaskOk(RetStep(s, t), c)
  {
    var n := |s.threads[t].stack|;
    ThreadAt(s, t);
    FrameAt(s, t, n - 1);
    TaskAt(s, c);
  }

  lemma RetKeeps(s: State, t: nat)
    requires Inv(s) && May(s, t) && s.threads[t].pc == Ret
    ensures Inv(RetStep(s, t))
  {
    var s', n := RetStep(s, t), |s.threads[t].stack|;
    ThreadAt(s, t);
    FrameAt(s, t, n - 1);
    forall u, k | IsFrame(s', u, k) ensures FrameOk(s', u, k) {
      RetFrame(s, t, u, k);
    }
    forall c | IsTask(s', c) ensures TaskOk(s', c) {
      RetTask(s, t, c);
    }
    forall q, i | 0 <= q < |s'.queues| && 0 <= i < |s'.queues[q]| ensures QueueOk(s', q, i) {
      QueueAt(s, q, i);
    }
    forall u | IsThread(s', u) ensures ThreadOk(s', u) {
      ThreadAt(s, u);
      if u == t && n > 1 { FrameAt(s, t, n - 2); }
    }
  }
}

/** Fork and join on the work-stealing pool (include/parallel_for_each.hpp, include/thread_pool.hpp,
    include/work_stealing_queue.hpp) as a step machine: any number of workers and of outside threads
    calling `parallel_for_each`, one queue operation or one test of a future a step.

    Thread `t` is a worker if `t < width` and owns queue `t`; the last queue is the shared one. A leaf
    runs its whole range in one step. `start` (when a frame began), `root` (the call it works for),
    `parent` and `place` (the frame that forked a task) and `hits` (the elements that a call has visited)
    are history, read by no step. The pool is running. */
module ForkJoin {
  const MIN_PER_THREAD: nat := 25
  const NONE: int := -1

  datatype Status = Queued(queue: int) | Running(thread: int, at: int) | Finished

  /** A submitted task and its future. */
  datatype Task = Task(lo: int, hi: int, depth: nat, root: int, status: Status, parent: int, place: int)

  /** One activation of `parallel_for_each`: for task `task`, or (NONE) a call from outside or the inline
      half of the frame below. `child` is the task that it forked, if it did. */
  datatype Frame = Frame(task: int, lo: int, hi: int, depth: nat, root: int, child: int, start: nat)

  datatype PC =
    | Rest      // outside the pool, between calls
    | Begin     // the top frame is about to look at its range
    | Check     // the top frame is about to test its child's future
    | TryLocal  // run_pending_task: about to pop the own queue
    | TryShared // run_pending_task: about to pop the shared queue
    | TrySteal  // run_pending_task: about to steal from queue (from + at) % width
    | Yield     // run_pending_task: found nothing
    | Ret       // the top frame is about to return

  datatype Thread = Thread(pc: PC, stack: seq<Frame>, from: nat, at: nat)

  datatype Call = Call(lo: int, hi: int, caller: int)

  datatype State = State(
    width: nat, threads: seq<Thread>, queues: seq<seq<int>>, tasks: seq<Task>, clock: nat,
    calls: seq<Call>, hits: seq<multiset<int>>)

  ghost predicate Init(s: State) {
    && 1 <= s.width <= |s.threads| && |s.queues| == |s.threads| + 1
    && (forall t :: 0 <= t < |s.threads| ==>
          s.threads[t].stack == [] && s.threads[t].pc == if t < s.width then TryLocal else Rest)
    && (forall q :: 0 <= q < |s.queues| ==> s.queues[q] == [])
    && s.tasks == [] && s.clock == 0 && s.calls == [] && s.hits == []
  }

  /** The queue that thread `t` submits to. */
  function Home(s: State, t: int): int { if t < s.width then t else |s.threads| }

  function Go(s: State, t: nat, th: Thread): State
    requires t < |s.threads|
  {
    s.(threads := s.threads[t := th])
  }

  function Top(th: Thread): Frame
    requires th.stack != []
  {
    th.stack[|th.stack| - 1]
  }

  function WithTop(th: Thread, f: Frame): seq<Frame>
    requires th.stack != []
  {
    th.stack[|th.stack| - 1 := f]
  }

  /** The elements lo, ..., hi - 1, each once. */
  function Range(lo: int, hi: int): multiset<int>
    decreases hi - lo
  {
    if lo < hi then Range(lo, hi - 1) + multiset{hi - 1} else multiset{}
  }

  predicate IsLeaf(f: Frame) { f.hi - f.lo < 2 * MIN_PER_THREAD || f.depth == 0 }

  // ---------------------------------------------------------------- steps

  predicate MayCall(s: State, t: nat, lo: int, hi: int) {
    t < |s.threads| && s.threads[t].pc == Rest && lo <= hi
  }

  /** An outside thread calls `parallel_for_each` on lo, ..., hi - 1. */
  function CallFrom(s: State, t: nat, lo: int, hi: int, depth: nat): State
    requires MayCall(s, t, lo, hi)
  {
    var f := Frame(NONE, lo, hi, depth, |s.calls|, NONE, s.clock);
    Go(s, t, s.threads[t].(pc := Begin, stack := s.threads[t].stack + [f])).(
      clock := s.clock + 1, calls := s.calls + [Call(lo, hi, t)], hits := s.hits + [multiset{}])
  }

  predicate IsTask(s: State, c: int) { 0 <= c < |s.tasks| }

  predicate May(s: State, t: nat) {
    && t < |s.threads| && s.threads[t].pc != Rest && 0 < s.width <= |s.threads| && |s.queues| == |s.threads| + 1
    && (s.threads[t].pc in {Begin, Check, Ret} ==> s.threads[t].stack != [])
    && (s.threads[t].pc == Begin ==> 0 <= Top(s.threads[t]).root < |s.hits|)
    && (s.threads[t].pc == Check ==> IsTask(s, Top(s.threads[t]).child))
    && (s.threads[t].pc == Ret ==> Top(s.threads[t]).task == NONE || IsTask(s, Top(s.threads[t]).task))
    && (s.threads[t].pc == TryLocal && t < s.width ==> s.queues[t] != [] ==> IsTask(s, s.queues[t][0]))
    && (s.threads[t].pc == TryShared ==> s.queues[|s.threads|] != [] ==> IsTask(s, s.queues[|s.threads|][0]))
    && (s.threads[t].pc == TrySteal ==>
          var q := s.queues[(s.threads[t].from + s.threads[t].at) % s.width]; q != [] ==> IsTask(s, q[|q| - 1]))
  }

  /** A leaf visits its whole range. */
  function LeafStep(s: State, t: nat): State
    requires May(s, t) && s.threads[t].pc == Begin
  {
    var f := Top(s.threads[t]);
    Go(s, t, s.threads[t].(pc := Ret)).(hits := s.hits[f.root := s.hits[f.root] + Range(f.lo, f.hi)])
  }

  /** Puts task `c` in the queue of thread `t`: at the front of its own, at the back of the shared one. */
  function Submit(s: State, t: nat, c: int): seq<seq<int>>
    requires t < |s.threads| && |s.queues| == |s.threads| + 1
  {
    var q := Home(s, t);
    s.queues[q := if t < s.width then [c] + s.queues[q] else s.queues[q] + [c]]
  }

  /** Forks the first half and begins the second. */
  function ForkStep(s: State, t: nat): State
    requires May(s, t) && s.threads[t].pc == Begin && Top(s.threads[t]).depth > 0
  {
    var th := s.threads[t];
    var f, c := Top(th), |s.tasks|;
    var mid := f.lo + (f.hi - f.lo) / 2;
    var task := Task(f.lo, mid, f.depth - 1, f.root, Queued(Home(s, t)), t, |th.stack| - 1);
    var second := Frame(NONE, mid, f.hi, f.depth - 1, f.root, NONE, s.clock);
    Go(s, t, th.(stack := WithTop(th, f.(child := c)) + [second])).(
      tasks := s.tasks + [task], queues := Submit(s, t, c), clock := s.clock + 1)
  }

  /** Takes task `c` from queue `q`, leaving `rest`, and begins it. */
  function TakeStep(s: State, t: nat, q: int, c: int, rest: seq<int>): State
    requires t < |s.threads| && 0 <= q < |s.queues| && IsTask(s, c)
  {
    var th, k := s.threads[t], s.tasks[c];
    var f := Frame(c, k.lo, k.hi, k.depth, k.root, NONE, s.clock);
    Go(s, t, th.(pc := Begin, stack := th.stack + [f])).(
      tasks := s.tasks[c := k.(status := Running(t, |th.stack|))], queues := s.queues[q := rest], clock := s.clock + 1)
  }

  function RetStep(s: State, t: nat): State
    requires May(s, t) && s.threads[t].pc == Ret
  {
    var th := s.threads[t];
    var f, rest := Top(th), th.stack[..|th.stack| - 1];
    var pc := if rest != [] then Check else if t < s.width then TryLocal else Rest;
    Go(s, t, th.(pc := pc, stack := rest)).(
      tasks := if f.task == NONE then s.tasks else s.tasks[f.task := s.tasks[f.task].(status := Finished)])
  }

  /** A step of thread `t`; `from` is where a steal starts. */
  function Step(s: State, t: nat, from: nat): State
    requires May(s, t)
  {
    var th, shared := s.threads[t], |s.threads|;
    match th.pc
    case Begin => if IsLeaf(Top(th)) then LeafStep(s, t) else ForkStep(s, t)
    case Check => Go(s, t, th.(pc := if s.tasks[Top(th).child].status == Finished then Ret else TryLocal))
    case TryLocal =>
      if t < s.width && s.queues[t] != [] then TakeStep(s, t, t, s.queues[t][0], s.queues[t][1..])
      else Go(s, t, th.(pc := TryShared))
    case TryShared =>
      if s.queues[shared] != [] then TakeStep(s, t, shared, s.queues[shared][0], s.queues[shared][1..])
      else Go(s, t, th.(pc := TrySteal, from := from, at := 0))
    case TrySteal =>
      var v := (th.from + th.at) % s.width;
      var q := s.queues[v];
      if th.at + 1 >= s.width then Go(s, t, th.(pc := Yield))
      else if q != [] then TakeStep(s, t, v, q[|q| - 1], q[..|q| - 1])
      else Go(s, t, th.(at := th.at + 1))
    case Yield => Go(s, t, th.(pc := if th.stack != [] then Check else TryLocal))
    case Ret => RetStep(s, t)
    case Rest => s
  }

  ghost predicate Next(s: State, s': State) {
    || (exists t: nat, lo, hi, depth: nat :: MayCall(s, t, lo, hi) && s' == CallFrom(s, t, lo, hi, depth))
    || (exists t: nat, from: nat :: May(s, t) && s' == Step(s, t, from))
  }
}

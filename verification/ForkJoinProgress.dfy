/** Waiting while helping ends: under every fair schedule the calls made so far return, after a number of
    steps that is known beforehand. */
module ForkJoinProgress {
  import opened ForkJoin
  import opened ForkJoinProof
  import opened ForkJoinTheorems
  import opened ForkJoinResults

  // ---------------------------------------------------------------- no two frames began at once

  ghost predicate StartsDiffer(s: State) {
    forall t, k, u, j {:trigger At(s, t, k), At(s, u, j)} ::
      IsFrame(s, t, k) && IsFrame(s, u, j) && (t != u || k != j) ==> At(s, t, k).start != At(s, u, j).start
  }

  /** Frame `k` of thread `u` began before the step from `s`, or it is the one that thread `t` began in it. */
  ghost predicate FrameFrom(s: State, s': State, t: nat, u: int, k: int)
    requires IsFrame(s', u, k)
  {
    || (IsFrame(s, u, k) && At(s', u, k).start == At(s, u, k).start < s.clock)
    || (u == t && t < |s.threads| && k == |s.threads[t].stack| && At(s', u, k).start == s.clock)
  }

  ghost predicate FramesFrom(s: State, s': State, t: nat) {
    forall u, k {:trigger At(s', u, k)} :: IsFrame(s', u, k) ==> FrameFrom(s, s', t, u, k)
  }

  lemma StartsStayApart(s: State, s': State, t: nat)
    requires StartsDiffer(s) && FramesFrom(s, s', t)
    ensures StartsDiffer(s')
  {
    forall u, k, v, j | IsFrame(s', u, k) && IsFrame(s', v, j) && (u != v || k != j)
      ensures At(s', u, k).start != At(s', v, j).start
    {
      var f, g := At(s', u, k), At(s', v, j);
      assert FrameFrom(s, s', t, u, k) && FrameFrom(s, s', t, v, j);
    }
  }

  lemma StepFrames(s: State, t: nat, from: nat)
    requires Inv(s) && May(s, t)
    ensures FramesFrom(s, Step(s, t, from), t)
  {
    var s' := Step(s, t, from);
    forall u, k | IsFrame(s', u, k) ensures FrameFrom(s, s', t, u, k) {
      if IsFrame(s, u, k) { FrameAt(s, u, k); }
    }
  }

  lemma CallFrames(s: State, t: nat, lo: int, hi: int, depth: nat)
    requires Inv(s) && MayCall(s, t, lo, hi)
    ensures FramesFrom(s, CallFrom(s, t, lo, hi, depth), t)
  {
    var s' := CallFrom(s, t, lo, hi, depth);
    forall u, k | IsFrame(s', u, k) ensures FrameFrom(s, s', t, u, k) {
      if IsFrame(s, u, k) { FrameAt(s, u, k); }
    }
  }

  ghost predicate Good(s: State) { Inv(s) && StartsDiffer(s) && Accounts(s) }

  lemma StepGood(s: State, t: nat, from: nat)
    requires Good(s) && May(s, t)
    ensures Good(Step(s, t, from))
  {
    var s' := Step(s, t, from);
    StepFrames(s, t, from);
    StepKeeps(s, t, from);
    hide Inv, StartsDiffer, FramesFrom, Accounts, Step, May;
    StartsStayApart(s, s', t);
    NextAccounts(s, s');
  }

  lemma {:induction false} RunGood(run: seq<State>, i: nat)
    requires Run(run) && i < |run|
    ensures Good(run[i])
  {
    RunAccounts(run, i);
    if i == 0 {
      assert forall t, k :: !IsFrame(run[0], t, k);
    } else {
      hide Inv, Next, Accounts, StartsDiffer;
      RunGood(run, i - 1);
      assert StepAt(run, i - 1);
      NextApart(run[i - 1], run[i]);
    }
  }

  lemma NextApart(s: State, s': State)
    requires Good(s) && Next(s, s')
    ensures StartsDiffer(s')
  {
    hide Inv, StartsDiffer, FramesFrom, Accounts, Step, May;
    if t: nat, lo, hi, depth: nat :| MayCall(s, t, lo, hi) && s' == CallFrom(s, t, lo, hi, depth) {
      CallFrames(s, t, lo, hi, depth);
      StartsStayApart(s, s', t);
    } else {
      var t: nat, from: nat :| May(s, t) && s' == Step(s, t, from);
      StepFrames(s, t, from);
      StartsStayApart(s, s', t);
    }
  }

  // ---------------------------------------------------------------- schedules

  /** `sched` names the threads that take the steps of `run`, in which nobody calls. */
  ghost predicate Scheduled(run: seq<State>, sched: seq<nat>) {
    |run| == |sched| + 1 && forall i :: 0 <= i < |sched| ==> ScheduledAt(run, sched, i)
  }

  ghost predicate ScheduledAt(run: seq<State>, sched: seq<nat>, i: int)
    requires 0 <= i < |sched| < |run|
  {
    May(run[i], sched[i]) && exists from: nat :: run[i + 1] == Step(run[i], sched[i], from)
  }

  /** Thread `t` takes step `i`, or has nothing to run there. */
  predicate Turn(run: seq<State>, sched: seq<nat>, t: nat, i: int) {
    && 0 <= i < |sched| && i < |run| && t < |run[i].threads|
    && (sched[i] == t || run[i].threads[t].pc == Rest)
  }

  /** In any `n` steps in a row every thread has a turn. */
  ghost predicate Fair(run: seq<State>, sched: seq<nat>, n: nat)
    requires |run| > 0
  {
    forall t: nat, i: nat :: t < |run[0].threads| && i + n <= |sched| ==> HasTurn(run, sched, t, i, n)
  }

  ghost predicate HasTurn(run: seq<State>, sched: seq<nat>, t: nat, i: nat, n: nat) {
    exists m :: i <= m < i + n && Turn(run, sched, t, m)
  }

  lemma SameThreads(s: State, t: nat, from: nat)
    requires May(s, t)
    ensures |Step(s, t, from).threads| == |s.threads| && Step(s, t, from).width == s.width
  {
  }

  lemma {:induction false} ScheduleGood(run: seq<State>, sched: seq<nat>, i: nat)
    requires Scheduled(run, sched) && Good(run[0]) && i < |run|
    ensures Good(run[i]) && |run[i].threads| == |run[0].threads| && run[i].width == run[0].width
  {
    if i > 0 {
      hide Good, Step, May;
      ScheduleGood(run, sched, i - 1);
      assert ScheduledAt(run, sched, i - 1);
      var from: nat :| run[i] == Step(run[i - 1], sched[i - 1], from);
      StepGood(run[i - 1], sched[i - 1], from);
      SameThreads(run[i - 1], sched[i - 1], from);
    }
  }

  // ---------------------------------------------------------------- what is left to do

  lemma SoleLatest(s: State, t: nat, u: nat)
    requires StartsDiffer(s) && Latest(s, t) && Latest(s, u)
    ensures t == u
  {
    var k, j := |s.threads[t].stack| - 1, |s.threads[u].stack| - 1;
    assert At(s, t, k) == Top(s.threads[t]) && At(s, u, j) == Top(s.threads[u]);
  }

  /** The work that is left, and the way of the latest frame's thread `t` to it. */
  function Potential(s: State, t: nat): nat
    requires t < |s.threads|
  {
    Measure(s) * (s.width + 6) + Distance(s, t)
  }

  /** No step raises the potential, and a step of the thread of the latest frame lowers it. */
  lemma PotentialFalls(s: State, u: nat, from: nat, t: nat, t': nat)
    requires Good(s) && Latest(s, t) && May(s, u) && Good(Step(s, u, from)) && Latest(Step(s, u, from), t')
    ensures var s' := Step(s, u, from);
      Potential(s', t') < Potential(s, t) || (u != t && t' == t && Potential(s', t') == Potential(s, t))
  {
    var s' := Step(s, u, from);
    SameThreads(s, u, from);
    hide Step, May;
    EveryStepHelps(s, t, u, from);
    DistanceBound(s', t');
    hide Inv, StartsDiffer, Accounts, Distance, Latest, Measure;
    if Measure(s') < Measure(s) {
      LessWork(Measure(s'), Measure(s), s.width + 6);
    } else {
      SoleLatest(s', t, t');
    }
  }

  lemma DistanceBound(s: State, t: nat)
    requires t < |s.threads|
    ensures 1 <= Distance(s, t) <= s.width + 5
  {
  }

  lemma LessWork(m: nat, n: nat, w: nat)
    requires m < n
    ensures m * w + w <= n * w
  {
    assert (n - m - 1) * w >= 0;
  }

  /** From state `i` to state `j` the potential falls, or the latest frame stays the latest and its thread
      has no turn. */
  lemma {:induction false} Falls(run: seq<State>, sched: seq<nat>, i: nat, j: nat, t: nat) returns (t': nat)
    requires Scheduled(run, sched) && Good(run[0]) && i <= j < |run| && Latest(run[i], t)
    requires forall m :: i <= m <= j ==> Unfinished(run[m])
    ensures t' < |run[j].threads| && Latest(run[j], t')
    ensures || Potential(run[j], t') < Potential(run[i], t)
            || (t' == t && Potential(run[j], t') == Potential(run[i], t) && forall m :: i <= m < j ==> !Turn(run, sched, t, m))
    decreases j
  {
    hide Good, Step, May, Potential, Unfinished, Latest;
    if i == j {
      t' := t;
      ScheduleGood(run, sched, i);
      LatestWorks(run[i], t);
    } else {
      var s, u := run[j - 1], sched[j - 1];
      var t1 := Falls(run, sched, i, j - 1, t);
      ScheduleGood(run, sched, j - 1);
      ScheduleGood(run, sched, j);
      assert ScheduledAt(run, sched, j - 1);
      var from: nat :| run[j] == Step(s, u, from);
      t' := GoodLatest(run[j]);
      LatestWorks(s, t1);
      LatestWorks(run[j], t');
      PotentialFalls(s, u, from, t1, t');
    }
  }

  lemma GoodLatest(s: State) returns (t: nat)
    requires Good(s) && Unfinished(s)
    ensures Latest(s, t)
  {
    t := SomeoneIsLatest(s);
  }

  lemma LatestWorks(s: State, t: nat)
    requires Good(s) && Latest(s, t)
    ensures t < |s.threads| && s.threads[t].pc != Rest
  {
    ThreadAt(s, t);
  }

  /** With potential at most `p` in state `i`, all work is finished at some state within n * (p + 1) steps. */
  lemma {:induction false} Finishes(run: seq<State>, sched: seq<nat>, n: nat, i: nat, t: nat, p: nat) returns (m: nat)
    requires Scheduled(run, sched) && Good(run[0]) && Fair(run, sched, n) && i < |run|
    requires Unfinished(run[i]) && Latest(run[i], t) && Potential(run[i], t) <= p
    requires i + n * (p + 1) <= |sched|
    ensures m <= |sched| && !Unfinished(run[m])
    decreases p
  {
    hide Good, Potential, Unfinished, Latest;
    assert n * (p + 1) == n + n * p;
    var all := forall k :: i <= k <= i + n ==> Unfinished(run[k]);
    if all {
      var j := i + n;
      var t' := Falls(run, sched, i, j, t);
      ScheduleGood(run, sched, i);
      LatestWorks(run[i], t);
      assert HasTurn(run, sched, t, i, n);
      m := Finishes(run, sched, n, j, t', p - 1);
    } else {
      m :| i <= m <= i + n && !Unfinished(run[m]);
    }
  }

  // ---------------------------------------------------------------- finished is finished

  lemma FinishedStays(s: State, t: nat, from: nat)
    requires Good(s) && May(s, t) && !Unfinished(s)
    ensures !Unfinished(Step(s, t, from))
  {
    ThreadAt(s, t);
    hide Inv, StartsDiffer, Accounts;
    assert s.threads[t].stack == [];
    var s' := Step(s, t, from);
    assert s'.queues == s.queues && s'.threads == s.threads[t := s'.threads[t]] && s'.threads[t].stack == [];
  }

  lemma {:induction false} FinishedFromThere(run: seq<State>, sched: seq<nat>, m: nat, i: nat)
    requires Scheduled(run, sched) && Good(run[0]) && m <= i < |run| && !Unfinished(run[m])
    ensures !Unfinished(run[i])
  {
    if m < i {
      hide Good, Step, May, Unfinished;
      FinishedFromThere(run, sched, m, i - 1);
      ScheduleGood(run, sched, i - 1);
      assert ScheduledAt(run, sched, i - 1);
      var from: nat :| run[i] == Step(run[i - 1], sched[i - 1], from);
      FinishedStays(run[i - 1], sched[i - 1], from);
    }
  }

  /** With no work left, every call has visited its range. */
  lemma AllVisited(s: State, r: nat)
    requires Good(s) && !Unfinished(s) && r < |s.calls|
    ensures |s.hits| == |s.calls| && s.hits[r] == Range(s.calls[r].lo, s.calls[r].hi)
  {
    InvShape(s);
    forall x ensures s.hits[r][x] == Range(s.calls[r].lo, s.calls[r].hi)[x] {
      assert Accounted(s, r, x);
      NobodyOwes(s.threads, r, x);
      forall c | 0 <= c < |s.tasks| ensures TaskOwes(s.tasks[c], r, x) == 0 {
        TaskAt(s, c);
      }
      NothingQueued(s.tasks, r, x);
    }
  }

  /** How many rounds of the threads finish all work begun in state `s`. */
  function Rounds(s: State): nat { Measure(s) * (s.width + 6) + s.width + 6 }

  /** From any reachable state and under every schedule that gives each thread a turn in any `n` steps, the
      pool finishes: after n * Rounds steps without new calls no frame and no queued task is left, and each
      call made has visited every element of its range exactly once. */
  lemma FairRunsFinish(before: seq<State>, run: seq<State>, sched: seq<nat>, n: nat)
    requires Run(before) && Scheduled(run, sched) && run[0] == before[|before| - 1] && Fair(run, sched, n)
    requires n * Rounds(run[0]) <= |sched|
    ensures var s := run[|sched|];
      !Unfinished(s) && |s.hits| == |s.calls| && forall r :: 0 <= r < |s.calls| ==> s.hits[r] == Range(s.calls[r].lo, s.calls[r].hi)
  {
    RunGood(before, |before| - 1);
    var s, m := run[|sched|], 0;
    ScheduleGood(run, sched, |sched|);
    assert |s.hits| == |s.calls| by { InvShape(s); }
    if Unfinished(run[0]) {
      hide Good, Unfinished;
      var t := GoodLatest(run[0]);
      DistanceBound(run[0], t);
      hide Measure, Distance, Latest, Run;
      m := Finishes(run, sched, n, 0, t, Rounds(run[0]) - 1);
    }
    hide Good, Unfinished;
    FinishedFromThere(run, sched, m, |sched|);
    forall r: nat | r < |s.calls| ensures s.hits[r] == Range(s.calls[r].lo, s.calls[r].hi) {
      AllVisited(s, r);
    }
  }
}

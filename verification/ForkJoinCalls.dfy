/** The pool, seen from its callers: each call visits the range that it was given, with no more tasks than its depth
    allows; and the order in which tasks leave the queues. */
module ForkJoinCalls {
  import opened Linearizability
  import opened ForkJoin
  import opened ForkJoinProof
  import opened ForkJoinTheorems
  import opened ForkJoinResults
  import opened ForkJoinProgress

  /** parallel_for_each on lo, ..., hi - 1. */
  datatype Query = ForEach(lo: int, hi: int, depth: nat)

  type PoolLabel = Label<Query, ()>

  // ---------------------------------------------------------------- runs with labels

  ghost predicate Steps(s: State, t: nat, s': State) {
    May(s, t) && exists from: nat :: s' == Step(s, t, from)
  }

  ghost predicate LabelOk(s: State, l: PoolLabel, s': State) {
    match l
    case Call(t, q) => MayCall(s, t, q.lo, q.hi) && s' == CallFrom(s, t, q.lo, q.hi, q.depth)
    case Own(t) => Steps(s, t, s') && !Returning(s, t)
    case Return(t, _) => Steps(s, t, s') && Returning(s, t)
  }

  ghost predicate LabelledAt(run: seq<State>, labels: seq<PoolLabel>, i: int) {
    0 <= i < |labels| && i + 1 < |run| && LabelOk(run[i], labels[i], run[i + 1])
  }

  /** `labels` tells the steps of `run`: which calls were made, who stepped, which calls returned. */
  ghost predicate Labelled(run: seq<State>, labels: seq<PoolLabel>) {
    && |run| == |labels| + 1 && Init(run[0])
    && forall i :: 0 <= i < |labels| ==> LabelledAt(run, labels, i)
  }

  lemma LabelIsNext(s: State, l: PoolLabel, s': State)
    requires LabelOk(s, l, s')
    ensures Next(s, s')
  {
    hide Step, CallFrom, May, MayCall;
  }

  lemma LabelledRuns(run: seq<State>, labels: seq<PoolLabel>)
    requires Labelled(run, labels)
    ensures Run(run)
  {
    hide Init, LabelOk, Next;
    forall i | 0 <= i < |run| - 1 ensures StepAt(run, i) {
      assert LabelledAt(run, labels, i);
      LabelIsNext(run[i], labels[i], run[i + 1]);
    }
  }

  // ---------------------------------------------------------------- the calls made

  /** How many calls the first `i` steps make. */
  function Count(labels: seq<PoolLabel>, i: nat): nat
    requires i <= |labels|
  {
    if i == 0 then 0 else Count(labels, i - 1) + if labels[i - 1].Call? then 1 else 0
  }

  lemma {:induction false} CountGrows(labels: seq<PoolLabel>, i: nat, j: nat)
    requires i <= j <= |labels|
    ensures Count(labels, i) <= Count(labels, j)
  {
    if i < j { CountGrows(labels, i, j - 1); }
  }

  /** The calls recorded are the calls made, and a thread inside one works for its own. */
  ghost predicate CallsMade(s: State, labels: seq<PoolLabel>, i: nat)
    requires i <= |labels|
  {
    && |s.calls| == Count(labels, i)
    && (forall c {:trigger labels[c]} :: 0 <= c < i && labels[c].Call? ==> CallMade(s, labels, c))
    && (forall t: nat {:trigger Pending(labels, t, i)} :: ThreadsCall(s, labels, i, t))
  }

  ghost predicate CallMade(s: State, labels: seq<PoolLabel>, c: nat)
    requires c < |labels| && labels[c].Call?
  {
    Count(labels, c) < |s.calls| && s.calls[Count(labels, c)] == ForkJoin.Call(labels[c].query.lo, labels[c].query.hi, labels[c].who)
  }

  ghost predicate ThreadsCall(s: State, labels: seq<PoolLabel>, i: nat, t: nat)
    requires i <= |labels|
  {
    (Pending(labels, t, i) <==> s.width <= t < |s.threads| && s.threads[t].stack != []) &&
    (Pending(labels, t, i) ==>
       CallOf(labels, t, i) < i && labels[CallOf(labels, t, i)].Call? && labels[CallOf(labels, t, i)].who == t
       && s.threads[t].stack[0].root == Count(labels, CallOf(labels, t, i)))
  }

  /** What a step keeps of the calls and of the stacks' bottoms. */
  ghost predicate KeepsBottoms(s: State, t: nat, s': State) {
    && |s'.threads| == |s.threads| && s'.width == s.width && s'.calls == s.calls && t < |s.threads|
    && (forall u {:trigger s'.threads[u]} :: 0 <= u < |s.threads| && u != t ==> s'.threads[u] == s.threads[u])
    && (s.width <= t ==>
          && (s'.threads[t].stack == [] <==> s.threads[t].stack == [] || Returning(s, t))
          && (s'.threads[t].stack != [] ==> s.threads[t].stack != [] && s'.threads[t].stack[0].root == s.threads[t].stack[0].root))
  }

  lemma StepKeepsBottoms(s: State, t: nat, from: nat)
    requires Inv(s) && May(s, t)
    ensures KeepsBottoms(s, t, Step(s, t, from))
    ensures s.width <= t ==> s.threads[t].stack != []
  {
    ThreadAt(s, t);
    hide Inv;
  }

  lemma StepMade(s: State, labels: seq<PoolLabel>, i: nat, s': State)
    requires i < |labels| && CallsMade(s, labels, i) && !labels[i].Call? && KeepsBottoms(s, labels[i].who, s')
    requires labels[i].Return? <==> Returning(s, labels[i].who)
    requires s.width <= labels[i].who ==> s.threads[labels[i].who].stack != []
    ensures CallsMade(s', labels, i + 1)
  {
    var next := i + 1;
    forall c | 0 <= c < next && labels[c].Call? ensures CallMade(s', labels, c) {
      assert CallMade(s, labels, c);
    }
    hide Count;
    forall t: nat ensures ThreadsCall(s', labels, next, t) {
      assert ThreadsCall(s, labels, i, t) by { assert Pending(labels, t, i) || !Pending(labels, t, i); }
    }
  }

  lemma CallMadeNow(s: State, labels: seq<PoolLabel>, i: nat)
    requires i < |labels| && CallsMade(s, labels, i) && labels[i].Call? && Inv(s)
    requires var q := labels[i].query; MayCall(s, labels[i].who, q.lo, q.hi)
    ensures var q := labels[i].query; CallsMade(CallFrom(s, labels[i].who, q.lo, q.hi, q.depth), labels, i + 1)
  {
    var q, u, next := labels[i].query, labels[i].who, i + 1;
    var s' := CallFrom(s, u, q.lo, q.hi, q.depth);
    ThreadAt(s, u);
    hide Inv;
    forall c | 0 <= c < next && labels[c].Call? ensures CallMade(s', labels, c) {
      if c < i { assert CallMade(s, labels, c); }
    }
    forall t: nat ensures ThreadsCall(s', labels, next, t) {
      assert ThreadsCall(s, labels, i, t) by { assert Pending(labels, t, i) || !Pending(labels, t, i); }
    }
  }

  lemma {:induction false} RunMade(run: seq<State>, labels: seq<PoolLabel>, i: nat)
    requires Labelled(run, labels) && i <= |labels|
    ensures Inv(run[i]) && CallsMade(run[i], labels, i)
  {
    hide Inv, CallsMade, Init, Next, Run, LabelOk;
    LabelledRuns(run, labels);
    RunKeeps(run, i);
    if i == 0 {
      InitMade(run[0], labels);
    } else {
      RunMade(run, labels, i - 1);
      assert LabelledAt(run, labels, i - 1);
      NextMade(run[i - 1], labels, i - 1, run[i]);
    }
  }

  lemma InitMade(s: State, labels: seq<PoolLabel>)
    requires Init(s)
    ensures CallsMade(s, labels, 0)
  {
    forall t: nat ensures ThreadsCall(s, labels, 0, t) {
      assert t < |s.threads| ==> s.threads[t].stack == [];
    }
  }

  lemma NextMade(s: State, labels: seq<PoolLabel>, i: nat, s': State)
    requires Inv(s) && i < |labels| && CallsMade(s, labels, i) && LabelOk(s, labels[i], s')
    ensures CallsMade(s', labels, i + 1)
  {
    hide Inv, CallsMade, Step, CallFrom, May;
    if labels[i].Call? {
      CallMadeNow(s, labels, i);
    } else {
      var from: nat :| s' == Step(s, labels[i].who, from);
      StepKeepsBottoms(s, labels[i].who, from);
      StepMade(s, labels, i, s');
    }
  }

  /** Each of lo, ..., hi - 1 was visited once, and nothing else was. */
  ghost predicate VisitedOnce(visits: multiset<int>, lo: int, hi: int) {
    forall x {:trigger visits[x]} :: visits[x] == if lo <= x < hi then 1 else 0
  }

  lemma RangeIsOnce(lo: int, hi: int)
    ensures VisitedOnce(Range(lo, hi), lo, hi)
  {
    forall x ensures Range(lo, hi)[x] == if lo <= x < hi then 1 else 0 {
      RangeHas(lo, hi, x);
    }
  }

  /** A call that returns has visited each element of the range that it was given exactly once, and nothing
      else. */
  lemma CallsVisit(run: seq<State>, labels: seq<PoolLabel>, e: nat)
    requires Labelled(run, labels) && e < |labels| && labels[e].Return?
    ensures var c := CallOf(labels, labels[e].who, e);
      && c < e && labels[c].Call? && labels[c].who == labels[e].who && Count(labels, c) < |run[e].hits|
      && VisitedOnce(run[e].hits[Count(labels, c)], labels[c].query.lo, labels[c].query.hi)
  {
    var t := labels[e].who;
    assert LabelledAt(run, labels, e);
    RunMade(run, labels, e);
    LabelledRuns(run, labels);
    VisitsEachOnce(run, e, t);
    hide Run, Labelled, Inv, Step, May, Range, VisitedOnce;
    assert ThreadsCall(run[e], labels, e, t) by { assert Pending(labels, t, e) || !Pending(labels, t, e); }
    var q := labels[CallOf(labels, t, e)].query;
    assert CallMade(run[e], labels, CallOf(labels, t, e));
    RangeIsOnce(q.lo, q.hi);
  }

  lemma CallsWellFormed(run: seq<State>, labels: seq<PoolLabel>)
    requires Labelled(run, labels)
    ensures forall i {:trigger labels[i]} :: 0 <= i < |labels| && !labels[i].Own? ==> (labels[i].Call? <==> !Pending(labels, labels[i].who, i))
  {
    forall i | 0 <= i < |labels| && !labels[i].Own? ensures labels[i].Call? <==> !Pending(labels, labels[i].who, i) {
      RunMade(run, labels, i);
      assert LabelledAt(run, labels, i);
      var t := labels[i].who;
      ThreadAt(run[i], t);
      hide Inv, Step, May;
      assert ThreadsCall(run[i], labels, i, t) by { assert Pending(labels, t, i) || !Pending(labels, t, i); }
    }
  }

  /** From any state and under every schedule that gives each thread a turn in any `n` steps, all calls made
      return after a stated number of steps without new calls, each having visited each element of the range that
      it was given exactly once. */
  lemma FairCallsReturn(before: seq<State>, labels: seq<PoolLabel>, run: seq<State>, sched: seq<nat>, n: nat)
    requires Labelled(before, labels) && Scheduled(run, sched) && run[0] == before[|before| - 1] && Fair(run, sched, n)
    requires n * Rounds(run[0]) <= |sched|
    ensures var s := run[|sched|];
      && !Unfinished(s) && |s.hits| == Count(labels, |labels|)
      && forall c {:trigger labels[c]} :: 0 <= c < |labels| && labels[c].Call? ==>
           Count(labels, c) < |s.hits| && VisitedOnce(s.hits[Count(labels, c)], labels[c].query.lo, labels[c].query.hi)
  {
    var s := run[|sched|];
    LabelledRuns(before, labels);
    RunMade(before, labels, |labels|);
    FairRunsFinish(before, run, sched, n);
    RunGood(before, |before| - 1);
    CallsStay(run, sched, |sched|);
    hide Run, Labelled, Inv, Good, Fair, Range, Rounds, Unfinished, Count, VisitedOnce;
    forall c | 0 <= c < |labels| && labels[c].Call?
      ensures Count(labels, c) < |s.hits| && VisitedOnce(s.hits[Count(labels, c)], labels[c].query.lo, labels[c].query.hi)
    {
      assert CallMade(run[0], labels, c);
      RangeIsOnce(labels[c].query.lo, labels[c].query.hi);
    }
  }

  lemma {:induction false} CallsStay(run: seq<State>, sched: seq<nat>, i: nat)
    requires Scheduled(run, sched) && Good(run[0]) && i <= |sched|
    ensures run[i].calls == run[0].calls
  {
    if i > 0 {
      hide Good, Step, May;
      CallsStay(run, sched, i - 1);
      ScheduleGood(run, sched, i - 1);
      assert ScheduledAt(run, sched, i - 1);
      var from: nat :| run[i] == Step(run[i - 1], sched[i - 1], from);
      GoodInv(run[i - 1]);
      StepKeepsBottoms(run[i - 1], sched[i - 1], from);
    }
  }

  lemma GoodInv(s: State)
    requires Good(s)
    ensures Inv(s)
  {
  }
}

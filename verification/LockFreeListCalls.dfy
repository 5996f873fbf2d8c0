/** The Harris-Michael list, seen from its callers: the operations are those that were called, with their arguments,
    and the answers those that were returned. */
module LockFreeListCalls {
  import opened SetHistory
  import opened Linearizability
  import opened SetCalls
  import opened LockFreeList
  import L = LockFreeListProof
  import T = LockFreeListTheorems

  // ---------------------------------------------------------------- runs with labels

  predicate LabelOk(s: State, l: SetLabel, s': State) {
    match l
    case Call(t, q) => t < |s.threads| && s.threads[t].pc == Idle && s' == Invoke(s, t, q.op, q.key)
    case Own(t) => Runnable(s, t) && s.threads[t].pc != PC.Return && s' == Advance(s, t)
    case Return(t, answer) =>
      Runnable(s, t) && s.threads[t].pc == PC.Return && answer == s.threads[t].result && s' == Advance(s, t)
  }

  ghost predicate LabelledAt(run: seq<State>, labels: seq<SetLabel>, i: int) {
    0 <= i < |labels| && i + 1 < |run| && LabelOk(run[i], labels[i], run[i + 1])
  }

  /** `labels` tells the steps of `run`: who called which operation, who stepped, who returned what. */
  ghost predicate Labelled(run: seq<State>, labels: seq<SetLabel>) {
    && |run| == |labels| + 1 && Init(run[0])
    && forall i :: 0 <= i < |labels| ==> LabelledAt(run, labels, i)
  }

  lemma LabelledRuns(run: seq<State>, labels: seq<SetLabel>)
    requires Labelled(run, labels)
    ensures T.Run(run)
  {
    hide Init, Advance, Invoke;
    forall i | 0 <= i < |run| - 1 ensures T.StepAt(run, i) {
      assert LabelledAt(run, labels, i);
    }
  }

  // ---------------------------------------------------------------- the views

  function StatusOf(th: Thread): Status {
    if th.pc == Idle then Free else Busy(th.op, th.key, th.start, th.op != Contains && th.result)
  }

  function Statuses(threads: seq<Thread>): (r: seq<Status>)
    ensures |r| == |threads| && forall t {:trigger r[t]} :: 0 <= t < |r| ==> r[t] == StatusOf(threads[t])
  {
    seq(|threads|, t requires 0 <= t < |threads| => StatusOf(threads[t]))
  }

  function ViewOf(s: State): View { View(Statuses(s.threads), s.effects, s.done) }

  /** Before its change an operation has no positive result. */
  ghost predicate ResultsOk(s: State) {
    forall t {:trigger s.threads[t]} :: 0 <= t < |s.threads| ==>
      s.threads[t].result ==> s.threads[t].pc in {Idle, Detach, ReclaimVictim, PC.Return}
  }

  lemma StatusesUpdate(threads: seq<Thread>, t: nat, th: Thread)
    requires t < |threads|
    ensures Statuses(threads[t := th]) == Statuses(threads)[t := StatusOf(th)]
    ensures StatusOf(th) == StatusOf(threads[t]) ==> Statuses(threads[t := th]) == Statuses(threads)
  {
  }

  lemma CallFollows(s: State, t: nat, q: Query)
    requires ResultsOk(s) && Now(s) == |s.effects| && t < |s.threads| && s.threads[t].pc == Idle
    ensures Follows(ViewOf(s), Call(t, q), ViewOf(Invoke(s, t, q.op, q.key))) && ResultsOk(Invoke(s, t, q.op, q.key))
  {
    StatusesUpdate(s.threads, t, Invoke(s, t, q.op, q.key).threads[t]);
  }

  lemma OwnFollows(s: State, t: nat)
    requires Runnable(s, t) && L.ThreadOk(s.nodes, s.effects, t, s.threads[t]) && ResultsOk(s) && s.threads[t].pc != PC.Return
    ensures Follows(ViewOf(s), Own(t), ViewOf(Advance(s, t))) && ResultsOk(Advance(s, t))
  {
    var th, s' := s.threads[t], Advance(s, t);
    StatusesUpdate(s.threads, t, s'.threads[t]);
    hide L.Searching, Statuses;
  }

  lemma ReturnFollows(s: State, t: nat)
    requires ResultsOk(s) && Runnable(s, t) && s.threads[t].pc == PC.Return
    ensures Follows(ViewOf(s), Label.Return(t, s.threads[t].result), ViewOf(Advance(s, t))) && ResultsOk(Advance(s, t))
  {
    var th, s' := s.threads[t], Advance(s, t);
    StatusesUpdate(s.threads, t, s'.threads[t]);
    assert Returns(ViewOf(s), t, th.result, th.point, ViewOf(s'));
  }

  lemma StepFollows(s: State, l: SetLabel, s': State)
    requires L.Inv(s) && ResultsOk(s) && LabelOk(s, l, s')
    ensures Follows(ViewOf(s), l, ViewOf(s')) && ResultsOk(s')
  {
    assert l.who < |s.threads| ==> L.ThreadOk(s.nodes, s.effects, l.who, s.threads[l.who]);
    hide L.Inv, ResultsOk, Follows, Advance, Invoke, ViewOf, L.ThreadOk;
    match l
    case Call(t, q) => CallFollows(s, t, q);
    case Own(t) => OwnFollows(s, t);
    case Return(t, answer) => ReturnFollows(s, t);
  }

  function Views(run: seq<State>): (views: seq<View>)
    ensures |views| == |run| && forall i {:trigger views[i]} :: 0 <= i < |run| ==> views[i] == ViewOf(run[i])
  {
    seq(|run|, i requires 0 <= i < |run| => ViewOf(run[i]))
  }

  lemma {:induction false} ResultsStay(run: seq<State>, labels: seq<SetLabel>, i: nat)
    requires Labelled(run, labels) && i < |run|
    ensures L.Inv(run[i]) && ResultsOk(run[i])
  {
    hide L.Inv, ResultsOk, Follows, Init, LabelOk, T.Run;
    LabelledRuns(run, labels);
    T.RunKeeps(run, i);
    if i == 0 {
      InitResults(run[0]);
    } else {
      ResultsStay(run, labels, i - 1);
      assert LabelledAt(run, labels, i - 1);
      StepFollows(run[i - 1], labels[i - 1], run[i]);
    }
  }

  lemma InitResults(s: State)
    requires Init(s)
    ensures ResultsOk(s) && forall t :: 0 <= t < |s.threads| ==> ViewOf(s).threads[t] == Free
    ensures ViewOf(s).effects == [] && ViewOf(s).done == []
  {
  }

  lemma ViewsTrace(run: seq<State>, labels: seq<SetLabel>)
    requires Labelled(run, labels)
    ensures Trace(Views(run), labels)
  {
    var views := Views(run);
    InitResults(run[0]);
    hide L.Inv, ResultsOk, Follows, Init, LabelOk, ViewOf;
    forall i | 0 <= i < |labels| ensures FollowsAt(views, labels, i) {
      ResultsStay(run, labels, i);
      assert LabelledAt(run, labels, i);
      StepFollows(run[i], labels[i], run[i + 1]);
    }
  }

  /** The records, of which every answer is right, are exactly the calls that returned: the operation and key are
      those called, the answer is the one returned. */
  lemma RecordsAreCalls(run: seq<State>, labels: seq<SetLabel>)
    requires Labelled(run, labels)
    ensures Recorded(labels, run[|labels|].done)
  {
    ViewsTrace(run, labels);
    hide Labelled, Trace, Recorded;
    CallsRecorded(Views(run), labels);
  }

  /** Every run of the list is linearizable over its calls: the calls, with the arguments given, have a legal
      sequential history of a set in real-time order that agrees with every answer returned and ends in the keys
      on the unmarked nodes in memory. */
  lemma CallsLinearize(run: seq<State>, labels: seq<SetLabel>) returns (turns: seq<Turn<bool>>)
    requires Labelled(run, labels)
    ensures Linearizes(SetSpec, {}, labels, turns)
    ensures After(SetSpec, {}, labels, turns) == T.Contents(run[|labels|].nodes)
  {
    LabelledRuns(run, labels);
    ViewsTrace(run, labels);
    T.ListLinearizable(run, |labels|);
    T.HistoryIsTrue(run, |labels|, |labels|);
    hide Labelled, Trace, Linearizes, After, T.Run, Explained, Legal, Outcome, T.Contents;
    turns := CallsLinearizable(Views(run), labels);
  }
}

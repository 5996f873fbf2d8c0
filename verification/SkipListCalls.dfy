/** The lazy skip list, seen from its callers: the operations are those that were called, with their arguments,
    and the answers those that were returned. */
module SkipListCalls {
  import opened SetHistory
  import opened Linearizability
  import opened SetCalls
  import opened SkipList
  import opened SkipListProof
  import opened SkipListSteps
  import opened SkipListRemoving
  import T = SkipListTheorems

  // ---------------------------------------------------------------- runs with labels

  ghost predicate LabelOk(s: State, l: SetLabel, s': State) {
    match l
    case Call(t, q) => exists top: nat :: MayInvoke(s, t, top) && s' == Invoke(s, t, q.op, q.key, top)
    case Own(t) => Enabled(s, t) && s.threads[t].pc != PC.Return && s' == Step(s, t)
    case Return(t, answer) => Enabled(s, t) && s.threads[t].pc == PC.Return && answer == s.threads[t].result && s' == Step(s, t)
  }

  ghost predicate LabelledAt(run: seq<State>, labels: seq<SetLabel>, i: int) {
    0 <= i < |labels| && i + 1 < |run| && LabelOk(run[i], labels[i], run[i + 1])
  }

  /** `labels` tells the steps of `run`: who called which operation, who stepped, who returned what. */
  ghost predicate Labelled(run: seq<State>, labels: seq<SetLabel>) {
    && |run| == |labels| + 1 && Init(run[0])
    && forall i :: 0 <= i < |labels| ==> LabelledAt(run, labels, i)
  }

  lemma LabelledRuns(run: seq<State>, labels: seq<SetLabel>)
    requires Labelled(run, labels)
    ensures T.Run(run)
  {
    hide Init, Step, Invoke;
    forall i | 0 <= i < |run| - 1 ensures T.StepAt(run, i) {
      assert LabelledAt(run, labels, i);
    }
  }

  // ---------------------------------------------------------------- the views

  function StatusOf(th: Thread): Status {
    if th.pc == Idle then Free else Busy(th.op, th.key, th.start, th.op != Contains && th.result)
  }

  function Statuses(threads: seq<Thread>): (r: seq<Status>)
    ensures |r| == |threads| && forall t {:trigger r[t]} :: 0 <= t < |r| ==> r[t] == StatusOf(threads[t])
  {
    seq(|threads|, t requires 0 <= t < |threads| => StatusOf(threads[t]))
  }

  function ViewOf(s: State): View { View(Statuses(s.threads), s.effects, s.done) }

  /** Where an operation may have changed the set. */
  predicate Changed(pc: PC) {
    || pc in {Idle, Unlock, UnlockVictim, SpliceUnlock, Retire, PC.Return}
    || PhaseOf(pc) == Removing
  }

  /** Before its change an operation has no positive result. */
  ghost predicate ResultsOk(s: State) {
    forall t {:trigger s.threads[t]} :: 0 <= t < |s.threads| ==>
      s.threads[t].result ==> Changed(s.threads[t].pc)
  }

  lemma StatusesUpdate(threads: seq<Thread>, t: nat, th: Thread)
    requires t < |threads|
    ensures Statuses(threads[t := th]) == Statuses(threads)[t := StatusOf(th)]
    ensures StatusOf(th) == StatusOf(threads[t]) ==> Statuses(threads[t := th]) == Statuses(threads)
  {
  }

  lemma CallFollows(s: State, t: nat, q: Query, top: nat)
    requires ResultsOk(s) && MayInvoke(s, t, top)
    ensures Follows(ViewOf(s), Call(t, q), ViewOf(Invoke(s, t, q.op, q.key, top))) && ResultsOk(Invoke(s, t, q.op, q.key, top))
  {
    StatusesUpdate(s.threads, t, Invoke(s, t, q.op, q.key, top).threads[t]);
  }

  /** A step that changes neither the set nor what is seen of its thread. */
  predicate Unseen(s: State, t: nat, s': State) {
    && t < |s.threads| == |s'.threads| && s'.threads == s.threads[t := s'.threads[t]]
    && s'.effects == s.effects + [Quiet] && s'.done == s.done
    && s.threads[t].pc != Idle && s'.threads[t].pc != Idle
    && var th, th' := s.threads[t], s'.threads[t];
       && th'.op == th.op && th'.key == th.key && th'.start == th.start
       && (th.op != Contains ==> th'.result == th.result) && (th'.result ==> Changed(th'.pc))
  }

  /** A step that changes the set. */
  predicate Seen(s: State, t: nat, s': State) {
    && t < |s.threads| == |s'.threads| && s'.threads == s.threads[t := s'.threads[t]] && s'.done == s.done
    && s.threads[t].pc != Idle && s'.threads[t].pc != Idle
    && var th, th' := s.threads[t], s'.threads[t];
       && th'.op == th.op != Contains && th'.key == th.key && th'.start == th.start && th'.result && !th.result && Changed(th'.pc)
       && s'.effects == s.effects + [if th.op == Insert then Added(t, th.key) else Removed(t, th.key)]
  }

  lemma UnseenFollows(s: State, t: nat, s': State)
    requires ResultsOk(s) && (Unseen(s, t, s') || Seen(s, t, s'))
    ensures Follows(ViewOf(s), Own(t), ViewOf(s')) && ResultsOk(s')
  {
    StatusesUpdate(s.threads, t, s'.threads[t]);
    hide Statuses;
  }

  lemma FindUnseen(s: State, t: nat)
    requires ResultsOk(s) && Enabled(s, t) && PhaseOf(s.threads[t].pc) == Finding
    ensures Unseen(s, t, Step(s, t))
  {
  }

  lemma LookSeen(s: State, t: nat)
    requires ResultsOk(s) && Enabled(s, t) && PhaseOf(s.threads[t].pc) == Looking
    requires !s.threads[t].result && (s.threads[t].pc == Mark ==> s.threads[t].op == Erase)
    requires s.threads[t].pc in {SeeFull, SeeMark} ==> s.threads[t].op == Contains
    ensures Unseen(s, t, Step(s, t)) || Seen(s, t, Step(s, t))
  {
    LookStepIs(s, t);
    hide Step, Enabled, MarkNodes, LastOn, WithLock;
  }

  lemma LookIsOf(ns: seq<Node>, effects: seq<Effect>, t: nat, th: Thread)
    requires LookingOk(ns, effects, t, th)
    ensures !th.result && (th.pc == Mark ==> th.op == Erase) && (th.pc in {SeeFull, SeeMark} ==> th.op == Contains)
  {
  }

  lemma AddSeen(s: State, t: nat)
    requires ResultsOk(s) && Enabled(s, t) && PhaseOf(s.threads[t].pc) == Adding
    requires s.threads[t].op == Insert && (s.threads[t].pc == Unlock && !s.threads[t].ok ==> !s.threads[t].result)
    ensures Unseen(s, t, Step(s, t)) || Seen(s, t, Step(s, t))
  {
    hide LinkNodes, WithLock, PublishNodes;
  }

  lemma AddIsInsert(ns: seq<Node>, effects: seq<Effect>, t: nat, th: Thread)
    requires AddingOk(ns, effects, t, th) && PhaseOf(th.pc) == Adding
    ensures th.op == Insert && (th.pc == Unlock && !th.ok ==> !th.result)
  {
  }

  lemma RemoveUnseen(s: State, t: nat)
    requires ResultsOk(s) && Enabled(s, t) && PhaseOf(s.threads[t].pc) == Removing
    ensures Unseen(s, t, Step(s, t))
  {
    RemoveStepIs(s, t);
    hide Step, Enabled, SpliceNodes, WithLock, MayRemove;
  }

  lemma EndUnseen(s: State, t: nat)
    requires ResultsOk(s) && Enabled(s, t) && PhaseOf(s.threads[t].pc) == Ending && s.threads[t].pc != PC.Return
    ensures Unseen(s, t, Step(s, t))
  {
    hide WithLock;
  }

  lemma OwnFollows(s: State, t: nat)
    requires t < |s.threads| && s.threads[t].pc != PC.Return && Enabled(s, t)
    requires SkipListProof.ThreadOk(s.nodes, s.effects, t, s.threads[t]) && ResultsOk(s)
    ensures Follows(ViewOf(s), Own(t), ViewOf(Step(s, t))) && ResultsOk(Step(s, t))
  {
    hide ResultsOk, Follows, Step, Enabled, ViewOf, Unseen, Seen, FindingOk, LookingOk, AddingOk, RemovingOk, EndingOk;
    match PhaseOf(s.threads[t].pc) {
      case Finding => FindUnseen(s, t);
      case Looking =>
        LookIsOf(s.nodes, s.effects, t, s.threads[t]);
        LookSeen(s, t);
      case Adding =>
        AddIsInsert(s.nodes, s.effects, t, s.threads[t]);
        AddSeen(s, t);
      case Removing => RemoveUnseen(s, t);
      case Ending => EndUnseen(s, t);
    }
    UnseenFollows(s, t, Step(s, t));
  }

  lemma ReturnStepIs(s: State, t: nat)
    requires Enabled(s, t) && s.threads[t].pc == PC.Return
    ensures var th, s' := s.threads[t], Step(s, t);
      && s'.threads == s.threads[t := th.(pc := Idle)] && s'.effects == s.effects + [Quiet]
      && s'.done == s.done + [Record(t, th.op, th.key, th.result, th.start, th.point, |s.effects|)]
  {
    hide MayFind, MayLook, MayAdd, MayRemove, FindMove, LookStep, AddStep, RemoveStep, WithLock;
  }

  lemma ReturnResults(s: State, s': State, t: nat)
    requires ResultsOk(s) && t < |s.threads| && s'.threads == s.threads[t := s.threads[t].(pc := Idle)]
    ensures ResultsOk(s')
  {
  }

  lemma ReturnFollows(s: State, t: nat)
    requires t < |s.threads| && s.threads[t].pc == PC.Return && ResultsOk(s) && Enabled(s, t)
    ensures Follows(ViewOf(s), Label.Return(t, s.threads[t].result), ViewOf(Step(s, t))) && ResultsOk(Step(s, t))
  {
    var th, s' := s.threads[t], Step(s, t);
    ReturnStepIs(s, t);
    StatusesUpdate(s.threads, t, s'.threads[t]);
    hide Statuses, Step, Enabled, ResultsOk;
    ReturnResults(s, s', t);
    assert Returns(ViewOf(s), t, th.result, th.point, ViewOf(s'));
  }

  lemma StepFollows(s: State, l: SetLabel, s': State)
    requires Inv(s) && ResultsOk(s) && LabelOk(s, l, s')
    ensures Follows(ViewOf(s), l, ViewOf(s')) && ResultsOk(s')
  {
    if l.who < |s.threads| { InvThread(s, l.who); }
    hide Inv, ResultsOk, Follows, Step, Invoke, ViewOf, SkipListProof.ThreadOk;
    match l
    case Call(t, q) =>
      var top: nat :| MayInvoke(s, t, top) && s' == Invoke(s, t, q.op, q.key, top);
      CallFollows(s, t, q, top);
    case Own(t) => OwnFollows(s, t);
    case Return(t, answer) => ReturnFollows(s, t);
  }

  function Views(run: seq<State>): (views: seq<View>)
    ensures |views| == |run| && forall i {:trigger views[i]} :: 0 <= i < |run| ==> views[i] == ViewOf(run[i])
  {
    seq(|run|, i requires 0 <= i < |run| => ViewOf(run[i]))
  }

  lemma {:induction false} ResultsStay(run: seq<State>, labels: seq<SetLabel>, i: nat)
    requires Labelled(run, labels) && i < |run|
    ensures Inv(run[i]) && ResultsOk(run[i])
  {
    hide Inv, ResultsOk, Follows, Init, LabelOk, T.Run;
    LabelledRuns(run, labels);
    T.RunKeeps(run, i);
    if i == 0 {
      InitResults(run[0]);
    } else {
      ResultsStay(run, labels, i - 1);
      assert LabelledAt(run, labels, i - 1);
      StepFollows(run[i - 1], labels[i - 1], run[i]);
    }
  }

  lemma InitResults(s: State)
    requires Init(s)
    ensures ResultsOk(s) && forall t :: 0 <= t < |s.threads| ==> ViewOf(s).threads[t] == Free
    ensures ViewOf(s).effects == [] && ViewOf(s).done == []
  {
  }

  lemma ViewsTrace(run: seq<State>, labels: seq<SetLabel>)
    requires Labelled(run, labels)
    ensures Trace(Views(run), labels)
  {
    var views := Views(run);
    InitResults(run[0]);
    hide Inv, ResultsOk, Follows, Init, LabelOk, ViewOf;
    forall i | 0 <= i < |labels| ensures FollowsAt(views, labels, i) {
      ResultsStay(run, labels, i);
      assert LabelledAt(run, labels, i);
      StepFollows(run[i], labels[i], run[i + 1]);
    }
  }

  /** The records, of which every answer is right, are exactly the calls that returned: the operation and key are
      those called, the answer is the one returned. */
  lemma RecordsAreCalls(run: seq<State>, labels: seq<SetLabel>)
    requires Labelled(run, labels)
    ensures Recorded(labels, run[|labels|].done)
  {
    ViewsTrace(run, labels);
    hide Labelled, Trace, Recorded;
    CallsRecorded(Views(run), labels);
  }

  /** Every run of the skip list is linearizable over its calls: the calls, with the arguments given, have a legal
      sequential history of a set in real-time order that agrees with every answer returned and ends in the keys
      on the nodes in memory that are fully linked and not marked. */
  lemma CallsLinearize(run: seq<State>, labels: seq<SetLabel>) returns (turns: seq<Turn<bool>>)
    requires Labelled(run, labels)
    ensures Linearizes(SetSpec, {}, labels, turns)
    ensures After(SetSpec, {}, labels, turns) == T.Contents(run[|labels|].nodes)
  {
    LabelledRuns(run, labels);
    ViewsTrace(run, labels);
    T.SkipListLinearizable(run, |labels|);
    T.HistoryIsTrue(run, |labels|, |labels|);
    hide Labelled, Trace, Linearizes, After, T.Run, Explained, Legal, Outcome, T.Contents;
    turns := CallsLinearizable(Views(run), labels);
  }
}

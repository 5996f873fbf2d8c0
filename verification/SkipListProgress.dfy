/** Why no thread of the lazy skip list waits in vain: for a lock, or for a node to be fully linked. */
module SkipListProgress {
  import opened SetHistory
  import opened SkipList
  import opened SkipListHeap
  import opened SkipListProof
  import opened SkipListSteps
  import opened SkipListAdding
  import opened SkipListRemoving
  import opened SkipListTheorems
  import opened SkipListLocks

  // ---------------------------------------------------------------- who finishes a node

  /** The thread is linking node `r`, with all its locks held. */
  predicate Making(th: Thread, r: int) {
    th.own == r && ((th.pc == Link && th.level > 0) || th.pc == Publish)
  }

  ghost predicate MadeBy(s: State, r: int) {
    IsData(s.nodes, r) && !s.nodes[r].full ==> 0 <= s.nodes[r].maker < |s.threads| && Making(s.threads[s.nodes[r].maker], r)
  }

  /** A node that is not fully linked has its maker still at work on it. */
  ghost predicate MakersOk(s: State) {
    forall r :: MadeBy(s, r)
  }

  /** The step of `t` leaves who made each node and whether it is fully linked. */
  ghost predicate MakesNothing(s: State, s': State, t: nat) {
    && t < |s.threads| && |s.nodes| == |s'.nodes| && |s'.threads| == |s.threads| && s'.threads == s.threads[t := s'.threads[t]]
    && forall r {:trigger s'.nodes[r]} :: IsRef(s.nodes, r) ==>
         s'.nodes[r].maker == s.nodes[r].maker && s'.nodes[r].full == s.nodes[r].full
  }

  lemma MakersStay(s: State, s': State, t: nat)
    requires MakersOk(s) && MakesNothing(s, s', t)
    requires forall r :: Making(s.threads[t], r) ==> Making(s'.threads[t], r)
    ensures MakersOk(s')
  {
    hide Making;
    forall r ensures MadeBy(s', r) {
      assert MadeBy(s, r);
      if IsData(s'.nodes, r) {
        assert s'.nodes[r].maker == s.nodes[r].maker;
      }
    }
  }

  lemma LookMakes(s: State, t: nat)
    requires Enabled(s, t) && PhaseOf(s.threads[t].pc) == Looking
    ensures MakesNothing(s, Step(s, t), t)
  {
    LookStepIs(s, t);
    hide Step, Enabled, LookMove;
  }

  lemma RemoveMakes(s: State, t: nat)
    requires Enabled(s, t) && PhaseOf(s.threads[t].pc) == Removing
    ensures MakesNothing(s, Step(s, t), t)
  {
    RemoveStepIs(s, t);
    hide Step, Enabled, SpliceMove;
  }

  lemma QuietMakes(s: State, t: nat)
    requires Enabled(s, t) && s.threads[t].pc !in {Link, Publish}
    ensures MakesNothing(s, Step(s, t), t)
  {
    hide FindMove, CheckMove, UnlockMove;
    if PhaseOf(s.threads[t].pc) == Looking {
      LookMakes(s, t);
    } else if PhaseOf(s.threads[t].pc) == Removing {
      RemoveMakes(s, t);
    }
  }

  lemma LinkMakes(s: State, t: nat)
    requires Enabled(s, t) && s.threads[t].pc == Link
    ensures var th, s' := s.threads[t], Step(s, t);
      && Making(s'.threads[t], if th.level == 0 then |s.nodes| else th.own)
      && |s'.threads| == |s.threads| && s'.threads == s.threads[t := s'.threads[t]]
    ensures var th, ns' := s.threads[t], Step(s, t).nodes;
      && |ns'| == (if th.level == 0 then |s.nodes| + 1 else |s.nodes|)
      && (th.level == 0 ==> ns'[|s.nodes|].maker == t)
      && forall r {:trigger ns'[r]} :: IsRef(s.nodes, r) ==> ns'[r].maker == s.nodes[r].maker && ns'[r].full == s.nodes[r].full
  {
  }

  lemma LinkMakers(s: State, t: nat)
    requires MakersOk(s) && Enabled(s, t) && s.threads[t].pc == Link
    ensures MakersOk(Step(s, t))
  {
    LinkMakes(s, t);
    var s' := Step(s, t);
    hide Step, Enabled;
    forall r ensures MadeBy(s', r) {
      assert MadeBy(s, r);
      if IsData(s'.nodes, r) && IsRef(s.nodes, r) {
        assert s'.nodes[r].maker == s.nodes[r].maker;
      }
    }
  }

  lemma PublishMakers(s: State, t: nat)
    requires MakersOk(s) && Enabled(s, t) && s.threads[t].pc == Publish
    ensures MakersOk(Step(s, t)) && IsRef(s.nodes, s.threads[t].own) && Step(s, t).nodes == PublishNodes(s.nodes, s.threads[t].own, Now(s))
  {
    var s' := Step(s, t);
    forall r ensures MadeBy(s', r) {
      assert MadeBy(s, r);
    }
  }

  lemma StepMakers(s: State, t: nat)
    requires MakersOk(s) && Enabled(s, t)
    ensures MakersOk(Step(s, t))
  {
    if s.threads[t].pc == Link {
      LinkMakers(s, t);
    } else if s.threads[t].pc == Publish {
      PublishMakers(s, t);
    } else {
      QuietMakes(s, t);
      hide Step, Enabled;
      MakersStay(s, Step(s, t), t);
    }
  }

  lemma InvokeMakers(s: State, t: nat, op: Op, key: int, top: nat)
    requires MakersOk(s) && MayInvoke(s, t, top)
    ensures MakersOk(Invoke(s, t, op, key, top))
  {
    MakersStay(s, Invoke(s, t, op, key, top), t);
  }

  ghost predicate Sound(s: State) { Inv(s) && LocksOk(s) && MakersOk(s) }

  lemma {:induction false} MakersWork(run: seq<State>, i: nat)
    requires Run(run) && i < |run|
    ensures MakersOk(run[i])
  {
    hide MakersOk, Init, Next;
    if i == 0 {
      InitMakers(run[0]);
    } else {
      MakersWork(run, i - 1);
      assert StepAt(run, i - 1);
      NextMakers(run[i - 1], run[i]);
    }
  }

  lemma RunMakers(run: seq<State>, i: nat)
    requires Run(run) && i < |run|
    ensures Sound(run[i])
  {
    hide Run, Inv, LocksOk, MakersOk;
    RunLocks(run, i);
    MakersWork(run, i);
  }

  lemma InitMakers(s: State)
    requires Init(s)
    ensures MakersOk(s)
  {
    assert |s.nodes| == 2;
  }

  lemma NextMakers(s: State, s': State)
    requires MakersOk(s) && Next(s, s')
    ensures MakersOk(s')
  {
    hide Enabled, Step, Invoke, MakersOk;
    if t: nat, op, key, top: nat :| MayInvoke(s, t, top) && s' == Invoke(s, t, op, key, top) {
      InvokeMakers(s, t, op, key, top);
    } else {
      var t: nat :| Enabled(s, t) && s' == Step(s, t);
      StepMakers(s, t);
    }
  }

  // ---------------------------------------------------------------- waiting for a node ends

  /** The steps of its own after which a thread has made its node fully linked. */
  function StepsToPublish(th: Thread): int {
    if th.pc == Publish then 1 else th.top - th.level + 2
  }

  lemma MakerReady(s: State, u: nat, r: int)
    requires Sound(s) && u < |s.threads| && Making(s.threads[u], r)
    ensures Enabled(s, u) && s.threads[u].own == r && 1 <= StepsToPublish(s.threads[u]) <= MAX_LEVEL + 1
  {
    InvThread(s, u);
    ReadyOrBlocked(s, u);
  }

  /** In every state of every run: an insert that waits for a node to be fully linked waits for a thread
      that can take its next step and is at most 33 of its own steps away from publishing the node. */
  lemma WaitedIsMade(run: seq<State>, i: nat, t: nat) returns (u: nat)
    requires Run(run) && i < |run| && t < |run[i].threads| && run[i].threads[t].pc == Wait
    ensures IsRef(run[i].nodes, run[i].threads[t].found)
    ensures !run[i].nodes[run[i].threads[t].found].full ==>
              && u < |run[i].threads| && u != t && Making(run[i].threads[u], run[i].threads[t].found) && Enabled(run[i], u)
              && 1 <= StepsToPublish(run[i].threads[u]) <= MAX_LEVEL + 1
  {
    var s, r := run[i], run[i].threads[t].found;
    u := 0;
    RunMakers(run, i);
    InvThread(s, t);
    if !s.nodes[r].full {
      assert MadeBy(s, r);
      u := s.nodes[r].maker;
      hide Inv, LocksOk, MakersOk;
      MakerReady(s, u, r);
    }
  }

  /** Every step of a run leaves a thread that is making node `r` as it is, or brings it one step nearer to
      publishing, or makes the node fully linked. */
  lemma PublishNears(run: seq<State>, i: nat, u: nat, r: int)
    requires Run(run) && i + 1 < |run| && u < |run[i].threads| && Making(run[i].threads[u], r)
    ensures |run[i + 1].threads| == |run[i].threads|
    ensures var th, th' := run[i].threads[u], run[i + 1].threads[u];
      || th' == th
      || (Making(th', r) && StepsToPublish(th') == StepsToPublish(th) - 1)
      || (StepsToPublish(th) == 1 && IsRef(run[i + 1].nodes, r) && run[i + 1].nodes[r].full)
  {
    RunMakers(run, i);
    assert StepAt(run, i);
    var s, s' := run[i], run[i + 1];
    hide Sound, Enabled, Step, Invoke;
    if t: nat, op, key, top: nat :| MayInvoke(s, t, top) && s' == Invoke(s, t, op, key, top) {
      InvokeMoves(s, t, op, key, top);
    } else {
      var t: nat :| Enabled(s, t) && s' == Step(s, t);
      StepMoves(s, t);
      if t == u { MakerSteps(s, u, r); }
    }
  }

  lemma InvokeMoves(s: State, t: nat, op: Op, key: int, top: nat)
    requires MayInvoke(s, t, top)
    ensures var s' := Invoke(s, t, op, key, top);
      |s'.threads| == |s.threads| && s'.threads == s.threads[t := s'.threads[t]] && s.threads[t].pc == Idle
  {
  }

  lemma StepMoves(s: State, t: nat)
    requires Enabled(s, t)
    ensures |Step(s, t).threads| == |s.threads| && Step(s, t).threads == s.threads[t := Step(s, t).threads[t]]
  {
    hide FindMove, LookMove, CheckMove, UnlockMove, SpliceMove, LinkMove, LinkNodes, SpliceNodes;
  }

  lemma MakerSteps(s: State, u: nat, r: int)
    requires Sound(s) && Enabled(s, u) && Making(s.threads[u], r)
    ensures |Step(s, u).threads| == |s.threads|
    ensures var s', th, th' := Step(s, u), s.threads[u], Step(s, u).threads[u];
      || (Making(th', r) && StepsToPublish(th') == StepsToPublish(th) - 1)
      || (StepsToPublish(th) == 1 && IsRef(s'.nodes, r) && s'.nodes[r].full)
  {
    StepMoves(s, u);
    if s.threads[u].pc == Link {
      LinkSteps(s, u);
    } else {
      PublishMakers(s, u);
    }
  }

  lemma LinkSteps(s: State, u: nat)
    requires Enabled(s, u) && s.threads[u].pc == Link && s.threads[u].level > 0
    ensures |Step(s, u).threads| == |s.threads|
    ensures var th, th' := s.threads[u], Step(s, u).threads[u];
      Making(th', th.own) && StepsToPublish(th') == StepsToPublish(th) - 1
  {
  }

  // ---------------------------------------------------------------- somebody goes on

  /** The thread can take a step, and the step is not a spin: it writes memory or moves the thread on. */
  predicate Advances(s: State, t: nat) {
    Enabled(s, t) && |Step(s, t).threads| == |s.threads| && (Step(s, t).nodes != s.nodes || Step(s, t).threads[t] != s.threads[t])
  }

  predicate Spins(s: State, t: nat) {
    && t < |s.threads| && s.threads[t].pc == Wait && IsRef(s.nodes, s.threads[t].found) && !s.nodes[s.threads[t].found].full
  }

  lemma ScanAdvances(ns: seq<Node>, effects: seq<Effect>, th: Thread)
    requires HeapOk(ns, |effects|) && FindingOk(ns, effects, th) && PhaseOf(th.pc) == Finding && MayFind(ns, th)
    ensures FindMove(ns, th, |effects|) != th
  {
  }

  /** Moving past `curr`, the splicing loop goes on to a later node. */
  lemma SpliceAdvances(ns: seq<Node>, effects: seq<Effect>, t: nat, th: Thread)
    requires HeapOk(ns, |effects|) && RemovingOk(ns, effects, t, th) && MayRemove(ns, th)
    requires th.pc in {SpliceStart, SpliceScan, SpliceMark, SpliceNext, SpliceLoad}
    ensures SpliceMove(ns, th) != th
  {
    if th.pc == SpliceScan && th.curr != th.found && Under(ns, th.curr, th.key) {
      assert LinkOk(ns, th.curr, th.level, |effects|);
      assert Nxt(ns[th.curr], th.level) != th.curr;
    }
  }

  lemma RemoveAdvances(s: State, t: nat)
    requires Inv(s) && Enabled(s, t) && PhaseOf(s.threads[t].pc) == Removing
    ensures Advances(s, t)
  {
    var th := s.threads[t];
    InvThread(s, t);
    RemoveStepIs(s, t);
    hide Inv, HeapOk, RemovingOk, SpliceMove, Enabled, Step, SpliceNodes, WithLock;
    if th.pc !in {SpliceLock, SpliceStore} {
      SpliceAdvances(s.nodes, s.effects, t, th);
    }
  }

  lemma FindAdvances(s: State, t: nat)
    requires Inv(s) && Enabled(s, t) && PhaseOf(s.threads[t].pc) == Finding
    ensures Advances(s, t)
  {
    InvThread(s, t);
    hide Inv, HeapOk, FindingOk, FindMove;
    ScanAdvances(s.nodes, s.effects, s.threads[t]);
  }

  lemma LookAdvances(s: State, t: nat)
    requires Enabled(s, t) && PhaseOf(s.threads[t].pc) == Looking && !Spins(s, t)
    ensures Advances(s, t)
  {
  }

  lemma AddAdvances(s: State, t: nat)
    requires Enabled(s, t) && PhaseOf(s.threads[t].pc) == Adding
    ensures Advances(s, t)
  {
    hide LinkNodes, WithLock;
  }

  lemma EndAdvances(s: State, t: nat)
    requires Enabled(s, t) && PhaseOf(s.threads[t].pc) == Ending
    ensures Advances(s, t)
  {
    hide WithLock;
  }

  /** The only step that changes nothing is the load of a wait for a node that is not fully linked. */
  lemma OnlyWaitSpins(s: State, t: nat)
    requires Inv(s) && Enabled(s, t)
    ensures Advances(s, t) || Spins(s, t)
  {
    var pc := s.threads[t].pc;
    assert Enabled(s, t);
    hide Inv, Enabled, Step, Advances;
    match PhaseOf(pc)
    case Finding => FindAdvances(s, t);
    case Looking => if !Spins(s, t) { LookAdvances(s, t); }
    case Adding => AddAdvances(s, t);
    case Removing => RemoveAdvances(s, t);
    case Ending => EndAdvances(s, t);
  }

  /** No deadlock: in every state of every run in which some operation is unfinished, some thread can take a
      step that writes memory or moves it on in the code. It is the thread itself, or the maker of the
      node that it waits for, or one that holds a lock. */
  lemma NoDeadlock(run: seq<State>, i: nat, t: nat) returns (v: nat)
    requires Run(run) && i < |run| && t < |run[i].threads| && run[i].threads[t].pc != Idle
    ensures Advances(run[i], v)
    ensures v == t || (Spins(run[i], t) && Making(run[i].threads[v], run[i].threads[t].found)) || exists r :: Holds(run[i].threads[v], r)
  {
    var s := run[i];
    RunMakers(run, i);
    ReadyOrBlocked(s, t);
    hide Run, Inv, LocksOk, MakersOk, Enabled, Blocked, Advances, Holds;
    if !Enabled(s, t) {
      var held: int;
      v, held := HolderGoesOn(s, t, Holder(s, t));
      HoldsIs(s.threads[v]);
    } else if Spins(s, t) {
      v := WaitedIsMade(run, i, t);
    } else {
      v := t;
    }
    OnlyWaitSpins(s, v);
  }
}

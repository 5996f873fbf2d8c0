/** The skip list loses no node: what is marked is spliced and retired by the thread that marked it. */
module SkipListRetiring {
  import opened SetHistory
  import opened SkipList
  import opened SkipListHeap
  import opened SkipListProof
  import opened SkipListSteps
  import opened SkipListRemoving
  import opened SkipListTheorems

  predicate Erases(th: Thread, r: int) { HasVictim(th) && th.found == r }

  /** A marked node was retired, or the thread that marked it is splicing or about to retire it. */
  ghost predicate Kept(s: State, r: int)
    requires IsRef(s.nodes, r)
  {
    s.nodes[r].marked ==> r in s.retired || exists t :: 0 <= t < |s.threads| && Erases(s.threads[t], r)
  }

  ghost predicate AllKept(s: State) {
    forall r {:trigger s.nodes[r]} :: IsRef(s.nodes, r) ==> Kept(s, r)
  }

  /** A step of `t` marks a node only for its thread to erase, and drops its victim only by retiring it. */
  ghost predicate Retires(s: State, t: nat, s': State) {
    && t < |s.threads| == |s'.threads| && s'.threads == s.threads[t := s'.threads[t]] && |s.nodes| <= |s'.nodes| && s.retired <= s'.retired
    && (forall r {:trigger s'.nodes[r]} :: IsRef(s.nodes, r) && !s.nodes[r].marked && s'.nodes[r].marked ==> Erases(s'.threads[t], r))
    && (forall r {:trigger s'.nodes[r]} :: |s.nodes| <= r < |s'.nodes| ==> !s'.nodes[r].marked)
    && (HasVictim(s.threads[t]) ==> Erases(s'.threads[t], s.threads[t].found) || s.threads[t].found in s'.retired)
  }

  lemma FindRetires(s: State, t: nat)
    requires Enabled(s, t) && PhaseOf(s.threads[t].pc) == Finding
    ensures Retires(s, t, Step(s, t))
  {
    hide FindMove;
  }

  lemma LookRetires(s: State, t: nat)
    requires Enabled(s, t) && PhaseOf(s.threads[t].pc) == Looking
    ensures Retires(s, t, Step(s, t))
  {
    LookStepIs(s, t);
    hide Step, Enabled, LookMove;
  }

  lemma AddRetires(s: State, t: nat)
    requires Enabled(s, t) && PhaseOf(s.threads[t].pc) == Adding
    ensures Retires(s, t, Step(s, t))
  {
    hide CheckMove, UnlockMove, LinkMove;
  }

  lemma RemoveRetires(s: State, t: nat)
    requires Enabled(s, t) && PhaseOf(s.threads[t].pc) == Removing
    ensures Retires(s, t, Step(s, t))
  {
    RemoveStepIs(s, t);
    hide Step, Enabled;
  }

  lemma EndRetires(s: State, t: nat)
    requires Enabled(s, t) && PhaseOf(s.threads[t].pc) == Ending
    ensures Retires(s, t, Step(s, t))
  {
  }

  lemma StepRetires(s: State, t: nat)
    requires Enabled(s, t)
    ensures Retires(s, t, Step(s, t))
  {
    hide Step, Retires;
    match PhaseOf(s.threads[t].pc)
    case Finding => FindRetires(s, t);
    case Looking => LookRetires(s, t);
    case Adding => AddRetires(s, t);
    case Removing => RemoveRetires(s, t);
    case Ending => EndRetires(s, t);
  }

  lemma RetiresKeeps(s: State, t: nat, s': State)
    requires AllKept(s) && Retires(s, t, s')
    ensures AllKept(s')
  {
    hide HasVictim;
    forall r | IsRef(s'.nodes, r) ensures Kept(s', r) {
      if r < |s.nodes| && s'.nodes[r].marked {
        assert Kept(s, r);
        if s.nodes[r].marked && r !in s.retired {
          var u :| 0 <= u < |s.threads| && Erases(s.threads[u], r);
          assert u != t ==> Erases(s'.threads[u], r);
        }
      }
    }
  }

  lemma InvokeKeeps(s: State, t: nat, op: Op, key: int, top: nat)
    requires AllKept(s) && MayInvoke(s, t, top)
    ensures AllKept(Invoke(s, t, op, key, top))
  {
    RetiresKeeps(s, t, Invoke(s, t, op, key, top));
  }

  lemma {:induction false} RunKept(run: seq<State>, i: nat)
    requires Run(run) && i < |run|
    ensures AllKept(run[i])
  {
    hide AllKept, Step, Invoke, Init, Enabled;
    if i == 0 {
      InitKept(run[0]);
    } else {
      RunKept(run, i - 1);
      assert StepAt(run, i - 1);
      var s, s' := run[i - 1], run[i];
      if t: nat, op, key, top: nat :| MayInvoke(s, t, top) && s' == Invoke(s, t, op, key, top) {
        InvokeKeeps(s, t, op, key, top);
      } else {
        var t: nat :| Enabled(s, t) && s' == Step(s, t);
        StepRetires(s, t);
        RetiresKeeps(s, t, s');
      }
    }
  }

  lemma InitKept(s: State)
    requires Init(s)
    ensures AllKept(s)
  {
    forall r | IsRef(s.nodes, r) ensures Kept(s, r) {
      assert !SENTINELS[r].marked;
    }
  }

  /** In every state of every run a marked node has been retired, or the erase that marked it is still splicing it or
      about to retire it. */
  lemma ErasedIsRetired(run: seq<State>, i: nat, r: int)
    requires Run(run) && i < |run| && IsRef(run[i].nodes, r) && run[i].nodes[r].marked
    ensures r in run[i].retired || exists t :: 0 <= t < |run[i].threads| && Erases(run[i].threads[t], r)
  {
    RunKept(run, i);
    assert Kept(run[i], r);
  }
}

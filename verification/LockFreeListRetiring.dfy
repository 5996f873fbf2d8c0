/** The Harris-Michael list loses no node: what is unlinked is retired. */
module LockFreeListRetiring {
  import opened SetHistory
  import opened LockFreeList
  import opened LockFreeListProof
  import T = LockFreeListTheorems

  /** A node that hangs on the list no more was retired, or the thread that unlinked it is about to retire it. */
  ghost predicate Kept(s: State, r: int)
    requires 0 <= r < |s.nodes|
  {
    s.nodes[r].linked || r in s.retired || exists t :: 0 <= t < |s.threads| && HoldsVictim(s, t, r)
  }

  predicate HoldsVictim(s: State, t: int, r: int)
    requires 0 <= t < |s.threads|
  {
    s.threads[t].victim == r && s.threads[t].pc in {Reclaim, ReclaimVictim}
  }

  ghost predicate AllKept(s: State) {
    forall r {:trigger s.nodes[r]} :: 0 <= r < |s.nodes| ==> Kept(s, r)
  }

  /** What a step of `t` does to the list, to what is retired and to what its thread holds. */
  predicate Retires(s: State, t: nat, s': State) {
    && t < |s.threads| == |s'.threads| && s'.threads == s.threads[t := s'.threads[t]] && |s.nodes| <= |s'.nodes| && s.retired <= s'.retired
    && (forall r {:trigger s'.nodes[r]} :: 0 <= r < |s.nodes| && s.nodes[r].linked && !s'.nodes[r].linked ==> HoldsVictim(s', t, r))
    && (forall r {:trigger s'.nodes[r]} :: |s.nodes| <= r < |s'.nodes| ==> s'.nodes[r].linked)
    && (s.threads[t].pc in {Reclaim, ReclaimVictim} ==> s.threads[t].victim in s'.retired)
  }

  lemma StepRetires(s: State, t: nat)
    requires Runnable(s, t)
    ensures Retires(s, t, Advance(s, t))
  {
  }

  lemma RetiresKeeps(s: State, t: nat, s': State)
    requires AllKept(s) && Retires(s, t, s')
    ensures AllKept(s')
  {
    forall r | 0 <= r < |s'.nodes| ensures Kept(s', r) {
      if r < |s.nodes| && !s'.nodes[r].linked {
        assert Kept(s, r);
        if !s.nodes[r].linked && r !in s.retired {
          var u :| 0 <= u < |s.threads| && HoldsVictim(s, u, r);
          assert u != t ==> HoldsVictim(s', u, r);
        } else if s.nodes[r].linked {
          assert HoldsVictim(s', t, r);
        }
      }
    }
  }

  lemma InvokeKeeps(s: State, t: nat, op: Op, key: int)
    requires AllKept(s) && t < |s.threads| && s.threads[t].pc == Idle
    ensures AllKept(Invoke(s, t, op, key))
  {
    RetiresKeeps(s, t, Invoke(s, t, op, key));
  }

  lemma {:induction false} RunKept(run: seq<State>, i: nat)
    requires T.Run(run) && i < |run|
    ensures AllKept(run[i])
  {
    hide AllKept, Advance, Invoke, Init, Runnable;
    if i == 0 {
      InitKept(run[0]);
    } else {
      RunKept(run, i - 1);
      assert T.StepAt(run, i - 1);
      var s, s' := run[i - 1], run[i];
      if t: nat, op, key :| t < |s.threads| && s.threads[t].pc == Idle && s' == Invoke(s, t, op, key) {
        InvokeKeeps(s, t, op, key);
      } else {
        var t: nat :| Runnable(s, t) && s' == Advance(s, t);
        StepRetires(s, t);
        RetiresKeeps(s, t, s');
      }
    }
  }

  lemma InitKept(s: State)
    requires Init(s)
    ensures AllKept(s)
  {
    assert |s.nodes| == 1 && s.nodes[0].linked;
  }

  /** In every state of every run a node that was unlinked has been retired, or the thread that unlinked it is inside
      its operation and about to retire it. */
  lemma UnlinkedIsRetired(run: seq<State>, i: nat, r: int)
    requires T.Run(run) && i < |run| && 0 <= r < |run[i].nodes| && !run[i].nodes[r].linked
    ensures r in run[i].retired || exists t :: 0 <= t < |run[i].threads| && HoldsVictim(run[i], t, r)
  {
    RunKept(run, i);
    assert Kept(run[i], r);
  }
}

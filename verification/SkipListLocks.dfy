/** The locks of the lazy skip list: who holds what and in which order, and that waits form no cycle. */
module SkipListLocks {
  import opened SetHistory
  import opened SkipList
  import opened SkipListHeap
  import opened SkipListProof
  import opened SkipListSteps
  import opened SkipListAdding
  import opened SkipListRemoving
  import opened SkipListTheorems

  /** Insert holds the predecessors of the levels below this one, or up to it, or of all its levels. */
  function HeldLevels(th: Thread): int {
    if th.pc == Lock then th.level
    else if th.pc in {CheckPred, CheckSucc, CheckNext, Unlock} then th.level + 1
    else if th.pc in {Link, Publish} then th.top + 1
    else 0
  }

  /** The locks thread `th` holds, told by where it is in the code. */
  predicate Holds(th: Thread, r: int) {
    || (exists l :: 0 <= l < HeldLevels(th) && l < |th.preds| && th.preds[l] == r)
    || (th.pc in {Recheck, Mark, UnlockVictim} && r == th.found)
    || (th.pc in {SpliceMark, SpliceNext, SpliceLoad, SpliceStore, SpliceUnlock} && r == th.pred)
  }

  /** A lock is held only by a thread that the code has holding it. */
  ghost predicate LocksOk(s: State) {
    forall r {:trigger s.nodes[r]} :: IsRef(s.nodes, r) && s.nodes[r].lock != FREE ==>
      0 <= s.nodes[r].lock < |s.threads| && Holds(s.threads[s.nodes[r].lock], r)
  }

  // ---------------------------------------------------------------- every step keeps it

  /** The step of `t` to `th` touches no lock but that of `q`, which it leaves with `holder`. */
  ghost predicate Moves(s: State, s': State, t: nat, th: Thread, q: int, holder: int) {
    && t < |s.threads| && s'.threads == s.threads[t := th] && |s.nodes| <= |s'.nodes|
    && (forall r {:trigger s'.nodes[r]} :: IsRef(s.nodes, r) ==> s'.nodes[r].lock == if r == q then holder else s.nodes[r].lock)
    && (forall r {:trigger s'.nodes[r]} :: |s.nodes| <= r < |s'.nodes| ==> s'.nodes[r].lock == FREE)
  }

  lemma MovesKeep(s: State, s': State, t: nat, th: Thread, q: int, holder: int)
    requires LocksOk(s) && Moves(s, s', t, th, q, holder)
    requires holder == FREE || (holder == t && Holds(th, q))
    requires forall r :: Holds(s.threads[t], r) && r != q ==> Holds(th, r)
    ensures LocksOk(s')
  {
    hide Holds;
    forall r | IsRef(s'.nodes, r) && s'.nodes[r].lock != FREE
      ensures 0 <= s'.nodes[r].lock < |s'.threads| && Holds(s'.threads[s'.nodes[r].lock], r)
    {
      assert r != q ==> s'.nodes[r].lock == s.nodes[r].lock;
    }
  }

  predicate HoldsOne(pc: PC) {
    pc in {Recheck, Mark, UnlockVictim, SpliceMark, SpliceNext, SpliceLoad, SpliceStore, SpliceUnlock}
  }

  lemma HoldsIs(th: Thread)
    ensures PhaseOf(th.pc) != Adding && !HoldsOne(th.pc) ==> forall r :: !Holds(th, r)
    ensures th.pc in {Recheck, Mark, UnlockVictim} ==> forall r :: Holds(th, r) <==> r == th.found
    ensures th.pc in {SpliceMark, SpliceNext, SpliceLoad, SpliceStore, SpliceUnlock} ==> forall r :: Holds(th, r) <==> r == th.pred
  {
  }

  lemma FindLocks(s: State, t: nat)
    requires LocksOk(s) && Enabled(s, t) && PhaseOf(s.threads[t].pc) == Finding
    ensures LocksOk(Step(s, t))
  {
    var th' := FindMove(s.nodes, s.threads[t], Now(s));
    HoldsIs(s.threads[t]);
    hide FindMove, Holds, LocksOk;
    MovesKeep(s, Step(s, t), t, th', NONE, FREE);
  }

  lemma LookLocks(s: State, t: nat)
    requires LocksOk(s) && Enabled(s, t) && PhaseOf(s.threads[t].pc) == Looking
    ensures LocksOk(Step(s, t))
  {
    LookStepIs(s, t);
    var th, ns := s.threads[t], s.nodes;
    var s' := Step(s, t);
    var th' := s'.threads[t];
    HoldsIs(th);
    HoldsIs(th');
    assert th.pc in {Recheck, Mark} ==> th'.pc in {Recheck, Mark, UnlockVictim} && th'.found == th.found;
    hide LookMove, Holds, LocksOk, Step, Enabled, MayLook;
    MovesKeep(s, s', t, th', if th.pc == LockVictim then th.found else NONE, if th.pc == LockVictim then t else FREE);
  }

  lemma RemoveLocks(s: State, t: nat)
    requires LocksOk(s) && Enabled(s, t) && PhaseOf(s.threads[t].pc) == Removing
    ensures LocksOk(Step(s, t))
  {
    RemoveStepIs(s, t);
    var th, ns := s.threads[t], s.nodes;
    var s' := Step(s, t);
    var th' := s'.threads[t];
    HoldsIs(th);
    HoldsIs(th');
    assert HoldsOne(th.pc) ==> HoldsOne(th'.pc) && PhaseOf(th'.pc) != Looking && th'.pc != UnlockVictim && th'.pred == th.pred;
    hide SpliceMove, Holds, LocksOk, Step, Enabled, MayRemove;
    MovesKeep(s, s', t, th', if th.pc == SpliceLock then th.pred else NONE, if th.pc == SpliceLock then t else FREE);
  }

  lemma EndLocks(s: State, t: nat)
    requires LocksOk(s) && Enabled(s, t) && PhaseOf(s.threads[t].pc) == Ending
    ensures LocksOk(Step(s, t))
  {
    var th, ns := s.threads[t], s.nodes;
    var s' := Step(s, t);
    var q := if th.pc == UnlockVictim then th.found else if th.pc == SpliceUnlock then th.pred else NONE;
    HoldsIs(th);
    assert Moves(s, s', t, s'.threads[t], q, FREE);
    hide Holds, LocksOk, Step, Enabled, Moves;
    MovesKeep(s, s', t, s'.threads[t], q, FREE);
  }

  /** Taking the lock of the next predecessor, or finding it held for the level below. */
  lemma LockLocks(s: State, t: nat)
    requires LocksOk(s) && Enabled(s, t) && s.threads[t].pc == Lock
    ensures LocksOk(Step(s, t))
  {
    var th, ns := s.threads[t], s.nodes;
    var th', s', p := th.(pc := CheckPred), Step(s, t), th.preds[th.level];
    forall r | Holds(th, r) ensures Holds(th', r) {
      var l :| 0 <= l < HeldLevels(th) && l < |th.preds| && th.preds[l] == r;
      assert 0 <= l < HeldLevels(th') && th'.preds[l] == r;
    }
    assert Holds(th', p) by { assert 0 <= th.level < HeldLevels(th'); }
    var q := if Leads(th) then p else NONE;
    assert Moves(s, s', t, th', q, if Leads(th) then t else FREE);
    hide Holds, LocksOk, Step, Enabled, Moves;
    MovesKeep(s, s', t, th', q, if Leads(th) then t else FREE);
  }

  lemma HoldsMore(th: Thread, th': Thread)
    requires th'.preds == th.preds && HeldLevels(th) <= HeldLevels(th') && !HoldsOne(th.pc)
    ensures forall r :: Holds(th, r) ==> Holds(th', r)
  {
    forall r | Holds(th, r) ensures Holds(th', r) {
      var l :| 0 <= l < HeldLevels(th) && l < |th.preds| && th.preds[l] == r;
      assert 0 <= l < HeldLevels(th') && th'.preds[l] == r;
    }
  }

  /** Validating and linking takes and frees no lock. */
  lemma AddMoves(s: State, t: nat)
    requires Enabled(s, t) && s.threads[t].pc in {CheckPred, CheckSucc, CheckNext, Link, Publish}
    ensures var s' := Step(s, t); Moves(s, s', t, s'.threads[t], NONE, FREE)
    ensures var th, th' := s.threads[t], Step(s, t).threads[t]; th'.preds == th.preds && HeldLevels(th) <= HeldLevels(th')
  {
  }

  lemma AddLocks(s: State, t: nat)
    requires LocksOk(s) && Enabled(s, t) && s.threads[t].pc in {CheckPred, CheckSucc, CheckNext, Link, Publish}
    ensures LocksOk(Step(s, t))
  {
    AddMoves(s, t);
    hide Step, Enabled, Moves, LocksOk;
    HoldsMore(s.threads[t], Step(s, t).threads[t]);
    MovesKeep(s, Step(s, t), t, Step(s, t).threads[t], NONE, FREE);
  }

  /** Unlocking frees the leader of a run of equal predecessors, which no lower level holds. */
  lemma UnlockLocks(s: State, t: nat)
    requires LocksOk(s) && Enabled(s, t) && s.threads[t].pc == Unlock
    ensures LocksOk(Step(s, t))
  {
    var th, ns := s.threads[t], s.nodes;
    var th', s', p := UnlockMove(th), Step(s, t), th.preds[th.level];
    var q := if Leads(th) then p else NONE;
    forall r | Holds(th, r) && r != q ensures Holds(th', r) {
      var l :| 0 <= l <= th.level && l < |th.preds| && th.preds[l] == r;
      var m := if l == th.level then l - 1 else l;
      assert 0 <= m < HeldLevels(th') && th'.preds[m] == r;
    }
    assert Moves(s, s', t, th', q, FREE);
    hide Holds, LocksOk, Step, Enabled, Moves;
    MovesKeep(s, s', t, th', q, FREE);
  }

  lemma StepLocks(s: State, t: nat)
    requires LocksOk(s) && Enabled(s, t)
    ensures LocksOk(Step(s, t))
  {
    var pc := s.threads[t].pc;
    hide Step, LocksOk;
    match PhaseOf(pc)
    case Finding => FindLocks(s, t);
    case Looking => LookLocks(s, t);
    case Adding => if pc == Unlock { UnlockLocks(s, t); } else if pc == Lock { LockLocks(s, t); } else { AddLocks(s, t); }
    case Removing => RemoveLocks(s, t);
    case Ending => EndLocks(s, t);
  }

  lemma InvokeLocks(s: State, t: nat, op: Op, key: int, top: nat)
    requires LocksOk(s) && MayInvoke(s, t, top)
    ensures LocksOk(Invoke(s, t, op, key, top))
  {
    var s' := Invoke(s, t, op, key, top);
    HoldsIs(s.threads[t]);
    hide Holds, LocksOk;
    MovesKeep(s, s', t, s'.threads[t], NONE, FREE);
  }

  lemma {:induction false} RunLocks(run: seq<State>, i: nat)
    requires Run(run) && i < |run|
    ensures Inv(run[i]) && LocksOk(run[i])
  {
    hide Inv, Enabled, Step;
    RunKeeps(run, i);
    if i == 0 {
      assert forall r :: IsRef(run[0].nodes, r) ==> run[0].nodes[r].lock == FREE;
    } else {
      RunLocks(run, i - 1);
      assert StepAt(run, i - 1);
      var s, s' := run[i - 1], run[i];
      if t: nat, op, key, top: nat :| MayInvoke(s, t, top) && s' == Invoke(s, t, op, key, top) {
        InvokeLocks(s, t, op, key, top);
      } else {
        var t: nat :| Enabled(s, t) && s' == Step(s, t);
        StepLocks(s, t);
      }
    }
  }

  // ---------------------------------------------------------------- who holds what

  lemma HeldByLevel(ns: seq<Node>, effects: seq<Effect>, t: nat, th: Thread, l: int)
    requires ThreadOk(ns, effects, t, th) && 0 <= l < HeldLevels(th) && l < |th.preds|
    ensures HeldAt(ns, t, th, l)
  {
    if th.pc == Lock {
      assert Secured(ns, t, th, l);
    } else if th.pc in {CheckPred, CheckSucc, CheckNext} {
      if l < th.level { assert Secured(ns, t, th, l); }
    }
  }

  lemma HeldIsLocked(ns: seq<Node>, effects: seq<Effect>, t: nat, th: Thread, r: int)
    requires HeapOk(ns, |effects|) && ThreadOk(ns, effects, t, th) && Holds(th, r)
    ensures IsRef(ns, r) && ns[r].lock == t
  {
    if l :| 0 <= l < HeldLevels(th) && l < |th.preds| && th.preds[l] == r {
      hide ThreadOk, HeapOk;
      HeldByLevel(ns, effects, t, th, l);
    }
  }

  /** Every state of every run: a node's lock is held by exactly the thread that the code has holding
      it. So insert's predecessors are locked once each, every early exit frees exactly what was
      locked, and a thread outside its critical parts holds nothing. */
  lemma LocksHeld(run: seq<State>, i: nat, t: nat, r: int)
    requires Run(run) && i < |run| && t < |run[i].threads|
    ensures Holds(run[i].threads[t], r) <==> IsRef(run[i].nodes, r) && run[i].nodes[r].lock == t
    ensures run[i].threads[t].pc in {Idle, Descend, Scan, SawNode, Wait, SpliceStart, SpliceScan, Retire, Return} ==>
              !Holds(run[i].threads[t], r)
  {
    hide Run, Holds;
    RunLocks(run, i);
    InvThread(run[i], t);
    HoldsIs(run[i].threads[t]);
    if Holds(run[i].threads[t], r) {
      HeldIsLocked(run[i].nodes, run[i].effects, t, run[i].threads[t], r);
    }
  }

  // ---------------------------------------------------------------- the order of locks

  /** The node whose lock a thread is about to take. */
  function Awaited(th: Thread): int {
    if th.pc == Lock && 0 <= th.level < |th.preds| && Leads(th) then th.preds[th.level]
    else if th.pc == LockVictim then th.found
    else if th.pc == SpliceLock then th.pred
    else NONE
  }

  /** A thread asks for locks in strictly decreasing position, so never for one it holds. */
  lemma LocksDescend(ns: seq<Node>, effects: seq<Effect>, t: nat, th: Thread, r: int)
    requires HeapOk(ns, |effects|) && ThreadOk(ns, effects, t, th) && Awaited(th) != NONE && Holds(th, r)
    ensures IsRef(ns, Awaited(th)) && IsRef(ns, r) && Lt(ns, Awaited(th), r)
  {
    HoldsIs(th);
    var l :| 0 <= l < HeldLevels(th) && l < |th.preds| && th.preds[l] == r;
    hide HeapOk;
    assert Slots(ns, th, 0) && th.level <= MAX_LEVEL;
    LeaderIsNew(ns, th, l);
  }

  /** Thread `t` waits for a lock that `u` holds. */
  predicate Blocked(s: State, t: int, u: int) {
    && 0 <= t < |s.threads| && 0 <= u < |s.threads|
    && IsRef(s.nodes, Awaited(s.threads[t])) && s.nodes[Awaited(s.threads[t])].lock == u
  }

  ghost predicate WaitPath(s: State, c: seq<int>) {
    forall a :: 0 <= a < |c| - 1 ==> Blocked(s, c[a], c[a + 1])
  }

  lemma BlockedDescends(s: State, t: int, u: int, v: int)
    requires Inv(s) && LocksOk(s) && Blocked(s, t, u) && Blocked(s, u, v)
    ensures Lt(s.nodes, Awaited(s.threads[u]), Awaited(s.threads[t]))
  {
    InvThread(s, u);
    hide Inv, HeapOk, ThreadOk, Holds, Awaited;
    assert Holds(s.threads[u], Awaited(s.threads[t]));
    LocksDescend(s.nodes, s.effects, u, s.threads[u], Awaited(s.threads[t]));
  }

  lemma {:induction false} PathDescends(s: State, c: seq<int>, b: nat)
    requires Inv(s) && LocksOk(s) && WaitPath(s, c) && 0 < b < |c| - 1
    ensures Blocked(s, c[0], c[1]) && Blocked(s, c[b], c[b + 1])
    ensures Lt(s.nodes, Awaited(s.threads[c[b]]), Awaited(s.threads[c[0]]))
  {
    hide Inv, LocksOk, Blocked;
    assert Blocked(s, c[0], c[1]) && Blocked(s, c[b - 1], c[b]) && Blocked(s, c[b], c[b + 1]);
    BlockedDescends(s, c[b - 1], c[b], c[b + 1]);
    if b > 1 {
      PathDescends(s, c, b - 1);
      BlockedRefs(s, c[b - 1], c[b]);
      BlockedRefs(s, c[b], c[b + 1]);
      BlockedRefs(s, c[0], c[1]);
      LtTrans(s.nodes, Awaited(s.threads[c[b]]), Awaited(s.threads[c[b - 1]]), Awaited(s.threads[c[0]]));
    }
  }

  lemma BlockedRefs(s: State, t: int, u: int)
    requires Blocked(s, t, u)
    ensures 0 <= t < |s.threads| && IsRef(s.nodes, Awaited(s.threads[t]))
  {
  }

  /** The wait-for graph has no cycle: in no state of any run does a chain of threads, each waiting
      for a lock of the next, come back to its start. */
  lemma WaitsAcyclic(run: seq<State>, i: nat, c: seq<int>)
    requires Run(run) && i < |run| && WaitPath(run[i], c) && |c| >= 2
    ensures c[0] != c[|c| - 1]
  {
    hide Run, Inv, LocksOk;
    RunLocks(run, i);
    if c[0] == c[|c| - 1] {
      var d := c + [c[1]];
      assert Blocked(run[i], c[0], c[1]);
      forall a | 0 <= a < |d| - 1 ensures Blocked(run[i], d[a], d[a + 1]) {
        assert a < |c| - 1 ==> Blocked(run[i], c[a], c[a + 1]);
      }
      PathDescends(run[i], d, |c| - 1);
    }
  }

  // ---------------------------------------------------------------- somebody can always go on

  lemma LevelOf(ns: seq<Node>, now: int, r: int, l: int, i: int)
    requires HeapOk(ns, now) && Seen(ns, r, l, i)
    ensures HasLevel(ns, r, l)
  {
    assert NodeOk(ns[r], now);
  }

  lemma FindReady(ns: seq<Node>, effects: seq<Effect>, th: Thread)
    requires HeapOk(ns, |effects|) && FindingOk(ns, effects, th) && PhaseOf(th.pc) == Finding && th.pc != Idle
    ensures MayFind(ns, th)
  {
    LevelOf(ns, |effects|, th.pred, th.level, th.start);
    if th.pc == Scan {
      LevelOf(ns, |effects|, th.curr, th.level, th.start);
    }
  }

  /** Thread `th` waits for a lock that is taken. */
  predicate Waits(ns: seq<Node>, th: Thread) {
    Awaited(th) != NONE && IsRef(ns, Awaited(th)) && ns[Awaited(th)].lock != FREE
  }

  lemma AddReady(ns: seq<Node>, effects: seq<Effect>, t: nat, th: Thread)
    requires HeapOk(ns, |effects|) && AddingOk(ns, effects, t, th) && PhaseOf(th.pc) == Adding
    ensures MayAdd(ns, th) || Waits(ns, th)
  {
    assert Slots(ns, th, 0) && th.level <= MAX_LEVEL && SlotOk(ns, th, th.level);
    hide Slots;
    LevelOf(ns, |effects|, th.preds[th.level], th.level, th.start);
    if th.pc == Link && th.level > 0 {
      LevelOf(ns, |effects|, th.own, th.level - 1, 0);
      assert NodeOk(ns[th.own], |effects|);
    }
  }

  lemma LookReady(ns: seq<Node>, effects: seq<Effect>, t: nat, th: Thread)
    requires HeapOk(ns, |effects|) && LookingOk(ns, effects, t, th) && PhaseOf(th.pc) == Looking
    ensures MayLook(ns, th) || Waits(ns, th)
  {
    LevelOf(ns, |effects|, th.found, 0, th.start);
  }

  lemma RemoveReady(ns: seq<Node>, effects: seq<Effect>, t: nat, th: Thread)
    requires HeapOk(ns, |effects|) && RemovingOk(ns, effects, t, th) && PhaseOf(th.pc) == Removing
    ensures MayRemove(ns, th) || Waits(ns, th)
  {
    assert NodeOk(ns[HEAD], |effects|) && NodeOk(ns[th.found], |effects|);
    assert th.level <= ns[th.found].top;
    if th.pc != SpliceStart {
      LevelOf(ns, |effects|, th.pred, th.level, ns[th.found].died);
    }
    if th.pc == SpliceScan {
      LevelOf(ns, |effects|, th.curr, th.level, ns[th.found].died);
    }
  }

  lemma ThreadReady(ns: seq<Node>, effects: seq<Effect>, t: nat, th: Thread)
    requires HeapOk(ns, |effects|) && ThreadOk(ns, effects, t, th) && th.pc != Idle
    ensures Waits(ns, th) || match PhaseOf(th.pc)
            case Finding => MayFind(ns, th)
            case Looking => MayLook(ns, th)
            case Adding => MayAdd(ns, th)
            case Removing => MayRemove(ns, th)
            case Ending => MayEnd(ns, th)
  {
    hide HeapOk, FindingOk, LookingOk, AddingOk, RemovingOk, MayFind, MayLook, MayAdd, MayRemove, Awaited;
    match PhaseOf(th.pc)
    case Finding => FindReady(ns, effects, th);
    case Looking => LookReady(ns, effects, t, th);
    case Adding => AddReady(ns, effects, t, th);
    case Removing => RemoveReady(ns, effects, t, th);
    case Ending =>
  }

  /** The thread whose lock `t` waits for. */
  function Holder(s: State, t: int): int
    requires 0 <= t < |s.threads|
  {
    var r := Awaited(s.threads[t]);
    if IsRef(s.nodes, r) then s.nodes[r].lock else FREE
  }

  /** A thread inside an operation can take its next step unless it waits for a lock: it never
      dereferences null or an entry above a node's top level. */
  lemma ReadyOrBlocked(s: State, t: nat)
    requires Inv(s) && LocksOk(s) && t < |s.threads| && s.threads[t].pc != Idle
    ensures Enabled(s, t) || Blocked(s, t, Holder(s, t))
  {
    InvThread(s, t);
    hide Inv, HeapOk, ThreadOk, MayFind, MayLook, MayAdd, MayRemove, MayEnd, Awaited, Holds;
    ThreadReady(s.nodes, s.effects, t, s.threads[t]);
  }

  /** The nodes before `r`. */
  function Before(ns: seq<Node>, r: int): set<int>
    requires IsRef(ns, r)
  {
    set v | 0 <= v < |ns| && Lt(ns, v, r)
  }

  /** Behind a thread that waits for a lock there is one that holds a lock and can take its next step. */
  lemma {:induction false} HolderGoesOn(s: State, t: int, u: int) returns (v: nat, held: int)
    requires Inv(s) && LocksOk(s) && Blocked(s, t, u)
    ensures Enabled(s, v) && Holds(s.threads[v], held)
    decreases Before(s.nodes, Awaited(s.threads[t]))
  {
    var r := Awaited(s.threads[t]);
    assert Holds(s.threads[u], r);
    HoldsIs(s.threads[u]);
    ReadyOrBlocked(s, u);
    hide Inv, LocksOk, Holds, Enabled;
    if Enabled(s, u) {
      v, held := u, r;
    } else {
      var w := Holder(s, u);
      BlockedDescends(s, t, u, w);
      assert Awaited(s.threads[u]) in Before(s.nodes, r);
      v, held := HolderGoesOn(s, u, w);
    }
  }
}

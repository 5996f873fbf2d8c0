/** The steps of an insert between its search and its return. */
module SkipListAdding {
  import opened SetHistory
  import opened Lifetimes
  import opened SkipList
  import opened SkipListHeap
  import opened SkipListProof
  import opened SkipListSteps

  lemma SlotsWithLock(ns: seq<Node>, th: Thread, th': Thread, r: int, holder: int, from: int)
    requires Slots(ns, th, from) && IsRef(ns, r)
    requires th'.preds == th.preds && th'.succs == th.succs && th'.start == th.start && th'.key == th.key
    ensures Slots(WithLock(ns, r, holder), th', from)
  {
    var ns' := WithLock(ns, r, holder);
    forall l | from <= l <= MAX_LEVEL ensures SlotOk(ns', th', l) {
      assert SlotOk(ns, th, l);
    }
    forall l, m | from <= l < m <= MAX_LEVEL ensures Upto(ns', th'.preds[m], th'.preds[l]) {
      assert Upto(ns, th.preds[m], th.preds[l]);
    }
  }

  lemma InsertingMoves(ns: seq<Node>, th: Thread, th': Thread)
    requires Inserting(ns, th) && th'.preds == th.preds && th'.succs == th.succs && th'.start == th.start && th'.key == th.key
    requires th'.op == th.op && th'.top == th.top && 0 <= th'.level <= th.top
    ensures Inserting(ns, th')
  {
    SlotsSame(ns, th, th', 0);
    assert SlotOk(ns, th, 0);
    assert SlotOk(ns, th', 0);
  }

  lemma InsertingWithLock(ns: seq<Node>, th: Thread, th': Thread, r: int, holder: int)
    requires Inserting(ns, th) && th'.preds == th.preds && th'.succs == th.succs && th'.start == th.start && th'.key == th.key
    requires th'.op == th.op && th'.top == th.top && 0 <= th'.level <= th.top && IsRef(ns, r)
    ensures Inserting(WithLock(ns, r, holder), th')
  {
    SlotsWithLock(ns, th, th', r, holder, 0);
    assert SlotOk(ns, th, 0);
    assert SlotOk(WithLock(ns, r, holder), th', 0);
  }

  // ---------------------------------------------------------------- locking

  lemma LockedThread(ns: seq<Node>, t: nat, th: Thread)
    requires Validating(ns, t, th) && IsRef(ns, th.preds[th.level])
    ensures var ns', th' := WithLock(ns, th.preds[th.level], t), th.(pc := CheckPred);
      Validating(ns', t, th') && HeldAt(ns', t, th', th.level)
  {
    var ns', th' := WithLock(ns, th.preds[th.level], t), th.(pc := CheckPred);
    InsertingWithLock(ns, th, th', th.preds[th.level], t);
    forall l | 0 <= l < th.level ensures Secured(ns', t, th', l) {
      assert Secured(ns, t, th, l);
    }
  }

  lemma SharedThread(ns: seq<Node>, t: nat, th: Thread)
    requires Validating(ns, t, th) && !Leads(th)
    ensures Validating(ns, t, th.(pc := CheckPred)) && HeldAt(ns, t, th.(pc := CheckPred), th.level)
  {
    var th' := th.(pc := CheckPred);
    InsertingMoves(ns, th, th');
    forall l | 0 <= l < th.level ensures Secured(ns, t, th', l) {
      assert Secured(ns, t, th, l);
    }
    assert Secured(ns, t, th, th.level - 1);
  }

  lemma AcquireKeeps(s: State, t: nat)
    requires Inv(s) && Enabled(s, t) && s.threads[t].pc == Lock
    ensures Inv(Step(s, t)) && Evolves(s.nodes, Step(s, t).nodes, Now(s), t)
  {
    InvThread(s, t);
    hide Inv, HeapOk, Evolves, EffectOk, FindingOk, LookingOk, RemovingOk, EndingOk, Validating;
    var th, ns := s.threads[t], s.nodes;
    if Leads(th) {
      LockedThread(ns, t, th);
      LockKeeps(s, t, th.(pc := CheckPred), th.preds[th.level], t);
    } else {
      SharedThread(ns, t, th);
      LocalKeeps(s, t, th.(pc := CheckPred));
    }
  }

  // ---------------------------------------------------------------- validating

  lemma FailedCheck(ns: seq<Node>, effects: seq<Effect>, t: nat, th: Thread)
    requires Validating(ns, t, th) && HeldAt(ns, t, th, th.level)
    ensures Leaving(ns, effects, t, th.(pc := Unlock, ok := false))
  {
    var th' := th.(pc := Unlock, ok := false);
    InsertingMoves(ns, th, th');
    forall l | 0 <= l <= th.level ensures HeldAt(ns, t, th', l) {
      if l < th.level { assert Secured(ns, t, th, l); }
    }
  }

  lemma NextCheck(ns: seq<Node>, t: nat, th: Thread, th': Thread)
    requires Validating(ns, t, th) && HeldAt(ns, t, th, th.level)
    requires th' == th.(pc := th'.pc, level := th'.level)
    requires th'.level == th.level || (th'.level == th.level + 1 <= th.top && Secured(ns, t, th, th.level))
    ensures Validating(ns, t, th') && (th'.level == th.level ==> HeldAt(ns, t, th', th'.level))
  {
    InsertingMoves(ns, th, th');
    forall l | 0 <= l < th'.level ensures Secured(ns, t, th', l) {
      assert Secured(ns, t, th, l);
    }
  }

  /** Once every level is validated no successor carries the key: at level 0 there is no room for it. */
  lemma StrictAbove(ns: seq<Node>, now: int, t: nat, th: Thread, l: int)
    requires HeapOk(ns, now) && Inserting(ns, th) && 0 <= l <= th.top
    requires Secured(ns, t, th, 0) && Secured(ns, t, th, l)
    ensures SlotOk(ns, th, l) && Strict(ns, th, l)
  {
    var p, q := th.preds[0], th.preds[l];
    assert SlotOk(ns, th, l) && SlotOk(ns, th, 0);
    UnmarkedIsOn(ns, now, p, 0);
    UnmarkedIsOn(ns, now, q, l);
    assert OnAt(ns[th.succs[l]], l, now);
    OnLower(ns, now, th.succs[l], l, 0, now);
    if th.succs[l] != TAIL && ns[th.succs[l]].key == th.key {
      assert Lt(ns, p, th.succs[l]) && Lt(ns, th.succs[l], th.succs[0]);
      assert false;
    }
  }

  lemma LastCheck(ns: seq<Node>, now: int, t: nat, th: Thread)
    requires HeapOk(ns, now) && Validating(ns, t, th) && th.level == th.top && Secured(ns, t, th, th.level)
    ensures Linking(ns, t, th.(pc := Link, level := 0))
  {
    var th' := th.(pc := Link, level := 0);
    InsertingMoves(ns, th, th');
    assert Secured(ns, t, th, 0);
    forall l | 0 <= l <= th.top ensures HeldAt(ns, t, th', l) && SlotOk(ns, th', l) && UpperOk(ns, t, th', l) {
      assert Secured(ns, t, th, l);
      StrictAbove(ns, now, t, th, l);
    }
  }

  lemma CheckMoveOk(ns: seq<Node>, effects: seq<Effect>, t: nat, th: Thread)
    requires HeapOk(ns, |effects|) && AddingOk(ns, effects, t, th) && MayAdd(ns, th)
    requires th.pc in {CheckPred, CheckSucc, CheckNext}
    ensures AddingOk(ns, effects + [Quiet], t, CheckMove(ns, th))
    ensures PhaseOf(CheckMove(ns, th).pc) == Adding
  {
    var th' := CheckMove(ns, th);
    assert HeldAt(ns, t, th, th.level) && Validating(ns, t, th);
    if th'.pc == Unlock {
      FailedCheck(ns, effects + [Quiet], t, th);
    } else if th'.pc == Link {
      assert Secured(ns, t, th, th.level);
      LastCheck(ns, |effects|, t, th);
    } else {
      assert th'.pc == Lock ==> Secured(ns, t, th, th.level);
      NextCheck(ns, t, th, th');
    }
  }

  lemma CheckStep(s: State, t: nat)
    requires Enabled(s, t) && s.threads[t].pc in {CheckPred, CheckSucc, CheckNext}
    ensures MayAdd(s.nodes, s.threads[t]) && Step(s, t) == Local(s, t, CheckMove(s.nodes, s.threads[t]))
  {
  }

  lemma CheckThread(ns: seq<Node>, effects: seq<Effect>, t: nat, th: Thread)
    requires HeapOk(ns, |effects|) && ThreadOk(ns, effects, t, th) && MayAdd(ns, th)
    requires th.pc in {CheckPred, CheckSucc, CheckNext}
    ensures var th' := CheckMove(ns, th);
      ThreadOk(ns, effects + [Quiet], t, th') && th'.start == th.start && !HasVictim(th')
  {
    hide HeapOk, FindingOk, LookingOk, RemovingOk, EndingOk, AddingOk;
    CheckMoveOk(ns, effects, t, th);
  }

  lemma CheckKeeps(s: State, t: nat)
    requires Inv(s) && Enabled(s, t) && s.threads[t].pc in {CheckPred, CheckSucc, CheckNext}
    ensures Inv(Step(s, t)) && Evolves(s.nodes, Step(s, t).nodes, Now(s), t)
  {
    InvThread(s, t);
    CheckStep(s, t);
    hide Inv, HeapOk, Evolves, EffectOk, ThreadOk, Step, Enabled, MayAdd, CheckMove;
    CheckThread(s.nodes, s.effects, t, s.threads[t]);
    LocalKeeps(s, t, CheckMove(s.nodes, s.threads[t]));
  }

  // ---------------------------------------------------------------- linking

  lemma LinkReady(ns: seq<Node>, t: nat, th: Thread)
    requires Linking(ns, t, th)
    ensures SlotOk(ns, th, th.level)
    ensures MayLink(ns, th.preds[th.level], th.succs[th.level], th.key, th.level, t)
    ensures 0 < th.level ==>
      && OwnOk(ns, t, th) && Ins(ns[th.own], th.level) < 0 && 0 <= Ins(ns[th.own], th.level - 1)
      && Nxt(ns[th.own], th.level) == th.succs[th.level]
  {
    assert SlotOk(ns, th, th.level) && UpperOk(ns, t, th, th.level) && Secured(ns, t, th, th.level);
  }

  lemma LinkHeap(ns: seq<Node>, t: nat, th: Thread, now: nat)
    requires HeapOk(ns, now) && Linking(ns, t, th) && MayAdd(ns, th) && th.pc == Link
    ensures var ns' := LinkNodes(ns, th, t, now);
      HeapOk(ns', now + 1) && Evolves(ns, ns', now, t) && EffectOk(Lives(ns'), Quiet, now)
  {
    LinkReady(ns, t, th);
    if th.level == 0 {
      LinkBottomHeap(ns, th, t, now);
    } else {
      LinkUpperHeap(ns, th, t, now);
    }
  }

  /** What linking level `th.level` does to the new node and leaves of a predecessor. */
  lemma LinkWrites(ns: seq<Node>, t: nat, th: Thread, now: nat)
    requires HeapOk(ns, now) && Linking(ns, t, th) && MayAdd(ns, th) && th.pc == Link
    ensures var ns', own := LinkNodes(ns, th, t, now), LinkMove(ns, th).own;
      && OwnOk(ns', t, LinkMove(ns, th))
      && (forall l {:trigger Ins(ns'[own], l)} :: 0 <= l <= th.top ==> (l <= th.level <==> 0 <= Ins(ns'[own], l)))
      && (forall l {:trigger Nxt(ns'[own], l)} :: th.level < l <= th.top ==> Nxt(ns'[own], l) == th.succs[l])
      && (forall r {:trigger ns'[r]} :: IsRef(ns, r) ==> ns'[r].lock == ns[r].lock && ns'[r].marked == ns[r].marked)
      && (forall r, l {:trigger Nxt(ns'[r], l)} :: IsRef(ns, r) && l != th.level ==> Nxt(ns'[r], l) == Nxt(ns[r], l))
  {
    LinkReady(ns, t, th);
    var ns' := LinkNodes(ns, th, t, now);
    if th.level == 0 {
      NewNodeOk(th, t, now);
    } else {
      assert NodeOk(ns[th.own], now);
      forall l | 0 <= l <= th.top
        ensures Ins(ns'[th.own], l) == if l == th.level then now + 1 else Ins(ns[th.own], l)
        ensures l < th.level ==> 0 <= Ins(ns[th.own], l)
        ensures th.level <= l ==> Ins(ns[th.own], l) < 0 && Nxt(ns[th.own], l) == th.succs[l]
      {
        if th.level <= l {
          assert SlotOk(ns, th, l) && UpperOk(ns, t, th, l);
        }
      }
    }
  }

  lemma LinkedThread(ns: seq<Node>, effects: seq<Effect>, t: nat, th: Thread)
    requires HeapOk(ns, |effects|) && Linking(ns, t, th) && MayAdd(ns, th) && th.pc == Link && th.start <= |effects|
    requires Evolves(ns, LinkNodes(ns, th, t, |effects|), |effects|, t)
    ensures AddingOk(LinkNodes(ns, th, t, |effects|), effects + [Quiet], t, LinkMove(ns, th))
  {
    var now := |effects|;
    var ns', th' := LinkNodes(ns, th, t, now), LinkMove(ns, th);
    LinkWrites(ns, t, th, now);
    InsertingStable(ns, ns', now, t, th);
    InsertingMoves(ns', th, th');
    forall l | 0 <= l <= th.top ensures HeldAt(ns', t, th', l) {
      assert HeldAt(ns, t, th, l);
    }
    if th.level < th.top {
      EvolvesKeys(ns, ns', now, t);
      forall l | th'.level <= l <= th.top ensures SlotOk(ns', th', l) && UpperOk(ns', t, th', l) {
        assert SlotOk(ns, th, l) && UpperOk(ns, t, th, l) && Secured(ns, t, th, l);
        assert Slots(ns', th', 0) && SlotOk(ns', th', l);
      }
    }
  }

  lemma LinkStepOk(ns: seq<Node>, effects: seq<Effect>, t: nat, th: Thread)
    requires HeapOk(ns, |effects|) && ThreadOk(ns, effects, t, th) && th.pc == Link && MayAdd(ns, th)
    ensures var ns' := LinkNodes(ns, th, t, |effects|);
      && HeapOk(ns', |effects| + 1) && Evolves(ns, ns', |effects|, t) && EffectOk(Lives(ns'), Quiet, |effects|)
      && ThreadOk(ns', effects + [Quiet], t, LinkMove(ns, th))
  {
    hide HeapOk, Evolves, EffectOk, FindingOk, LookingOk, RemovingOk, EndingOk, Linking;
    LinkHeap(ns, t, th, |effects|);
    LinkedThread(ns, effects, t, th);
  }

  lemma LinkStep(s: State, t: nat)
    requires Enabled(s, t) && s.threads[t].pc == Link
    ensures MayAdd(s.nodes, s.threads[t])
    ensures Step(s, t) == Go(s, t, LinkMove(s.nodes, s.threads[t]), LinkNodes(s.nodes, s.threads[t], t, Now(s)), Quiet)
    ensures var th := LinkMove(s.nodes, s.threads[t]); th.start == s.threads[t].start && !HasVictim(th)
  {
  }

  lemma LinkKeeps(s: State, t: nat)
    requires Inv(s) && Enabled(s, t) && s.threads[t].pc == Link
    ensures Inv(Step(s, t)) && Evolves(s.nodes, Step(s, t).nodes, Now(s), t)
  {
    InvThread(s, t);
    LinkStep(s, t);
    var th, ns := s.threads[t], s.nodes;
    hide Inv, HeapOk, Evolves, EffectOk, ThreadOk, LinkNodes, LinkMove, Step, Enabled;
    LinkStepOk(ns, s.effects, t, th);
    StepKeeps(s, t, LinkMove(ns, th), LinkNodes(ns, th, t, Now(s)), Quiet);
  }

  // ---------------------------------------------------------------- publishing

  lemma PublishThread(ns: seq<Node>, effects: seq<Effect>, t: nat, th: Thread)
    requires HeapOk(ns, |effects|) && Publishing(ns, t, th) && th.start <= |effects|
    requires Evolves(ns, PublishNodes(ns, th.own, |effects|), |effects|, t)
    ensures Leaving(PublishNodes(ns, th.own, |effects|), effects + [Added(t, th.key)], t,
                    th.(pc := Unlock, ok := true, level := th.top, result := true, point := |effects|))
  {
    var now := |effects|;
    var ns', th' := PublishNodes(ns, th.own, now), th.(pc := Unlock, ok := true, level := th.top, result := true, point := now);
    InsertingStable(ns, ns', now, t, th);
    InsertingMoves(ns', th, th');
    forall l | 0 <= l <= th.top ensures HeldAt(ns', t, th', l) {
      assert HeldAt(ns, t, th, l);
    }
  }

  lemma PublishOk(ns: seq<Node>, effects: seq<Effect>, t: nat, th: Thread)
    requires HeapOk(ns, |effects|) && ThreadOk(ns, effects, t, th) && th.pc == Publish && IsRef(ns, th.own)
    ensures var ns' := PublishNodes(ns, th.own, |effects|);
      && HeapOk(ns', |effects| + 1) && Evolves(ns, ns', |effects|, t) && EffectOk(Lives(ns'), Added(t, th.key), |effects|)
      && ThreadOk(ns', effects + [Added(t, th.key)], t,
                  th.(pc := Unlock, ok := true, level := th.top, result := true, point := |effects|))
  {
    hide HeapOk, Evolves, EffectOk, FindingOk, LookingOk, RemovingOk, EndingOk, Leaving, Publishing;
    OwnLevels(ns, |effects|, t, th);
    PublishHeap(ns, th.own, t, |effects|);
    PublishThread(ns, effects, t, th);
  }

  lemma PublishStepIs(s: State, t: nat)
    requires Enabled(s, t) && s.threads[t].pc == Publish
    ensures var th, now := s.threads[t], Now(s);
      && MayAdd(s.nodes, th) && IsRef(s.nodes, th.own)
      && Step(s, t) == Go(s, t, th.(pc := Unlock, ok := true, level := th.top, result := true, point := now),
                          PublishNodes(s.nodes, th.own, now), Added(t, th.key))
  {
  }

  lemma PublishKeeps(s: State, t: nat)
    requires Inv(s) && t < |s.threads| && s.threads[t].pc == Publish && Enabled(s, t)
    ensures Inv(Step(s, t)) && Evolves(s.nodes, Step(s, t).nodes, Now(s), t)
  {
    hide Inv, HeapOk, Evolves, EffectOk, ThreadOk, Step, Enabled, MayAdd, PublishNodes;
    var th, ns, now := s.threads[t], s.nodes, Now(s);
    InvThread(s, t);
    PublishStepIs(s, t);
    PublishOk(ns, s.effects, t, th);
    StepKeeps(s, t, th.(pc := Unlock, ok := true, level := th.top, result := true, point := now),
              PublishNodes(ns, th.own, now), Added(t, th.key));
  }

  lemma OwnLevels(ns: seq<Node>, now: int, t: nat, th: Thread)
    requires HeapOk(ns, now) && Publishing(ns, t, th)
    ensures IsData(ns, th.own) && ns[th.own].maker == t && !ns[th.own].full && ns[th.own].key == th.key
    ensures forall l :: 0 <= l <= ns[th.own].top ==> 0 <= Ins(ns[th.own], l)
  {
  }

  // ---------------------------------------------------------------- unlocking

  /** The predecessor that leads a run of equal ones is none of those below: they descend. */
  lemma LeaderIsNew(ns: seq<Node>, th: Thread, l: int)
    requires Slots(ns, th, 0) && 0 <= l < th.level <= MAX_LEVEL && Leads(th)
    ensures th.preds[l] != th.preds[th.level]
    ensures IsRef(ns, th.preds[l]) && IsRef(ns, th.preds[th.level]) && Lt(ns, th.preds[th.level], th.preds[l])
  {
    assert Upto(ns, th.preds[th.level], th.preds[th.level - 1]);
    if l < th.level - 1 {
      assert Upto(ns, th.preds[th.level - 1], th.preds[l]);
      if th.preds[th.level - 1] != th.preds[l] {
        LtTrans(ns, th.preds[th.level], th.preds[th.level - 1], th.preds[l]);
      }
    }
  }

  lemma UnlockLower(ns: seq<Node>, effects: seq<Effect>, t: nat, th: Thread)
    requires HeapOk(ns, |effects|) && Leaving(ns, effects, t, th) && 0 < th.level && Leads(th) && IsRef(ns, th.preds[th.level])
    requires Evolves(ns, WithLock(ns, th.preds[th.level], FREE), |effects|, t)
    ensures Leaving(WithLock(ns, th.preds[th.level], FREE), effects + [Quiet], t, th.(level := th.level - 1))
  {
    var ns', th' := WithLock(ns, th.preds[th.level], FREE), th.(level := th.level - 1);
    InsertingWithLock(ns, th, th', th.preds[th.level], FREE);
    forall l | 0 <= l <= th'.level ensures HeldAt(ns', t, th', l) {
      LeaderIsNew(ns, th, l);
      assert HeldAt(ns, t, th, l);
    }
    if th.ok {
      SettledStable(ns, ns', effects, Quiet, t, t, th);
    }
  }

  lemma SkipLower(ns: seq<Node>, effects: seq<Effect>, t: nat, th: Thread)
    requires HeapOk(ns, |effects|) && Leaving(ns, effects, t, th) && 0 < th.level
    requires Evolves(ns, ns, |effects|, t)
    ensures Leaving(ns, effects + [Quiet], t, th.(level := th.level - 1))
  {
    var th' := th.(level := th.level - 1);
    InsertingMoves(ns, th, th');
    forall l | 0 <= l <= th'.level ensures HeldAt(ns, t, th', l) {
      assert HeldAt(ns, t, th, l);
    }
    if th.ok {
      SettledStable(ns, ns, effects, Quiet, t, t, th);
    }
  }

  lemma UnlockLast(ns: seq<Node>, effects: seq<Effect>, t: nat, th: Thread)
    requires HeapOk(ns, |effects|) && Leaving(ns, effects, t, th) && |th.preds| == |th.succs| == MAX_LEVEL + 1
    requires IsRef(ns, th.preds[0]) && HeapOk(WithLock(ns, th.preds[0], FREE), |effects| + 1)
    requires Evolves(ns, WithLock(ns, th.preds[0], FREE), |effects|, t)
    ensures var ns' := WithLock(ns, th.preds[0], FREE);
      if th.ok then Settled(ns', effects + [Quiet], t, th) else !th.result && Searching(ns', Find(th))
  {
    hide HeapOk, Evolves, Searching;
    var ns' := WithLock(ns, th.preds[0], FREE);
    if th.ok {
      SettledStable(ns, ns', effects, Quiet, t, t, th);
    } else {
      RestartOk(ns', |effects| + 1, th);
    }
  }

  lemma ReleaseThread(ns: seq<Node>, effects: seq<Effect>, t: nat, th: Thread)
    requires HeapOk(ns, |effects|) && ThreadOk(ns, effects, t, th) && th.pc == Unlock
    ensures HeldAt(ns, t, th, th.level)
    ensures var ns' := if Leads(th) then WithLock(ns, th.preds[th.level], FREE) else ns;
      ThreadOk(ns', effects + [Quiet], t, UnlockMove(th))
  {
    hide HeapOk, Evolves, EffectOk, Searching, LookingOk, RemovingOk;
    assert Leaving(ns, effects, t, th) && HeldAt(ns, t, th, th.level);
    if Leads(th) {
      LockHeap(ns, th.preds[th.level], FREE, |effects|, t);
      if th.level > 0 {
        UnlockLower(ns, effects, t, th);
      } else {
        UnlockLast(ns, effects, t, th);
      }
    } else {
      QuietHeap(ns, |effects|, t);
      SkipLower(ns, effects, t, th);
    }
  }

  lemma ReleaseKeeps(s: State, t: nat)
    requires Inv(s) && Enabled(s, t) && s.threads[t].pc == Unlock
    ensures Inv(Step(s, t)) && Evolves(s.nodes, Step(s, t).nodes, Now(s), t)
  {
    var th, ns := s.threads[t], s.nodes;
    InvThread(s, t);
    hide Inv, HeapOk, Evolves, EffectOk, ThreadOk, FindMove, LookStep, RemoveStep, EndStep, CheckMove;
    ReleaseThread(ns, s.effects, t, th);
    if Leads(th) {
      LockKeeps(s, t, UnlockMove(th), th.preds[th.level], FREE);
    } else {
      LocalKeeps(s, t, UnlockMove(th));
    }
  }

  lemma AddKeeps(s: State, t: nat)
    requires Inv(s) && Enabled(s, t) && PhaseOf(s.threads[t].pc) == Adding
    ensures Inv(Step(s, t)) && Evolves(s.nodes, Step(s, t).nodes, Now(s), t)
  {
    var pc := s.threads[t].pc;
    hide Inv, Step, Evolves;
    if pc == Lock {
      AcquireKeeps(s, t);
    } else if pc == Link {
      LinkKeeps(s, t);
    } else if pc == Publish {
      PublishKeeps(s, t);
    } else if pc == Unlock {
      ReleaseKeeps(s, t);
    } else {
      CheckKeeps(s, t);
    }
  }
}

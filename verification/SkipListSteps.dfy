/** Every step of the lazy skip list keeps the invariant. */
module SkipListSteps {
  import opened SetHistory
  import opened Lifetimes
  import opened SkipList
  import opened SkipListHeap
  import opened SkipListProof

  // ---------------------------------------------------------------- the common part of all steps

  /** Thread `t` may move on to `th`: same operation or a new one, and a victim nobody retired. */
  ghost predicate Owns(s: State, t: nat, th: Thread)
    requires t < |s.threads|
  {
    && (th.pc != Idle ==> th.start == Now(s) + 1 || (s.threads[t].pc != Idle && th.start == s.threads[t].start))
    && (HasVictim(th) ==> th.found !in s.retired)
  }

  lemma InvThread(s: State, t: nat)
    requires Inv(s) && t < |s.threads|
    ensures HeapOk(s.nodes, Now(s)) && ThreadOk(s.nodes, s.effects, t, s.threads[t])
    ensures HasVictim(s.threads[t]) ==> s.threads[t].found !in s.retired
  {
    hide HeapOk, ThreadOk, HistoryOk;
  }

  lemma RetireStable(s: State, t: nat, th: Thread, ns': seq<Node>, e: Effect)
    requires RetireOk(s) && t < |s.threads| && Owns(s, t, th) && Evolves(s.nodes, ns', Now(s), t)
    ensures RetireOk(Go(s, t, th, ns', e))
  {
    var s' := Go(s, t, th, ns', e);
    forall r | r in s'.retired ensures IsData(ns', r) && 0 <= Out(ns'[r], 0) && s'.retired[r] == 1 {
      assert s.retired[r] == 1;
      assert NodeEvolves(s.nodes[r], ns'[r], Now(s), t);
      assert LevelEvolves(s.nodes[r], ns'[r], 0, Now(s));
    }
  }

  /** Thread `t` moves on to `th`, the heap to `ns'`, with effect `e`. */
  lemma StepKeeps(s: State, t: nat, th: Thread, ns': seq<Node>, e: Effect)
    requires Inv(s) && t < |s.threads|
    requires Evolves(s.nodes, ns', Now(s), t) && HeapOk(ns', Now(s) + 1) && EffectOk(Lives(ns'), e, Now(s))
    requires ThreadOk(ns', s.effects + [e], t, th) && Owns(s, t, th)
    ensures Inv(Go(s, t, th, ns', e))
  {
    hide ThreadOk, HeapOk, Evolves, EffectOk;
    var s' := Go(s, t, th, ns', e);
    forall u | 0 <= u < |s'.threads| ensures ThreadOk(ns', s'.effects, u, s'.threads[u]) {
      if u != t {
        ThreadStable(s.nodes, ns', s.effects, e, t, u, s.threads[u]);
      }
    }
    LivesGrow(s.nodes, ns', Now(s), t);
    LivesFine(ns', Now(s) + 1);
    HistoryStep(Lives(s.nodes), Lives(ns'), s.effects, e, s.done);
    forall d | d in s.done && d.who == t && th.pc != Idle ensures d.end < th.start {
      assert RecordOk(Lives(s.nodes), s.effects, d);
    }
    RetireStable(s, t, th, ns', e);
  }

  lemma LocalKeeps(s: State, t: nat, th: Thread)
    requires Inv(s) && t < |s.threads| && Owns(s, t, th)
    requires ThreadOk(s.nodes, s.effects + [Quiet], t, th)
    ensures Inv(Local(s, t, th)) && Evolves(s.nodes, s.nodes, Now(s), t)
  {
    hide ThreadOk, HeapOk, Evolves, EffectOk;
    QuietHeap(s.nodes, Now(s), t);
    StepKeeps(s, t, th, s.nodes, Quiet);
  }

  lemma LockKeeps(s: State, t: nat, th: Thread, r: int, holder: int)
    requires Inv(s) && t < |s.threads| && Owns(s, t, th) && IsRef(s.nodes, r)
    requires (s.nodes[r].lock == FREE && holder == t) || (s.nodes[r].lock == t && holder == FREE)
    requires ThreadOk(WithLock(s.nodes, r, holder), s.effects + [Quiet], t, th)
    ensures var ns' := WithLock(s.nodes, r, holder); Inv(Go(s, t, th, ns', Quiet)) && Evolves(s.nodes, ns', Now(s), t)
  {
    hide ThreadOk, HeapOk, Evolves, EffectOk;
    LockHeap(s.nodes, r, holder, Now(s), t);
    StepKeeps(s, t, th, WithLock(s.nodes, r, holder), Quiet);
  }

  // ---------------------------------------------------------------- the search

  lemma SeenLower(ns: seq<Node>, now: int, r: int, l: int, i: int)
    requires HeapOk(ns, now) && Seen(ns, r, l, i) && 0 < l
    ensures Seen(ns, r, l - 1, i)
  {
    assert NodeOk(ns[r], now) && LevelOk(ns[r], l, now) && LevelOk(ns[r], l - 1, now);
  }

  /** Following the link of a node seen since `i` leads to a node seen since `i`, with nothing between. */
  lemma Follow(ns: seq<Node>, now: nat, r: int, l: int, i: int)
    requires HeapOk(ns, now) && Seen(ns, r, l, i) && r != TAIL && i <= now
    ensures HasLevel(ns, r, l) && ns[r].next[l] == Nxt(ns[r], l)
    ensures var q := Nxt(ns[r], l);
      && Seen(ns, q, l, i) && Lt(ns, r, q) && Gap(ns, r, q, l, LastOn(ns[r], l, now))
      && LastOn(ns[r], l, now) == Last(ns[r], l, now) && i <= Last(ns[r], l, now) <= now
  {
    assert NodeOk(ns[r], now) && LevelOk(ns[r], l, now) && LinkOk(ns, r, l, now);
  }

  lemma SlotsSame(ns: seq<Node>, th: Thread, th': Thread, from: int)
    requires Slots(ns, th, from) && th'.preds == th.preds && th'.succs == th.succs && th'.start == th.start && th'.key == th.key
    ensures Slots(ns, th', from)
  {
    forall l | from <= l <= MAX_LEVEL ensures SlotOk(ns, th', l) {
      assert SlotOk(ns, th, l);
    }
  }

  /** One more level of `preds` and `succs` is filled. */
  lemma SlotFilled(ns: seq<Node>, th: Thread, now: int)
    requires Scanning(ns, th, now) && !Under(ns, th.curr, th.key)
    ensures Slots(ns, Filled(th), th.level)
  {
    var th' := Filled(th);
    forall l | th.level <= l <= MAX_LEVEL ensures SlotOk(ns, th', l) {
      assert l > th.level ==> SlotOk(ns, th, l);
    }
    forall l, m | th.level <= l < m <= MAX_LEVEL ensures Upto(ns, th'.preds[m], th'.preds[l]) {
      assert Upto(ns, th.preds[m], th.pred);
      assert l > th.level ==> Upto(ns, th.preds[m], th.preds[l]);
    }
  }

  lemma ScanOn(ns: seq<Node>, now: nat, th: Thread)
    requires HeapOk(ns, now) && Scanning(ns, th, now) && th.start <= now && Under(ns, th.curr, th.key)
    ensures HasLevel(ns, th.curr, th.level)
    ensures Scanning(ns, th.(pred := th.curr, curr := ns[th.curr].next[th.level], point := LastOn(ns[th.curr], th.level, now)), now)
  {
    Follow(ns, now, th.curr, th.level, th.start);
    var th' := th.(pred := th.curr, curr := ns[th.curr].next[th.level], point := LastOn(ns[th.curr], th.level, now));
    SlotsSame(ns, th, th', th.level + 1);
    forall m | th.level < m <= MAX_LEVEL ensures Upto(ns, th'.preds[m], th'.pred) {
      assert Upto(ns, th.preds[m], th.pred);
      if th.preds[m] != th.pred { LtTrans(ns, th.preds[m], th.pred, th.curr); }
    }
  }

  lemma ScanDown(ns: seq<Node>, now: nat, th: Thread)
    requires HeapOk(ns, now) && Scanning(ns, th, now) && 0 < th.level && !Under(ns, th.curr, th.key)
    ensures Searching(ns, Filled(th).(pc := Descend, level := th.level - 1))
  {
    SlotFilled(ns, th, now);
    SeenLower(ns, now, th.pred, th.level, th.start);
    var th' := Filled(th).(pc := Descend, level := th.level - 1);
    SlotsSame(ns, Filled(th), th', th.level);
    forall m | th'.level < m <= MAX_LEVEL ensures Upto(ns, th'.preds[m], th'.pred) {
      assert m > th.level ==> Upto(ns, th.preds[m], th.pred);
    }
  }

  /** A node present in the set hangs on the bottom chain. */
  lemma AliveIsOn(ns: seq<Node>, now: int, r: int, i: int)
    requires HeapOk(ns, now) && IsRef(ns, r) && Alive(LifeOf(ns[r]), i)
    ensures IsData(ns, r) && OnAt(ns[r], 0, i)
  {
    assert NodeOk(ns[r], now) && LevelOk(ns[r], 0, now);
  }

  /** `find` answered "absent": the key was absent in state `point`. */
  lemma AbsentAt(ns: seq<Node>, th: Thread, now: int)
    requires HeapOk(ns, now) && Scanning(ns, th, now) && th.level == 0
    requires !Under(ns, th.curr, th.key) && (th.curr == TAIL || ns[th.curr].key != th.key)
    ensures !Has(Lives(ns), th.key, th.point)
  {
    var ls := Lives(ns);
    if r :| 0 <= r < |ls| && ls[r].key == th.key && Alive(ls[r], th.point) {
      AliveIsOn(ns, now, r, th.point);
      assert Lt(ns, th.pred, r) && Lt(ns, r, th.curr);
      assert false;
    }
  }

  lemma ScanEndAdds(ns: seq<Node>, effects: seq<Effect>, t: nat, th: Thread)
    requires HeapOk(ns, |effects|) && FindingOk(ns, effects, th) && th.pc == Scan && th.level == 0 && th.top <= MAX_LEVEL
    requires !Under(ns, th.curr, th.key) && AfterFind(ns, Filled(th)).pc == Lock
    ensures AddingOk(ns, effects + [Quiet], t, AfterFind(ns, Filled(th)))
  {
    SlotFilled(ns, th, |effects|);
    var th' := AfterFind(ns, Filled(th));
    SlotsSame(ns, Filled(th), th', 0);
    assert SlotOk(ns, th', 0);
  }

  lemma ScanEndLooks(ns: seq<Node>, effects: seq<Effect>, t: nat, th: Thread)
    requires HeapOk(ns, |effects|) && FindingOk(ns, effects, th) && th.pc == Scan && th.level == 0
    requires !Under(ns, th.curr, th.key) && AfterFind(ns, Filled(th)).pc !in {Lock, Return}
    ensures LookingOk(ns, effects + [Quiet], t, AfterFind(ns, Filled(th)))
  {
  }

  lemma ScanEndReturns(ns: seq<Node>, effects: seq<Effect>, t: nat, th: Thread)
    requires HeapOk(ns, |effects|) && FindingOk(ns, effects, th) && th.pc == Scan && th.level == 0
    requires !Under(ns, th.curr, th.key) && AfterFind(ns, Filled(th)).pc == Return
    ensures EndingOk(ns, effects + [Quiet], t, AfterFind(ns, Filled(th)))
  {
    AbsentAt(ns, th, |effects|);
  }

  lemma ScanEnd(ns: seq<Node>, effects: seq<Effect>, t: nat, th: Thread)
    requires HeapOk(ns, |effects|) && ThreadOk(ns, effects, t, th) && th.pc == Scan && th.level == 0
    requires IsRef(ns, th.curr) && !Under(ns, th.curr, th.key)
    ensures ThreadOk(ns, effects + [Quiet], t, AfterFind(ns, Filled(th))) && !HasVictim(AfterFind(ns, Filled(th)))
  {
    hide HeapOk, FindingOk, LookingOk, AddingOk, RemovingOk, EndingOk;
    var th' := AfterFind(ns, Filled(th));
    if th'.pc == Lock {
      ScanEndAdds(ns, effects, t, th);
    } else if th'.pc == Return {
      ScanEndReturns(ns, effects, t, th);
    } else {
      ScanEndLooks(ns, effects, t, th);
    }
  }

  lemma FindMoveOk(ns: seq<Node>, effects: seq<Effect>, t: nat, th: Thread)
    requires HeapOk(ns, |effects|) && ThreadOk(ns, effects, t, th) && PhaseOf(th.pc) == Finding && MayFind(ns, th)
    ensures ThreadOk(ns, effects + [Quiet], t, FindMove(ns, th, |effects|)) && !HasVictim(FindMove(ns, th, |effects|))
  {
    var now := |effects|;
    if th.pc == Descend {
      Follow(ns, now, th.pred, th.level, th.start);
      SlotsSame(ns, th, FindMove(ns, th, now), th.level + 1);
    } else if Under(ns, th.curr, th.key) {
      ScanOn(ns, now, th);
    } else if th.level > 0 {
      ScanDown(ns, now, th);
    } else {
      ScanEnd(ns, effects, t, th);
    }
  }

  lemma FindKeeps(s: State, t: nat)
    requires Inv(s) && Enabled(s, t) && PhaseOf(s.threads[t].pc) == Finding
    ensures Inv(Step(s, t)) && Evolves(s.nodes, Step(s, t).nodes, Now(s), t)
  {
    InvThread(s, t);
    hide Inv, ThreadOk, HeapOk, Evolves;
    var th := s.threads[t];
    FindMoveOk(s.nodes, s.effects, t, th);
    LocalKeeps(s, t, FindMove(s.nodes, th, Now(s)));
  }

  // ---------------------------------------------------------------- the node found

  /** A state in which a seen, marked node proves its key absent. */
  lemma MarkedIsAbsent(ns: seq<Node>, th: Thread, now: nat)
    requires HeapOk(ns, now) && Found(ns, th) && ns[th.found].marked && th.start <= now
    ensures HasLevel(ns, th.found, 0)
    ensures var i := LastOn(ns[th.found], 0, now); th.start <= i <= now && !Has(Lives(ns), th.key, i)
  {
    var v, ls := th.found, Lives(ns);
    assert NodeOk(ns[v], now) && LevelOk(ns[v], 0, now);
    var i := LastOn(ns[v], 0, now);
    if r :| 0 <= r < |ls| && ls[r].key == th.key && Alive(ls[r], i) {
      if r != v {
        AloneInSet(ns, now, i, r, v);
      }
      assert false;
    }
  }

  lemma UnfinishedIsAbsent(ns: seq<Node>, th: Thread, now: nat)
    requires HeapOk(ns, now) && Found(ns, th) && !ns[th.found].full
    ensures !Has(Lives(ns), th.key, now)
  {
    var v, ls := th.found, Lives(ns);
    assert NodeOk(ns[v], now) && LevelOk(ns[v], 0, now);
    if r :| 0 <= r < |ls| && ls[r].key == th.key && Alive(ls[r], now) {
      if r != v {
        AloneInSet(ns, now, now, r, v);
      }
      assert false;
    }
  }

  lemma LivePresent(ns: seq<Node>, r: int, k: int, i: int)
    requires IsRef(ns, r) && ns[r].key == k && Alive(LifeOf(ns[r]), i)
    ensures Has(Lives(ns), k, i)
  {
    assert Lives(ns)[r].key == k && Alive(Lives(ns)[r], i);
  }

  lemma RestartOk(ns: seq<Node>, now: nat, th: Thread)
    requires HeapOk(ns, now) && |th.preds| == |th.succs| == MAX_LEVEL + 1
    ensures Searching(ns, Find(th))
  {
    assert NodeOk(ns[HEAD], now);
    assert Ins(ns[HEAD], MAX_LEVEL) == 0;
    assert LevelOk(ns[HEAD], MAX_LEVEL, now);
  }

  lemma LookAgain(ns: seq<Node>, effects: seq<Effect>, t: nat, th: Thread)
    requires HeapOk(ns, |effects|) && LookingOk(ns, effects, t, th) && MayLook(ns, th) && th.start <= |effects|
    requires th.pc in {SawNode, LoadFull} && |th.preds| == |th.succs| == MAX_LEVEL + 1
    ensures var th' := LookMove(ns, th, |effects|);
      if th'.pc == Descend then FindingOk(ns, effects + [Quiet], th') else LookingOk(ns, effects + [Quiet], t, th')
  {
    assert NodeOk(ns[th.found], |effects|);
    RestartOk(ns, |effects|, th);
  }

  lemma LookAnswer(ns: seq<Node>, effects: seq<Effect>, t: nat, th: Thread)
    requires HeapOk(ns, |effects|) && LookingOk(ns, effects, t, th) && MayLook(ns, th) && th.start <= |effects|
    requires th.pc in {Wait, LoadMark, SeeFull, SeeMark, Recheck}
    ensures var th' := LookMove(ns, th, |effects|);
      if th'.pc in {Return, UnlockVictim} then EndingOk(ns, effects + [Quiet], t, th') && !HasVictim(th')
      else LookingOk(ns, effects + [Quiet], t, th')
  {
    var n, now := ns[th.found], |effects|;
    assert NodeOk(n, now);
    assert LifeOk(LifeOf(n), now) && (n.full <==> 0 <= n.lin) && (n.marked <==> 0 <= n.died);
    hide HeapOk, NodeOk;
    if n.marked {
      MarkedIsAbsent(ns, th, now);
    }
    if th.pc == Wait && n.full {
      LivePresent(ns, th.found, th.key, if n.lin <= th.point then th.point else n.lin);
    }
    if th.pc == SeeFull && !n.full {
      UnfinishedIsAbsent(ns, th, now);
    }
    if th.pc == SeeMark && !n.marked {
      LivePresent(ns, th.found, th.key, now);
    }
  }

  lemma LookMoveOk(ns: seq<Node>, effects: seq<Effect>, t: nat, th: Thread)
    requires HeapOk(ns, |effects|) && ThreadOk(ns, effects, t, th)
    requires PhaseOf(th.pc) == Looking && th.pc !in {LockVictim, Mark} && MayLook(ns, th)
    ensures ThreadOk(ns, effects + [Quiet], t, LookMove(ns, th, |effects|)) && !HasVictim(LookMove(ns, th, |effects|))
  {
    hide HeapOk, FindingOk, LookingOk, AddingOk, RemovingOk, EndingOk;
    if th.pc in {SawNode, LoadFull} {
      LookAgain(ns, effects, t, th);
    } else {
      LookAnswer(ns, effects, t, th);
    }
  }

  /** Locks change nothing that a thread knows of a node. */
  lemma FoundWithLock(ns: seq<Node>, th: Thread, r: int, holder: int)
    requires Found(ns, th) && IsRef(ns, r)
    ensures Found(WithLock(ns, r, holder), th)
  {
  }

  lemma MarkOk(ns: seq<Node>, effects: seq<Effect>, t: nat, th: Thread)
    requires HeapOk(ns, |effects|) && ThreadOk(ns, effects, t, th) && th.pc == Mark
    ensures HeapOk(MarkNodes(ns, th.found, t, |effects|), |effects| + 1)
    ensures Evolves(ns, MarkNodes(ns, th.found, t, |effects|), |effects|, t)
    ensures EffectOk(Lives(MarkNodes(ns, th.found, t, |effects|)), Removed(t, th.key), |effects|)
    ensures ThreadOk(MarkNodes(ns, th.found, t, |effects|), effects + [Removed(t, th.key)], t,
                     th.(pc := UnlockVictim, ok := true, result := true, point := |effects|))
  {
    var now, v := |effects|, ns[th.found];
    MarkHeap(ns, th.found, t, now);
    assert NodeOk(v, now);
    forall l | 0 <= l < v.top + 1 ensures Out(v, l) < 0 {
      assert LevelOk(v, l, now);
    }
    var v' := MarkNodes(ns, th.found, t, now)[th.found];
    assert forall l :: Out(v', l) == Out(v, l) && Ins(v', l) == Ins(v, l);
  }

  lemma LookStepIs(s: State, t: nat)
    requires Enabled(s, t) && PhaseOf(s.threads[t].pc) == Looking
    ensures var th, ns := s.threads[t], s.nodes;
      && MayLook(ns, th)
      && (th.pc == LockVictim ==>
            ns[th.found].lock == FREE && Step(s, t) == Go(s, t, th.(pc := Recheck), WithLock(ns, th.found, t), Quiet))
      && (th.pc == Mark ==>
            Step(s, t) == Go(s, t, th.(pc := UnlockVictim, ok := true, result := true, point := Now(s)),
                             MarkNodes(ns, th.found, t, Now(s)), Removed(t, th.key)))
      && (th.pc !in {LockVictim, Mark} ==>
            Step(s, t) == Local(s, t, LookMove(ns, th, Now(s))) && LookMove(ns, th, Now(s)).start == th.start)
  {
  }

  lemma LockVictimOk(ns: seq<Node>, effects: seq<Effect>, t: nat, th: Thread)
    requires ThreadOk(ns, effects, t, th) && th.pc == LockVictim && IsRef(ns, th.found)
    ensures ThreadOk(WithLock(ns, th.found, t), effects + [Quiet], t, th.(pc := Recheck))
  {
    FoundWithLock(ns, th, th.found, t);
  }

  function Marked(s: State, t: nat): Thread
    requires t < |s.threads|
  {
    s.threads[t].(pc := UnlockVictim, ok := true, result := true, point := Now(s))
  }

  lemma MarkKeeps(s: State, t: nat)
    requires Inv(s) && t < |s.threads| && s.threads[t].pc == Mark && IsRef(s.nodes, s.threads[t].found)
    ensures var ns' := MarkNodes(s.nodes, s.threads[t].found, t, Now(s));
      && Inv(Go(s, t, Marked(s, t), ns', Removed(t, s.threads[t].key)))
      && Evolves(s.nodes, ns', Now(s), t)
  {
    InvThread(s, t);
    MarkNotRetired(s, t);
    hide Inv, HeapOk, Evolves, EffectOk, ThreadOk, MarkNodes;
    MarkOk(s.nodes, s.effects, t, s.threads[t]);
    StepKeeps(s, t, Marked(s, t), MarkNodes(s.nodes, s.threads[t].found, t, Now(s)), Removed(t, s.threads[t].key));
  }

  lemma LookKeeps(s: State, t: nat)
    requires Inv(s) && Enabled(s, t) && PhaseOf(s.threads[t].pc) == Looking
    ensures Inv(Step(s, t)) && Evolves(s.nodes, Step(s, t).nodes, Now(s), t)
  {
    InvThread(s, t);
    LookStepIs(s, t);
    hide Inv, HeapOk, Evolves, EffectOk, ThreadOk, Step, Enabled, LookMove, MayLook, MarkNodes;
    var th, ns := s.threads[t], s.nodes;
    if th.pc == LockVictim {
      LockVictimOk(ns, s.effects, t, th);
      LockKeeps(s, t, th.(pc := Recheck), th.found, t);
    } else if th.pc == Mark {
      MarkKeeps(s, t);
    } else {
      LookMoveOk(ns, s.effects, t, th);
      LocalKeeps(s, t, LookMove(ns, th, Now(s)));
    }
  }

  lemma MarkNotRetired(s: State, t: nat)
    requires Inv(s) && t < |s.threads| && s.threads[t].pc == Mark
    ensures s.threads[t].found !in s.retired
  {
    var r := s.threads[t].found;
    assert ThreadOk(s.nodes, s.effects, t, s.threads[t]);
    assert NodeOk(s.nodes[r], Now(s)) && LevelOk(s.nodes[r], 0, Now(s));
    assert Out(s.nodes[r], 0) < 0;
  }
}

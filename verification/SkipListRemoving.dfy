/** The steps of an erase after its mark, the returns, and the whole step relation. */
module SkipListRemoving {
  import opened SetHistory
  import opened Lifetimes
  import opened SkipList
  import opened SkipListHeap
  import opened SkipListProof
  import opened SkipListSteps
  import opened SkipListAdding

  // ---------------------------------------------------------------- walking to the victim

  lemma VictimOn(ns: seq<Node>, effects: seq<Effect>, now: int, t: nat, th: Thread, l: int)
    requires HeapOk(ns, now) && Erasing(ns, effects, t, th, th.level + 1) && 0 <= l <= th.level
    ensures forall i :: ns[th.found].died <= i <= now ==> OnAt(ns[th.found], l, i)
    ensures 0 <= ns[th.found].died < now
  {
    assert NodeOk(ns[th.found], now) && LevelOk(ns[th.found], l, now);
  }

  /** From a node in front of the victim, linked since the mark, the link does not pass the victim. */
  lemma NeverPasses(ns: seq<Node>, effects: seq<Effect>, now: nat, t: nat, th: Thread, p: int)
    requires HeapOk(ns, now) && Splicing(ns, effects, t, th) && now == |effects|
    requires Seen(ns, p, th.level, ns[th.found].died) && Lt(ns, p, th.found)
    ensures HasLevel(ns, p, th.level)
    ensures var q := Nxt(ns[p], th.level);
      ns[p].next[th.level] == q && Seen(ns, q, th.level, ns[th.found].died) && Upto(ns, q, th.found)
  {
    VictimOn(ns, effects, now, t, th, th.level);
    Follow(ns, now, p, th.level, ns[th.found].died);
    var q, i := Nxt(ns[p], th.level), Last(ns[p], th.level, now);
    assert LinkOk(ns, p, th.level, now);
    assert OnAt(ns[th.found], th.level, i);
    if q != th.found {
      OnOrdered(ns, now, th.level, i, q, th.found);
    }
  }

  /** Stopping in front of the victim means being at it: the exit "already spliced" is never taken. */
  lemma NotYetSpliced(ns: seq<Node>, effects: seq<Effect>, t: nat, th: Thread)
    requires RemovingOk(ns, effects, t, th) && th.pc == SpliceScan
    ensures th.curr != th.found ==> Under(ns, th.curr, th.key)
  {
  }

  lemma SpliceReadOk(ns: seq<Node>, effects: seq<Effect>, t: nat, th: Thread)
    requires HeapOk(ns, |effects|) && RemovingOk(ns, effects, t, th) && MayRemove(ns, th)
    requires th.pc in {SpliceStart, SpliceScan}
    ensures RemovingOk(ns, effects + [Quiet], t, SpliceMove(ns, th)) && PhaseOf(SpliceMove(ns, th).pc) == Removing
  {
    QuietHeap(ns, |effects|, t);
    SettledStable(ns, ns, effects, Quiet, t, t, th);
    if th.pc == SpliceStart {
      assert NodeOk(ns[HEAD], |effects|) && LevelOk(ns[HEAD], th.level, |effects|);
      assert Ins(ns[HEAD], th.level) == 0;
      NeverPasses(ns, effects, |effects|, t, th, HEAD);
    } else if th.curr != th.found {
      NotYetSpliced(ns, effects, t, th);
      NeverPasses(ns, effects, |effects|, t, th, th.curr);
    }
  }

  lemma SpliceCheckOk(ns: seq<Node>, effects: seq<Effect>, t: nat, th: Thread)
    requires HeapOk(ns, |effects|) && RemovingOk(ns, effects, t, th) && MayRemove(ns, th)
    requires th.pc in {SpliceMark, SpliceNext, SpliceLoad}
    ensures var th' := SpliceMove(ns, th);
      if th'.pc == SpliceUnlock then EndingOk(ns, effects + [Quiet], t, th')
      else PhaseOf(th'.pc) == Removing && RemovingOk(ns, effects + [Quiet], t, th')
  {
    QuietHeap(ns, |effects|, t);
    SettledStable(ns, ns, effects, Quiet, t, t, th);
  }

  lemma SpliceMoveOk(ns: seq<Node>, effects: seq<Effect>, t: nat, th: Thread)
    requires HeapOk(ns, |effects|) && ThreadOk(ns, effects, t, th) && MayRemove(ns, th)
    requires th.pc in {SpliceStart, SpliceScan, SpliceMark, SpliceNext, SpliceLoad}
    ensures ThreadOk(ns, effects + [Quiet], t, SpliceMove(ns, th)) && SpliceMove(ns, th).found == th.found
  {
    hide HeapOk, FindingOk, LookingOk, AddingOk, RemovingOk, EndingOk;
    if th.pc in {SpliceStart, SpliceScan} {
      SpliceReadOk(ns, effects, t, th);
    } else {
      SpliceCheckOk(ns, effects, t, th);
    }
  }

  // ---------------------------------------------------------------- splicing

  lemma SpliceLockOk(ns: seq<Node>, effects: seq<Effect>, t: nat, th: Thread)
    requires HeapOk(ns, |effects|) && RemovingOk(ns, effects, t, th) && th.pc == SpliceLock && ns[th.pred].lock == FREE
    ensures RemovingOk(WithLock(ns, th.pred, t), effects + [Quiet], t, th.(pc := SpliceMark))
  {
    var ns' := WithLock(ns, th.pred, t);
    LockHeap(ns, th.pred, t, |effects|, t);
    SettledStable(ns, ns', effects, Quiet, t, t, th);
    assert forall l :: Out(ns'[th.found], l) == Out(ns[th.found], l);
  }

  lemma SpliceReady(ns: seq<Node>, effects: seq<Effect>, t: nat, th: Thread)
    requires HeapOk(ns, |effects|) && RemovingOk(ns, effects, t, th) && th.pc == SpliceStore
    ensures MaySplice(ns, th.pred, th.found, th.load, th.level, t)
    ensures HasLevel(ns, th.pred, th.level) && HasLevel(ns, th.found, th.level)
  {
    var v := ns[th.found];
    VictimOn(ns, effects, |effects|, t, th, th.level);
    assert NodeOk(v, |effects|) && LevelOk(v, th.level, |effects|);
    assert th.level < v.top ==> 0 <= Out(v, th.level + 1);
    UnmarkedIsOn(ns, |effects|, th.pred, th.level);
    assert NodeOk(ns[th.pred], |effects|);
  }

  lemma SplicedThread(ns: seq<Node>, effects: seq<Effect>, t: nat, th: Thread)
    requires HeapOk(ns, |effects|) && RemovingOk(ns, effects, t, th) && th.pc == SpliceStore
    requires HasLevel(ns, th.pred, th.level) && HasLevel(ns, th.found, th.level)
    requires var ns' := SpliceNodes(ns, th.pred, th.found, th.level, th.load, |effects|); Evolves(ns, ns', |effects|, t)
    ensures EndingOk(SpliceNodes(ns, th.pred, th.found, th.level, th.load, |effects|), effects + [Quiet], t,
                     th.(pc := SpliceUnlock, ok := true))
  {
    var v := ns[th.found];
    var ns' := SpliceNodes(ns, th.pred, th.found, th.level, th.load, |effects|);
    SettledStable(ns, ns', effects, Quiet, t, t, th);
    var v' := ns'[th.found];
    forall l ensures Out(v', l) == (if l == th.level then |effects| else Out(v, l)) && Ins(v', l) == Ins(v, l) {
    }
  }

  lemma SpliceStoreOk(ns: seq<Node>, effects: seq<Effect>, t: nat, th: Thread)
    requires HeapOk(ns, |effects|) && RemovingOk(ns, effects, t, th) && th.pc == SpliceStore
    ensures HasLevel(ns, th.pred, th.level) && HasLevel(ns, th.found, th.level)
    ensures var ns' := SpliceNodes(ns, th.pred, th.found, th.level, th.load, |effects|);
      && HeapOk(ns', |effects| + 1) && Evolves(ns, ns', |effects|, t) && EffectOk(Lives(ns'), Quiet, |effects|)
      && EndingOk(ns', effects + [Quiet], t, th.(pc := SpliceUnlock, ok := true))
  {
    hide HeapOk, Evolves, EffectOk, RemovingOk, EndingOk, MaySplice;
    SpliceReady(ns, effects, t, th);
    SpliceHeap(ns, th.pred, th.found, th.load, th.level, t, |effects|);
    SplicedThread(ns, effects, t, th);
  }

  lemma RemoveStepIs(s: State, t: nat)
    requires Enabled(s, t) && PhaseOf(s.threads[t].pc) == Removing
    ensures var th, ns := s.threads[t], s.nodes;
      && MayRemove(ns, th) && HasVictim(th)
      && (th.pc == SpliceLock ==>
            IsRef(ns, th.pred) && ns[th.pred].lock == FREE && Step(s, t) == Go(s, t, th.(pc := SpliceMark), WithLock(ns, th.pred, t), Quiet))
      && (th.pc == SpliceStore ==>
            Step(s, t) == Go(s, t, th.(pc := SpliceUnlock, ok := true), SpliceNodes(ns, th.pred, th.found, th.level, th.load, Now(s)), Quiet))
      && (th.pc !in {SpliceLock, SpliceStore} ==>
            Step(s, t) == Local(s, t, SpliceMove(ns, th)) && SpliceMove(ns, th).start == th.start && SpliceMove(ns, th).found == th.found)
  {
  }

  lemma SpliceLockThread(ns: seq<Node>, effects: seq<Effect>, t: nat, th: Thread)
    requires HeapOk(ns, |effects|) && ThreadOk(ns, effects, t, th) && th.pc == SpliceLock && IsRef(ns, th.pred) && ns[th.pred].lock == FREE
    ensures ThreadOk(WithLock(ns, th.pred, t), effects + [Quiet], t, th.(pc := SpliceMark))
  {
    hide HeapOk, FindingOk, LookingOk, AddingOk, RemovingOk, EndingOk;
    SpliceLockOk(ns, effects, t, th);
  }

  lemma SpliceStoreThread(ns: seq<Node>, effects: seq<Effect>, t: nat, th: Thread)
    requires HeapOk(ns, |effects|) && ThreadOk(ns, effects, t, th) && th.pc == SpliceStore
    ensures HasLevel(ns, th.pred, th.level) && HasLevel(ns, th.found, th.level)
    ensures var ns' := SpliceNodes(ns, th.pred, th.found, th.level, th.load, |effects|);
      && HeapOk(ns', |effects| + 1) && Evolves(ns, ns', |effects|, t) && EffectOk(Lives(ns'), Quiet, |effects|)
      && ThreadOk(ns', effects + [Quiet], t, th.(pc := SpliceUnlock, ok := true))
  {
    hide HeapOk, Evolves, EffectOk, FindingOk, LookingOk, AddingOk, RemovingOk, EndingOk;
    SpliceStoreOk(ns, effects, t, th);
  }

  lemma RemoveKeeps(s: State, t: nat)
    requires Inv(s) && Enabled(s, t) && PhaseOf(s.threads[t].pc) == Removing
    ensures Inv(Step(s, t)) && Evolves(s.nodes, Step(s, t).nodes, Now(s), t)
  {
    InvThread(s, t);
    RemoveStepIs(s, t);
    hide Inv, HeapOk, Evolves, EffectOk, ThreadOk, Step, Enabled, SpliceMove, MayRemove;
    var th, ns := s.threads[t], s.nodes;
    if th.pc == SpliceLock {
      SpliceLockThread(ns, s.effects, t, th);
      LockKeeps(s, t, th.(pc := SpliceMark), th.pred, t);
    } else if th.pc == SpliceStore {
      SpliceStoreThread(ns, s.effects, t, th);
      StepKeeps(s, t, th.(pc := SpliceUnlock, ok := true), SpliceNodes(ns, th.pred, th.found, th.level, th.load, Now(s)), Quiet);
    } else {
      SpliceMoveOk(ns, s.effects, t, th);
      LocalKeeps(s, t, SpliceMove(ns, th));
    }
  }

  // ---------------------------------------------------------------- ending

  lemma UnlockVictimOk(ns: seq<Node>, effects: seq<Effect>, t: nat, th: Thread)
    requires HeapOk(ns, |effects|) && ThreadOk(ns, effects, t, th) && th.pc == UnlockVictim
    ensures IsRef(ns, th.found) && ns[th.found].lock == t
    ensures ThreadOk(WithLock(ns, th.found, FREE), effects + [Quiet], t,
                     if th.ok then th.(pc := SpliceStart, level := ns[th.found].top) else th.(pc := Return))
  {
    hide FindingOk, LookingOk, AddingOk;
    var ns' := WithLock(ns, th.found, FREE);
    LockHeap(ns, th.found, FREE, |effects|, t);
    SettledStable(ns, ns', effects, Quiet, t, t, th);
    assert forall l :: Out(ns'[th.found], l) == Out(ns[th.found], l);
  }

  lemma ErasingWithLock(ns: seq<Node>, effects: seq<Effect>, t: nat, th: Thread, th': Thread, n: int, r: int, holder: int)
    requires HeapOk(ns, |effects|) && Erasing(ns, effects, t, th, n) && IsRef(ns, r)
    requires (ns[r].lock == FREE && holder == t) || (ns[r].lock == t && holder == FREE)
    requires th' == th.(pc := th'.pc, level := th'.level)
    ensures Erasing(WithLock(ns, r, holder), effects + [Quiet], t, th', n)
  {
    var ns' := WithLock(ns, r, holder);
    LockHeap(ns, r, holder, |effects|, t);
    SettledStable(ns, ns', effects, Quiet, t, t, th);
    assert forall l :: Out(ns'[th.found], l) == Out(ns[th.found], l);
  }

  lemma SpliceUnlockOk(ns: seq<Node>, effects: seq<Effect>, t: nat, th: Thread)
    requires HeapOk(ns, |effects|) && ThreadOk(ns, effects, t, th) && th.pc == SpliceUnlock
    ensures IsRef(ns, th.pred) && ns[th.pred].lock == t && 0 <= th.level
    ensures ThreadOk(WithLock(ns, th.pred, FREE), effects + [Quiet], t,
                     PredUnlocked(th))
  {
    hide FindingOk, LookingOk, AddingOk, Erasing, HeapOk;
    ErasingWithLock(ns, effects, t, th, PredUnlocked(th),
                    if th.ok then th.level else th.level + 1, th.pred, FREE);
  }

  function VictimUnlocked(ns: seq<Node>, th: Thread): Thread
    requires IsRef(ns, th.found)
  {
    if th.ok then th.(pc := SpliceStart, level := ns[th.found].top) else th.(pc := Return)
  }

  lemma UnlockVictimStep(s: State, t: nat)
    requires Enabled(s, t) && s.threads[t].pc == UnlockVictim
    ensures IsRef(s.nodes, s.threads[t].found)
    ensures Step(s, t) == Go(s, t, VictimUnlocked(s.nodes, s.threads[t]), WithLock(s.nodes, s.threads[t].found, FREE), Quiet)
  {
  }

  lemma UnlockVictimKeeps(s: State, t: nat)
    requires Inv(s) && Enabled(s, t) && s.threads[t].pc == UnlockVictim
    ensures Inv(Step(s, t)) && Evolves(s.nodes, Step(s, t).nodes, Now(s), t)
  {
    InvThread(s, t);
    UnlockVictimStep(s, t);
    hide Inv, HeapOk, Evolves, EffectOk, ThreadOk, Step, Enabled;
    var th, ns := s.threads[t], s.nodes;
    UnlockVictimOk(ns, s.effects, t, th);
    LockKeeps(s, t, VictimUnlocked(ns, th), th.found, FREE);
  }

  function PredUnlocked(th: Thread): Thread {
    if th.ok then NextLevelDown(th) else th.(pc := SpliceStart)
  }

  lemma SpliceUnlockStep(s: State, t: nat)
    requires Enabled(s, t) && s.threads[t].pc == SpliceUnlock
    ensures IsRef(s.nodes, s.threads[t].pred)
    ensures Step(s, t) == Go(s, t, PredUnlocked(s.threads[t]), WithLock(s.nodes, s.threads[t].pred, FREE), Quiet)
    ensures var th := PredUnlocked(s.threads[t]); th.start == s.threads[t].start && th.found == s.threads[t].found
  {
  }

  lemma SpliceUnlockKeeps(s: State, t: nat)
    requires Inv(s) && Enabled(s, t) && s.threads[t].pc == SpliceUnlock
    ensures Inv(Step(s, t)) && Evolves(s.nodes, Step(s, t).nodes, Now(s), t)
  {
    InvThread(s, t);
    SpliceUnlockStep(s, t);
    var th, ns := s.threads[t], s.nodes;
    assert HasVictim(th);
    SpliceUnlockOk(ns, s.effects, t, th);
    hide Inv, HeapOk, Evolves, EffectOk, ThreadOk, Step, Enabled, PredUnlocked;
    LockKeeps(s, t, PredUnlocked(th), th.pred, FREE);
  }

  lemma SettledReturns(ns: seq<Node>, effects: seq<Effect>, t: nat, th: Thread)
    requires HeapOk(ns, |effects|) && ThreadOk(ns, effects, t, th) && th.pc in {Retire, Return}
    ensures ThreadOk(ns, effects + [Quiet], t, th.(pc := Return)) && ThreadOk(ns, effects + [Quiet], t, th.(pc := Idle))
    ensures Settled(ns, effects, t, th)
  {
    hide LookingOk, AddingOk, RemovingOk;
    QuietHeap(ns, |effects|, t);
    SettledStable(ns, ns, effects, Quiet, t, t, th);
  }

  /** Two threads never splice the same node: each marked its own. */
  lemma VictimsDiffer(s: State, t: nat, u: nat)
    requires Inv(s) && t < |s.threads| && u < |s.threads| && t != u
    requires HasVictim(s.threads[t]) && HasVictim(s.threads[u])
    ensures s.threads[t].found != s.threads[u].found
  {
    VictimIsOwn(s, t);
    VictimIsOwn(s, u);
  }

  lemma VictimIsOwn(s: State, t: nat)
    requires Inv(s) && t < |s.threads| && HasVictim(s.threads[t])
    ensures IsData(s.nodes, s.threads[t].found) && s.nodes[s.threads[t].found].eraser == t
  {
    hide HeapOk, FindingOk, LookingOk, AddingOk;
    assert ThreadOk(s.nodes, s.effects, t, s.threads[t]);
  }

  /** The victim goes to the epoch domain: off every level, and never given there before. */
  lemma RetireKeeps(s: State, t: nat)
    requires Inv(s) && Enabled(s, t) && s.threads[t].pc == Retire
    ensures Inv(Step(s, t)) && Evolves(s.nodes, Step(s, t).nodes, Now(s), t)
    ensures s.threads[t].found !in s.retired && IsData(s.nodes, s.threads[t].found)
    ensures forall l :: Out(s.nodes[s.threads[t].found], l) < 0 ==> Ins(s.nodes[s.threads[t].found], l) < 0
  {
    var th := s.threads[t];
    assert ThreadOk(s.nodes, s.effects, t, th);
    assert Erasing(s.nodes, s.effects, t, th, 0);
    assert NodeOk(s.nodes[th.found], Now(s)) && LevelOk(s.nodes[th.found], 0, Now(s));
    RetireStep(s, t);
  }

  lemma RetiredAdded(s: State, r: int)
    requires Inv(s) && IsData(s.nodes, r) && 0 <= Out(s.nodes[r], 0) && r !in s.retired
    requires forall u :: 0 <= u < |s.threads| && HasVictim(s.threads[u]) ==> s.threads[u].found != r
    ensures Inv(s.(retired := s.retired + multiset{r}))
  {
    hide HeapOk, ThreadOk, HistoryOk;
    var s' := s.(retired := s.retired + multiset{r});
    assert RetireOk(s');
  }

  lemma RetireStepIs(s: State, t: nat)
    requires Enabled(s, t) && s.threads[t].pc == Retire
    ensures var th := s.threads[t];
      Step(s, t) == Local(s, t, th.(pc := Return)).(retired := s.retired + multiset{th.found})
  {
  }

  lemma RetireStep(s: State, t: nat)
    requires Inv(s) && Enabled(s, t) && s.threads[t].pc == Retire
    requires IsData(s.nodes, s.threads[t].found) && 0 <= Out(s.nodes[s.threads[t].found], 0)
    requires s.threads[t].found !in s.retired
    ensures Inv(Step(s, t)) && Evolves(s.nodes, Step(s, t).nodes, Now(s), t)
  {
    InvThread(s, t);
    RetireStepIs(s, t);
    hide Inv, HeapOk, Evolves, EffectOk, ThreadOk, Step, Enabled;
    var th := s.threads[t];
    SettledReturns(s.nodes, s.effects, t, th);
    LocalKeeps(s, t, th.(pc := Return));
    var m := Local(s, t, th.(pc := Return));
    forall u | 0 <= u < |m.threads| && HasVictim(m.threads[u]) ensures m.threads[u].found != th.found {
      VictimsDiffer(s, t, u);
    }
    RetiredAdded(m, th.found);
  }

  /** A completed operation is added to the history. */
  lemma RecordAdded(s: State, r: Record)
    requires Inv(s) && RecordOk(Lives(s.nodes), s.effects, r) && r.who < |s.threads| && s.threads[r.who].pc == Idle
    requires forall d :: d in s.done && d.who == r.who ==> d.end < r.start
    ensures Inv(s.(done := s.done + [r]))
  {
    hide HeapOk, ThreadOk, EffectOk, RecordOk;
    var s' := s.(done := s.done + [r]);
    assert forall d :: d in s'.done ==> d == r || d in s.done;
    forall t, d | 0 <= t < |s'.threads| && s'.threads[t].pc != Idle && d in s'.done && d.who == t ensures d.end < s'.threads[t].start {
    }
    assert HistoryOk(Lives(s.nodes), s.effects, s'.done);
    assert RetireOk(s');
  }

  lemma DoneBefore(s: State, t: nat)
    requires Inv(s) && t < |s.threads| && s.threads[t].pc != Idle
    ensures forall d :: d in s.done && d.who == t ==> d.end < s.threads[t].start
  {
    hide HeapOk, ThreadOk, HistoryOk, RetireOk;
  }

  function Completed(s: State, t: nat): Record
    requires t < |s.threads|
  {
    var th := s.threads[t];
    Record(t, th.op, th.key, th.result, th.start, th.point, Now(s))
  }

  function Returned(s: State, t: nat): State
    requires t < |s.threads|
  {
    Local(s, t, s.threads[t].(pc := Idle))
  }

  lemma ReturnedOk(s: State, t: nat)
    requires Inv(s) && t < |s.threads| && s.threads[t].pc == Return
    ensures Inv(Returned(s, t)) && Evolves(s.nodes, s.nodes, Now(s), t)
  {
    hide HeapOk, Evolves, EffectOk, ThreadOk, HistoryOk, RetireOk;
    SettledReturns(s.nodes, s.effects, t, s.threads[t]);
    LocalKeeps(s, t, s.threads[t].(pc := Idle));
  }

  lemma CompletedOk(s: State, t: nat)
    requires Inv(s) && t < |s.threads| && s.threads[t].pc == Return
    ensures RecordOk(Lives(s.nodes), Returned(s, t).effects, Completed(s, t))
  {
    hide Inv;
    SettledStep(s, t);
  }

  lemma ReturnKeeps(s: State, t: nat)
    requires Inv(s) && Enabled(s, t) && s.threads[t].pc == Return
    ensures Inv(Step(s, t)) && Evolves(s.nodes, Step(s, t).nodes, Now(s), t)
  {
    hide Inv, Evolves, RecordOk;
    ReturnedOk(s, t);
    CompletedOk(s, t);
    DoneBefore(s, t);
    RecordAdded(Returned(s, t), Completed(s, t));
  }

  lemma SettledStep(s: State, t: nat)
    requires Inv(s) && t < |s.threads| && s.threads[t].pc == Return
    ensures Settled(s.nodes, s.effects + [Quiet], t, s.threads[t]) && s.threads[t].point <= Now(s)
  {
    hide LookingOk, AddingOk, RemovingOk, FindingOk;
    QuietHeap(s.nodes, Now(s), t);
    assert ThreadOk(s.nodes, s.effects, t, s.threads[t]);
    SettledStable(s.nodes, s.nodes, s.effects, Quiet, t, t, s.threads[t]);
  }

  lemma InvokeKeeps(s: State, t: nat, op: Op, key: int, top: nat)
    requires Inv(s) && MayInvoke(s, t, top)
    ensures Inv(Invoke(s, t, op, key, top)) && Evolves(s.nodes, s.nodes, Now(s), t)
  {
    hide LookingOk, AddingOk, RemovingOk, EndingOk;
    var th := Thread(Descend, op, key, top, 0, HEAD, HEAD, Levels(MAX_LEVEL + 1, HEAD), Levels(MAX_LEVEL + 1, HEAD),
                     NONE, NONE, NONE, false, false, Now(s) + 1, Now(s) + 1);
    RestartOk(s.nodes, Now(s), th);
    LocalKeeps(s, t, Find(th));
  }

  /** Every step keeps the invariant, and the past: a marked node is frozen for good. */
  lemma NextKeeps(s: State, s': State)
    requires Inv(s) && Next(s, s')
    ensures Inv(s') && exists u: int :: Evolves(s.nodes, s'.nodes, Now(s), u)
  {
    hide Inv, Evolves;
    if t: nat, op, key, top: nat :| MayInvoke(s, t, top) && s' == Invoke(s, t, op, key, top) {
      InvokeKeeps(s, t, op, key, top);
    } else {
      var t: nat :| Enabled(s, t) && s' == Step(s, t);
      StepOk(s, t);
    }
  }

  lemma StepOk(s: State, t: nat)
    requires Inv(s) && Enabled(s, t)
    ensures Inv(Step(s, t)) && Evolves(s.nodes, Step(s, t).nodes, Now(s), t)
  {
    var pc := s.threads[t].pc;
    hide Inv, Evolves, Step;
    match PhaseOf(pc)
    case Finding => FindKeeps(s, t);
    case Looking => LookKeeps(s, t);
    case Adding => AddKeeps(s, t);
    case Removing => RemoveKeeps(s, t);
    case Ending =>
      if pc == Retire {
        RetireKeeps(s, t);
      } else if pc == Return {
        ReturnKeeps(s, t);
      } else if pc == UnlockVictim {
        UnlockVictimKeeps(s, t);
      } else {
        SpliceUnlockKeeps(s, t);
      }
  }
}

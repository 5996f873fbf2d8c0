/** What every step of the lazy skip list keeps. */
module SkipListProof {
  import opened SetHistory
  import opened Lifetimes
  import opened SkipList
  import opened SkipListHeap

  /** `r` was on the chain of level `l` in some state not before `i`. */
  predicate Seen(ns: seq<Node>, r: int, l: int, i: int) {
    IsRef(ns, r) && 0 <= Ins(ns[r], l) && (Out(ns[r], l) < 0 || i <= Out(ns[r], l))
  }

  predicate Upto(ns: seq<Node>, p: int, q: int) {
    IsRef(ns, p) && IsRef(ns, q) && (p == q || Lt(ns, p, q))
  }

  // ---------------------------------------------------------------- the search

  ghost predicate SlotOk(ns: seq<Node>, th: Thread, l: int)
    requires 0 <= l < |th.preds| && l < |th.succs|
  {
    var p, q := th.preds[l], th.succs[l];
    && Seen(ns, p, l, th.start) && Seen(ns, q, l, th.start)
    && Under(ns, p, th.key) && !Under(ns, q, th.key)
  }

  /** `preds` and `succs` are filled from level `from` up, the predecessors descending. */
  ghost predicate Slots(ns: seq<Node>, th: Thread, from: int) {
    && |th.preds| == |th.succs| == MAX_LEVEL + 1 && 0 <= from
    && (forall l {:trigger SlotOk(ns, th, l)} :: from <= l <= MAX_LEVEL ==> SlotOk(ns, th, l))
    && (forall l, m {:trigger th.preds[l], th.preds[m]} :: from <= l < m <= MAX_LEVEL ==> Upto(ns, th.preds[m], th.preds[l]))
  }

  ghost predicate Searching(ns: seq<Node>, th: Thread) {
    && 0 <= th.level <= MAX_LEVEL
    && Slots(ns, th, th.level + 1)
    && Seen(ns, th.pred, th.level, th.start) && Under(ns, th.pred, th.key)
    && (forall m {:trigger th.preds[m]} :: th.level < m <= MAX_LEVEL ==> Upto(ns, th.preds[m], th.pred))
  }

  ghost predicate Scanning(ns: seq<Node>, th: Thread, now: int) {
    && Searching(ns, th)
    && Seen(ns, th.curr, th.level, th.start) && Lt(ns, th.pred, th.curr)
    && th.start <= th.point <= now && Gap(ns, th.pred, th.curr, th.level, th.point)
  }

  // ---------------------------------------------------------------- insert

  /** No node at level `l` has the key of the insert. */
  ghost predicate Strict(ns: seq<Node>, th: Thread, l: int)
    requires 0 <= l < |th.succs| && IsRef(ns, th.succs[l])
  {
    th.succs[l] == TAIL || ns[th.succs[l]].key != th.key
  }

  ghost predicate HeldAt(ns: seq<Node>, t: int, th: Thread, l: int)
    requires 0 <= l < |th.preds|
  {
    IsRef(ns, th.preds[l]) && ns[th.preds[l]].lock == t
  }

  /** Level `l` is locked and validated. */
  ghost predicate Secured(ns: seq<Node>, t: int, th: Thread, l: int)
    requires 0 <= l < |th.preds| && l < |th.succs|
  {
    HeldAt(ns, t, th, l) && !ns[th.preds[l]].marked && Nxt(ns[th.preds[l]], l) == th.succs[l]
  }

  ghost predicate Inserting(ns: seq<Node>, th: Thread) {
    && th.op == Insert && th.top <= MAX_LEVEL && 0 <= th.level <= th.top && Slots(ns, th, 0)
    && SlotOk(ns, th, 0) && Strict(ns, th, 0)
  }

  ghost predicate Validating(ns: seq<Node>, t: int, th: Thread) {
    && Inserting(ns, th) && !th.result
    && forall l {:trigger Secured(ns, t, th, l)} :: 0 <= l < th.level ==> Secured(ns, t, th, l)
  }

  ghost predicate OwnOk(ns: seq<Node>, t: int, th: Thread) {
    && IsData(ns, th.own) && ns[th.own].key == th.key && ns[th.own].top == th.top
    && ns[th.own].maker == t && !ns[th.own].full
  }

  ghost predicate UpperOk(ns: seq<Node>, t: int, th: Thread, l: int)
    requires 0 <= l < |th.preds| && l < |th.succs| && IsRef(ns, th.succs[l])
  {
    && Secured(ns, t, th, l) && Strict(ns, th, l)
    && (0 < th.level ==> IsRef(ns, th.own) && Ins(ns[th.own], l) < 0 && Nxt(ns[th.own], l) == th.succs[l])
  }

  ghost predicate Linking(ns: seq<Node>, t: int, th: Thread) {
    && Inserting(ns, th)
    && (forall l {:trigger HeldAt(ns, t, th, l)} :: 0 <= l <= th.top ==> HeldAt(ns, t, th, l))
    && (forall l :: th.level <= l <= th.top ==> SlotOk(ns, th, l) && UpperOk(ns, t, th, l))
    && (0 < th.level ==> OwnOk(ns, t, th) && forall l {:trigger Ins(ns[th.own], l)} :: 0 <= l < th.level ==> 0 <= Ins(ns[th.own], l))
  }

  ghost predicate Publishing(ns: seq<Node>, t: int, th: Thread) {
    && Inserting(ns, th) && OwnOk(ns, t, th)
    && (forall l {:trigger HeldAt(ns, t, th, l)} :: 0 <= l <= th.top ==> HeldAt(ns, t, th, l))
    && (forall l {:trigger Ins(ns[th.own], l)} :: 0 <= l <= th.top ==> 0 <= Ins(ns[th.own], l))
  }

  ghost predicate Leaving(ns: seq<Node>, effects: seq<Effect>, t: nat, th: Thread) {
    && Inserting(ns, th)
    && (forall l {:trigger HeldAt(ns, t, th, l)} :: 0 <= l <= th.level ==> HeldAt(ns, t, th, l))
    && (if th.ok then Settled(ns, effects, t, th) else !th.result)
  }

  // ---------------------------------------------------------------- erase

  ghost predicate Found(ns: seq<Node>, th: Thread) {
    IsData(ns, th.found) && ns[th.found].key == th.key && Seen(ns, th.found, 0, th.start)
  }

  /** The victim is off the levels from `n` up and on the levels below. */
  ghost predicate SplicedTo(v: Node, n: int) {
    && 0 <= n <= v.top + 1
    && (forall l {:trigger Out(v, l)} :: n <= l <= v.top ==> 0 <= Out(v, l))
    && (forall l {:trigger Out(v, l)} :: 0 <= l < n ==> Out(v, l) < 0)
  }

  ghost predicate Erasing(ns: seq<Node>, effects: seq<Effect>, t: nat, th: Thread, n: int) {
    && th.op == Erase && th.result && Found(ns, th)
    && ns[th.found].marked && ns[th.found].eraser == t && th.start <= ns[th.found].died
    && SplicedTo(ns[th.found], n)
    && Settled(ns, effects, t, th)
  }

  ghost predicate Splicing(ns: seq<Node>, effects: seq<Effect>, t: nat, th: Thread) {
    && Erasing(ns, effects, t, th, th.level + 1) && 0 <= th.level
  }

  /** The splicing thread stays in front of its victim, among nodes linked since it was marked. */
  ghost predicate InFront(ns: seq<Node>, th: Thread) {
    && IsData(ns, th.found) && Seen(ns, th.pred, th.level, ns[th.found].died) && Lt(ns, th.pred, th.found)
  }

  // ---------------------------------------------------------------- one thread

  ghost predicate Settled(ns: seq<Node>, effects: seq<Effect>, t: nat, th: Thread) {
    Justified(Lives(ns), effects, t, th.op, th.key, th.result, th.start, th.point)
  }

  ghost predicate FindingOk(ns: seq<Node>, effects: seq<Effect>, th: Thread) {
    match th.pc
    case Descend => Searching(ns, th) && !th.result
    case Scan => Scanning(ns, th, |effects|) && !th.result
    case _ => true
  }

  ghost predicate LookingOk(ns: seq<Node>, effects: seq<Effect>, t: nat, th: Thread) {
    && Found(ns, th) && !th.result
    && (th.pc in {SawNode, Wait} ==> th.op == Insert)
    && (th.pc in {LoadFull, LoadMark, LockVictim, Recheck, Mark} ==> th.op == Erase)
    && (th.pc in {SeeFull, SeeMark} ==> th.op == Contains)
    && (th.pc in {LoadMark, LockVictim, Recheck, Mark, SeeMark} ==> ns[th.found].full)
    && (th.pc == Wait ==>
          th.start <= th.point <= |effects| && (ns[th.found].died < 0 || th.point <= ns[th.found].died))
    && (th.pc in {Recheck, Mark} ==> ns[th.found].lock == t)
    && (th.pc == Mark ==> !ns[th.found].marked)
  }

  ghost predicate AddingOk(ns: seq<Node>, effects: seq<Effect>, t: nat, th: Thread) {
    if th.pc == Link then Linking(ns, t, th)
    else if th.pc == Publish then Publishing(ns, t, th)
    else if th.pc == Unlock then Leaving(ns, effects, t, th)
    else
      && Validating(ns, t, th)
      && (th.pc in {CheckPred, CheckSucc, CheckNext} ==> HeldAt(ns, t, th, th.level))
      && (th.pc in {CheckSucc, CheckNext} ==> !ns[th.preds[th.level]].marked)
  }

  ghost predicate RemovingOk(ns: seq<Node>, effects: seq<Effect>, t: nat, th: Thread) {
    && Splicing(ns, effects, t, th)
    && (th.pc != SpliceStart ==> InFront(ns, th))
    && (th.pc == SpliceScan ==> Seen(ns, th.curr, th.level, ns[th.found].died) && Upto(ns, th.curr, th.found))
    && (th.pc in {SpliceMark, SpliceNext, SpliceLoad, SpliceStore} ==> ns[th.pred].lock == t)
    && (th.pc in {SpliceNext, SpliceLoad, SpliceStore} ==> !ns[th.pred].marked)
    && (th.pc in {SpliceLoad, SpliceStore} ==> Nxt(ns[th.pred], th.level) == th.found)
    && (th.pc == SpliceStore ==> th.load == Nxt(ns[th.found], th.level))
  }

  ghost predicate EndingOk(ns: seq<Node>, effects: seq<Effect>, t: nat, th: Thread) {
    match th.pc
    case UnlockVictim =>
      && Found(ns, th) && ns[th.found].lock == t
      && (if th.ok then Erasing(ns, effects, t, th, ns[th.found].top + 1)
          else !th.result && th.op == Erase && Settled(ns, effects, t, th))
    case SpliceUnlock =>
      && 0 <= th.level && Erasing(ns, effects, t, th, if th.ok then th.level else th.level + 1)
      && Seen(ns, th.pred, th.level, th.start) && ns[th.pred].lock == t
    case Retire => Erasing(ns, effects, t, th, 0)
    case _ => Settled(ns, effects, t, th)
  }

  ghost predicate ThreadOk(ns: seq<Node>, effects: seq<Effect>, t: nat, th: Thread) {
    && (th.pc != Idle ==>
          th.start <= |effects| && th.top <= MAX_LEVEL && |th.preds| == |th.succs| == MAX_LEVEL + 1)
    && match PhaseOf(th.pc)
       case Finding => FindingOk(ns, effects, th)
       case Looking => LookingOk(ns, effects, t, th)
       case Adding => AddingOk(ns, effects, t, th)
       case Removing => RemovingOk(ns, effects, t, th)
       case Ending => EndingOk(ns, effects, t, th)
  }

  // ---------------------------------------------------------------- the whole state

  /** A thread that has marked its victim and not yet retired it. */
  predicate HasVictim(th: Thread) {
    || (th.pc == UnlockVictim && th.ok)
    || th.pc in {SpliceStart, SpliceScan, SpliceLock, SpliceMark, SpliceNext, SpliceLoad, SpliceStore, SpliceUnlock, Retire}
  }

  ghost predicate RetireOk(s: State) {
    && (forall r {:trigger s.retired[r]} :: r in s.retired ==>
          IsData(s.nodes, r) && 0 <= Out(s.nodes[r], 0) && s.retired[r] == 1)
    && (forall t :: 0 <= t < |s.threads| && HasVictim(s.threads[t]) ==> s.threads[t].found !in s.retired)
  }

  ghost predicate Inv(s: State) {
    && HeapOk(s.nodes, Now(s))
    && (forall t {:trigger s.threads[t]} :: 0 <= t < |s.threads| ==> ThreadOk(s.nodes, s.effects, t, s.threads[t]))
    && RetireOk(s)
    && HistoryOk(Lives(s.nodes), s.effects, s.done)
    && (forall t, d :: 0 <= t < |s.threads| && s.threads[t].pc != Idle && d in s.done && d.who == t ==>
          d.end < s.threads[t].start)
  }

  // ---------------------------------------------------------------- stability

  lemma SeenStable(ns: seq<Node>, ns': seq<Node>, now: int, u: int, r: int, l: int, i: int)
    requires Evolves(ns, ns', now, u) && Seen(ns, r, l, i) && i <= now
    ensures Seen(ns', r, l, i)
  {
    assert NodeEvolves(ns[r], ns'[r], now, u);
    assert LevelEvolves(ns[r], ns'[r], l, now);
  }

  lemma GapStable(ns: seq<Node>, ns': seq<Node>, now: int, u: int, p: int, q: int, l: int, i: int)
    requires Evolves(ns, ns', now, u) && i <= now && IsRef(ns, p) && IsRef(ns, q) && Gap(ns, p, q, l, i)
    ensures Gap(ns', p, q, l, i)
  {
    EvolvesKeys(ns, ns', now, u);
    forall v | IsRef(ns', v) && OnAt(ns'[v], l, i) ensures !(Lt(ns', p, v) && Lt(ns', v, q)) {
      OnAtFixed(ns, ns', now, u, v, l, i);
      assert OnAt(ns[v], l, i);
    }
  }

  lemma SlotsStable(ns: seq<Node>, ns': seq<Node>, now: int, u: int, th: Thread, from: int)
    requires Evolves(ns, ns', now, u) && Slots(ns, th, from) && th.start <= now
    ensures Slots(ns', th, from)
  {
    EvolvesKeys(ns, ns', now, u);
    forall l | from <= l <= MAX_LEVEL ensures SlotOk(ns', th, l) {
      assert SlotOk(ns, th, l);
      SeenStable(ns, ns', now, u, th.preds[l], l, th.start);
      SeenStable(ns, ns', now, u, th.succs[l], l, th.start);
    }
  }

  lemma SearchStable(ns: seq<Node>, ns': seq<Node>, now: int, u: int, th: Thread)
    requires Evolves(ns, ns', now, u) && Searching(ns, th) && th.start <= now
    ensures Searching(ns', th)
    ensures Scanning(ns, th, now) ==> Scanning(ns', th, now + 1)
  {
    EvolvesKeys(ns, ns', now, u);
    SlotsStable(ns, ns', now, u, th, th.level + 1);
    SeenStable(ns, ns', now, u, th.pred, th.level, th.start);
    if Scanning(ns, th, now) {
      SeenStable(ns, ns', now, u, th.curr, th.level, th.start);
      GapStable(ns, ns', now, u, th.pred, th.curr, th.level, th.point);
    }
  }

  lemma HeldStable(ns: seq<Node>, ns': seq<Node>, now: int, u: int, t: nat, th: Thread, l: int)
    requires Evolves(ns, ns', now, u) && u != t && 0 <= l < |th.preds| && HeldAt(ns, t, th, l)
    ensures HeldAt(ns', t, th, l) && ns'[th.preds[l]].marked == ns[th.preds[l]].marked
    ensures 0 <= Ins(ns[th.preds[l]], l) ==> Nxt(ns'[th.preds[l]], l) == Nxt(ns[th.preds[l]], l)
  {
    assert NodeEvolves(ns[th.preds[l]], ns'[th.preds[l]], now, u);
  }

  lemma InsertingStable(ns: seq<Node>, ns': seq<Node>, now: int, u: int, th: Thread)
    requires Evolves(ns, ns', now, u) && Inserting(ns, th) && th.start <= now
    ensures Inserting(ns', th)
  {
    EvolvesKeys(ns, ns', now, u);
    SlotsStable(ns, ns', now, u, th, 0);
    assert SlotOk(ns', th, 0);
  }

  lemma ValidatingStable(ns: seq<Node>, ns': seq<Node>, now: int, u: int, t: nat, th: Thread)
    requires Evolves(ns, ns', now, u) && u != t && Validating(ns, t, th) && th.start <= now
    ensures Validating(ns', t, th)
  {
    InsertingStable(ns, ns', now, u, th);
    forall l | 0 <= l < th.level ensures Secured(ns', t, th, l) {
      assert Secured(ns, t, th, l) && SlotOk(ns, th, l);
      HeldStable(ns, ns', now, u, t, th, l);
    }
  }

  lemma OwnStable(ns: seq<Node>, ns': seq<Node>, now: int, u: int, t: nat, th: Thread)
    requires Evolves(ns, ns', now, u) && u != t && OwnOk(ns, t, th)
    ensures OwnOk(ns', t, th) && ns'[th.own].ins == ns[th.own].ins
    ensures forall l {:trigger Nxt(ns'[th.own], l)} :: Ins(ns[th.own], l) < 0 ==> Nxt(ns'[th.own], l) == Nxt(ns[th.own], l)
  {
    assert NodeEvolves(ns[th.own], ns'[th.own], now, u);
  }

  lemma LinkingStable(ns: seq<Node>, ns': seq<Node>, now: int, u: int, t: nat, th: Thread)
    requires Evolves(ns, ns', now, u) && u != t && Linking(ns, t, th) && th.start <= now
    ensures Linking(ns', t, th)
  {
    InsertingStable(ns, ns', now, u, th);
    EvolvesKeys(ns, ns', now, u);
    forall l | 0 <= l <= th.top ensures HeldAt(ns', t, th, l) {
      HeldStable(ns, ns', now, u, t, th, l);
    }
    if 0 < th.level {
      OwnStable(ns, ns', now, u, t, th);
    }
    forall l | th.level <= l <= th.top ensures SlotOk(ns', th, l) && UpperOk(ns', t, th, l) {
      assert SlotOk(ns, th, l) && UpperOk(ns, t, th, l) && SlotOk(ns', th, l);
      HeldStable(ns, ns', now, u, t, th, l);
    }
    if 0 < th.level {
      forall l | 0 <= l < th.level ensures 0 <= Ins(ns'[th.own], l) {
        assert 0 <= Ins(ns[th.own], l);
      }
    }
  }

  lemma PublishingStable(ns: seq<Node>, ns': seq<Node>, now: int, u: int, t: nat, th: Thread)
    requires Evolves(ns, ns', now, u) && u != t && Publishing(ns, t, th) && th.start <= now
    ensures Publishing(ns', t, th)
  {
    InsertingStable(ns, ns', now, u, th);
    OwnStable(ns, ns', now, u, t, th);
    forall l | 0 <= l <= th.top ensures HeldAt(ns', t, th, l) && 0 <= Ins(ns'[th.own], l) {
      HeldStable(ns, ns', now, u, t, th, l);
      assert 0 <= Ins(ns[th.own], l);
    }
  }

  lemma SettledStable(ns: seq<Node>, ns': seq<Node>, effects: seq<Effect>, e: Effect, u: int, t: nat, th: Thread)
    requires HeapOk(ns, |effects|) && Evolves(ns, ns', |effects|, u) && Settled(ns, effects, t, th)
    ensures Settled(ns', effects + [e], t, th)
  {
    LivesGrow(ns, ns', |effects|, u);
    JustifiedFixed(Lives(ns), Lives(ns'), effects, e, t, th.op, th.key, th.result, th.start, th.point);
  }

  lemma LeavingStable(ns: seq<Node>, ns': seq<Node>, effects: seq<Effect>, e: Effect, u: int, t: nat, th: Thread)
    requires HeapOk(ns, |effects|) && Evolves(ns, ns', |effects|, u) && u != t && Leaving(ns, effects, t, th)
    requires th.start <= |effects|
    ensures Leaving(ns', effects + [e], t, th)
  {
    InsertingStable(ns, ns', |effects|, u, th);
    forall l | 0 <= l <= th.level ensures HeldAt(ns', t, th, l) {
      HeldStable(ns, ns', |effects|, u, t, th, l);
    }
    if th.ok {
      SettledStable(ns, ns', effects, e, u, t, th);
    }
  }

  lemma FoundStable(ns: seq<Node>, ns': seq<Node>, now: int, u: int, th: Thread)
    requires Evolves(ns, ns', now, u) && Found(ns, th) && th.start <= now
    ensures Found(ns', th) && (ns[th.found].full ==> ns'[th.found].full)
    ensures ns[th.found].marked ==> ns'[th.found].marked
    ensures 0 <= ns[th.found].died ==> ns'[th.found].died == ns[th.found].died
    ensures ns[th.found].died < 0 ==> ns'[th.found].died in {-1, now}
  {
    SeenStable(ns, ns', now, u, th.found, 0, th.start);
    assert NodeEvolves(ns[th.found], ns'[th.found], now, u);
    assert LifeGrows(LifeOf(ns[th.found]), LifeOf(ns'[th.found]), now);
  }

  lemma ErasingStable(ns: seq<Node>, ns': seq<Node>, effects: seq<Effect>, e: Effect, u: int, t: nat, th: Thread, n: int)
    requires HeapOk(ns, |effects|) && Evolves(ns, ns', |effects|, u) && u != t && Erasing(ns, effects, t, th, n)
    requires th.start <= |effects|
    ensures Erasing(ns', effects + [e], t, th, n)
    ensures ns'[th.found].died == ns[th.found].died && ns'[th.found].top == ns[th.found].top
    ensures ns'[th.found].next == ns[th.found].next
  {
    FoundStable(ns, ns', |effects|, u, th);
    SettledStable(ns, ns', effects, e, u, t, th);
    assert NodeOk(ns[th.found], |effects|);
    assert NodeEvolves(ns[th.found], ns'[th.found], |effects|, u);
    assert forall l :: Out(ns'[th.found], l) == Out(ns[th.found], l);
  }

  lemma FrontStable(ns: seq<Node>, ns': seq<Node>, now: int, u: int, t: nat, th: Thread)
    requires Evolves(ns, ns', now, u) && u != t && InFront(ns, th)
    requires ns'[th.found].died == ns[th.found].died <= now
    ensures InFront(ns', th)
    ensures ns[th.pred].lock == t ==> ns'[th.pred].lock == t && ns'[th.pred].marked == ns[th.pred].marked
    ensures ns[th.pred].lock == t ==> Nxt(ns'[th.pred], th.level) == Nxt(ns[th.pred], th.level)
  {
    EvolvesKeys(ns, ns', now, u);
    SeenStable(ns, ns', now, u, th.pred, th.level, ns[th.found].died);
    assert NodeEvolves(ns[th.pred], ns'[th.pred], now, u);
  }

  lemma FindStable(ns: seq<Node>, ns': seq<Node>, effects: seq<Effect>, e: Effect, u: int, th: Thread)
    requires Evolves(ns, ns', |effects|, u) && th.start <= |effects| && FindingOk(ns, effects, th)
    ensures FindingOk(ns', effects + [e], th)
  {
    if th.pc in {Descend, Scan} {
      SearchStable(ns, ns', |effects|, u, th);
    }
  }

  lemma LookStable(ns: seq<Node>, ns': seq<Node>, effects: seq<Effect>, e: Effect, u: int, t: nat, th: Thread)
    requires Evolves(ns, ns', |effects|, u) && u != t && th.start <= |effects| && LookingOk(ns, effects, t, th)
    ensures LookingOk(ns', effects + [e], t, th)
  {
    FoundStable(ns, ns', |effects|, u, th);
    assert NodeEvolves(ns[th.found], ns'[th.found], |effects|, u);
  }

  lemma AddStable(ns: seq<Node>, ns': seq<Node>, effects: seq<Effect>, e: Effect, u: int, t: nat, th: Thread)
    requires HeapOk(ns, |effects|) && Evolves(ns, ns', |effects|, u) && u != t && th.start <= |effects|
    requires AddingOk(ns, effects, t, th)
    ensures AddingOk(ns', effects + [e], t, th)
  {
    var now := |effects|;
    if th.pc == Link {
      LinkingStable(ns, ns', now, u, t, th);
    } else if th.pc == Publish {
      PublishingStable(ns, ns', now, u, t, th);
    } else if th.pc == Unlock {
      LeavingStable(ns, ns', effects, e, u, t, th);
    } else {
      ValidatingStable(ns, ns', now, u, t, th);
      if th.pc in {CheckPred, CheckSucc, CheckNext} {
        HeldStable(ns, ns', now, u, t, th, th.level);
      }
    }
  }

  lemma RemoveStable(ns: seq<Node>, ns': seq<Node>, effects: seq<Effect>, e: Effect, u: int, t: nat, th: Thread)
    requires HeapOk(ns, |effects|) && Evolves(ns, ns', |effects|, u) && u != t && th.start <= |effects|
    requires RemovingOk(ns, effects, t, th)
    ensures RemovingOk(ns', effects + [e], t, th)
  {
    var now := |effects|;
    EvolvesKeys(ns, ns', now, u);
    ErasingStable(ns, ns', effects, e, u, t, th, th.level + 1);
    assert NodeOk(ns[th.found], now);
    if th.pc != SpliceStart {
      FrontStable(ns, ns', now, u, t, th);
    }
    if th.pc == SpliceScan {
      SeenStable(ns, ns', now, u, th.curr, th.level, ns[th.found].died);
    }
  }

  lemma EndStable(ns: seq<Node>, ns': seq<Node>, effects: seq<Effect>, e: Effect, u: int, t: nat, th: Thread)
    requires HeapOk(ns, |effects|) && Evolves(ns, ns', |effects|, u) && u != t && th.start <= |effects|
    requires PhaseOf(th.pc) == Ending && EndingOk(ns, effects, t, th)
    ensures EndingOk(ns', effects + [e], t, th)
  {
    match th.pc
    case UnlockVictim =>
      FoundStable(ns, ns', |effects|, u, th);
      assert NodeEvolves(ns[th.found], ns'[th.found], |effects|, u);
      if th.ok {
        ErasingStable(ns, ns', effects, e, u, t, th, ns[th.found].top + 1);
      } else {
        SettledStable(ns, ns', effects, e, u, t, th);
      }
    case SpliceUnlock =>
      ErasingStable(ns, ns', effects, e, u, t, th, if th.ok then th.level else th.level + 1);
      SeenStable(ns, ns', |effects|, u, th.pred, th.level, th.start);
      assert NodeEvolves(ns[th.pred], ns'[th.pred], |effects|, u);
    case Retire => ErasingStable(ns, ns', effects, e, u, t, th, 0);
    case Return => SettledStable(ns, ns', effects, e, u, t, th);
  }

  /** A step of one thread keeps what every other thread relies on. */
  lemma ThreadStable(ns: seq<Node>, ns': seq<Node>, effects: seq<Effect>, e: Effect, u: int, t: nat, th: Thread)
    requires HeapOk(ns, |effects|) && Evolves(ns, ns', |effects|, u) && u != t
    requires ThreadOk(ns, effects, t, th)
    ensures ThreadOk(ns', effects + [e], t, th)
  {
    hide HeapOk, Evolves, FindingOk, LookingOk, AddingOk, RemovingOk, EndingOk;
    if th.pc != Idle {
      match PhaseOf(th.pc)
      case Finding => FindStable(ns, ns', effects, e, u, th);
      case Looking => LookStable(ns, ns', effects, e, u, t, th);
      case Adding => AddStable(ns, ns', effects, e, u, t, th);
      case Removing => RemoveStable(ns, ns', effects, e, u, t, th);
      case Ending => EndStable(ns, ns', effects, e, u, t, th);
    } else {
      IdleOk(ns', effects + [e], th);
    }
  }

  lemma IdleOk(ns: seq<Node>, effects: seq<Effect>, th: Thread)
    requires th.pc == Idle
    ensures FindingOk(ns, effects, th)
  {
  }
}

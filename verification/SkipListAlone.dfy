/** An operation of the skip list ends if no other is unfinished: it searches again at most once, and returns after a
    number of steps told by the state. */
module SkipListAlone {
  import opened SetHistory
  import opened SkipList
  import opened SkipListHeap
  import opened SkipListProof
  import opened SkipListSteps
  import opened SkipListAdding
  import opened SkipListRemoving
  import opened SkipListTheorems
  import opened SkipListLocks
  import opened SkipListProgress
  import opened SkipListRetiring

  // ---------------------------------------------------------------- what the others left

  /** No operation but that of thread `t` is unfinished. */
  ghost predicate OthersIdle(s: State, t: nat) {
    t < |s.threads| && forall u {:trigger s.threads[u]} :: 0 <= u < |s.threads| && u != t ==> s.threads[u].pc == Idle
  }

  ghost predicate Ready(s: State, t: nat) { Sound(s) && AllKept(s) && OthersIdle(s, t) }

  /** The node hangs on level `l`. */
  predicate Hangs(ns: seq<Node>, r: int, l: int) { IsRef(ns, r) && 0 <= Ins(ns[r], l) && Out(ns[r], l) < 0 }

  /** What hangs on some level is unmarked, but for the thread's own victim, and all nodes that it finds are fully
      linked. */
  ghost predicate Settled(ns: seq<Node>, th: Thread) {
    && (forall r, l {:trigger Hangs(ns, r, l)} :: Hangs(ns, r, l) && !Erases(th, r) ==> !ns[r].marked)
    && (forall r {:trigger ns[r].full} :: IsData(ns, r) && !Making(th, r) ==> ns[r].full)
  }

  lemma {:induction false} OffBelow(n: Node, now: int, l: nat)
    requires NodeOk(n, now) && 0 <= Out(n, 0) && l <= n.top
    ensures 0 <= Out(n, l)
  {
    if l > 0 {
      OffBelow(n, now, l - 1);
      assert LevelOk(n, l - 1, now);
    }
  }

  lemma ReadySettled(s: State, t: nat)
    requires Ready(s, t)
    ensures Settled(s.nodes, s.threads[t])
  {
    var ns, th := s.nodes, s.threads[t];
    forall r, l | Hangs(ns, r, l) && !Erases(th, r) ensures !ns[r].marked {
      if ns[r].marked { MarkedIsOff(s, t, r, l); }
    }
    forall r | IsData(ns, r) && !Making(th, r) ensures ns[r].full {
      assert MadeBy(s, r);
    }
  }

  lemma MarkedIsOff(s: State, t: nat, r: int, l: int)
    requires Ready(s, t) && IsRef(s.nodes, r) && s.nodes[r].marked && !Erases(s.threads[t], r)
    ensures !Hangs(s.nodes, r, l)
  {
    assert Kept(s, r);
    assert r in s.retired;
    assert 0 <= Out(s.nodes[r], 0) && NodeOk(s.nodes[r], Now(s));
    if 0 <= l <= s.nodes[r].top { OffBelow(s.nodes[r], Now(s), l); }
  }

  // ---------------------------------------------------------------- where a search is

  /** How many of the first `n` nodes lie behind `p`. */
  function Behind(ns: seq<Node>, p: int, n: nat): (c: nat)
    requires n <= |ns|
    ensures c <= n
  {
    if n == 0 then 0 else Behind(ns, p, n - 1) + if IsRef(ns, p) && Lt(ns, p, n - 1) then 1 else 0
  }

  lemma {:induction false} FewerBehind(ns: seq<Node>, p: int, q: int, n: nat)
    requires IsRef(ns, p) && IsRef(ns, q) && Lt(ns, p, q) && n <= |ns|
    ensures Behind(ns, q, n) <= Behind(ns, p, n) && (q < n ==> Behind(ns, q, n) < Behind(ns, p, n))
  {
    if n > 0 {
      FewerBehind(ns, p, q, n - 1);
      if Lt(ns, q, n - 1) { LtTrans(ns, p, q, n - 1); }
    }
  }

  function Way(ns: seq<Node>, p: int): (c: nat)
    ensures c <= |ns|
  {
    Behind(ns, p, |ns|)
  }

  // ---------------------------------------------------------------- when nothing is stale

  predicate SlotClean(ns: seq<Node>, th: Thread, l: int) {
    0 <= l < |th.preds| && l < |th.succs| && Hangs(ns, th.preds[l], l) && Nxt(ns[th.preds[l]], l) == th.succs[l]
  }

  ghost predicate SlotsClean(ns: seq<Node>, th: Thread, from: int) {
    forall l {:trigger SlotClean(ns, th, l)} :: from <= l <= MAX_LEVEL ==> SlotClean(ns, th, l)
  }

  predicate PredClean(ns: seq<Node>, th: Thread, q: int) {
    Hangs(ns, th.pred, th.level) && Nxt(ns[th.pred], th.level) == q
  }

  /** What the thread saw still holds, so that it need not search again. */
  ghost predicate Clean(ns: seq<Node>, th: Thread) {
    match th.pc
    case Descend => Hangs(ns, th.pred, th.level) && SlotsClean(ns, th, th.level + 1)
    case Scan => PredClean(ns, th, th.curr) && SlotsClean(ns, th, th.level + 1)
    case SawNode => IsRef(ns, th.found) && !ns[th.found].marked
    case Lock => SlotsClean(ns, th, th.level)
    case CheckPred => SlotsClean(ns, th, th.level)
    case CheckSucc => SlotsClean(ns, th, th.level)
    case CheckNext => SlotsClean(ns, th, th.level)
    case SpliceScan => PredClean(ns, th, th.curr) && th.pred != th.found
    case SpliceLock => PredClean(ns, th, th.found) && th.pred != th.found
    case SpliceMark => PredClean(ns, th, th.found) && th.pred != th.found
    case SpliceNext => PredClean(ns, th, th.found) && th.pred != th.found
    case _ => true
  }

  // ---------------------------------------------------------------- the steps left

  /** The steps of splicing at levels `l` down to 0, of retiring and of returning. */
  function SpliceLeft(l: int, n: nat): (c: nat)
    ensures c >= 2
    decreases if l < 0 then 0 else l + 1
  {
    if l < 0 then 2 else SpliceLeft(l - 1, n) + n + 8
  }

  lemma {:induction false} SpliceLeftGrows(l: int, m: int, n: nat)
    requires l <= m
    ensures SpliceLeft(l, n) <= SpliceLeft(m, n)
    decreases if m < 0 then 0 else m + 1
  {
    if l < m && m >= 0 { SpliceLeftGrows(l, m - 1, n); }
  }

  /** What may follow a search. */
  function AfterLeft(n: nat): nat { SpliceLeft(MAX_LEVEL, n) + 300 }

  function SearchLeft(n: nat): nat { AfterLeft(n) + n + 2 * MAX_LEVEL + 1 }

  function Walk(ns: seq<Node>, th: Thread): int {
    var n := |ns|;
    match th.pc
    case Idle => 0
    case Descend => AfterLeft(n) + Way(ns, th.pred) + 2 * th.level + 1
    case Scan => AfterLeft(n) + Way(ns, th.pred) + 2 * th.level
    case SawNode => 3
    case Wait => 2
    case Lock => 83 + 4 * (th.top - th.level)
    case CheckPred => 82 + 4 * (th.top - th.level)
    case CheckSucc => 81 + 4 * (th.top - th.level)
    case CheckNext => 80 + 4 * (th.top - th.level)
    case Link => 37 + th.top - th.level
    case Publish => 36
    case Unlock => th.level + 2 + if th.ok then 0 else SearchLeft(n)
    case LoadFull => SpliceLeft(MAX_LEVEL, n) + 6
    case LoadMark => SpliceLeft(MAX_LEVEL, n) + 5
    case LockVictim => SpliceLeft(MAX_LEVEL, n) + 4
    case Recheck => SpliceLeft(MAX_LEVEL, n) + 3
    case Mark => SpliceLeft(MAX_LEVEL, n) + 2
    case UnlockVictim => SpliceLeft(MAX_LEVEL, n) + 1
    case SpliceStart => SpliceLeft(th.level, n)
    case SpliceScan => SpliceLeft(th.level - 1, n) + Way(ns, th.curr) + 7
    case SpliceLock => SpliceLeft(th.level - 1, n) + 6
    case SpliceMark => SpliceLeft(th.level - 1, n) + 5
    case SpliceNext => SpliceLeft(th.level - 1, n) + 4
    case SpliceLoad => SpliceLeft(th.level - 1, n) + 3
    case SpliceStore => SpliceLeft(th.level - 1, n) + 2
    case SpliceUnlock => 1 + if th.ok then SpliceLeft(th.level - 1, n) else SpliceLeft(th.level, n)
    case Retire => 2
    case SeeFull => 3
    case SeeMark => 2
    case Return => 1
  }

  function Again(n: nat): nat { SearchLeft(n) + 40 }

  /** Steps left to a thread that runs alone; a stale thread searches once more. */
  ghost function StepsLeft(ns: seq<Node>, th: Thread): int {
    Walk(ns, th) + if Clean(ns, th) then 0 else Again(|ns|)
  }

  /** The steps left where nothing can be stale. */
  lemma LeftAt(ns: seq<Node>, th: Thread)
    ensures var n, left := |ns|, StepsLeft(ns, th);
      && (th.pc == Idle ==> left == 0) && (th.pc == PC.Return ==> left == 1) && (th.pc == Retire ==> left == 2)
      && (th.pc == Wait ==> left == 2) && (th.pc == SeeFull ==> left == 3) && (th.pc == SeeMark ==> left == 2)
      && (th.pc == LoadFull ==> left == SpliceLeft(MAX_LEVEL, n) + 6)
      && (th.pc == LoadMark ==> left == SpliceLeft(MAX_LEVEL, n) + 5)
      && (th.pc == LockVictim ==> left == SpliceLeft(MAX_LEVEL, n) + 4)
      && (th.pc == Recheck ==> left == SpliceLeft(MAX_LEVEL, n) + 3)
      && (th.pc == Mark ==> left == SpliceLeft(MAX_LEVEL, n) + 2)
      && (th.pc == UnlockVictim ==> left == SpliceLeft(MAX_LEVEL, n) + 1)
      && (th.pc == SpliceStart ==> left == SpliceLeft(th.level, n))
      && (th.pc == SpliceLoad ==> left == SpliceLeft(th.level - 1, n) + 3)
      && (th.pc == SpliceStore ==> left == SpliceLeft(th.level - 1, n) + 2)
      && (th.pc == SpliceUnlock ==> left == 1 + if th.ok then SpliceLeft(th.level - 1, n) else SpliceLeft(th.level, n))
  {
    hide SpliceLeft, Way, Again, AfterLeft, SearchLeft, PredClean, SlotsClean, Hangs;
  }

  /** The steps left where the predecessor may be stale. */
  lemma LeftAtPred(ns: seq<Node>, th: Thread)
    requires th.pc in {SpliceLock, SpliceMark, SpliceNext}
    ensures StepsLeft(ns, th) == SpliceLeft(th.level - 1, |ns|)
      + (if th.pc == SpliceLock then 6 else if th.pc == SpliceMark then 5 else 4)
      + (if PredClean(ns, th, th.found) && th.pred != th.found then 0 else Again(|ns|))
  {
    hide SpliceLeft, Way, Again, AfterLeft, SearchLeft, PredClean;
  }

  // ---------------------------------------------------------------- chains now

  lemma NextHangs(ns: seq<Node>, now: int, r: int, l: int)
    requires HeapOk(ns, now) && Hangs(ns, r, l) && r != TAIL
    ensures IsRef(ns, Nxt(ns[r], l)) && Hangs(ns, Nxt(ns[r], l), l) && Lt(ns, r, Nxt(ns[r], l))
  {
    assert LinkOk(ns, r, l, now) && NodeOk(ns[r], now);
    var q := Nxt(ns[r], l);
    assert NodeOk(ns[q], now) && OnAt(ns[q], l, now);
    assert LevelOk(ns[q], l, now);
  }

  lemma HangsBelow(ns: seq<Node>, now: int, r: int, l: int)
    requires HeapOk(ns, now) && Hangs(ns, r, l) && 0 < l
    ensures Hangs(ns, r, l - 1)
  {
    assert NodeOk(ns[r], now);
    assert LevelOk(ns[r], l, now) && LevelOk(ns[r], l - 1, now);
  }

  lemma HeadHangs(ns: seq<Node>, now: int, l: int)
    requires HeapOk(ns, now) && 0 <= l <= MAX_LEVEL
    ensures Hangs(ns, HEAD, l)
  {
    assert NodeOk(ns[HEAD], now);
    assert LevelOk(ns[HEAD], l, now) && Ins(ns[HEAD], l) == 0;
  }

  // ---------------------------------------------------------------- find

  lemma FreshClean(ns: seq<Node>, now: int, th: Thread)
    requires HeapOk(ns, now)
    ensures Clean(ns, Find(th)) && Walk(ns, Find(th)) <= SearchLeft(|ns|)
  {
    HeadHangs(ns, now, MAX_LEVEL);
  }

  lemma DescendNears(ns: seq<Node>, now: nat, th: Thread)
    requires th.pc == Descend && MayFind(ns, th)
    ensures StepsLeft(ns, FindMove(ns, th, now)) < StepsLeft(ns, th)
  {
    hide Way, Again, AfterLeft;
    if Clean(ns, th) {
      var th' := FindMove(ns, th, now);
      forall l | th.level + 1 <= l <= MAX_LEVEL ensures SlotClean(ns, th', l) {
        assert SlotClean(ns, th, l);
      }
    }
  }

  lemma AdvanceNears(ns: seq<Node>, now: nat, th: Thread)
    requires HeapOk(ns, now) && th.pc == Scan && MayFind(ns, th) && Under(ns, th.curr, th.key)
    requires IsRef(ns, th.pred) && Lt(ns, th.pred, th.curr)
    ensures StepsLeft(ns, FindMove(ns, th, now)) < StepsLeft(ns, th)
  {
    var th' := FindMove(ns, th, now);
    FewerBehind(ns, th.pred, th.curr, |ns|);
    if Clean(ns, th) {
      NextHangs(ns, now, th.pred, th.level);
      forall l | th.level + 1 <= l <= MAX_LEVEL ensures SlotClean(ns, th', l) {
        assert SlotClean(ns, th, l);
      }
    }
    hide HeapOk, Behind, Again, AfterLeft;
  }

  lemma FilledClean(ns: seq<Node>, th: Thread)
    requires th.pc == Scan && Clean(ns, th) && |th.preds| == |th.succs| == MAX_LEVEL + 1 && 0 <= th.level <= MAX_LEVEL
    ensures SlotsClean(ns, Filled(th), th.level)
  {
    forall l | th.level <= l <= MAX_LEVEL ensures SlotClean(ns, Filled(th), l) {
      assert l > th.level ==> SlotClean(ns, th, l);
    }
  }

  lemma DownNears(ns: seq<Node>, now: nat, th: Thread)
    requires HeapOk(ns, now) && th.pc == Scan && MayFind(ns, th) && !Under(ns, th.curr, th.key) && th.level > 0
    requires |th.preds| == |th.succs| == MAX_LEVEL + 1
    ensures StepsLeft(ns, FindMove(ns, th, now)) < StepsLeft(ns, th)
  {
    var th' := FindMove(ns, th, now);
    if Clean(ns, th) {
      HangsBelow(ns, now, th.pred, th.level);
      FilledClean(ns, th);
      forall l | th.level <= l <= MAX_LEVEL ensures SlotClean(ns, th', l) {
        assert SlotClean(ns, Filled(th), l);
      }
    }
    hide HeapOk, Way, Again, AfterLeft;
  }

  lemma FoundWalk(ns: seq<Node>, now: nat, th: Thread)
    requires th.pc == Scan && MayFind(ns, th) && !Under(ns, th.curr, th.key) && th.level == 0 && th.top <= MAX_LEVEL
    ensures Walk(ns, FindMove(ns, th, now)) < Walk(ns, th)
  {
    hide Way, SpliceLeft;
  }

  lemma FoundClean(ns: seq<Node>, now: nat, th: Thread)
    requires HeapOk(ns, now) && th.pc == Scan && MayFind(ns, th) && !Under(ns, th.curr, th.key) && th.level == 0
    requires |th.preds| == |th.succs| == MAX_LEVEL + 1 && Settled(ns, th) && IsRef(ns, th.pred) && Lt(ns, th.pred, th.curr)
    requires Clean(ns, th)
    ensures Clean(ns, FindMove(ns, th, now))
  {
    var th', th1 := FindMove(ns, th, now), Filled(th);
    NextHangs(ns, now, th.pred, 0);
    assert !ns[th.curr].marked;
    FilledClean(ns, th);
    assert th' == AfterFind(ns, th1) && th1.succs[0] == th.curr;
    hide HeapOk, Settled, FindMove, Filled, MayFind;
    if th'.pc == Lock {
      forall l | 0 <= l <= MAX_LEVEL ensures SlotClean(ns, th', l) {
        assert SlotClean(ns, th1, l);
      }
    }
  }

  lemma FoundNears(ns: seq<Node>, now: nat, th: Thread)
    requires HeapOk(ns, now) && th.pc == Scan && MayFind(ns, th) && !Under(ns, th.curr, th.key) && th.level == 0
    requires |th.preds| == |th.succs| == MAX_LEVEL + 1 && th.top <= MAX_LEVEL && Settled(ns, th) && IsRef(ns, th.pred) && Lt(ns, th.pred, th.curr)
    ensures StepsLeft(ns, FindMove(ns, th, now)) < StepsLeft(ns, th)
  {
    FoundWalk(ns, now, th);
    if Clean(ns, th) { FoundClean(ns, now, th); }
    hide HeapOk, Settled, FindMove, Walk, Clean, Again;
  }

  lemma FindNears(ns: seq<Node>, effects: seq<Effect>, t: nat, th: Thread)
    requires HeapOk(ns, |effects|) && SkipListProof.ThreadOk(ns, effects, t, th) && PhaseOf(th.pc) == Finding && MayFind(ns, th) && Settled(ns, th)
    ensures StepsLeft(ns, FindMove(ns, th, |effects|)) < StepsLeft(ns, th)
  {
    var now := |effects|;
    assert th.pc == Scan ==> IsRef(ns, th.pred) && IsRef(ns, th.curr) && Lt(ns, th.pred, th.curr);
    hide HeapOk, StepsLeft, FindMove, Settled, FindingOk, LookingOk, AddingOk, RemovingOk, EndingOk;
    if th.pc == Descend {
      DescendNears(ns, now, th);
    } else if Under(ns, th.curr, th.key) {
      AdvanceNears(ns, now, th);
    } else if th.level > 0 {
      DownNears(ns, now, th);
    } else {
      FoundNears(ns, now, th);
    }
  }

  // ---------------------------------------------------------------- the other reads of an operation

  lemma SawNears(ns: seq<Node>, now: nat, th: Thread)
    requires HeapOk(ns, now) && th.pc == SawNode && MayLook(ns, th)
    ensures StepsLeft(ns, LookMove(ns, th, now)) < StepsLeft(ns, th)
  {
    FreshClean(ns, now, th);
    hide HeapOk, SearchLeft;
  }

  lemma LookNears(ns: seq<Node>, effects: seq<Effect>, t: nat, th: Thread)
    requires HeapOk(ns, |effects|) && LookingOk(ns, effects, t, th) && Settled(ns, th)
    requires PhaseOf(th.pc) == Looking && th.pc !in {LockVictim, Mark} && MayLook(ns, th)
    ensures StepsLeft(ns, LookMove(ns, th, |effects|)) < StepsLeft(ns, th)
  {
    hide StepsLeft, SpliceLeft, Again;
    assert IsData(ns, th.found) && ns[th.found].full;
    if th.pc == SawNode {
      SawNears(ns, |effects|, th);
    } else {
      LeftAt(ns, th);
      LeftAt(ns, LookMove(ns, th, |effects|));
    }
    hide HeapOk, Settled, LookingOk, LastOn;
  }

  lemma CheckWalk(ns: seq<Node>, th: Thread)
    requires th.pc in {CheckPred, CheckSucc, CheckNext} && MayAdd(ns, th) && th.top <= MAX_LEVEL
    ensures var th' := CheckMove(ns, th);
      if th'.pc == Unlock then Walk(ns, th') < Walk(ns, th) + Again(|ns|) else Walk(ns, th') < Walk(ns, th)
  {
    hide SearchLeft;
  }

  lemma CheckSlot(ns: seq<Node>, effects: seq<Effect>, t: nat, th: Thread)
    requires AddingOk(ns, effects, t, th) && th.pc in {CheckPred, CheckSucc, CheckNext} && MayAdd(ns, th)
    ensures th.preds[th.level] != TAIL
  {
    assert SlotOk(ns, th, th.level);
  }

  /** With nothing stale the validation succeeds, and goes on with nothing stale. */
  lemma CheckPasses(ns: seq<Node>, now: int, th: Thread)
    requires HeapOk(ns, now) && Settled(ns, th) && !HasVictim(th) && Clean(ns, th)
    requires th.pc in {CheckPred, CheckSucc, CheckNext} && MayAdd(ns, th) && th.preds[th.level] != TAIL && th.level <= MAX_LEVEL
    ensures CheckMove(ns, th).pc != Unlock && Clean(ns, CheckMove(ns, th))
  {
    var l, th' := th.level, CheckMove(ns, th);
    assert SlotClean(ns, th, l);
    NextHangs(ns, now, th.preds[l], l);
    assert !ns[th.preds[l]].marked && !ns[th.succs[l]].marked;
    assert th'.preds == th.preds && th'.succs == th.succs && (th'.pc != Link ==> th.level <= th'.level);
    assert th'.pc in {CheckSucc, CheckNext, Lock, Link};
    hide HeapOk, Settled, CheckMove, MayAdd;
    forall m | th'.level <= m <= MAX_LEVEL ensures th'.pc != Link ==> SlotClean(ns, th', m) {
      if th.level <= m { assert SlotClean(ns, th, m); }
    }
  }

  lemma CheckNears(ns: seq<Node>, effects: seq<Effect>, t: nat, th: Thread)
    requires HeapOk(ns, |effects|) && AddingOk(ns, effects, t, th) && Settled(ns, th)
    requires th.pc in {CheckPred, CheckSucc, CheckNext} && MayAdd(ns, th) && th.top <= MAX_LEVEL
    ensures StepsLeft(ns, CheckMove(ns, th)) < StepsLeft(ns, th)
  {
    hide Walk, Again;
    CheckWalk(ns, th);
    CheckSlot(ns, effects, t, th);
    if Clean(ns, th) { CheckPasses(ns, |effects|, th); }
    assert CheckMove(ns, th).pc == Unlock ==> Clean(ns, CheckMove(ns, th));
    hide HeapOk, AddingOk, Settled, CheckMove, Clean;
  }

  // ---------------------------------------------------------------- steps that write

  lemma LockKeepsSlots(ns: seq<Node>, r: int, holder: int, th: Thread, th': Thread)
    requires IsRef(ns, r) && th'.preds == th.preds && th'.succs == th.succs
    ensures forall l {:trigger SlotClean(WithLock(ns, r, holder), th', l)} :: SlotClean(WithLock(ns, r, holder), th', l) <==> SlotClean(ns, th, l)
  {
  }

  lemma LockNears(s: State, t: nat)
    requires Enabled(s, t) && s.threads[t].pc == Lock
    ensures var s' := Step(s, t); t < |s'.threads| && StepsLeft(s'.nodes, s'.threads[t]) < StepsLeft(s.nodes, s.threads[t])
  {
    var th, s' := s.threads[t], Step(s, t);
    var th' := s'.threads[t];
    assert th' == th.(pc := CheckPred);
    if Leads(th) { LockKeepsSlots(s.nodes, th.preds[th.level], t, th, th'); }
    assert Clean(s.nodes, th) ==> Clean(s'.nodes, th') by {
      if Clean(s.nodes, th) {
        forall l | th.level <= l <= MAX_LEVEL ensures SlotClean(s'.nodes, th', l) {
          assert SlotClean(s.nodes, th, l);
          SlotSame(s.nodes, th, th', l);
        }
      }
    }
    assert |s'.nodes| == |s.nodes|;
    hide Step, Enabled, Again, Clean;
  }

  lemma SlotSame(ns: seq<Node>, th: Thread, th': Thread, l: int)
    requires th'.preds == th.preds && th'.succs == th.succs
    ensures SlotClean(ns, th, l) <==> SlotClean(ns, th', l)
  {
  }

  lemma LinkNears(s: State, t: nat)
    requires Enabled(s, t) && s.threads[t].pc in {Link, Publish} && s.threads[t].top <= MAX_LEVEL
    ensures var s' := Step(s, t); t < |s'.threads| && StepsLeft(s'.nodes, s'.threads[t]) < StepsLeft(s.nodes, s.threads[t])
  {
    hide StepsLeft, LinkNodes, PublishNodes;
    var th, s' := s.threads[t], Step(s, t);
    var th' := s'.threads[t];
    assert th.pc == Link && th'.pc == Link ==> th'.level == th.level + 1 && th'.top == th.top;
    assert th.pc == Link && th'.pc != Link ==> th'.pc == Publish;
    assert th.pc == Publish ==> th'.pc == Unlock && th'.ok && th'.level == th.top;
    assert th.pc == Link ==> 0 <= th.level <= th.top;
    hide Step, Enabled;
    LinkLeft(s.nodes, th);
    LinkLeft(s'.nodes, th');
  }

  lemma LinkLeft(ns: seq<Node>, th: Thread)
    requires th.pc in {Link, Publish} || (th.pc == Unlock && th.ok)
    ensures StepsLeft(ns, th) == if th.pc == Link then 37 + th.top - th.level else if th.pc == Publish then 36 else th.level + 2
  {
    hide SpliceLeft, Way, Again, AfterLeft, SearchLeft, PredClean, SlotsClean, Hangs;
  }

  lemma UnlockNears(s: State, t: nat)
    requires Enabled(s, t) && s.threads[t].pc == Unlock && HeapOk(Step(s, t).nodes, Now(s) + 1)
    ensures var s' := Step(s, t); t < |s'.threads| && StepsLeft(s'.nodes, s'.threads[t]) < StepsLeft(s.nodes, s.threads[t])
  {
    var th, s' := s.threads[t], Step(s, t);
    assert s'.threads[t] == UnlockMove(th) && |s'.nodes| == |s.nodes|;
    if th.level == 0 && !th.ok { FreshClean(s'.nodes, Now(s) + 1, th); }
    hide Step, Enabled, HeapOk, SearchLeft, Hangs, SlotsClean;
  }

  lemma AddNears(s: State, t: nat)
    requires Enabled(s, t) && PhaseOf(s.threads[t].pc) == Adding && Inv(s) && Settled(s.nodes, s.threads[t])
    requires HeapOk(Step(s, t).nodes, Now(s) + 1)
    ensures var s' := Step(s, t); t < |s'.threads| && StepsLeft(s'.nodes, s'.threads[t]) < StepsLeft(s.nodes, s.threads[t])
  {
    var th := s.threads[t];
    InvThread(s, t);
    if th.pc in {CheckPred, CheckSucc, CheckNext} {
      hide Inv, HeapOk, Settled, StepsLeft, CheckMove, AddingOk;
      CheckNears(s.nodes, s.effects, t, th);
      assert Step(s, t) == Local(s, t, CheckMove(s.nodes, th));
    } else {
      assert th.top <= MAX_LEVEL;
      hide Inv, HeapOk, Settled, StepsLeft, Step, Enabled, SkipListProof.ThreadOk;
      if th.pc == Lock { LockNears(s, t); } else if th.pc == Unlock { UnlockNears(s, t); } else { LinkNears(s, t); }
    }
  }

  lemma LookStepNears(s: State, t: nat)
    requires Enabled(s, t) && PhaseOf(s.threads[t].pc) == Looking && HeapOk(s.nodes, Now(s))
    requires LookingOk(s.nodes, s.effects, t, s.threads[t]) && Settled(s.nodes, s.threads[t])
    ensures var s' := Step(s, t); t < |s'.threads| && StepsLeft(s'.nodes, s'.threads[t]) < StepsLeft(s.nodes, s.threads[t])
  {
    hide StepsLeft, SpliceLeft, Again;
    var th, s' := s.threads[t], Step(s, t);
    LookStepIs(s, t);
    hide Step, Enabled, HeapOk, Settled, LookingOk, LookMove;
    if th.pc in {LockVictim, Mark} {
      assert |s'.nodes| == |s.nodes|;
      LeftAt(s.nodes, th);
      LeftAt(s'.nodes, s'.threads[t]);
    } else {
      LookNears(s.nodes, s.effects, t, th);
    }
  }

  // ---------------------------------------------------------------- splicing

  lemma StartNears(ns: seq<Node>, now: nat, th: Thread)
    requires HeapOk(ns, now) && th.pc == SpliceStart && MayRemove(ns, th) && IsData(ns, th.found) && th.level <= MAX_LEVEL
    ensures StepsLeft(ns, SpliceMove(ns, th)) < StepsLeft(ns, th)
  {
    HeadHangs(ns, now, th.level);
    hide HeapOk, Way, SearchLeft, AfterLeft;
  }

  lemma PassMoves(ns: seq<Node>, th: Thread)
    requires th.pc == SpliceScan && MayRemove(ns, th) && th.curr != th.found && Under(ns, th.curr, th.key)
    ensures IsRef(ns, th.curr) && SpliceMove(ns, th) == th.(pred := th.curr, curr := Nxt(ns[th.curr], th.level))
  {
  }

  lemma ScanLeft(ns: seq<Node>, th: Thread)
    requires th.pc == SpliceScan
    ensures StepsLeft(ns, th) == SpliceLeft(th.level - 1, |ns|) + Way(ns, th.curr) + 7
      + (if PredClean(ns, th, th.curr) && th.pred != th.found then 0 else Again(|ns|))
  {
    hide SpliceLeft, Way, Again, PredClean;
  }

  /** The walk to the victim goes on to a later node. */
  lemma PassNears(ns: seq<Node>, now: nat, th: Thread)
    requires HeapOk(ns, now) && th.pc == SpliceScan && MayRemove(ns, th) && 0 <= Ins(ns[th.curr], th.level)
    requires th.curr != th.found && Under(ns, th.curr, th.key) && th.pred != TAIL
    ensures StepsLeft(ns, SpliceMove(ns, th)) < StepsLeft(ns, th)
  {
    hide StepsLeft, SpliceLeft, Again;
    PassMoves(ns, th);
    ScanLeft(ns, th);
    ScanLeft(ns, SpliceMove(ns, th));
    assert LinkOk(ns, th.curr, th.level, now);
    FewerBehind(ns, th.curr, Nxt(ns[th.curr], th.level), |ns|);
    hide SpliceMove, MayRemove;
    if PredClean(ns, th, th.curr) { NextHangs(ns, now, th.pred, th.level); }
    hide HeapOk, Behind;
  }

  lemma ReachNears(ns: seq<Node>, th: Thread)
    requires th.pc == SpliceScan && MayRemove(ns, th) && !(th.curr != th.found && Under(ns, th.curr, th.key))
    ensures StepsLeft(ns, SpliceMove(ns, th)) < StepsLeft(ns, th)
  {
    hide Way, Again, SpliceLeft;
    SpliceUnfolds(th.level, |ns|);
  }

  lemma SpliceUnfolds(l: int, n: nat)
    ensures SpliceLeft(l, n) == if l < 0 then 2 else SpliceLeft(l - 1, n) + n + 8
  {
  }

  lemma AgainCovers(n: nat)
    ensures Again(n) >= n + 40
  {
  }

  lemma MarkNears(ns: seq<Node>, th: Thread)
    requires th.pc == SpliceMark && MayRemove(ns, th) && Settled(ns, th) && 0 <= th.level
    ensures StepsLeft(ns, SpliceMove(ns, th)) < StepsLeft(ns, th)
  {
    hide StepsLeft, SpliceLeft, Again;
    var th' := SpliceMove(ns, th);
    SpliceUnfolds(th.level, |ns|);
    AgainCovers(|ns|);
    LeftAtPred(ns, th);
    if th'.pc == SpliceNext { LeftAtPred(ns, th'); } else { LeftAt(ns, th'); }
    assert Hangs(ns, th.pred, th.level) && th.pred != th.found ==> !ns[th.pred].marked;
    hide Settled;
  }

  lemma ValidMoves(ns: seq<Node>, th: Thread)
    requires th.pc in {SpliceNext, SpliceLoad} && MayRemove(ns, th)
    ensures var th' := SpliceMove(ns, th);
      th'.level == th.level && th'.pc == if th.pc == SpliceLoad then SpliceStore else if ns[th.pred].next[th.level] != th.found then SpliceUnlock else SpliceLoad
    ensures SpliceMove(ns, th).pc == SpliceUnlock ==> !SpliceMove(ns, th).ok && !PredClean(ns, th, th.found)
  {
  }

  lemma LoadLeft(ns: seq<Node>, th: Thread)
    requires th.pc in {SpliceLoad, SpliceStore}
    ensures StepsLeft(ns, th) == SpliceLeft(th.level - 1, |ns|) + if th.pc == SpliceLoad then 3 else 2
  {
    hide SpliceLeft, Way, Again, AfterLeft, SearchLeft;
  }

  lemma FailedLeft(ns: seq<Node>, th: Thread)
    requires th.pc == SpliceUnlock && !th.ok && 0 <= th.level
    ensures StepsLeft(ns, th) == SpliceLeft(th.level - 1, |ns|) + |ns| + 9
  {
    hide Way, Again, AfterLeft, SearchLeft;
  }

  lemma NextNears(ns: seq<Node>, th: Thread)
    requires th.pc == SpliceNext && MayRemove(ns, th) && 0 <= th.level
    ensures StepsLeft(ns, SpliceMove(ns, th)) < StepsLeft(ns, th)
  {
    hide StepsLeft, SpliceLeft, Again;
    ValidMoves(ns, th);
    hide SpliceMove, MayRemove, PredClean;
    var th' := SpliceMove(ns, th);
    LeftAtPred(ns, th);
    if th'.pc == SpliceLoad {
      LoadLeft(ns, th');
    } else {
      AgainCovers(|ns|);
      FailedLeft(ns, th');
    }
  }

  lemma LoadNears(ns: seq<Node>, th: Thread)
    requires th.pc == SpliceLoad && MayRemove(ns, th)
    ensures StepsLeft(ns, SpliceMove(ns, th)) < StepsLeft(ns, th)
  {
    hide StepsLeft, SpliceLeft;
    ValidMoves(ns, th);
    hide SpliceMove, MayRemove, PredClean;
    LoadLeft(ns, th);
    LoadLeft(ns, SpliceMove(ns, th));
  }

  lemma SpliceNears(ns: seq<Node>, effects: seq<Effect>, t: nat, th: Thread)
    requires HeapOk(ns, |effects|) && RemovingOk(ns, effects, t, th) && Settled(ns, th) && MayRemove(ns, th) && PhaseOf(th.pc) == Removing
    requires th.pc !in {SpliceLock, SpliceStore}
    ensures StepsLeft(ns, SpliceMove(ns, th)) < StepsLeft(ns, th)
  {
    assert IsData(ns, th.found) && 0 <= th.level && NodeOk(ns[th.found], |effects|);
    assert th.level <= MAX_LEVEL && (th.pc != SpliceStart ==> th.pred != TAIL);
    assert th.pc == SpliceScan ==> 0 <= Ins(ns[th.curr], th.level);
    hide HeapOk, RemovingOk, Settled, MayRemove, StepsLeft, SpliceMove;
    if th.pc == SpliceStart {
      StartNears(ns, |effects|, th);
    } else if th.pc == SpliceScan {
      if th.curr != th.found && Under(ns, th.curr, th.key) { PassNears(ns, |effects|, th); } else { ReachNears(ns, th); }
    } else if th.pc == SpliceMark {
      MarkNears(ns, th);
    } else if th.pc == SpliceNext {
      NextNears(ns, th);
    } else {
      LoadNears(ns, th);
    }
  }

  lemma SpliceLockNears(s: State, t: nat)
    requires Enabled(s, t) && s.threads[t].pc == SpliceLock
    ensures var s' := Step(s, t); t < |s'.threads| && StepsLeft(s'.nodes, s'.threads[t]) < StepsLeft(s.nodes, s.threads[t])
  {
    hide StepsLeft, SpliceLeft, Again;
    RemoveStepIs(s, t);
    var th, s' := s.threads[t], Step(s, t);
    assert |s'.nodes| == |s.nodes| && s'.threads[t] == th.(pc := SpliceMark);
    assert PredClean(s'.nodes, s'.threads[t], th.found) <==> PredClean(s.nodes, th, th.found);
    LeftAtPred(s.nodes, th);
    LeftAtPred(s'.nodes, s'.threads[t]);
    hide Step, Enabled, MayRemove, PredClean;
  }

  lemma SpliceStoreNears(s: State, t: nat)
    requires Enabled(s, t) && s.threads[t].pc == SpliceStore
    ensures var s' := Step(s, t); t < |s'.threads| && StepsLeft(s'.nodes, s'.threads[t]) < StepsLeft(s.nodes, s.threads[t])
  {
    hide StepsLeft, SpliceLeft;
    var th, s' := s.threads[t], Step(s, t);
    StoreMoves(s, t);
    hide Step, Enabled;
    LeftAt(s.nodes, th);
    LeftAt(s'.nodes, s'.threads[t]);
  }

  lemma StoreMoves(s: State, t: nat)
    requires Enabled(s, t) && s.threads[t].pc == SpliceStore
    ensures var s' := Step(s, t); t < |s'.threads| && |s'.nodes| == |s.nodes| && s'.threads[t] == s.threads[t].(pc := SpliceUnlock, ok := true)
  {
    RemoveStepIs(s, t);
    hide Step, Enabled, MayRemove;
  }

  lemma EndNears(s: State, t: nat)
    requires Enabled(s, t) && PhaseOf(s.threads[t].pc) == Ending && HeapOk(s.nodes, Now(s))
    ensures var s' := Step(s, t); t < |s'.threads| && StepsLeft(s'.nodes, s'.threads[t]) < StepsLeft(s.nodes, s.threads[t])
  {
    hide StepsLeft, SpliceLeft;
    var th, n, s' := s.threads[t], |s.nodes|, Step(s, t);
    if th.pc == UnlockVictim {
      assert NodeOk(s.nodes[th.found], Now(s));
      SpliceLeftGrows(s.nodes[th.found].top, MAX_LEVEL, n);
    }
    EndStepIs(s, t);
    LeftAt(s.nodes, th);
    LeftAt(s'.nodes, s'.threads[t]);
    hide Step, Enabled, HeapOk;
  }

  lemma EndStepIs(s: State, t: nat)
    requires Enabled(s, t) && PhaseOf(s.threads[t].pc) == Ending
    ensures var th, s' := s.threads[t], Step(s, t);
      && |s'.nodes| == |s.nodes| && t < |s'.threads|
      && (th.pc == UnlockVictim ==> IsRef(s.nodes, th.found))
      && (th.pc == UnlockVictim ==>
            s'.threads[t] == if th.ok then th.(pc := SpliceStart, level := s.nodes[th.found].top) else th.(pc := PC.Return))
      && (th.pc == SpliceUnlock ==> s'.threads[t] == if th.ok then NextLevelDown(th) else th.(pc := SpliceStart))
      && (th.pc == Retire ==> s'.threads[t] == th.(pc := PC.Return))
      && (th.pc == PC.Return ==> s'.threads[t] == th.(pc := Idle))
  {
  }

  // ---------------------------------------------------------------- alone

  lemma StepNears(s: State, t: nat)
    requires Ready(s, t) && Enabled(s, t)
    ensures var s' := Step(s, t); t < |s'.threads| && StepsLeft(s'.nodes, s'.threads[t]) < StepsLeft(s.nodes, s.threads[t])
  {
    ReadySettled(s, t);
    InvThread(s, t);
    StepOk(s, t);
    StepMoves(s, t);
    assert HeapOk(Step(s, t).nodes, Now(s) + 1) by { SteppedHeap(s, t); }
    var th := s.threads[t];
    hide Ready, Inv, HeapOk, Settled, StepsLeft, Evolves, FindMove, SpliceMove, FindingOk, LookingOk, AddingOk, RemovingOk, EndingOk;
    if PhaseOf(th.pc) == Finding {
      FindNears(s.nodes, s.effects, t, th);
      assert Step(s, t) == Local(s, t, FindMove(s.nodes, th, Now(s)));
    } else if PhaseOf(th.pc) == Looking {
      hide Step, Enabled;
      LookStepNears(s, t);
    } else if PhaseOf(th.pc) == Adding {
      hide Step, Enabled;
      AddNears(s, t);
    } else if PhaseOf(th.pc) == Ending {
      hide Step, Enabled;
      EndNears(s, t);
    } else {
      hide Step, Enabled;
      RemoveStepIs(s, t);
      if th.pc in {SpliceLock, SpliceStore} {
        if th.pc == SpliceLock { SpliceLockNears(s, t); } else { SpliceStoreNears(s, t); }
      } else {
        SpliceNears(s.nodes, s.effects, t, th);
      }
    }
  }

  lemma SteppedHeap(s: State, t: nat)
    requires Inv(s) && Enabled(s, t)
    ensures HeapOk(Step(s, t).nodes, Now(s) + 1)
  {
    StepOk(s, t);
    StepLogs(s, t);
    hide Step, Enabled, HeapOk;
  }

  /** With no other operation unfinished nobody holds a lock against the thread. */
  lemma NeverStuck(s: State, t: nat)
    requires Ready(s, t) && s.threads[t].pc != Idle
    ensures Enabled(s, t)
  {
    ReadyOrBlocked(s, t);
    if !Enabled(s, t) {
      var u := Holder(s, t);
      assert Holds(s.threads[u], Awaited(s.threads[t]));
      HoldsIs(s.threads[u]);
      assert u == t;
      hide Inv, LocksOk, Holds, Enabled, MakersOk, AllKept;
      BlockedDescends(s, t, t, t);
    }
  }

  lemma StepReady(s: State, t: nat)
    requires Ready(s, t) && Enabled(s, t)
    ensures Ready(Step(s, t), t)
  {
    StepOk(s, t);
    StepMoves(s, t);
    hide Inv, LocksOk, MakersOk, AllKept, Step, Enabled, Evolves;
    StepLocks(s, t);
    StepMakers(s, t);
    StepRetires(s, t);
    RetiresKeeps(s, t, Step(s, t));
  }

  /** Thread `t` takes `n` steps while all others rest. */
  function Alone(s: State, t: nat, n: nat): State
    decreases n
  {
    if n == 0 then s else if Enabled(s, t) then Alone(Step(s, t), t, n - 1) else s
  }

  lemma LeftPositive(s: State, t: nat)
    requires Ready(s, t) && s.threads[t].pc != Idle
    ensures StepsLeft(s.nodes, s.threads[t]) >= 0
  {
    InvThread(s, t);
    LevelFits(s.nodes, s.effects, t, s.threads[t]);
    hide Inv, SkipListProof.ThreadOk, Ready, SpliceLeft, Way, SearchLeft, AfterLeft, Clean, Again;
  }

  lemma LevelFits(ns: seq<Node>, effects: seq<Effect>, t: nat, th: Thread)
    requires SkipListProof.ThreadOk(ns, effects, t, th) && th.pc != Idle
    ensures th.pc in {Descend, Scan} ==> 0 <= th.level
    ensures PhaseOf(th.pc) == Adding ==> 0 <= th.level <= th.top
  {
  }

  ghost function Steps(s: State, t: nat): nat
    requires t < |s.threads|
  {
    if StepsLeft(s.nodes, s.threads[t]) < 0 then 0 else StepsLeft(s.nodes, s.threads[t])
  }

  lemma AloneNears(s: State, t: nat)
    requires t < |s.threads| && Ready(s, t) && s.threads[t].pc != Idle
    ensures Enabled(s, t) && t < |Step(s, t).threads| && Ready(Step(s, t), t) && Steps(Step(s, t), t) < Steps(s, t)
  {
    hide Ready, Step, StepsLeft, Enabled;
    NeverStuck(s, t);
    LeftPositive(s, t);
    StepNears(s, t);
    StepReady(s, t);
    var s' := Step(s, t);
    if s'.threads[t].pc == Idle { LeftAt(s'.nodes, s'.threads[t]); } else { LeftPositive(s', t); }
  }

  lemma {:induction false} AloneEnds(s: State, t: nat) returns (n: nat)
    requires t < |s.threads| && Ready(s, t)
    ensures n <= Steps(s, t)
    ensures var end := Alone(s, t, n); t < |end.threads| && end.threads[t].pc == Idle
    decreases Steps(s, t)
  {
    hide Ready, Step, Steps, Enabled;
    if s.threads[t].pc == Idle {
      n := 0;
    } else {
      AloneNears(s, t);
      var m := AloneEnds(Step(s, t), t);
      n := m + 1;
    }
  }

  /** With no other operation unfinished, the operation of thread `t`, running alone from any state of any run,
      returns within a number of steps told by that state. */
  lemma AloneReturns(run: seq<State>, i: nat, t: nat) returns (n: nat)
    requires Run(run) && i < |run| && OthersIdle(run[i], t)
    ensures n <= Steps(run[i], t)
    ensures var end := Alone(run[i], t, n); t < |end.threads| && end.threads[t].pc == Idle
  {
    RunMakers(run, i);
    RunKept(run, i);
    hide Run, Sound, AllKept, Steps;
    n := AloneEnds(run[i], t);
  }
}

/** The lazy skip list (include/concurrent_skip_list.hpp) as a step machine: any number of threads, one
    atomic load, store or lock operation a step, sequentially consistent memory.

    A node enters the heap at the store that links it at level 0 (before that only its maker can see
    it) and addresses are never reused. `maker`, `eraser`, `ins`, `outs`, `lin` and `died` are history,
    read by no step: who made and who marked the node, for each level the first and the last state in
    which the node hangs on that level's chain, the first state in which it is fully linked and the
    last in which it is unmarked; -1 stands for "not yet". States are numbered by the steps before
    them. */
module SkipList {
  import opened SetHistory
  import opened Lifetimes

  const MAX_LEVEL: nat := 32
  const HEAD: int := 0
  const TAIL: int := 1
  const FREE: int := -1  // no thread holds the lock
  const NONE: int := -1  // null

  datatype Node = Node(
    key: int, top: nat, next: seq<int>, marked: bool, full: bool, lock: int,
    maker: int, eraser: int, ins: seq<int>, outs: seq<int>, lin: int, died: int)

  datatype PC =
    | Idle
    | Descend      // find: about to load pred's next pointer at this level
    | Scan         // find: about to advance past curr or to go down
    | SawNode      // insert: found an equal node, about to load its mark
    | Wait         // insert: waiting for the equal node to be fully linked
    | Lock         // insert: about to lock the predecessor at this level
    | CheckPred    // insert: about to load the predecessor's mark
    | CheckSucc    // insert: about to load the successor's mark
    | CheckNext    // insert: about to load the predecessor's next pointer
    | Link         // insert: about to link the new node at this level
    | Publish      // insert: about to set fully_linked
    | Unlock       // insert: about to unlock the predecessor at this level
    | LoadFull     // erase: about to load the victim's fully_linked
    | LoadMark     // erase: about to load the victim's mark
    | LockVictim   // erase: about to lock the victim
    | Recheck      // erase: about to load the mark again
    | Mark         // erase: about to mark the victim
    | UnlockVictim // erase: about to unlock the victim
    | SpliceStart  // erase: about to load head's next pointer at this level
    | SpliceScan   // erase: about to advance past curr
    | SpliceLock   // erase: about to lock pred
    | SpliceMark   // erase: about to load pred's mark
    | SpliceNext   // erase: about to load pred's next pointer
    | SpliceLoad   // erase: about to load the victim's next pointer
    | SpliceStore  // erase: about to unlink the victim at this level
    | SpliceUnlock // erase: about to unlock pred
    | Retire       // erase: about to hand the victim to the epoch domain
    | SeeFull      // contains: about to load fully_linked
    | SeeMark      // contains: about to load the mark
    | Return

  /** The parts of the code a thread can be in. */
  datatype Phase = Finding | Looking | Adding | Removing | Ending

  function PhaseOf(pc: PC): Phase {
    match pc
    case Idle | Descend | Scan => Finding
    case SawNode | Wait | LoadFull | LoadMark | LockVictim | Recheck | Mark | SeeFull | SeeMark => Looking
    case Lock | CheckPred | CheckSucc | CheckNext | Link | Publish | Unlock => Adding
    case SpliceStart | SpliceScan | SpliceLock | SpliceMark | SpliceNext | SpliceLoad | SpliceStore => Removing
    case UnlockVictim | SpliceUnlock | Retire | Return => Ending
  }

  /** One thread: its operation and the locals of the code; `found` is the node `find` returned, the
      victim of an erase; `ok` is whether the level being left succeeded; `start` and `point` are
      history: the state in which the operation began and the state that justifies its answer. */
  datatype Thread = Thread(
    pc: PC, op: Op, key: int, top: nat, level: int, pred: int, curr: int,
    preds: seq<int>, succs: seq<int>, own: int, found: int, load: int, ok: bool, result: bool,
    start: nat, point: nat)

  datatype State = State(
    nodes: seq<Node>, threads: seq<Thread>, retired: multiset<int>,
    effects: seq<Effect>, done: seq<Record>)

  /** A node is present in the set from the moment it is fully linked until it is marked. */
  function LifeOf(n: Node): Life { Life(n.key, n.lin, n.died) }

  function Lives(ns: seq<Node>): (ls: seq<Life>)
    ensures |ls| == |ns| && forall r {:trigger ls[r]} :: 0 <= r < |ns| ==> ls[r] == LifeOf(ns[r])
  {
    seq(|ns|, r requires 0 <= r < |ns| => LifeOf(ns[r]))
  }

  function Now(s: State): nat { |s.effects| }

  function Levels(n: nat, x: int): (s: seq<int>)
    ensures |s| == n && forall i :: 0 <= i < n ==> s[i] == x
  {
    seq(n, i => x)
  }

  const SENTINELS: seq<Node> := [
    Node(0, MAX_LEVEL, Levels(MAX_LEVEL + 1, TAIL), false, false, FREE, NONE, NONE,
         Levels(MAX_LEVEL + 1, 0), Levels(MAX_LEVEL + 1, -1), -1, -1),
    Node(0, MAX_LEVEL, Levels(MAX_LEVEL + 1, NONE), false, false, FREE, NONE, NONE,
         Levels(MAX_LEVEL + 1, 0), Levels(MAX_LEVEL + 1, -1), -1, -1)]

  ghost predicate Init(s: State) {
    && s.nodes == SENTINELS
    && (forall t :: 0 <= t < |s.threads| ==> s.threads[t].pc == Idle)
    && s.retired == multiset{} && s.effects == [] && s.done == []
  }

  // ---------------------------------------------------------------- heap writes

  predicate IsRef(ns: seq<Node>, r: int) { 0 <= r < |ns| }

  predicate HasLevel(ns: seq<Node>, r: int, l: int) {
    IsRef(ns, r) && 0 <= l < |ns[r].next| && l < |ns[r].ins| && l < |ns[r].outs|
  }

  function WithLock(ns: seq<Node>, r: int, holder: int): seq<Node>
    requires IsRef(ns, r)
  {
    ns[r := ns[r].(lock := holder)]
  }

  function WithNext(ns: seq<Node>, r: int, l: int, q: int): seq<Node>
    requires HasLevel(ns, r, l)
  {
    ns[r := ns[r].(next := ns[r].next[l := q])]
  }

  /** The last state in which a node that was linked at level `l` is on that level's chain. */
  function LastOn(n: Node, l: int, now: nat): nat
    requires 0 <= l < |n.outs|
  {
    if n.outs[l] < 0 then now else n.outs[l]
  }

  function NewNode(th: Thread, t: nat, now: nat): Node
    requires th.top < |th.succs|
  {
    Node(th.key, th.top, th.succs[..th.top + 1], false, false, FREE, t, NONE,
         Levels(th.top + 1, -1)[0 := now + 1], Levels(th.top + 1, -1), -1, -1)
  }

  function LinkNodes(ns: seq<Node>, th: Thread, t: nat, now: nat): seq<Node>
    requires 0 <= th.level < |th.preds| && th.top < |th.succs|
    requires HasLevel(ns, th.preds[th.level], th.level)
    requires th.level > 0 ==> HasLevel(ns, th.own, th.level)
  {
    if th.level == 0 then
      WithNext(ns, th.preds[0], 0, |ns|) + [NewNode(th, t, now)]
    else
      var ns1 := WithNext(ns, th.preds[th.level], th.level, th.own);
      ns1[th.own := ns1[th.own].(ins := ns1[th.own].ins[th.level := now + 1])]
  }

  function SpliceNodes(ns: seq<Node>, pred: int, victim: int, l: int, q: int, now: nat): seq<Node>
    requires HasLevel(ns, pred, l) && HasLevel(ns, victim, l)
  {
    var ns1 := WithNext(ns, pred, l, q);
    ns1[victim := ns1[victim].(outs := ns1[victim].outs[l := now])]
  }

  // ---------------------------------------------------------------- steps

  function Go(s: State, t: nat, th: Thread, ns: seq<Node>, e: Effect): State
    requires t < |s.threads|
  {
    s.(nodes := ns, threads := s.threads[t := th], effects := s.effects + [e])
  }

  function Local(s: State, t: nat, th: Thread): State
    requires t < |s.threads|
  {
    Go(s, t, th, s.nodes, Quiet)
  }

  function Find(th: Thread): Thread {
    th.(pc := Descend, level := MAX_LEVEL, pred := HEAD)
  }

  /** Operation `op` on `key`; `top` is the random level of an insert. */
  function Invoke(s: State, t: nat, op: Op, key: int, top: nat): State
    requires t < |s.threads|
  {
    Local(s, t, Find(Thread(Descend, op, key, top, 0, HEAD, HEAD, Levels(MAX_LEVEL + 1, HEAD),
                            Levels(MAX_LEVEL + 1, HEAD), NONE, NONE, NONE, false, false, Now(s) + 1, Now(s) + 1)))
  }

  predicate Under(ns: seq<Node>, r: int, k: int)
    requires IsRef(ns, r)
  {
    r == HEAD || (r != TAIL && ns[r].key < k)
  }

  /** What each operation does with the node `find` ended on. */
  function AfterFind(ns: seq<Node>, th: Thread): Thread
    requires 0 < |th.succs| && IsRef(ns, th.succs[0])
  {
    var c := th.succs[0];
    if c != TAIL && ns[c].key == th.key then
      th.(found := c, pc := match th.op case Insert => SawNode case Erase => LoadFull case Contains => SeeFull)
    else if th.op == Insert then th.(pc := Lock, level := 0)
    else th.(pc := Return, result := false)
  }

  /** The predecessor at this level is not the one of the level below. */
  predicate Leads(th: Thread)
    requires 0 <= th.level < |th.preds|
  {
    th.level == 0 || th.preds[th.level] != th.preds[th.level - 1]
  }

  // Whether a thread may take its next step: every pointer it dereferences is valid and a lock it
  // waits for is free.

  predicate MayFind(ns: seq<Node>, th: Thread) {
    && th.pc != Idle && 0 <= th.level < |th.preds| && th.level < |th.succs|
    && (if th.pc == Descend then HasLevel(ns, th.pred, th.level) else HasLevel(ns, th.curr, th.level))
  }

  predicate MayLook(ns: seq<Node>, th: Thread) {
    HasLevel(ns, th.found, 0) && (th.pc == LockVictim ==> ns[th.found].lock == FREE)
  }

  predicate MayAdd(ns: seq<Node>, th: Thread) {
    && 0 <= th.level <= th.top < |th.succs| && |th.preds| == |th.succs|
    && HasLevel(ns, th.preds[th.level], th.level) && IsRef(ns, th.succs[th.level])
    && (th.pc == Lock && Leads(th) ==> ns[th.preds[th.level]].lock == FREE)
    && (th.pc == Link && th.level > 0 ==> HasLevel(ns, th.own, th.level))
    && (th.pc == Publish ==> IsRef(ns, th.own))
  }

  predicate MayRemove(ns: seq<Node>, th: Thread) {
    && HasLevel(ns, HEAD, th.level) && HasLevel(ns, th.found, th.level)
    && (th.pc == SpliceScan ==> HasLevel(ns, th.curr, th.level))
    && (th.pc in {SpliceLock, SpliceMark, SpliceNext, SpliceStore} ==> HasLevel(ns, th.pred, th.level))
    && (th.pc == SpliceLock ==> ns[th.pred].lock == FREE)
  }

  predicate MayEnd(ns: seq<Node>, th: Thread) {
    && (th.pc == UnlockVictim ==> IsRef(ns, th.found))
    && (th.pc == SpliceUnlock ==> IsRef(ns, th.pred) && 0 <= th.level)
  }

  predicate Enabled(s: State, t: nat) {
    && t < |s.threads|
    && match PhaseOf(s.threads[t].pc)
       case Finding => MayFind(s.nodes, s.threads[t])
       case Looking => MayLook(s.nodes, s.threads[t])
       case Adding => MayAdd(s.nodes, s.threads[t])
       case Removing => MayRemove(s.nodes, s.threads[t])
       case Ending => MayEnd(s.nodes, s.threads[t])
  }

  /** A step of `find`. */
  function FindMove(ns: seq<Node>, th: Thread, now: nat): Thread
    requires PhaseOf(th.pc) == Finding && MayFind(ns, th)
  {
    if th.pc == Descend then
      th.(pc := Scan, curr := ns[th.pred].next[th.level], point := LastOn(ns[th.pred], th.level, now))
    else if Under(ns, th.curr, th.key) then
      th.(pred := th.curr, curr := ns[th.curr].next[th.level], point := LastOn(ns[th.curr], th.level, now))
    else if th.level > 0 then Filled(th).(pc := Descend, level := th.level - 1)
    else AfterFind(ns, Filled(th))
  }

  /** The search of this level is over. */
  function Filled(th: Thread): Thread
    requires 0 <= th.level < |th.preds| && th.level < |th.succs|
  {
    th.(preds := th.preds[th.level := th.pred], succs := th.succs[th.level := th.curr])
  }

  /** A read of the node that `find` returned. */
  function LookMove(ns: seq<Node>, th: Thread, now: nat): Thread
    requires PhaseOf(th.pc) == Looking && th.pc !in {LockVictim, Mark} && MayLook(ns, th)
  {
    var n := ns[th.found];
    if th.pc == SawNode then if n.marked then Find(th) else th.(pc := Wait, point := now)
    else if th.pc == Wait then
      if n.full then th.(pc := Return, result := false, point := if n.lin <= th.point then th.point else n.lin) else th
    else if th.pc == LoadFull then if n.full then th.(pc := LoadMark) else Find(th)
    else if th.pc == LoadMark then
      if n.marked then th.(pc := Return, result := false, point := LastOn(n, 0, now)) else th.(pc := LockVictim)
    else if th.pc == Recheck then
      if n.marked then th.(pc := UnlockVictim, ok := false, point := LastOn(n, 0, now)) else th.(pc := Mark)
    else if th.pc == SeeFull then if n.full then th.(pc := SeeMark) else th.(pc := Return, result := false, point := now)
    else th.(pc := Return, result := !n.marked, point := if n.marked then LastOn(n, 0, now) else now)
  }

  function MarkNodes(ns: seq<Node>, v: int, t: nat, now: nat): seq<Node>
    requires IsRef(ns, v)
  {
    ns[v := ns[v].(marked := true, died := now, eraser := t)]
  }

  /** A validating read of an insert: the first one that fails makes it unlock and search again. */
  function CheckMove(ns: seq<Node>, th: Thread): Thread
    requires th.pc in {CheckPred, CheckSucc, CheckNext} && MayAdd(ns, th)
  {
    var p, q := th.preds[th.level], th.succs[th.level];
    if th.pc == CheckPred then if ns[p].marked then th.(pc := Unlock, ok := false) else th.(pc := CheckSucc)
    else if th.pc == CheckSucc then if ns[q].marked then th.(pc := Unlock, ok := false) else th.(pc := CheckNext)
    else if ns[p].next[th.level] != q then th.(pc := Unlock, ok := false)
    else if th.level < th.top then th.(pc := Lock, level := th.level + 1)
    else th.(pc := Link, level := 0)
  }

  function LinkMove(ns: seq<Node>, th: Thread): Thread {
    var th1 := th.(own := if th.level == 0 then |ns| else th.own);
    if th.level < th.top then th1.(level := th.level + 1) else th1.(pc := Publish)
  }

  function PublishNodes(ns: seq<Node>, f: int, now: nat): seq<Node>
    requires IsRef(ns, f)
  {
    ns[f := ns[f].(full := true, lin := now + 1)]
  }

  function UnlockMove(th: Thread): Thread {
    if th.level > 0 then th.(level := th.level - 1) else if th.ok then th.(pc := Return) else Find(th)
  }

  function NextLevelDown(th: Thread): Thread {
    if th.level == 0 then th.(pc := Retire) else th.(pc := SpliceStart, level := th.level - 1)
  }

  /** A read of the splicing loop. */
  function SpliceMove(ns: seq<Node>, th: Thread): Thread
    requires th.pc in {SpliceStart, SpliceScan, SpliceMark, SpliceNext, SpliceLoad} && MayRemove(ns, th)
  {
    if th.pc == SpliceStart then th.(pc := SpliceScan, pred := HEAD, curr := ns[HEAD].next[th.level])
    else if th.pc == SpliceScan then
      if th.curr != th.found && Under(ns, th.curr, th.key) then th.(pred := th.curr, curr := ns[th.curr].next[th.level])
      else if th.curr != th.found then NextLevelDown(th)  // already spliced at this level
      else th.(pc := SpliceLock)
    else if th.pc == SpliceMark then
      if ns[th.pred].marked then th.(pc := SpliceUnlock, ok := false) else th.(pc := SpliceNext)
    else if th.pc == SpliceNext then
      if ns[th.pred].next[th.level] != th.found then th.(pc := SpliceUnlock, ok := false) else th.(pc := SpliceLoad)
    else th.(pc := SpliceStore, load := ns[th.found].next[th.level])
  }

  function AddStep(s: State, t: nat): State
    requires t < |s.threads| && PhaseOf(s.threads[t].pc) == Adding && MayAdd(s.nodes, s.threads[t])
  {
    var th, ns, now := s.threads[t], s.nodes, Now(s);
    if th.pc == Lock then
      Go(s, t, th.(pc := CheckPred), if Leads(th) then WithLock(ns, th.preds[th.level], t) else ns, Quiet)
    else if th.pc == Link then Go(s, t, LinkMove(ns, th), LinkNodes(ns, th, t, now), Quiet)
    else if th.pc == Publish then
      Go(s, t, th.(pc := Unlock, ok := true, level := th.top, result := true, point := now),
         PublishNodes(ns, th.own, now), Added(t, th.key))
    else if th.pc == Unlock then
      Go(s, t, UnlockMove(th), if Leads(th) then WithLock(ns, th.preds[th.level], FREE) else ns, Quiet)
    else Local(s, t, CheckMove(ns, th))
  }

  function LookStep(s: State, t: nat): State
    requires t < |s.threads| && PhaseOf(s.threads[t].pc) == Looking && MayLook(s.nodes, s.threads[t])
  {
    var th, ns, now := s.threads[t], s.nodes, Now(s);
    if th.pc == LockVictim then Go(s, t, th.(pc := Recheck), WithLock(ns, th.found, t), Quiet)
    else if th.pc == Mark then
      Go(s, t, th.(pc := UnlockVictim, ok := true, result := true, point := now),
         MarkNodes(ns, th.found, t, now), Removed(t, th.key))
    else Local(s, t, LookMove(ns, th, now))
  }

  function RemoveStep(s: State, t: nat): State
    requires t < |s.threads| && PhaseOf(s.threads[t].pc) == Removing && MayRemove(s.nodes, s.threads[t])
  {
    var th, ns := s.threads[t], s.nodes;
    if th.pc == SpliceLock then Go(s, t, th.(pc := SpliceMark), WithLock(ns, th.pred, t), Quiet)
    else if th.pc == SpliceStore then
      Go(s, t, th.(pc := SpliceUnlock, ok := true), SpliceNodes(ns, th.pred, th.found, th.level, th.load, Now(s)), Quiet)
    else Local(s, t, SpliceMove(ns, th))
  }

  function EndStep(s: State, t: nat): State
    requires t < |s.threads| && PhaseOf(s.threads[t].pc) == Ending && MayEnd(s.nodes, s.threads[t])
  {
    var th, ns := s.threads[t], s.nodes;
    if th.pc == UnlockVictim then
      Go(s, t, if th.ok then th.(pc := SpliceStart, level := ns[th.found].top) else th.(pc := Return),
         WithLock(ns, th.found, FREE), Quiet)
    else if th.pc == SpliceUnlock then
      Go(s, t, if th.ok then NextLevelDown(th) else th.(pc := SpliceStart), WithLock(ns, th.pred, FREE), Quiet)
    else if th.pc == Retire then
      Local(s, t, th.(pc := Return)).(retired := s.retired + multiset{th.found})
    else
      Local(s, t, th.(pc := Idle)).(done :=
        s.done + [Record(t, th.op, th.key, th.result, th.start, th.point, Now(s))])
  }

  function Step(s: State, t: nat): State
    requires Enabled(s, t)
  {
    match PhaseOf(s.threads[t].pc)
    case Finding => Local(s, t, FindMove(s.nodes, s.threads[t], Now(s)))
    case Looking => LookStep(s, t)
    case Adding => AddStep(s, t)
    case Removing => RemoveStep(s, t)
    case Ending => EndStep(s, t)
  }

  predicate MayInvoke(s: State, t: nat, top: nat) {
    t < |s.threads| && s.threads[t].pc == Idle && top <= MAX_LEVEL
  }

  ghost predicate Next(s: State, s': State) {
    || (exists t: nat, op, key, top: nat :: MayInvoke(s, t, top) && s' == Invoke(s, t, op, key, top))
    || (exists t: nat :: Enabled(s, t) && s' == Step(s, t))
  }
}

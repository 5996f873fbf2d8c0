/** Operations of the Harris-Michael list end unless others interfere: a thread that runs alone searches again at most
    once, and returns after a number of steps told by the state. */
module LockFreeListAlone {
  import opened SetHistory
  import opened LockFreeList
  import opened LockFreeListProof
  import T = LockFreeListTheorems

  // ---------------------------------------------------------------- keys rise along every chain

  /** Also a node that was unlinked points at a later key. */
  ghost predicate Rises(ns: seq<Node>, r: int)
    requires 0 <= r < |ns|
  {
    var q := ns[r].next;
    q == NIL || (IsData(ns, q) && Below(ns, r, ns[q].key))
  }

  ghost predicate AllRise(ns: seq<Node>) {
    forall r {:trigger Rises(ns, r)} :: 0 <= r < |ns| ==> Rises(ns, r)
  }

  lemma SwingRises(ns: seq<Node>, pred: int, curr: int, next: int)
    requires AllRise(ns) && 0 <= pred < |ns| && IsData(ns, curr) && ns[pred].next == curr && ns[curr].next == next
    ensures AllRise(Swing(ns, pred, curr, next))
  {
    var ns' := Swing(ns, pred, curr, next);
    assert Rises(ns, pred) && Rises(ns, curr);
    forall r | 0 <= r < |ns'| ensures Rises(ns', r) {
      assert Rises(ns, r);
    }
  }

  lemma PublishRises(ns: seq<Node>, pred: int, n: Node)
    requires AllRise(ns) && 0 < |ns| && 0 <= pred < |ns| && Below(ns, pred, n.key)
    requires n.next == NIL || (IsData(ns, n.next) && n.key < ns[n.next].key)
    ensures AllRise(ns[pred := ns[pred].(next := |ns|)] + [n])
  {
    var ns' := ns[pred := ns[pred].(next := |ns|)] + [n];
    forall r | 0 <= r < |ns'| ensures Rises(ns', r) {
      assert r < |ns| ==> Rises(ns, r);
    }
  }

  lemma MarkRises(ns: seq<Node>, r: int, now: int)
    requires AllRise(ns) && 0 <= r < |ns|
    ensures AllRise(ns[r := ns[r].(marked := true, died := now)])
  {
    var ns' := ns[r := ns[r].(marked := true, died := now)];
    forall v | 0 <= v < |ns'| ensures Rises(ns', v) {
      assert Rises(ns, v);
    }
  }

  lemma StepRises(s: State, t: nat)
    requires HeapOk(s.nodes, Now(s)) && Runnable(s, t) && ThreadOk(s.nodes, s.effects, t, s.threads[t]) && AllRise(s.nodes)
    ensures AllRise(Advance(s, t).nodes)
  {
    var th, ns := s.threads[t], s.nodes;
    if th.pc in {Unlink, Detach} && ns[th.pred].next == th.curr && !ns[th.pred].marked {
      SwingRises(ns, th.pred, th.curr, th.next);
    } else if th.pc == Link && ns[th.pred].next == th.curr && !ns[th.pred].marked {
      PublishRises(ns, th.pred, Node(th.key, th.curr, false, Now(s) + 1, -1, true));
    } else if th.pc == LockFreeList.Mark {
      MarkRises(ns, th.curr, Now(s));
    }
  }

  /** A searching thread's current node lies behind its predecessor. */
  predicate Forward(ns: seq<Node>, th: Thread) {
    th.pc in {Check, Read, Unlink, Reclaim} && th.curr != NIL ==>
      0 <= th.pred < |ns| && IsData(ns, th.curr) && Below(ns, th.pred, ns[th.curr].key)
  }

  ghost predicate AllForward(s: State) {
    forall t {:trigger s.threads[t]} :: 0 <= t < |s.threads| ==> Forward(s.nodes, s.threads[t])
  }

  lemma StepForward(s: State, t: nat)
    requires HeapOk(s.nodes, Now(s)) && Runnable(s, t) && ThreadOk(s.nodes, s.effects, t, s.threads[t]) && AllRise(s.nodes)
    requires Forward(s.nodes, s.threads[t])
    ensures var s' := Advance(s, t); t < |s'.threads| && Forward(s'.nodes, s'.threads[t])
  {
    var th, ns := s.threads[t], s.nodes;
    assert Rises(ns, HEAD);
    if th.pc in {Read, Unlink} { assert Rises(ns, th.curr); }
    hide AllRise, HeapOk, Searching;
  }

  lemma OthersForward(s: State, t: nat)
    requires Runnable(s, t) && AllForward(s) && Evolves(s.nodes, Advance(s, t).nodes, Now(s))
    ensures var s' := Advance(s, t);
      |s'.threads| == |s.threads| && forall u {:trigger s'.threads[u]} :: 0 <= u < |s.threads| && u != t ==> Forward(s'.nodes, s'.threads[u])
  {
    StepOthers(s, t);
    hide Advance;
    var s' := Advance(s, t);
    forall u | 0 <= u < |s.threads| && u != t ensures Forward(s'.nodes, s'.threads[u]) {
      assert Forward(s.nodes, s.threads[u]);
    }
  }

  lemma StepOthers(s: State, t: nat)
    requires Runnable(s, t)
    ensures var s' := Advance(s, t);
      |s'.threads| == |s.threads| && forall u {:trigger s'.threads[u]} :: 0 <= u < |s.threads| && u != t ==> s'.threads[u] == s.threads[u]
  {
  }

  ghost predicate Sound(s: State) { Inv(s) && AllRise(s.nodes) && AllForward(s) }

  lemma StepSound(s: State, t: nat)
    requires Sound(s) && Runnable(s, t)
    ensures Sound(Advance(s, t))
  {
    var s' := Advance(s, t);
    InvParts(s, t);
    StepRises(s, t);
    AdvanceIsNext(s, t);
    NextKeeps(s, s');
    StepForward(s, t);
    OthersForward(s, t);
    hide Inv, AllRise, Advance, HeapOk, ThreadOk, Evolves, Forward;
  }

  lemma AdvanceIsNext(s: State, t: nat)
    requires Runnable(s, t)
    ensures Next(s, Advance(s, t))
  {
    hide Advance;
  }

  lemma InvokeSound(s: State, t: nat, op: Op, key: int)
    requires Sound(s) && t < |s.threads| && s.threads[t].pc == Idle && Inv(Invoke(s, t, op, key))
    ensures Sound(Invoke(s, t, op, key))
  {
    hide Inv;
    var s' := Invoke(s, t, op, key);
    forall u | 0 <= u < |s'.threads| ensures Forward(s'.nodes, s'.threads[u]) {
      assert Forward(s.nodes, s.threads[u]);
    }
  }

  lemma {:induction false} RunSound(run: seq<State>, i: nat)
    requires T.Run(run) && i < |run|
    ensures Sound(run[i])
  {
    T.RunKeeps(run, i);
    if i == 0 {
      InitRises(run[0]);
    } else {
      hide Inv, Sound, Advance, Init, Invoke, Runnable;
      RunSound(run, i - 1);
      assert T.StepAt(run, i - 1);
      NextSound(run[i - 1], run[i]);
    }
  }

  lemma NextSound(s: State, s': State)
    requires Sound(s) && Next(s, s') && Inv(s')
    ensures Sound(s')
  {
    hide Inv, Sound, Advance, Invoke, Runnable;
    if t: nat, op, key :| t < |s.threads| && s.threads[t].pc == Idle && s' == Invoke(s, t, op, key) {
      InvokeSound(s, t, op, key);
    } else {
      var t: nat :| Runnable(s, t) && s' == Advance(s, t);
      StepSound(s, t);
    }
  }

  lemma InitRises(s: State)
    requires Init(s)
    ensures AllRise(s.nodes) && AllForward(s)
  {
  }

  lemma InvParts(s: State, t: nat)
    requires Inv(s) && t < |s.threads|
    ensures HeapOk(s.nodes, Now(s)) && ThreadOk(s.nodes, s.effects, t, s.threads[t])
  {
  }

  // ---------------------------------------------------------------- when nothing is stale

  /** What the thread saw still holds, so that it need not search again. */
  predicate Clean(ns: seq<Node>, th: Thread) {
    match th.pc
    case Check => Follows(ns, th)
    case Read => Follows(ns, th)
    case Unlink => Follows(ns, th)
    case Reclaim => Follows(ns, th)
    case Link => Follows(ns, th)
    case ReadVictim => IsData(ns, th.curr) && !ns[th.curr].marked
    case Mark => IsData(ns, th.curr) && !ns[th.curr].marked && ns[th.curr].next == th.next
    case _ => true
  }

  predicate Follows(ns: seq<Node>, th: Thread) {
    0 <= th.pred < |ns| && !ns[th.pred].marked && ns[th.pred].next == th.curr
  }

  predicate IsBehind(ns: seq<Node>, p: int, r: int)
    requires 0 <= p < |ns|
  {
    IsData(ns, r) && Below(ns, p, ns[r].key)
  }

  /** How many of the first `n` nodes have keys behind `p`. */
  function Behind(ns: seq<Node>, p: int, n: nat): (c: nat)
    requires 0 <= p < |ns|
    ensures c <= n
  {
    if n == 0 then 0 else Behind(ns, p, n - 1) + if IsBehind(ns, p, n - 1) then 1 else 0
  }

  predicate IsDead(ns: seq<Node>, r: int) { IsData(ns, r) && ns[r].linked && ns[r].marked }

  /** How many of the first `n` nodes are marked and still to be unlinked. */
  function Dead(ns: seq<Node>, n: nat): (c: nat)
    ensures c <= n
  {
    if n == 0 then 0 else Dead(ns, n - 1) + if IsDead(ns, n - 1) then 1 else 0
  }

  lemma {:induction false} FewerBehind(ns: seq<Node>, p: int, q: int, n: nat)
    requires 0 <= p < |ns| && IsData(ns, q) && Below(ns, p, ns[q].key)
    ensures Behind(ns, q, n) <= Behind(ns, p, n) && (q < n ==> Behind(ns, q, n) < Behind(ns, p, n))
  {
    if n > 0 { FewerBehind(ns, p, q, n - 1); }
  }

  lemma {:induction false} SameBehind(ns: seq<Node>, ns': seq<Node>, p: int, n: nat)
    requires |ns| == |ns'| && 0 <= p < |ns| && forall r :: 0 <= r < |ns| ==> ns'[r].key == ns[r].key
    ensures Behind(ns', p, n) == Behind(ns, p, n)
  {
    if n > 0 { SameBehind(ns, ns', p, n - 1); }
  }

  lemma {:induction false} FewerDead(ns: seq<Node>, ns': seq<Node>, c: int, n: nat)
    requires |ns| == |ns'| && IsDead(ns, c) && !IsDead(ns', c) && forall r :: 0 <= r < |ns| && r != c ==> (IsDead(ns', r) <==> IsDead(ns, r))
    ensures Dead(ns', n) <= Dead(ns, n) && (c < n ==> Dead(ns', n) < Dead(ns, n))
  {
    if n > 0 { FewerDead(ns, ns', c, n - 1); }
  }

  // ---------------------------------------------------------------- the steps left

  /** The places the search may still come by. */
  function Places(ns: seq<Node>, p: int): nat {
    if 0 <= p < |ns| then Behind(ns, p, |ns|) + Dead(ns, |ns|) else 0
  }

  function Walk(ns: seq<Node>, th: Thread): nat {
    match th.pc
    case Idle => 0
    case Return => 1
    case Link => 2
    case ReclaimVictim => 3
    case Detach => 4
    case Mark => 5
    case ReadVictim => 6
    case Unlink => 5 * Places(ns, th.pred) + 11
    case Read => 5 * Places(ns, th.pred) + 12
    case Check => 5 * Places(ns, th.pred) + 13
    case Reclaim => 5 * Places(ns, th.pred) + 14
    case Seek => 10 * |ns| + 14
  }

  /** Steps left to a thread that runs alone; a stale thread searches once more. */
  function StepsLeft(ns: seq<Node>, th: Thread): nat {
    Walk(ns, th) + if Clean(ns, th) then 0 else 10 * |ns| + 15
  }

  /** Moving on to a later node. */
  lemma WalkOn(ns: seq<Node>, p: int, q: int)
    requires 0 <= p < |ns| && IsData(ns, q) && Below(ns, p, ns[q].key)
    ensures Places(ns, q) < Places(ns, p)
  {
    FewerBehind(ns, p, q, |ns|);
  }

  /** Unlinking a marked node. */
  lemma UnlinkOn(ns: seq<Node>, p: int, c: int, q: int)
    requires 0 <= p < |ns| && IsDead(ns, c) && !ns[p].marked
    ensures Places(Swing(ns, p, c, q), p) < Places(ns, p)
  {
    var ns' := Swing(ns, p, c, q);
    SameBehind(ns, ns', p, |ns|);
    FewerDead(ns, ns', c, |ns|);
  }

  lemma PlacesBound(ns: seq<Node>, p: int)
    ensures Places(ns, p) <= 2 * |ns|
  {
  }

  lemma SearchNears(s: State, t: nat)
    requires Runnable(s, t) && s.threads[t].pc in {Seek, Check} && !s.nodes[HEAD].marked
    ensures var s' := Advance(s, t); t < |s'.threads| && StepsLeft(s'.nodes, s'.threads[t]) < StepsLeft(s.nodes, s.threads[t])
  {
    PlacesBound(s.nodes, s.threads[t].pred);
    PlacesBound(s.nodes, HEAD);
    hide Places;
  }

  lemma ReadNears(s: State, t: nat)
    requires Runnable(s, t) && s.threads[t].pc == Read && Forward(s.nodes, s.threads[t]) && s.threads[t].curr != NIL
    ensures var s' := Advance(s, t); t < |s'.threads| && StepsLeft(s'.nodes, s'.threads[t]) < StepsLeft(s.nodes, s.threads[t])
  {
    WalkOn(s.nodes, s.threads[t].pred, s.threads[t].curr);
    hide Places;
  }

  lemma UnlinkNears(s: State, t: nat)
    requires Runnable(s, t) && HeapOk(s.nodes, Now(s)) && ThreadOk(s.nodes, s.effects, t, s.threads[t])
    requires s.threads[t].pc == Unlink
    ensures var s' := Advance(s, t); t < |s'.threads| && StepsLeft(s'.nodes, s'.threads[t]) < StepsLeft(s.nodes, s.threads[t])
  {
    var th, ns := s.threads[t], s.nodes;
    if ns[th.pred].next == th.curr && !ns[th.pred].marked {
      assert NodeOk(ns[th.pred], Now(s)) && LinkOk(ns, th.pred);
      UnlinkOn(ns, th.pred, th.curr, th.next);
    }
    hide Places, HeapOk, Searching;
  }

  lemma RestNears(s: State, t: nat)
    requires Runnable(s, t) && ThreadOk(s.nodes, s.effects, t, s.threads[t])
    requires s.threads[t].pc in {Reclaim, Link, ReadVictim, LockFreeList.Mark, Detach, ReclaimVictim, PC.Return}
    ensures var s' := Advance(s, t); t < |s'.threads| && StepsLeft(s'.nodes, s'.threads[t]) < StepsLeft(s.nodes, s.threads[t])
  {
    hide Places, Searching;
  }

  lemma StepNears(s: State, t: nat)
    requires Sound(s) && Runnable(s, t)
    ensures var s' := Advance(s, t); t < |s'.threads| && StepsLeft(s'.nodes, s'.threads[t]) < StepsLeft(s.nodes, s.threads[t])
  {
    InvParts(s, t);
    assert Forward(s.nodes, s.threads[t]) && !s.nodes[HEAD].marked;
    var pc := s.threads[t].pc;
    hide Sound, Inv, Advance, StepsLeft, HeapOk, Searching, Forward, AllRise;
    match pc
    case Seek => SearchNears(s, t);
    case Check => SearchNears(s, t);
    case Read => ReadNears(s, t);
    case Unlink => UnlinkNears(s, t);
    case _ => RestNears(s, t);
  }

  /** Thread `t` takes `n` steps while all others rest. */
  function Alone(s: State, t: nat, n: nat): State
    decreases n
  {
    if n == 0 then s else if Runnable(s, t) then Alone(Advance(s, t), t, n - 1) else s
  }

  lemma NeverStuck(s: State, t: nat)
    requires Sound(s) && t < |s.threads| && s.threads[t].pc != Idle
    ensures Runnable(s, t)
  {
    InvParts(s, t);
    hide Sound, Inv;
  }

  lemma {:induction false} AloneEnds(s: State, t: nat) returns (n: nat)
    requires Sound(s) && t < |s.threads|
    ensures n <= StepsLeft(s.nodes, s.threads[t])
    ensures var end := Alone(s, t, n); t < |end.threads| && end.threads[t].pc == Idle
    decreases StepsLeft(s.nodes, s.threads[t])
  {
    hide Sound, Advance, StepsLeft, Runnable;
    if s.threads[t].pc == Idle {
      n := 0;
    } else {
      NeverStuck(s, t);
      StepNears(s, t);
      StepSound(s, t);
      var m := AloneEnds(Advance(s, t), t);
      n := m + 1;
    }
  }

  lemma Bound(ns: seq<Node>, th: Thread)
    ensures StepsLeft(ns, th) <= 20 * |ns| + 30
  {
    PlacesBound(ns, th.pred);
    hide Places, Clean;
  }

  /** Whatever the others have left undone, a thread that runs alone from any state of any run returns from its
      insert, erase or contains within a number of steps linear in the number of nodes. */
  lemma AloneReturns(run: seq<State>, i: nat, t: nat) returns (n: nat)
    requires T.Run(run) && i < |run| && t < |run[i].threads|
    ensures n <= 20 * |run[i].nodes| + 30
    ensures var end := Alone(run[i], t, n); t < |end.threads| && end.threads[t].pc == Idle
  {
    RunSound(run, i);
    Bound(run[i].nodes, run[i].threads[t]);
    hide T.Run, Sound, StepsLeft;
    n := AloneEnds(run[i], t);
  }
}

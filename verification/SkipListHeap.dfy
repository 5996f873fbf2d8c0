/** The heap of the lazy skip list: the chains of all levels, and what each write keeps of them. */
module SkipListHeap {
  import opened SetHistory
  import opened Lifetimes
  import opened SkipList

  predicate IsData(ns: seq<Node>, r: int) { 2 <= r < |ns| }

  function Ins(n: Node, l: int): int { if 0 <= l < |n.ins| then n.ins[l] else -1 }
  function Out(n: Node, l: int): int { if 0 <= l < |n.outs| then n.outs[l] else -1 }
  function Nxt(n: Node, l: int): int { if 0 <= l < |n.next| then n.next[l] else NONE }

  /** `n` hangs on the chain of level `l` in state `i`. */
  predicate OnAt(n: Node, l: int, i: int) {
    0 <= Ins(n, l) <= i && (Out(n, l) < 0 || i <= Out(n, l))
  }

  function Last(n: Node, l: int, now: int): int { if Out(n, l) < 0 then now else Out(n, l) }

  /** Position order: head first, tail last, keys in between. */
  predicate Lt(ns: seq<Node>, p: int, q: int)
    requires IsRef(ns, p) && IsRef(ns, q)
  {
    p != q && p != TAIL && q != HEAD && (p == HEAD || q == TAIL || ns[p].key < ns[q].key)
  }

  lemma LtTrans(ns: seq<Node>, a: int, b: int, c: int)
    requires IsRef(ns, a) && IsRef(ns, b) && IsRef(ns, c) && Lt(ns, a, b) && Lt(ns, b, c)
    ensures Lt(ns, a, c)
  {
  }

  /** Position depends on the key alone. */
  lemma LtTwin(ns: seq<Node>, p: int, f: int, q: int, v: int)
    requires IsRef(ns, p) && IsRef(ns, q) && IsData(ns, f) && IsData(ns, v) && ns[f].key == ns[v].key
    requires Lt(ns, p, f) && Lt(ns, f, q)
    ensures Lt(ns, p, v) && Lt(ns, v, q)
  {
  }

  // ---------------------------------------------------------------- one node

  ghost predicate LevelOk(n: Node, l: int, now: int) {
    && -1 <= Ins(n, l) <= now && -1 <= Out(n, l) < now
    && (0 <= Out(n, l) ==> 0 <= Ins(n, l) <= Out(n, l) && n.marked && n.died < Out(n, l))
    && (0 < l && 0 <= Ins(n, l) ==> 0 <= Ins(n, l - 1) <= Ins(n, l))
    && (0 <= Out(n, l) && l < n.top ==> 0 <= Out(n, l + 1) <= Out(n, l))
    && (n.full ==> 0 <= Ins(n, l) <= n.lin)
  }

  /** Linked bottom-up before it is fully linked, marked after that, spliced top-down after that. */
  ghost predicate NodeOk(n: Node, now: int) {
    && |n.next| == |n.ins| == |n.outs| == n.top + 1 && n.top <= MAX_LEVEL
    && 0 <= Ins(n, 0)
    && (forall l {:trigger LevelOk(n, l, now)} :: 0 <= l <= n.top ==> LevelOk(n, l, now))
    && LifeOk(LifeOf(n), now)
    && (n.full <==> 0 <= n.lin) && (n.marked <==> 0 <= n.died)
  }

  /** A node that hangs, or last hung, on a chain points at its successor there. */
  ghost predicate LinkOk(ns: seq<Node>, r: int, l: int, now: int)
    requires IsRef(ns, r)
  {
    var q, i := Nxt(ns[r], l), Last(ns[r], l, now);
    IsRef(ns, q) && OnAt(ns[q], l, i) && Lt(ns, r, q) && Gap(ns, r, q, l, i)
  }

  /** In state `i` nothing on the chain of level `l` lies strictly between `p` and `q`. */
  ghost predicate Gap(ns: seq<Node>, p: int, q: int, l: int, i: int)
    requires IsRef(ns, p) && IsRef(ns, q)
  {
    forall v {:trigger OnAt(ns[v], l, i)} :: IsRef(ns, v) && OnAt(ns[v], l, i) ==> !(Lt(ns, p, v) && Lt(ns, v, q))
  }

  ghost predicate SentinelOk(n: Node) {
    n.top == MAX_LEVEL && !n.full && !n.marked && forall l {:trigger Ins(n, l)} :: 0 <= l <= MAX_LEVEL ==> Ins(n, l) == 0
  }

  /** Two nodes with the same key are never on the bottom chain at the same time. */
  ghost predicate Apart(a: Node, b: Node) {
    0 <= Out(a, 0) < Ins(b, 0) || 0 <= Out(b, 0) < Ins(a, 0)
  }

  ghost predicate HeapOk(ns: seq<Node>, now: int) {
    && |ns| >= 2 && 0 <= now
    && SentinelOk(ns[HEAD]) && SentinelOk(ns[TAIL])
    && (forall r {:trigger NodeOk(ns[r], now)} :: IsRef(ns, r) ==> NodeOk(ns[r], now))
    && (forall r, l {:trigger LinkOk(ns, r, l, now)} ::
          IsRef(ns, r) && r != TAIL && 0 <= Ins(ns[r], l) ==> LinkOk(ns, r, l, now))
    && (forall r, v {:trigger Apart(ns[r], ns[v])} ::
          IsData(ns, r) && IsData(ns, v) && r != v && ns[r].key == ns[v].key ==> Apart(ns[r], ns[v]))
  }

  // ---------------------------------------------------------------- how a heap may evolve

  ghost predicate LevelEvolves(n: Node, n': Node, l: int, now: int) {
    && (0 <= Ins(n, l) ==> Ins(n', l) == Ins(n, l)) && (Ins(n, l) < 0 ==> Ins(n', l) == Ins(n, l) || Ins(n', l) == now + 1)
    && (0 <= Out(n, l) ==> Out(n', l) == Out(n, l)) && (Out(n, l) < 0 ==> Out(n', l) == Out(n, l) || Out(n', l) == now)
  }

  /** Another thread than `u` may rely on this of a node: its past is fixed, marking freezes it, its
      lock protects it, and only its maker finishes it and only its eraser splices it. */
  ghost predicate NodeEvolves(n: Node, n': Node, now: int, u: int) {
    && n'.key == n.key && n'.top == n.top && n'.maker == n.maker
    && (forall l {:trigger Ins(n', l)} {:trigger Out(n', l)} :: LevelEvolves(n, n', l, now))
    && (n.marked ==> n'.marked && n'.next == n.next && n'.eraser == n.eraser)
    && (n.full ==> n'.full)
    && LifeGrows(LifeOf(n), LifeOf(n'), now)
    && (n.lock != u && n.lock != FREE ==>
          n'.lock == n.lock && n'.marked == n.marked && forall l {:trigger Nxt(n', l)} :: 0 <= Ins(n, l) ==> Nxt(n', l) == Nxt(n, l))
    && (n'.lock == n.lock || (n.lock == FREE && n'.lock == u) || (n.lock == u && n'.lock == FREE))
    && (n.maker != u ==> n'.full == n.full && n'.ins == n.ins && forall l {:trigger Nxt(n', l)} :: Ins(n, l) < 0 ==> Nxt(n', l) == Nxt(n, l))
    && (n.marked && n.eraser != u ==> n'.outs == n.outs)
  }

  ghost predicate Evolves(ns: seq<Node>, ns': seq<Node>, now: int, u: int) {
    && |ns| <= |ns'|
    && (forall r {:trigger ns'[r]} :: IsRef(ns, r) ==> NodeEvolves(ns[r], ns'[r], now, u))
    && (forall r {:trigger ns'[r]} :: |ns| <= r < |ns'| ==>
          ns'[r].lock == FREE && ns'[r].maker == u && ns'[r].lin == -1
          && forall l {:trigger Ins(ns'[r], l)} :: Ins(ns'[r], l) in {-1, now + 1})
  }

  lemma OnAtFixed(ns: seq<Node>, ns': seq<Node>, now: int, u: int, v: int, l: int, i: int)
    requires Evolves(ns, ns', now, u) && i <= now && IsRef(ns', v)
    ensures OnAt(ns'[v], l, i) <==> IsRef(ns, v) && OnAt(ns[v], l, i)
  {
    if IsRef(ns, v) {
      assert NodeEvolves(ns[v], ns'[v], now, u);
      assert LevelEvolves(ns[v], ns'[v], l, now);
    } else {
      assert Ins(ns'[v], l) in {-1, now + 1};
    }
  }

  /** What is on a chain in state `now` and stays is on it in state `now + 1`. */
  ghost predicate SameChain(ns: seq<Node>, ns': seq<Node>, l: int) {
    && (forall v {:trigger ns'[v]} :: IsRef(ns, v) && IsRef(ns', v) ==> Ins(ns'[v], l) == Ins(ns[v], l) && Out(ns'[v], l) == Out(ns[v], l))
    && (forall v {:trigger ns'[v]} :: |ns| <= v < |ns'| ==> Ins(ns'[v], l) < 0)
  }

  /** A link untouched by the step stays right, if the node left the chain by now or the chain is untouched. */
  lemma LinkFrame(ns: seq<Node>, ns': seq<Node>, now: int, u: int, r: int, l: int)
    requires HeapOk(ns, now) && Evolves(ns, ns', now, u)
    requires IsRef(ns, r) && r != TAIL && 0 <= Ins(ns[r], l) && Nxt(ns'[r], l) == Nxt(ns[r], l)
    requires 0 <= Out(ns'[r], l) || SameChain(ns, ns', l)
    ensures LinkOk(ns', r, l, now + 1)
  {
    assert LinkOk(ns, r, l, now);
    var q, i := Nxt(ns[r], l), Last(ns[r], l, now);
    var i' := Last(ns'[r], l, now + 1);
    assert NodeEvolves(ns[r], ns'[r], now, u) && NodeEvolves(ns[q], ns'[q], now, u);
    assert LevelEvolves(ns[r], ns'[r], l, now);
    assert NodeOk(ns[r], now) && NodeOk(ns[q], now) && LevelOk(ns[r], l, now);
    forall v | IsRef(ns', v) ensures OnAt(ns'[v], l, i') <==> IsRef(ns, v) && OnAt(ns[v], l, i) {
      if i' <= now {
        OnAtFixed(ns, ns', now, u, v, l, i');
      } else {
        assert v < |ns| ==> NodeOk(ns[v], now) && (l <= ns[v].top ==> LevelOk(ns[v], l, now));
        assert |ns| <= v ==> Ins(ns'[v], l) < 0;
      }
    }
    forall v | IsRef(ns', v) && OnAt(ns'[v], l, i') ensures !(Lt(ns', r, v) && Lt(ns', v, q)) {
      assert OnAt(ns[v], l, i);
      assert NodeEvolves(ns[v], ns'[v], now, u);
    }
  }

  // ---------------------------------------------------------------- facts about one chain

  /** A node on a chain is on every lower chain. */
  lemma {:induction false} OnLower(ns: seq<Node>, now: int, r: int, l: int, m: int, i: int)
    requires HeapOk(ns, now) && IsRef(ns, r) && 0 <= m <= l && OnAt(ns[r], l, i)
    ensures OnAt(ns[r], m, i)
    decreases l
  {
    assert NodeOk(ns[r], now);
    if m < l {
      assert LevelOk(ns[r], l, now) && LevelOk(ns[r], l - 1, now);
      OnLower(ns, now, r, l - 1, m, i);
    }
  }

  /** Nodes on one chain at one time are ordered. */
  lemma OnOrdered(ns: seq<Node>, now: int, l: int, i: int, r: int, v: int)
    requires HeapOk(ns, now) && IsRef(ns, r) && IsRef(ns, v) && r != v && 0 <= l
    requires OnAt(ns[r], l, i) && OnAt(ns[v], l, i)
    ensures Lt(ns, r, v) || Lt(ns, v, r)
  {
    OnLower(ns, now, r, l, 0, i);
    OnLower(ns, now, v, l, 0, i);
    assert IsData(ns, r) && IsData(ns, v) && ns[r].key == ns[v].key ==> Apart(ns[r], ns[v]);
  }

  /** A position fits behind one node of a chain only; two nodes of a chain have different successors. */
  lemma FitsOnce(ns: seq<Node>, now: int, l: int, p: int, r: int)
    requires HeapOk(ns, now) && IsRef(ns, p) && IsRef(ns, r) && p != r && p != TAIL && r != TAIL && 0 <= l
    requires OnAt(ns[p], l, now) && OnAt(ns[r], l, now)
    ensures IsRef(ns, Nxt(ns[p], l)) && IsRef(ns, Nxt(ns[r], l))
    ensures Nxt(ns[p], l) != Nxt(ns[r], l)
    ensures forall v :: IsRef(ns, v) && Lt(ns, p, v) && Lt(ns, v, Nxt(ns[p], l)) ==> !(Lt(ns, r, v) && Lt(ns, v, Nxt(ns[r], l)))
  {
    assert NodeOk(ns[p], now) && NodeOk(ns[r], now);
    assert LevelOk(ns[p], l, now) && LevelOk(ns[r], l, now);
    assert LinkOk(ns, p, l, now) && LinkOk(ns, r, l, now);
    OnOrdered(ns, now, l, now, p, r);
  }

  /** An unmarked node that was linked at a level is still there, and its successor too. */
  lemma UnmarkedIsOn(ns: seq<Node>, now: int, r: int, l: int)
    requires HeapOk(ns, now) && IsRef(ns, r) && r != TAIL && 0 <= Ins(ns[r], l) && !ns[r].marked
    ensures 0 <= l <= ns[r].top && OnAt(ns[r], l, now) && LinkOk(ns, r, l, now) && Out(ns[r], l) < 0
  {
    assert NodeOk(ns[r], now) && LevelOk(ns[r], l, now);
  }

  lemma LivesFine(ns: seq<Node>, now: int)
    requires HeapOk(ns, now)
    ensures LivesOk(Lives(ns), now)
  {
    forall r | IsRef(ns, r) ensures LifeOk(LifeOf(ns[r]), now) {
      assert NodeOk(ns[r], now);
    }
  }

  lemma LivesGrow(ns: seq<Node>, ns': seq<Node>, now: int, u: int)
    requires HeapOk(ns, now) && Evolves(ns, ns', now, u)
    ensures LivesOk(Lives(ns), now) && Grows(Lives(ns), Lives(ns'), now)
  {
    LivesFine(ns, now);
    forall r | IsRef(ns, r) ensures LifeGrows(LifeOf(ns[r]), LifeOf(ns'[r]), now) {
      assert NodeEvolves(ns[r], ns'[r], now, u);
    }
  }

  // ---------------------------------------------------------------- writes that leave every chain alone

  /** Same chains, same links: the heap stays right if each node does. */
  lemma SameLinks(ns: seq<Node>, ns': seq<Node>, now: int, u: int)
    requires HeapOk(ns, now) && Evolves(ns, ns', now, u) && |ns'| == |ns|
    requires forall r {:trigger ns'[r]} :: IsRef(ns, r) ==>
      ns'[r].next == ns[r].next && ns'[r].ins == ns[r].ins && ns'[r].outs == ns[r].outs
    requires forall r :: IsRef(ns', r) ==> NodeOk(ns'[r], now + 1)
    requires !ns'[HEAD].full && !ns'[HEAD].marked && !ns'[TAIL].full && !ns'[TAIL].marked
    ensures HeapOk(ns', now + 1)
  {
    forall r, l | IsRef(ns', r) && r != TAIL && 0 <= Ins(ns'[r], l) ensures LinkOk(ns', r, l, now + 1) {
      LinkFrame(ns, ns', now, u, r, l);
    }
    forall r, v | IsData(ns', r) && IsData(ns', v) && r != v && ns'[r].key == ns'[v].key ensures Apart(ns'[r], ns'[v]) {
      assert NodeEvolves(ns[r], ns'[r], now, u) && NodeEvolves(ns[v], ns'[v], now, u);
      assert Apart(ns[r], ns[v]);
    }
    assert NodeEvolves(ns[HEAD], ns'[HEAD], now, u) && NodeEvolves(ns[TAIL], ns'[TAIL], now, u);
    assert forall l :: Ins(ns'[HEAD], l) == Ins(ns[HEAD], l) && Ins(ns'[TAIL], l) == Ins(ns[TAIL], l);
  }

  /** A write outside `next`, `ins` and `outs` that respects lock and mark. */
  lemma NodeKept(n: Node, n': Node, now: int, u: int)
    requires NodeOk(n, now)
    requires n'.key == n.key && n'.top == n.top && n'.maker == n.maker
    requires n'.next == n.next && n'.ins == n.ins && n'.outs == n.outs
    requires n.marked ==> n'.marked && n'.died == n.died && n'.eraser == n.eraser
    requires !n.marked && n'.marked ==> n'.died == now && n.lock == u && n.full
    requires !n'.marked ==> n'.died == n.died
    requires n.full ==> n'.full && n'.lin == n.lin
    requires !n.full && n'.full ==> n'.lin == now + 1 && n.maker == u && !n'.marked && forall l :: 0 <= l <= n.top ==> 0 <= Ins(n, l)
    requires !n'.full ==> n'.lin == n.lin
    requires n'.lock == n.lock || (n.lock == FREE && n'.lock == u) || (n.lock == u && n'.lock == FREE)
    requires 0 <= now
    ensures NodeOk(n', now + 1) && NodeEvolves(n, n', now, u)
  {
    var later := now + 1;
    forall l ensures Ins(n', l) == Ins(n, l) && Out(n', l) == Out(n, l) && Nxt(n', l) == Nxt(n, l) {
    }
    forall l ensures LevelEvolves(n, n', l, now) {
    }
    forall l | 0 <= l <= n.top ensures LevelOk(n', l, later) {
      assert LevelOk(n, l, now);
    }
  }

  lemma QuietHeap(ns: seq<Node>, now: int, u: int)
    requires HeapOk(ns, now)
    ensures HeapOk(ns, now + 1) && Evolves(ns, ns, now, u) && EffectOk(Lives(ns), Quiet, now)
  {
    forall r | IsRef(ns, r) ensures NodeOk(ns[r], now + 1) && LifeOf(ns[r]).born <= now && LifeOf(ns[r]).died < now {
      assert NodeOk(ns[r], now);
      NodeKept(ns[r], ns[r], now, u);
    }
    forall r | IsRef(ns, r) ensures NodeEvolves(ns[r], ns[r], now, u) {
      assert NodeOk(ns[r], now);
      NodeKept(ns[r], ns[r], now, u);
    }
    SameLinks(ns, ns, now, u);
    LivesFine(ns, now + 1);
    QuietEffect(Lives(ns), now);
  }

  /** Taking a free lock, or freeing one's own. */
  lemma LockHeap(ns: seq<Node>, r: int, holder: int, now: int, u: int)
    requires HeapOk(ns, now) && IsRef(ns, r) && u != FREE
    requires (ns[r].lock == FREE && holder == u) || (ns[r].lock == u && holder == FREE)
    ensures var ns' := WithLock(ns, r, holder);
      HeapOk(ns', now + 1) && Evolves(ns, ns', now, u) && EffectOk(Lives(ns'), Quiet, now)
  {
    var ns' := WithLock(ns, r, holder);
    forall v | IsRef(ns, v)
      ensures NodeOk(ns'[v], now + 1) && NodeEvolves(ns[v], ns'[v], now, u) && LifeOf(ns'[v]).born <= now && LifeOf(ns'[v]).died < now
    {
      assert NodeOk(ns[v], now);
      NodeKept(ns[v], ns'[v], now, u);
    }
    SameLinks(ns, ns', now, u);
    LivesFine(ns', now + 1);
    QuietEffect(Lives(ns'), now);
  }

  /** Marking a fully linked node removes exactly its key. */
  lemma MarkHeap(ns: seq<Node>, v: int, t: nat, now: nat)
    requires HeapOk(ns, now) && IsData(ns, v) && ns[v].full && !ns[v].marked && ns[v].lock == t
    ensures var ns' := MarkNodes(ns, v, t, now);
      HeapOk(ns', now + 1) && Evolves(ns, ns', now, t) && EffectOk(Lives(ns'), Removed(t, ns[v].key), now)
  {
    var ns' := MarkNodes(ns, v, t, now);
    forall r | IsRef(ns, r)
      ensures NodeOk(ns'[r], now + 1) && NodeEvolves(ns[r], ns'[r], now, t) && ns[r].lin <= now && (r != v ==> ns'[r].died < now)
    {
      assert NodeOk(ns[r], now);
      NodeKept(ns[r], ns'[r], now, t);
    }
    SameLinks(ns, ns', now, t);
    LivesFine(ns', now + 1);
    forall r | 0 <= r < |ns'| && r != v && ns'[r].key == ns'[v].key ensures !Alive(LifeOf(ns'[r]), now + 1) {
      assert NodeOk(ns[v], now) && LevelOk(ns[v], 0, now);
      AloneInSet(ns, now, now, r, v);
    }
    RemovedEffect(Lives(ns'), v, now, t);
  }

  /** While a node is on the bottom chain no other node carries its key in the set. */
  lemma AloneInSet(ns: seq<Node>, now: int, i: int, r: int, v: int)
    requires HeapOk(ns, now) && IsRef(ns, r) && IsData(ns, v) && r != v && ns[r].key == ns[v].key
    requires OnAt(ns[v], 0, i) && i <= now
    ensures !Alive(LifeOf(ns[r]), i) && (Last(ns[v], 0, now) >= now ==> !Alive(LifeOf(ns[r]), now))
  {
    assert NodeOk(ns[r], now) && NodeOk(ns[v], now) && LevelOk(ns[r], 0, now) && LevelOk(ns[v], 0, now);
    if IsData(ns, r) {
      assert Apart(ns[r], ns[v]);
    }
  }

  // ---------------------------------------------------------------- linking and splicing on one chain

  /** `ns'` is `ns` with node `f` put on the chain of level `l` between `p` and `q`. */
  ghost predicate Inserted(ns: seq<Node>, ns': seq<Node>, now: int, p: int, f: int, q: int, l: int) {
    && IsRef(ns, p) && IsRef(ns', p) && IsRef(ns', f) && IsRef(ns, q) && IsRef(ns', q) && p != TAIL && p != f && q != f
    && OnAt(ns[p], l, now) && Out(ns[p], l) < 0 && Nxt(ns[p], l) == q && Nxt(ns'[p], l) == f
    && Ins(ns'[f], l) == now + 1 && Out(ns'[f], l) < 0 && Nxt(ns'[f], l) == q
    && (forall v {:trigger ns'[v]} :: IsRef(ns', v) && v != f ==>
          && IsRef(ns, v) && Ins(ns'[v], l) == Ins(ns[v], l) && Out(ns'[v], l) == Out(ns[v], l)
          && (v != p ==> Nxt(ns'[v], l) == Nxt(ns[v], l)))
    && Lt(ns', p, f) && Lt(ns', f, q)
  }

  /** `ns'` is `ns` with node `v`, between `p` and `q`, taken off the chain of level `l`. */
  ghost predicate Spliced(ns: seq<Node>, ns': seq<Node>, now: int, p: int, v: int, q: int, l: int) {
    && |ns| == |ns'| && IsRef(ns, p) && IsRef(ns, v) && IsRef(ns, q) && p != TAIL && v != TAIL && v != HEAD && p != v
    && OnAt(ns[p], l, now) && Out(ns[p], l) < 0 && Nxt(ns[p], l) == v
    && OnAt(ns[v], l, now) && Out(ns[v], l) < 0 && Nxt(ns[v], l) == q && Nxt(ns'[p], l) == q && Out(ns'[v], l) == now
    && (forall r {:trigger ns'[r]} :: IsRef(ns', r) ==>
          && Ins(ns'[r], l) == Ins(ns[r], l) && (r != v ==> Out(ns'[r], l) == Out(ns[r], l))
          && (r != p ==> Nxt(ns'[r], l) == Nxt(ns[r], l)))
  }

  ghost predicate SameKeys(ns: seq<Node>, ns': seq<Node>) {
    |ns| <= |ns'| && forall v {:trigger ns'[v]} :: IsRef(ns, v) ==> ns'[v].key == ns[v].key
  }

  lemma EvolvesKeys(ns: seq<Node>, ns': seq<Node>, now: int, u: int)
    requires Evolves(ns, ns', now, u)
    ensures SameKeys(ns, ns')
  {
    forall v | IsRef(ns, v) ensures ns'[v].key == ns[v].key {
      assert NodeEvolves(ns[v], ns'[v], now, u);
    }
  }

  /** A node is on the chain now iff it joined it and has not left it. */
  lemma OnNow(ns: seq<Node>, now: int, v: int, l: int)
    requires HeapOk(ns, now) && IsRef(ns, v)
    ensures OnAt(ns[v], l, now) <==> 0 <= Ins(ns[v], l) && Out(ns[v], l) < 0
    ensures Ins(ns[v], l) <= now && Out(ns[v], l) < now
  {
    assert NodeOk(ns[v], now) && (0 <= l <= ns[v].top ==> LevelOk(ns[v], l, now));
  }

  lemma InsertLink(ns: seq<Node>, ns': seq<Node>, now: int, u: int, p: int, f: int, q: int, l: int, r: int)
    requires HeapOk(ns, now) && Evolves(ns, ns', now, u) && Inserted(ns, ns', now, p, f, q, l) && 0 <= l
    requires IsRef(ns', r) && r != TAIL && 0 <= Ins(ns'[r], l)
    ensures LinkOk(ns', r, l, now + 1)
  {
    EvolvesKeys(ns, ns', now, u);
    if r != f && 0 <= Out(ns'[r], l) {
      LinkFrame(ns, ns', now, u, r, l);
    } else if r == p || r == f {
      InsertHere(ns, ns', now, p, f, q, l, r);
    } else {
      InsertElsewhere(ns, ns', now, p, f, q, l, r);
    }
  }

  lemma InsertHere(ns: seq<Node>, ns': seq<Node>, now: int, p: int, f: int, q: int, l: int, r: int)
    requires HeapOk(ns, now) && SameKeys(ns, ns') && Inserted(ns, ns', now, p, f, q, l) && 0 <= l
    requires r == p || r == f
    ensures LinkOk(ns', r, l, now + 1)
  {
    assert LinkOk(ns, p, l, now);
    OnNow(ns, now, q, l);
    var qr := if r == p then f else q;
    forall v | IsRef(ns', v) && OnAt(ns'[v], l, now + 1) ensures !(Lt(ns', r, v) && Lt(ns', v, qr)) {
      if v != f && Lt(ns', r, v) && Lt(ns', v, qr) {
        OnNow(ns, now, v, l);
        if r == p { LtTrans(ns', v, f, q); } else { LtTrans(ns', p, f, v); }
        assert Lt(ns, p, v) && Lt(ns, v, q);
      }
    }
  }

  lemma InsertElsewhere(ns: seq<Node>, ns': seq<Node>, now: int, p: int, f: int, q: int, l: int, r: int)
    requires HeapOk(ns, now) && SameKeys(ns, ns') && Inserted(ns, ns', now, p, f, q, l) && 0 <= l
    requires IsRef(ns', r) && r != TAIL && r != p && r != f && 0 <= Ins(ns'[r], l) && Out(ns'[r], l) < 0
    ensures LinkOk(ns', r, l, now + 1)
  {
    OnNow(ns, now, r, l);
    assert LinkOk(ns, r, l, now);
    var qr := Nxt(ns[r], l);
    OnNow(ns, now, qr, l);
    FitsOnce(ns, now, l, p, r);
    forall v | IsRef(ns', v) && OnAt(ns'[v], l, now + 1) ensures !(Lt(ns', r, v) && Lt(ns', v, qr)) {
      if v != f {
        OnNow(ns, now, v, l);
        assert Lt(ns', r, v) && Lt(ns', v, qr) ==> Lt(ns, r, v) && Lt(ns, v, qr);
      } else {
        InsertApart(ns, ns', now, p, f, q, l, r);
      }
    }
  }

  /** The new position fits behind `p` only. */
  lemma InsertApart(ns: seq<Node>, ns': seq<Node>, now: int, p: int, f: int, q: int, l: int, r: int)
    requires HeapOk(ns, now) && SameKeys(ns, ns') && Inserted(ns, ns', now, p, f, q, l) && 0 <= l
    requires IsRef(ns, r) && r != TAIL && r != p && r != f && OnAt(ns[r], l, now) && Out(ns[r], l) < 0
    ensures IsRef(ns', Nxt(ns[r], l)) && !(Lt(ns', r, f) && Lt(ns', f, Nxt(ns[r], l)))
  {
    assert LinkOk(ns, r, l, now) && LinkOk(ns, p, l, now);
    OnOrdered(ns, now, l, now, p, r);
    assert !(Lt(ns, p, r) && Lt(ns, r, q));
    var qr := Nxt(ns[r], l);
    assert IsRef(ns', qr);
    assert !(Lt(ns, r, p) && Lt(ns, p, qr));
    if Lt(ns', r, f) && Lt(ns', f, qr) {
      LtTrans(ns', r, f, q);
      LtTrans(ns', p, f, qr);
    }
    assert ns'[r].key == ns[r].key && ns'[p].key == ns[p].key && ns'[q].key == ns[q].key && ns'[qr].key == ns[qr].key;
  }

  lemma SpliceLink(ns: seq<Node>, ns': seq<Node>, now: int, u: int, p: int, v: int, q: int, l: int, r: int)
    requires HeapOk(ns, now) && Evolves(ns, ns', now, u) && Spliced(ns, ns', now, p, v, q, l) && 0 <= l
    requires IsRef(ns', r) && r != TAIL && 0 <= Ins(ns'[r], l)
    ensures LinkOk(ns', r, l, now + 1)
  {
    EvolvesKeys(ns, ns', now, u);
    if 0 <= Out(ns'[r], l) {
      LinkFrame(ns, ns', now, u, r, l);
    } else {
      assert LinkOk(ns, p, l, now) && LinkOk(ns, v, l, now) && LinkOk(ns, r, l, now);
      OnNow(ns, now, r, l);
      if r != p { FitsOnce(ns, now, l, p, r); }
      var qr := Nxt(ns'[r], l);
      OnNow(ns, now, qr, l);
      forall w | IsRef(ns', w) && OnAt(ns'[w], l, now + 1) ensures !(Lt(ns', r, w) && Lt(ns', w, qr)) {
        OnNow(ns, now, w, l);
        if r == p && w != v {
          OnOrdered(ns, now, l, now, v, w);
          assert !(Lt(ns, p, w) && Lt(ns, w, v));
          assert !(Lt(ns, v, w) && Lt(ns, w, q));
        }
      }
    }
  }

  // ---------------------------------------------------------------- the writes to a chain

  /** Node `r` after its `next` at level `l` was set under its lock. */
  lemma NextKept(n: Node, l: int, q: int, now: int, u: int)
    requires NodeOk(n, now) && 0 <= l <= n.top && 0 <= now
    requires n.lock == u && !n.marked && 0 <= Ins(n, l)
    ensures var n' := n.(next := n.next[l := q]); NodeOk(n', now + 1) && NodeEvolves(n, n', now, u)
  {
    var n', later := n.(next := n.next[l := q]), now + 1;
    forall m ensures LevelEvolves(n, n', m, now) {
    }
    forall m ensures Ins(n, m) < 0 ==> Nxt(n', m) == Nxt(n, m) {
    }
    forall m | 0 <= m <= n.top ensures LevelOk(n', m, later) {
      assert LevelOk(n, m, now);
    }
  }

  lemma NewNodeOk(th: Thread, t: nat, now: nat)
    requires th.top <= MAX_LEVEL && th.top < |th.succs|
    ensures NodeOk(NewNode(th, t, now), now + 1)
    ensures forall l :: Ins(NewNode(th, t, now), l) == (if l == 0 then now + 1 else -1) && Out(NewNode(th, t, now), l) == -1
  {
    var n, later := NewNode(th, t, now), now + 1;
    forall l | 0 <= l <= n.top ensures LevelOk(n, l, later) {
    }
  }

  ghost predicate MayLink(ns: seq<Node>, p: int, q: int, key: int, l: int, t: nat) {
    && IsRef(ns, p) && IsRef(ns, q) && p != TAIL && q != HEAD
    && ns[p].lock == t && !ns[p].marked && 0 <= Ins(ns[p], l) && Nxt(ns[p], l) == q
    && Under(ns, p, key) && (q == TAIL || key < ns[q].key)
  }

  /** Publishing the new node at level 0. */
  lemma LinkBottom(ns: seq<Node>, th: Thread, t: nat, now: nat)
    requires HeapOk(ns, now) && th.level == 0 && 0 < |th.preds| && th.top < |th.succs| && th.top <= MAX_LEVEL
    requires MayLink(ns, th.preds[0], th.succs[0], th.key, 0, t)
    ensures HasLevel(ns, th.preds[0], 0)
    ensures var ns' := LinkNodes(ns, th, t, now); Evolves(ns, ns', now, t) && Inserted(ns, ns', now, th.preds[0], |ns|, th.succs[0], 0)
    ensures forall r :: IsRef(LinkNodes(ns, th, t, now), r) ==> NodeOk(LinkNodes(ns, th, t, now)[r], now + 1)
  {
    var p, f := th.preds[0], |ns|;
    UnmarkedIsOn(ns, now, p, 0);
    assert NodeOk(ns[p], now);
    var ns' := LinkNodes(ns, th, t, now);
    NewNodeOk(th, t, now);
    NextKept(ns[p], 0, f, now, t);
    forall r | IsRef(ns', r)
      ensures NodeOk(ns'[r], now + 1) && (r < f ==> NodeEvolves(ns[r], ns'[r], now, t))
    {
      if r < f && r != p {
        assert NodeOk(ns[r], now);
        NodeKept(ns[r], ns'[r], now, t);
      }
    }
  }

  lemma BottomApart(ns: seq<Node>, ns': seq<Node>, now: int, u: int, p: int, f: int, q: int, v: int)
    requires HeapOk(ns, now) && Evolves(ns, ns', now, u) && Inserted(ns, ns', now, p, f, q, 0)
    requires f == |ns| && IsData(ns, v) && ns'[v].key == ns'[f].key
    ensures Apart(ns'[v], ns'[f])
  {
    assert NodeEvolves(ns[v], ns'[v], now, u) && NodeOk(ns[v], now) && LevelOk(ns[v], 0, now) && LinkOk(ns, p, 0, now);
    EvolvesKeys(ns, ns', now, u);
    assert ns'[p].key == ns[p].key && ns'[q].key == ns[q].key;
    OnNow(ns, now, v, 0);
    if OnAt(ns[v], 0, now) {
      LtTwin(ns', p, f, q, v);
      assert Lt(ns, p, v) && Lt(ns, v, q);
      assert false;
    }
  }

  /** No node enters or leaves the set. */
  lemma SetKept(ns: seq<Node>, ns': seq<Node>, now: int, u: int)
    requires HeapOk(ns, now) && Evolves(ns, ns', now, u) && HeapOk(ns', now + 1)
    requires forall r {:trigger ns'[r]} :: IsRef(ns, r) ==> ns'[r].lin == ns[r].lin && ns'[r].died == ns[r].died
    requires forall r {:trigger ns'[r]} :: |ns| <= r < |ns'| ==> ns'[r].died < 0
    ensures EffectOk(Lives(ns'), Quiet, now)
  {
    LivesFine(ns', now + 1);
    forall r | IsRef(ns', r) ensures ns'[r].lin <= now && ns'[r].died < now {
      assert r < |ns| ==> NodeOk(ns[r], now);
    }
    QuietEffect(Lives(ns'), now);
  }

  /** Sentinels are never touched but for their `next` and lock. */
  lemma SentinelKept(n: Node, n': Node)
    requires SentinelOk(n) && n'.top == n.top && n'.ins == n.ins && !n'.full && !n'.marked
    ensures SentinelOk(n')
  {
    assert forall l :: Ins(n', l) == Ins(n, l);
  }

  lemma BottomLinks(ns: seq<Node>, th: Thread, t: nat, now: nat, r: int, l: int)
    requires HeapOk(ns, now) && th.level == 0 && 0 < |th.preds| && th.top < |th.succs| && th.top <= MAX_LEVEL
    requires MayLink(ns, th.preds[0], th.succs[0], th.key, 0, t) && HasLevel(ns, th.preds[0], 0)
    requires var ns' := LinkNodes(ns, th, t, now);
      Evolves(ns, ns', now, t) && Inserted(ns, ns', now, th.preds[0], |ns|, th.succs[0], 0)
    requires var ns' := LinkNodes(ns, th, t, now); IsRef(ns', r) && r != TAIL && 0 <= Ins(ns'[r], l)
    ensures LinkOk(LinkNodes(ns, th, t, now), r, l, now + 1)
  {
    var ns', p, f, q := LinkNodes(ns, th, t, now), th.preds[0], |ns|, th.succs[0];
    if l == 0 {
      InsertLink(ns, ns', now, t, p, f, q, 0, r);
    } else {
      NewNodeOk(th, t, now);
      assert r != f;
      LinkFrame(ns, ns', now, t, r, l);
    }
  }

  lemma BottomAlone(ns: seq<Node>, ns': seq<Node>, now: int, u: int, p: int, f: int, q: int, r: int, v: int)
    requires HeapOk(ns, now) && Evolves(ns, ns', now, u) && Inserted(ns, ns', now, p, f, q, 0)
    requires f == |ns| && |ns'| == f + 1
    requires IsData(ns', r) && IsData(ns', v) && r != v && ns'[r].key == ns'[v].key
    requires forall w {:trigger ns'[w]} :: IsRef(ns, w) ==>
      ns'[w].key == ns[w].key && Ins(ns'[w], 0) == Ins(ns[w], 0) && Out(ns'[w], 0) == Out(ns[w], 0)
    ensures Apart(ns'[r], ns'[v])
  {
    if r == f {
      BottomApart(ns, ns', now, u, p, f, q, v);
    } else if v == f {
      BottomApart(ns, ns', now, u, p, f, q, r);
    } else {
      assert Apart(ns[r], ns[v]);
    }
  }

  lemma LinkBottomHeap(ns: seq<Node>, th: Thread, t: nat, now: nat)
    requires HeapOk(ns, now) && th.level == 0 && 0 < |th.preds| && th.top < |th.succs| && th.top <= MAX_LEVEL
    requires MayLink(ns, th.preds[0], th.succs[0], th.key, 0, t)
    ensures HasLevel(ns, th.preds[0], 0)
    ensures var ns' := LinkNodes(ns, th, t, now);
      HeapOk(ns', now + 1) && Evolves(ns, ns', now, t) && EffectOk(Lives(ns'), Quiet, now)
  {
    LinkBottom(ns, th, t, now);
    var ns', p, f, q := LinkNodes(ns, th, t, now), th.preds[0], |ns|, th.succs[0];
    SentinelKept(ns[HEAD], ns'[HEAD]);
    SentinelKept(ns[TAIL], ns'[TAIL]);
    assert |ns'| == f + 1 && forall w {:trigger ns'[w]} :: IsRef(ns, w) ==>
      && ns'[w].key == ns[w].key && Ins(ns'[w], 0) == Ins(ns[w], 0) && Out(ns'[w], 0) == Out(ns[w], 0)
      && ns'[w].lin == ns[w].lin && ns'[w].died == ns[w].died;
    assert ns'[f].died < 0;
    hide LinkNodes, MayLink, Inserted, Evolves, NodeOk, LinkOk, EffectOk, SentinelOk;
    forall r, l | IsRef(ns', r) && r != TAIL && 0 <= Ins(ns'[r], l) ensures LinkOk(ns', r, l, now + 1) {
      BottomLinks(ns, th, t, now, r, l);
    }
    forall r, v | IsData(ns', r) && IsData(ns', v) && r != v && ns'[r].key == ns'[v].key ensures Apart(ns'[r], ns'[v]) {
      BottomAlone(ns, ns', now, t, p, f, q, r, v);
    }
    SetKept(ns, ns', now, t);
  }

  /** Node `f`, being built by `t`, put on level `l`. */
  lemma InsKept(n: Node, l: int, now: int, t: int)
    requires NodeOk(n, now) && 0 < l <= n.top && 0 <= now && n.maker == t && !n.full
    requires Ins(n, l) < 0 && 0 <= Ins(n, l - 1)
    ensures var n' := n.(ins := n.ins[l := now + 1]); NodeOk(n', now + 1) && NodeEvolves(n, n', now, t)
  {
    var n', later := n.(ins := n.ins[l := now + 1]), now + 1;
    forall m ensures LevelEvolves(n, n', m, now) {
    }
    forall m ensures Nxt(n', m) == Nxt(n, m) {
    }
    assert Ins(n, l) < 0 && LevelOk(n, l - 1, now) && LevelOk(n, l, now) && (l < n.top ==> LevelOk(n, l + 1, now));
    forall m | 0 <= m <= n.top ensures LevelOk(n', m, later) {
      assert LevelOk(n, m, now);
    }
  }

  /** Linking the new node at a higher level. */
  lemma LinkUpper(ns: seq<Node>, th: Thread, t: nat, now: nat)
    requires HeapOk(ns, now) && 0 < th.level < |th.preds| && th.level < |th.succs| && th.top < |th.succs|
    requires var p, f, q, l := th.preds[th.level], th.own, th.succs[th.level], th.level;
      && MayLink(ns, p, q, th.key, l, t)
      && IsData(ns, f) && ns[f].key == th.key && ns[f].maker == t && !ns[f].full && l <= ns[f].top
      && Ins(ns[f], l) < 0 && 0 <= Ins(ns[f], l - 1) && Nxt(ns[f], l) == q
    ensures HasLevel(ns, th.preds[th.level], th.level) && HasLevel(ns, th.own, th.level)
    ensures var ns' := LinkNodes(ns, th, t, now);
      && Evolves(ns, ns', now, t) && Inserted(ns, ns', now, th.preds[th.level], th.own, th.succs[th.level], th.level)
      && (forall r :: IsRef(ns', r) ==> NodeOk(ns'[r], now + 1))
  {
    var p, f, q, l := th.preds[th.level], th.own, th.succs[th.level], th.level;
    UnmarkedIsOn(ns, now, p, l);
    assert NodeOk(ns[p], now) && NodeOk(ns[f], now) && LevelOk(ns[f], l, now);
    assert LinkOk(ns, p, l, now);
    OnNow(ns, now, q, l);
    LinkUpperNodes(ns, th, t, now);
  }

  lemma LinkUpperNodes(ns: seq<Node>, th: Thread, t: nat, now: nat)
    requires 0 < th.level < |th.preds| && th.top < |th.succs|
    requires forall r :: IsRef(ns, r) ==> NodeOk(ns[r], now)
    requires var p, f, l := th.preds[th.level], th.own, th.level;
      && IsRef(ns, p) && IsRef(ns, f) && p != f && l <= ns[p].top && l <= ns[f].top
      && ns[p].lock == t && !ns[p].marked && 0 <= Ins(ns[p], l)
      && ns[f].maker == t && !ns[f].full && Ins(ns[f], l) < 0 && 0 <= Ins(ns[f], l - 1)
    ensures HasLevel(ns, th.preds[th.level], th.level) && HasLevel(ns, th.own, th.level)
    ensures var ns' := LinkNodes(ns, th, t, now);
      Evolves(ns, ns', now, t) && forall r :: IsRef(ns', r) ==> NodeOk(ns'[r], now + 1)
  {
    var p, f, l := th.preds[th.level], th.own, th.level;
    assert NodeOk(ns[p], now) && NodeOk(ns[f], now);
    var ns' := LinkNodes(ns, th, t, now);
    NextKept(ns[p], l, f, now, t);
    InsKept(ns[f], l, now, t);
    hide NodeOk, NodeEvolves;
    forall r | IsRef(ns', r) ensures NodeOk(ns'[r], now + 1) && NodeEvolves(ns[r], ns'[r], now, t) {
      assert NodeOk(ns[r], now);
      if r != p && r != f {
        NodeKept(ns[r], ns'[r], now, t);
      }
    }
  }

  lemma LinkUpperHeap(ns: seq<Node>, th: Thread, t: nat, now: nat)
    requires HeapOk(ns, now) && 0 < th.level < |th.preds| && th.level < |th.succs| && th.top < |th.succs|
    requires var p, f, q, l := th.preds[th.level], th.own, th.succs[th.level], th.level;
      && MayLink(ns, p, q, th.key, l, t)
      && IsData(ns, f) && ns[f].key == th.key && ns[f].maker == t && !ns[f].full && l <= ns[f].top
      && Ins(ns[f], l) < 0 && 0 <= Ins(ns[f], l - 1) && Nxt(ns[f], l) == q
    ensures HasLevel(ns, th.preds[th.level], th.level) && HasLevel(ns, th.own, th.level)
    ensures var ns' := LinkNodes(ns, th, t, now);
      HeapOk(ns', now + 1) && Evolves(ns, ns', now, t) && EffectOk(Lives(ns'), Quiet, now)
  {
    LinkUpper(ns, th, t, now);
    var ns', p, f, q, l := LinkNodes(ns, th, t, now), th.preds[th.level], th.own, th.succs[th.level], th.level;
    forall r, m | IsRef(ns', r) && r != TAIL && 0 <= Ins(ns'[r], m) ensures LinkOk(ns', r, m, now + 1) {
      UpperLink(ns, ns', now, t, p, f, q, l, r, m);
    }
    Rebuilt(ns, ns', now, t);
  }

  lemma UpperLink(ns: seq<Node>, ns': seq<Node>, now: int, u: int, p: int, f: int, q: int, l: int, r: int, m: int)
    requires HeapOk(ns, now) && Evolves(ns, ns', now, u) && Inserted(ns, ns', now, p, f, q, l) && 0 <= l && |ns'| == |ns|
    requires IsRef(ns', r) && r != TAIL && 0 <= Ins(ns'[r], m)
    requires m != l ==> SameChain(ns, ns', m) && Nxt(ns'[r], m) == Nxt(ns[r], m)
    ensures LinkOk(ns', r, m, now + 1)
  {
    if m == l {
      InsertLink(ns, ns', now, u, p, f, q, l, r);
    } else {
      LinkFrame(ns, ns', now, u, r, m);
    }
  }

  lemma Rebuilt(ns: seq<Node>, ns': seq<Node>, now: int, u: int)
    requires HeapOk(ns, now) && Evolves(ns, ns', now, u) && |ns'| == |ns|
    requires forall r {:trigger ns'[r]} :: IsRef(ns, r) ==>
      && ns'[r].lin == ns[r].lin && ns'[r].died == ns[r].died && Ins(ns'[r], 0) == Ins(ns[r], 0)
    requires ns'[HEAD].ins == ns[HEAD].ins && ns'[TAIL].ins == ns[TAIL].ins
    requires forall r :: IsRef(ns', r) ==> NodeOk(ns'[r], now + 1)
    requires forall r, m {:trigger LinkOk(ns', r, m, now + 1)} ::
      IsRef(ns', r) && r != TAIL && 0 <= Ins(ns'[r], m) ==> LinkOk(ns', r, m, now + 1)
    ensures HeapOk(ns', now + 1) && EffectOk(Lives(ns'), Quiet, now)
  {
    forall r | IsRef(ns, r)
      ensures ns'[r].key == ns[r].key && (0 <= Out(ns[r], 0) ==> Out(ns'[r], 0) == Out(ns[r], 0))
    {
      assert NodeEvolves(ns[r], ns'[r], now, u);
      assert LevelEvolves(ns[r], ns'[r], 0, now);
    }
    KeptApart(ns, ns');
    assert NodeEvolves(ns[HEAD], ns'[HEAD], now, u) && NodeEvolves(ns[TAIL], ns'[TAIL], now, u);
    assert NodeOk(ns'[HEAD], now + 1) && NodeOk(ns'[TAIL], now + 1) && NodeOk(ns[HEAD], now) && NodeOk(ns[TAIL], now);
    SentinelKept(ns[HEAD], ns'[HEAD]);
    SentinelKept(ns[TAIL], ns'[TAIL]);
    SetKept(ns, ns', now, u);
  }

  lemma KeptApart(ns: seq<Node>, ns': seq<Node>)
    requires |ns'| == |ns|
    requires forall r, v {:trigger Apart(ns[r], ns[v])} ::
      IsData(ns, r) && IsData(ns, v) && r != v && ns[r].key == ns[v].key ==> Apart(ns[r], ns[v])
    requires forall r {:trigger ns'[r]} :: IsRef(ns, r) ==>
      ns'[r].key == ns[r].key && Ins(ns'[r], 0) == Ins(ns[r], 0) && (0 <= Out(ns[r], 0) ==> Out(ns'[r], 0) == Out(ns[r], 0))
    ensures forall r, v {:trigger Apart(ns'[r], ns'[v])} ::
      IsData(ns', r) && IsData(ns', v) && r != v && ns'[r].key == ns'[v].key ==> Apart(ns'[r], ns'[v])
  {
    forall r, v | IsData(ns', r) && IsData(ns', v) && r != v && ns'[r].key == ns'[v].key ensures Apart(ns'[r], ns'[v]) {
      assert Apart(ns[r], ns[v]);
    }
  }

  /** Setting `fully_linked` adds exactly the key, which was absent. */
  lemma PublishHeap(ns: seq<Node>, f: int, t: nat, now: nat)
    requires HeapOk(ns, now) && IsData(ns, f) && ns[f].maker == t && !ns[f].full
    requires forall l :: 0 <= l <= ns[f].top ==> 0 <= Ins(ns[f], l)
    ensures var ns' := PublishNodes(ns, f, now);
      HeapOk(ns', now + 1) && Evolves(ns, ns', now, t) && EffectOk(Lives(ns'), Added(t, ns[f].key), now)
  {
    var ns' := PublishNodes(ns, f, now);
    assert NodeOk(ns[f], now) && LevelOk(ns[f], 0, now);
    forall r | IsRef(ns, r)
      ensures NodeOk(ns'[r], now + 1) && NodeEvolves(ns[r], ns'[r], now, t) && (r != f ==> ns'[r].lin <= now) && ns'[r].died < now
    {
      assert NodeOk(ns[r], now);
      NodeKept(ns[r], ns'[r], now, t);
    }
    SameLinks(ns, ns', now, t);
    LivesFine(ns', now + 1);
    forall r | 0 <= r < |ns'| && r != f && ns'[r].key == ns'[f].key ensures !Alive(LifeOf(ns'[r]), now) {
      AloneInSet(ns, now, now, r, f);
    }
    AddedEffect(Lives(ns'), f, now, t);
  }

  /** The victim `n` taken off level `l` by its eraser. */
  lemma OutKept(n: Node, l: int, now: int, t: int)
    requires NodeOk(n, now) && 0 <= l <= n.top && 0 <= now && n.marked && n.eraser == t
    requires 0 <= Ins(n, l) && Out(n, l) < 0 && (l < n.top ==> 0 <= Out(n, l + 1))
    ensures var n' := n.(outs := n.outs[l := now]); NodeOk(n', now + 1) && NodeEvolves(n, n', now, t)
  {
    var n', later := n.(outs := n.outs[l := now]), now + 1;
    forall m ensures LevelEvolves(n, n', m, now) {
    }
    assert LevelOk(n, l, now) && (0 < l ==> LevelOk(n, l - 1, now)) && (l < n.top ==> LevelOk(n, l + 1, now));
    forall m | 0 <= m <= n.top ensures LevelOk(n', m, later) {
      assert LevelOk(n, m, now);
    }
  }

  ghost predicate MaySplice(ns: seq<Node>, p: int, v: int, q: int, l: int, t: nat) {
    && IsRef(ns, p) && p != TAIL && p != v && IsData(ns, v)
    && ns[p].lock == t && !ns[p].marked && 0 <= Ins(ns[p], l) && Nxt(ns[p], l) == v
    && ns[v].marked && ns[v].eraser == t && 0 <= l <= ns[v].top && Nxt(ns[v], l) == q
    && 0 <= Ins(ns[v], l) && Out(ns[v], l) < 0 && (l < ns[v].top ==> 0 <= Out(ns[v], l + 1))
  }

  lemma SpliceOne(ns: seq<Node>, p: int, v: int, q: int, l: int, t: nat, now: nat)
    requires HeapOk(ns, now) && MaySplice(ns, p, v, q, l, t)
    ensures HasLevel(ns, p, l) && HasLevel(ns, v, l)
    ensures var ns' := SpliceNodes(ns, p, v, l, q, now);
      && Evolves(ns, ns', now, t) && Spliced(ns, ns', now, p, v, q, l)
      && (forall r :: IsRef(ns', r) ==> NodeOk(ns'[r], now + 1))
  {
    UnmarkedIsOn(ns, now, p, l);
    assert NodeOk(ns[p], now) && NodeOk(ns[v], now) && LevelOk(ns[v], l, now);
    assert LinkOk(ns, v, l, now);
    OnNow(ns, now, v, l);
    var ns' := SpliceNodes(ns, p, v, l, q, now);
    NextKept(ns[p], l, q, now, t);
    OutKept(ns[v], l, now, t);
    forall r | IsRef(ns', r) ensures NodeOk(ns'[r], now + 1) && NodeEvolves(ns[r], ns'[r], now, t) {
      assert NodeOk(ns[r], now);
      if r != p && r != v {
        NodeKept(ns[r], ns'[r], now, t);
      }
    }
  }

  lemma SplicedLinks(ns: seq<Node>, p: int, v: int, q: int, l: int, now: nat, t: nat, r: int, m: int)
    requires HeapOk(ns, now) && MaySplice(ns, p, v, q, l, t) && HasLevel(ns, p, l) && HasLevel(ns, v, l)
    requires var ns' := SpliceNodes(ns, p, v, l, q, now);
      Evolves(ns, ns', now, t) && Spliced(ns, ns', now, p, v, q, l) && IsRef(ns', r) && r != TAIL && 0 <= Ins(ns'[r], m)
    ensures LinkOk(SpliceNodes(ns, p, v, l, q, now), r, m, now + 1)
  {
    var ns' := SpliceNodes(ns, p, v, l, q, now);
    if m == l {
      SpliceLink(ns, ns', now, t, p, v, q, l, r);
    } else {
      LinkFrame(ns, ns', now, t, r, m);
    }
  }

  /** Splicing a marked node out of one level leaves the set alone. */
  lemma SpliceHeap(ns: seq<Node>, p: int, v: int, q: int, l: int, t: nat, now: nat)
    requires HeapOk(ns, now) && MaySplice(ns, p, v, q, l, t)
    ensures HasLevel(ns, p, l) && HasLevel(ns, v, l)
    ensures var ns' := SpliceNodes(ns, p, v, l, q, now);
      HeapOk(ns', now + 1) && Evolves(ns, ns', now, t) && EffectOk(Lives(ns'), Quiet, now)
  {
    SpliceOne(ns, p, v, q, l, t, now);
    var ns' := SpliceNodes(ns, p, v, l, q, now);
    assert forall r {:trigger ns'[r]} :: IsRef(ns, r) ==>
      ns'[r].lin == ns[r].lin && ns'[r].died == ns[r].died && Ins(ns'[r], 0) == Ins(ns[r], 0);
    assert ns'[HEAD].ins == ns[HEAD].ins && ns'[TAIL].ins == ns[TAIL].ins && |ns'| == |ns|;
    hide Evolves, NodeOk, EffectOk, HeapOk, SpliceNodes, Spliced, MaySplice, LinkOk;
    forall r, m | IsRef(ns', r) && r != TAIL && 0 <= Ins(ns'[r], m) ensures LinkOk(ns', r, m, now + 1) {
      SplicedLinks(ns, p, v, q, l, now, t, r, m);
    }
    Rebuilt(ns, ns', now, t);
  }
}

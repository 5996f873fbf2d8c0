/** What every step of the Harris-Michael list keeps. */
module LockFreeListProof {
  import opened SetHistory
  import opened Lifetimes
  import opened LockFreeList

  // ---------------------------------------------------------------- order along the list

  predicate IsData(ns: seq<Node>, r: int) { 0 < r < |ns| }

  predicate IsLink(ns: seq<Node>, q: int) { q == NIL || IsData(ns, q) }

  predicate Below(ns: seq<Node>, p: int, k: int)
    requires 0 <= p < |ns|
  {
    p == HEAD || ns[p].key < k
  }

  predicate Above(ns: seq<Node>, q: int, k: int)
    requires IsLink(ns, q)
  {
    q == NIL || k < ns[q].key
  }

  // ---------------------------------------------------------------- the heap

  ghost predicate NodeOk(n: Node, now: int) {
    && LifeOk(LifeOf(n), now)
    && (n.marked <==> 0 <= n.died)
    && (!n.linked ==> n.marked)
  }

  /** A linked node points at the next linked node in key order. */
  ghost predicate LinkOk(ns: seq<Node>, r: int)
    requires 0 <= r < |ns|
  {
    var q := ns[r].next;
    && IsLink(ns, q)
    && (q != NIL ==> ns[q].linked && Below(ns, r, ns[q].key))
    && (forall v :: IsData(ns, v) && ns[v].linked ==> !(Below(ns, r, ns[v].key) && Above(ns, q, ns[v].key)))
  }

  ghost predicate HeapOk(ns: seq<Node>, now: int) {
    && |ns| > 0
    && ns[HEAD].linked && !ns[HEAD].marked && (forall r :: 0 <= r < |ns| ==> (r == HEAD <==> ns[r].born < 0))
    && (forall r {:trigger NodeOk(ns[r], now)} :: 0 <= r < |ns| ==> NodeOk(ns[r], now))
    && (forall r {:trigger IsLink(ns, ns[r].next)} :: 0 <= r < |ns| ==> IsLink(ns, ns[r].next))
    && (forall r {:trigger LinkOk(ns, r)} :: 0 <= r < |ns| && ns[r].linked ==> LinkOk(ns, r))
    && (forall r, v ::
          IsData(ns, r) && IsData(ns, v) && ns[r].linked && ns[v].linked && ns[r].key == ns[v].key ==> r == v)
  }

  // ---------------------------------------------------------------- one thread

  /** In state `i` no key lies strictly between `p` and `q`. */
  ghost predicate Gap(ns: seq<Node>, p: int, q: int, i: int)
    requires 0 <= p < |ns| && IsLink(ns, q)
  {
    forall v :: IsData(ns, v) && Alive(LifeOf(ns[v]), i) ==> !(Below(ns, p, ns[v].key) && Above(ns, q, ns[v].key))
  }

  ghost predicate Searching(ns: seq<Node>, th: Thread, now: int) {
    && 0 <= th.pred < |ns| && IsLink(ns, th.curr)
    && Below(ns, th.pred, th.key)
    && th.start <= th.point <= now
    && Gap(ns, th.pred, th.curr, th.point)
  }

  ghost predicate ThreadOk(ns: seq<Node>, effects: seq<Effect>, t: nat, th: Thread) {
    var now := |effects|;
    && (th.victim != NIL ==> IsData(ns, th.victim) && !ns[th.victim].linked)
    && (th.pc in {Reclaim, ReclaimVictim} <==> th.victim != NIL)
    && (th.pc != Idle ==> 0 <= th.start <= now && 0 <= th.pred < |ns|)
    && match th.pc
       case Idle => true
       case Seek => true
       case Check => Searching(ns, th, now)
       case Reclaim => Searching(ns, th, now)
       case Read => Searching(ns, th, now) && th.curr != NIL
       case Unlink => Searching(ns, th, now) && th.curr != NIL && ns[th.curr].marked && ns[th.curr].next == th.next
       case Link => Searching(ns, th, now) && th.op == Insert && Above(ns, th.curr, th.key)
       case ReadVictim =>
         Searching(ns, th, now) && th.op == Erase && th.curr != NIL && ns[th.curr].key == th.key
       case Mark =>
         && Searching(ns, th, now) && th.op == Erase && th.curr != NIL && ns[th.curr].key == th.key
         && IsLink(ns, th.next)
       case Detach =>
         && IsData(ns, th.curr) && ns[th.curr].marked && ns[th.curr].next == th.next && th.op == Erase && th.result
         && Justified(Lives(ns), effects, t, th.op, th.key, th.result, th.start, th.point)
       case ReclaimVictim =>
         th.op == Erase && th.result && Justified(Lives(ns), effects, t, th.op, th.key, th.result, th.start, th.point)
       case Return => Justified(Lives(ns), effects, t, th.op, th.key, th.result, th.start, th.point)
  }

  // ---------------------------------------------------------------- retiring

  /** Every retired node left the list; none is retired twice, or retired and still to be retired. */
  ghost predicate RetireOk(s: State) {
    && (forall r :: r in s.retired ==> IsData(s.nodes, r) && !s.nodes[r].linked && s.retired[r] == 1)
    && (forall t :: 0 <= t < |s.threads| ==> s.threads[t].victim !in s.retired)
    && (forall t, u | 0 <= t < |s.threads| && 0 <= u < |s.threads| && t != u ::
          s.threads[t].victim != NIL ==> s.threads[t].victim != s.threads[u].victim)
  }

  ghost predicate Inv(s: State) {
    && HeapOk(s.nodes, Now(s))
    && (forall t :: 0 <= t < |s.threads| ==> ThreadOk(s.nodes, s.effects, t, s.threads[t]))
    && RetireOk(s)
    && HistoryOk(Lives(s.nodes), s.effects, s.done)
    && (forall t, d :: 0 <= t < |s.threads| && s.threads[t].pc != Idle && d in s.done && d.who == t ==>
          d.end < s.threads[t].start)
  }

  // ---------------------------------------------------------------- how a heap may evolve

  /** The past is fixed: keys, birth, and everything about a marked node but its being linked. */
  ghost predicate Evolves(ns: seq<Node>, ns': seq<Node>, now: int) {
    && |ns| <= |ns'|
    && (forall r :: 0 <= r < |ns| ==>
          && ns'[r].key == ns[r].key && ns'[r].born == ns[r].born
          && (ns[r].marked ==> ns'[r].marked && ns'[r].next == ns[r].next && ns'[r].died == ns[r].died)
          && (!ns[r].marked ==> ns'[r].died in {-1, now})
          && (ns'[r].linked ==> ns[r].linked))
    && (forall r :: |ns| <= r < |ns'| ==> ns'[r].born == now + 1)
  }

  lemma LivesFine(ns: seq<Node>, now: int)
    requires HeapOk(ns, now)
    ensures LivesOk(Lives(ns), now)
  {
    forall r | 0 <= r < |ns| ensures LifeOk(LifeOf(ns[r]), now) {
      assert NodeOk(ns[r], now);
    }
  }

  lemma LivesGrow(ns: seq<Node>, ns': seq<Node>, now: int)
    requires HeapOk(ns, now) && Evolves(ns, ns', now)
    ensures LivesOk(Lives(ns), now) && Grows(Lives(ns), Lives(ns'), now)
  {
    forall r | 0 <= r < |ns| ensures LifeOk(LifeOf(ns[r]), now) && LifeGrows(LifeOf(ns[r]), LifeOf(ns'[r]), now) {
      assert NodeOk(ns[r], now);
    }
  }

  /** A step of one thread keeps what every other thread relies on. */
  lemma ThreadStable(ns: seq<Node>, ns': seq<Node>, effects: seq<Effect>, e: Effect, t: nat, th: Thread)
    requires HeapOk(ns, |effects|) && Evolves(ns, ns', |effects|) && HeapOk(ns', |effects| + 1)
    requires ThreadOk(ns, effects, t, th)
    ensures ThreadOk(ns', effects + [e], t, th)
  {
    var now := |effects|;
    LivesGrow(ns, ns', now);
    if th.pc in {Detach, ReclaimVictim, Return} {
      JustifiedFixed(Lives(ns), Lives(ns'), effects, e, t, th.op, th.key, th.result, th.start, th.point);
    }
    if th.pc in {Check, Reclaim, Read, Unlink, Link, ReadVictim, Mark} {
      assert Gap(ns', th.pred, th.curr, th.point) by {
        forall v | IsData(ns', v) && Alive(LifeOf(ns'[v]), th.point)
          ensures !(Below(ns', th.pred, ns'[v].key) && Above(ns', th.curr, ns'[v].key))
        {
          assert v < |ns| ==> NodeOk(ns[v], now);
          assert IsData(ns, v) && Alive(LifeOf(ns[v]), th.point);
        }
      }
    }
  }

  // ---------------------------------------------------------------- the three writes

  /** Two linked nodes do not share a successor, and a key fits behind one node only. */
  lemma GapUnique(ns: seq<Node>, now: int, p: int, r: int)
    requires HeapOk(ns, now) && 0 <= p < |ns| && 0 <= r < |ns| && ns[p].linked && ns[r].linked && p != r
    ensures ns[p].next != ns[r].next
    ensures forall k :: !(Below(ns, p, k) && Above(ns, ns[p].next, k) && Below(ns, r, k) && Above(ns, ns[r].next, k))
  {
    assert LinkOk(ns, p) && LinkOk(ns, r);
  }

  lemma QuietHeap(ns: seq<Node>, now: int)
    requires HeapOk(ns, now)
    ensures HeapOk(ns, now + 1) && Evolves(ns, ns, now) && EffectOk(Lives(ns), Quiet, now)
  {
    forall r | 0 <= r < |ns| ensures NodeOk(ns[r], now + 1) && NodeOk(ns[r], now) {
      assert NodeOk(ns[r], now);
    }
    QuietEffect(Lives(ns), now);
  }

  lemma SwingLink(ns: seq<Node>, pred: int, curr: int, next: int, now: int, r: int)
    requires HeapOk(ns, now) && 0 <= pred < |ns| && IsData(ns, curr) && pred != curr
    requires ns[pred].next == curr && ns[pred].linked && ns[curr].linked && ns[curr].next == next
    requires 0 <= r < |ns| && r != curr && ns[r].linked
    ensures LinkOk(Swing(ns, pred, curr, next), r)
  {
    var ns' := Swing(ns, pred, curr, next);
    assert LinkOk(ns, r) && LinkOk(ns, pred) && LinkOk(ns, curr);
    if r != pred {
      GapUnique(ns, now, pred, r);
    } else {
      forall v | IsData(ns', v) && ns'[v].linked ensures !(Below(ns', r, ns'[v].key) && Above(ns', next, ns'[v].key)) {
        assert v != curr;
        assert ns[v].key != ns[curr].key;
      }
    }
  }

  /** Unlinking a marked node keeps the list sorted. */
  lemma SwingHeap(ns: seq<Node>, pred: int, curr: int, next: int, now: int)
    requires HeapOk(ns, now) && 0 <= pred < |ns| && IsData(ns, curr)
    requires ns[pred].next == curr && !ns[pred].marked && ns[curr].marked && ns[curr].next == next
    ensures ns[curr].linked && pred != curr
    ensures var ns' := Swing(ns, pred, curr, next); HeapOk(ns', now + 1) && Evolves(ns, ns', now)
  {
    var ns' := Swing(ns, pred, curr, next);
    assert NodeOk(ns[pred], now) && LinkOk(ns, pred);
    forall r | 0 <= r < |ns'|
      ensures NodeOk(ns'[r], now + 1) && IsLink(ns', ns'[r].next) && (ns'[r].linked ==> LinkOk(ns', r))
    {
      assert NodeOk(ns[r], now) && IsLink(ns, ns[r].next) && IsLink(ns, ns[curr].next);
      if r != curr && ns[r].linked {
        SwingLink(ns, pred, curr, next, now, r);
      }
    }
  }

  function Publish(ns: seq<Node>, pred: int, curr: int, key: int, now: nat): seq<Node>
    requires 0 <= pred < |ns|
  {
    ns[pred := ns[pred].(next := |ns|)] + [Node(key, curr, false, now + 1, -1, true)]
  }

  lemma PublishLink(ns: seq<Node>, pred: int, curr: int, key: int, now: nat, r: int)
    requires HeapOk(ns, now) && 0 <= pred < |ns| && IsLink(ns, curr)
    requires ns[pred].next == curr && ns[pred].linked
    requires Below(ns, pred, key) && Above(ns, curr, key)
    requires 0 <= r <= |ns| && (r < |ns| ==> ns[r].linked)
    ensures LinkOk(Publish(ns, pred, curr, key, now), r)
  {
    var ns' := Publish(ns, pred, curr, key, now);
    assert LinkOk(ns, pred);
    if r < |ns| {
      assert LinkOk(ns, r);
      if r != pred {
        GapUnique(ns, now, pred, r);
        assert ns'[r] == ns[r];
      }
    }
  }

  lemma KeyIsNew(ns: seq<Node>, now: nat, pred: int, key: int, v: int)
    requires HeapOk(ns, now) && 0 <= pred < |ns| && ns[pred].linked
    requires IsLink(ns, ns[pred].next) && Below(ns, pred, key) && Above(ns, ns[pred].next, key)
    requires IsData(ns, v) && ns[v].linked
    ensures ns[v].key != key
  {
    assert LinkOk(ns, pred);
  }

  lemma PublishNode(ns: seq<Node>, pred: int, curr: int, key: int, now: nat, r: int)
    requires HeapOk(ns, now) && 0 <= pred < |ns| && IsLink(ns, curr)
    requires ns[pred].next == curr && ns[pred].linked
    requires Below(ns, pred, key) && Above(ns, curr, key) && 0 <= r <= |ns|
    ensures var ns' := Publish(ns, pred, curr, key, now);
      NodeOk(ns'[r], now + 1) && IsLink(ns', ns'[r].next) && (ns'[r].linked ==> LinkOk(ns', r))
  {
    if r < |ns| {
      assert NodeOk(ns[r], now) && IsLink(ns, ns[r].next);
    }
    if r < |ns| ==> ns[r].linked {
      PublishLink(ns, pred, curr, key, now, r);
    }
  }

  /** Publishing a new node keeps the list sorted. */
  lemma PublishHeap(ns: seq<Node>, pred: int, curr: int, key: int, now: nat)
    requires HeapOk(ns, now) && 0 <= pred < |ns| && IsLink(ns, curr)
    requires ns[pred].next == curr && !ns[pred].marked
    requires Below(ns, pred, key) && Above(ns, curr, key)
    ensures forall v :: IsData(ns, v) && ns[v].linked ==> ns[v].key != key
    ensures var ns' := Publish(ns, pred, curr, key, now); HeapOk(ns', now + 1) && Evolves(ns, ns', now)
  {
    var ns' := Publish(ns, pred, curr, key, now);
    assert NodeOk(ns[pred], now);
    forall v | IsData(ns, v) && ns[v].linked ensures ns[v].key != key {
      KeyIsNew(ns, now, pred, key, v);
    }
    forall r | 0 <= r < |ns'|
      ensures NodeOk(ns'[r], now + 1) && IsLink(ns', ns'[r].next) && (ns'[r].linked ==> LinkOk(ns', r))
    {
      PublishNode(ns, pred, curr, key, now, r);
    }
  }

  /** Marking a node keeps the list sorted. */
  lemma MarkHeap(ns: seq<Node>, curr: int, now: nat)
    requires HeapOk(ns, now) && IsData(ns, curr) && !ns[curr].marked
    ensures var ns' := ns[curr := ns[curr].(marked := true, died := now)]; HeapOk(ns', now + 1) && Evolves(ns, ns', now)
  {
    var ns' := ns[curr := ns[curr].(marked := true, died := now)];
    forall r | 0 <= r < |ns'|
      ensures NodeOk(ns'[r], now + 1) && IsLink(ns', ns'[r].next) && (ns'[r].linked ==> LinkOk(ns', r))
    {
      assert NodeOk(ns[r], now) && IsLink(ns, ns[r].next) && (ns[r].linked ==> LinkOk(ns, r));
    }
  }

  // ---------------------------------------------------------------- every step keeps the invariant

  /** Thread `t` may move on to `th`: same operation or a new one, and a victim of its own. */
  ghost predicate Owns(s: State, t: nat, th: Thread)
    requires t < |s.threads|
  {
    && (th.pc != Idle ==> th.start == Now(s) + 1 || (s.threads[t].pc != Idle && th.start == s.threads[t].start))
    && (th.victim != NIL ==>
      && th.victim !in s.retired
      && forall u :: 0 <= u < |s.threads| && u != t ==> s.threads[u].victim != th.victim)
  }

  lemma DoneEnds(s: State, d: Record)
    requires Inv(s) && d in s.done
    ensures d.end <= Now(s)
  {
    assert RecordOk(Lives(s.nodes), s.effects, d);
  }

  /** The common part of all steps: thread `t` moves on to `th`, the heap to `ns'`, with effect `e`. */
  lemma StepKeeps(s: State, t: nat, th: Thread, ns': seq<Node>, e: Effect)
    requires Inv(s) && t < |s.threads|
    requires Evolves(s.nodes, ns', Now(s)) && HeapOk(ns', Now(s) + 1) && EffectOk(Lives(ns'), e, Now(s))
    requires ThreadOk(ns', s.effects + [e], t, th) && Owns(s, t, th)
    ensures Inv(Heap(s, t, th, ns', e))
  {
    hide ThreadOk, EffectOk;
    var s' := Heap(s, t, th, ns', e);
    forall u | 0 <= u < |s'.threads| ensures ThreadOk(ns', s'.effects, u, s'.threads[u]) {
      if u != t {
        ThreadStable(s.nodes, ns', s.effects, e, u, s.threads[u]);
      }
    }
    LivesGrow(s.nodes, ns', Now(s));
    LivesFine(ns', Now(s) + 1);
    hide HeapOk, RecordOk;
    HistoryStep(Lives(s.nodes), Lives(ns'), s.effects, e, s.done);
    forall d | d in s.done && d.who == t && th.pc != Idle ensures d.end < th.start {
      DoneEnds(s, d);
    }
    assert RetireOk(s');
  }

  lemma LocalKeeps(s: State, t: nat, th: Thread)
    requires Inv(s) && t < |s.threads| && Owns(s, t, th)
    requires ThreadOk(s.nodes, s.effects + [Quiet], t, th)
    ensures Inv(Local(s, t, th)) && Evolves(s.nodes, s.nodes, Now(s))
  {
    QuietHeap(s.nodes, Now(s));
    hide Inv, HeapOk, Evolves, EffectOk, ThreadOk;
    StepKeeps(s, t, th, s.nodes, Quiet);
    assert Local(s, t, th) == Heap(s, t, th, s.nodes, Quiet);
  }

  /** The keys present now are those of the unmarked nodes. */
  lemma AliveIsUnmarked(ns: seq<Node>, now: int, r: int)
    requires HeapOk(ns, now) && IsData(ns, r)
    ensures Alive(LifeOf(ns[r]), now) <==> !ns[r].marked
    ensures !ns[r].marked ==> ns[r].linked
  {
    assert NodeOk(ns[r], now);
  }

  /** Between a linked node and its successor there is no key now. */
  lemma GapNow(ns: seq<Node>, p: int, now: nat)
    requires HeapOk(ns, now) && 0 <= p < |ns| && ns[p].linked
    ensures IsLink(ns, ns[p].next) && Gap(ns, p, ns[p].next, now)
  {
    assert LinkOk(ns, p);
    forall v | IsData(ns, v) && Alive(LifeOf(ns[v]), now)
      ensures !(Below(ns, p, ns[v].key) && Above(ns, ns[p].next, ns[v].key))
    {
      AliveIsUnmarked(ns, now, v);
    }
  }

  /** `find` may answer: what it saw is true of a state inside the operation. */
  lemma AnswerOk(s: State, t: nat, present: bool)
    requires Inv(s) && t < |s.threads|
    requires var th := s.threads[t];
      && Searching(s.nodes, th, Now(s)) && th.pc != Idle && th.victim == NIL
      && (present ==> th.curr != NIL && !s.nodes[th.curr].marked && s.nodes[th.curr].key == th.key)
      && (!present ==> Above(s.nodes, th.curr, th.key))
    ensures ThreadOk(s.nodes, s.effects + [Quiet], t, AfterFind(s.threads[t], present, Now(s)))
  {
    var th, ns, ls := s.threads[t], s.nodes, Lives(s.nodes);
    if present {
      AliveIsUnmarked(ns, Now(s), th.curr);
      assert ls[th.curr].key == th.key && Alive(ls[th.curr], Now(s));
    } else if r :| 0 <= r < |ls| && ls[r].key == th.key && Alive(ls[r], th.point) {
      assert false;
    }
  }

  lemma UnmarkedIsLinked(ns: seq<Node>, now: int, r: int)
    requires HeapOk(ns, now) && 0 <= r < |ns| && !ns[r].marked
    ensures ns[r].linked && LinkOk(ns, r) && IsLink(ns, ns[r].next)
  {
    assert NodeOk(ns[r], now);
  }

  lemma SeekKeeps(s: State, t: nat)
    requires Inv(s) && Runnable(s, t) && s.threads[t].pc in {Seek, Check}
    ensures Inv(Advance(s, t)) && Evolves(s.nodes, Advance(s, t).nodes, Now(s))
  {
    var th, ns, now := s.threads[t], s.nodes, Now(s);
    assert ThreadOk(ns, s.effects, t, th);
    if th.pc == Seek {
      GapNow(ns, HEAD, now);
      LocalKeeps(s, t, th.(pc := Check, pred := HEAD, curr := ns[HEAD].next, point := now));
    } else if th.curr == NIL {
      AnswerOk(s, t, false);
      LocalKeeps(s, t, AfterFind(th, false, now));
    } else {
      LocalKeeps(s, t, th.(pc := if ns[th.pred].next != th.curr then Seek else Read));
    }
  }

  lemma ReadKeeps(s: State, t: nat)
    requires Inv(s) && Runnable(s, t) && s.threads[t].pc in {Read, ReadVictim}
    ensures Inv(Advance(s, t)) && Evolves(s.nodes, Advance(s, t).nodes, Now(s))
  {
    var th, ns, now := s.threads[t], s.nodes, Now(s);
    var c := ns[th.curr];
    assert ThreadOk(ns, s.effects, t, th);
    if th.pc == ReadVictim {
      assert IsLink(ns, c.next);
      LocalKeeps(s, t, th.(pc := Mark, next := c.next));
    } else if c.marked {
      LocalKeeps(s, t, th.(pc := Unlink, next := c.next));
    } else if c.key < th.key {
      UnmarkedIsLinked(ns, now, th.curr);
      GapNow(ns, th.curr, now);
      LocalKeeps(s, t, th.(pc := Check, pred := th.curr, curr := c.next, point := now));
    } else {
      AnswerOk(s, t, c.key == th.key);
      LocalKeeps(s, t, AfterFind(th, c.key == th.key, now));
    }
  }

  lemma SwingEffect(ns: seq<Node>, pred: int, curr: int, next: int, now: int)
    requires HeapOk(ns, now) && 0 <= pred < |ns| && IsData(ns, curr)
    requires HeapOk(Swing(ns, pred, curr, next), now + 1)
    ensures EffectOk(Lives(Swing(ns, pred, curr, next)), Quiet, now)
  {
    var ns' := Swing(ns, pred, curr, next);
    forall r | 0 <= r < |ns'| ensures LifeOf(ns'[r]) == LifeOf(ns[r]) && NodeOk(ns'[r], now + 1) && NodeOk(ns[r], now) {
      assert NodeOk(ns[r], now) && NodeOk(ns'[r], now + 1);
    }
    QuietEffect(Lives(ns'), now);
  }

  lemma UnlinkKeeps(s: State, t: nat)
    requires Inv(s) && Runnable(s, t) && s.threads[t].pc in {Unlink, Detach}
    ensures Inv(Advance(s, t)) && Evolves(s.nodes, Advance(s, t).nodes, Now(s))
  {
    var th, ns, now := s.threads[t], s.nodes, Now(s);
    assert ThreadOk(ns, s.effects, t, th);
    if ns[th.pred].next == th.curr && !ns[th.pred].marked {
      SwingHeap(ns, th.pred, th.curr, th.next, now);
      SwingEffect(ns, th.pred, th.curr, th.next, now);
      var ns' := Swing(ns, th.pred, th.curr, th.next);
      var th' := if th.pc == Unlink
        then th.(pc := Reclaim, victim := th.curr, curr := th.next, point := now + 1)
        else th.(pc := ReclaimVictim, victim := th.curr);
      ThreadStable(ns, ns', s.effects, Quiet, t, th);
      if th.pc == Unlink {
        UnmarkedIsLinked(ns, now, th.pred);
        GapNow(ns', th.pred, now + 1);
      }
      StepKeeps(s, t, th', ns', Quiet);
    } else {
      LocalKeeps(s, t, th.(pc := if th.pc == Unlink then Seek else Return));
    }
  }

  lemma PublishEffect(ns: seq<Node>, pred: int, curr: int, key: int, now: nat, who: nat)
    requires HeapOk(ns, now) && 0 <= pred < |ns|
    requires forall v :: IsData(ns, v) && ns[v].linked ==> ns[v].key != key
    requires HeapOk(Publish(ns, pred, curr, key, now), now + 1)
    ensures EffectOk(Lives(Publish(ns, pred, curr, key, now)), Added(who, key), now)
  {
    var ns' := Publish(ns, pred, curr, key, now);
    forall r | 0 <= r < |ns'|
      ensures NodeOk(ns'[r], now + 1) && (r < |ns| ==> NodeOk(ns[r], now) && LifeOf(ns'[r]) == LifeOf(ns[r]))
    {
      assert NodeOk(ns'[r], now + 1) && (r < |ns| ==> NodeOk(ns[r], now));
    }
    AddedEffect(Lives(ns'), |ns|, now, who);
  }

  lemma MarkEffect(ns: seq<Node>, curr: int, now: nat, who: nat)
    requires HeapOk(ns, now) && IsData(ns, curr) && !ns[curr].marked
    requires HeapOk(ns[curr := ns[curr].(marked := true, died := now)], now + 1)
    ensures EffectOk(Lives(ns[curr := ns[curr].(marked := true, died := now)]), Removed(who, ns[curr].key), now)
  {
    var ns' := ns[curr := ns[curr].(marked := true, died := now)];
    forall r | 0 <= r < |ns'| ensures NodeOk(ns'[r], now + 1) && NodeOk(ns[r], now) {
      assert NodeOk(ns'[r], now + 1) && NodeOk(ns[r], now);
    }
    RemovedEffect(Lives(ns'), curr, now, who);
  }

  lemma LinkKeeps(s: State, t: nat)
    requires Inv(s) && Runnable(s, t) && s.threads[t].pc == Link
    ensures Inv(Advance(s, t)) && Evolves(s.nodes, Advance(s, t).nodes, Now(s))
  {
    var th, ns, now := s.threads[t], s.nodes, Now(s);
    assert ThreadOk(ns, s.effects, t, th);
    if ns[th.pred].next == th.curr && !ns[th.pred].marked {
      var ns' := Publish(ns, th.pred, th.curr, th.key, now);
      PublishHeap(ns, th.pred, th.curr, th.key, now);
      PublishEffect(ns, th.pred, th.curr, th.key, now, t);
      StepKeeps(s, t, th.(pc := Return, result := true, point := now), ns', Added(t, th.key));
    } else {
      LocalKeeps(s, t, th.(pc := Seek));
    }
  }

  lemma MarkKeeps(s: State, t: nat)
    requires Inv(s) && Runnable(s, t) && s.threads[t].pc == Mark
    ensures Inv(Advance(s, t)) && Evolves(s.nodes, Advance(s, t).nodes, Now(s))
  {
    var th, ns, now := s.threads[t], s.nodes, Now(s);
    assert ThreadOk(ns, s.effects, t, th);
    var c := ns[th.curr];
    if c.next == th.next && !c.marked {
      var ns' := ns[th.curr := c.(marked := true, died := now)];
      MarkHeap(ns, th.curr, now);
      MarkEffect(ns, th.curr, now, t);
      StepKeeps(s, t, th.(pc := Detach, result := true, point := now), ns', Removed(t, th.key));
    } else {
      LocalKeeps(s, t, th.(pc := Seek));
    }
  }

  /** `reclaim_later` takes a node that nobody retired before. */
  lemma ReclaimKeeps(s: State, t: nat)
    requires Inv(s) && Runnable(s, t) && s.threads[t].pc in {Reclaim, ReclaimVictim}
    ensures Inv(Advance(s, t)) && Evolves(s.nodes, Advance(s, t).nodes, Now(s))
  {
    var th := s.threads[t];
    assert ThreadOk(s.nodes, s.effects, t, th);
    var th' := th.(pc := if th.pc == Reclaim then Check else Return, victim := NIL);
    LocalKeeps(s, t, th');
    var m, s' := Local(s, t, th'), Advance(s, t);
    assert s' == m.(retired := s.retired + multiset{th.victim});
    assert RetireOk(s');
  }

  lemma ReturnKeeps(s: State, t: nat)
    requires Inv(s) && Runnable(s, t) && s.threads[t].pc == Return
    ensures Inv(Advance(s, t)) && Evolves(s.nodes, Advance(s, t).nodes, Now(s))
  {
    var th := s.threads[t];
    assert ThreadOk(s.nodes, s.effects, t, th);
    LocalKeeps(s, t, th.(pc := Idle));
    hide HeapOk, EffectOk, Evolves, ThreadOk;
    var m, s' := Local(s, t, th.(pc := Idle)), Advance(s, t);
    var r := Record(t, th.op, th.key, th.result, th.start, th.point, Now(s));
    assert s' == m.(done := s.done + [r]);
    assert forall d :: d in s'.done ==> d == r || RecordOk(Lives(m.nodes), m.effects, d);
  }

  lemma InvokeKeeps(s: State, t: nat, op: Op, key: int)
    requires Inv(s) && t < |s.threads| && s.threads[t].pc == Idle
    ensures Inv(Invoke(s, t, op, key)) && Evolves(s.nodes, s.nodes, Now(s))
  {
    assert ThreadOk(s.nodes, s.effects, t, s.threads[t]);
    LocalKeeps(s, t, Thread(Seek, op, key, HEAD, NIL, NIL, NIL, false, Now(s) + 1, 0));
  }

  /** Every step keeps the invariant, and the past: a marked node is frozen for good. */
  lemma NextKeeps(s: State, s': State)
    requires Inv(s) && Next(s, s')
    ensures Inv(s') && Evolves(s.nodes, s'.nodes, Now(s))
  {
    hide Inv, Evolves, Advance;
    if t: nat, op, key :| t < |s.threads| && s.threads[t].pc == Idle && s' == Invoke(s, t, op, key) {
      InvokeKeeps(s, t, op, key);
    } else {
      var t: nat :| Runnable(s, t) && s' == Advance(s, t);
      match s.threads[t].pc
      case Seek | Check => SeekKeeps(s, t);
      case Read | ReadVictim => ReadKeeps(s, t);
      case Unlink | Detach => UnlinkKeeps(s, t);
      case Link => LinkKeeps(s, t);
      case Mark => MarkKeeps(s, t);
      case Reclaim | ReclaimVictim => ReclaimKeeps(s, t);
      case Return => ReturnKeeps(s, t);
    }
  }

  lemma NextLogs(s: State, s': State)
    requires Next(s, s')
    ensures Now(s') == Now(s) + 1 && s'.effects[..Now(s)] == s.effects
  {
    if t: nat, op, key :| t < |s.threads| && s.threads[t].pc == Idle && s' == Invoke(s, t, op, key) {
    } else {
      var t: nat :| Runnable(s, t) && s' == Advance(s, t);
      assert exists e :: s'.effects == s.effects + [e];
    }
  }

  lemma InitOk(s: State)
    requires Init(s)
    ensures Inv(s)
  {
  }
}

/** What the Harris-Michael list promises of every run. */
module LockFreeListTheorems {
  import opened SetHistory
  import opened Lifetimes
  import opened LockFreeList
  import opened LockFreeListProof

  ghost predicate StepAt(run: seq<State>, i: int) {
    0 <= i < |run| - 1 && Next(run[i], run[i + 1])
  }

  ghost predicate Run(run: seq<State>) {
    |run| > 0 && Init(run[0]) && forall i :: 0 <= i < |run| - 1 ==> StepAt(run, i)
  }

  lemma {:induction false} RunKeeps(run: seq<State>, i: nat)
    requires Run(run) && i < |run|
    ensures Inv(run[i]) && Now(run[i]) == i
  {
    hide Inv, Next;
    if i == 0 {
      InitOk(run[0]);
    } else {
      RunKeeps(run, i - 1);
      assert StepAt(run, i - 1);
      NextKeeps(run[i - 1], run[i]);
      NextLogs(run[i - 1], run[i]);
    }
  }

  lemma RunStep(run: seq<State>, i: nat)
    requires Run(run) && i + 1 < |run|
    ensures Evolves(run[i].nodes, run[i + 1].nodes, i)
    ensures |run[i].effects| == i && |run[i + 1].effects| == i + 1 && run[i + 1].effects[..i] == run[i].effects
  {
    hide Inv, Next, Evolves;
    RunKeeps(run, i);
    assert StepAt(run, i);
    NextKeeps(run[i], run[i + 1]);
    NextLogs(run[i], run[i + 1]);
  }

  /** No thread ever dereferences null: every thread inside an operation can take its next step. */
  lemma NeverStuck(run: seq<State>, i: nat, t: nat)
    requires Run(run) && i < |run| && t < |run[i].threads| && run[i].threads[t].pc != Idle
    ensures Runnable(run[i], t)
  {
    RunKeeps(run, i);
    assert ThreadOk(run[i].nodes, run[i].effects, t, run[i].threads[t]);
  }

  // ---------------------------------------------------------------- the list in memory

  /** The linked nodes behind `r`. */
  ghost function Behind(ns: seq<Node>, r: int): set<int>
    requires 0 <= r < |ns|
  {
    set v | 0 < v < |ns| && ns[v].linked && v != r && Below(ns, r, ns[v].key)
  }

  lemma BehindNext(ns: seq<Node>, now: nat, r: int)
    requires HeapOk(ns, now) && 0 <= r < |ns| && ns[r].linked
    ensures IsLink(ns, ns[r].next)
    ensures ns[r].next == NIL ==> Behind(ns, r) == {}
    ensures ns[r].next != NIL ==>
      && ns[ns[r].next].linked && ns[r].next !in Behind(ns, ns[r].next)
      && Behind(ns, r) == {ns[r].next} + Behind(ns, ns[r].next)
  {
    assert LinkOk(ns, r);
    var q := ns[r].next;
    if q != NIL {
      forall v ensures v in Behind(ns, r) <==> v == q || v in Behind(ns, q) {
        if v in Behind(ns, r) && v != q {
          assert ns[v].key != ns[q].key;
        }
      }
    }
  }

  /** The chain that following `next` from the linked node `r` visits. */
  ghost function Chain(ns: seq<Node>, now: nat, r: int): (c: seq<int>)
    requires HeapOk(ns, now) && 0 <= r < |ns| && ns[r].linked
    ensures |c| > 0 && c[0] == r
    decreases Behind(ns, r)
  {
    BehindNext(ns, now, r);
    if ns[r].next == NIL then [r] else [r] + Chain(ns, now, ns[r].next)
  }

  ghost predicate IsChain(ns: seq<Node>, c: seq<int>) {
    && (forall a :: 0 <= a < |c| ==> 0 <= c[a] < |ns|)
    && (forall a :: 0 <= a < |c| - 1 ==> ns[c[a]].next == c[a + 1])
    && (|c| > 0 ==> ns[c[|c| - 1]].next == NIL)
  }

  /** The chain from `r` ends in null and visits exactly the linked nodes behind `r`. */
  lemma {:induction false} ChainVisits(ns: seq<Node>, now: nat, r: int)
    requires HeapOk(ns, now) && 0 <= r < |ns| && ns[r].linked
    ensures IsChain(ns, Chain(ns, now, r))
    ensures forall v :: v in Chain(ns, now, r) <==> v == r || v in Behind(ns, r)
    decreases Behind(ns, r)
  {
    BehindNext(ns, now, r);
    if ns[r].next != NIL {
      ChainVisits(ns, now, ns[r].next);
      var c, d := Chain(ns, now, r), Chain(ns, now, ns[r].next);
      assert c == [r] + d;
      hide HeapOk, LinkOk, NodeOk, Chain, Behind;
      forall v ensures v in c <==> v == r || v in d {
      }
    }
  }

  lemma {:induction false} ChainSorted(ns: seq<Node>, now: nat, r: int, a: nat, b: nat)
    requires HeapOk(ns, now) && 0 <= r < |ns| && ns[r].linked
    requires a < b < |Chain(ns, now, r)|
    ensures var c := Chain(ns, now, r); 0 <= c[a] < |ns| && IsData(ns, c[b]) && Below(ns, c[a], ns[c[b]].key)
    decreases Behind(ns, r)
  {
    BehindNext(ns, now, r);
    ChainVisits(ns, now, r);
    if ns[r].next != NIL && a > 0 {
      ChainSorted(ns, now, ns[r].next, a - 1, b - 1);
    } else {
      assert Chain(ns, now, r)[b] in Chain(ns, now, r);
      if ns[r].next != NIL {
        ChainVisits(ns, now, ns[r].next);
        assert Chain(ns, now, r)[b] == Chain(ns, now, ns[r].next)[b - 1];
        assert Chain(ns, now, ns[r].next)[b - 1] in Chain(ns, now, ns[r].next);
      }
    }
  }

  /** In every state of every run the chain from head is strictly sorted, ends in null, visits exactly
      the linked nodes, and so reaches every unmarked one. */
  lemma ListSorted(run: seq<State>, i: nat)
    requires Run(run) && i < |run|
    ensures HeapOk(run[i].nodes, i)
    ensures var ns := run[i].nodes; var c := Chain(ns, i, HEAD);
      && IsChain(ns, c)
      && (forall a, b :: 0 <= a < b < |c| ==> IsData(ns, c[b]) && (a == 0 || ns[c[a]].key < ns[c[b]].key))
      && (forall v :: IsData(ns, v) ==> (v in c <==> ns[v].linked) && (!ns[v].marked ==> v in c))
  {
    RunKeeps(run, i);
    var ns := run[i].nodes;
    ChainVisits(ns, i, HEAD);
    var c := Chain(ns, i, HEAD);
    forall a, b | 0 <= a < b < |c| ensures IsData(ns, c[b]) && (a == 0 || ns[c[a]].key < ns[c[b]].key) {
      ChainSorted(ns, i, HEAD, a, b);
      if a > 0 {
        ChainSorted(ns, i, HEAD, 0, a);
      }
    }
    forall v | IsData(ns, v) ensures (v in c <==> ns[v].linked) && (!ns[v].marked ==> v in c) {
      assert NodeOk(ns[v], i);
    }
  }

  /** A marked node never changes again, and an unlinked node is never linked again. */
  lemma {:induction false} MarkedIsFrozen(run: seq<State>, i: nat, j: nat, r: int)
    requires Run(run) && i <= j < |run| && 0 <= r < |run[i].nodes|
    ensures r < |run[j].nodes|
    ensures run[j].nodes[r].key == run[i].nodes[r].key
    ensures run[i].nodes[r].marked ==> run[j].nodes[r].marked && run[j].nodes[r].next == run[i].nodes[r].next
    ensures !run[i].nodes[r].linked ==> !run[j].nodes[r].linked
  {
    if i < j {
      MarkedIsFrozen(run, i, j - 1, r);
      RunStep(run, j - 1);
    }
  }

  /** No node is retired twice; a retired node is marked and off the chain, now and for good. */
  lemma RetiredOnce(run: seq<State>, i: nat, j: nat, r: int)
    requires Run(run) && i <= j < |run| && r in run[i].retired
    ensures run[i].retired[r] == 1
    ensures 0 < r < |run[j].nodes| && run[j].nodes[r].marked && !run[j].nodes[r].linked
    ensures HeapOk(run[j].nodes, j) && r !in Chain(run[j].nodes, j, HEAD)
  {
    RunKeeps(run, i);
    assert NodeOk(run[i].nodes[r], i);
    MarkedIsFrozen(run, i, j, r);
    ListSorted(run, j);
  }

  // ---------------------------------------------------------------- the set

  /** The set: the keys on unmarked nodes. */
  function Contents(ns: seq<Node>): set<int> {
    set r | 0 < r < |ns| && !ns[r].marked :: ns[r].key
  }

  lemma {:induction false} RunHistory(run: seq<State>, i: nat, j: nat)
    requires Run(run) && i <= j < |run|
    ensures |run[i].effects| == i && |run[j].effects| == j && run[i].effects == run[j].effects[..i]
  {
    if i < j {
      RunHistory(run, i, j - 1);
      RunStep(run, j - 1);
      assert run[j].effects[..i] == run[j].effects[..j - 1][..i];
    } else {
      RunKeeps(run, i);
    }
  }

  /** The history variables tell the truth: the set after `i` steps is the contents of state `i`. */
  lemma HistoryIsTrue(run: seq<State>, i: nat, j: nat)
    requires Run(run) && i <= j < |run|
    ensures |run[j].effects| == j && SetAt(run[j].effects, i) == Contents(run[i].nodes)
  {
    RunHistory(run, i, j);
    RunKeeps(run, i);
    RunKeeps(run, j);
    SetAtPrefix(run[i].effects, run[j].effects, i);
    var ns := run[i].nodes;
    forall k ensures k in SetAt(run[i].effects, i) <==> k in Contents(ns) {
      HasSetAt(Lives(ns), run[i].effects, run[i].done, i, k);
      if r :| 0 <= r < |ns| && Lives(ns)[r].key == k && Alive(Lives(ns)[r], i) {
        AliveIsUnmarked(ns, i, r);
      }
      if k in Contents(ns) {
        var r :| 0 < r < |ns| && !ns[r].marked && ns[r].key == k;
        AliveIsUnmarked(ns, i, r);
        assert Lives(ns)[r].key == k;
      }
    }
  }

  /** Every answer is right about a state between invocation and return: a failed insert, a failed
      erase and a contains report what held in state `point`; a successful insert or erase is the step
      from `point`, which adds or removes exactly its key. */
  lemma AnswersAreRight(run: seq<State>, j: nat, d: Record)
    requires Run(run) && j < |run| && d in run[j].done
    ensures d.start <= d.point <= d.end <= j
    ensures Writes(d.op, d.result) ==> d.point < j
    ensures Meets(d, Contents(run[d.point].nodes),
                  Contents(run[if Writes(d.op, d.result) then d.point + 1 else d.point].nodes))
  {
    RunKeeps(run, j);
    HistoryExplains(Lives(run[j].nodes), run[j].effects, run[j].done);
    assert RecordOk(Lives(run[j].nodes), run[j].effects, d);
    AnswerMeets(run[j].effects, run[j].done, d);
    HistoryIsTrue(run, d.point, j);
    HistoryIsTrue(run, if Writes(d.op, d.result) then d.point + 1 else d.point, j);
  }

  /** One step changes the contents only as its effect says: an unlink changes nothing. */
  lemma StepChanges(run: seq<State>, i: nat)
    requires Run(run) && i + 1 < |run|
    ensures |run[i + 1].effects| == i + 1
    ensures var a, b := Contents(run[i].nodes), Contents(run[i + 1].nodes);
      match run[i + 1].effects[i]
      case Quiet => b == a
      case Added(_, key) => key !in a && b == a + {key}
      case Removed(_, key) => key in a && b == a - {key}
  {
    RunKeeps(run, i + 1);
    HistoryExplains(Lives(run[i + 1].nodes), run[i + 1].effects, run[i + 1].done);
    HistoryIsTrue(run, i, i + 1);
    HistoryIsTrue(run, i + 1, i + 1);
  }

  /** Every run of the list is linearizable. */
  lemma ListLinearizable(run: seq<State>, j: nat)
    requires Run(run) && j < |run|
    ensures Explained(run[j].effects, run[j].done)
    ensures var h := Linearization(run[j].effects, run[j].done);
      && Legal(run[j].effects, run[j].done, h)
      && Outcome(run[j].effects, h) == Contents(run[j].nodes)
      && (forall i: nat :: i < |run[j].done| ==> Placed(run[j].done, h, i))
      && (forall i: nat, k: nat, a: nat, b: nat :: Places(run[j].done, h, i, a) && Places(run[j].done, h, k, b) ==>
            (i == k <==> a == b) && (run[j].done[i].end < run[j].done[k].start ==> a < b))
  {
    RunKeeps(run, j);
    HistoryExplains(Lives(run[j].nodes), run[j].effects, run[j].done);
    Linearizable(run[j].effects, run[j].done);
    HistoryIsTrue(run, j, j);
  }
}

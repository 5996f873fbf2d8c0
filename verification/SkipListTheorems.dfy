/** What the lazy skip list promises of every run. */
module SkipListTheorems {
  import opened SetHistory
  import opened Lifetimes
  import opened SkipList
  import opened SkipListHeap
  import opened SkipListProof
  import opened SkipListSteps
  import opened SkipListAdding
  import opened SkipListRemoving

  ghost predicate StepAt(run: seq<State>, i: int) {
    0 <= i < |run| - 1 && Next(run[i], run[i + 1])
  }

  ghost predicate Run(run: seq<State>) {
    |run| > 0 && Init(run[0]) && forall i :: 0 <= i < |run| - 1 ==> StepAt(run, i)
  }

  lemma SentinelsOk()
    ensures HeapOk(SENTINELS, 0)
  {
    var ns := SENTINELS;
    forall r | IsRef(ns, r) ensures NodeOk(ns[r], 0) {
      forall l | 0 <= l <= ns[r].top ensures LevelOk(ns[r], l, 0) {
      }
    }
    forall r, l | IsRef(ns, r) && r != TAIL && 0 <= Ins(ns[r], l) ensures LinkOk(ns, r, l, 0) {
      assert r == HEAD;
    }
  }

  lemma InitOk(s: State)
    requires Init(s)
    ensures Inv(s)
  {
    SentinelsOk();
    LivesFine(s.nodes, 0);
  }

  lemma {:induction false} RunKeeps(run: seq<State>, i: nat)
    requires Run(run) && i < |run|
    ensures Inv(run[i]) && Now(run[i]) == i
  {
    if i == 0 {
      InitOk(run[0]);
    } else {
      RunKeeps(run, i - 1);
      assert StepAt(run, i - 1);
      NextKeeps(run[i - 1], run[i]);
      NextLogs(run[i - 1], run[i]);
    }
  }

  lemma StepLogs(s: State, t: nat)
    requires Enabled(s, t)
    ensures Now(Step(s, t)) == Now(s) + 1 && Step(s, t).effects[..Now(s)] == s.effects
  {
    hide FindMove, LookMove, CheckMove, LinkMove, UnlockMove, SpliceMove, LinkNodes, SpliceNodes, MayFind, MayLook, MayAdd, MayRemove;
    assert exists e :: Step(s, t).effects == s.effects + [e];
  }

  lemma NextLogs(s: State, s': State)
    requires Next(s, s')
    ensures Now(s') == Now(s) + 1 && s'.effects[..Now(s)] == s.effects
  {
    hide Step, Enabled;
    if t: nat, op, key, top: nat :| MayInvoke(s, t, top) && s' == Invoke(s, t, op, key, top) {
    } else {
      var t: nat :| Enabled(s, t) && s' == Step(s, t);
      StepLogs(s, t);
    }
  }

  /** One step of some thread leads from `ns` to `ns'`. */
  ghost predicate EvolvesBySome(ns: seq<Node>, ns': seq<Node>, now: int) {
    exists u: int :: Evolves(ns, ns', now, u)
  }

  lemma RunStep(run: seq<State>, i: nat)
    requires Run(run) && i + 1 < |run|
    ensures EvolvesBySome(run[i].nodes, run[i + 1].nodes, i)
    ensures |run[i].effects| == i && |run[i + 1].effects| == i + 1 && run[i + 1].effects[..i] == run[i].effects
  {
    hide Inv, Evolves, Next;
    RunKeeps(run, i);
    assert StepAt(run, i);
    NextKeeps(run[i], run[i + 1]);
    NextLogs(run[i], run[i + 1]);
  }

  // ---------------------------------------------------------------- the chains in memory

  /** The nodes on the chain of level `l` behind `r`. */
  ghost function Behind(ns: seq<Node>, l: nat, now: nat, r: int): set<int>
    requires IsRef(ns, r)
  {
    set v | 0 <= v < |ns| && OnAt(ns[v], l, now) && Lt(ns, r, v)
  }

  lemma BehindNext(ns: seq<Node>, l: nat, now: nat, r: int)
    requires HeapOk(ns, now) && IsRef(ns, r) && OnAt(ns[r], l, now)
    ensures r == TAIL ==> Behind(ns, l, now, r) == {}
    ensures r != TAIL ==> var q := Nxt(ns[r], l);
      && IsRef(ns, q) && OnAt(ns[q], l, now) && q !in Behind(ns, l, now, q)
      && Behind(ns, l, now, r) == {q} + Behind(ns, l, now, q)
  {
    if r != TAIL {
      OnNow(ns, now, r, l);
      assert LinkOk(ns, r, l, now);
      var q := Nxt(ns[r], l);
      forall v ensures v in Behind(ns, l, now, r) <==> v == q || v in Behind(ns, l, now, q) {
        if v in Behind(ns, l, now, r) && v != q {
          OnOrdered(ns, now, l, now, q, v);
        }
        if v in Behind(ns, l, now, q) {
          LtTrans(ns, r, q, v);
        }
      }
    }
  }

  /** The chain that following `next` at level `l` from `r` visits. */
  ghost function Chain(ns: seq<Node>, l: nat, now: nat, r: int): (c: seq<int>)
    requires HeapOk(ns, now) && IsRef(ns, r) && OnAt(ns[r], l, now)
    ensures |c| > 0 && c[0] == r
    decreases Behind(ns, l, now, r)
  {
    BehindNext(ns, l, now, r);
    if r == TAIL then [r] else [r] + Chain(ns, l, now, Nxt(ns[r], l))
  }

  ghost predicate IsChain(ns: seq<Node>, l: nat, c: seq<int>) {
    && (forall a :: 0 <= a < |c| ==> IsRef(ns, c[a]))
    && (forall a :: 0 <= a < |c| - 1 ==> c[a] != TAIL && Nxt(ns[c[a]], l) == c[a + 1])
    && |c| > 0 && c[|c| - 1] == TAIL
  }

  lemma {:induction false} ChainVisits(ns: seq<Node>, l: nat, now: nat, r: int)
    requires HeapOk(ns, now) && IsRef(ns, r) && OnAt(ns[r], l, now)
    ensures IsChain(ns, l, Chain(ns, l, now, r))
    ensures forall v :: v in Chain(ns, l, now, r) <==> v == r || v in Behind(ns, l, now, r)
    decreases Behind(ns, l, now, r)
  {
    BehindNext(ns, l, now, r);
    if r != TAIL {
      ChainVisits(ns, l, now, Nxt(ns[r], l));
      assert Chain(ns, l, now, r) == [r] + Chain(ns, l, now, Nxt(ns[r], l));
    }
  }

  lemma {:induction false} ChainSorted(ns: seq<Node>, l: nat, now: nat, r: int, a: nat, b: nat)
    requires HeapOk(ns, now) && IsRef(ns, r) && OnAt(ns[r], l, now) && a < b < |Chain(ns, l, now, r)|
    ensures var c := Chain(ns, l, now, r); IsRef(ns, c[a]) && IsRef(ns, c[b]) && Lt(ns, c[a], c[b])
    decreases Behind(ns, l, now, r)
  {
    BehindNext(ns, l, now, r);
    ChainVisits(ns, l, now, r);
    var c := Chain(ns, l, now, r);
    if r != TAIL {
      var d := Chain(ns, l, now, Nxt(ns[r], l));
      assert c == [r] + d;
      if a > 0 {
        ChainSorted(ns, l, now, Nxt(ns[r], l), a - 1, b - 1);
      } else {
        ChainVisits(ns, l, now, Nxt(ns[r], l));
        assert d[b - 1] in d;
      }
    }
  }

  lemma HeadOn(ns: seq<Node>, now: nat, l: nat)
    requires HeapOk(ns, now) && l <= MAX_LEVEL
    ensures OnAt(ns[HEAD], l, now)
  {
    assert Ins(ns[HEAD], l) == 0 && NodeOk(ns[HEAD], now) && LevelOk(ns[HEAD], l, now);
  }

  /** Every state of every run: each level's chain runs from head to tail in strictly rising key order
      and visits exactly the nodes linked there. */
  lemma LevelSorted(run: seq<State>, i: nat, l: nat)
    requires Run(run) && i < |run| && l <= MAX_LEVEL
    ensures HeapOk(run[i].nodes, i) && OnAt(run[i].nodes[HEAD], l, i)
    ensures var ns := run[i].nodes; var c := Chain(ns, l, i, HEAD);
      && IsChain(ns, l, c)
      && (forall a, b :: 0 <= a < b < |c| ==> Lt(ns, c[a], c[b]))
      && (forall v :: v in c <==> IsRef(ns, v) && OnAt(ns[v], l, i))
  {
    hide Next, ThreadOk, HistoryOk, RetireOk;
    RunKeeps(run, i);
    var ns := run[i].nodes;
    HeadOn(ns, i, l);
    ChainVisits(ns, l, i, HEAD);
    var c := Chain(ns, l, i, HEAD);
    forall a, b | 0 <= a < b < |c| ensures Lt(ns, c[a], c[b]) {
      ChainSorted(ns, l, i, HEAD, a, b);
    }
    forall v | IsRef(ns, v) && OnAt(ns[v], l, i) ensures v in c {
      if v != HEAD { OnOrdered(ns, i, l, i, HEAD, v); }
    }
  }

  /** A node reachable at one level is reachable at every lower one. */
  lemma LevelsNest(run: seq<State>, i: nat, l: nat, m: nat, v: int)
    requires Run(run) && i < |run| && m <= l <= MAX_LEVEL
    requires HeapOk(run[i].nodes, i) && OnAt(run[i].nodes[HEAD], l, i) && OnAt(run[i].nodes[HEAD], m, i)
    requires v in Chain(run[i].nodes, l, i, HEAD)
    ensures v in Chain(run[i].nodes, m, i, HEAD)
  {
    LevelSorted(run, i, l);
    LevelSorted(run, i, m);
    OnLower(run[i].nodes, i, v, l, m, i);
  }

  /** Nodes that evolve by steps: keys never change, marked nodes are frozen, chains are left for good. */
  ghost predicate Later(n: Node, n': Node) {
    && n'.key == n.key && n'.top == n.top
    && (n.marked ==> n'.marked && n'.next == n.next)
    && (n.full ==> n'.full)
    && (forall l {:trigger Out(n', l)} {:trigger Ins(n', l)} ::
          (0 <= Ins(n, l) ==> Ins(n', l) == Ins(n, l)) && (0 <= Out(n, l) ==> Out(n', l) == Out(n, l)))
  }

  lemma {:induction false} NodesLater(run: seq<State>, i: nat, j: nat, r: int)
    requires Run(run) && i <= j < |run| && IsRef(run[i].nodes, r)
    ensures IsRef(run[j].nodes, r) && Later(run[i].nodes[r], run[j].nodes[r])
  {
    hide Next;
    if i < j {
      NodesLater(run, i, j - 1, r);
      RunStep(run, j - 1);
      var u: int :| Evolves(run[j - 1].nodes, run[j].nodes, j - 1, u);
      var n, n' := run[j - 1].nodes[r], run[j].nodes[r];
      assert NodeEvolves(n, n', j - 1, u);
      assert forall l :: LevelEvolves(n, n', l, j - 1) && (0 <= Ins(n, l) ==> Ins(n', l) == Ins(n, l));
    }
  }

  /** When a victim is given to the epoch domain it is off every level, and stays off: it is
      unreachable from head for good, and it is given there once. */
  lemma RetiredOnce(run: seq<State>, i: nat, j: nat, r: int, l: nat)
    requires Run(run) && i <= j < |run| && r in run[i].retired && l <= MAX_LEVEL
    ensures run[i].retired[r] == 1 && IsData(run[j].nodes, r)
    ensures HeapOk(run[j].nodes, j) && OnAt(run[j].nodes[HEAD], l, j)
    ensures r !in Chain(run[j].nodes, l, j, HEAD)
  {
    RunKeeps(run, i);
    assert run[i].retired[r] == 1;
    NodesLater(run, i, j, r);
    LevelSorted(run, j, l);
    assert NodeOk(run[j].nodes[r], j) && LevelOk(run[j].nodes[r], 0, j);
    if OnAt(run[j].nodes[r], l, j) {
      OnLower(run[j].nodes, j, r, l, 0, j);
    }
  }

  /** A thread about to retire its victim: off every level, never retired before. */
  lemma RetireIsSafe(run: seq<State>, i: nat, t: nat)
    requires Run(run) && i < |run| && t < |run[i].threads| && run[i].threads[t].pc == Retire
    ensures var v := run[i].threads[t].found;
      && IsData(run[i].nodes, v) && v !in run[i].retired
      && forall l :: !OnAt(run[i].nodes[v], l, i)
  {
    RunKeeps(run, i);
    var s, th := run[i], run[i].threads[t];
    assert ThreadOk(s.nodes, s.effects, t, th) && Erasing(s.nodes, s.effects, t, th, 0);
    assert HasVictim(th);
    var v := s.nodes[th.found];
    assert NodeOk(v, i);
    forall l ensures !OnAt(v, l, i) {
      if 0 <= l <= v.top {
        assert LevelOk(v, l, i) && 0 <= Out(v, l);
      }
    }
  }

  /** The "already spliced" exit of the splice loop is never taken: the search ends at the victim. */
  lemma SpliceFindsVictim(run: seq<State>, i: nat, t: nat)
    requires Run(run) && i < |run| && t < |run[i].threads| && run[i].threads[t].pc == SpliceScan
    ensures var th, ns := run[i].threads[t], run[i].nodes;
      IsRef(ns, th.curr) && (th.curr == th.found || Under(ns, th.curr, th.key))
  {
    RunKeeps(run, i);
    assert ThreadOk(run[i].nodes, run[i].effects, t, run[i].threads[t]);
    NotYetSpliced(run[i].nodes, run[i].effects, t, run[i].threads[t]);
  }

  // ---------------------------------------------------------------- the set

  /** The set: the keys on nodes fully linked and not marked. */
  function Contents(ns: seq<Node>): set<int> {
    set r | 0 <= r < |ns| && ns[r].full && !ns[r].marked :: ns[r].key
  }

  lemma AliveIsContent(ns: seq<Node>, now: int, k: int)
    requires HeapOk(ns, now)
    ensures Has(Lives(ns), k, now) <==> k in Contents(ns)
  {
    var ls := Lives(ns);
    if r :| 0 <= r < |ls| && ls[r].key == k && Alive(ls[r], now) {
      assert NodeOk(ns[r], now);
    }
    if k in Contents(ns) {
      var r :| 0 <= r < |ns| && ns[r].full && !ns[r].marked && ns[r].key == k;
      assert NodeOk(ns[r], now) && ls[r].key == k && Alive(ls[r], now);
    }
  }

  lemma {:induction false} RunHistory(run: seq<State>, i: nat, j: nat)
    requires Run(run) && i <= j < |run|
    ensures |run[i].effects| == i && |run[j].effects| == j && run[i].effects == run[j].effects[..i]
  {
    hide Next, Inv;
    if i < j {
      RunHistory(run, i, j - 1);
      RunStep(run, j - 1);
      assert run[j].effects[..i] == run[j].effects[..j - 1][..i];
    } else {
      RunKeeps(run, i);
    }
  }

  /** The history variables tell the truth: the set after `i` steps is the contents of state `i`. */
  lemma HistoryIsTrue(run: seq<State>, i: nat, j: nat)
    requires Run(run) && i <= j < |run|
    ensures |run[j].effects| == j && SetAt(run[j].effects, i) == Contents(run[i].nodes)
  {
    hide Next, ThreadOk, HeapOk, RetireOk, HistoryOk;
    RunHistory(run, i, j);
    RunKeeps(run, i);
    SetAtPrefix(run[i].effects, run[j].effects, i);
    var s := run[i];
    forall k ensures k in SetAt(s.effects, i) <==> k in Contents(s.nodes) {
      HasSetAt(Lives(s.nodes), s.effects, s.done, i, k);
      AliveIsContent(s.nodes, i, k);
    }
  }

  /** Every answer is right about a state between invocation and return. */
  lemma AnswersAreRight(run: seq<State>, j: nat, d: Record)
    requires Run(run) && j < |run| && d in run[j].done
    ensures d.start <= d.point <= d.end <= j
    ensures Writes(d.op, d.result) ==> d.point < j
    ensures Meets(d, Contents(run[d.point].nodes),
                  Contents(run[if Writes(d.op, d.result) then d.point + 1 else d.point].nodes))
  {
    hide Next, ThreadOk, HeapOk, RetireOk;
    RunKeeps(run, j);
    HistoryExplains(Lives(run[j].nodes), run[j].effects, run[j].done);
    assert RecordOk(Lives(run[j].nodes), run[j].effects, d);
    AnswerMeets(run[j].effects, run[j].done, d);
    HistoryIsTrue(run, d.point, j);
    HistoryIsTrue(run, if Writes(d.op, d.result) then d.point + 1 else d.point, j);
  }

  /** One step changes the contents only as its effect says: only the store of `fully_linked` and the
      mark change the set. */
  lemma StepChanges(run: seq<State>, i: nat)
    requires Run(run) && i + 1 < |run|
    ensures |run[i + 1].effects| == i + 1
    ensures var a, b := Contents(run[i].nodes), Contents(run[i + 1].nodes);
      match run[i + 1].effects[i]
      case Quiet => b == a
      case Added(_, key) => key !in a && b == a + {key}
      case Removed(_, key) => key in a && b == a - {key}
  {
    hide Next, ThreadOk, HeapOk, RetireOk;
    RunKeeps(run, i + 1);
    HistoryExplains(Lives(run[i + 1].nodes), run[i + 1].effects, run[i + 1].done);
    HistoryIsTrue(run, i, i + 1);
    HistoryIsTrue(run, i + 1, i + 1);
  }

  /** Every run of the skip list is linearizable. */
  lemma SkipListLinearizable(run: seq<State>, j: nat)
    requires Run(run) && j < |run|
    ensures Explained(run[j].effects, run[j].done)
    ensures var h := Linearization(run[j].effects, run[j].done);
      && Legal(run[j].effects, run[j].done, h)
      && Outcome(run[j].effects, h) == Contents(run[j].nodes)
      && (forall i: nat :: i < |run[j].done| ==> Placed(run[j].done, h, i))
      && (forall i: nat, k: nat, a: nat, b: nat :: Places(run[j].done, h, i, a) && Places(run[j].done, h, k, b) ==>
            (i == k <==> a == b) && (run[j].done[i].end < run[j].done[k].start ==> a < b))
  {
    hide Next, ThreadOk, HeapOk, RetireOk;
    RunKeeps(run, j);
    HistoryExplains(Lives(run[j].nodes), run[j].effects, run[j].done);
    Linearizable(run[j].effects, run[j].done);
    HistoryIsTrue(run, j, j);
  }
}

/** The skip list and its epoch domain together: an operation runs inside a guard, and erase hands its
    victim to the domain (include/concurrent_skip_list.hpp:54, 123, 204, 213). */
module EpochSkipList {
  import opened SetHistory
  import L = SkipList
  import H = SkipListHeap
  import P = SkipListProof
  import S = SkipListSteps
  import R = SkipListRemoving
  import T = SkipListTheorems
  import D = EpochDomain
  import DP = EpochProof
  import DT = EpochTheorems

  datatype System = System(list: L.State, domain: D.State)

  ghost predicate Init(y: System) {
    L.Init(y.list) && D.Init(y.domain) && |y.list.threads| == |y.domain.threads|
  }

  // ---------------------------------------------------------------- steps

  /** The nodes that the step takes off the bottom level. */
  function NewlyGone(ns: seq<L.Node>, ns': seq<L.Node>): set<int> {
    set r | 0 <= r < |ns| && r < |ns'| && H.Out(ns[r], 0) < 0 <= H.Out(ns'[r], 0)
  }

  /** Thread `t` runs the operation's own code, inside its guard. */
  ghost predicate ListMoves(y: System, y': System, t: nat) {
    && D.At(y.domain, t, D.Inside) && L.Enabled(y.list, t)
    && y'.list == L.Step(y.list, t)
    && var ticked := D.Tick(y.domain, NewlyGone(y.list.nodes, y'.list.nodes));
       y'.domain == if y.list.threads[t].pc == L.Retire then D.Retire(ticked, t, y.list.threads[t].found) else ticked
  }

  /** Thread `t`, in a new guard, begins an operation. */
  ghost predicate ListBegins(y: System, y': System, t: nat) {
    && D.At(y.domain, t, D.Inside) && y'.domain == D.Tick(y.domain, {})
    && exists op, key, top: nat :: L.MayInvoke(y.list, t, top) && y'.list == L.Invoke(y.list, t, op, key, top)
  }

  /** Thread `t` enters a guard before an operation, leaves it after, or runs the domain's code. */
  ghost predicate DomainMoves(y: System, y': System, t: nat) {
    && t < |y.list.threads| && y'.list == y.list
    && (|| (D.At(y.domain, t, D.Outside) && y.list.threads[t].pc == L.Idle && y'.domain == D.Enter(y.domain, t))
        || (D.At(y.domain, t, D.Inside) && D.OwnsSlot(y.domain, t) && y.list.threads[t].pc == L.Idle
            && y'.domain == D.Leave(y.domain, t))
        || (D.May(y.domain, t) && y'.domain == D.Step(y.domain, t)))
  }

  ghost predicate Next(y: System, y': System) {
    exists t: nat :: ListMoves(y, y', t) || ListBegins(y, y', t) || DomainMoves(y, y', t)
  }

  // ---------------------------------------------------------------- what a step dereferences

  /** The nodes that the next step of a thread reads, writes, locks or unlocks. */
  function Touches(th: L.Thread): set<int> {
    match th.pc
    case Descend | SpliceLock | SpliceMark | SpliceNext | SpliceStore | SpliceUnlock => {th.pred}
    case Scan | SpliceScan => {th.curr}
    case Lock | CheckPred | CheckNext | Link | Unlock => if 0 <= th.level < |th.preds| then {th.preds[th.level]} else {}
    case CheckSucc => if 0 <= th.level < |th.succs| then {th.succs[th.level]} else {}
    case Publish => {th.own}
    case SpliceStart => {L.HEAD}
    case SawNode | Wait | LoadFull | LoadMark | LockVictim | Recheck | Mark | UnlockVictim | SpliceLoad | SeeFull | SeeMark => {th.found}
    case Idle | Retire | Return => {}
  }

  lemma {:induction false} SeenBottom(ns: seq<L.Node>, now: int, r: int, l: nat, i: int)
    requires H.HeapOk(ns, now) && P.Seen(ns, r, l, i)
    ensures P.Seen(ns, r, 0, i)
  {
    if l > 0 {
      S.SeenLower(ns, now, r, l, i);
      SeenBottom(ns, now, r, l - 1, i);
    }
  }

  lemma HeadSeen(ns: seq<L.Node>, now: int, i: int)
    requires H.HeapOk(ns, now)
    ensures P.Seen(ns, L.HEAD, 0, i)
  {
    assert H.NodeOk(ns[L.HEAD], now) && H.Ins(ns[L.HEAD], 0) == 0 && H.LevelOk(ns[L.HEAD], 0, now);
  }

  lemma FindTouches(ns: seq<L.Node>, effects: seq<Effect>, th: L.Thread, r: int)
    requires H.HeapOk(ns, |effects|) && P.FindingOk(ns, effects, th) && L.PhaseOf(th.pc) == L.Finding && r in Touches(th)
    ensures P.Seen(ns, r, 0, th.start)
  {
    SeenBottom(ns, |effects|, r, th.level, th.start);
  }

  lemma AddTouches(ns: seq<L.Node>, effects: seq<Effect>, t: nat, th: L.Thread, r: int)
    requires H.HeapOk(ns, |effects|) && P.AddingOk(ns, effects, t, th) && L.PhaseOf(th.pc) == L.Adding && r in Touches(th)
    ensures P.Seen(ns, r, 0, th.start)
  {
    if th.pc == L.Publish {
      assert H.NodeOk(ns[r], |effects|) && H.LevelOk(ns[r], 0, |effects|);
    } else {
      assert P.Slots(ns, th, 0) && th.level <= L.MAX_LEVEL && P.SlotOk(ns, th, th.level);
      SeenBottom(ns, |effects|, r, th.level, th.start);
    }
  }

  lemma RemoveTouches(ns: seq<L.Node>, effects: seq<Effect>, t: nat, th: L.Thread, r: int)
    requires H.HeapOk(ns, |effects|) && P.RemovingOk(ns, effects, t, th) && L.PhaseOf(th.pc) == L.Removing && r in Touches(th)
    ensures P.Seen(ns, r, 0, th.start)
  {
    if th.pc == L.SpliceStart {
      HeadSeen(ns, |effects|, th.start);
    } else if th.pc != L.SpliceLoad {
      SeenBottom(ns, |effects|, r, th.level, ns[th.found].died);
    }
  }

  lemma EndTouches(ns: seq<L.Node>, effects: seq<Effect>, t: nat, th: L.Thread, r: int)
    requires H.HeapOk(ns, |effects|) && P.EndingOk(ns, effects, t, th) && L.PhaseOf(th.pc) == L.Ending && r in Touches(th)
    ensures P.Seen(ns, r, 0, th.start)
  {
    if th.pc == L.SpliceUnlock {
      SeenBottom(ns, |effects|, r, th.level, th.start);
    }
  }

  /** What an operation dereferences was on the bottom level at some time since the operation began. */
  lemma TouchedIsSeen(ns: seq<L.Node>, effects: seq<Effect>, t: nat, th: L.Thread, r: int)
    requires H.HeapOk(ns, |effects|) && P.ThreadOk(ns, effects, t, th) && r in Touches(th)
    ensures P.Seen(ns, r, 0, th.start)
  {
    hide H.HeapOk, P.FindingOk, P.LookingOk, P.AddingOk, P.RemovingOk, P.EndingOk;
    match L.PhaseOf(th.pc)
    case Finding => FindTouches(ns, effects, th, r);
    case Looking => LookTouches(ns, effects, t, th, r);
    case Adding => AddTouches(ns, effects, t, th, r);
    case Removing => RemoveTouches(ns, effects, t, th, r);
    case Ending => EndTouches(ns, effects, t, th, r);
  }

  lemma LookTouches(ns: seq<L.Node>, effects: seq<Effect>, t: nat, th: L.Thread, r: int)
    requires P.LookingOk(ns, effects, t, th) && L.PhaseOf(th.pc) == L.Looking && r in Touches(th)
    ensures P.Seen(ns, r, 0, th.start)
  {
  }

  // ---------------------------------------------------------------- the invariant

  /** The domain is told the truth about the list. */
  ghost predicate Tied(y: System) {
    && |y.list.threads| == |y.domain.threads| && y.domain.clock == L.Now(y.list)
    && (forall r {:trigger r in y.domain.gone} :: r in y.domain.gone <==> H.IsData(y.list.nodes, r) && 0 <= H.Out(y.list.nodes[r], 0))
    && (forall r {:trigger y.domain.gone[r]} :: r in y.domain.gone ==> y.domain.gone[r] == H.Out(y.list.nodes[r], 0))
    && y.domain.given == y.list.retired
  }

  /** An operation's guard has been active since before the operation began. */
  predicate Covers(list: L.Thread, th: D.Thread, slots: seq<D.Slot>) {
    list.pc != L.Idle ==>
      DP.Entered(th.pc) && 0 <= th.slot < |slots| && slots[th.slot].active && slots[th.slot].since <= list.start
  }

  ghost predicate Inv(y: System) {
    && P.Inv(y.list) && DP.Inv(y.domain) && Tied(y)
    && forall t {:trigger y.list.threads[t]} :: 0 <= t < |y.list.threads| ==>
         Covers(y.list.threads[t], y.domain.threads[t], y.domain.slots)
  }

  // ---------------------------------------------------------------- the list's steps

  /** What a step of the list does to the threads and to what has been retired. */
  ghost predicate Frame(s: L.State, s': L.State, t: nat)
    requires t < |s.threads|
  {
    var th := s.threads[t];
    && |s'.threads| == |s.threads| && s'.threads == s.threads[t := s'.threads[t]] && s'.threads[t].start == th.start
    && s'.retired == (if th.pc == L.Retire then s.retired + multiset{th.found} else s.retired)
    && (th.pc == L.Retire ==> s'.threads[t].pc != L.Idle && s'.nodes == s.nodes)
    && L.Now(s') == L.Now(s) + 1
  }

  lemma AddFrame(s: L.State, t: nat)
    requires L.Enabled(s, t) && L.PhaseOf(s.threads[t].pc) == L.Adding
    ensures Frame(s, L.Step(s, t), t)
  {
    hide L.LinkNodes, L.PublishNodes, L.WithLock;
  }

  lemma EndFrame(s: L.State, t: nat)
    requires L.Enabled(s, t) && L.PhaseOf(s.threads[t].pc) == L.Ending
    ensures Frame(s, L.Step(s, t), t)
  {
    hide L.WithLock;
  }

  lemma StepFrame(s: L.State, t: nat)
    requires L.Enabled(s, t)
    ensures Frame(s, L.Step(s, t), t) && s.threads[t].pc != L.Idle
  {
    var pc := s.threads[t].pc;
    match L.PhaseOf(pc)
    case Finding => FindFrame(s, t);
    case Looking => LookFrame(s, t);
    case Adding => hide L.Step; AddFrame(s, t);
    case Removing => RemoveFrame(s, t);
    case Ending => hide L.Step; EndFrame(s, t);
  }

  lemma FindFrame(s: L.State, t: nat)
    requires L.Enabled(s, t) && L.PhaseOf(s.threads[t].pc) == L.Finding
    ensures Frame(s, L.Step(s, t), t) && s.threads[t].pc != L.Idle
  {
  }

  lemma LookFrame(s: L.State, t: nat)
    requires L.Enabled(s, t) && L.PhaseOf(s.threads[t].pc) == L.Looking
    ensures Frame(s, L.Step(s, t), t)
  {
    S.LookStepIs(s, t);
    hide L.Step, L.Enabled, L.MarkNodes, L.WithLock, L.LookMove, L.MayLook;
  }

  lemma RemoveFrame(s: L.State, t: nat)
    requires L.Enabled(s, t) && L.PhaseOf(s.threads[t].pc) == L.Removing
    ensures Frame(s, L.Step(s, t), t)
  {
    R.RemoveStepIs(s, t);
    hide L.Step, L.Enabled, L.SpliceNodes, L.WithLock, L.SpliceMove, L.MayRemove;
  }

  /** The victim about to be retired has left the bottom level. */
  lemma VictimIsGone(s: L.State, t: nat)
    requires P.Inv(s) && t < |s.threads| && s.threads[t].pc == L.Retire
    ensures var v := s.threads[t].found; v !in s.retired && H.IsData(s.nodes, v) && 0 <= H.Out(s.nodes[v], 0)
  {
    S.InvThread(s, t);
    var th := s.threads[t];
    hide P.Inv, H.HeapOk;
    assert P.Erasing(s.nodes, s.effects, t, th, 0);
    VictimTop(s, t);
  }

  lemma VictimTop(s: L.State, t: nat)
    requires P.Inv(s) && t < |s.threads| && 0 <= s.threads[t].found < |s.nodes|
    ensures 0 <= s.nodes[s.threads[t].found].top
  {
    assert H.NodeOk(s.nodes[s.threads[t].found], L.Now(s));
  }

  /** Whether and when a node left the bottom level, told after a step. */
  lemma GoneEvolves(ns: seq<L.Node>, ns': seq<L.Node>, now: nat, u: int, r: int)
    requires H.HeapOk(ns, now) && H.HeapOk(ns', now + 1) && H.Evolves(ns, ns', now, u) && 0 <= r < |ns'|
    ensures 0 <= H.Out(ns'[r], 0) ==> H.IsData(ns, r)
    ensures r < |ns| && 0 <= H.Out(ns[r], 0) ==> H.Out(ns'[r], 0) == H.Out(ns[r], 0)
    ensures r < |ns| && H.Out(ns[r], 0) < 0 && 0 <= H.Out(ns'[r], 0) ==> H.Out(ns'[r], 0) == now
  {
    assert H.NodeOk(ns'[r], now + 1) && H.LevelOk(ns'[r], 0, now + 1);
    if r < |ns| {
      assert H.NodeEvolves(ns[r], ns'[r], now, u);
      assert H.LevelEvolves(ns[r], ns'[r], 0, now);
    } else {
      assert H.Ins(ns'[r], 0) in {-1, now + 1};
    }
  }

  lemma TickTied(y: System, list': L.State, u: int)
    requires Tied(y) && H.HeapOk(y.list.nodes, L.Now(y.list)) && H.HeapOk(list'.nodes, L.Now(y.list) + 1)
    requires H.Evolves(y.list.nodes, list'.nodes, L.Now(y.list), u)
    requires L.Now(list') == L.Now(y.list) + 1 && |list'.threads| == |y.list.threads| && list'.retired == y.list.retired
    ensures var out := NewlyGone(y.list.nodes, list'.nodes);
      D.MayTick(y.domain, out) && Tied(System(list', D.Tick(y.domain, out)))
  {
    var ns, ns', now := y.list.nodes, list'.nodes, L.Now(y.list);
    var out := NewlyGone(ns, ns');
    var gone' := D.Tick(y.domain, out).gone;
    forall r ensures r in gone' <==> H.IsData(ns', r) && 0 <= H.Out(ns'[r], 0)
             ensures r in gone' ==> gone'[r] == H.Out(ns'[r], 0) {
      if 0 <= r < |ns'| {
        GoneEvolves(ns, ns', now, u, r);
      }
      assert r in gone' <==> r in y.domain.gone || r in out;
    }
  }

  /** Neither a tick nor a call of `retire` moves a thread of the domain out of its guard. */
  lemma CoversTick(y: System, list': L.State, out: set<int>, t: nat)
    requires Inv(y) && t < |y.list.threads| == |list'.threads| && list'.threads == y.list.threads[t := list'.threads[t]]
    requires D.At(y.domain, t, D.Inside)
    requires list'.threads[t].pc != L.Idle ==>
      list'.threads[t].start == L.Now(y.list) + 1 || (y.list.threads[t].pc != L.Idle && list'.threads[t].start == y.list.threads[t].start)
    ensures forall u :: 0 <= u < |list'.threads| ==>
      Covers(list'.threads[u], D.Tick(y.domain, out).threads[u], D.Tick(y.domain, out).slots)
  {
    forall u | 0 <= u < |list'.threads| ensures Covers(list'.threads[u], y.domain.threads[u], y.domain.slots) {
      assert Covers(y.list.threads[u], y.domain.threads[u], y.domain.slots);
      if u == t {
        DT.InvAt(y.domain, t);
        var j := y.domain.threads[t].slot;
        assert DP.SlotOk(y.domain.threads, y.domain.slots[j], j, y.domain.global, y.domain.clock);
      }
    }
  }

  lemma BeginKeeps(y: System, y': System, t: nat)
    requires Inv(y) && ListBegins(y, y', t)
    ensures Inv(y')
  {
    var op, key, top: nat :| L.MayInvoke(y.list, t, top) && y'.list == L.Invoke(y.list, t, op, key, top);
    R.InvokeKeeps(y.list, t, op, key, top);
    var now := L.Now(y.list);
    assert NewlyGone(y.list.nodes, y'.list.nodes) == {};
    assert H.HeapOk(y.list.nodes, now) && H.HeapOk(y'.list.nodes, now + 1);
    CoversTick(y, y'.list, {}, t);
    hide P.Inv, DP.Inv, H.HeapOk, H.Evolves, Tied, Covers;
    TickTied(y, y'.list, t);
    DT.TickKeeps(y.domain, {});
  }

  lemma ListStepTied(y: System, t: nat)
    requires Inv(y) && L.Enabled(y.list, t)
    ensures P.Inv(L.Step(y.list, t)) && H.Evolves(y.list.nodes, L.Step(y.list, t).nodes, L.Now(y.list), t)
    ensures H.HeapOk(y.list.nodes, L.Now(y.list)) && H.HeapOk(L.Step(y.list, t).nodes, L.Now(y.list) + 1)
  {
    StepFrame(y.list, t);
    hide L.Step, L.Enabled, H.HeapOk, H.Evolves, P.ThreadOk;
    R.StepOk(y.list, t);
  }

  lemma CodeKeeps(y: System, y': System, t: nat)
    requires Inv(y) && ListMoves(y, y', t) && y.list.threads[t].pc != L.Retire
    ensures Inv(y')
  {
    StepFrame(y.list, t);
    ListStepTied(y, t);
    hide L.Step, L.Enabled, H.HeapOk, H.Evolves, P.Inv, DP.Inv, Tied, Covers;
    var out := NewlyGone(y.list.nodes, y'.list.nodes);
    CoversTick(y, y'.list, out, t);
    TickTied(y, y'.list, t);
    DT.TickKeeps(y.domain, out);
  }

  lemma RetireKeeps(y: System, y': System, t: nat)
    requires Inv(y) && ListMoves(y, y', t) && y.list.threads[t].pc == L.Retire
    ensures Inv(y')
  {
    StepFrame(y.list, t);
    ListStepTied(y, t);
    VictimIsGone(y.list, t);
    hide L.Step, L.Enabled, H.HeapOk, H.Evolves, P.Inv, DP.Inv, Covers;
    var v, out := y.list.threads[t].found, NewlyGone(y.list.nodes, y'.list.nodes);
    CoversTick(y, y'.list, out, t);
    var early := y'.list.(retired := y.list.retired);
    TickTied(y, early, t);
    DT.TickKeeps(y.domain, out);
    var ticked := D.Tick(y.domain, out);
    assert v in y.domain.gone;
    DT.RetireKeeps(ticked, t, v);
    RetireCovers(y'.list, ticked, t, v);
  }

  lemma RetireCovers(list: L.State, domain: D.State, t: nat, v: int)
    requires D.At(domain, t, D.Inside) && |list.threads| == |domain.threads|
    requires forall u :: 0 <= u < |list.threads| ==> Covers(list.threads[u], domain.threads[u], domain.slots)
    ensures var d := D.Retire(domain, t, v);
      forall u :: 0 <= u < |list.threads| ==> Covers(list.threads[u], d.threads[u], d.slots)
  {
    forall u | 0 <= u < |list.threads| ensures Covers(list.threads[u], D.Retire(domain, t, v).threads[u], domain.slots) {
      assert Covers(list.threads[u], domain.threads[u], domain.slots);
    }
  }

  // ---------------------------------------------------------------- the domain's steps

  /** The domain's own steps leave every entered thread in its guard, with its slot as it was. */
  lemma OwnGuardStays(d: D.State, t: nat)
    requires D.May(d, t) && DP.Entered(d.threads[t].pc) && DP.ThreadOk(d.slots, d.global, t, d.threads[t])
    ensures var d' := D.Step(d, t);
      && DP.Entered(d'.threads[t].pc) && d'.threads[t].slot == d.threads[t].slot && d'.slots == d.slots
  {
    hide DP.PassOk;
  }

  lemma OthersGuardStays(d: D.State, t: nat, u: nat)
    requires D.May(d, t) && u < |d.threads| && u != t && 0 <= d.threads[u].slot < |d.slots|
    requires var o := d.slots[d.threads[u].slot].owner; o != t && o != D.NONE
    requires DP.ThreadOk(d.slots, d.global, t, d.threads[t])
    ensures D.Step(d, t).threads[u] == d.threads[u] && D.Step(d, t).slots[d.threads[u].slot] == d.slots[d.threads[u].slot]
  {
    hide DP.PassOk;
  }

  lemma StepSizes(d: D.State, t: nat)
    requires D.May(d, t)
    ensures |D.Step(d, t).threads| == |d.threads| && |D.Step(d, t).slots| == |d.slots|
  {
  }

  lemma GuardsStay(d: D.State, t: nat, u: nat)
    requires DP.Inv(d) && D.May(d, t) && u < |d.threads| && DP.Entered(d.threads[u].pc)
    ensures var d', j := D.Step(d, t), d.threads[u].slot;
      && |d'.threads| == |d.threads| && DP.Entered(d'.threads[u].pc) && d'.threads[u].slot == j
      && 0 <= j < |d.slots| && |d'.slots| == |d.slots| && d'.slots[j] == d.slots[j]
  {
    DT.InvAt(d, t);
    DT.InvAt(d, u);
    StepSizes(d, t);
    hide DP.Inv, DP.PassOk, DP.HandOk, D.Step, D.May;
    if u == t {
      OwnGuardStays(d, t);
    } else {
      OthersGuardStays(d, t, u);
    }
  }

  lemma OthersStay(d: D.State, t: nat, u: nat)
    requires DP.Inv(d) && D.At(d, t, D.Inside) && D.OwnsSlot(d, t) && u < |d.threads| && DP.Entered(d.threads[u].pc) && u != t
    ensures D.Leave(d, t).threads[u] == d.threads[u]
    ensures var j := d.threads[u].slot; 0 <= j < |d.slots| && D.Leave(d, t).slots[j] == d.slots[j]
  {
    DT.InvAt(d, t);
    DT.InvAt(d, u);
    hide DP.Inv, DP.HandOk;
  }

  /** The domain's side of `DomainMoves`: `free` says that the thread runs no operation. */
  predicate Moved(d: D.State, d': D.State, t: nat, free: bool) {
    || (D.At(d, t, D.Outside) && free && d' == D.Enter(d, t))
    || (D.At(d, t, D.Inside) && D.OwnsSlot(d, t) && free && d' == D.Leave(d, t))
    || (D.May(d, t) && d' == D.Step(d, t))
  }

  lemma ThreadCovers(list: L.Thread, d: D.State, d': D.State, t: nat, u: nat, free: bool)
    requires DP.Inv(d) && Moved(d, d', t, free) && u < |d.threads| && (u == t && free ==> list.pc == L.Idle)
    requires Covers(list, d.threads[u], d.slots)
    ensures |d'.threads| == |d.threads| && Covers(list, d'.threads[u], d'.slots)
  {
    hide DP.Inv, DP.Entered, D.Step;
    if D.May(d, t) { StepSizes(d, t); }
    if list.pc != L.Idle {
      if D.May(d, t) {
        GuardsStay(d, t, u);
      } else if D.At(d, t, D.Inside) {
        OthersStay(d, t, u);
      }
    }
  }

  lemma DomainFrame(d: D.State, d': D.State, t: nat, free: bool)
    requires Moved(d, d', t, free)
    ensures |d'.threads| == |d.threads| && d'.gone == d.gone && d'.clock == d.clock && d'.given == d.given
  {
  }

  lemma DomainKeeps(y: System, y': System, t: nat)
    requires Inv(y) && DomainMoves(y, y', t)
    ensures Inv(y')
  {
    var free := y.list.threads[t].pc == L.Idle;
    assert Moved(y.domain, y'.domain, t, free);
    DomainFrame(y.domain, y'.domain, t, free);
    forall u | 0 <= u < |y.list.threads| ensures Covers(y.list.threads[u], y'.domain.threads[u], y'.domain.slots) {
      ThreadCovers(y.list.threads[u], y.domain, y'.domain, t, u, free);
    }
    hide P.Inv, DP.Inv, D.Step, D.Enter, D.Leave, D.May, Covers, Moved;
    if D.May(y.domain, t) && y'.domain == D.Step(y.domain, t) {
      DT.StepKeeps(y.domain, t);
    } else if D.At(y.domain, t, D.Outside) {
      DT.EnterKeeps(y.domain, t);
    } else {
      DT.LeaveKeeps(y.domain, t);
    }
    assert Tied(y');
  }

  // ---------------------------------------------------------------- runs

  lemma NextKeeps(y: System, y': System)
    requires Inv(y) && Next(y, y')
    ensures Inv(y')
  {
    hide Inv, ListBegins, DomainMoves, L.Step;
    var t: nat :| ListMoves(y, y', t) || ListBegins(y, y', t) || DomainMoves(y, y', t);
    if DomainMoves(y, y', t) {
      DomainKeeps(y, y', t);
    } else if ListBegins(y, y', t) {
      BeginKeeps(y, y', t);
    } else if y.list.threads[t].pc == L.Retire {
      RetireKeeps(y, y', t);
    } else {
      CodeKeeps(y, y', t);
    }
  }

  ghost predicate StepAt(run: seq<System>, i: int) {
    0 <= i < |run| - 1 && Next(run[i], run[i + 1])
  }

  ghost predicate Run(run: seq<System>) {
    |run| > 0 && Init(run[0]) && forall i :: 0 <= i < |run| - 1 ==> StepAt(run, i)
  }

  lemma InitOk(y: System)
    requires Init(y)
    ensures Inv(y)
  {
    T.InitOk(y.list);
    DT.InitOk(y.domain);
    hide P.Inv, DP.Inv;
    forall r ensures !(H.IsData(y.list.nodes, r)) {
    }
  }

  lemma {:induction false} RunKeeps(run: seq<System>, i: nat)
    requires Run(run) && i < |run|
    ensures Inv(run[i])
  {
    hide Inv, Next;
    if i == 0 {
      InitOk(run[0]);
    } else {
      RunKeeps(run, i - 1);
      assert StepAt(run, i - 1);
      NextKeeps(run[i - 1], run[i]);
    }
  }

  /** No operation of the skip list ever dereferences a freed node, in any run. */
  lemma NeverTouchesFreed(run: seq<System>, i: nat, t: nat, r: int)
    requires Run(run) && i < |run| && t < |run[i].list.threads| && r in Touches(run[i].list.threads[t])
    ensures r !in run[i].domain.freed
  {
    RunKeeps(run, i);
    var y := run[i];
    S.InvThread(y.list, t);
    hide P.Inv, H.HeapOk, P.ThreadOk;
    TouchedIsSeen(y.list.nodes, y.list.effects, t, y.list.threads[t], r);
    assert Covers(y.list.threads[t], y.domain.threads[t], y.domain.slots);
    assert y.domain.freed[r] >= 0 && y.domain.slots[y.domain.threads[t].slot].active;
  }

  /** Every erased node that reached `retire` is freed at most once and only after it left every level,
      and until then waits in exactly one place. */
  lemma FreedOnce(run: seq<System>, i: nat, r: int)
    requires Run(run) && i < |run|
    ensures var y := run[i];
      && y.list.retired[r] == DP.InList(y.domain.shared, r) + DP.InHands(y.domain.threads, r) + y.domain.freed[r] <= 1
      && (r in y.domain.freed ==> H.IsData(y.list.nodes, r) && forall l: nat :: !H.OnAt(y.list.nodes[r], l, L.Now(y.list)))
  {
    RunKeeps(run, i);
    var y := run[i];
    assert DP.PlaceOk(y.domain, r) && y.domain.freed[r] >= 0;
    if r in y.domain.freed {
      GoneEverywhere(y.list.nodes, L.Now(y.list), r);
    }
  }

  lemma GoneEverywhere(ns: seq<L.Node>, now: int, r: int)
    requires H.HeapOk(ns, now) && H.IsData(ns, r) && 0 <= H.Out(ns[r], 0)
    ensures forall l: nat :: !H.OnAt(ns[r], l, now)
  {
    assert H.NodeOk(ns[r], now) && H.LevelOk(ns[r], 0, now);
    forall l: nat ensures !H.OnAt(ns[r], l, now) {
      if H.OnAt(ns[r], l, now) {
        H.OnLower(ns, now, r, l, 0, now);
      }
    }
  }

  lemma ListNext(y: System, y': System)
    requires Next(y, y')
    ensures y'.list == y.list || L.Next(y.list, y'.list)
  {
    hide L.Step, L.Enabled, L.Invoke, L.MayInvoke;
    var t: nat :| ListMoves(y, y', t) || ListBegins(y, y', t) || DomainMoves(y, y', t);
  }

  lemma RunGrows(r: seq<L.State>, s: L.State)
    requires T.Run(r) && L.Next(r[|r| - 1], s)
    ensures T.Run(r + [s])
  {
    hide L.Next, L.Init;
    var q := r + [s];
    forall k | 0 <= k < |q| - 1 ensures T.StepAt(q, k) {
      assert k < |r| - 1 ==> T.StepAt(r, k);
    }
  }

  /** Seen without the domain, a run of the system is a run of the list: what is proved of the list's
      runs, linearizability among it, holds of the list with reclamation. */
  lemma {:induction false} ListRuns(run: seq<System>, i: nat) returns (r: seq<L.State>)
    requires Run(run) && i < |run|
    ensures T.Run(r) && r[|r| - 1] == run[i].list
  {
    hide Next, L.Next;
    if i == 0 {
      r := [run[0].list];
    } else {
      r := ListRuns(run, i - 1);
      assert StepAt(run, i - 1);
      ListNext(run[i - 1], run[i]);
      if run[i].list != run[i - 1].list {
        RunGrows(r, run[i].list);
        r := r + [run[i].list];
      }
    }
  }
}

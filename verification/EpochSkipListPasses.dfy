/** The passes of the skip list's epoch domain: erased nodes are not only kept while they are in use, they are also
    freed afterwards. */
module EpochSkipListPasses {
  import L = SkipList
  import T = SkipListTheorems
  import P = SkipListProof
  import H = SkipListHeap
  import D = EpochDomain
  import DP = EpochProof
  import DT = EpochTheorems
  import opened EpochPasses
  import opened EpochSkipList

  ghost predicate Moves(y: System, y': System, t: nat) {
    ListMoves(y, y', t) || ListBegins(y, y', t) || DomainMoves(y, y', t)
  }

  ghost predicate MovesAt(run: seq<System>, who: seq<nat>, i: int) {
    0 <= i < |who| && i + 1 < |run| && Moves(run[i], run[i + 1], who[i])
  }

  /** `who` names the threads that take the steps of `run`. */
  ghost predicate ScheduledSystem(run: seq<System>, who: seq<nat>) {
    && |run| == |who| + 1 && Init(run[0])
    && forall i :: 0 <= i < |who| ==> MovesAt(run, who, i)
  }

  lemma SystemRuns(run: seq<System>, who: seq<nat>)
    requires ScheduledSystem(run, who)
    ensures Run(run)
  {
    hide Init, ListMoves, ListBegins, DomainMoves;
    forall i | 0 <= i < |run| - 1 ensures StepAt(run, i) {
      assert MovesAt(run, who, i);
    }
  }

  /** The domain's part of a run. */
  function Domains(run: seq<System>): (d: seq<D.State>)
    ensures |d| == |run| && forall i {:trigger d[i]} :: 0 <= i < |run| ==> d[i] == run[i].domain
  {
    seq(|run|, i requires 0 <= i < |run| => run[i].domain)
  }

  /** For the domain a step of an operation's own code is a tick. */
  function Actor(y: System, y': System, t: nat): int {
    if y'.list != y.list && !(t < |y.list.threads| && y.list.threads[t].pc == L.Retire) then D.NONE else t
  }

  function Actors(run: seq<System>, who: seq<nat>): (a: seq<int>)
    requires |run| == |who| + 1
    ensures |a| == |who| && forall i {:trigger a[i]} :: 0 <= i < |who| ==> a[i] == Actor(run[i], run[i + 1], who[i])
  {
    seq(|who|, i requires 0 <= i < |who| => Actor(run[i], run[i + 1], who[i]))
  }

  lemma MoveIsBy(y: System, y': System, t: nat)
    requires Inv(y) && Moves(y, y', t)
    ensures By(y.domain, y'.domain, Actor(y, y', t))
  {
    if DomainMoves(y, y', t) {
      hide ListMoves, ListBegins, Inv, L.Step, D.Step, D.May;
    } else if ListBegins(y, y', t) {
      BeginChanges(y, y', t);
      assert D.MayTick(y.domain, {});
      hide ListMoves, DomainMoves, Inv, D.Step, D.May;
    } else {
      ListMoveIsBy(y, y', t);
    }
  }

  lemma BeginChanges(y: System, y': System, t: nat)
    requires ListBegins(y, y', t)
    ensures y'.list != y.list && t < |y.list.threads| && y.list.threads[t].pc == L.Idle
  {
    var op, key, top: nat :| L.MayInvoke(y.list, t, top) && y'.list == L.Invoke(y.list, t, op, key, top);
    assert |y'.list.effects| == |y.list.effects| + 1;
  }

  lemma ListMoveIsBy(y: System, y': System, t: nat)
    requires Inv(y) && ListMoves(y, y', t)
    ensures By(y.domain, y'.domain, Actor(y, y', t))
  {
    var out := NewlyGone(y.list.nodes, y'.list.nodes);
    ListChanges(y, y', t);
    OutIsNew(y, y', t);
    assert y.list.threads[t].pc == L.Retire ==> D.Retires(y.domain, t, y.list.threads[t].found, out) by {
      if y.list.threads[t].pc == L.Retire { RetiresIt(y, y', t); }
    }
    hide Inv, L.Step, L.Enabled, D.Step, D.May, D.Retires, NewlyGone, D.MayTick;
  }

  lemma ListChanges(y: System, y': System, t: nat)
    requires ListMoves(y, y', t)
    ensures y'.list != y.list && t < |y.list.threads|
  {
    T.StepLogs(y.list, t);
    hide L.Step;
  }

  /** A node leaves the bottom level once. */
  lemma OutIsNew(y: System, y': System, t: nat)
    requires Inv(y) && ListMoves(y, y', t)
    ensures D.MayTick(y.domain, NewlyGone(y.list.nodes, y'.list.nodes))
  {
    assert Tied(y);
    hide P.Inv, DP.Inv, L.Step, L.Enabled, H.Out;
  }

  lemma RetiresIt(y: System, y': System, t: nat)
    requires Inv(y) && ListMoves(y, y', t) && t < |y.list.threads| && y.list.threads[t].pc == L.Retire
    ensures D.Retires(y.domain, t, y.list.threads[t].found, NewlyGone(y.list.nodes, y'.list.nodes))
  {
    var v := y.list.threads[t].found;
    OutIsNew(y, y', t);
    VictimIsGone(y.list, t);
    NotRetired(y.list, t);
    assert Tied(y);
    hide P.Inv, DP.Inv, L.Step, L.Enabled, H.Out;
    assert v in y.domain.gone;
  }

  lemma NotRetired(s: L.State, t: nat)
    requires P.Inv(s) && t < |s.threads| && s.threads[t].pc == L.Retire
    ensures s.threads[t].found !in s.retired
  {
    assert P.HasVictim(s.threads[t]);
  }

  /** The domain's part of a run of the system is a run of the domain in which all passes run inside guards. */
  lemma DomainRuns(run: seq<System>, who: seq<nat>)
    requires ScheduledSystem(run, who)
    ensures Scheduled(Domains(run), Actors(run, who)) && DT.Guarded(Domains(run))
  {
    var d, a := Domains(run), Actors(run, who);
    SystemRuns(run, who);
    assert D.Init(run[0].domain);
    hide Inv, Moves, By, Init, D.Init, Run;
    forall i | 0 <= i < |a| ensures ByAt(d, a, i) {
      RunKeeps(run, i);
      assert MovesAt(run, who, i);
      MoveIsBy(run[i], run[i + 1], who[i]);
    }
    forall i | 0 <= i < |d| ensures D.CollectsGuarded(d[i]) {
      RunKeeps(run, i);
      PassesGuarded(run[i]);
    }
  }

  lemma PassesGuarded(y: System)
    requires Inv(y)
    ensures D.CollectsGuarded(y.domain)
  {
    forall t | 0 <= t < |y.domain.threads| && y.domain.threads[t].pc in {D.Reset, D.ScanActive, D.ScanEpoch, D.Take, D.Sweep}
      ensures y.domain.threads[t].slot != D.NONE
    {
      DT.InvAt(y.domain, t);
      hide Inv, DP.Inv, DP.PassOk, DP.HandOk;
    }
  }

  /** Erased nodes are freed: what is in the shared list at a moment when no operation holds a guard is freed by
      any pass that begins later and finds it there. */
  lemma ErasedAreFreed(run: seq<System>, who: seq<nat>, b: nat, t: nat, h: nat, i: nat, n: nat, it: D.Item)
    requires ScheduledSystem(run, who) && Pass(Domains(run), Actors(run, who), t, h, i, n) && b <= h
    requires Unguarded(run[b].domain) && it in run[b].domain.shared && it in run[i].domain.shared
    ensures it.node in run[n].domain.freed
  {
    DomainRuns(run, who);
    hide Pass, Unguarded, ScheduledSystem;
    QuietMomentFrees(Domains(run), Actors(run, who), b, t, h, i, n, it);
  }

  /** A pass of the system frees every item of the list it takes whose epoch is below all the epochs it read. */
  lemma SystemPassFrees(run: seq<System>, who: seq<nat>, t: nat, h: nat, i: nat, n: nat, it: D.Item)
    requires ScheduledSystem(run, who) && Pass(Domains(run), Actors(run, who), t, h, i, n) && it in run[i].domain.shared
    requires forall r, j: nat, e: nat :: h < r < i && ReadsEpoch(Domains(run), Actors(run, who), t, r, j, e) ==> it.epoch < e
    ensures it.node in run[n].domain.freed
  {
    DomainRuns(run, who);
    hide Pass, ReadsEpoch, ScheduledSystem;
    PassFrees(Domains(run), Actors(run, who), t, h, i, n, it);
  }
}

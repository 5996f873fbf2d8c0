/** Push and pop end: a thread that runs alone returns after a number of steps told by the state. */
module HazardStackAlone {
  import opened HazardStack
  import opened HazardStackProof
  import T = HazardStackTheorems
  import S = HazardStackSteps

  /** Thread `t` takes `n` steps while all others rest. */
  function Alone(s: State, t: nat, n: nat): State
    decreases n
  {
    if n == 0 then s else if May(s, t) then Alone(Step(s, t), t, n - 1) else s
  }

  /** The steps of a sweep of `n` items with `slots` hazard slots. */
  function SweepLeft(n: nat, slots: nat): (r: nat)
    ensures r >= 2
  {
    if n == 0 then 2 else SweepLeft(n - 1, slots) + slots + 5
  }

  /** The steps from a look at slot `at` on, when `rest` steps may follow the scan. */
  function ScanLeft(at: nat, slots: nat, rest: nat): nat { (if at < slots then slots - at else 0) + rest + 1 }

  /** The steps from adding an item to a reclaim list of `items` on. */
  function DeferLeft(items: nat, slots: nat): nat { SweepLeft(items + 1, slots) + 6 }

  function ClearLeft(items: nat, slots: nat): nat { ScanLeft(0, slots, DeferLeft(items, slots)) + 2 }

  function ReclaimLeft(th: Thread, head: int, items: nat, slots: nat): nat {
    var sweep := SweepLeft(|th.list|, slots);
    match th.pc
    case DeferLoad => 2 + if th.sweeping then sweep else SweepLeft(items + 1, slots) + 3
    case DeferSwap => (if head == th.seen then 1 else 2) + if th.sweeping then sweep else SweepLeft(items + 1, slots) + 3
    case CountUp => SweepLeft(items, slots) + 3
    case ResetCount => SweepLeft(items, slots) + 2
    case TakeList => SweepLeft(items, slots) + 1
    case SweepNext => sweep
    case SweepScan => ScanLeft(th.at, slots, sweep + 2)
    case _ => 0
  }

  function PopLeft(th: Thread, head: int, rest: nat): nat {
    match th.pc
    case PopLoad => rest + 5
    case PopPublish => if th.oldHead == head then rest + 4 else rest + 6
    case PopReload => if th.temp == head then rest + 3 else rest + 5
    case PopNext => if th.oldHead == head then rest + 2 else rest + 6
    case PopSwap => if th.oldHead == head then rest + 1 else rest + 5
    case _ => 0
  }

  function StepsLeft(s: State, t: nat): nat
    requires t < |s.threads|
  {
    var th, slots, items := s.threads[t], |s.slots|, |s.shared|;
    var clear := ClearLeft(items, slots);
    match th.pc
    case Idle => 0
    case Return => 1
    case PushLoad => 3
    case PushSwap => if IsCell(s.cells, th.own) && s.head == s.cells[th.own].next then 2 else 3
    case PopClear => clear
    case PopTake => clear - 1
    case PopScan => ScanLeft(th.at, slots, DeferLeft(items, slots))
    case PopLoad => PopLeft(th, s.head, clear)
    case PopPublish => PopLeft(th, s.head, clear)
    case PopReload => PopLeft(th, s.head, clear)
    case PopNext => PopLeft(th, s.head, clear)
    case PopSwap => PopLeft(th, s.head, clear)
    case _ => ReclaimLeft(th, HeadOf(s.shared), items, slots)
  }

  lemma PushNears(s: State, t: nat)
    requires May(s, t) && s.threads[t].pc in {PushLoad, PushSwap}
    ensures t < |Step(s, t).threads| && StepsLeft(Step(s, t), t) < StepsLeft(s, t)
  {
  }

  lemma PopNears(s: State, t: nat)
    requires May(s, t) && s.threads[t].pc in {PopLoad, PopPublish, PopReload, PopNext, PopSwap}
    ensures t < |Step(s, t).threads| && StepsLeft(Step(s, t), t) < StepsLeft(s, t)
  {
    hide ClearLeft;
  }

  lemma TakenNears(s: State, t: nat)
    requires May(s, t) && s.threads[t].pc in {PopClear, PopTake, PopScan, PC.Return}
    ensures t < |Step(s, t).threads| && StepsLeft(Step(s, t), t) < StepsLeft(s, t)
  {
    hide SweepLeft;
  }

  lemma DeferNears(s: State, t: nat)
    requires May(s, t) && s.threads[t].pc in {DeferLoad, DeferSwap}
    ensures t < |Step(s, t).threads| && StepsLeft(Step(s, t), t) < StepsLeft(s, t)
  {
    var th, s' := s.threads[t], Step(s, t);
    hide SweepLeft;
    assert th.pc == DeferSwap && HeadOf(s.shared) == th.seen ==> |s'.shared| == |s.shared| + 1;
  }

  lemma CountNears(s: State, t: nat)
    requires May(s, t) && s.threads[t].pc in {CountUp, ResetCount, TakeList}
    ensures t < |Step(s, t).threads| && StepsLeft(Step(s, t), t) < StepsLeft(s, t)
  {
    hide SweepLeft;
  }

  lemma SweepUnfolds(n: nat, slots: nat)
    ensures n > 0 ==> SweepLeft(n, slots) == SweepLeft(n - 1, slots) + slots + 5
  {
  }

  lemma NextNears(s: State, t: nat)
    requires May(s, t) && s.threads[t].pc == SweepNext
    ensures t < |Step(s, t).threads| && StepsLeft(Step(s, t), t) < StepsLeft(s, t)
  {
    var th, slots := s.threads[t], |s.slots|;
    SweepUnfolds(|th.list|, slots);
    NextMoves(s, t);
    SweepLeftAt(s, t);
    SweepLeftAt(Step(s, t), t);
    hide SweepLeft, Step, May, StepsLeft;
  }

  lemma SweepLeftAt(s: State, t: nat)
    requires t < |s.threads|
    ensures var th, slots := s.threads[t], |s.slots|;
      && (th.pc == SweepNext ==> StepsLeft(s, t) == SweepLeft(|th.list|, slots))
      && (th.pc == SweepScan ==> StepsLeft(s, t) == ScanLeft(th.at, slots, SweepLeft(|th.list|, slots) + 2))
      && (th.pc == PC.Return ==> StepsLeft(s, t) == 1)
  {
    hide SweepLeft;
  }

  lemma NextMoves(s: State, t: nat)
    requires May(s, t) && s.threads[t].pc == SweepNext
    ensures var th, s' := s.threads[t], Step(s, t);
      && t < |s'.threads| && |s'.slots| == |s.slots|
      && (if th.list == [] then s'.threads[t].pc == PC.Return
          else s'.threads[t].pc == SweepScan && s'.threads[t].at == 0 && |s'.threads[t].list| == |th.list| - 1)
  {
    T.StepIs(s, t);
    hide Step;
  }

  lemma ScanNears(s: State, t: nat)
    requires May(s, t) && s.threads[t].pc == SweepScan
    ensures t < |Step(s, t).threads| && StepsLeft(Step(s, t), t) < StepsLeft(s, t)
  {
    hide SweepLeft;
  }

  lemma ReclaimNears(s: State, t: nat)
    requires May(s, t) && s.threads[t].pc in {DeferLoad, DeferSwap, CountUp, ResetCount, TakeList, SweepNext, SweepScan}
    ensures t < |Step(s, t).threads| && StepsLeft(Step(s, t), t) < StepsLeft(s, t)
  {
    var pc := s.threads[t].pc;
    hide May, Step, StepsLeft;
    match pc
    case DeferLoad => DeferNears(s, t);
    case DeferSwap => DeferNears(s, t);
    case SweepNext => NextNears(s, t);
    case SweepScan => ScanNears(s, t);
    case _ => CountNears(s, t);
  }

  lemma StepNears(s: State, t: nat)
    requires May(s, t)
    ensures t < |Step(s, t).threads| && StepsLeft(Step(s, t), t) < StepsLeft(s, t)
  {
    T.StepIs(s, t);
    var pc := s.threads[t].pc;
    hide May, Step, StepsLeft, PushStep, PopStep, ReclaimStep;
    if pc in {PushLoad, PushSwap} {
      PushNears(s, t);
    } else if pc in {DeferLoad, DeferSwap, CountUp, ResetCount, TakeList, SweepNext, SweepScan} {
      ReclaimNears(s, t);
    } else if pc in {PopClear, PopTake, PopScan, PC.Return} {
      TakenNears(s, t);
    } else {
      PopNears(s, t);
    }
  }

  lemma NeverStuck(s: State, t: nat)
    requires Inv(s) && t < |s.threads| && s.threads[t].pc != Idle
    ensures May(s, t)
  {
    InvThread(s, t);
    hide Inv;
    S.EmptyIs(s.cells, s.head, s.spine);
  }

  lemma StepIsNext(s: State, t: nat)
    requires May(s, t)
    ensures Next(s, Step(s, t))
  {
    hide May, Step;
  }

  lemma {:induction false} AloneEnds(s: State, t: nat) returns (n: nat)
    requires Inv(s) && t < |s.threads|
    ensures n <= StepsLeft(s, t)
    ensures var end := Alone(s, t, n); t < |end.threads| && end.threads[t].pc == Idle
    decreases StepsLeft(s, t)
  {
    hide Inv, Step, StepsLeft, May, Next;
    if s.threads[t].pc == Idle {
      n := 0;
    } else {
      NeverStuck(s, t);
      StepNears(s, t);
      StepIsNext(s, t);
      T.NextKeeps(s, Step(s, t));
      var m := AloneEnds(Step(s, t), t);
      n := m + 1;
    }
  }

  /** Whatever state the others are in, a thread that runs alone from any state of any run returns from its push or
      pop, reclamation included, within a number of steps told by that state. */
  lemma AloneReturns(run: seq<State>, i: nat, t: nat) returns (n: nat)
    requires T.Run(run) && i < |run| && t < |run[i].threads|
    ensures n <= StepsLeft(run[i], t)
    ensures var end := Alone(run[i], t, n); t < |end.threads| && end.threads[t].pc == Idle
  {
    T.RunKeeps(run, i);
    hide T.Run, Inv, StepsLeft;
    n := AloneEnds(run[i], t);
  }
}

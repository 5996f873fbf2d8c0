/** Entering and leaving a guard, retiring and collecting end: a thread that runs alone is done after a number of
    steps told by the state. */
module EpochAlone {
  import opened EpochDomain
  import opened EpochProof
  import opened EpochTheorems

  /** Thread `t` takes `n` steps while all others rest. */
  function Alone(s: State, t: nat, n: nat): State
    decreases n
  {
    if n == 0 then s else if May(s, t) then Alone(Step(s, t), t, n - 1) else s
  }

  /** The steps of a pass from its look at slot `at` of `slots` on, the list then having `items`. */
  function ScanLeft(at: nat, slots: nat, items: nat): nat {
    (if at < slots then 2 * (slots - at) else 0) + 4 * items + 3
  }

  /** The steps from a push of a new item on, which may begin a pass. */
  function PushLeft(slots: nat, items: nat): nat { ScanLeft(0, slots, items + 1) + 2 }

  function StepsLeft(s: State, t: nat): nat
    requires t < |s.threads|
  {
    var th, slots, items := s.threads[t], |s.slots|, |s.shared|;
    match th.pc
    case Outside => 0
    case Inside => 0
    case Claim => (if th.at < slots then slots - th.at else 0) + 4
    case Bump => 3
    case Announce => 2
    case Activate => 1
    case Disown => 1
    case LoadEpoch => PushLeft(slots, items) + 3
    case LoadHead => 2 + if th.sweeping then 4 * |th.list| + 1 else PushLeft(slots, items)
    case SwapHead => (if HeadOf(s.shared) == th.seen then 1 else 2) + if th.sweeping then 4 * |th.list| + 1 else PushLeft(slots, items)
    case Count => ScanLeft(0, slots, items) + 2
    case Reset => ScanLeft(0, slots, items) + 1
    case ScanActive => ScanLeft(th.at, slots, items)
    case ScanEpoch => if th.at < slots then ScanLeft(th.at, slots, items) - 1 else 0
    case Take => 4 * items + 2
    case Sweep => 4 * |th.list| + 1
  }

  /** The search for a free slot stays within the registry. */
  predicate ClaimOk(s: State, t: nat) {
    t < |s.threads| && (s.threads[t].pc == Claim ==> s.threads[t].at <= |s.slots|)
  }

  lemma StepNears(s: State, t: nat)
    requires May(s, t) && ClaimOk(s, t) && (s.threads[t].pc == LoadEpoch ==> !s.threads[t].sweeping)
    ensures ClaimOk(Step(s, t), t) && StepsLeft(Step(s, t), t) < StepsLeft(s, t)
  {
    match s.threads[t].pc
    case Claim => GuardNears(s, t);
    case Bump => GuardNears(s, t);
    case Announce => GuardNears(s, t);
    case Activate => GuardNears(s, t);
    case Disown => GuardNears(s, t);
    case LoadEpoch => PushNears(s, t);
    case LoadHead => PushNears(s, t);
    case SwapHead => PushNears(s, t);
    case Take => SweepNears(s, t);
    case Sweep => SweepNears(s, t);
    case Count => ScanNears(s, t);
    case Reset => ScanNears(s, t);
    case ScanActive => ScanNears(s, t);
    case ScanEpoch => ScanNears(s, t);
    case Outside =>
    case Inside =>
  }

  lemma GuardNears(s: State, t: nat)
    requires May(s, t) && ClaimOk(s, t) && s.threads[t].pc in {Claim, Bump, Announce, Activate, Disown}
    ensures ClaimOk(Step(s, t), t) && StepsLeft(Step(s, t), t) < StepsLeft(s, t)
  {
  }

  lemma PushNears(s: State, t: nat)
    requires May(s, t) && s.threads[t].pc in {LoadEpoch, LoadHead, SwapHead} && (s.threads[t].pc == LoadEpoch ==> !s.threads[t].sweeping)
    ensures ClaimOk(Step(s, t), t) && StepsLeft(Step(s, t), t) < StepsLeft(s, t)
  {
    var th, s' := s.threads[t], Step(s, t);
    assert th.pc == SwapHead && HeadOf(s.shared) == th.seen ==> |s'.shared| == |s.shared| + 1;
  }

  lemma ScanNears(s: State, t: nat)
    requires May(s, t) && s.threads[t].pc in {PC.Count, Reset, ScanActive, ScanEpoch}
    ensures ClaimOk(Step(s, t), t) && StepsLeft(Step(s, t), t) < StepsLeft(s, t)
  {
    var th, s' := s.threads[t], Step(s, t);
    assert |s'.slots| == |s.slots| && s'.shared == s.shared;
    if th.pc == ScanActive {
      assert s'.threads[t].pc in {Take, ScanEpoch} || s'.threads[t] == th.(at := th.at + 1);
    }
  }

  lemma SweepNears(s: State, t: nat)
    requires May(s, t) && s.threads[t].pc in {Take, Sweep}
    ensures ClaimOk(Step(s, t), t) && StepsLeft(Step(s, t), t) < StepsLeft(s, t)
  {
  }

  /** A thread inside the domain's code can take its next step. */
  lemma NeverStuck(s: State, t: nat)
    requires Inv(s) && t < |s.threads| && s.threads[t].pc !in {Inside, Outside}
    ensures May(s, t) && (s.threads[t].pc == LoadEpoch ==> !s.threads[t].sweeping)
  {
    InvAt(s, t);
    hide Inv, HandOk;
  }

  lemma {:induction false} AloneEnds(s: State, t: nat) returns (n: nat)
    requires Inv(s) && ClaimOk(s, t)
    ensures n <= StepsLeft(s, t)
    ensures var end := Alone(s, t, n); t < |end.threads| && end.threads[t].pc in {Inside, Outside}
    decreases StepsLeft(s, t)
  {
    hide Inv, Step, StepsLeft, May;
    if s.threads[t].pc in {Inside, Outside} {
      n := 0;
    } else {
      NeverStuck(s, t);
      StepNears(s, t);
      StepKeeps(s, t);
      var m := AloneEnds(Step(s, t), t);
      n := m + 1;
    }
  }

  lemma {:induction false} RunClaims(run: seq<State>, i: nat, t: nat)
    requires Run(run) && i < |run| && t < |run[i].threads|
    ensures ClaimOk(run[i], t)
  {
    if i > 0 {
      assert StepAt(run, i - 1);
      NextClaims(run[i - 1], run[i], t);
      RunClaims(run, i - 1, t);
    }
  }

  lemma NextClaims(s: State, s': State, t: nat)
    requires Next(s, s')
    ensures |s'.threads| == |s.threads| && (ClaimOk(s, t) ==> ClaimOk(s', t))
  {
    if u: nat :| May(s, u) && s' == Step(s, u) {
      StepClaims(s, u, t);
    } else {
      hide Step, May;
    }
  }

  lemma StepClaims(s: State, u: nat, t: nat)
    requires May(s, u)
    ensures |Step(s, u).threads| == |s.threads| && (ClaimOk(s, t) ==> ClaimOk(Step(s, u), t))
  {
  }

  /** Whatever state the others are in, a thread that runs alone from any state of any run finishes entering or
      leaving its guard, its retirement or its pass, within a number of steps told by that state. */
  lemma AloneReturns(run: seq<State>, i: nat, t: nat) returns (n: nat)
    requires Run(run) && Guarded(run) && i < |run| && t < |run[i].threads|
    ensures n <= StepsLeft(run[i], t)
    ensures var end := Alone(run[i], t, n); t < |end.threads| && end.threads[t].pc in {Inside, Outside}
  {
    RunKeeps(run, i);
    RunClaims(run, i, t);
    hide Run, Inv, StepsLeft;
    n := AloneEnds(run[i], t);
  }
}

/** What the epoch domain promises of every run. */
module EpochTheorems {
  import opened EpochDomain
  import opened EpochProof

  lemma InvAt(s: State, t: nat)
    requires Inv(s) && t < |s.threads|
    ensures var th := s.threads[t]; ThreadOk(s.slots, s.global, t, th) && HandOk(s.slots, s.gone, th)
    ensures forall j {:trigger s.slots[j]} :: 0 <= j < |s.slots| && s.slots[j].owner == t ==>
              s.threads[t].slot == j && Owning(s.threads[t].pc)
  {
    forall j | 0 <= j < |s.slots| && s.slots[j].owner == t ensures s.threads[t].slot == j && Owning(s.threads[t].pc) {
      assert SlotOk(s.threads, s.slots[j], j, s.global, s.clock);
    }
  }

  /** A step of `t` that changes nothing but its own locals. */
  lemma LocalStep(s: State, t: nat, th: Thread)
    requires Inv(s) && t < |s.threads|
    requires ThreadOk(s.slots, s.global, t, th) && HandOk(s.slots, s.gone, th)
    requires Owning(th.pc) == Owning(s.threads[t].pc) && Entered(th.pc) == Entered(s.threads[t].pc)
    requires Owning(th.pc) ==> th.slot == s.threads[t].slot
    requires forall x :: Private(th, x) == Private(s.threads[t], x)
    ensures Inv(Go(s, t, th))
  {
    InvAt(s, t);
    forall j | 0 <= j < |s.slots| && s.slots[j].owner == t ensures SlotOk(s.threads[t := th], s.slots[j], j, s.global, s.clock) {
      assert SlotOk(s.threads, s.slots[j], j, s.global, s.clock);
    }
    hide Inv, SlotOk, ThreadOk, HandOk;
    SlotStep(s, t, th, s.slots, s.global);
    assert Go(s, t, th) == Go(s, t, th).(slots := s.slots, global := s.global);
  }

  /** A step of `t` on its own slot, or on the free slot it claims. */
  lemma OwnSlotStep(s: State, t: nat, th: Thread, j: int, x: Slot)
    requires Inv(s) && t < |s.threads| && 0 <= j < |s.slots|
    requires s.slots[j].owner == t || (s.slots[j].owner == NONE && !Owning(s.threads[t].pc))
    requires SlotEvolves(s.slots[j], x, s.global, s.clock, t) && SlotOk(s.threads[t := th], x, j, s.global, s.clock)
    requires ThreadOk(s.slots[j := x], s.global, t, th) && HandOk(s.slots, s.gone, th)
    requires forall x :: Private(th, x) == Private(s.threads[t], x)
    ensures Inv(Go(s, t, th).(slots := s.slots[j := x]))
  {
    InvAt(s, t);
    var slots' := s.slots[j := x];
    forall i | 0 <= i < |slots'| ensures SlotEvolves(s.slots[i], slots'[i], s.global, s.clock, t) && (i != j ==> slots'[i].owner != t) {
      assert SlotOk(s.threads, s.slots[i], i, s.global, s.clock);
    }
    hide Inv, SlotOk, ThreadOk, HandOk, SlotEvolves;
    SlotStep(s, t, th, slots', s.global);
    assert Go(s, t, th).(slots := slots') == Go(s, t, th).(slots := slots', global := s.global);
  }

  lemma EnterKeeps(s: State, t: nat)
    requires Inv(s) && At(s, t, Outside)
    ensures Inv(Enter(s, t))
  {
    InvAt(s, t);
    LocalStep(s, t, s.threads[t].(pc := Claim, slot := NONE, at := 0));
  }

  lemma TakeSlot(s: State, t: nat)
    requires Inv(s) && May(s, t) && s.threads[t].pc == Claim
    requires s.threads[t].at < |s.slots| && s.slots[s.threads[t].at].owner == NONE
    ensures Inv(Step(s, t))
  {
    InvAt(s, t);
    var th := s.threads[t];
    assert SlotOk(s.threads, s.slots[th.at], th.at, s.global, s.clock);
    OwnSlotStep(s, t, th.(pc := Bump, slot := th.at), th.at, s.slots[th.at].(owner := t));
  }

  lemma ClaimKeeps(s: State, t: nat)
    requires Inv(s) && May(s, t) && s.threads[t].pc == Claim
    ensures Inv(Step(s, t))
  {
    InvAt(s, t);
    var th := s.threads[t];
    if th.at == |s.slots| {
      LocalStep(s, t, th.(pc := Outside));
    } else if th.at < |s.slots| && s.slots[th.at].owner == NONE {
      TakeSlot(s, t);
    } else {
      LocalStep(s, t, th.(at := th.at + 1));
    }
  }

  lemma BumpKeeps(s: State, t: nat)
    requires Inv(s) && May(s, t) && s.threads[t].pc == Bump
    ensures Inv(Step(s, t))
  {
    InvAt(s, t);
    var th := s.threads[t].(pc := Announce, epoch := s.global + 1);
    forall j | 0 <= j < |s.slots| && s.slots[j].owner == t ensures SlotOk(s.threads[t := th], s.slots[j], j, s.global + 1, s.clock) {
      assert SlotOk(s.threads, s.slots[j], j, s.global, s.clock);
    }
    SlotStep(s, t, th, s.slots, s.global + 1);
    assert Step(s, t) == Go(s, t, th).(slots := s.slots, global := s.global + 1);
  }

  lemma AnnounceKeeps(s: State, t: nat)
    requires Inv(s) && May(s, t) && s.threads[t].pc in {Announce, Activate}
    ensures Inv(Step(s, t))
  {
    InvAt(s, t);
    var th, j := s.threads[t], s.threads[t].slot;
    assert SlotOk(s.threads, s.slots[j], j, s.global, s.clock);
    if th.pc == Announce {
      OwnSlotStep(s, t, th.(pc := Activate), j, s.slots[j].(announced := th.epoch));
    } else {
      OwnSlotStep(s, t, th.(pc := Inside), j, s.slots[j].(active := true, since := s.clock, floor := s.global));
    }
  }

  lemma LeaveKeeps(s: State, t: nat)
    requires Inv(s) && At(s, t, Inside) && OwnsSlot(s, t)
    ensures Inv(Leave(s, t))
  {
    InvAt(s, t);
    var th, j := s.threads[t], s.threads[t].slot;
    assert SlotOk(s.threads, s.slots[j], j, s.global, s.clock);
    OwnSlotStep(s, t, th.(pc := Disown), j, s.slots[j].(active := false));
  }

  lemma DisownKeeps(s: State, t: nat)
    requires Inv(s) && May(s, t) && s.threads[t].pc == Disown
    ensures Inv(Step(s, t))
  {
    InvAt(s, t);
    var th, j := s.threads[t], s.threads[t].slot;
    assert SlotOk(s.threads, s.slots[j], j, s.global, s.clock);
    OwnSlotStep(s, t, th.(pc := Outside), j, s.slots[j].(owner := NONE));
  }

  // ---------------------------------------------------------------- retiring

  lemma RetireKeeps(s: State, t: nat, x: int)
    requires Inv(s) && MayRetire(s, t, x)
    ensures Inv(Retire(s, t, x))
  {
    InvAt(s, t);
    var th := s.threads[t].(pc := LoadEpoch, item := Item(x, 0), sweeping := false);
    var s' := Retire(s, t, x);
    forall j | 0 <= j < |s.slots| ensures SlotOk(s'.threads, s.slots[j], j, s.global, s.clock) {
      assert SlotOk(s.threads, s.slots[j], j, s.global, s.clock);
    }
    forall y ensures PlaceOk(s', y) {
      assert PlaceOk(s, y);
      HandsUpdate(s.threads, t, th, y);
    }
  }

  /** The epoch read by `retire` is no less than the floor of any guard that may hold the node. */
  lemma LoadedOk(s: State, t: nat)
    requires Inv(s) && t < |s.threads| && s.threads[t].pc == LoadEpoch
    ensures ItemOk(s.slots, s.gone, s.threads[t].item.(epoch := s.global))
  {
    InvAt(s, t);
    forall j | 0 <= j < |s.slots| && s.slots[j].active ensures s.slots[j].floor <= s.global {
      assert SlotOk(s.threads, s.slots[j], j, s.global, s.clock);
    }
  }

  lemma PushKeeps(s: State, t: nat)
    requires Inv(s) && May(s, t) && s.threads[t].pc in {LoadEpoch, LoadHead, SwapHead}
    ensures Inv(Step(s, t))
  {
    InvAt(s, t);
    var th := s.threads[t];
    if th.pc == LoadEpoch {
      LoadedOk(s, t);
      LocalStep(s, t, th.(pc := LoadHead, item := th.item.(epoch := s.global)));
    } else if th.pc == LoadHead {
      LocalStep(s, t, th.(pc := SwapHead, seen := HeadOf(s.shared)));
    } else if HeadOf(s.shared) == th.seen {
      var shared' := [th.item] + s.shared;
      assert shared'[1..] == s.shared;
      ItemStep(s, t, th.(pc := if th.sweeping then Sweep else Count), shared', s.freed);
    } else {
      LocalStep(s, t, th.(seen := HeadOf(s.shared)));
    }
  }

  lemma CountIrrelevant(s: State, n: nat)
    requires Inv(s)
    ensures Inv(s.(count := n))
  {
    var s' := s.(count := n);
    forall x ensures PlaceOk(s', x) {
      assert PlaceOk(s, x);
    }
  }

  lemma CountKeeps(s: State, t: nat)
    requires Inv(s) && May(s, t) && s.threads[t].pc in {Count, Reset}
    ensures Inv(Step(s, t))
  {
    InvAt(s, t);
    var th := Step(s, t).threads[t];
    LocalStep(s, t, th);
    CountIrrelevant(Go(s, t, th), Step(s, t).count);
  }

  // ---------------------------------------------------------------- a pass

  lemma ScanKeeps(s: State, t: nat)
    requires Inv(s) && May(s, t) && s.threads[t].pc in {ScanActive, ScanEpoch}
    ensures Inv(Step(s, t))
  {
    InvAt(s, t);
    var th := s.threads[t];
    if th.pc == ScanActive {
      if th.at >= |s.slots| {
        LocalStep(s, t, th.(pc := Take));
      } else if s.slots[th.at].active {
        LocalStep(s, t, th.(pc := ScanEpoch));
      } else {
        LocalStep(s, t, th.(at := th.at + 1));
      }
    } else {
      var th' := th.(pc := ScanActive, at := th.at + 1, least := Lower(th.least, s.slots[th.at].announced));
      forall j | 0 <= j < th.at + 1 ensures Covered(s.slots[j], th'.least, th'.epoch) {
        assert j < th.at ==> Covered(s.slots[j], th.least, th.epoch);
      }
      LocalStep(s, t, th');
    }
  }

  lemma TakeKeeps(s: State, t: nat)
    requires Inv(s) && May(s, t) && s.threads[t].pc == Take
    ensures Inv(Step(s, t))
  {
    InvAt(s, t);
    ItemStep(s, t, s.threads[t].(pc := Sweep, list := s.shared), [], s.freed);
    assert Step(s, t) == Go(s, t, s.threads[t].(pc := Sweep, list := s.shared)).(shared := [], freed := s.freed);
  }

  /** The heart of the matter: an item that a pass finds expired is out of every guard's reach. */
  lemma ExpiredIsFree(s: State, t: nat)
    requires Inv(s) && t < |s.threads| && s.threads[t].pc == Sweep && s.threads[t].list != []
    requires Expired(s.threads[t].list[0].epoch, s.threads[t].least)
    ensures var x := s.threads[t].list[0].node;
      x in s.gone && forall j {:trigger s.slots[j]} :: 0 <= j < |s.slots| && s.slots[j].active ==> s.gone[x] < s.slots[j].since
  {
    InvAt(s, t);
    var th := s.threads[t];
    var it := th.list[0];
    assert ItemOk(s.slots, s.gone, it);
    forall j | 0 <= j < |s.slots| && s.slots[j].active ensures s.gone[it.node] < s.slots[j].since {
      assert SlotOk(s.threads, s.slots[j], j, s.global, s.clock) && Covered(s.slots[j], th.least, th.epoch);
    }
  }

  lemma SweepKeeps(s: State, t: nat)
    requires Inv(s) && May(s, t) && s.threads[t].pc == Sweep
    ensures Inv(Step(s, t))
  {
    InvAt(s, t);
    var th := s.threads[t];
    if th.list == [] {
      LocalStep(s, t, Swept(s, th));
    } else {
      var rest := th.list[1..];
      assert forall i {:trigger rest[i]} :: 0 <= i < |rest| ==> rest[i] == th.list[i + 1];
      if Expired(th.list[0].epoch, th.least) {
        ExpiredIsFree(s, t);
        ItemStep(s, t, th.(list := rest), s.shared, s.freed + multiset{th.list[0].node});
      } else {
        assert ItemOk(s.slots, s.gone, th.list[0]);
        LocalStep(s, t, th.(pc := LoadHead, item := th.list[0], sweeping := true, list := rest));
      }
    }
  }

  // ---------------------------------------------------------------- runs

  lemma TickKeeps(s: State, out: set<int>)
    requires Inv(s) && MayTick(s, out)
    ensures Inv(Tick(s, out))
  {
    var s' := Tick(s, out);
    assert forall x :: x in s.gone ==> x in s'.gone && s'.gone[x] == s.gone[x];
    forall j | 0 <= j < |s.slots| ensures SlotOk(s'.threads, s.slots[j], j, s.global, s'.clock) {
      assert SlotOk(s.threads, s.slots[j], j, s.global, s.clock);
    }
    ItemsTick(s, out, s.shared);
    forall t | 0 <= t < |s.threads| ensures HandOk(s.slots, s'.gone, s.threads[t]) {
      assert HandOk(s.slots, s.gone, s.threads[t]);
      ItemsTick(s, out, s.threads[t].list);
    }
    forall x ensures PlaceOk(s', x) {
      assert PlaceOk(s, x);
    }
  }

  lemma ItemsTick(s: State, out: set<int>, list: seq<Item>)
    requires MayTick(s, out) && ItemsOk(s.slots, s.gone, list)
    ensures ItemsOk(s.slots, Tick(s, out).gone, list)
  {
    var s' := Tick(s, out);
    forall i | 0 <= i < |list| ensures ItemOk(s.slots, s'.gone, list[i]) {
      assert ItemOk(s.slots, s.gone, list[i]);
    }
  }

  lemma CollectKeeps(s: State, t: nat)
    requires Inv(s) && At(s, t, Inside)
    ensures Inv(Collect(s, t))
  {
    InvAt(s, t);
    LocalStep(s, t, s.threads[t].(pc := Reset));
  }

  lemma StepKeeps(s: State, t: nat)
    requires Inv(s) && May(s, t)
    ensures Inv(Step(s, t))
  {
    var pc := s.threads[t].pc;
    hide Inv, Step;
    if pc == Claim { ClaimKeeps(s, t); }
    else if pc == Bump { BumpKeeps(s, t); }
    else if pc in {Announce, Activate} { AnnounceKeeps(s, t); }
    else if pc in {LoadEpoch, LoadHead, SwapHead} { PushKeeps(s, t); }
    else if pc in {Count, Reset} { CountKeeps(s, t); }
    else if pc in {ScanActive, ScanEpoch} { ScanKeeps(s, t); }
    else if pc == Take { TakeKeeps(s, t); }
    else if pc == Sweep { SweepKeeps(s, t); }
    else { DisownKeeps(s, t); }
  }

  lemma NextKeeps(s: State, s': State)
    requires Inv(s) && Next(s, s') && CollectsGuarded(s')
    ensures Inv(s')
  {
    hide Inv, Step;
    if out :| MayTick(s, out) && s' == Tick(s, out) {
      TickKeeps(s, out);
    } else if t: nat :| At(s, t, Outside) && s' == Enter(s, t) {
      EnterKeeps(s, t);
    } else if t: nat :| At(s, t, Inside) && OwnsSlot(s, t) && s' == Leave(s, t) {
      LeaveKeeps(s, t);
    } else if t: nat, x, out :| Retires(s, t, x, out) && s' == Retire(Tick(s, out), t, x) {
      TickKeeps(s, out);
      RetireKeeps(Tick(s, out), t, x);
    } else if t: nat :| (At(s, t, Inside) || At(s, t, Outside)) && s' == Collect(s, t) {
      assert s'.threads[t].pc == Reset;
      CollectKeeps(s, t);
    } else {
      var t: nat :| May(s, t) && s' == Step(s, t);
      StepKeeps(s, t);
    }
  }

  lemma InitOk(s: State)
    requires Init(s)
    ensures Inv(s)
  {
    forall x ensures PlaceOk(s, x) {
      NoneInHands(s.threads, x);
    }
  }

  lemma {:induction false} NoneInHands(threads: seq<Thread>, x: int)
    requires forall t :: 0 <= t < |threads| ==> threads[t].pc == Outside && threads[t].list == []
    ensures InHands(threads, x) == 0
  {
    if threads != [] {
      NoneInHands(threads[1..], x);
    }
  }

  ghost predicate StepAt(run: seq<State>, i: int) {
    0 <= i < |run| - 1 && Next(run[i], run[i + 1])
  }

  ghost predicate Run(run: seq<State>) {
    |run| > 0 && Init(run[0]) && forall i :: 0 <= i < |run| - 1 ==> StepAt(run, i)
  }

  ghost predicate Guarded(run: seq<State>) {
    forall i :: 0 <= i < |run| ==> CollectsGuarded(run[i])
  }

  lemma {:induction false} RunKeeps(run: seq<State>, i: nat)
    requires Run(run) && Guarded(run) && i < |run|
    ensures Inv(run[i])
  {
    hide Inv, Next, CollectsGuarded;
    if i == 0 {
      InitOk(run[0]);
    } else {
      RunKeeps(run, i - 1);
      assert StepAt(run, i - 1);
      NextKeeps(run[i - 1], run[i]);
    }
  }

  /** In every state of every run no node that an active guard may still use has been freed: although
      a pass reads the slots one by one, each in two loads, takes the list only afterwards, and a
      thread announces its epoch before it sets `active`. */
  lemma HeldIsNotFreed(run: seq<State>, i: nat, j: nat, x: int)
    requires Run(run) && Guarded(run) && i < |run| && MayHold(run[i], j, x)
    ensures x !in run[i].freed
  {
    RunKeeps(run, i);
    assert run[i].freed[x] >= 0 && run[i].slots[j].active;
  }

  /** Each retired node is freed at most once and otherwise is in exactly one place: the shared list
      or the hands of exactly one thread. */
  lemma RetiredIsSomewhere(run: seq<State>, i: nat, x: int)
    requires Run(run) && Guarded(run) && i < |run|
    ensures run[i].given[x] == InList(run[i].shared, x) + InHands(run[i].threads, x) + run[i].freed[x] <= 1
    ensures x in run[i].freed ==> x in run[i].given && x in run[i].gone
  {
    RunKeeps(run, i);
    assert PlaceOk(run[i], x);
  }

  // ---------------------------------------------------------------- epochs

  /** A thread that has drawn an epoch for its guard. */
  predicate Drawn(th: Thread) { Owning(th.pc) && th.pc != Bump }

  ghost predicate EpochsOk(s: State) {
    && (forall t {:trigger s.threads[t]} :: 0 <= t < |s.threads| && Drawn(s.threads[t]) ==> s.threads[t].epoch <= s.global)
    && (forall t, u {:trigger s.threads[t], s.threads[u]} ::
          0 <= t < u < |s.threads| && Drawn(s.threads[t]) && Drawn(s.threads[u]) ==> s.threads[t].epoch != s.threads[u].epoch)
  }

  lemma EpochsKept(s: State, s': State, t: nat)
    requires EpochsOk(s) && t < |s.threads| && |s'.threads| == |s.threads| && s'.threads == s.threads[t := s'.threads[t]]
    requires s.global <= s'.global
    requires Drawn(s'.threads[t]) ==>
      (Drawn(s.threads[t]) && s'.threads[t].epoch == s.threads[t].epoch) || s.global < s'.threads[t].epoch == s'.global
    ensures EpochsOk(s')
  {
  }

  lemma StepEpochs(s: State, t: nat)
    requires Inv(s) && EpochsOk(s) && May(s, t)
    ensures EpochsOk(Step(s, t))
  {
    InvAt(s, t);
    hide Inv, EpochsOk, ThreadOk, HandOk;
    EpochsKept(s, Step(s, t), t);
  }

  lemma TickEpochs(s: State, out: set<int>)
    requires EpochsOk(s) && MayTick(s, out)
    ensures EpochsOk(Tick(s, out))
  {
  }

  lemma RetireEpochs(s: State, t: nat, x: int)
    requires EpochsOk(s) && MayRetire(s, t, x)
    ensures EpochsOk(Retire(s, t, x))
  {
    EpochsKept(s, Retire(s, t, x), t);
  }

  lemma CallEpochs(s: State, s': State, t: nat)
    requires Inv(s) && EpochsOk(s) && CollectsGuarded(s')
    requires || (At(s, t, Outside) && s' == Enter(s, t)) || (At(s, t, Inside) && OwnsSlot(s, t) && s' == Leave(s, t))
             || ((At(s, t, Inside) || At(s, t, Outside)) && s' == Collect(s, t))
    ensures EpochsOk(s')
  {
    InvAt(s, t);
    assert s'.threads[t].pc == Reset ==> At(s, t, Inside);
    hide Inv, EpochsOk, ThreadOk, HandOk, CollectsGuarded;
    EpochsKept(s, s', t);
  }

  lemma NextEpochs(s: State, s': State)
    requires Inv(s) && EpochsOk(s) && Next(s, s') && CollectsGuarded(s')
    ensures EpochsOk(s')
  {
    hide Inv, EpochsOk, Step, Retire, Tick, Leave, Enter, Collect, CollectsGuarded;
    if out :| MayTick(s, out) && s' == Tick(s, out) {
      TickEpochs(s, out);
    } else if t: nat, x, out :| Retires(s, t, x, out) && s' == Retire(Tick(s, out), t, x) {
      TickEpochs(s, out);
      RetireEpochs(Tick(s, out), t, x);
    } else if t: nat :| May(s, t) && s' == Step(s, t) {
      StepEpochs(s, t);
    } else if t: nat :| At(s, t, Outside) && s' == Enter(s, t) {
      CallEpochs(s, s', t);
    } else if t: nat :| At(s, t, Inside) && OwnsSlot(s, t) && s' == Leave(s, t) {
      CallEpochs(s, s', t);
    } else {
      var t: nat :| (At(s, t, Inside) || At(s, t, Outside)) && s' == Collect(s, t);
      CallEpochs(s, s', t);
    }
  }

  lemma {:induction false} RunEpochs(run: seq<State>, i: nat)
    requires Run(run) && Guarded(run) && i < |run|
    ensures Inv(run[i]) && EpochsOk(run[i])
  {
    hide Inv, Next, CollectsGuarded;
    RunKeeps(run, i);
    if i > 0 {
      RunEpochs(run, i - 1);
      assert StepAt(run, i - 1);
      NextEpochs(run[i - 1], run[i]);
    }
  }

  /** Every guard announces an epoch of its own: no two active slots announce the same. */
  lemma EpochsAreUnique(run: seq<State>, i: nat, j: nat, k: nat)
    requires Run(run) && Guarded(run) && i < |run| && j < |run[i].slots| && k < |run[i].slots| && j != k
    requires run[i].slots[j].active && run[i].slots[k].active
    ensures run[i].slots[j].announced != run[i].slots[k].announced
  {
    RunEpochs(run, i);
    var s := run[i];
    assert SlotOk(s.threads, s.slots[j], j, s.global, s.clock) && SlotOk(s.threads, s.slots[k], k, s.global, s.clock);
    InvAt(s, s.slots[j].owner);
    InvAt(s, s.slots[k].owner);
  }
}

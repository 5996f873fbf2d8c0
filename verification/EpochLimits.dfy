/** Why passes must run inside a guard: the interface lets a client call `collect` outside any
    (include/epoch_reclaim.hpp:67-68), and then a node that an active guard still uses can be freed. Which
    policies are safe is settled exactly: those that let no thread do that. */
module EpochLimits {
  import opened EpochDomain
  import opened EpochTheorems

  // ---------------------------------------------------------------- policies

  predicate Unguarded(th: Thread) {
    th.pc in {Reset, ScanActive, ScanEpoch, Take, Sweep} && th.slot == NONE
  }

  /** Only threads in `who` run a pass outside a guard. */
  ghost predicate Permits(who: iset<nat>, s: State) {
    forall t: nat :: t < |s.threads| && Unguarded(s.threads[t]) ==> t in who
  }

  ghost predicate RunPermits(who: iset<nat>, run: seq<State>) {
    forall i :: 0 <= i < |run| ==> Permits(who, run[i])
  }

  ghost predicate SafeRun(run: seq<State>) {
    forall i, j, x :: 0 <= i < |run| && MayHold(run[i], j, x) ==> x !in run[i].freed
  }

  /** Whatever the clients do that let only `who` collect outside a guard, no held node is freed. */
  ghost predicate Safe(who: iset<nat>) {
    forall run :: Run(run) && RunPermits(who, run) ==> SafeRun(run)
  }

  // ---------------------------------------------------------------- reachable states

  ghost predicate LeadsTo(w: nat, run: seq<State>, s: State) {
    Run(run) && RunPermits(iset{w}, run) && run[|run| - 1] == s
  }

  /** Reachable by a run in which only thread `w` collects outside a guard. */
  ghost predicate Reachable(w: nat, s: State) {
    exists run :: LeadsTo(w, run, s)
  }

  lemma ReachNext(w: nat, s: State, s': State)
    requires Reachable(w, s) && Next(s, s') && Permits(iset{w}, s')
    ensures Reachable(w, s')
  {
    hide Next, Init, Permits;
    var run :| LeadsTo(w, run, s);
    var longer := run + [s'];
    forall i | 0 <= i < |longer| - 1 ensures StepAt(longer, i) {
      assert i < |run| - 1 ==> StepAt(run, i);
    }
    assert LeadsTo(w, longer, s');
  }

  lemma PermitsOn(w: nat, s: State, s': State, t: nat)
    requires Permits(iset{w}, s) && t < |s.threads| == |s'.threads|
    requires s'.threads == s.threads[t := s'.threads[t]] && (Unguarded(s'.threads[t]) ==> t == w)
    ensures Permits(iset{w}, s')
  {
  }

  lemma ReachPermits(w: nat, s: State)
    requires Reachable(w, s)
    ensures Permits(iset{w}, s)
  {
    var run :| LeadsTo(w, run, s);
  }

  lemma StepIsOwn(s: State, t: nat)
    requires May(s, t)
    ensures |Step(s, t).threads| == |s.threads| && Step(s, t).threads == s.threads[t := Step(s, t).threads[t]]
  {
  }

  lemma ReachStep(w: nat, s: State, t: nat)
    requires Reachable(w, s) && May(s, t)
    requires t == w || (s.threads[t].slot != NONE || s.threads[t].pc == Claim)
    ensures Reachable(w, Step(s, t))
  {
    StepIsOwn(s, t);
    ReachPermits(w, s);
    assert Unguarded(Step(s, t).threads[t]) ==> t == w;
    hide Reachable, Step, May, Permits, Unguarded;
    PermitsOn(w, s, Step(s, t), t);
    ReachNext(w, s, Step(s, t));
  }

  /** The client's calls on behalf of thread `t`. */
  lemma ReachCall(w: nat, s: State, t: nat, s': State)
    requires Reachable(w, s)
    requires || (At(s, t, Outside) && s' == Enter(s, t))
             || (exists x, out :: Retires(s, t, x, out) && s' == Retire(Tick(s, out), t, x))
             || (At(s, t, Outside) && s' == Collect(s, t) && t == w)
    ensures Reachable(w, s')
  {
    ReachPermits(w, s);
    hide Reachable, Permits;
    PermitsOn(w, s, s', t);
    ReachNext(w, s, s');
  }

  // ---------------------------------------------------------------- a run that frees a held node

  const IDLE := Thread(Outside, NONE, 0, 0, Item(0, 0), NONE, false, [], NONE)
  const FREE_SLOT := Slot(NONE, 0, false, 0, 0)

  function FreeSlots(n: nat): (slots: seq<Slot>)
    ensures |slots| == n && forall j :: 0 <= j < n ==> slots[j] == FREE_SLOT
  {
    if n == 0 then [] else FreeSlots(n - 1) + [FREE_SLOT]
  }

  function IdleThreads(n: nat): (threads: seq<Thread>)
    ensures |threads| == n && forall t :: 0 <= t < n ==> threads[t] == IDLE
  {
    if n == 0 then [] else IdleThreads(n - 1) + [IDLE]
  }

  /** Among the threads: `w`, which collects, a reader `w + 1`, and `w + 2`, which removes and retires. */
  function Start(w: nat): State {
    State(FreeSlots(MAX_THREADS), IdleThreads(w + 3), 0, 0, [], map[], 0, multiset{}, multiset{})
  }

  /** A pass over slots none of which is active sees no epoch. */
  lemma {:induction false} ScanIdle(w: nat, s: State, n: nat)
    requires Reachable(w, s) && At(s, w, ScanActive) && s.threads[w].at == 0 && n <= |s.slots|
    requires forall j :: 0 <= j < |s.slots| ==> !s.slots[j].active
    ensures Reachable(w, s.(threads := s.threads[w := s.threads[w].(at := n)]))
  {
    if n == 0 {
      assert s.(threads := s.threads[w := s.threads[w].(at := 0)]) == s;
    } else {
      ScanIdle(w, s, n - 1);
      var s1, s2 := s.(threads := s.threads[w := s.threads[w].(at := n - 1)]), s.(threads := s.threads[w := s.threads[w].(at := n)]);
      assert Step(s1, w) == s2;
      ReachStep(w, s1, w);
    }
  }

  /** The collector has read all slots, finding no guard, and is about to take the list. */
  function Scanned(w: nat): State {
    Start(w).(threads := IdleThreads(w + 3)[w := IDLE.(pc := Take, at := MAX_THREADS)])
  }

  lemma ReachStart(w: nat)
    ensures Reachable(w, Start(w))
  {
    assert LeadsTo(w, [Start(w)], Start(w));
  }

  /** A pass that thread `w` begins outside a guard when no slot is active. */
  lemma ReachTake(w: nat, s: State)
    requires Reachable(w, s) && At(s, w, Outside) && forall j :: 0 <= j < |s.slots| ==> !s.slots[j].active
    ensures Reachable(w, s.(count := 0, threads := s.threads[w := s.threads[w].(pc := Take, slot := NONE, at := |s.slots|, least := NONE)]))
  {
    hide Reachable;
    var s1 := Collect(s, w);
    ReachCall(w, s, w, s1);
    ReachStep(w, s1, w);
    var s2 := Step(s1, w);
    ScanIdle(w, s2, |s.slots|);
    var s3 := s2.(threads := s2.threads[w := s2.threads[w].(at := |s.slots|)]);
    ReachStep(w, s3, w);
    assert Step(s3, w).threads == s.threads[w := s.threads[w].(pc := Take, slot := NONE, at := |s.slots|, least := NONE)];
  }

  lemma ReachScanned(w: nat)
    ensures Reachable(w, Scanned(w))
  {
    ReachStart(w);
    hide Reachable;
    ReachTake(w, Start(w));
    assert Start(w).threads[w] == IDLE;
  }

  /** Thread `t` enters a guard in slot `j`, the first free one. */
  lemma ReachInside(w: nat, s: State, t: nat, j: nat) returns (s': State)
    requires Reachable(w, s) && At(s, t, Outside) && j < |s.slots| && s.slots[j].owner == NONE
    requires j == 0 || (j == 1 && s.slots[0].owner != NONE)
    ensures Reachable(w, s')
    ensures var th := s.threads[t].(pc := Inside, slot := j, at := j, epoch := s.global + 1);
      s' == s.(threads := s.threads[t := th], slots := s.slots[j := Slot(t, s.global + 1, true, s.clock, s.global + 1)],
               global := s.global + 1)
  {
    hide Reachable;
    ReachCall(w, s, t, Enter(s, t));
    var s1 := Claimed(w, Enter(s, t), t, j);
    ReachStep(w, s1, t);
    var s2 := Step(s1, t);
    ReachStep(w, s2, t);
    var s3 := Step(s2, t);
    ReachStep(w, s3, t);
    s' := Step(s3, t);
  }

  lemma Claimed(w: nat, s: State, t: nat, j: nat) returns (s': State)
    requires Reachable(w, s) && At(s, t, Claim) && s.threads[t].at == 0 && j < |s.slots| && s.slots[j].owner == NONE
    requires j == 0 || (j == 1 && s.slots[0].owner != NONE)
    ensures Reachable(w, s')
    ensures s' == s.(threads := s.threads[t := s.threads[t].(pc := Bump, slot := j, at := j)],
                     slots := s.slots[j := s.slots[j].(owner := t)])
  {
    hide Reachable;
    ReachStep(w, s, t);
    s' := Step(s, t);
    if j == 1 {
      ReachStep(w, s', t);
      s' := Step(s', t);
    }
  }

  /** Behind the scan, the reader and the remover have entered their guards. */
  lemma ReachGuarded(w: nat) returns (s: State)
    ensures Reachable(w, s) && At(s, w + 2, Inside) && At(s, w, Take)
    ensures s.threads[w].least == NONE && s.threads[w].slot == NONE && s.threads[w + 2].slot == 1
    ensures s.shared == [] && s.gone == map[] && s.given == multiset{} && |s.threads| == w + 3 && s.count == 0
    ensures |s.slots| == MAX_THREADS && s.slots[0] == Slot(w + 1, 1, true, 0, 1) && s.clock == 0 && s.global == 2
  {
    hide Reachable;
    ReachScanned(w);
    var a := ReachInside(w, Scanned(w), w + 1, 0);
    s := ReachInside(w, a, w + 2, 1);
  }

  /** Node `x` leaves the structure and is retired while the reader's guard is active. */
  lemma ReachRetired(w: nat, x: int) returns (s: State)
    ensures Reachable(w, s) && At(s, w, Take) && s.threads[w].least == NONE && s.threads[w].slot == NONE
    ensures |s.shared| == 1 && s.shared[0].node == x && s.gone == map[x := 0]
    ensures |s.slots| == MAX_THREADS && s.slots[0] == Slot(w + 1, 1, true, 0, 1)
  {
    hide Reachable;
    var u := w + 2;
    var b := ReachGuarded(w);
    var c := Tick(b, {x});
    assert Retires(b, u, x, {x});
    ReachCall(w, b, u, Retire(c, u, x));
    s := Pushed(w, Retire(c, u, x), u);
  }

  lemma Pushed(w: nat, d: State, u: nat) returns (s: State)
    requires Reachable(w, d) && At(d, u, LoadEpoch) && !d.threads[u].sweeping && d.threads[u].slot != NONE && d.shared == []
    ensures Reachable(w, s) && |s.shared| == 1 && s.shared[0].node == d.threads[u].item.node
    ensures s.gone == d.gone && s.slots == d.slots && |s.threads| == |d.threads| && forall t :: 0 <= t < |s.threads| && t != u ==> s.threads[t] == d.threads[t]
  {
    hide Reachable;
    ReachStep(w, d, u);
    var e := Step(d, u);
    ReachStep(w, e, u);
    var f := Step(e, u);
    ReachStep(w, f, u);
    s := Step(f, u);
  }

  /** A state, reachable as soon as one thread may collect outside a guard, in which a node is freed that an
      active guard may still use. */
  lemma UnguardedCollectFrees(w: nat, x: int) returns (s: State)
    ensures Reachable(w, s) && MayHold(s, 0, x) && s.slots[0].owner == w + 1 && x in s.freed
  {
    hide Reachable;
    var g := ReachRetired(w, x);
    ReachStep(w, g, w);
    var h := Step(g, w);
    ReachStep(w, h, w);
    s := Step(h, w);
  }

  // ---------------------------------------------------------------- exactly which policies are safe

  /** Epoch reclamation is safe in every run of a policy exactly if the policy lets no thread collect outside
      a guard. */
  lemma GuardIsNeeded(who: iset<nat>)
    ensures Safe(who) <==> who == iset{}
  {
    if w: nat :| w in who {
      var s := UnguardedCollectFrees(w, 0);
      var run :| LeadsTo(w, run, s);
      hide Run, MayHold;
      assert forall i :: 0 <= i < |run| && Permits(iset{w}, run[i]) ==> Permits(who, run[i]);
      assert MayHold(run[|run| - 1], 0, 0);
      assert !SafeRun(run);
    } else {
      forall run | Run(run) && RunPermits(who, run) ensures SafeRun(run) {
        GuardedIsSafe(who, run);
      }
    }
  }

  lemma GuardedIsSafe(who: iset<nat>, run: seq<State>)
    requires who == iset{} && Run(run) && RunPermits(who, run)
    ensures SafeRun(run)
  {
    hide Run, MayHold;
    forall i | 0 <= i < |run| ensures CollectsGuarded(run[i]) {
      assert Permits(who, run[i]);
    }
    forall i, j, x | 0 <= i < |run| && MayHold(run[i], j, x) ensures x !in run[i].freed {
      HoldsSlot(run[i], j, x);
      HeldIsNotFreed(run, i, j, x);
    }
  }

  lemma HoldsSlot(s: State, j: int, x: int)
    requires MayHold(s, j, x)
    ensures 0 <= j < |s.slots|
  {
  }
}

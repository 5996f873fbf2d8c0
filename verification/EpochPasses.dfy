/** What a reclamation pass frees (include/epoch_reclaim.hpp:65-96), and when a retirement begins one. */
module EpochPasses {
  import opened EpochDomain
  import opened EpochProof
  import opened EpochTheorems

  // ---------------------------------------------------------------- whose step it is

  /** The step is that of thread `u`, or (NONE) a tick of the client. */
  ghost predicate By(s: State, s': State, u: int) {
    if u < 0 then exists out :: MayTick(s, out) && s' == Tick(s, out)
    else
      || (At(s, u, Outside) && s' == Enter(s, u))
      || (At(s, u, Inside) && OwnsSlot(s, u) && s' == Leave(s, u))
      || (exists x, out :: Retires(s, u, x, out) && s' == Retire(Tick(s, out), u, x))
      || ((At(s, u, Inside) || At(s, u, Outside)) && s' == Collect(s, u))
      || (May(s, u) && s' == Step(s, u))
  }

  ghost predicate ByAt(run: seq<State>, who: seq<int>, i: int) {
    0 <= i < |who| && i + 1 < |run| && By(run[i], run[i + 1], who[i])
  }

  /** `who` names the threads that take the steps of `run`. */
  ghost predicate Scheduled(run: seq<State>, who: seq<int>) {
    && |run| == |who| + 1 && Init(run[0])
    && forall i :: 0 <= i < |who| ==> ByAt(run, who, i)
  }

  lemma ByIsNext(s: State, s': State, u: int)
    requires By(s, s', u)
    ensures Next(s, s')
  {
    hide Step, Enter, Leave, Retire, Tick, Collect, May;
  }

  lemma ScheduledRuns(run: seq<State>, who: seq<int>)
    requires Scheduled(run, who)
    ensures Run(run)
  {
    hide Init, By, Next;
    forall i | 0 <= i < |run| - 1 ensures StepAt(run, i) {
      assert ByAt(run, who, i);
      ByIsNext(run[i], run[i + 1], who[i]);
    }
  }

  /** What thread `t` sees of a step that is not its own. */
  ghost predicate Theirs(s: State, s': State, t: nat) {
    && t < |s.threads| == |s'.threads| && s'.threads[t] == s.threads[t] && |s'.slots| == |s.slots|
    && forall x {:trigger s'.freed[x]} :: s.freed[x] <= s'.freed[x]
  }

  lemma OthersStep(s: State, s': State, u: int, t: nat)
    requires By(s, s', u) && u != t && t < |s.threads|
    ensures Theirs(s, s', t)
  {
    if u >= 0 && May(s, u) && s' == Step(s, u) {
      OwnSizes(s, u);
      hide Step, May;
    } else {
      hide Step, May;
    }
  }

  lemma OwnStep(s: State, s': State, t: nat)
    requires By(s, s', t) && t < |s.threads| && s.threads[t].pc !in {Outside, Inside}
    ensures May(s, t) && s' == Step(s, t)
  {
  }

  lemma {:induction false} SameSizes(run: seq<State>, who: seq<int>, i: nat)
    requires Scheduled(run, who) && i < |run|
    ensures |run[i].slots| == MAX_THREADS && |run[i].threads| == |run[0].threads|
  {
    if i > 0 {
      SameSizes(run, who, i - 1);
      assert ByAt(run, who, i - 1);
      StepSizes(run[i - 1], run[i], who[i - 1]);
    }
  }

  lemma StepSizes(s: State, s': State, u: int)
    requires By(s, s', u)
    ensures |s'.slots| == |s.slots| && |s'.threads| == |s.threads|
  {
    if u >= 0 && May(s, u) && s' == Step(s, u) {
      OwnSizes(s, u);
    } else {
      hide Step, May;
    }
  }

  lemma OwnSizes(s: State, u: nat)
    requires May(s, u)
    ensures |Step(s, u).slots| == |s.slots| && |Step(s, u).threads| == |s.threads|
    ensures forall v {:trigger Step(s, u).threads[v]} :: 0 <= v < |s.threads| && v != u ==> Step(s, u).threads[v] == s.threads[v]
    ensures forall x {:trigger Step(s, u).freed[x]} :: s.freed[x] <= Step(s, u).freed[x]
  {
  }

  // ---------------------------------------------------------------- a pass

  predicate Scans(th: Thread) { th.pc in {ScanActive, ScanEpoch, Take} }

  predicate Sweeps(th: Thread) { th.pc == Sweep || (th.pc in {LoadHead, SwapHead} && th.sweeping) }

  /** Thread `t` clears the count in step `h`, takes the list in step `i` and is done at state `n`. */
  ghost predicate Pass(run: seq<State>, who: seq<int>, t: nat, h: nat, i: nat, n: nat) {
    && Scheduled(run, who) && h < i < n < |run| && t < |run[0].threads| && who[h] == t && who[i] == t
    && (forall m {:trigger run[m]} :: 0 <= m < |run| ==> |run[m].threads| == |run[0].threads| && |run[m].slots| == MAX_THREADS)
    && run[h].threads[t].pc == Reset
    && (forall m {:trigger run[m]} :: h < m <= i ==> Scans(run[m].threads[t])) && run[i].threads[t].pc == Take
    && (forall m {:trigger run[m]} :: i < m < n ==> Sweeps(run[m].threads[t])) && run[n].threads[t].pc in {Inside, Outside}
  }

  /** In step `m` the pass looks whether slot `j` is active. */
  ghost predicate LooksAt(run: seq<State>, who: seq<int>, t: nat, m: int, j: nat) {
    0 <= m < |who| && m < |run| && who[m] == t && t < |run[m].threads| && run[m].threads[t].pc == ScanActive && run[m].threads[t].at == j
  }

  /** In step `m` the pass reads the epoch announced in slot `j`, which is `e`. */
  ghost predicate ReadsEpoch(run: seq<State>, who: seq<int>, t: nat, m: int, j: nat, e: nat) {
    && 0 <= m < |who| && m < |run| && who[m] == t && t < |run[m].threads| && run[m].threads[t].pc == ScanEpoch && run[m].threads[t].at == j
    && j < |run[m].slots| && run[m].slots[j].announced == e
  }

  /** Between steps `h` and `i` slot `j` was looked at and, if it was active then, its epoch read afterwards. */
  ghost predicate SlotRead(run: seq<State>, who: seq<int>, t: nat, h: nat, i: nat, j: nat) {
    exists m :: h < m < i && LooksAt(run, who, t, m, j) && j < |run[m].slots| &&
      (run[m].slots[j].active ==> exists r, e :: m < r < i && ReadsEpoch(run, who, t, r, j, e))
  }

  ghost predicate LeastRead(run: seq<State>, who: seq<int>, t: nat, h: nat, i: nat, least: int) {
    least == NONE || exists r, j, e :: h < r < i && ReadsEpoch(run, who, t, r, j, e) && least == e
  }

  ghost predicate ScanOk(run: seq<State>, who: seq<int>, t: nat, h: nat, i: nat)
    requires i < |run| && t < |run[i].threads|
  {
    var th := run[i].threads[t];
    && th.at <= MAX_THREADS && (th.pc == ScanEpoch ==> th.at < MAX_THREADS) && (th.pc == Take ==> th.at == MAX_THREADS)
    && LeastRead(run, who, t, h, i, th.least)
    && (forall j: nat {:trigger SlotRead(run, who, t, h, i, j)} :: j < th.at ==> SlotRead(run, who, t, h, i, j))
    && (th.pc == ScanEpoch ==> exists m :: h < m < i && LooksAt(run, who, t, m, th.at) && th.at < |run[m].slots|)
  }

  lemma LaterRead(run: seq<State>, who: seq<int>, t: nat, h: nat, i: nat, j: nat)
    requires SlotRead(run, who, t, h, i, j)
    ensures SlotRead(run, who, t, h, i + 1, j)
  {
    var m :| h < m < i && LooksAt(run, who, t, m, j) && j < |run[m].slots| &&
             (run[m].slots[j].active ==> exists r, e :: m < r < i && ReadsEpoch(run, who, t, r, j, e));
    if run[m].slots[j].active {
      var r, e :| m < r < i && ReadsEpoch(run, who, t, r, j, e);
      assert m < r < i + 1 && ReadsEpoch(run, who, t, r, j, e);
    }
    assert h < m < i + 1 && LooksAt(run, who, t, m, j);
  }

  lemma LaterLeast(run: seq<State>, who: seq<int>, t: nat, h: nat, i: nat, least: int)
    requires LeastRead(run, who, t, h, i, least)
    ensures LeastRead(run, who, t, h, i + 1, least)
  {
    if least != NONE {
      var r, j, e :| h < r < i && ReadsEpoch(run, who, t, r, j, e) && least == e;
      assert h < r < i + 1 && ReadsEpoch(run, who, t, r, j, e);
    }
  }

  /** The step of the pass itself. */
  lemma ScanStep(run: seq<State>, who: seq<int>, t: nat, h: nat, i: nat)
    requires h < i < |who| && i + 1 < |run| && who[i] == t && t < |run[i].threads| && |run[i].slots| == MAX_THREADS
    requires run[i].threads[t].pc in {ScanActive, ScanEpoch} && May(run[i], t) && run[i + 1] == Step(run[i], t)
    requires ScanOk(run, who, t, h, i)
    ensures t < |run[i + 1].threads| && ScanOk(run, who, t, h, i + 1)
  {
    var s, th, next := run[i], run[i].threads[t], i + 1;
    LaterLeast(run, who, t, h, i, th.least);
    forall j: nat | j < th.at ensures SlotRead(run, who, t, h, next, j) {
      LaterRead(run, who, t, h, i, j);
    }
    if th.pc == ScanEpoch {
      var e := s.slots[th.at].announced;
      assert h < i < next && ReadsEpoch(run, who, t, i, th.at, e);
      var m :| h < m < i && LooksAt(run, who, t, m, th.at) && th.at < |run[m].slots|;
      assert SlotRead(run, who, t, h, next, th.at);
    } else if th.at < MAX_THREADS {
      assert h < i < next && LooksAt(run, who, t, i, th.at);
    }
    if th.pc == ScanEpoch { LeastIsRead(run, who, t, h, i); }
    hide SlotRead, LeastRead;
  }

  lemma LeastIsRead(run: seq<State>, who: seq<int>, t: nat, h: nat, i: nat)
    requires h < i < |who| && i < |run| && t < |run[i].threads| && who[i] == t
    requires run[i].threads[t].pc == ScanEpoch && run[i].threads[t].at < |run[i].slots|
    ensures LeastRead(run, who, t, h, i + 1, run[i].slots[run[i].threads[t].at].announced)
  {
    assert h < i < i + 1 && ReadsEpoch(run, who, t, i, run[i].threads[t].at, run[i].slots[run[i].threads[t].at].announced);
  }

  lemma ScanWaits(run: seq<State>, who: seq<int>, t: nat, h: nat, i: nat)
    requires i + 1 < |run| && t < |run[i].threads| && Theirs(run[i], run[i + 1], t) && ScanOk(run, who, t, h, i)
    ensures t < |run[i + 1].threads| && ScanOk(run, who, t, h, i + 1)
  {
    var th, next := run[i].threads[t], i + 1;
    LaterLeast(run, who, t, h, i, th.least);
    forall j: nat | j < th.at ensures SlotRead(run, who, t, h, next, j) {
      LaterRead(run, who, t, h, i, j);
    }
    hide SlotRead, LeastRead;
    if th.pc == ScanEpoch {
      var m :| h < m < i && LooksAt(run, who, t, m, th.at) && th.at < |run[m].slots|;
      assert h < m < next && LooksAt(run, who, t, m, th.at);
    }
  }

  lemma ScanBegins(run: seq<State>, who: seq<int>, t: nat, h: nat)
    requires h + 1 < |run| && t < |run[h].threads| && run[h].threads[t].pc == Reset && May(run[h], t) && run[h + 1] == Step(run[h], t)
    ensures t < |run[h + 1].threads| && ScanOk(run, who, t, h, h + 1)
  {
  }

  lemma {:induction false} ScanKeeps(run: seq<State>, who: seq<int>, t: nat, h: nat, i: nat, n: nat, m: nat)
    requires Pass(run, who, t, h, i, n) && h < m <= i
    ensures t < |run[m].threads| && ScanOk(run, who, t, h, m)
  {
    var p := m - 1;
    assert ByAt(run, who, p) && |run[p].threads| == |run[0].threads| && |run[p].slots| == MAX_THREADS;
    if p == h {
      hide ScanOk, Step, May, By, Scheduled;
      OwnStep(run[p], run[m], t);
      ScanBegins(run, who, t, h);
    } else {
      ScanKeeps(run, who, t, h, i, n, p);
      assert Scans(run[p].threads[t]) && Scans(run[m].threads[t]);
      hide ScanOk, May, By, Scheduled;
      if who[p] == t {
        OwnStep(run[p], run[m], t);
        TakeLeaves(run[p], t);
        hide Step;
        ScanStep(run, who, t, h, p);
      } else {
        OthersStep(run[p], run[m], who[p], t);
        ScanWaits(run, who, t, h, p);
      }
    }
  }

  lemma TakeLeaves(s: State, t: nat)
    requires May(s, t)
    ensures t < |Step(s, t).threads| && (s.threads[t].pc == Take ==> Step(s, t).threads[t].pc == Sweep)
  {
  }

  // ---------------------------------------------------------------- what it frees

  /** Item `it` of the list taken is freed, still to be looked at, or not expired. */
  ghost predicate ItemSwept(s: State, t: nat, it: Item, least: int)
    requires t < |s.threads|
  {
    it.node in s.freed || it in s.threads[t].list || !Expired(it.epoch, least)
  }

  predicate SweepEnded(th: Thread) { th.pc in {Inside, Outside} ==> th.list == [] }

  lemma SweepStep(s: State, t: nat, it: Item, least: int)
    requires May(s, t) && Sweeps(s.threads[t]) && s.threads[t].least == least && ItemSwept(s, t, it, least)
    ensures var s' := Step(s, t);
      && t < |s'.threads| && s'.threads[t].least == least && ItemSwept(s', t, it, least) && SweepEnded(s'.threads[t])
  {
    var th := s.threads[t];
    if th.pc == Sweep && th.list != [] {
      assert th.list == [th.list[0]] + th.list[1..];
    }
  }

  lemma {:induction false} SweepKeeps(run: seq<State>, who: seq<int>, t: nat, h: nat, i: nat, n: nat, m: nat, it: Item)
    requires Pass(run, who, t, h, i, n) && i < m <= n && it in run[i].shared
    ensures t < |run[m].threads| && run[m].threads[t].least == run[i].threads[t].least && SweepEnded(run[m].threads[t])
    ensures ItemSwept(run[m], t, it, run[i].threads[t].least)
  {
    var p := m - 1;
    assert ByAt(run, who, p) && |run[p].threads| == |run[0].threads|;
    if p == i {
      OwnStep(run[p], run[m], t);
    } else {
      SweepKeeps(run, who, t, h, i, n, p, it);
      assert Sweeps(run[p].threads[t]);
      hide May, By, Scheduled, Step;
      if who[p] == t {
        OwnStep(run[p], run[m], t);
        SweepStep(run[p], t, it, run[i].threads[t].least);
      } else {
        OthersStep(run[p], run[m], who[p], t);
        assert run[p].freed[it.node] <= run[m].freed[it.node];
      }
    }
  }

  /** A pass looks at every slot, and reads the epoch of each one that it finds active. */
  lemma ScanLooksEverywhere(run: seq<State>, who: seq<int>, t: nat, h: nat, i: nat, n: nat, j: nat)
    requires Pass(run, who, t, h, i, n) && j < MAX_THREADS
    ensures SlotRead(run, who, t, h, i, j)
  {
    ScanKeeps(run, who, t, h, i, n, i);
  }

  /** A pass frees every item of the list it takes whose epoch is below all the epochs that it read: all items,
      if it found no slot active. */
  lemma PassFrees(run: seq<State>, who: seq<int>, t: nat, h: nat, i: nat, n: nat, it: Item)
    requires Pass(run, who, t, h, i, n) && it in run[i].shared
    requires forall r, j: nat, e: nat :: h < r < i && ReadsEpoch(run, who, t, r, j, e) ==> it.epoch < e
    ensures it.node in run[n].freed
  {
    ScanKeeps(run, who, t, h, i, n, i);
    SweepKeeps(run, who, t, h, i, n, n, it);
    assert Expired(it.epoch, run[i].threads[t].least);
  }

  // ---------------------------------------------------------------- guards drawn after a quiet moment

  /** Nobody holds a guard or has drawn an epoch for one. */
  predicate Unguarded(s: State) {
    forall u {:trigger s.threads[u]} :: 0 <= u < |s.threads| ==> s.threads[u].pc in {Outside, Claim, Bump}
  }

  /** Every guard announces an epoch above `g`. */
  ghost predicate Above(s: State, g: nat) {
    && (forall j {:trigger s.slots[j]} :: 0 <= j < |s.slots| && s.slots[j].active ==> g < s.slots[j].announced)
    && (forall u {:trigger s.threads[u]} :: 0 <= u < |s.threads| ==> AboveThread(s, u, g))
    && g <= s.global
  }

  ghost predicate AboveThread(s: State, u: nat, g: nat)
    requires u < |s.threads|
  {
    var th := s.threads[u];
    && (th.pc == Announce ==> g < th.epoch)
    && (th.pc == Activate ==> 0 <= th.slot < |s.slots| && g < s.slots[th.slot].announced)
  }

  /** Once above `g` a slot's announced epoch stays so. */
  lemma StepAbove(s: State, s': State, u: int, g: nat)
    requires By(s, s', u) && Above(s, g)
    ensures |s'.slots| == |s.slots| && |s'.threads| == |s.threads| && Above(s', g)
    ensures forall j {:trigger s'.slots[j]} :: 0 <= j < |s.slots| && g < s.slots[j].announced ==> g < s'.slots[j].announced
  {
    StepSizes(s, s', u);
    if u >= 0 && May(s, u) && s' == Step(s, u) {
      OwnAbove(s, u, g);
    } else {
      CallAbove(s, s', u, g);
    }
  }

  lemma OwnAbove(s: State, u: nat, g: nat)
    requires May(s, u) && Above(s, g)
    ensures var s' := Step(s, u);
      && |s'.slots| == |s.slots| && |s'.threads| == |s.threads| && Above(s', g)
      && forall j {:trigger s'.slots[j]} :: 0 <= j < |s.slots| && g < s.slots[j].announced ==> g < s'.slots[j].announced
  {
    var s' := Step(s, u);
    assert AboveThread(s, u, g);
    OwnStamps(s, u, g);
    forall v | 0 <= v < |s'.threads| ensures AboveThread(s', v, g) {
      assert AboveThread(s, v, g);
    }
  }

  lemma OwnStamps(s: State, u: nat, g: nat)
    requires May(s, u) && Above(s, g)
    ensures var s' := Step(s, u);
      && |s'.slots| == |s.slots| && |s'.threads| == |s.threads| && s.global <= s'.global
      && (forall v {:trigger s'.threads[v]} :: 0 <= v < |s.threads| && v != u ==> s'.threads[v] == s.threads[v])
      && AboveThread(s', u, g)
      && (forall j {:trigger s'.slots[j]} :: 0 <= j < |s.slots| && g < s.slots[j].announced ==> g < s'.slots[j].announced)
      && (forall j {:trigger s'.slots[j]} :: 0 <= j < |s.slots| && s'.slots[j].active ==> g < s'.slots[j].announced)
  {
    assert AboveThread(s, u, g);
  }

  lemma CallAbove(s: State, s': State, u: int, g: nat)
    requires By(s, s', u) && Above(s, g) && !(u >= 0 && May(s, u) && s' == Step(s, u))
    ensures |s'.slots| == |s.slots| && |s'.threads| == |s.threads| && Above(s', g)
    ensures forall j {:trigger s'.slots[j]} :: 0 <= j < |s.slots| && g < s.slots[j].announced ==> g < s'.slots[j].announced
  {
    hide Step, May;
    forall v | 0 <= v < |s'.threads| ensures AboveThread(s', v, g) {
      assert AboveThread(s, v, g);
    }
  }

  lemma QuietAbove(s: State)
    requires Inv(s) && Unguarded(s)
    ensures Above(s, s.global)
  {
    forall j | 0 <= j < |s.slots| ensures !s.slots[j].active {
      assert SlotOk(s.threads, s.slots[j], j, s.global, s.clock);
    }
  }

  /** The epoch that thread `t` is about to read in its scan is above `g`. */
  ghost predicate ReadAbove(s: State, t: nat, g: nat) {
    t < |s.threads| && (s.threads[t].pc == ScanEpoch ==> s.threads[t].at < |s.slots| && g < s.slots[s.threads[t].at].announced)
  }

  lemma StepReadAbove(s: State, s': State, u: int, t: nat, g: nat)
    requires By(s, s', u) && Above(s, g) && ReadAbove(s, t, g)
    ensures ReadAbove(s', t, g)
  {
    StepAbove(s, s', u, g);
    StepSizes(s, s', u);
    if u != t {
      OthersStep(s, s', u, t);
    } else if s'.threads[t].pc == ScanEpoch {
      LookedActive(s, s', t);
    }
  }

  lemma LookedActive(s: State, s': State, t: nat)
    requires By(s, s', t) && t < |s.threads| == |s'.threads| && s'.threads[t].pc == ScanEpoch
    ensures s'.slots == s.slots && s'.threads[t].at < |s.slots| && s.slots[s'.threads[t].at].active
  {
    if May(s, t) && s' == Step(s, t) {
      StepLooksActive(s, t);
    } else {
      hide Step, May;
    }
  }

  lemma StepLooksActive(s: State, t: nat)
    requires May(s, t)
    ensures var s' := Step(s, t); t < |s'.threads| && (s'.threads[t].pc == ScanEpoch ==>
      s'.slots == s.slots && s'.threads[t].at < |s.slots| && s.slots[s'.threads[t].at].active)
  {
  }

  lemma {:induction false} ReadsAbove(run: seq<State>, who: seq<int>, t: nat, b: nat, m: nat)
    requires Scheduled(run, who) && Guarded(run) && b <= m < |run| && Unguarded(run[b]) && t < |run[b].threads|
    ensures Above(run[m], run[b].global) && ReadAbove(run[m], t, run[b].global)
  {
    if m == b {
      ScheduledRuns(run, who);
      RunKeeps(run, b);
      QuietAbove(run[b]);
    } else {
      hide By, Above, ReadAbove, Init;
      ReadsAbove(run, who, t, b, m - 1);
      assert ByAt(run, who, m - 1);
      StepAbove(run[m - 1], run[m], who[m - 1], run[b].global);
      StepReadAbove(run[m - 1], run[m], who[m - 1], t, run[b].global);
    }
  }

  // ---------------------------------------------------------------- items carry old epochs

  predicate Stamped(list: seq<Item>, g: nat) {
    forall k {:trigger list[k]} :: 0 <= k < |list| ==> list[k].epoch <= g
  }

  ghost predicate StampsOk(s: State) {
    && Stamped(s.shared, s.global)
    && forall u {:trigger s.threads[u]} :: 0 <= u < |s.threads| ==> HandStamped(s.threads[u], s.global)
  }

  predicate HandStamped(th: Thread, g: nat) {
    Stamped(th.list, g) && (th.pc in {LoadHead, SwapHead} ==> th.item.epoch <= g)
  }

  lemma StepStamps(s: State, s': State, u: int)
    requires By(s, s', u) && StampsOk(s)
    ensures StampsOk(s') && s.global <= s'.global
  {
    StepSizes(s, s', u);
    if u >= 0 && May(s, u) && s' == Step(s, u) {
      assert HandStamped(s.threads[u], s.global);
      OwnStepStamps(s, u);
      hide Step, May;
      forall v | 0 <= v < |s'.threads| ensures HandStamped(s'.threads[v], s'.global) {
        assert HandStamped(s.threads[v], s.global);
      }
    } else {
      hide Step, May, Stamped;
      forall v | 0 <= v < |s'.threads| ensures HandStamped(s'.threads[v], s'.global) {
        assert HandStamped(s.threads[v], s.global);
      }
    }
  }

  lemma OwnStepStamps(s: State, u: nat)
    requires May(s, u) && Stamped(s.shared, s.global) && HandStamped(s.threads[u], s.global)
    ensures var s' := Step(s, u);
      && |s'.threads| == |s.threads| && (forall v {:trigger s'.threads[v]} :: 0 <= v < |s.threads| && v != u ==> s'.threads[v] == s.threads[v])
      && s.global <= s'.global && Stamped(s'.shared, s'.global) && HandStamped(s'.threads[u], s'.global)
  {
    var th := s.threads[u];
    StampedParts(th.list, s.global);
    StampedMore(th.list, th.item, s.global);
    StampedMore(s.shared, th.item, s.global);
    assert Stamped([], s.global);
    StampedLater(s.shared, s.global);
    StampedLater(th.list, s.global);
    hide Stamped;
  }

  lemma StampedParts(list: seq<Item>, g: nat)
    requires Stamped(list, g)
    ensures list != [] ==> list[0].epoch <= g && Stamped(list[1..], g)
  {
  }

  lemma StampedMore(list: seq<Item>, it: Item, g: nat)
    ensures Stamped(list, g) && it.epoch <= g ==> Stamped([it] + list, g)
  {
  }

  lemma StampedLater(list: seq<Item>, g: nat)
    ensures Stamped(list, g) ==> Stamped(list, g + 1)
  {
  }

  lemma {:induction false} RunStamps(run: seq<State>, who: seq<int>, m: nat)
    requires Scheduled(run, who) && m < |run|
    ensures StampsOk(run[m])
  {
    if m > 0 {
      hide By, StampsOk, Init;
      RunStamps(run, who, m - 1);
      assert ByAt(run, who, m - 1);
      StepStamps(run[m - 1], run[m], who[m - 1]);
    }
  }

  /** What is in the shared list at a moment when no guard is active is freed by any pass that begins later and
      finds it there, whatever guards have been entered since. */
  lemma QuietMomentFrees(run: seq<State>, who: seq<int>, b: nat, t: nat, h: nat, i: nat, n: nat, it: Item)
    requires Pass(run, who, t, h, i, n) && Guarded(run) && b <= h && Unguarded(run[b])
    requires it in run[b].shared && it in run[i].shared
    ensures it.node in run[n].freed
  {
    var g := run[b].global;
    RunStamps(run, who, b);
    assert it.epoch <= g;
    SameSizes(run, who, b);
    forall r, j: nat, e: nat | h < r < i && ReadsEpoch(run, who, t, r, j, e) ensures it.epoch < e {
      ReadsAbove(run, who, t, b, r);
    }
    hide Pass, Guarded, Unguarded, ReadsEpoch, StampsOk;
    PassFrees(run, who, t, h, i, n, it);
  }

  // ---------------------------------------------------------------- when a pass begins

  /** How many retirements were counted in the first `i` steps since a pass last began. */
  function Counted(run: seq<State>, who: seq<int>, i: nat): nat
    requires i < |run| && i <= |who|
  {
    if i == 0 then 0
    else if 0 <= who[i - 1] < |run[i - 1].threads| && run[i - 1].threads[who[i - 1]].pc == Reset then 0
    else Counted(run, who, i - 1)
         + if 0 <= who[i - 1] < |run[i - 1].threads| && run[i - 1].threads[who[i - 1]].pc == PC.Count then 1 else 0
  }

  lemma StepCounts(s: State, s': State, u: int)
    requires By(s, s', u)
    ensures u < 0 || u < |s.threads|
    ensures s'.count == if 0 <= u && s.threads[u].pc == Reset then 0 else s.count + if 0 <= u && s.threads[u].pc == PC.Count then 1 else 0
  {
  }

  lemma {:induction false} CountIs(run: seq<State>, who: seq<int>, i: nat)
    requires Scheduled(run, who) && i < |run|
    ensures run[i].count == Counted(run, who, i)
  {
    if i > 0 {
      CountIs(run, who, i - 1);
      assert ByAt(run, who, i - 1);
      StepCounts(run[i - 1], run[i], who[i - 1]);
    }
  }

  /** A retirement begins a pass exactly if it is the THRESHOLD-th counted since the last one began. */
  lemma ThresholdBeginsPass(run: seq<State>, who: seq<int>, i: nat, t: nat)
    requires Scheduled(run, who) && i < |who| && who[i] == t && t < |run[i].threads| && run[i].threads[t].pc == PC.Count
    ensures t < |run[i + 1].threads|
    ensures run[i + 1].threads[t].pc == if Counted(run, who, i) + 1 >= THRESHOLD then Reset else Inside
  {
    CountIs(run, who, i);
    assert ByAt(run, who, i);
    hide Counted;
  }

  // ---------------------------------------------------------------- what a retirement does

  /** In state `m` the item of node `x`, with an epoch read at or after state `a`, has just been put in front of the
      shared list. */
  ghost predicate Shares(run: seq<State>, x: int, a: nat, m: int) {
    && a < m < |run| && run[m].shared != [] && run[m].shared[0].node == x
    && run[a].global <= run[m].shared[0].epoch <= run[m].global
  }

  ghost predicate RetiringOk(run: seq<State>, t: nat, x: int, a: nat, m: nat)
    requires a < |run| && m < |run| && t < |run[m].threads|
  {
    var th := run[m].threads[t];
    match th.pc
    case LoadEpoch => !th.sweeping && th.item.node == x
    case LoadHead => !th.sweeping && th.item.node == x && run[a].global <= th.item.epoch <= run[m].global
    case SwapHead => !th.sweeping && th.item.node == x && run[a].global <= th.item.epoch <= run[m].global
    case Count => exists k :: k <= m && Shares(run, x, a, k)
    case _ => false
  }

  lemma GlobalGrows(s: State, s': State, u: int)
    requires By(s, s', u)
    ensures s.global <= s'.global
  {
  }

  lemma {:induction false} GlobalRises(run: seq<State>, who: seq<int>, a: nat, m: nat)
    requires Scheduled(run, who) && a <= m < |run|
    ensures run[a].global <= run[m].global
  {
    if a < m {
      hide By, Init;
      GlobalRises(run, who, a, m - 1);
      assert ByAt(run, who, m - 1);
      GlobalGrows(run[m - 1], run[m], who[m - 1]);
    }
  }

  lemma RetireStep(run: seq<State>, t: nat, x: int, a: nat, m: nat)
    requires a < m && m + 1 < |run| && t < |run[m].threads| && RetiringOk(run, t, x, a, m) && run[m].threads[t].pc != PC.Count
    requires May(run[m], t) && run[m + 1] == Step(run[m], t) && run[a].global <= run[m].global
    ensures t < |run[m + 1].threads| && RetiringOk(run, t, x, a, m + 1)
  {
    var th, s' := run[m].threads[t], run[m + 1];
    if th.pc == SwapHead && s'.threads[t].pc == PC.Count {
      assert Shares(run, x, a, m + 1);
    }
  }

  lemma RetireWaits(run: seq<State>, t: nat, x: int, a: nat, m: nat)
    requires a < m && m + 1 < |run| && t < |run[m].threads| && RetiringOk(run, t, x, a, m)
    requires Theirs(run[m], run[m + 1], t) && run[m].global <= run[m + 1].global
    ensures t < |run[m + 1].threads| && RetiringOk(run, t, x, a, m + 1)
  {
    if run[m].threads[t].pc == PC.Count {
      var k :| k <= m && Shares(run, x, a, k);
      assert k <= m + 1 && Shares(run, x, a, k);
    }
  }

  lemma RetireBegins(run: seq<State>, t: nat, x: int, out: set<int>, a: nat)
    requires a + 1 < |run| && Retires(run[a], t, x, out) && run[a + 1] == Retire(Tick(run[a], out), t, x)
    ensures t < |run[a + 1].threads| && RetiringOk(run, t, x, a, a + 1)
  {
  }

  lemma NotCounted(run: seq<State>, who: seq<int>, t: nat, x: int, a: nat, m: nat)
    requires a < |run| && m < |run| && t < |run[m].threads| && RetiringOk(run, t, x, a, m)
    ensures run[m].threads[t].pc !in {Outside, Inside}
  {
  }

  /** A call of `retire` is counted only after its node was put in the shared list, with an epoch read after the
      call: from the call in step `a` up to the count nothing else happens to the thread. */
  lemma {:induction false} RetireShares(run: seq<State>, who: seq<int>, t: nat, x: int, out: set<int>, a: nat, m: nat)
    requires Scheduled(run, who) && a < m < |run| && who[a] == t && Retires(run[a], t, x, out)
    requires run[a + 1] == Retire(Tick(run[a], out), t, x)
    requires forall k {:trigger run[k]} :: a < k < m ==> !(who[k] == t && t < |run[k].threads| && run[k].threads[t].pc == PC.Count)
    ensures t < |run[m].threads| && RetiringOk(run, t, x, a, m)
  {
    hide By, Init, Retires, Retire, Tick, Step, May, RetiringOk;
    if m == a + 1 {
      RetireBegins(run, t, x, out, a);
    } else {
      RetireShares(run, who, t, x, out, a, m - 1);
      assert ByAt(run, who, m - 1);
      GlobalRises(run, who, a, m - 1);
      GlobalRises(run, who, m - 1, m);
      if who[m - 1] == t {
        NotCounted(run, who, t, x, a, m - 1);
        OwnStep(run[m - 1], run[m], t);
        RetireStep(run, t, x, a, m - 1);
      } else {
        OthersStep(run[m - 1], run[m], who[m - 1], t);
        RetireWaits(run, t, x, a, m - 1);
      }
    }
  }
}

/** What every step of the stack keeps. */
module HazardStackProof {
  import opened HazardStack

  // ---------------------------------------------------------------- the stack

  function After(spine: seq<int>, i: nat): int { if i + 1 < |spine| then spine[i + 1] else NULL }

  ghost predicate LinkOk(cells: seq<Cell>, spine: seq<int>, i: nat)
    requires i < |spine|
  {
    IsCell(cells, spine[i]) && cells[spine[i]].life == Linked && cells[spine[i]].next == After(spine, i)
  }

  /** `head` and the next pointers lead through the linked cells in the order of `spine`. */
  ghost predicate SpineOk(cells: seq<Cell>, head: int, spine: seq<int>) {
    && head == HeadOf(spine)
    && (forall i: nat {:trigger LinkOk(cells, spine, i)} :: i < |spine| ==> LinkOk(cells, spine, i))
    && (forall i, j {:trigger spine[i], spine[j]} :: 0 <= i < j < |spine| ==> spine[i] != spine[j])
    && (forall x {:trigger cells[x]} :: IsCell(cells, x) && cells[x].life == Linked ==> x in spine)
  }

  function ValueOf(cells: seq<Cell>, x: int): int { if IsCell(cells, x) then cells[x].value else 0 }

  function Values(cells: seq<Cell>, spine: seq<int>): seq<int> {
    if spine == [] then [] else [ValueOf(cells, spine[0])] + Values(cells, spine[1..])
  }

  /** The stack in memory is what the log makes of the empty stack. */
  ghost predicate LogOk(cells: seq<Cell>, spine: seq<int>, log: seq<Event>) {
    && Values(cells, spine) == Replay(log, |log|) && Lifo(log)
  }

  // ---------------------------------------------------------------- threads

  /** The thread validated its hazard pointer and still relies on it. */
  predicate Protects(th: Thread, x: int) { th.pc in {PopNext, PopSwap} && th.oldHead == x }

  predicate Scanning(th: Thread) { th.pc in {PopScan, SweepScan} }

  function Target(th: Thread): int { if th.pc == PopScan then th.oldHead else th.item }

  predicate InHand(pc: PC) { pc in {DeferLoad, DeferSwap, SweepScan} }

  predicate EventAt(log: seq<Event>, i: nat, e: Event) { i < |log| && log[i] == e }

  ghost predicate ThreadOk(cells: seq<Cell>, slots: seq<int>, log: seq<Event>, t: nat, th: Thread) {
    && t < |slots| && (th.pc != Idle ==> th.start <= |log|)
    && (th.pc in {PushLoad, PushSwap} ==> th.pushing && IsCell(cells, th.own) && cells[th.own].life == Own(t) && cells[th.own].value == th.value)
    && (th.pc in {PopLoad, PopPublish, PopReload, PopNext, PopSwap, PopClear, PopTake, PopScan} ==> !th.pushing)
    && (th.pc == PopReload ==> slots[t] == th.temp)
    && (th.pc in {PopNext, PopSwap} ==>
          && slots[t] == th.oldHead && IsCell(cells, th.oldHead) && !cells[th.oldHead].life.Free? && !cells[th.oldHead].life.Own?)
    && (th.pc == PopSwap ==> cells[th.oldHead].next == th.next)
    && (th.pc == PopTake ==> th.oldHead != NULL)
    && ((th.pc == PopClear && th.oldHead != NULL) || th.pc in {PopTake, PopScan} ==>
          IsCell(cells, th.oldHead) && cells[th.oldHead].life == Held(t) && EventAt(log, th.point, Popped(t, cells[th.oldHead].value)))
    && (th.pc == PopClear && th.oldHead == NULL ==> EventAt(log, th.point, FoundEmpty(t)))
    && (th.pc == PopScan ==> th.result == cells[th.oldHead].value)
    && (InHand(th.pc) ==> IsCell(cells, th.item) && cells[th.item].life == Listed)
    && (th.pc in {PopClear, PopTake, PopScan} ==> th.start <= th.point)
    && (th.pc in {DeferLoad, DeferSwap, CountUp, ResetCount, TakeList, SweepNext, SweepScan, Return} ==>
          th.start <= th.point && EventAt(log, th.point, Outcome(th, t)))
    && (th.list != [] ==> th.pc in {SweepNext, SweepScan} || (th.pc in {DeferLoad, DeferSwap} && th.sweeping))
    && (Scanning(th) ==> th.at <= |slots|)
  }

  /** A scan that has passed thread `u`'s slot without meeting its target there may rely on `u` not
      using it. */
  predicate ClearOf(th: Thread, u: nat, other: Thread) {
    Scanning(th) && u < th.at ==> !Protects(other, Target(th))
  }

  // ---------------------------------------------------------------- the cells waiting to be reclaimed

  function InList(l: seq<int>, x: int): nat {
    if l == [] then 0 else (if l[0] == x then 1 else 0) + InList(l[1..], x)
  }

  function Private(th: Thread, x: int): nat {
    InList(th.list, x) + if InHand(th.pc) && th.item == x then 1 else 0
  }

  function InHands(threads: seq<Thread>, x: int): nat {
    if threads == [] then 0 else Private(threads[0], x) + InHands(threads[1..], x)
  }

  function Waits(cells: seq<Cell>, x: int): nat {
    if IsCell(cells, x) && cells[x].life == Listed then 1 else 0
  }

  /** A cell waits to be reclaimed in exactly one place, and only such cells are in these places. */
  ghost predicate PlaceOk(cells: seq<Cell>, threads: seq<Thread>, shared: seq<int>, x: int) {
    InList(shared, x) + InHands(threads, x) == Waits(cells, x)
  }

  ghost predicate PlacesOk(cells: seq<Cell>, threads: seq<Thread>, shared: seq<int>) {
    forall x {:trigger PlaceOk(cells, threads, shared, x)} :: PlaceOk(cells, threads, shared, x)
  }

  lemma {:induction false} HandsUpdate(threads: seq<Thread>, t: nat, th: Thread, x: int)
    requires t < |threads|
    ensures InHands(threads[t := th], x) + Private(threads[t], x) == InHands(threads, x) + Private(th, x)
  {
    var next := threads[t := th];
    if t == 0 {
      assert next[1..] == threads[1..];
    } else {
      HandsUpdate(threads[1..], t - 1, th, x);
      assert next[1..] == threads[1..][t - 1 := th] && next[0] == threads[0];
    }
  }

  lemma {:induction false} HandsHave(threads: seq<Thread>, t: nat, x: int)
    requires t < |threads|
    ensures Private(threads[t], x) <= InHands(threads, x)
  {
    if t > 0 { HandsHave(threads[1..], t - 1, x); }
  }

  // ---------------------------------------------------------------- the invariant

  ghost predicate DoneOk(log: seq<Event>, d: Done) {
    d.start <= d.point < d.end <= |log| && log[d.point] == d.event
  }

  predicate EndsBefore(d: Done, t: int, th: Thread) {
    th.pc != Idle && d.event.who == t ==> d.end <= th.start
  }

  ghost predicate DonesOk(s: State) {
    && (forall i {:trigger s.done[i]} :: 0 <= i < |s.done| ==> DoneOk(s.log, s.done[i]))
    && (forall i, j {:trigger s.done[i], s.done[j]} :: 0 <= i < j < |s.done| && s.done[i].event.who == s.done[j].event.who ==>
          s.done[i].end <= s.done[j].start)
    && (forall i, t {:trigger s.done[i], s.threads[t]} :: 0 <= i < |s.done| && 0 <= t < |s.threads| ==> EndsBefore(s.done[i], t, s.threads[t]))
  }

  ghost predicate Inv(s: State) {
    && |s.threads| <= |s.slots|
    && SpineOk(s.cells, s.head, s.spine) && LogOk(s.cells, s.spine, s.log)
    && (forall t {:trigger s.threads[t]} :: 0 <= t < |s.threads| ==> ThreadOk(s.cells, s.slots, s.log, t, s.threads[t]))
    && (forall t, u {:trigger ClearOf(s.threads[t], u, s.threads[u])} :: 0 <= t < |s.threads| && 0 <= u < |s.threads| ==>
          ClearOf(s.threads[t], u, s.threads[u]))
    && PlacesOk(s.cells, s.threads, s.shared)
    && DonesOk(s)
  }

  // ---------------------------------------------------------------- how cells may change

  /** What others may rely on when a step of `u` changes cell `c`: a cell someone else is responsible
      for does not change, a cell in use keeps its value and link, and nobody gets a cell twice. */
  ghost predicate CellEvolves(c: Cell, d: Cell, u: nat) {
    && (c.life.Own? && c.life.who != u ==> d == c)
    && (c.life.Held? && c.life.who != u ==> d == c)
    && (c.life == Linked || c.life.Held? || c.life == Listed ==> d.life == Free || (!d.life.Own? && d.value == c.value && d.next == c.next))
    && (c.life == Listed ==> d.life in {Listed, Free})
  }

  ghost predicate CellsEvolve(cells: seq<Cell>, cells': seq<Cell>, u: nat) {
    && |cells| <= |cells'|
    && forall x {:trigger cells'[x]} :: IsCell(cells, x) ==> CellEvolves(cells[x], cells'[x], u)
  }

  /** Cells that became free in the step are in use by nobody else. */
  ghost predicate FreesSafely(s: State, cells': seq<Cell>, u: nat) {
    forall x {:trigger cells'[x]} :: IsCell(s.cells, x) && x < |cells'| && cells'[x].life == Free && s.cells[x].life != Free ==>
      forall t {:trigger s.threads[t]} :: 0 <= t < |s.threads| && t != u ==>
        !Protects(s.threads[t], x) && !(InHand(s.threads[t].pc) && s.threads[t].item == x)
  }

  ghost predicate Extends(log: seq<Event>, log': seq<Event>) {
    |log| <= |log'| && log'[..|log|] == log
  }

  lemma ThreadStable(s: State, cells': seq<Cell>, slots': seq<int>, log': seq<Event>, u: nat, t: nat)
    requires t < |s.threads| && t != u && ThreadOk(s.cells, s.slots, s.log, t, s.threads[t]) && |s.threads| <= |s.slots|
    requires CellsEvolve(s.cells, cells', u) && FreesSafely(s, cells', u) && Extends(s.log, log')
    requires |slots'| == |s.slots| && slots'[t] == s.slots[t]
    ensures ThreadOk(cells', slots', log', t, s.threads[t])
  {
    var th := s.threads[t];
    assert forall i {:trigger log'[i]} :: 0 <= i < |s.log| ==> log'[i] == s.log[i];
    if th.pc in {PushLoad, PushSwap} { assert CellEvolves(s.cells[th.own], cells'[th.own], u); }
    if th.pc in {PopNext, PopSwap} {
      assert CellEvolves(s.cells[th.oldHead], cells'[th.oldHead], u) && Protects(th, th.oldHead);
    }
    if (th.pc == PopClear && th.oldHead != NULL) || th.pc in {PopTake, PopScan} {
      assert CellEvolves(s.cells[th.oldHead], cells'[th.oldHead], u);
    }
    if InHand(th.pc) { assert CellEvolves(s.cells[th.item], cells'[th.item], u); }
  }

  // ---------------------------------------------------------------- the common part of all steps

  /** Thread `t` moves on to `th` within its operation or into a new one. */
  ghost predicate Continues(s: State, t: nat, th: Thread)
    requires t < |s.threads|
  {
    th.pc != Idle ==> th.start == |s.log| || (s.threads[t].pc != Idle && th.start == s.threads[t].start)
  }

  ghost predicate Clear(threads: seq<Thread>) {
    forall t, u {:trigger ClearOf(threads[t], u, threads[u])} :: 0 <= t < |threads| && 0 <= u < |threads| ==>
      ClearOf(threads[t], u, threads[u])
  }

  lemma StepKeeps(s: State, s': State, t: nat)
    requires Inv(s) && t < |s.threads| == |s'.threads| && s'.threads == s.threads[t := s'.threads[t]]
    requires |s'.slots| == |s.slots| && forall u :: 0 <= u < |s.slots| && u != t ==> s'.slots[u] == s.slots[u]
    requires CellsEvolve(s.cells, s'.cells, t) && FreesSafely(s, s'.cells, t) && Extends(s.log, s'.log)
    requires SpineOk(s'.cells, s'.head, s'.spine) && LogOk(s'.cells, s'.spine, s'.log)
    requires ThreadOk(s'.cells, s'.slots, s'.log, t, s'.threads[t]) && Continues(s, t, s'.threads[t])
    requires Clear(s'.threads) && PlacesOk(s'.cells, s'.threads, s'.shared) && s'.done == s.done
    ensures Inv(s')
  {
    hide SpineOk, LogOk, PlacesOk, Clear, CellsEvolve, FreesSafely;
    forall u | 0 <= u < |s'.threads| ensures ThreadOk(s'.cells, s'.slots, s'.log, u, s'.threads[u]) {
      if u != t {
        assert ThreadOk(s.cells, s.slots, s.log, u, s.threads[u]);
        hide ThreadOk;
        ThreadStable(s, s'.cells, s'.slots, s'.log, t, u);
      }
    }
    hide ThreadOk;
    DonesKept(s, s', t);
    ClearUnfold(s'.threads);
  }

  lemma ClearUnfold(threads: seq<Thread>)
    requires Clear(threads)
    ensures forall t, u {:trigger ClearOf(threads[t], u, threads[u])} :: 0 <= t < |threads| && 0 <= u < |threads| ==>
      ClearOf(threads[t], u, threads[u])
  {
  }

  lemma DonesKept(s: State, s': State, t: nat)
    requires DonesOk(s) && t < |s.threads| == |s'.threads| && s'.threads == s.threads[t := s'.threads[t]]
    requires Extends(s.log, s'.log) && s'.done == s.done && Continues(s, t, s'.threads[t])
    ensures DonesOk(s')
  {
    forall i | 0 <= i < |s'.done| ensures DoneOk(s'.log, s'.done[i]) {
      assert DoneOk(s.log, s.done[i]);
      assert s'.log[..|s.log|][s.done[i].point] == s.log[s.done[i].point];
    }
    forall i, u | 0 <= i < |s'.done| && 0 <= u < |s'.threads| ensures EndsBefore(s'.done[i], u, s'.threads[u]) {
      assert EndsBefore(s.done[i], u, s.threads[u]) && DoneOk(s.log, s.done[i]);
    }
  }

  lemma InvThread(s: State, t: nat)
    requires Inv(s) && t < |s.threads|
    ensures ThreadOk(s.cells, s.slots, s.log, t, s.threads[t]) && Clear(s.threads) && |s.threads| <= |s.slots|
    ensures SpineOk(s.cells, s.head, s.spine) && LogOk(s.cells, s.spine, s.log) && PlacesOk(s.cells, s.threads, s.shared)
  {
  }

  /** A thread that protects no more, and whose scan has passed no more, disturbs no scan. */
  lemma ClearKept(threads: seq<Thread>, t: nat, th: Thread)
    requires Clear(threads) && t < |threads|
    requires forall x :: Protects(th, x) ==> Protects(threads[t], x)
    requires Scanning(th) ==> th.at == 0 || (Scanning(threads[t]) && Target(th) == Target(threads[t]) && th.at <= threads[t].at)
    ensures Clear(threads[t := th])
  {
    var next := threads[t := th];
    forall v, u | 0 <= v < |next| && 0 <= u < |next| ensures ClearOf(next[v], u, next[u]) {
      assert ClearOf(threads[v], u, threads[u]);
    }
  }

  lemma PlacesMove(s: State, t: nat, th: Thread, cells': seq<Cell>, shared': seq<int>)
    requires PlacesOk(s.cells, s.threads, s.shared) && t < |s.threads| && |s.cells| <= |cells'|
    requires forall x ::
      InList(shared', x) + Private(th, x) + Waits(s.cells, x) == InList(s.shared, x) + Private(s.threads[t], x) + Waits(cells', x)
    ensures PlacesOk(cells', s.threads[t := th], shared')
  {
    var next := s.threads[t := th];
    forall x ensures PlaceOk(cells', next, shared', x) {
      assert PlaceOk(s.cells, s.threads, s.shared, x);
      HandsUpdate(s.threads, t, th, x);
    }
  }

  lemma SameCells(cells: seq<Cell>, u: nat)
    ensures CellsEvolve(cells, cells, u)
  {
  }

  /** A step that writes no cell and logs nothing. */
  lemma LocalKeeps(s: State, s': State, t: nat)
    requires Inv(s) && t < |s.threads| == |s'.threads| && s'.threads == s.threads[t := s'.threads[t]]
    requires |s'.slots| == |s.slots| && forall u :: 0 <= u < |s.slots| && u != t ==> s'.slots[u] == s.slots[u]
    requires s'.cells == s.cells && s'.head == s.head && s'.spine == s.spine && s'.log == s.log && s'.done == s.done
    requires ThreadOk(s'.cells, s'.slots, s'.log, t, s'.threads[t]) && Continues(s, t, s'.threads[t])
    requires Clear(s'.threads)
    requires forall x :: InList(s'.shared, x) + Private(s'.threads[t], x) == InList(s.shared, x) + Private(s.threads[t], x)
    ensures Inv(s')
  {
    InvThread(s, t);
    SameCells(s.cells, t);
    hide Inv, ThreadOk, Clear, SpineOk, LogOk, CellsEvolve, Continues;
    PlacesMove(s, t, s'.threads[t], s.cells, s'.shared);
    StepKeeps(s, s', t);
  }

  // ---------------------------------------------------------------- cells off the stack

  lemma {:induction false} ValuesKept(cells: seq<Cell>, cells': seq<Cell>, spine: seq<int>)
    requires forall x {:trigger x in spine} :: x in spine ==> ValueOf(cells', x) == ValueOf(cells, x)
    ensures Values(cells', spine) == Values(cells, spine)
  {
    if spine != [] {
      assert spine[0] in spine;
      forall x | x in spine[1..] ensures ValueOf(cells', x) == ValueOf(cells, x) {
        assert x in spine;
      }
      ValuesKept(cells, cells', spine[1..]);
    }
  }

  /** Writing a cell that is not linked, before or after, leaves the stack alone. */
  lemma OffSpine(cells: seq<Cell>, cells': seq<Cell>, head: int, spine: seq<int>, log: seq<Event>)
    requires SpineOk(cells, head, spine) && LogOk(cells, spine, log) && |cells| <= |cells'|
    requires forall x {:trigger cells'[x]} :: IsCell(cells', x) ==> (cells'[x].life == Linked <==> IsCell(cells, x) && cells[x].life == Linked)
    requires forall x {:trigger cells'[x]} :: IsCell(cells, x) && cells[x].life == Linked ==> cells'[x] == cells[x]
    ensures SpineOk(cells', head, spine) && LogOk(cells', spine, log)
  {
    forall i: nat | i < |spine| ensures LinkOk(cells', spine, i) {
      assert LinkOk(cells, spine, i);
    }
    forall x | x in spine ensures ValueOf(cells', x) == ValueOf(cells, x) {
      var i :| 0 <= i < |spine| && spine[i] == x;
      assert LinkOk(cells, spine, i);
    }
    ValuesKept(cells, cells', spine);
  }
}

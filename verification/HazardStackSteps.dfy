/** The steps of push and pop, and the reclamation of popped nodes. */
module HazardStackSteps {
  import opened HazardStack
  import opened HazardStackProof

  // ---------------------------------------------------------------- push

  /** Writing cell `x`, on which nobody else relies. */
  lemma CellWritten(s: State, cells': seq<Cell>, x: int, u: nat)
    requires |cells'| >= |s.cells| && 0 <= x < |cells'|
    requires forall y {:trigger cells'[y]} :: IsCell(s.cells, y) && y != x ==> cells'[y] == s.cells[y]
    requires IsCell(s.cells, x) ==> CellEvolves(s.cells[x], cells'[x], u)
    requires IsCell(s.cells, x) && cells'[x].life == Free ==> s.cells[x].life == Free
    ensures CellsEvolve(s.cells, cells', u) && FreesSafely(s, cells', u)
  {
  }

  lemma CallPushKeeps(s: State, t: nat, value: int, a: int)
    requires Inv(s) && MayCall(s, t) && MayAllocate(s.cells, a)
    ensures Inv(CallPush(s, t, value, a))
  {
    InvThread(s, t);
    var s' := CallPush(s, t, value, a);
    var th' := s'.threads[t];
    CellWritten(s, s'.cells, a, t);
    OffSpine(s.cells, s'.cells, s.head, s.spine, s.log);
    ClearKept(s.threads, t, th');
    assert ThreadOk(s'.cells, s'.slots, s'.log, t, th');
    hide Inv, ThreadOk, Clear, SpineOk, LogOk, CellsEvolve, FreesSafely;
    PlacesMove(s, t, th', s'.cells, s.shared);
    StepKeeps(s, s', t);
  }

  /** Storing the head seen in the new node's next. */
  lemma PushReadsHead(s: State, t: nat)
    requires Inv(s) && t < |s.threads| && s.threads[t].pc in {PushLoad, PushSwap}
    ensures IsCell(s.cells, s.threads[t].own)
    ensures var th := s.threads[t];
      Inv(Go(s, t, th.(pc := PushSwap)).(cells := s.cells[th.own := s.cells[th.own].(next := s.head)]))
  {
    InvThread(s, t);
    var th := s.threads[t];
    var s' := Go(s, t, th.(pc := PushSwap)).(cells := s.cells[th.own := s.cells[th.own].(next := s.head)]);
    CellWritten(s, s'.cells, th.own, t);
    OffSpine(s.cells, s'.cells, s.head, s.spine, s.log);
    ClearKept(s.threads, t, s'.threads[t]);
    assert ThreadOk(s'.cells, s'.slots, s'.log, t, s'.threads[t]);
    assert forall x :: Private(s'.threads[t], x) == Private(th, x) && Waits(s'.cells, x) == Waits(s.cells, x);
    hide Inv, ThreadOk, Clear, SpineOk, LogOk, CellsEvolve, FreesSafely;
    PlacesMove(s, t, s'.threads[t], s'.cells, s.shared);
    StepKeeps(s, s', t);
  }

  /** One more event extends the replay. */
  lemma {:induction false} ReplayPrefix(log: seq<Event>, e: Event, n: nat)
    requires n <= |log|
    ensures Replay(log + [e], n) == Replay(log, n)
  {
    if n > 0 {
      ReplayPrefix(log, e, n - 1);
      assert (log + [e])[n - 1] == log[n - 1];
    }
  }

  function Effect(e: Event, st: seq<int>): seq<int> {
    match e
    case Pushed(_, v) => [v] + st
    case Popped(_, _) => if st == [] then [] else st[1..]
    case FoundEmpty(_) => st
  }

  lemma ReplayLast(log: seq<Event>, e: Event)
    ensures Replay(log + [e], |log| + 1) == Effect(e, Replay(log + [e], |log|))
  {
  }

  lemma LogGrows(log: seq<Event>, e: Event)
    requires Lifo(log) && Suits(e, Replay(log, |log|))
    ensures Lifo(log + [e]) && Extends(log, log + [e]) && EventAt(log + [e], |log|, e)
    ensures |log + [e]| == |log| + 1 && Replay(log + [e], |log| + 1) == Effect(e, Replay(log, |log|))
  {
    ReplayPrefix(log, e, |log|);
    ReplayLast(log, e);
    hide Replay, Suits, Effect;
    var longer := log + [e];
    forall i | 0 <= i < |longer| ensures Suits(longer[i], Replay(longer, i)) {
      if i < |log| {
        ReplayPrefix(log, e, i);
        assert longer[i] == log[i];
      }
    }
  }

  /** An event that suits the stack in memory, whose effect the new stack shows. */
  lemma LogStep(cells: seq<Cell>, spine: seq<int>, log: seq<Event>, e: Event, cells': seq<Cell>, spine': seq<int>)
    requires LogOk(cells, spine, log) && Suits(e, Values(cells, spine)) && Values(cells', spine') == Effect(e, Values(cells, spine))
    ensures LogOk(cells', spine', log + [e]) && Extends(log, log + [e]) && EventAt(log + [e], |log|, e)
  {
    hide Values, Replay, Lifo, Suits, Effect;
    LogGrows(log, e);
  }

  lemma PushedSpine(cells: seq<Cell>, head: int, spine: seq<int>, x: int, t: nat)
    requires SpineOk(cells, head, spine) && IsCell(cells, x) && cells[x].life == Own(t) && cells[x].next == head
    ensures SpineOk(WithLife(cells, x, Linked), x, [x] + spine)
    ensures Values(WithLife(cells, x, Linked), [x] + spine) == [cells[x].value] + Values(cells, spine)
  {
    var cells', spine' := WithLife(cells, x, Linked), [x] + spine;
    forall i | 0 <= i < |spine| ensures spine[i] != x {
      assert LinkOk(cells, spine, i);
    }
    forall i: nat | i < |spine'| ensures LinkOk(cells', spine', i) {
      if i > 0 { assert LinkOk(cells, spine, i - 1); }
    }
    ValuesKept(cells, cells', spine);
    assert spine'[1..] == spine;
  }

  /** The compare-and-swap of push puts its node on top. */
  lemma PushedOnTop(cells: seq<Cell>, head: int, spine: seq<int>, log: seq<Event>, x: int, t: nat)
    requires SpineOk(cells, head, spine) && LogOk(cells, spine, log)
    requires IsCell(cells, x) && cells[x].life == Own(t) && cells[x].next == head
    ensures var cells', spine', log' := WithLife(cells, x, Linked), [x] + spine, log + [Pushed(t, cells[x].value)];
      SpineOk(cells', x, spine') && LogOk(cells', spine', log') && Extends(log, log') && EventAt(log', |log|, Pushed(t, cells[x].value))
  {
    PushedSpine(cells, head, spine, x, t);
    hide SpineOk, LogOk, Values;
    LogStep(cells, spine, log, Pushed(t, cells[x].value), WithLife(cells, x, Linked), [x] + spine);
  }

  /** The state after the successful compare-and-swap of push. */
  function PushDone(s: State, t: nat): State
    requires t < |s.threads| && IsCell(s.cells, s.threads[t].own)
  {
    var th := s.threads[t];
    Go(s, t, th.(pc := Return, point := |s.log|)).(
      cells := WithLife(s.cells, th.own, Linked), head := th.own, spine := [th.own] + s.spine,
      log := s.log + [Pushed(t, s.cells[th.own].value)])
  }

  lemma PushDoneThread(s: State, t: nat)
    requires t < |s.threads| && s.threads[t].pc == PushSwap && ThreadOk(s.cells, s.slots, s.log, t, s.threads[t])
    ensures IsCell(s.cells, s.threads[t].own)
    ensures var s' := PushDone(s, t); ThreadOk(s'.cells, s'.slots, s'.log, t, s'.threads[t])
  {
  }

  lemma PushDonePlaces(s: State, t: nat)
    requires t < |s.threads| && s.threads[t].pc == PushSwap && IsCell(s.cells, s.threads[t].own)
    requires s.cells[s.threads[t].own].life == Own(t)
    ensures var s' := PushDone(s, t);
      forall x :: Private(s'.threads[t], x) == Private(s.threads[t], x) && Waits(s'.cells, x) == Waits(s.cells, x)
  {
  }

  lemma PushSwapKeeps(s: State, t: nat)
    requires Inv(s) && t < |s.threads| && s.threads[t].pc == PushSwap && IsCell(s.cells, s.threads[t].own)
    requires s.head == s.cells[s.threads[t].own].next
    ensures Inv(PushDone(s, t))
  {
    InvThread(s, t);
    PushDoneThread(s, t);
    var th := s.threads[t];
    assert s.cells[th.own].life == Own(t);
    hide Inv, ThreadOk, SpineOk, LogOk;
    PushedOnTop(s.cells, s.head, s.spine, s.log, th.own, t);
    var s' := PushDone(s, t);
    CellWritten(s, s'.cells, th.own, t);
    hide CellsEvolve, FreesSafely;
    ClearKept(s.threads, t, s'.threads[t]);
    hide Clear;
    PushDonePlaces(s, t);
    hide Private, Waits, PushDone;
    PlacesMove(s, t, s'.threads[t], s'.cells, s.shared);
    StepKeeps(s, s', t);
  }

  lemma PushKeeps(s: State, t: nat)
    requires Inv(s) && May(s, t) && s.threads[t].pc in {PushLoad, PushSwap}
    ensures Inv(Step(s, t))
  {
    hide Inv;
    if s.threads[t].pc == PushSwap && s.head == s.cells[s.threads[t].own].next {
      PushSwapKeeps(s, t);
    } else {
      PushReadsHead(s, t);
    }
  }

  // ---------------------------------------------------------------- pop

  /** A pop that validates its hazard pointer protects a linked node: no scan is looking for it. */
  lemma ValidatedClear(s: State, t: nat, th: Thread)
    requires Inv(s) && t < |s.threads| && !Scanning(th)
    requires forall x :: Protects(th, x) ==> IsCell(s.cells, x) && s.cells[x].life == Linked
    ensures Clear(s.threads[t := th])
  {
    var next := s.threads[t := th];
    forall v, u | 0 <= v < |next| && 0 <= u < |next| ensures ClearOf(next[v], u, next[u]) {
      assert ClearOf(s.threads[v], u, s.threads[u]);
      assert ThreadOk(s.cells, s.slots, s.log, v, s.threads[v]);
    }
  }

  /** The steps of pop that only read or publish. */
  lemma PopReadsKeep(s: State, t: nat)
    requires Inv(s) && May(s, t)
    requires s.threads[t].pc in {PopLoad, PopPublish, PopReload, PopNext} || (s.threads[t].pc == PopSwap && s.head != s.threads[t].oldHead)
    requires s.threads[t].pc == PopReload && s.head == s.threads[t].temp ==> s.head != NULL
    ensures Inv(PopStep(s, t))
  {
    InvThread(s, t);
    var th, s' := s.threads[t], PopStep(s, t);
    var th' := s'.threads[t];
    if th.pc == PopReload && s.head == th.temp {
      EmptyIs(s.cells, s.head, s.spine);
      ValidatedClear(s, t, th');
    } else {
      ClearKept(s.threads, t, th');
    }
    assert ThreadOk(s'.cells, s'.slots, s'.log, t, th');
    hide Inv, ThreadOk, Clear;
    LocalKeeps(s, s', t);
  }

  lemma EmptyIs(cells: seq<Cell>, head: int, spine: seq<int>)
    requires SpineOk(cells, head, spine)
    ensures head == NULL <==> spine == []
    ensures spine != [] ==> IsCell(cells, head) && cells[head].life == Linked && cells[head].next == After(spine, 0)
  {
    assert spine != [] ==> LinkOk(cells, spine, 0);
  }

  /** A pop that finds the stack empty twice in a row takes effect at the second load. */
  lemma PopEmptyKeeps(s: State, t: nat)
    requires Inv(s) && May(s, t) && s.threads[t].pc == PopReload && s.head == s.threads[t].temp == NULL
    ensures Inv(PopStep(s, t))
  {
    InvThread(s, t);
    var th, s' := s.threads[t], PopStep(s, t);
    var th' := s'.threads[t];
    EmptyIs(s.cells, s.head, s.spine);
    LogStep(s.cells, s.spine, s.log, FoundEmpty(t), s.cells, s.spine);
    SameCells(s.cells, t);
    ClearKept(s.threads, t, th');
    assert ThreadOk(s'.cells, s'.slots, s'.log, t, th');
    assert forall x :: Private(th', x) == Private(th, x);
    hide Inv, ThreadOk, Clear, SpineOk, LogOk, CellsEvolve;
    PlacesMove(s, t, th', s.cells, s.shared);
    StepKeeps(s, s', t);
  }

  /** Taking the top off. */
  lemma PoppedSpine(cells: seq<Cell>, head: int, spine: seq<int>, t: nat)
    requires SpineOk(cells, head, spine) && head != NULL
    ensures spine != [] && IsCell(cells, head) && cells[head].life == Linked
    ensures SpineOk(WithLife(cells, head, Held(t)), cells[head].next, spine[1..])
  {
    EmptyIs(cells, head, spine);
    var cells', rest := WithLife(cells, head, Held(t)), spine[1..];
    forall i: nat | i < |rest| ensures LinkOk(cells', rest, i) {
      assert LinkOk(cells, spine, i + 1);
      assert spine[0] != spine[i + 1];
    }
    forall x | IsCell(cells', x) && cells'[x].life == Linked ensures x in rest {
      assert cells[x].life == Linked && x in spine;
    }
    forall i, j | 0 <= i < j < |rest| ensures rest[i] != rest[j] {
      assert spine[i + 1] != spine[j + 1];
    }
  }

  lemma PoppedValues(cells: seq<Cell>, cells': seq<Cell>, spine: seq<int>)
    requires spine != [] && forall x {:trigger x in spine} :: x in spine ==> ValueOf(cells', x) == ValueOf(cells, x)
    ensures Values(cells, spine) == [ValueOf(cells, spine[0])] + Values(cells', spine[1..])
  {
    forall x | x in spine[1..] ensures ValueOf(cells', x) == ValueOf(cells, x) {
      assert x in spine;
    }
    ValuesKept(cells, cells', spine[1..]);
  }

  lemma PoppedOff(cells: seq<Cell>, head: int, spine: seq<int>, log: seq<Event>, t: nat)
    requires SpineOk(cells, head, spine) && LogOk(cells, spine, log) && head != NULL
    ensures spine != [] && IsCell(cells, head) && cells[head].life == Linked
    ensures var cells', log' := WithLife(cells, head, Held(t)), log + [Popped(t, cells[head].value)];
      && SpineOk(cells', cells[head].next, spine[1..]) && LogOk(cells', spine[1..], log')
      && Extends(log, log') && EventAt(log', |log|, Popped(t, cells[head].value))
  {
    PoppedSpine(cells, head, spine, t);
    EmptyIs(cells, head, spine);
    assert head == spine[0];
    var cells' := WithLife(cells, head, Held(t));
    PoppedValues(cells, cells', spine);
    hide SpineOk, LogOk, Values;
    LogStep(cells, spine, log, Popped(t, cells[head].value), cells', spine[1..]);
  }

  /** The state after the successful compare-and-swap of pop, which installs the successor it read. */
  function PopDone(s: State, t: nat): State
    requires t < |s.threads| && IsCell(s.cells, s.threads[t].oldHead) && |s.spine| > 0
  {
    var th := s.threads[t];
    Go(s, t, th.(pc := PopClear, point := |s.log|)).(
      cells := WithLife(s.cells, th.oldHead, Held(t)), head := th.next, spine := s.spine[1..],
      log := s.log + [Popped(t, s.cells[th.oldHead].value)])
  }

  lemma PopDoneThread(s: State, t: nat)
    requires t < |s.threads| && s.threads[t].pc == PopSwap && ThreadOk(s.cells, s.slots, s.log, t, s.threads[t]) && |s.spine| > 0
    ensures IsCell(s.cells, s.threads[t].oldHead) && s.cells[s.threads[t].oldHead].next == s.threads[t].next
    ensures var s' := PopDone(s, t); ThreadOk(s'.cells, s'.slots, s'.log, t, s'.threads[t])
  {
  }

  lemma PopDonePlaces(s: State, t: nat)
    requires t < |s.threads| && IsCell(s.cells, s.threads[t].oldHead) && |s.spine| > 0
    requires s.threads[t].pc == PopSwap && s.cells[s.threads[t].oldHead].life == Linked
    ensures var s' := PopDone(s, t);
      forall x :: Private(s'.threads[t], x) == Private(s.threads[t], x) && Waits(s'.cells, x) == Waits(s.cells, x)
  {
  }

  lemma PopSwapKeeps(s: State, t: nat)
    requires Inv(s) && t < |s.threads| && s.threads[t].pc == PopSwap && |s.spine| > 0
    requires IsCell(s.cells, s.threads[t].oldHead) && s.head == s.threads[t].oldHead
    ensures Inv(PopDone(s, t))
  {
    InvThread(s, t);
    PopDoneThread(s, t);
    var th := s.threads[t];
    hide Inv, ThreadOk, SpineOk, LogOk;
    PoppedOff(s.cells, s.head, s.spine, s.log, t);
    var s' := PopDone(s, t);
    CellWritten(s, s'.cells, th.oldHead, t);
    hide CellsEvolve, FreesSafely;
    ClearKept(s.threads, t, s'.threads[t]);
    hide Clear;
    PopDonePlaces(s, t);
    hide Private, Waits, PopDone;
    PlacesMove(s, t, s'.threads[t], s'.cells, s.shared);
    StepKeeps(s, s', t);
  }

  lemma PopTakeThread(s: State, t: nat)
    requires t < |s.threads| && May(s, t) && s.threads[t].pc in {PopClear, PopTake} && ThreadOk(s.cells, s.slots, s.log, t, s.threads[t])
    ensures var s' := PopStep(s, t); ThreadOk(s'.cells, s'.slots, s'.log, t, s'.threads[t])
  {
  }

  lemma PopTakeMoves(s: State, t: nat)
    requires t < |s.threads| && May(s, t) && s.threads[t].pc in {PopClear, PopTake}
    requires ThreadOk(s.cells, s.slots, s.log, t, s.threads[t])
    ensures var s' := PopStep(s, t); var th' := s'.threads[t];
      && |s'.threads| == |s.threads| && s'.threads == s.threads[t := th']
      && |s'.slots| == |s.slots| && (forall u :: 0 <= u < |s.slots| && u != t ==> s'.slots[u] == s.slots[u])
      && s'.cells == s.cells && s'.head == s.head && s'.spine == s.spine && s'.log == s.log && s'.done == s.done
      && s'.shared == s.shared && Continues(s, t, th')
      && (forall x :: !Protects(th', x)) && (Scanning(th') ==> th'.at == 0)
      && (forall x :: Private(th', x) == Private(s.threads[t], x))
  {
  }

  lemma PopTakesKeep(s: State, t: nat)
    requires Inv(s) && May(s, t) && s.threads[t].pc in {PopClear, PopTake}
    ensures Inv(PopStep(s, t))
  {
    InvThread(s, t);
    PopTakeThread(s, t);
    PopTakeMoves(s, t);
    hide Inv, ThreadOk, PopStep, May, Private, Protects, Scanning, Target;
    var s' := PopStep(s, t);
    ClearKept(s.threads, t, s'.threads[t]);
    hide Clear;
    LocalKeeps(s, s', t);
  }
}

/** The lock-free stack with hazard pointers (include/lockfree_stack.hpp, include/hazard_ptr.hpp) as a
    step machine: any number of threads up to the number of hazard slots, one atomic load, store or
    compare-and-swap a step, sequentially consistent memory, and a heap that may reuse any freed
    address at once.

    Thread `t` owns hazard slot `t`. The `life` of a cell, `spine`, `log`, `start` and `point` are
    history, read by no step: who is responsible for a cell, the stack from top to bottom, and the
    pushes and pops in the order in which they took effect. */
module HazardStack {
  const MAX_HAZARDS: nat := 100
  const NULL: int := -1

  datatype Life = Free | Own(who: nat) | Linked | Held(who: nat) | Listed

  datatype Cell = Cell(life: Life, value: int, next: int)

  datatype Event = Pushed(who: nat, value: int) | Popped(who: nat, value: int) | FoundEmpty(who: nat)

  /** A completed operation: between log positions `start` and `end`, with its effect at `point`. */
  datatype Done = Done(event: Event, start: nat, point: nat, end: nat)

  datatype PC =
    | Idle
    | PushLoad    // push: about to load head into the new node's next
    | PushSwap    // push: about to compare-and-swap head
    | PopLoad     // pop: about to load head
    | PopPublish  // pop: about to publish the head seen in the hazard slot
    | PopReload   // pop: about to load head again
    | PopNext     // pop: about to read the next pointer of the protected node
    | PopSwap     // pop: about to compare-and-swap head
    | PopClear    // pop: about to clear the hazard slot
    | PopTake     // pop: about to move the data out of the node
    | PopScan     // pop: about to load the hazard slot at `at`
    | DeferLoad   // add_to_reclaim_list: about to load the list's head
    | DeferSwap   // add_to_reclaim_list: about to compare-and-swap the list's head
    | CountUp     // reclaim_later: about to count
    | ResetCount  // reclaim_later: about to clear the count
    | TakeList    // delete_nodes_with_no_hazards: about to take the list
    | SweepNext   // delete_nodes_with_no_hazards: about to look at the next item
    | SweepScan   // delete_nodes_with_no_hazards: about to load the hazard slot at `at`
    | Return

  datatype Thread = Thread(
    pc: PC, pushing: bool, value: int, own: int, oldHead: int, temp: int, next: int, result: int, at: nat,
    item: int, seen: int, sweeping: bool, list: seq<int>, start: nat, point: nat)

  datatype State = State(
    cells: seq<Cell>, head: int, slots: seq<int>, threads: seq<Thread>, shared: seq<int>, count: nat,
    spine: seq<int>, log: seq<Event>, done: seq<Done>)

  ghost predicate Init(s: State) {
    && s.cells == [] && s.head == NULL && |s.slots| == MAX_HAZARDS && |s.threads| <= MAX_HAZARDS
    && (forall i :: 0 <= i < |s.slots| ==> s.slots[i] == NULL)
    && (forall t :: 0 <= t < |s.threads| ==> s.threads[t].pc == Idle && s.threads[t].list == [])
    && s.shared == [] && s.count == 0 && s.spine == [] && s.log == [] && s.done == []
  }

  predicate IsCell(cells: seq<Cell>, x: int) { 0 <= x < |cells| }

  function Go(s: State, t: nat, th: Thread): State
    requires t < |s.threads|
  {
    s.(threads := s.threads[t := th])
  }

  // ---------------------------------------------------------------- calls

  predicate MayCall(s: State, t: nat) { t < |s.threads| && s.threads[t].pc == Idle }

  /** Any free address, or one never used. */
  predicate MayAllocate(cells: seq<Cell>, a: int) {
    a == |cells| || (IsCell(cells, a) && cells[a].life == Free)
  }

  /** push(value), the new node at address `a`. */
  function CallPush(s: State, t: nat, value: int, a: int): State
    requires MayCall(s, t) && MayAllocate(s.cells, a)
  {
    var c := Cell(Own(t), value, NULL);
    Go(s, t, s.threads[t].(pc := PushLoad, pushing := true, value := value, own := a, start := |s.log|)).(cells :=
      if a == |s.cells| then s.cells + [c] else s.cells[a := c])
  }

  function CallPop(s: State, t: nat): State
    requires MayCall(s, t)
  {
    Go(s, t, s.threads[t].(pc := PopLoad, pushing := false, start := |s.log|))
  }

  // ---------------------------------------------------------------- steps

  /** Every address that the next step dereferences is allocated. */
  predicate May(s: State, t: nat) {
    && t < |s.threads| && t < |s.slots| && s.threads[t].pc != Idle
    && (s.threads[t].pc in {PushLoad, PushSwap} ==> IsCell(s.cells, s.threads[t].own))
    && (s.threads[t].pc in {PopNext, PopTake} ==> IsCell(s.cells, s.threads[t].oldHead))
    && (s.threads[t].pc == PopSwap && s.threads[t].oldHead == s.head ==> IsCell(s.cells, s.threads[t].oldHead) && |s.spine| > 0)
    && (s.threads[t].pc == PopScan ==> IsCell(s.cells, s.threads[t].oldHead) && s.threads[t].at <= |s.slots|)
    && (s.threads[t].pc == SweepScan ==> IsCell(s.cells, s.threads[t].item) && s.threads[t].at <= |s.slots|)
  }

  function HeadOf(l: seq<int>): int { if l == [] then NULL else l[0] }

  function WithLife(cells: seq<Cell>, x: int, life: Life): seq<Cell>
    requires IsCell(cells, x)
  {
    cells[x := cells[x].(life := life)]
  }

  function PushStep(s: State, t: nat): State
    requires May(s, t) && s.threads[t].pc in {PushLoad, PushSwap}
  {
    var th := s.threads[t];
    var n := s.cells[th.own];
    if th.pc == PushLoad then
      Go(s, t, th.(pc := PushSwap)).(cells := s.cells[th.own := n.(next := s.head)])
    else if s.head == n.next then
      Go(s, t, th.(pc := Return, point := |s.log|)).(
        cells := WithLife(s.cells, th.own, Linked), head := th.own, spine := [th.own] + s.spine,
        log := s.log + [Pushed(t, n.value)])
    else
      Go(s, t, th).(cells := s.cells[th.own := n.(next := s.head)])
  }

  function PopStep(s: State, t: nat): State
    requires May(s, t) && s.threads[t].pc in {PopLoad, PopPublish, PopReload, PopNext, PopSwap, PopClear, PopTake, PopScan}
  {
    var th := s.threads[t];
    if th.pc == PopLoad then Go(s, t, th.(pc := PopPublish, oldHead := s.head))
    else if th.pc == PopPublish then
      Go(s, t, th.(pc := PopReload, temp := th.oldHead)).(slots := s.slots[t := th.oldHead])
    else if th.pc == PopReload then
      if s.head != th.temp then Go(s, t, th.(pc := PopPublish, oldHead := s.head))
      else if s.head == NULL then
        Go(s, t, th.(pc := PopClear, oldHead := s.head, point := |s.log|)).(log := s.log + [FoundEmpty(t)])
      else Go(s, t, th.(pc := PopNext, oldHead := s.head))
    else if th.pc == PopNext then Go(s, t, th.(pc := PopSwap, next := s.cells[th.oldHead].next))
    else if th.pc == PopSwap then
      if s.head == th.oldHead then
        Go(s, t, th.(pc := PopClear, point := |s.log|)).(
          cells := WithLife(s.cells, th.oldHead, Held(t)), head := th.next, spine := s.spine[1..],
          log := s.log + [Popped(t, s.cells[th.oldHead].value)])
      else Go(s, t, th.(pc := PopPublish, oldHead := s.head))
    else if th.pc == PopClear then
      Go(s, t, th.(pc := if th.oldHead == NULL then Return else PopTake)).(slots := s.slots[t := NULL])
    else if th.pc == PopTake then Go(s, t, th.(pc := PopScan, at := 0, result := s.cells[th.oldHead].value))
    else if th.at == |s.slots| then
      Go(s, t, th.(pc := Return)).(cells := WithLife(s.cells, th.oldHead, Free))
    else if s.slots[th.at] == th.oldHead then
      Go(s, t, th.(pc := DeferLoad, item := th.oldHead, sweeping := false)).(cells := WithLife(s.cells, th.oldHead, Listed))
    else Go(s, t, th.(at := th.at + 1))
  }

  function ReclaimStep(s: State, t: nat): State
    requires May(s, t) && s.threads[t].pc in {DeferLoad, DeferSwap, CountUp, ResetCount, TakeList, SweepNext, SweepScan}
  {
    var th := s.threads[t];
    if th.pc == DeferLoad then Go(s, t, th.(pc := DeferSwap, seen := HeadOf(s.shared)))
    else if th.pc == DeferSwap then
      if HeadOf(s.shared) == th.seen then
        Go(s, t, th.(pc := if th.sweeping then SweepNext else CountUp)).(shared := [th.item] + s.shared)
      else Go(s, t, th.(seen := HeadOf(s.shared)))
    else if th.pc == CountUp then
      Go(s, t, th.(pc := if s.count + 1 >= 2 * MAX_HAZARDS then ResetCount else Return)).(count := s.count + 1)
    else if th.pc == ResetCount then Go(s, t, th.(pc := TakeList)).(count := 0)
    else if th.pc == TakeList then Go(s, t, th.(pc := SweepNext, list := s.shared)).(shared := [])
    else if th.pc == SweepNext then
      if th.list == [] then Go(s, t, th.(pc := Return))
      else Go(s, t, th.(pc := SweepScan, at := 0, item := th.list[0], list := th.list[1..]))
    else if th.at == |s.slots| then
      Go(s, t, th.(pc := SweepNext)).(cells := WithLife(s.cells, th.item, Free))
    else if s.slots[th.at] == th.item then Go(s, t, th.(pc := DeferLoad, sweeping := true))
    else Go(s, t, th.(at := th.at + 1))
  }

  /** What a completed operation returns. */
  function Outcome(th: Thread, t: nat): Event {
    if th.pushing then Pushed(t, th.value) else if th.oldHead == NULL then FoundEmpty(t) else Popped(t, th.result)
  }

  function Step(s: State, t: nat): State
    requires May(s, t)
  {
    var th := s.threads[t];
    if th.pc in {PushLoad, PushSwap} then PushStep(s, t)
    else if th.pc in {DeferLoad, DeferSwap, CountUp, ResetCount, TakeList, SweepNext, SweepScan} then ReclaimStep(s, t)
    else if th.pc == Return then
      Go(s, t, th.(pc := Idle)).(done := s.done + [Done(Outcome(th, t), th.start, th.point, |s.log|)])
    else PopStep(s, t)
  }

  ghost predicate Next(s: State, s': State) {
    || (exists t: nat, value, a :: MayCall(s, t) && MayAllocate(s.cells, a) && s' == CallPush(s, t, value, a))
    || (exists t: nat :: MayCall(s, t) && s' == CallPop(s, t))
    || (exists t: nat :: May(s, t) && s' == Step(s, t))
  }

  // ---------------------------------------------------------------- a sequential stack

  /** The stack after the first `n` events, top first. */
  function Replay(log: seq<Event>, n: nat): seq<int>
    requires n <= |log|
  {
    if n == 0 then [] else
      var st := Replay(log, n - 1);
      match log[n - 1]
      case Pushed(_, v) => [v] + st
      case Popped(_, _) => if st == [] then [] else st[1..]
      case FoundEmpty(_) => st
  }

  /** What the event finds on the stack `st`. */
  predicate Suits(e: Event, st: seq<int>) {
    match e
    case Pushed(_, _) => true
    case Popped(_, v) => st != [] && st[0] == v
    case FoundEmpty(_) => st == []
  }

  /** Every pop takes what is then on top, and finds the stack empty only when it is. */
  ghost predicate Lifo(log: seq<Event>) {
    forall i {:trigger log[i]} :: 0 <= i < |log| ==> Suits(log[i], Replay(log, i))
  }
}

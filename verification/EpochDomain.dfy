/** The epoch-based reclamation domain (include/epoch_reclaim.hpp) as a step machine: any number of
    threads, one atomic load, store, exchange or read-modify-write a step, sequentially consistent
    memory, unbounded epochs.

    The client is told by a clock and by `gone`: which nodes it has made unreachable and at which tick.
    It may retire only nodes that are gone, each once. `since` and `floor` of a slot are history, read
    by no step: the tick and the global epoch when the slot last became active. */
module EpochDomain {
  const MAX_THREADS: nat := 128  // registry slots
  const THRESHOLD: nat := 128    // retirements between automatic passes
  const NONE: int := -1          // no owner, no slot, empty list, no limit

  datatype Slot = Slot(owner: int, announced: nat, active: bool, since: nat, floor: nat)

  /** A node handed to `retire`, with the epoch read there. */
  datatype Item = Item(node: int, epoch: nat)

  datatype PC =
    | Outside    // no guard
    | Claim      // about to try to own the slot at `at`
    | Bump       // about to advance the global epoch
    | Announce   // about to store the epoch in the slot
    | Activate   // about to set `active`
    | Inside     // the client runs
    | LoadEpoch  // retire: about to load the global epoch
    | LoadHead   // push_retired: about to load the head of the retired list
    | SwapHead   // push_retired: about to compare-and-swap the head
    | Count      // retire: about to count
    | Reset      // collect: about to clear the count
    | ScanActive // collect: about to load `active` of the slot at `at`
    | ScanEpoch  // collect: about to load the announced epoch of the slot at `at`
    | Take       // collect: about to take the whole list
    | Sweep      // collect: about to free or push back the next item
    | Disown     // about to give the slot back

  /** One thread: its slot, the loop index, the epoch it announces, the item it pushes, the head it
      expects there, the list it sweeps, and the least announced epoch it saw (or NONE). */
  datatype Thread = Thread(
    pc: PC, slot: int, at: nat, epoch: nat, item: Item, seen: int, sweeping: bool, list: seq<Item>, least: int)

  datatype State = State(
    slots: seq<Slot>, threads: seq<Thread>, global: nat, count: nat, shared: seq<Item>,
    gone: map<int, nat>, clock: nat, given: multiset<int>, freed: multiset<int>)

  ghost predicate Init(s: State) {
    && |s.slots| == MAX_THREADS && (forall j :: 0 <= j < |s.slots| ==> s.slots[j] == Slot(NONE, 0, false, 0, 0))
    && (forall t :: 0 <= t < |s.threads| ==> s.threads[t].pc == Outside && s.threads[t].list == [])
    && s.global == 0 && s.count == 0 && s.shared == [] && s.gone == map[] && s.clock == 0
    && s.given == multiset{} && s.freed == multiset{}
  }

  function Go(s: State, t: nat, th: Thread): State
    requires t < |s.threads|
  {
    s.(threads := s.threads[t := th])
  }

  // ---------------------------------------------------------------- the client's steps

  /** One tick of the client, in which the nodes `out` become unreachable. */
  function Tick(s: State, out: set<int>): State {
    s.(gone := s.gone + (map x | x in out :: s.clock), clock := s.clock + 1)
  }

  predicate MayTick(s: State, out: set<int>) {
    forall x :: x in out ==> x !in s.gone
  }

  predicate At(s: State, t: nat, pc: PC) {
    t < |s.threads| && s.threads[t].pc == pc
  }

  /** Constructing a guard. */
  function Enter(s: State, t: nat): State
    requires At(s, t, Outside)
  {
    Go(s, t, s.threads[t].(pc := Claim, slot := NONE, at := 0))
  }

  predicate OwnsSlot(s: State, t: nat) {
    t < |s.threads| && 0 <= s.threads[t].slot < |s.slots|
  }

  /** Destroying a guard, first half: `active` is cleared. */
  function Leave(s: State, t: nat): State
    requires At(s, t, Inside) && OwnsSlot(s, t)
  {
    var j := s.threads[t].slot;
    Go(s, t, s.threads[t].(pc := Disown)).(slots := s.slots[j := s.slots[j].(active := false)])
  }

  predicate MayRetire(s: State, t: nat, x: int) {
    At(s, t, Inside) && x in s.gone && x !in s.given
  }

  function Retire(s: State, t: nat, x: int): State
    requires At(s, t, Inside)
  {
    Go(s, t, s.threads[t].(pc := LoadEpoch, item := Item(x, 0), sweeping := false)).(given := s.given + multiset{x})
  }

  /** A call of `retire`, which is one of the client's steps and so a tick of its clock. */
  predicate Retires(s: State, t: nat, x: int, out: set<int>) {
    MayTick(s, out) && MayRetire(Tick(s, out), t, x)
  }

  /** A pass asked for by the client: inside its guard, or (the interface allows it) outside any. */
  function Collect(s: State, t: nat): State
    requires At(s, t, Inside) || At(s, t, Outside)
  {
    Go(s, t, s.threads[t].(pc := Reset, slot := if s.threads[t].pc == Outside then NONE else s.threads[t].slot))
  }

  // ---------------------------------------------------------------- the domain's steps

  function HeadOf(shared: seq<Item>): int { if shared == [] then NONE else shared[0].node }

  function Lower(least: int, e: nat): int { if least == NONE || e < least then e else least }

  predicate Expired(epoch: nat, least: int) { least == NONE || epoch < least }

  function Swept(s: State, th: Thread): Thread {
    th.(pc := if th.slot == NONE then Outside else Inside)
  }

  predicate May(s: State, t: nat) {
    && t < |s.threads| && s.threads[t].pc !in {Outside, Inside}
    && (s.threads[t].pc in {Announce, Activate, Disown} ==> OwnsSlot(s, t))
    && (s.threads[t].pc == ScanEpoch ==> s.threads[t].at < |s.slots|)
  }

  function Step(s: State, t: nat): State
    requires May(s, t)
  {
    var th := s.threads[t];
    match th.pc
    case Claim =>
      if th.at == |s.slots| then Go(s, t, th.(pc := Outside))  // no slot: the constructor throws
      else if th.at < |s.slots| && s.slots[th.at].owner == NONE then
        Go(s, t, th.(pc := Bump, slot := th.at)).(slots := s.slots[th.at := s.slots[th.at].(owner := t)])
      else Go(s, t, th.(at := th.at + 1))
    case Bump => Go(s, t, th.(pc := Announce, epoch := s.global + 1)).(global := s.global + 1)
    case Announce =>
      Go(s, t, th.(pc := Activate)).(slots := s.slots[th.slot := s.slots[th.slot].(announced := th.epoch)])
    case Activate =>
      Go(s, t, th.(pc := Inside)).(slots :=
        s.slots[th.slot := s.slots[th.slot].(active := true, since := s.clock, floor := s.global)])
    case LoadEpoch => Go(s, t, th.(pc := LoadHead, item := th.item.(epoch := s.global)))
    case LoadHead => Go(s, t, th.(pc := SwapHead, seen := HeadOf(s.shared)))
    case SwapHead =>
      if HeadOf(s.shared) == th.seen then
        Go(s, t, th.(pc := if th.sweeping then Sweep else Count)).(shared := [th.item] + s.shared)
      else Go(s, t, th.(seen := HeadOf(s.shared)))
    case Count =>
      Go(s, t, th.(pc := if s.count + 1 >= THRESHOLD then Reset else Inside)).(count := s.count + 1)
    case Reset => Go(s, t, th.(pc := ScanActive, at := 0, least := NONE)).(count := 0)
    case ScanActive =>
      if th.at >= |s.slots| then Go(s, t, th.(pc := Take))
      else if s.slots[th.at].active then Go(s, t, th.(pc := ScanEpoch))
      else Go(s, t, th.(at := th.at + 1))
    case ScanEpoch =>
      Go(s, t, th.(pc := ScanActive, at := th.at + 1, least := Lower(th.least, s.slots[th.at].announced)))
    case Take => Go(s, t, th.(pc := Sweep, list := s.shared)).(shared := [])
    case Sweep =>
      if th.list == [] then Go(s, t, Swept(s, th))
      else if Expired(th.list[0].epoch, th.least) then
        Go(s, t, th.(list := th.list[1..])).(freed := s.freed + multiset{th.list[0].node})
      else Go(s, t, th.(pc := LoadHead, item := th.list[0], sweeping := true, list := th.list[1..]))
    case Disown =>
      Go(s, t, th.(pc := Outside)).(slots := s.slots[th.slot := s.slots[th.slot].(owner := NONE)])
    case Outside => s
    case Inside => s
  }

  ghost predicate Next(s: State, s': State) {
    || (exists out :: MayTick(s, out) && s' == Tick(s, out))
    || (exists t: nat :: At(s, t, Outside) && s' == Enter(s, t))
    || (exists t: nat :: At(s, t, Inside) && OwnsSlot(s, t) && s' == Leave(s, t))
    || (exists t: nat, x, out :: Retires(s, t, x, out) && s' == Retire(Tick(s, out), t, x))
    || (exists t: nat :: (At(s, t, Inside) || At(s, t, Outside)) && s' == Collect(s, t))
    || (exists t: nat :: May(s, t) && s' == Step(s, t))
  }

  /** No pass runs outside a guard. */
  predicate CollectsGuarded(s: State) {
    forall t :: 0 <= t < |s.threads| && s.threads[t].pc in {Reset, ScanActive, ScanEpoch, Take, Sweep} ==>
      s.threads[t].slot != NONE
  }

  /** The guard of slot `j` may still use node `x`: it was not yet unreachable when the guard began. */
  predicate MayHold(s: State, j: int, x: int) {
    0 <= j < |s.slots| && s.slots[j].active && (x in s.gone ==> s.slots[j].since <= s.gone[x])
  }
}

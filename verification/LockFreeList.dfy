/** The Harris-Michael ordered set (include/lockfree_list.hpp) as a step machine: any number of
    threads, one atomic load or compare-and-swap a step, sequentially consistent memory.

    A node enters the heap at the compare-and-swap that publishes it (before that no other thread
    can see it) and addresses are never reused. `born`, `died` and `linked` are history, read by no
    step: the first state in which a node is present, the last state in which it is unmarked (or -1),
    and whether it still hangs on the list. States are numbered from 0; the number of a state is the
    number of steps taken before it. */
module LockFreeList {
  import opened SetHistory
  import opened Lifetimes

  const HEAD: int := 0
  const NIL: int := -1

  datatype Node = Node(key: int, next: int, marked: bool, born: int, died: int, linked: bool)

  function LifeOf(n: Node): Life { Life(n.key, n.born, n.died) }

  function Lives(ns: seq<Node>): (ls: seq<Life>)
    ensures |ls| == |ns| && forall r {:trigger ls[r]} :: 0 <= r < |ns| ==> ls[r] == LifeOf(ns[r])
  {
    seq(|ns|, r requires 0 <= r < |ns| => LifeOf(ns[r]))
  }

  datatype PC =
    | Idle          // between operations
    | Seek          // about to load the head's next pointer
    | Check         // about to validate that curr still follows pred
    | Read          // about to load curr's next pointer
    | Unlink        // curr is marked: about to swing pred past it
    | Reclaim       // about to retire the node just unlinked while traversing
    | Link          // insert: about to swing pred to the new node
    | ReadVictim    // erase: about to load the victim's next pointer
    | Mark          // erase: about to mark the victim
    | Detach        // erase: about to swing pred past the victim
    | ReclaimVictim // erase: about to retire the victim
    | Return        // about to return result

  /** One thread: its operation, the locals of `find` and `erase`, the node it still has to retire,
      and two history variables: the state in which the operation began and the state that justifies
      its answer. */
  datatype Thread = Thread(
    pc: PC, op: Op, key: int, pred: int, curr: int, next: int, victim: int, result: bool,
    start: nat, point: nat)

  datatype State = State(
    nodes: seq<Node>, threads: seq<Thread>, retired: multiset<int>,
    effects: seq<Effect>, done: seq<Record>)

  function Now(s: State): nat { |s.effects| }

  ghost predicate Init(s: State) {
    && s.nodes == [Node(0, NIL, false, -1, -1, true)]
    && (forall t :: 0 <= t < |s.threads| ==> s.threads[t].pc == Idle && s.threads[t].victim == NIL)
    && s.retired == multiset{} && s.effects == [] && s.done == []
  }

  // ---------------------------------------------------------------- steps

  function Local(s: State, t: nat, th: Thread): State
    requires t < |s.threads|
  {
    s.(threads := s.threads[t := th], effects := s.effects + [Quiet])
  }

  function Heap(s: State, t: nat, th: Thread, nodes: seq<Node>, e: Effect): State
    requires t < |s.threads|
  {
    s.(nodes := nodes, threads := s.threads[t := th], effects := s.effects + [e])
  }

  function Invoke(s: State, t: nat, op: Op, key: int): State
    requires t < |s.threads|
  {
    Local(s, t, Thread(Seek, op, key, HEAD, NIL, NIL, NIL, false, Now(s) + 1, 0))
  }

  /** What each operation does with the answer of `find`. */
  function AfterFind(th: Thread, present: bool, now: nat): Thread {
    match th.op
    case Contains => th.(pc := Return, result := present, point := if present then now else th.point)
    case Insert => if present then th.(pc := Return, result := false, point := now) else th.(pc := Link)
    case Erase => if present then th.(pc := ReadVictim) else th.(pc := Return, result := false)
  }

  predicate Runnable(s: State, t: nat) {
    t < |s.threads| && s.threads[t].pc != Idle
    && 0 <= s.threads[t].pred < |s.nodes|
    && (s.threads[t].pc in {Read, Unlink, ReadVictim, Mark, Detach} ==> 0 <= s.threads[t].curr < |s.nodes|)
    && |s.nodes| > 0
  }

  function Advance(s: State, t: nat): State
    requires Runnable(s, t)
  {
    var th := s.threads[t];
    var pred := s.nodes[th.pred];
    match th.pc
    case Seek =>
      Local(s, t, th.(pc := Check, pred := HEAD, curr := s.nodes[HEAD].next, point := Now(s)))
    case Check =>
      if th.curr == NIL then Local(s, t, AfterFind(th, false, Now(s)))
      else if pred.next != th.curr then Local(s, t, th.(pc := Seek))
      else Local(s, t, th.(pc := Read))
    case Read =>
      var c := s.nodes[th.curr];
      if c.marked then Local(s, t, th.(pc := Unlink, next := c.next))
      else if c.key < th.key then
        Local(s, t, th.(pc := Check, pred := th.curr, curr := c.next, point := Now(s)))
      else Local(s, t, AfterFind(th, c.key == th.key, Now(s)))
    case Unlink =>
      if pred.next == th.curr && !pred.marked then
        Heap(s, t, th.(pc := Reclaim, victim := th.curr, curr := th.next, point := Now(s) + 1),
             Swing(s.nodes, th.pred, th.curr, th.next), Quiet)
      else Local(s, t, th.(pc := Seek))
    case Reclaim =>
      Local(s, t, th.(pc := Check, victim := NIL)).(retired := s.retired + multiset{th.victim})
    case Link =>
      if pred.next == th.curr && !pred.marked then
        Heap(s, t, th.(pc := Return, result := true, point := Now(s)),
             s.nodes[th.pred := pred.(next := |s.nodes|)]
             + [Node(th.key, th.curr, false, Now(s) + 1, -1, true)],
             Added(t, th.key))
      else Local(s, t, th.(pc := Seek))
    case ReadVictim =>
      Local(s, t, th.(pc := Mark, next := s.nodes[th.curr].next))
    case Mark =>
      var c := s.nodes[th.curr];
      if c.next == th.next && !c.marked then
        Heap(s, t, th.(pc := Detach, result := true, point := Now(s)),
             s.nodes[th.curr := c.(marked := true, died := Now(s))], Removed(t, th.key))
      else Local(s, t, th.(pc := Seek))
    case Detach =>
      if pred.next == th.curr && !pred.marked then
        Heap(s, t, th.(pc := ReclaimVictim, victim := th.curr),
             Swing(s.nodes, th.pred, th.curr, th.next), Quiet)
      else Local(s, t, th.(pc := Return))
    case ReclaimVictim =>
      Local(s, t, th.(pc := Return, victim := NIL)).(retired := s.retired + multiset{th.victim})
    case Return =>
      Local(s, t, th.(pc := Idle)).(done :=
        s.done + [Record(t, th.op, th.key, th.result, th.start, th.point, Now(s))])
    case Idle => s
  }

  /** Swings `pred` past `curr`: the physical unlink. */
  function Swing(nodes: seq<Node>, pred: int, curr: int, next: int): seq<Node>
    requires 0 <= pred < |nodes| && 0 <= curr < |nodes|
  {
    var ns := nodes[pred := nodes[pred].(next := next)];
    ns[curr := ns[curr].(linked := false)]
  }

  ghost predicate Next(s: State, s': State) {
    || (exists t: nat, op, key ::
          t < |s.threads| && s.threads[t].pc == Idle && s' == Invoke(s, t, op, key))
    || (exists t: nat :: Runnable(s, t) && s' == Advance(s, t))
  }
}

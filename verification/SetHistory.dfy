/** Histories of a concurrent set: what operations were asked, what they answered and when. A history
    in which every answer is justified by a state inside the operation is shown to be linearizable. */
module SetHistory {
  datatype Op = Insert | Erase | Contains

  /** What one step did to the abstract set. */
  datatype Effect = Quiet | Added(who: nat, key: int) | Removed(who: nat, key: int)

  /** A completed operation: it ran from state `start` to state `end`, and `point` is the state that
      justifies its answer. */
  datatype Record = Record(who: nat, op: Op, key: int, result: bool, start: nat, point: nat, end: nat)

  /** The set after the first `i` steps. */
  function SetAt(effects: seq<Effect>, i: nat): set<int>
    requires i <= |effects|
  {
    if i == 0 then {} else
      match effects[i - 1]
      case Quiet => SetAt(effects, i - 1)
      case Added(_, key) => SetAt(effects, i - 1) + {key}
      case Removed(_, key) => SetAt(effects, i - 1) - {key}
  }

  lemma {:induction false} SetAtPrefix(e: seq<Effect>, f: seq<Effect>, i: nat)
    requires i <= |e| <= |f| && f[..|e|] == e
    ensures SetAt(e, i) == SetAt(f, i)
  {
    if i > 0 {
      SetAtPrefix(e, f, i - 1);
      assert f[i - 1] == f[..|e|][i - 1];
    }
  }

  predicate Writes(op: Op, result: bool) { op != Contains && result }

  /** The answer holds in state `point`; a successful insert or erase is the step from `point`. */
  predicate Answers(effects: seq<Effect>, who: nat, op: Op, key: int, result: bool, point: nat) {
    && point <= |effects|
    && match op
       case Contains => (key in SetAt(effects, point)) == result
       case Insert => if result then point < |effects| && effects[point] == Added(who, key) else key in SetAt(effects, point)
       case Erase => if result then point < |effects| && effects[point] == Removed(who, key) else key !in SetAt(effects, point)
  }

  /** Effects add absent keys and remove present ones, every answer is justified inside its
      operation, and the operations of one thread do not overlap. */
  ghost predicate Explained(effects: seq<Effect>, done: seq<Record>) {
    && (forall i :: 0 <= i < |effects| ==>
          && (effects[i].Added? ==> effects[i].key !in SetAt(effects, i))
          && (effects[i].Removed? ==> effects[i].key in SetAt(effects, i)))
    && (forall d :: d in done ==>
          d.start <= d.point <= d.end && Answers(effects, d.who, d.op, d.key, d.result, d.point))
    && (forall i, j :: 0 <= i < j < |done| && done[i].who == done[j].who ==> done[i].end < done[j].start)
  }

  /** Operation `d` found the set `before` and left it as `after`. */
  predicate Meets(d: Record, before: set<int>, after: set<int>) {
    if !Writes(d.op, d.result) then after == before && (d.key in before <==> (d.op == Insert || d.result))
    else if d.op == Insert then d.key !in before && after == before + {d.key}
    else d.key in before && after == before - {d.key}
  }

  /** A look meets the set in its point; a write meets the sets before and after its step. */
  lemma AnswerMeets(effects: seq<Effect>, done: seq<Record>, d: Record)
    requires Explained(effects, done) && d in done
    ensures d.start <= d.point <= d.end && d.point <= |effects|
    ensures Writes(d.op, d.result) ==> d.point < |effects|
    ensures Meets(d, SetAt(effects, d.point), SetAt(effects, if Writes(d.op, d.result) then d.point + 1 else d.point))
  {
    if Writes(d.op, d.result) {
      assert effects[d.point].Added? || effects[d.point].Removed?;
    }
  }

  // ---------------------------------------------------------------- a sequential history

  /** An entry of the sequential history: a completed operation that changed nothing, or the change
      made by step `point`, whose operation may not have returned yet. */
  datatype Entry = Look(index: nat, point: nat) | Change(point: nat)

  predicate LooksAt(done: seq<Record>, i: nat, p: nat) {
    i < |done| && done[i].point == p && !Writes(done[i].op, done[i].result)
  }

  function Looks(done: seq<Record>, p: nat, n: nat): seq<Entry>
    requires n <= |done|
  {
    if n == 0 then [] else Looks(done, p, n - 1) + if LooksAt(done, n - 1, p) then [Look(n - 1, p)] else []
  }

  predicate Changes(effects: seq<Effect>, p: nat) { p < |effects| && effects[p] != Quiet }

  /** What happens at state `p`: the looks, then the change. */
  function Chunk(effects: seq<Effect>, done: seq<Record>, p: nat): seq<Entry> {
    Looks(done, p, |done|) + if Changes(effects, p) then [Change(p)] else []
  }

  function Sequential(effects: seq<Effect>, done: seq<Record>, p: nat): seq<Entry> {
    if p == 0 then [] else Sequential(effects, done, p - 1) + Chunk(effects, done, p - 1)
  }

  function Linearization(effects: seq<Effect>, done: seq<Record>): seq<Entry> {
    Sequential(effects, done, |effects| + 1)
  }

  // ---------------------------------------------------------------- it is legal

  function Apply(effects: seq<Effect>, e: Entry, m: set<int>): set<int> {
    if e.Look? || e.point >= |effects| then m else
      match effects[e.point]
      case Quiet => m
      case Added(_, key) => m + {key}
      case Removed(_, key) => m - {key}
  }

  function Outcome(effects: seq<Effect>, h: seq<Entry>): set<int> {
    if h == [] then {} else Apply(effects, h[|h| - 1], Outcome(effects, h[..|h| - 1]))
  }

  /** The sequential set answers entry `e` as the operation was answered when it finds the set `m`. */
  predicate Fits(effects: seq<Effect>, done: seq<Record>, e: Entry, m: set<int>) {
    match e
    case Look(i, _) =>
      && i < |done| && !Writes(done[i].op, done[i].result)
      && (match done[i].op
          case Contains => done[i].result == (done[i].key in m)
          case Insert => done[i].key in m
          case Erase => done[i].key !in m)
    case Change(p) =>
      Changes(effects, p) && (effects[p].Added? <==> effects[p].key !in m)
  }

  /** Replayed from the empty set, every entry fits. */
  predicate Legal(effects: seq<Effect>, done: seq<Record>, h: seq<Entry>) {
    h == [] || (Legal(effects, done, h[..|h| - 1]) && Fits(effects, done, h[|h| - 1], Outcome(effects, h[..|h| - 1])))
  }

  lemma LegalSnoc(effects: seq<Effect>, done: seq<Record>, h: seq<Entry>, e: Entry)
    requires Legal(effects, done, h) && Fits(effects, done, e, Outcome(effects, h))
    ensures Legal(effects, done, h + [e]) && Outcome(effects, h + [e]) == Apply(effects, e, Outcome(effects, h))
  {
    assert (h + [e])[..|h|] == h;
  }

  lemma LookFits(effects: seq<Effect>, done: seq<Record>, i: nat, p: nat)
    requires Explained(effects, done) && LooksAt(done, i, p)
    ensures p <= |effects| && Fits(effects, done, Look(i, p), SetAt(effects, p))
  {
    assert done[i] in done;
  }

  lemma Regroup(h: seq<Entry>, a: seq<Entry>, b: seq<Entry>)
    ensures h + (a + b) == (h + a) + b && h + [] == h
  {
  }

  /** `h` is legal and leaves the set of state `p`. */
  predicate Reaches(effects: seq<Effect>, done: seq<Record>, h: seq<Entry>, p: nat) {
    p <= |effects| && Legal(effects, done, h) && Outcome(effects, h) == SetAt(effects, p)
  }

  lemma ReachesLook(effects: seq<Effect>, done: seq<Record>, h: seq<Entry>, p: nat, i: nat)
    requires Explained(effects, done) && Reaches(effects, done, h, p) && LooksAt(done, i, p)
    ensures Reaches(effects, done, h + [Look(i, p)], p)
  {
    LookFits(effects, done, i, p);
    LegalSnoc(effects, done, h, Look(i, p));
  }

  lemma ReachesNext(effects: seq<Effect>, done: seq<Record>, h: seq<Entry>, p: nat)
    requires Explained(effects, done) && Reaches(effects, done, h, p) && p < |effects|
    ensures Reaches(effects, done, if Changes(effects, p) then h + [Change(p)] else h, p + 1)
  {
    if Changes(effects, p) {
      LegalSnoc(effects, done, h, Change(p));
    }
  }

  lemma {:induction false} LegalLooks(effects: seq<Effect>, done: seq<Record>, h: seq<Entry>, p: nat, n: nat)
    requires Explained(effects, done) && n <= |done| && Reaches(effects, done, h, p)
    ensures Reaches(effects, done, h + Looks(done, p, n), p)
  {
    hide Reaches, Explained;
    if n == 0 {
      Regroup(h, [], []);
    } else {
      LegalLooks(effects, done, h, p, n - 1);
      var more := if LooksAt(done, n - 1, p) then [Look(n - 1, p)] else [];
      assert Looks(done, p, n) == Looks(done, p, n - 1) + more;
      hide Looks;
      Regroup(h, Looks(done, p, n - 1), more);
      Regroup(h + Looks(done, p, n - 1), [], []);
      if LooksAt(done, n - 1, p) {
        ReachesLook(effects, done, h + Looks(done, p, n - 1), p, n - 1);
      }
    }
  }

  lemma LegalChunk(effects: seq<Effect>, done: seq<Record>, h: seq<Entry>, p: nat)
    requires Explained(effects, done) && Reaches(effects, done, h, p)
    ensures Reaches(effects, done, h + Chunk(effects, done, p), if p < |effects| then p + 1 else p)
  {
    LegalLooks(effects, done, h, p, |done|);
    var f, more := Looks(done, p, |done|), if Changes(effects, p) then [Change(p)] else [];
    assert Chunk(effects, done, p) == f + more && (Changes(effects, p) ==> p < |effects|);
    hide Looks, Chunk, Changes, Reaches, Explained;
    Regroup(h, f, more);
    Regroup(h + f, [], []);
    if p < |effects| {
      ReachesNext(effects, done, h + f, p);
    }
  }

  lemma {:induction false} LegalSequential(effects: seq<Effect>, done: seq<Record>, p: nat)
    requires Explained(effects, done) && p <= |effects| + 1
    ensures Reaches(effects, done, Sequential(effects, done, p), if p <= |effects| then p else |effects|)
  {
    if p > 0 {
      hide Explained, Chunk, Reaches;
      LegalSequential(effects, done, p - 1);
      LegalChunk(effects, done, Sequential(effects, done, p - 1), p - 1);
    }
  }

  // ---------------------------------------------------------------- it is complete and in order

  /** `e` belongs to the history: a look of a completed operation, or a change. */
  predicate Belongs(effects: seq<Effect>, done: seq<Record>, e: Entry) {
    if e.Look? then LooksAt(done, e.index, e.point) else Changes(effects, e.point)
  }

  ghost predicate Distinct(h: seq<Entry>) {
    forall a, b :: 0 <= a < b < |h| ==> h[a].point <= h[b].point && h[a] != h[b]
  }

  lemma LooksMembers(done: seq<Record>, p: nat, n: nat)
    requires n <= |done|
    ensures forall e :: e in Looks(done, p, n) <==> e.Look? && e.point == p && e.index < n && LooksAt(done, e.index, p)
    ensures Distinct(Looks(done, p, n))
  {
  }

  lemma ChunkMembers(effects: seq<Effect>, done: seq<Record>, p: nat)
    ensures forall e :: e in Chunk(effects, done, p) <==> e.point == p && Belongs(effects, done, e)
    ensures Distinct(Chunk(effects, done, p))
  {
    LooksMembers(done, p, |done|);
  }

  lemma DistinctAppend(f: seq<Entry>, c: seq<Entry>, p: int)
    requires Distinct(f) && Distinct(c)
    requires (forall e :: e in f ==> e.point < p) && (forall e :: e in c ==> e.point == p)
    ensures Distinct(f + c)
  {
    var h := f + c;
    forall a, b | 0 <= a < b < |h| ensures h[a].point <= h[b].point && h[a] != h[b] {
      if a < |f| <= b {
        assert h[a] in f && h[b] in c;
      }
    }
  }

  lemma {:induction false} SequentialMembers(effects: seq<Effect>, done: seq<Record>, p: nat)
    ensures forall e :: e in Sequential(effects, done, p) <==> e.point < p && Belongs(effects, done, e)
    ensures Distinct(Sequential(effects, done, p))
  {
    if p > 0 {
      SequentialMembers(effects, done, p - 1);
      ChunkMembers(effects, done, p - 1);
      var f, c := Sequential(effects, done, p - 1), Chunk(effects, done, p - 1);
      assert Sequential(effects, done, p) == f + c;
      hide Chunk, Sequential, Belongs, Distinct;
      assert forall e :: e in f + c <==> e in f || e in c;
      DistinctAppend(f, c, p - 1);
    }
  }

  /** Position `a` of the history `h` holds completed operation `i`. */
  predicate Places(done: seq<Record>, h: seq<Entry>, i: nat, a: nat) {
    && i < |done| && a < |h|
    && h[a] == if Writes(done[i].op, done[i].result) then Change(done[i].point) else Look(i, done[i].point)
  }

  ghost predicate Placed(done: seq<Record>, h: seq<Entry>, i: nat) {
    exists a: nat :: Places(done, h, i, a)
  }

  lemma EveryPlaced(effects: seq<Effect>, done: seq<Record>, i: nat)
    requires Explained(effects, done) && i < |done|
    ensures Placed(done, Linearization(effects, done), i)
  {
    var h, d := Linearization(effects, done), done[i];
    SequentialMembers(effects, done, |effects| + 1);
    assert d in done;
    var e := if Writes(d.op, d.result) then Change(d.point) else Look(i, d.point);
    assert e in h;
    var a :| 0 <= a < |h| && h[a] == e;
    assert Places(done, h, i, a);
  }

  lemma PlacesOrdered(effects: seq<Effect>, done: seq<Record>, i: nat, j: nat, a: nat, b: nat)
    requires Explained(effects, done)
    requires Places(done, Linearization(effects, done), i, a) && Places(done, Linearization(effects, done), j, b)
    ensures i == j <==> a == b
    ensures done[i].end < done[j].start ==> a < b
  {
    SequentialMembers(effects, done, |effects| + 1);
    assert done[i] in done && done[j] in done;
  }

  /** Linearizability: the completed operations, with the changes of operations still running, form
      one sequential history that is legal from the empty set, holds every completed operation at
      exactly one place, no two at the same place, and keeps real-time order. */
  lemma Linearizable(effects: seq<Effect>, done: seq<Record>)
    requires Explained(effects, done)
    ensures Legal(effects, done, Linearization(effects, done))
    ensures Outcome(effects, Linearization(effects, done)) == SetAt(effects, |effects|)
    ensures forall i: nat :: i < |done| ==> Placed(done, Linearization(effects, done), i)
    ensures forall i: nat, j: nat, a: nat, b: nat ::
              Places(done, Linearization(effects, done), i, a) && Places(done, Linearization(effects, done), j, b) ==>
                (i == j <==> a == b) && (done[i].end < done[j].start ==> a < b)
  {
    LegalSequential(effects, done, |effects| + 1);
    forall i: nat | i < |done| ensures Placed(done, Linearization(effects, done), i) {
      EveryPlaced(effects, done, i);
    }
    forall i: nat, j: nat, a: nat, b: nat |
      Places(done, Linearization(effects, done), i, a) && Places(done, Linearization(effects, done), j, b)
      ensures (i == j <==> a == b) && (done[i].end < done[j].start ==> a < b)
    {
      PlacesOrdered(effects, done, i, j, a, b);
    }
  }
}

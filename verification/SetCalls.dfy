/** From answers that are right about some state inside their operation to linearizability over the calls. A
    concurrent set is looked at as a sequence of views: which thread is inside which operation and has changed the
    set in it, what each step did to the set, and which operations are complete. */
module SetCalls {
  import opened SetHistory
  import opened Linearizability

  datatype Query = Query(op: Op, key: int)

  type SetLabel = Label<Query, bool>

  /** The sequential set. */
  function SetSpec(m: set<int>, q: Query): (set<int>, bool) {
    match q.op
    case Insert => (m + {q.key}, q.key !in m)
    case Erase => (m - {q.key}, q.key in m)
    case Contains => (m, q.key in m)
  }

  datatype Status = Free | Busy(op: Op, key: int, start: nat, changed: bool)

  datatype View = View(threads: seq<Status>, effects: seq<Effect>, done: seq<Record>)

  // ---------------------------------------------------------------- steps

  predicate Inside(v: View, t: nat) { t < |v.threads| && v.threads[t].Busy? }

  predicate Calls(v: View, t: nat, q: Query, v': View) {
    && t < |v.threads| && v.threads[t] == Free
    && v' == View(v.threads[t := Busy(q.op, q.key, |v.effects| + 1, false)], v.effects + [Quiet], v.done)
  }

  /** A step inside an operation changes the set at most once in it, and only as the operation asks. */
  predicate Moves(v: View, t: nat, v': View) {
    && Inside(v, t)
    && var b := v.threads[t];
       || v' == View(v.threads, v.effects + [Quiet], v.done)
       || (!b.changed && b.op == Insert && v' == View(v.threads[t := b.(changed := true)], v.effects + [Added(t, b.key)], v.done))
       || (!b.changed && b.op == Erase && v' == View(v.threads[t := b.(changed := true)], v.effects + [Removed(t, b.key)], v.done))
  }

  predicate Returns(v: View, t: nat, answer: bool, point: nat, v': View) {
    && Inside(v, t)
    && var b := v.threads[t];
       && (b.op != Contains ==> answer == b.changed)
       && v' == View(v.threads[t := Free], v.effects + [Quiet],
                     v.done + [Record(t, b.op, b.key, answer, b.start, point, |v.effects|)])
  }

  ghost predicate Follows(v: View, l: SetLabel, v': View) {
    match l
    case Call(t, q) => Calls(v, t, q, v')
    case Own(t) => Moves(v, t, v')
    case Return(t, answer) => exists point: nat :: Returns(v, t, answer, point, v')
  }

  ghost predicate FollowsAt(views: seq<View>, labels: seq<SetLabel>, i: int) {
    0 <= i < |labels| && i + 1 < |views| && Follows(views[i], labels[i], views[i + 1])
  }

  ghost predicate Trace(views: seq<View>, labels: seq<SetLabel>) {
    && |views| == |labels| + 1
    && (forall t :: 0 <= t < |views[0].threads| ==> views[0].threads[t] == Free)
    && views[0].effects == [] && views[0].done == []
    && forall i :: 0 <= i < |labels| ==> FollowsAt(views, labels, i)
  }

  // ---------------------------------------------------------------- what a trace keeps

  ghost predicate ThreadOk(views: seq<View>, labels: seq<SetLabel>, i: nat, t: nat)
    requires i < |views| && i <= |labels|
  {
    && (Inside(views[i], t) <==> Pending(labels, t, i))
    && (Inside(views[i], t) ==>
          var b := views[i].threads[t];
          && 1 <= b.start <= i && CallOf(labels, t, i) == b.start - 1
          && labels[b.start - 1] == Call(t, Query(b.op, b.key)))
  }

  lemma StepShape(v: View, l: SetLabel, v': View)
    requires Follows(v, l, v')
    ensures |v'.threads| == |v.threads| && |v'.effects| == |v.effects| + 1 && v'.effects[..|v.effects|] == v.effects
    ensures |v.done| <= |v'.done| && v'.done[..|v.done|] == v.done
    ensures l.who < |v.threads| && forall t :: 0 <= t < |v.threads| && t != l.who ==> v'.threads[t] == v.threads[t]
  {
  }

  lemma {:induction false} ThreadsFit(views: seq<View>, labels: seq<SetLabel>, i: nat)
    requires Trace(views, labels) && i <= |labels|
    ensures |views[i].effects| == i && |views[i].threads| == |views[0].threads|
    ensures forall t: nat :: ThreadOk(views, labels, i, t)
  {
    if i > 0 {
      ThreadsFit(views, labels, i - 1);
      assert FollowsAt(views, labels, i - 1);
      StepShape(views[i - 1], labels[i - 1], views[i]);
      forall t: nat ensures ThreadOk(views, labels, i, t) {
        assert ThreadOk(views, labels, i - 1, t);
      }
    }
  }

  lemma IsWellFormed(views: seq<View>, labels: seq<SetLabel>)
    requires Trace(views, labels)
    ensures WellFormed(labels)
  {
    forall i | 0 <= i < |labels| ensures labels[i].Call? <==> !Pending(labels, labels[i].who, i) {
      ThreadsFit(views, labels, i);
      assert FollowsAt(views, labels, i) && ThreadOk(views, labels, i, labels[i].who);
    }
  }

  lemma {:induction false} EffectsGrow(views: seq<View>, labels: seq<SetLabel>, i: nat, j: nat)
    requires Trace(views, labels) && i <= j <= |labels|
    ensures |views[i].effects| == i && |views[j].effects| == j && views[j].effects[..i] == views[i].effects
    ensures |views[i].done| <= |views[j].done| && views[j].done[..|views[i].done|] == views[i].done
  {
    ThreadsFit(views, labels, i);
    if i < j {
      EffectsGrow(views, labels, i, j - 1);
      assert FollowsAt(views, labels, j - 1);
      hide Follows;
      StepShape(views[j - 1], labels[j - 1], views[j]);
      assert views[j].effects[..i] == views[j].effects[..j - 1][..i];
      assert views[j].done[..|views[i].done|] == views[j].done[..|views[j - 1].done|][..|views[i].done|];
    }
  }

  // ---------------------------------------------------------------- records are calls that returned

  /** Throughout record `d` its thread is inside the operation, which step `d.end` returns from. */
  ghost predicate RecordFits(views: seq<View>, labels: seq<SetLabel>, d: Record)
    requires |views| == |labels| + 1
  {
    && 1 <= d.start <= d.end < |labels|
    && labels[d.end] == Return(d.who, d.result) && labels[d.start - 1] == Call(d.who, Query(d.op, d.key))
    && CallOf(labels, d.who, d.end) == d.start - 1
    && Inside(views[d.end], d.who)
    && var b := views[d.end].threads[d.who];
       b.start == d.start && b.op == d.op && b.key == d.key && (d.op != Contains ==> d.result == b.changed)
  }

  lemma {:induction false} RecordsFit(views: seq<View>, labels: seq<SetLabel>, i: nat, n: nat)
    requires Trace(views, labels) && i <= |labels| && n < |views[i].done|
    ensures RecordFits(views, labels, views[i].done[n]) && views[i].done[n].end < i
  {
    var j := i - 1;
    assert FollowsAt(views, labels, j);
    ThreadsFit(views, labels, j);
    assert ThreadOk(views, labels, j, labels[j].who);
    if n < |views[j].done| {
      RecordsFit(views, labels, j, n);
      hide Follows;
      StepShape(views[j], labels[j], views[i]);
      assert views[i].done[n] == views[i].done[..|views[j].done|][n];
    }
  }

  /** Every return left its record. */
  lemma ReturnRecorded(views: seq<View>, labels: seq<SetLabel>, e: nat) returns (n: nat)
    requires Trace(views, labels) && e < |labels| && labels[e].Return?
    ensures n < |views[|labels|].done|
    ensures var d := views[|labels|].done[n]; d.end == e && d.who == labels[e].who && d.result == labels[e].answer
  {
    assert FollowsAt(views, labels, e);
    ThreadsFit(views, labels, e);
    n := |views[e].done|;
    EffectsGrow(views, labels, e + 1, |labels|);
    assert views[|labels|].done[n] == views[|labels|].done[..|views[e + 1].done|][n];
  }

  /** Every record is an operation that was called and has returned, with the arguments given and the answer
      returned, and every return left its record. */
  ghost predicate Recorded(labels: seq<SetLabel>, done: seq<Record>) {
    && (forall n {:trigger done[n]} :: 0 <= n < |done| ==> RecordsCall(labels, done[n]))
    && forall e {:trigger labels[e]} :: 0 <= e < |labels| && labels[e].Return? ==> HasRecord(labels, done, e)
  }

  ghost predicate RecordsCall(labels: seq<SetLabel>, d: Record) {
    && 1 <= d.start <= d.end < |labels|
    && labels[d.start - 1] == Call(d.who, Query(d.op, d.key)) && labels[d.end] == Return(d.who, d.result)
    && CallOf(labels, d.who, d.end) == d.start - 1
  }

  ghost predicate HasRecord(labels: seq<SetLabel>, done: seq<Record>, e: nat)
    requires e < |labels| && labels[e].Return?
  {
    exists n: nat :: n < |done| && done[n].end == e && done[n].who == labels[e].who && done[n].result == labels[e].answer
  }

  lemma CallsRecorded(views: seq<View>, labels: seq<SetLabel>)
    requires Trace(views, labels)
    ensures Recorded(labels, views[|labels|].done)
  {
    var done := views[|labels|].done;
    forall n | 0 <= n < |done| ensures RecordsCall(labels, done[n]) {
      RecordsFit(views, labels, |labels|, n);
    }
    forall e | 0 <= e < |labels| && labels[e].Return? ensures HasRecord(labels, done, e) {
      var n := ReturnRecorded(views, labels, e);
    }
  }

  // ---------------------------------------------------------------- a call changes the set at most once

  predicate ChangeAt(effects: seq<Effect>, p: nat) { p < |effects| && !effects[p].Quiet? }

  /** Step `p` changes the set for the operation its thread is in, and not again. */
  lemma ChangeIsAsked(views: seq<View>, labels: seq<SetLabel>, p: nat)
    requires Trace(views, labels) && ChangeAt(views[|labels|].effects, p)
    ensures var e := views[|labels|].effects[p]; p < |labels| && labels[p] == Own(e.who) && Inside(views[p], e.who)
    ensures var e := views[|labels|].effects[p]; var b := views[p].threads[e.who];
      && !b.changed && b.key == e.key && b.op == (if e.Added? then Insert else Erase)
      && p + 1 < |views| && Inside(views[p + 1], e.who) && views[p + 1].threads[e.who] == b.(changed := true)
  {
    EffectsGrow(views, labels, |labels|, |labels|);
    EffectsGrow(views, labels, p + 1, |labels|);
    ThreadsFit(views, labels, p);
    assert FollowsAt(views, labels, p);
    assert views[|labels|].effects[p] == views[|labels|].effects[..p + 1][p] == views[p + 1].effects[p];
  }

  /** Once the operation has changed the set it stays so until it returns. */
  lemma {:induction false} ChangeSticks(views: seq<View>, labels: seq<SetLabel>, t: nat, i: nat, j: nat)
    requires Trace(views, labels) && i <= j <= |labels| && Inside(views[i], t) && Inside(views[j], t)
    requires views[i].threads[t].start == views[j].threads[t].start
    ensures views[i].threads[t].changed ==> views[j].threads[t].changed
    ensures views[j].threads[t].op == views[i].threads[t].op
  {
    if i < j {
      ThreadsFit(views, labels, j - 1);
      ThreadsFit(views, labels, i);
      assert ThreadOk(views, labels, j - 1, t) && ThreadOk(views, labels, i, t);
      assert FollowsAt(views, labels, j - 1);
      StepShape(views[j - 1], labels[j - 1], views[j]);
      ChangeSticks(views, labels, t, i, j - 1);
    }
  }

  lemma ChangesOnce(views: seq<View>, labels: seq<SetLabel>, p: nat, q: nat)
    requires Trace(views, labels) && p < q && ChangeAt(views[|labels|].effects, p) && ChangeAt(views[|labels|].effects, q)
    requires views[|labels|].effects[p].who == views[|labels|].effects[q].who
    ensures var t := views[|labels|].effects[p].who;
      p < |views| && q < |views| && Inside(views[p], t) && Inside(views[q], t) && views[p].threads[t].start != views[q].threads[t].start
  {
    ChangeIsAsked(views, labels, p);
    ChangeIsAsked(views, labels, q);
    var t := views[|labels|].effects[p].who;
    if views[p].threads[t].start == views[q].threads[t].start { ChangeSticks(views, labels, t, p + 1, q); }
  }

  /** Inside record `d` the thread is in the record's operation. */
  lemma {:induction false} InsideRecord(views: seq<View>, labels: seq<SetLabel>, d: Record, i: nat)
    requires Trace(views, labels) && RecordFits(views, labels, d) && d.start <= i <= d.end
    ensures Inside(views[i], d.who) && views[i].threads[d.who].start == d.start
    decreases d.end - i
  {
    ThreadsFit(views, labels, i);
    ThreadsFit(views, labels, d.end);
    assert ThreadOk(views, labels, d.end, d.who);
    if i < d.end {
      InsideRecord(views, labels, d, i + 1);
      assert FollowsAt(views, labels, i);
      StepShape(views[i], labels[i], views[i + 1]);
    }
  }

  // ---------------------------------------------------------------- the sequential history of calls

  function TurnOf(views: seq<View>, v: View, e: Entry): Turn<bool> {
    match e
    case Look(n, _) => if n < |v.done| then Turn(if v.done[n].start > 0 then v.done[n].start - 1 else 0, v.done[n].result) else Turn(0, false)
    case Change(p) =>
      if p < |views| && Changes(v.effects, p) && Inside(views[p], v.effects[p].who) && views[p].threads[v.effects[p].who].start > 0
      then Turn(views[p].threads[v.effects[p].who].start - 1, true) else Turn(0, false)
  }

  function Turns(views: seq<View>, v: View, h: seq<Entry>): (turns: seq<Turn<bool>>)
    ensures |turns| == |h| && forall a {:trigger turns[a]} :: 0 <= a < |h| ==> turns[a] == TurnOf(views, v, h[a])
  {
    if h == [] then [] else Turns(views, v, h[..|h| - 1]) + [TurnOf(views, v, h[|h| - 1])]
  }

  /** The operation an entry speaks of, and the states it lies in. */
  lemma TurnFits(views: seq<View>, labels: seq<SetLabel>, e: Entry)
    requires Trace(views, labels) && Belongs(views[|labels|].effects, views[|labels|].done, e)
    requires Explained(views[|labels|].effects, views[|labels|].done)
    ensures var v, turn := views[|labels|], TurnOf(views, views[|labels|], e);
      && IsCall(labels, turn.call) && turn.call < e.point
      && (e.Look? ==>
            var d := v.done[e.index];
            d.start > 0 && turn == Turn(d.start - 1, d.result) && labels[turn.call] == Call(d.who, Query(d.op, d.key)))
      && (e.Change? ==>
            var x := v.effects[e.point];
            && turn.answer && labels[turn.call] == Call(x.who, Query(if x.Added? then Insert else Erase, x.key))
            && Inside(views[e.point], x.who) && views[e.point].threads[x.who].start == turn.call + 1)
  {
    var v := views[|labels|];
    match e
    case Look(n, p) => RecordsFit(views, labels, |labels|, n); assert v.done[n] in v.done;
    case Change(p) =>
      ChangeIsAsked(views, labels, p);
      ThreadsFit(views, labels, p);
      assert ThreadOk(views, labels, p, v.effects[p].who);
  }

  lemma {:induction false} TurnsCorrect(views: seq<View>, labels: seq<SetLabel>, h: seq<Entry>)
    requires Trace(views, labels) && Explained(views[|labels|].effects, views[|labels|].done)
    requires Legal(views[|labels|].effects, views[|labels|].done, h)
    requires forall e :: e in h ==> Belongs(views[|labels|].effects, views[|labels|].done, e)
    ensures Correct(SetSpec, {}, labels, Turns(views, views[|labels|], h))
    ensures After(SetSpec, {}, labels, Turns(views, views[|labels|], h)) == Outcome(views[|labels|].effects, h)
  {
    if h != [] {
      var v, before, e := views[|labels|], h[..|h| - 1], h[|h| - 1];
      assert e in h;
      TurnsCorrect(views, labels, before);
      TurnFits(views, labels, e);
      hide Trace, Explained;
      var turns := Turns(views, v, h);
      assert turns[..|turns| - 1] == Turns(views, v, before);
      hide Turns, TurnOf;
    }
  }

  /** No two entries are the same operation's. */
  lemma TurnsApart(views: seq<View>, labels: seq<SetLabel>, e: Entry, f: Entry)
    requires Trace(views, labels) && Explained(views[|labels|].effects, views[|labels|].done)
    requires Belongs(views[|labels|].effects, views[|labels|].done, e) && Belongs(views[|labels|].effects, views[|labels|].done, f)
    requires e != f
    ensures TurnOf(views, views[|labels|], e).call != TurnOf(views, views[|labels|], f).call
  {
    var v := views[|labels|];
    TurnFits(views, labels, e);
    TurnFits(views, labels, f);
    hide TurnOf, Trace;
    if e.Look? && f.Look? {
      var d, c := v.done[e.index], v.done[f.index];
      if d.who == c.who && d.start == c.start { SameRecord(views, labels, e.index, f.index); }
    } else if e.Change? && f.Change? {
      if v.effects[e.point].who == v.effects[f.point].who {
        if e.point < f.point { ChangesOnce(views, labels, e.point, f.point); } else { ChangesOnce(views, labels, f.point, e.point); }
      }
    } else {
      var (look, change) := if e.Look? then (e, f) else (f, e);
      if v.effects[change.point].who == v.done[look.index].who { LookChangesNothing(views, labels, look.index, change.point); }
    }
  }

  lemma SameRecord(views: seq<View>, labels: seq<SetLabel>, m: nat, n: nat)
    requires Trace(views, labels) && Explained(views[|labels|].effects, views[|labels|].done)
    requires m < |views[|labels|].done| && n < |views[|labels|].done|
    requires views[|labels|].done[m].who == views[|labels|].done[n].who && views[|labels|].done[m].start == views[|labels|].done[n].start
    ensures m == n
  {
    RecordsFit(views, labels, |labels|, m);
    RecordsFit(views, labels, |labels|, n);
  }

  lemma LookChangesNothing(views: seq<View>, labels: seq<SetLabel>, n: nat, p: nat)
    requires Trace(views, labels) && n < |views[|labels|].done| && ChangeAt(views[|labels|].effects, p)
    requires var d := views[|labels|].done[n]; !Writes(d.op, d.result) && views[|labels|].effects[p].who == d.who
    ensures var d := views[|labels|].done[n]; p < |views| && Inside(views[p], d.who) && views[p].threads[d.who].start != d.start
  {
    var d := views[|labels|].done[n];
    RecordsFit(views, labels, |labels|, n);
    ChangeIsAsked(views, labels, p);
    if views[p].threads[d.who].start == d.start {
      ThreadsFit(views, labels, p);
      assert ThreadOk(views, labels, p, d.who);
      if p > d.end { CallAfterReturn(labels, d.who, d.end, p); }
      if p < d.end { ChangeSticks(views, labels, d.who, p + 1, d.end); }
    }
  }

  /** After a return of `t` its next operation is one called later. */
  lemma {:induction false} CallAfterReturn(labels: seq<SetLabel>, t: nat, e: nat, i: nat)
    requires e < i <= |labels| && labels[e].Return? && labels[e].who == t && Pending(labels, t, i)
    ensures CallOf(labels, t, i) > e
  {
    if !(labels[i - 1].who == t && labels[i - 1].Call?) { CallAfterReturn(labels, t, e, i - 1); }
  }

  lemma TurnsComplete(views: seq<View>, labels: seq<SetLabel>, h: seq<Entry>, e: nat) returns (a: nat, p: nat)
    requires Trace(views, labels) && Explained(views[|labels|].effects, views[|labels|].done)
    requires h == Linearization(views[|labels|].effects, views[|labels|].done) && e < |labels| && labels[e].Return?
    ensures TurnAt(Turns(views, views[|labels|], h), a, Turn(CallOf(labels, labels[e].who, e), labels[e].answer))
    ensures a < |h| && h[a].point <= e
  {
    var v := views[|labels|];
    var n := ReturnRecorded(views, labels, e);
    var d := v.done[n];
    p := d.point;
    RecordsFit(views, labels, |labels|, n);
    EveryPlaced(v.effects, v.done, n);
    a :| Places(v.done, h, n, a);
    assert d in v.done;
    if Writes(d.op, d.result) {
      EffectsGrow(views, labels, |labels|, |labels|);
      assert ChangeAt(v.effects, d.point) && Changes(v.effects, d.point) && v.effects[d.point].who == d.who;
      InsideRecord(views, labels, d, d.point);
    }
  }

  lemma TurnsOnce(views: seq<View>, labels: seq<SetLabel>, h: seq<Entry>)
    requires Trace(views, labels) && Explained(views[|labels|].effects, views[|labels|].done)
    requires Distinct(h) && forall e :: e in h ==> Belongs(views[|labels|].effects, views[|labels|].done, e)
    ensures Once(Turns(views, views[|labels|], h))
  {
    var turns := Turns(views, views[|labels|], h);
    hide Trace, Explained, Turns, TurnOf, Belongs;
    forall a, b | 0 <= a < b < |turns| ensures turns[a].call != turns[b].call {
      assert h[a] in h && h[b] in h && h[a] != h[b];
      TurnsApart(views, labels, h[a], h[b]);
    }
  }

  lemma TurnsInTime(views: seq<View>, labels: seq<SetLabel>, h: seq<Entry>)
    requires Trace(views, labels) && Explained(views[|labels|].effects, views[|labels|].done)
    requires h == Linearization(views[|labels|].effects, views[|labels|].done) && Distinct(h) && Once(Turns(views, views[|labels|], h))
    requires forall e :: e in h ==> Belongs(views[|labels|].effects, views[|labels|].done, e)
    ensures Complete(labels, Turns(views, views[|labels|], h)) && RealTime(labels, Turns(views, views[|labels|], h))
  {
    var turns := Turns(views, views[|labels|], h);
    hide Trace, Explained, Linearization, Turns, TurnOf, Belongs;
    forall e | 0 <= e < |labels| && labels[e].Return? ensures HasTurn(labels, turns, e) {
      var a, p := TurnsComplete(views, labels, h, e);
    }
    forall e: nat, a: nat, b: nat | Returned(labels, turns, e, a) && b < |turns| && e < turns[b].call ensures a < b {
      InTime(views, labels, h, e, a, b);
    }
  }

  lemma InTime(views: seq<View>, labels: seq<SetLabel>, h: seq<Entry>, e: nat, a: nat, b: nat)
    requires Trace(views, labels) && Explained(views[|labels|].effects, views[|labels|].done)
    requires h == Linearization(views[|labels|].effects, views[|labels|].done) && Distinct(h) && Once(Turns(views, views[|labels|], h))
    requires forall e :: e in h ==> Belongs(views[|labels|].effects, views[|labels|].done, e)
    requires Returned(labels, Turns(views, views[|labels|], h), e, a) && b < |h| && e < TurnOf(views, views[|labels|], h[b]).call
    ensures a < b
  {
    var turns := Turns(views, views[|labels|], h);
    hide Trace, Explained, Linearization, Turns, TurnOf, Belongs;
    var c, p := TurnsComplete(views, labels, h, e);
    assert turns[c].call == turns[a].call;
    assert h[b] in h;
    TurnFits(views, labels, h[b]);
  }

  /** Linearizability over the calls. */
  lemma CallsLinearizable(views: seq<View>, labels: seq<SetLabel>) returns (turns: seq<Turn<bool>>)
    requires Trace(views, labels) && Explained(views[|labels|].effects, views[|labels|].done)
    ensures Linearizes(SetSpec, {}, labels, turns)
    ensures |views[|labels|].effects| == |labels| && After(SetSpec, {}, labels, turns) == SetAt(views[|labels|].effects, |labels|)
  {
    var v := views[|labels|];
    var h := Linearization(v.effects, v.done);
    turns := Turns(views, v, h);
    hide Trace, Explained, Turns, TurnOf, Correct, After, WellFormed, Legal, Outcome, Belongs, Complete, RealTime, Once, Distinct;
    IsWellFormed(views, labels);
    EffectsGrow(views, labels, |labels|, |labels|);
    Linearizable(v.effects, v.done);
    SequentialMembers(v.effects, v.done, |v.effects| + 1);
    TurnsCorrect(views, labels, h);
    TurnsOnce(views, labels, h);
    TurnsInTime(views, labels, h);
  }
}

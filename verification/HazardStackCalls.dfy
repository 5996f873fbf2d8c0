/** The stack, seen from its callers: what was pushed is what push was given, and what pop returns is what was
    pushed. */
module HazardStackCalls {
  import opened Linearizability
  import opened HazardStack
  import P = HazardStackProof
  import T = HazardStackTheorems

  datatype Query = Push(value: int) | Pop
  datatype Answer = Nothing | Value(value: int) | Empty

  type StackLabel = Label<Query, Answer>

  /** The sequential stack, top first. */
  function StackSpec(m: seq<int>, q: Query): (seq<int>, Answer) {
    match q
    case Push(v) => ([v] + m, Nothing)
    case Pop => if m == [] then (m, Empty) else (m[1..], Value(m[0]))
  }

  // ---------------------------------------------------------------- runs with labels

  /** What the code returns. */
  function Returned(th: Thread): Answer {
    if th.pushing then Nothing else if th.oldHead == NULL then Empty else Value(th.result)
  }

  ghost predicate Calls(s: State, t: nat, q: Query, s': State) {
    MayCall(s, t) &&
    match q
    case Push(v) => exists a :: MayAllocate(s.cells, a) && s' == CallPush(s, t, v, a)
    case Pop => s' == CallPop(s, t)
  }

  ghost predicate LabelOk(s: State, l: StackLabel, s': State) {
    match l
    case Call(t, q) => Calls(s, t, q, s')
    case Own(t) => May(s, t) && s.threads[t].pc != PC.Return && s' == Step(s, t)
    case Return(t, answer) => May(s, t) && s.threads[t].pc == PC.Return && answer == Returned(s.threads[t]) && s' == Step(s, t)
  }

  ghost predicate LabelledAt(run: seq<State>, labels: seq<StackLabel>, i: int) {
    0 <= i < |labels| && i + 1 < |run| && LabelOk(run[i], labels[i], run[i + 1])
  }

  /** `labels` tells the steps of `run`: who called which operation, who stepped, who returned what. */
  ghost predicate Labelled(run: seq<State>, labels: seq<StackLabel>) {
    && |run| == |labels| + 1 && Init(run[0])
    && forall i :: 0 <= i < |labels| ==> LabelledAt(run, labels, i)
  }

  lemma LabelIsNext(s: State, l: StackLabel, s': State)
    requires LabelOk(s, l, s')
    ensures Next(s, s')
  {
    hide Step, CallPush, CallPop, May;
  }

  lemma LabelledRuns(run: seq<State>, labels: seq<StackLabel>)
    requires Labelled(run, labels)
    ensures T.Run(run)
  {
    hide Init, LabelOk, Next;
    forall i | 0 <= i < |run| - 1 ensures T.StepAt(run, i) {
      assert LabelledAt(run, labels, i);
      LabelIsNext(run[i], labels[i], run[i + 1]);
    }
  }

  // ---------------------------------------------------------------- the kinds of steps

  /** The operation has had its effect. */
  predicate Took(th: Thread) {
    th.pc in {PopClear, PopTake, PopScan, DeferLoad, DeferSwap, CountUp, ResetCount, TakeList, SweepNext, SweepScan, PC.Return}
  }

  function QueryOf(th: Thread): Query { if th.pushing then Push(th.value) else Pop }

  function QueryFor(e: Event): Query { if e.Pushed? then Push(e.value) else Pop }

  function AnswerOf(e: Event): Answer {
    match e
    case Pushed(_, _) => Nothing
    case Popped(_, v) => Value(v)
    case FoundEmpty(_) => Empty
  }

  /** What is seen of the step of `t`: thread `t` is in operation `q` before and after it. */
  predicate Others(s: State, t: nat, s': State) {
    t < |s.threads| == |s'.threads| && s'.threads == s.threads[t := s'.threads[t]]
  }

  predicate Quiet(s: State, t: nat, s': State) {
    && Others(s, t, s') && s'.log == s.log && s.threads[t].pc != Idle && s'.threads[t].pc != Idle
    && QueryOf(s'.threads[t]) == QueryOf(s.threads[t])
    && (Took(s'.threads[t]) <==> Took(s.threads[t])) && s'.threads[t].point == s.threads[t].point
  }

  predicate TakesEffect(s: State, t: nat, e: Event, s': State) {
    && Others(s, t, s') && s'.log == s.log + [e] && s.threads[t].pc != Idle && s'.threads[t].pc != Idle
    && QueryOf(s'.threads[t]) == QueryOf(s.threads[t]) == QueryFor(e) && e.who == t
    && !Took(s.threads[t]) && Took(s'.threads[t]) && s'.threads[t].point == |s.log|
  }

  lemma PushKind(s: State, t: nat)
    requires May(s, t) && s.threads[t].pc in {PushLoad, PushSwap} && P.ThreadOk(s.cells, s.slots, s.log, t, s.threads[t])
    ensures var s', th := PushStep(s, t), s.threads[t]; Quiet(s, t, s') || TakesEffect(s, t, Pushed(t, th.value), s')
  {
  }

  lemma PopKind(s: State, t: nat) returns (e: Event)
    requires May(s, t) && s.threads[t].pc in {PopLoad, PopPublish, PopReload, PopNext, PopSwap, PopClear, PopTake, PopScan}
    requires P.ThreadOk(s.cells, s.slots, s.log, t, s.threads[t])
    ensures Quiet(s, t, PopStep(s, t)) || TakesEffect(s, t, e, PopStep(s, t))
  {
    var th := s.threads[t];
    assert !th.pushing;
    hide P.ThreadOk;
    e := if th.pc == PopReload || !IsCell(s.cells, th.oldHead) then FoundEmpty(t) else Popped(t, s.cells[th.oldHead].value);
  }

  lemma ReclaimKind(s: State, t: nat)
    requires May(s, t) && s.threads[t].pc in {DeferLoad, DeferSwap, CountUp, ResetCount, TakeList, SweepNext, SweepScan}
    ensures Quiet(s, t, ReclaimStep(s, t))
  {
  }

  lemma OwnKind(s: State, t: nat) returns (e: Event)
    requires P.Inv(s) && May(s, t) && s.threads[t].pc != PC.Return
    ensures Quiet(s, t, Step(s, t)) || TakesEffect(s, t, e, Step(s, t))
  {
    P.InvThread(s, t);
    T.StepIs(s, t);
    hide P.Inv, P.ThreadOk, PushStep, PopStep, ReclaimStep, Quiet, TakesEffect, May;
    e := FoundEmpty(t);
    if s.threads[t].pc in {PushLoad, PushSwap} {
      PushKind(s, t);
      e := Pushed(t, s.threads[t].value);
    } else if s.threads[t].pc in {DeferLoad, DeferSwap, CountUp, ResetCount, TakeList, SweepNext, SweepScan} {
      ReclaimKind(s, t);
    } else {
      e := PopKind(s, t);
    }
  }

  predicate Begins(s: State, t: nat, q: Query, s': State) {
    && Others(s, t, s') && s'.log == s.log && s.threads[t].pc == Idle && s'.threads[t].pc != Idle
    && QueryOf(s'.threads[t]) == q && !Took(s'.threads[t])
  }

  lemma CallBegins(s: State, t: nat, q: Query, s': State)
    requires Calls(s, t, q, s')
    ensures Begins(s, t, q, s')
  {
  }

  predicate Ends(s: State, t: nat, s': State) {
    Others(s, t, s') && s'.log == s.log && s.threads[t].pc == PC.Return && s'.threads[t].pc == Idle
  }

  lemma ReturnEnds(s: State, t: nat)
    requires May(s, t) && s.threads[t].pc == PC.Return
    ensures Ends(s, t, Step(s, t))
  {
  }

  // ---------------------------------------------------------------- events and calls

  /** The call of each event. */
  function Turns(run: seq<State>, labels: seq<StackLabel>, i: nat): seq<Turn<Answer>>
    requires i < |run| && i <= |labels|
  {
    if i == 0 then [] else
      var before := Turns(run, labels, i - 1);
      if |run[i].log| > |run[i - 1].log| then
        before + [Turn(CallOf(labels, labels[i - 1].who, i - 1), AnswerOf(run[i].log[|run[i].log| - 1]))]
      else before
  }

  ghost predicate ThreadTied(s: State, labels: seq<StackLabel>, turns: seq<Turn<Answer>>, i: nat, t: nat)
    requires i <= |labels|
  {
    (Pending(labels, t, i) <==> t < |s.threads| && s.threads[t].pc != Idle) &&
    (Pending(labels, t, i) ==>
       var th, c := s.threads[t], CallOf(labels, t, i);
       && c < i && labels[c] == Call(t, QueryOf(th))
       && (if Took(th) then th.point < |turns| && turns[th.point].call == c
           else forall p {:trigger turns[p]} :: 0 <= p < |turns| ==> turns[p].call != c))
  }

  ghost predicate TurnTied(s: State, labels: seq<StackLabel>, turns: seq<Turn<Answer>>, i: nat, p: nat)
    requires i <= |labels| && p < |s.log| == |turns|
  {
    var c := turns[p].call;
    c < i && labels[c] == Call(s.log[p].who, QueryFor(s.log[p])) && turns[p].answer == AnswerOf(s.log[p])
  }

  ghost predicate Tied(s: State, labels: seq<StackLabel>, turns: seq<Turn<Answer>>, i: nat)
    requires i <= |labels|
  {
    && |turns| == |s.log|
    && (forall t: nat {:trigger ThreadTied(s, labels, turns, i, t)} :: ThreadTied(s, labels, turns, i, t))
    && (forall p: nat {:trigger TurnTied(s, labels, turns, i, p)} :: p < |turns| ==> TurnTied(s, labels, turns, i, p))
    && Once(turns)
  }

  lemma QuietTied(s: State, labels: seq<StackLabel>, turns: seq<Turn<Answer>>, i: nat, s': State)
    requires i < |labels| && labels[i].Own? && Tied(s, labels, turns, i) && Quiet(s, labels[i].who, s')
    ensures Tied(s', labels, turns, i + 1)
  {
    var next := i + 1;
    hide Took, QueryOf;
    forall t: nat ensures ThreadTied(s', labels, turns, next, t) {
      assert ThreadTied(s, labels, turns, i, t);
    }
    forall p: nat | p < |turns| ensures TurnTied(s', labels, turns, next, p) {
      assert TurnTied(s, labels, turns, i, p);
    }
  }

  lemma EffectTied(s: State, labels: seq<StackLabel>, turns: seq<Turn<Answer>>, i: nat, e: Event, s': State)
    requires i < |labels| && labels[i].Own? && Tied(s, labels, turns, i) && TakesEffect(s, labels[i].who, e, s')
    ensures Tied(s', labels, turns + [Turn(CallOf(labels, labels[i].who, i), AnswerOf(e))], i + 1)
  {
    var u, next := labels[i].who, i + 1;
    var more := turns + [Turn(CallOf(labels, u, i), AnswerOf(e))];
    assert ThreadTied(s, labels, turns, i, u);
    hide Took, QueryOf, QueryFor, AnswerOf;
    forall t: nat ensures ThreadTied(s', labels, more, next, t) {
      assert ThreadTied(s, labels, turns, i, t);
    }
    forall p: nat | p < |more| ensures TurnTied(s', labels, more, next, p) {
      assert p < |turns| ==> TurnTied(s, labels, turns, i, p);
    }
  }

  lemma CallTied(s: State, labels: seq<StackLabel>, turns: seq<Turn<Answer>>, i: nat, s': State)
    requires i < |labels| && labels[i].Call? && Tied(s, labels, turns, i) && Begins(s, labels[i].who, labels[i].query, s')
    ensures Tied(s', labels, turns, i + 1)
  {
    var next := i + 1;
    hide Took, QueryOf;
    forall p: nat | p < |turns| ensures TurnTied(s', labels, turns, next, p) && turns[p].call < i {
      assert TurnTied(s, labels, turns, i, p);
    }
    forall t: nat ensures ThreadTied(s', labels, turns, next, t) {
      assert ThreadTied(s, labels, turns, i, t);
    }
  }

  lemma ReturnTied(s: State, labels: seq<StackLabel>, turns: seq<Turn<Answer>>, i: nat, s': State)
    requires i < |labels| && labels[i].Return? && Tied(s, labels, turns, i) && Ends(s, labels[i].who, s')
    ensures Tied(s', labels, turns, i + 1)
  {
    var next := i + 1;
    hide Took, QueryOf;
    forall t: nat ensures ThreadTied(s', labels, turns, next, t) {
      assert ThreadTied(s, labels, turns, i, t);
    }
    forall p: nat | p < |turns| ensures TurnTied(s', labels, turns, next, p) {
      assert TurnTied(s, labels, turns, i, p);
    }
  }

  lemma StepTied(s: State, labels: seq<StackLabel>, turns: seq<Turn<Answer>>, i: nat, s': State)
    requires P.Inv(s) && i < |labels| && Tied(s, labels, turns, i) && LabelOk(s, labels[i], s')
    ensures if |s'.log| > |s.log| then Tied(s', labels, turns + [Turn(CallOf(labels, labels[i].who, i), AnswerOf(s'.log[|s'.log| - 1]))], i + 1)
            else Tied(s', labels, turns, i + 1)
    ensures |s.log| <= |s'.log| && s'.log[..|s.log|] == s.log && |s'.log| <= |s.log| + 1
  {
    hide P.Inv, Tied, Step, May, Calls, AnswerOf;
    match labels[i] {
      case Call(t, q) =>
        CallBegins(s, t, q, s');
        CallTied(s, labels, turns, i, s');
      case Own(t) =>
        var e := OwnKind(s, t);
        if Quiet(s, t, s') { QuietTied(s, labels, turns, i, s'); } else { EffectTied(s, labels, turns, i, e, s'); }
      case Return(t, answer) =>
        ReturnEnds(s, t);
        ReturnTied(s, labels, turns, i, s');
    }
  }

  lemma {:induction false} RunTied(run: seq<State>, labels: seq<StackLabel>, i: nat)
    requires Labelled(run, labels) && i <= |labels|
    ensures P.Inv(run[i]) && Tied(run[i], labels, Turns(run, labels, i), i)
  {
    hide P.Inv, LabelOk, Tied, Init, T.Run;
    LabelledRuns(run, labels);
    T.RunKeeps(run, i);
    if i == 0 {
      InitTied(run[0], labels);
    } else {
      RunTied(run, labels, i - 1);
      assert LabelledAt(run, labels, i - 1);
      StepTied(run[i - 1], labels, Turns(run, labels, i - 1), i - 1, run[i]);
    }
  }

  lemma InitTied(s: State, labels: seq<StackLabel>)
    requires Init(s)
    ensures Tied(s, labels, [], 0)
  {
  }

  lemma TurnsFit(run: seq<State>, labels: seq<StackLabel>, i: nat)
    requires Labelled(run, labels) && i <= |labels|
    ensures |Turns(run, labels, i)| == |run[i].log|
  {
    hide Labelled, P.Inv;
    RunTied(run, labels, i);
  }

  lemma TurnsStep(run: seq<State>, labels: seq<StackLabel>, i: nat)
    requires Labelled(run, labels) && i < |labels|
    ensures |run[i].log| <= |run[i + 1].log| == |Turns(run, labels, i + 1)| && Turns(run, labels, i + 1)[..|run[i].log|] == Turns(run, labels, i)
  {
    TurnsFit(run, labels, i);
    TurnsFit(run, labels, i + 1);
    RunTied(run, labels, i);
    assert LabelledAt(run, labels, i);
    hide P.Inv, LabelOk, Tied, Labelled;
    StepTied(run[i], labels, Turns(run, labels, i), i, run[i + 1]);
  }

  /** Between states the log and its turns only grow. */
  lemma {:induction false} TurnsGrow(run: seq<State>, labels: seq<StackLabel>, i: nat, j: nat)
    requires Labelled(run, labels) && i <= j <= |labels|
    ensures |Turns(run, labels, i)| == |run[i].log| <= |Turns(run, labels, j)| == |run[j].log|
    ensures Turns(run, labels, j)[..|run[i].log|] == Turns(run, labels, i)
  {
    assert |run| == |labels| + 1;
    hide Labelled, Turns;
    TurnsFit(run, labels, i);
    if i < j {
      TurnsGrow(run, labels, i, j - 1);
      TurnsStep(run, labels, j - 1);
      assert Turns(run, labels, j)[..|run[i].log|] == Turns(run, labels, j)[..|run[j - 1].log|][..|run[i].log|];
    }
  }

  // ---------------------------------------------------------------- the history is legal

  lemma {:induction false} TurnsCorrect(s: State, labels: seq<StackLabel>, turns: seq<Turn<Answer>>, i: nat, n: nat)
    requires i <= |labels| && Tied(s, labels, turns, i) && Lifo(s.log) && n <= |turns|
    ensures Correct(StackSpec, [], labels, turns[..n]) && After(StackSpec, [], labels, turns[..n]) == Replay(s.log, n)
  {
    if n > 0 {
      TurnsCorrect(s, labels, turns, i, n - 1);
      assert TurnTied(s, labels, turns, i, n - 1);
      assert Suits(s.log[n - 1], Replay(s.log, n - 1));
      assert turns[..n][..n - 1] == turns[..n - 1] && turns[..n][n - 1] == turns[n - 1];
      hide Tied, Lifo;
    }
  }

  /** The operation that returns in step `e` took effect before, with the answer it returns. */
  lemma ReturnTurn(run: seq<State>, labels: seq<StackLabel>, e: nat) returns (a: nat)
    requires Labelled(run, labels) && e < |labels| && labels[e].Return?
    ensures a < |Turns(run, labels, e)| <= |Turns(run, labels, |labels|)|
    ensures TurnAt(Turns(run, labels, |labels|), a, Turn(CallOf(labels, labels[e].who, e), labels[e].answer))
  {
    RunTied(run, labels, e);
    assert LabelledAt(run, labels, e);
    var s, t, turns := run[e], labels[e].who, Turns(run, labels, e);
    a := s.threads[t].point;
    ReturnsEvent(s, t, labels[e], run[e + 1]);
    hide P.Inv, LabelOk;
    assert ThreadTied(s, labels, turns, e, t) && TurnTied(s, labels, turns, e, a);
    TurnsGrow(run, labels, e, |labels|);
    assert turns[a] == Turns(run, labels, |labels|)[..|s.log|][a];
  }

  lemma ReturnsEvent(s: State, t: nat, l: StackLabel, s': State)
    requires P.Inv(s) && LabelOk(s, l, s') && l.Return? && l.who == t
    ensures t < |s.threads| && s.threads[t].pc == PC.Return && s.threads[t].point < |s.log|
    ensures AnswerOf(s.log[s.threads[t].point]) == l.answer
  {
    P.InvThread(s, t);
    hide P.Inv, Step;
  }

  /** A turn comes after its call. */
  lemma {:induction false} TurnAfterCall(run: seq<State>, labels: seq<StackLabel>, i: nat, b: nat)
    requires Labelled(run, labels) && i <= |labels| && b < |Turns(run, labels, i)|
    ensures var c := Turns(run, labels, i)[b].call; c < i && |Turns(run, labels, c)| <= b
  {
    RunTied(run, labels, i);
    RunTied(run, labels, i - 1);
    assert TurnTied(run[i], labels, Turns(run, labels, i), i, b);
    if b < |Turns(run, labels, i - 1)| {
      TurnAfterCall(run, labels, i - 1, b);
    } else {
      TurnsGrow(run, labels, Turns(run, labels, i)[b].call, i - 1);
    }
  }

  lemma InTime(run: seq<State>, labels: seq<StackLabel>, e: nat, a: nat, b: nat)
    requires Labelled(run, labels) && Linearizability.Returned(labels, Turns(run, labels, |labels|), e, a)
    requires b < |Turns(run, labels, |labels|)| && e < Turns(run, labels, |labels|)[b].call
    ensures a < b
  {
    var turns := Turns(run, labels, |labels|);
    RunTied(run, labels, |labels|);
    var c := ReturnTurn(run, labels, e);
    assert turns[c].call == turns[a].call && a == c;
    TurnAfterCall(run, labels, |labels|, b);
    hide Labelled, Tied, P.Inv, Turns;
    TurnsGrow(run, labels, e, turns[b].call);
  }

  /** The stack is linearizable over its calls: the pushes, with the values they were given, and the pops have a
      legal sequential history of a stack in real-time order that agrees with everything returned, and memory
      holds the stack that it leaves. */
  lemma CallsLinearize(run: seq<State>, labels: seq<StackLabel>) returns (turns: seq<Turn<Answer>>)
    requires Labelled(run, labels)
    ensures Linearizes(StackSpec, [], labels, turns)
    ensures var s := run[|labels|]; T.InMemory(s.cells, s.head, After(StackSpec, [], labels, turns))
  {
    var s, n := run[|labels|], |labels|;
    turns := Turns(run, labels, n);
    RunTied(run, labels, n);
    LabelledRuns(run, labels);
    T.StackLinearizable(run, n);
    TurnsCorrect(s, labels, turns, n, |turns|);
    assert turns[..|turns|] == turns;
    CallsWellFormed(run, labels);
    hide Labelled, Tied, P.Inv, Turns, Correct, After, T.Run, WellFormed, StackSpec;
    forall e | 0 <= e < n && labels[e].Return? ensures HasTurn(labels, turns, e) {
      var a := ReturnTurn(run, labels, e);
    }
    forall e: nat, a: nat, b: nat | Linearizability.Returned(labels, turns, e, a) && b < |turns| && e < turns[b].call ensures a < b {
      InTime(run, labels, e, a, b);
    }
    TiedOnce(s, labels, turns, n);
  }

  lemma TiedOnce(s: State, labels: seq<StackLabel>, turns: seq<Turn<Answer>>, i: nat)
    requires i <= |labels| && Tied(s, labels, turns, i)
    ensures Once(turns)
  {
  }

  lemma CallsWellFormed(run: seq<State>, labels: seq<StackLabel>)
    requires Labelled(run, labels)
    ensures WellFormed(labels)
  {
    forall i | 0 <= i < |labels| ensures labels[i].Call? <==> !Pending(labels, labels[i].who, i) {
      RunTied(run, labels, i);
      assert LabelledAt(run, labels, i) && ThreadTied(run[i], labels, Turns(run, labels, i), i, labels[i].who);
      hide P.Inv, Tied, Step;
    }
  }
}

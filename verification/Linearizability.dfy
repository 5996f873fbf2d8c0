/** Linearizability, told by what is seen from outside: which operations were called, when they returned and with
    which answers. Nothing here knows how an object works. */
module Linearizability {
  /** What a step is, seen from outside: a call with its arguments, a return with the answer, or a step inside. */
  datatype Label<Q, R> = Call(who: nat, query: Q) | Own(who: nat) | Return(who: nat, answer: R)

  /** The operation called in step `call` takes effect, with `answer`. */
  datatype Turn<R> = Turn(call: nat, answer: R)

  /** After the first `i` steps thread `t` is inside an operation. */
  predicate Pending<Q, R>(labels: seq<Label<Q, R>>, t: nat, i: nat)
    requires i <= |labels|
  {
    i > 0 && if labels[i - 1].who != t || labels[i - 1].Own? then Pending(labels, t, i - 1) else labels[i - 1].Call?
  }

  /** The last call of thread `t` in the first `i` steps. */
  function CallOf<Q, R>(labels: seq<Label<Q, R>>, t: nat, i: nat): nat
    requires i <= |labels|
  {
    if i == 0 then 0 else if labels[i - 1].who == t && labels[i - 1].Call? then i - 1 else CallOf(labels, t, i - 1)
  }

  predicate IsCall<Q, R>(labels: seq<Label<Q, R>>, c: nat) { c < |labels| && labels[c].Call? }

  /** Threads call only between their operations, and step and return only inside one. */
  ghost predicate WellFormed<Q, R>(labels: seq<Label<Q, R>>) {
    forall i {:trigger labels[i]} :: 0 <= i < |labels| ==> (labels[i].Call? <==> !Pending(labels, labels[i].who, i))
  }

  /** The sequential object: from `init` the operations of the history `h`, one after the other. */
  function After<S, Q, R>(spec: (S, Q) -> (S, R), init: S, labels: seq<Label<Q, R>>, h: seq<Turn<R>>): S {
    if h == [] then init else
      var c, m := h[|h| - 1].call, After(spec, init, labels, h[..|h| - 1]);
      if IsCall(labels, c) then spec(m, labels[c].query).0 else m
  }

  /** Every answer of the history is the sequential object's. */
  predicate Correct<S, Q, R(==)>(spec: (S, Q) -> (S, R), init: S, labels: seq<Label<Q, R>>, h: seq<Turn<R>>) {
    h == [] ||
    (var c, m := h[|h| - 1].call, After(spec, init, labels, h[..|h| - 1]);
     && Correct(spec, init, labels, h[..|h| - 1]) && IsCall(labels, c)
     && spec(m, labels[c].query).1 == h[|h| - 1].answer)
  }

  predicate TurnAt<R(==)>(h: seq<Turn<R>>, a: nat, turn: Turn<R>) { a < |h| && h[a] == turn }

  /** Every operation that returned has its turn, with the answer it returned. */
  ghost predicate Complete<Q, R>(labels: seq<Label<Q, R>>, h: seq<Turn<R>>) {
    forall e {:trigger labels[e]} :: 0 <= e < |labels| && labels[e].Return? ==> HasTurn(labels, h, e)
  }

  ghost predicate HasTurn<Q, R>(labels: seq<Label<Q, R>>, h: seq<Turn<R>>, e: nat)
    requires e < |labels| && labels[e].Return?
  {
    exists a: nat :: TurnAt(h, a, Turn(CallOf(labels, labels[e].who, e), labels[e].answer))
  }

  /** No operation has two turns. */
  ghost predicate Once<R>(h: seq<Turn<R>>) {
    forall a, b :: 0 <= a < b < |h| ==> h[a].call != h[b].call
  }

  /** Turn `a` is that of the operation that returned in step `e`. */
  predicate Returned<Q, R>(labels: seq<Label<Q, R>>, h: seq<Turn<R>>, e: nat, a: nat) {
    e < |labels| && labels[e].Return? && a < |h| && h[a].call == CallOf(labels, labels[e].who, e)
  }

  /** An operation that returned before another was called has its turn before it. */
  ghost predicate RealTime<Q, R>(labels: seq<Label<Q, R>>, h: seq<Turn<R>>) {
    forall e: nat, a: nat, b: nat {:trigger Returned(labels, h, e, a), h[b]} ::
      Returned(labels, h, e, a) && b < |h| && e < h[b].call ==> a < b
  }

  /** `h` is a sequential history of the calls, legal for the object, that agrees with every answer returned and
      with real time. Operations that have not returned may have their turn or not. */
  ghost predicate Linearizes<S, Q, R>(spec: (S, Q) -> (S, R), init: S, labels: seq<Label<Q, R>>, h: seq<Turn<R>>) {
    WellFormed(labels) && Correct(spec, init, labels, h) && Once(h) && Complete(labels, h) && RealTime(labels, h)
  }

  // ---------------------------------------------------------------- pending calls

  lemma {:induction false} PendingIsCalled<Q, R>(labels: seq<Label<Q, R>>, t: nat, i: nat)
    requires i <= |labels| && Pending(labels, t, i)
    ensures CallOf(labels, t, i) < i && labels[CallOf(labels, t, i)].Call? && labels[CallOf(labels, t, i)].who == t
    ensures forall j {:trigger labels[j]} :: CallOf(labels, t, i) < j < i && labels[j].who == t ==> labels[j].Own?
  {
    if !(labels[i - 1].who == t && labels[i - 1].Call?) { PendingIsCalled(labels, t, i - 1); }
  }

  predicate ReturnsFrom<Q, R>(labels: seq<Label<Q, R>>, t: nat, c: nat, e: nat) {
    e < |labels| && labels[e].Return? && labels[e].who == t && CallOf(labels, t, e) == c
  }

  /** After the call in step `c` the operation is still running, or it returned. */
  lemma {:induction false} CallReturns<Q, R>(labels: seq<Label<Q, R>>, c: nat, i: nat)
    requires WellFormed(labels) && IsCall(labels, c) && c < i <= |labels|
    ensures (Pending(labels, labels[c].who, i) && CallOf(labels, labels[c].who, i) == c)
            || exists e: nat :: c < e < i && ReturnsFrom(labels, labels[c].who, c, e)
  {
    var t := labels[c].who;
    if c < i - 1 {
      CallReturns(labels, c, i - 1);
      if e: nat :| c < e < i - 1 && ReturnsFrom(labels, t, c, e) {
        assert c < e < i && ReturnsFrom(labels, t, c, e);
      } else if labels[i - 1].who == t && labels[i - 1].Return? {
        assert c < i - 1 < i && ReturnsFrom(labels, t, c, i - 1);
      }
    }
  }

  /** It returns once. */
  lemma ReturnsOnce<Q, R>(labels: seq<Label<Q, R>>, t: nat, c: nat, e: nat, f: nat)
    requires WellFormed(labels) && ReturnsFrom(labels, t, c, e) && ReturnsFrom(labels, t, c, f)
    ensures e == f
  {
    if e < f { NotPending(labels, t, c, e, f); }
    if f < e { NotPending(labels, t, c, f, e); }
  }

  lemma {:induction false} NotPending<Q, R>(labels: seq<Label<Q, R>>, t: nat, c: nat, e: nat, i: nat)
    requires WellFormed(labels) && ReturnsFrom(labels, t, c, e) && e < i <= |labels|
    ensures Pending(labels, t, i) ==> CallOf(labels, t, i) != c
    decreases i
  {
    PendingIsCalled(labels, t, e);
    if e < i - 1 { NotPending(labels, t, c, e, i - 1); }
  }

  /** A prefix of the labels tells the same of its own steps. */
  lemma {:induction false} PrefixTells<Q, R>(labels: seq<Label<Q, R>>, more: seq<Label<Q, R>>, t: nat, i: nat)
    requires i <= |labels| <= |more| && more[..|labels|] == labels
    ensures Pending(more, t, i) == Pending(labels, t, i) && CallOf(more, t, i) == CallOf(labels, t, i)
  {
    if i > 0 {
      PrefixTells(labels, more, t, i - 1);
      assert more[i - 1] == labels[i - 1];
    }
  }
}

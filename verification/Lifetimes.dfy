/** A concurrent set told by lifetimes: each element node has a key, the first state in which it is
    present and the last; -1 stands for "not yet". The set in state `i` is the keys alive in `i`. */
module Lifetimes {
  import opened SetHistory

  datatype Life = Life(key: int, born: int, died: int)

  predicate Alive(x: Life, i: int) {
    0 <= x.born <= i && (x.died < 0 || i <= x.died)
  }

  ghost predicate Has(ls: seq<Life>, k: int, i: int) {
    exists r :: 0 <= r < |ls| && ls[r].key == k && Alive(ls[r], i)
  }

  ghost predicate LifeOk(x: Life, now: int) {
    && -1 <= x.born <= now && x.born != 0 && -1 <= x.died < now
    && (0 <= x.died ==> 0 <= x.born <= x.died)
  }

  ghost predicate LivesOk(ls: seq<Life>, now: int) {
    forall r {:trigger LifeOk(ls[r], now)} :: 0 <= r < |ls| ==> LifeOk(ls[r], now)
  }

  /** In the step from state `now` nodes may be born (present from `now + 1`) or die (last present in `now`). */
  ghost predicate LifeGrows(x: Life, x': Life, now: int) {
    && x'.key == x.key
    && (0 <= x.born ==> x'.born == x.born) && (x.born < 0 ==> x'.born in {-1, now + 1})
    && (0 <= x.died ==> x'.died == x.died) && (x.died < 0 ==> x'.died in {-1, now})
  }

  ghost predicate Grows(ls: seq<Life>, ls': seq<Life>, now: int) {
    && |ls| <= |ls'|
    && (forall r {:trigger ls'[r]} :: 0 <= r < |ls| ==> LifeGrows(ls[r], ls'[r], now))
    && (forall r {:trigger ls'[r]} :: |ls| <= r < |ls'| ==> ls'[r].born in {-1, now + 1})
  }

  /** What was true of a past state stays true of it. */
  lemma HasFixed(ls: seq<Life>, ls': seq<Life>, now: int, i: int, k: int)
    requires LivesOk(ls, now) && Grows(ls, ls', now) && i <= now
    ensures Has(ls, k, i) <==> Has(ls', k, i)
  {
    if r :| 0 <= r < |ls| && ls[r].key == k && Alive(ls[r], i) {
      assert LifeOk(ls[r], now) && Alive(ls'[r], i);
    }
    if r :| 0 <= r < |ls'| && ls'[r].key == k && Alive(ls'[r], i) {
      assert LifeOk(ls[r], now) && Alive(ls[r], i);
    }
  }

  /** Effect `e` is exactly what changed between states `i` and `i + 1`. */
  ghost predicate EffectOk(ls: seq<Life>, e: Effect, i: int) {
    match e
    case Quiet => forall k :: Has(ls, k, i + 1) <==> Has(ls, k, i)
    case Added(_, key) => !Has(ls, key, i) && forall k :: Has(ls, k, i + 1) <==> (Has(ls, k, i) || k == key)
    case Removed(_, key) => Has(ls, key, i) && forall k :: Has(ls, k, i + 1) <==> (Has(ls, k, i) && k != key)
  }

  lemma QuietEffect(ls: seq<Life>, now: int)
    requires LivesOk(ls, now + 1)
    requires forall r :: 0 <= r < |ls| ==> ls[r].born <= now && ls[r].died < now
    ensures EffectOk(ls, Quiet, now)
  {
    forall k ensures Has(ls, k, now + 1) <==> Has(ls, k, now) {
      if r :| 0 <= r < |ls| && ls[r].key == k && Alive(ls[r], now + 1) {
        assert Alive(ls[r], now);
      }
      if r :| 0 <= r < |ls| && ls[r].key == k && Alive(ls[r], now) {
        assert Alive(ls[r], now + 1);
      }
    }
  }

  lemma AddedEffect(ls: seq<Life>, n: int, now: int, who: nat)
    requires LivesOk(ls, now + 1) && 0 <= n < |ls| && ls[n].born == now + 1 && 0 <= now
    requires forall r :: 0 <= r < |ls| ==> ls[r].died < now && (r != n ==> ls[r].born <= now)
    requires forall r :: 0 <= r < |ls| && r != n && ls[r].key == ls[n].key ==> !Alive(ls[r], now)
    ensures EffectOk(ls, Added(who, ls[n].key), now)
  {
    var key := ls[n].key;
    assert LifeOk(ls[n], now + 1) && Alive(ls[n], now + 1);
    forall k ensures Has(ls, k, now + 1) <==> (Has(ls, k, now) || k == key) {
      if r :| 0 <= r < |ls| && ls[r].key == k && Alive(ls[r], now) {
        assert LifeOk(ls[r], now + 1) && Alive(ls[r], now + 1);
      }
      if r :| 0 <= r < |ls| && ls[r].key == k && Alive(ls[r], now + 1) && r != n {
        assert Alive(ls[r], now);
      }
    }
  }

  lemma RemovedEffect(ls: seq<Life>, n: int, now: int, who: nat)
    requires LivesOk(ls, now + 1) && 0 <= n < |ls| && ls[n].died == now && 0 <= now
    requires forall r :: 0 <= r < |ls| ==> ls[r].born <= now && (r != n ==> ls[r].died < now)
    requires forall r :: 0 <= r < |ls| && r != n && ls[r].key == ls[n].key ==> !Alive(ls[r], now + 1)
    ensures EffectOk(ls, Removed(who, ls[n].key), now)
  {
    var key := ls[n].key;
    assert LifeOk(ls[n], now + 1) && Alive(ls[n], now);
    forall k ensures Has(ls, k, now + 1) <==> (Has(ls, k, now) && k != key) {
      if r :| 0 <= r < |ls| && ls[r].key == k && Alive(ls[r], now + 1) {
        assert LifeOk(ls[r], now + 1) && r != n && Alive(ls[r], now);
      }
      if r :| 0 <= r < |ls| && ls[r].key == k && Alive(ls[r], now) && k != key {
        assert LifeOk(ls[r], now + 1) && Alive(ls[r], now + 1);
      }
    }
  }

  // ---------------------------------------------------------------- answers

  /** State `point` justifies the answer: a look was right about it, a write is the step from it. */
  ghost predicate Justified(ls: seq<Life>, effects: seq<Effect>, who: nat, op: Op, key: int, result: bool,
                            start: nat, point: nat)
  {
    && start <= point <= |effects|
    && match op
       case Contains => Has(ls, key, point) == result
       case Insert => if result then point < |effects| && effects[point] == Added(who, key) else Has(ls, key, point)
       case Erase => if result then point < |effects| && effects[point] == Removed(who, key) else !Has(ls, key, point)
  }

  lemma JustifiedFixed(ls: seq<Life>, ls': seq<Life>, effects: seq<Effect>, e: Effect, who: nat, op: Op, key: int,
                       result: bool, start: nat, point: nat)
    requires LivesOk(ls, |effects|) && Grows(ls, ls', |effects|)
    requires Justified(ls, effects, who, op, key, result, start, point)
    ensures Justified(ls', effects + [e], who, op, key, result, start, point)
  {
    HasFixed(ls, ls', |effects|, point, key);
  }

  ghost predicate RecordOk(ls: seq<Life>, effects: seq<Effect>, d: Record) {
    d.point <= d.end <= |effects| && Justified(ls, effects, d.who, d.op, d.key, d.result, d.start, d.point)
  }

  ghost predicate HistoryOk(ls: seq<Life>, effects: seq<Effect>, done: seq<Record>) {
    && LivesOk(ls, |effects|)
    && (forall i {:trigger EffectOk(ls, effects[i], i)} :: 0 <= i < |effects| ==> EffectOk(ls, effects[i], i))
    && (forall d {:trigger RecordOk(ls, effects, d)} :: d in done ==> RecordOk(ls, effects, d))
    && (forall i, j :: 0 <= i < j < |done| && done[i].who == done[j].who ==> done[i].end < done[j].start)
  }

  lemma HistoryStep(ls: seq<Life>, ls': seq<Life>, effects: seq<Effect>, e: Effect, done: seq<Record>)
    requires HistoryOk(ls, effects, done) && Grows(ls, ls', |effects|)
    requires LivesOk(ls', |effects| + 1) && EffectOk(ls', e, |effects|)
    ensures HistoryOk(ls', effects + [e], done)
  {
    var now := |effects|;
    forall i | 0 <= i < now + 1 ensures EffectOk(ls', (effects + [e])[i], i) {
      if i < now {
        assert EffectOk(ls, effects[i], i);
        forall k ensures (Has(ls, k, i) <==> Has(ls', k, i)) && (Has(ls, k, i + 1) <==> Has(ls', k, i + 1)) {
          HasFixed(ls, ls', now, i, k);
          HasFixed(ls, ls', now, i + 1, k);
        }
      }
    }
    forall d | d in done ensures RecordOk(ls', effects + [e], d) {
      assert RecordOk(ls, effects, d);
      JustifiedFixed(ls, ls', effects, e, d.who, d.op, d.key, d.result, d.start, d.point);
    }
  }

  /** The set told by lifetimes is the set told by effects. */
  lemma {:induction false} HasSetAt(ls: seq<Life>, effects: seq<Effect>, done: seq<Record>, i: nat, k: int)
    requires HistoryOk(ls, effects, done) && i <= |effects|
    ensures Has(ls, k, i) <==> k in SetAt(effects, i)
  {
    if i == 0 {
      assert forall r :: 0 <= r < |ls| ==> LifeOk(ls[r], |effects|);
    } else {
      HasSetAt(ls, effects, done, i - 1, k);
      assert EffectOk(ls, effects[i - 1], i - 1);
    }
  }

  lemma HistoryExplains(ls: seq<Life>, effects: seq<Effect>, done: seq<Record>)
    requires HistoryOk(ls, effects, done)
    ensures Explained(effects, done)
  {
    forall i | 0 <= i < |effects|
      ensures effects[i].Added? ==> effects[i].key !in SetAt(effects, i)
      ensures effects[i].Removed? ==> effects[i].key in SetAt(effects, i)
    {
      assert EffectOk(ls, effects[i], i);
      if effects[i] != Quiet {
        HasSetAt(ls, effects, done, i, effects[i].key);
      }
    }
    forall d | d in done
      ensures d.start <= d.point <= d.end && Answers(effects, d.who, d.op, d.key, d.result, d.point)
    {
      assert RecordOk(ls, effects, d);
      HasSetAt(ls, effects, done, d.point, d.key);
    }
  }
}

/** The bit reversal of include/lockfree_hash_map.hpp:207-219 reverses the 32 bits of a word. */
module ReverseBits {
  import opened SplitOrder

  /** The five swaps of the code. */
  function Swapped(v0: bv32): bv32 {
    var v1 := ((v0 >> 1) & 0x55555555) | ((v0 & 0x55555555) << 1);
    var v2 := ((v1 >> 2) & 0x33333333) | ((v1 & 0x33333333) << 2);
    var v3 := ((v2 >> 4) & 0x0F0F0F0F) | ((v2 & 0x0F0F0F0F) << 4);
    var v4 := ((v3 >> 8) & 0x00FF00FF) | ((v3 & 0x00FF00FF) << 8);
    (v4 >> 16) | (v4 << 16)
  }

  /** The number that the low `n` bits of a word stand for. */
  function Value(v: bv32, n: nat): (r: nat)
    ensures r < Pow2(n)
  {
    if n == 0 then 0 else (if v & 1 == 1 then 1 else 0) + 2 * Value(v >> 1, n - 1)
  }

  function Shifted(v: bv32, m: nat): bv32 {
    if m == 0 then v else Shifted(v >> 1, m - 1)
  }

  lemma {:induction false} ValueBit(v: bv32, n: nat, i: nat)
    requires i < n
    ensures Bit(Value(v, n), i) == (Shifted(v, i) & 1 == 1)
  {
    if i > 0 { ValueBit(v >> 1, n - 1, i - 1); }
  }

  /** The low `m + 1` bits of `x` are all ones. */
  predicate Ones(x: bv32, m: nat) {
    x & 1 == 1 && (m == 0 || Ones(x >> 1, m - 1))
  }

  lemma {:induction false} SameUnder(v: bv32, w: bv32, x: bv32, m: nat, n: nat)
    requires m <= n && Ones(x, n) && (v ^ w) & x == 0
    ensures Shifted(v, m) & 1 == Shifted(w, m) & 1
  {
    if m > 0 { SameUnder(v >> 1, w >> 1, x >> 1, m - 1, n - 1); }
  }

  lemma ShiftFour(v: bv32, m: nat)
    ensures Shifted(v, m + 4) == Shifted(v >> 4, m)
  {
    var w := ((v >> 1) >> 1) >> 1;
    assert w >> 1 == v >> 4;
    assert Shifted(v, m + 4) == Shifted(v >> 1, m + 3) == Shifted((v >> 1) >> 1, m + 2) == Shifted(w, m + 1);
  }

  lemma OnesFour(x: bv32, m: nat)
    requires x & 0xF == 0xF && Ones(x >> 4, m)
    ensures Ones(x, m + 4)
  {
    var y := ((x >> 1) >> 1) >> 1;
    assert y >> 1 == x >> 4;
    assert Ones(y, m + 1) && Ones((x >> 1) >> 1, m + 2) && Ones(x >> 1, m + 3);
  }

  lemma ShiftWord(v: bv32)
    ensures Shifted(v, 31) == v >> 31
  {
    var v1 := v >> 4;
    var v2 := v1 >> 4;
    var v3 := v2 >> 4;
    var v4 := v3 >> 4;
    var v5 := v4 >> 4;
    var v6 := v5 >> 4;
    var v7 := v6 >> 4;
    ShiftFour(v, 27);
    ShiftFour(v1, 23);
    ShiftFour(v2, 19);
    ShiftFour(v3, 15);
    ShiftFour(v4, 11);
    ShiftFour(v5, 7);
    ShiftFour(v6, 3);
    assert v7 == v >> 28;
    ShiftThree(v7);
    assert ((v7 >> 1) >> 1) >> 1 == v >> 31;
  }

  lemma ShiftThree(v: bv32)
    ensures Shifted(v, 3) == ((v >> 1) >> 1) >> 1
  {
    assert Shifted(v, 3) == Shifted(v >> 1, 2) == Shifted((v >> 1) >> 1, 1);
  }

  lemma OnesWord()
    ensures Ones(0x7FFFFFFF, 30)
  {
    assert Ones(1, 0) && Ones(3, 1) && Ones(7, 2);
    OnesFour(0x7F, 2);
    OnesFour(0x7FF, 6);
    OnesFour(0x7FFF, 10);
    OnesFour(0x7FFFF, 14);
    OnesFour(0x7FFFFF, 18);
    OnesFour(0x7FFFFFF, 22);
    OnesFour(0x7FFFFFFF, 26);
  }

  lemma {:induction false} CodeMovesBit(v: bv32, i: nat)
    requires i < WORD
    ensures Shifted(Swapped(v), i) & 1 == Shifted(v, WORD - 1 - i) & 1
    decreases i
  {
    CodeMovesOne(v);
    if i == 0 {
      ShiftWord(v);
    } else {
      OnesWord();
      CodeMovesBit(v << 1, i - 1);
      SameUnder((v << 1) >> 1, v, 0x7FFFFFFF, WORD - 1 - i, 30);
      hide Swapped;
      assert Shifted(v << 1, WORD - i) == Shifted((v << 1) >> 1, WORD - 1 - i);
    }
  }

  lemma CodeMovesOne(v: bv32)
    ensures Swapped(v) >> 1 == Swapped(v << 1) && Swapped(v) & 1 == v >> 31
    ensures (((v << 1) >> 1) ^ v) & 0x7FFFFFFF == 0
  {
  }

  /** The code's five swaps reverse the 32 bits. */
  lemma CodeReverses(v: bv32)
    ensures Value(Swapped(v), WORD) == Reverse(Value(v, WORD), WORD)
    ensures Swapped(Swapped(v)) == v
  {
    hide Swapped;
    var a, b := Value(Swapped(v), WORD), Reverse(Value(v, WORD), WORD);
    forall i: nat | i < WORD ensures Bit(a, i) == Bit(b, i) {
      ValueBit(Swapped(v), WORD, i);
      ValueBit(v, WORD, WORD - 1 - i);
      CodeMovesBit(v, i);
      ReverseBit(Value(v, WORD), WORD, i);
    }
    SameBits(a, b, WORD);
    CodeTwice(v);
  }

  lemma CodeTwice(v: bv32)
    ensures Swapped(Swapped(v)) == v
  {
  }
}

// The sequence number generator (session_manager.hpp).
module SequenceNumbers {
  import opened Smpp

  type SeqNum = n: nat | SEQ_MIN <= n <= SEQ_MAX witness SEQ_MIN

  const RANGE: nat := SEQ_MAX - SEQ_MIN + 1

  // The generator's value after a draw; the number drawn is the value before it.
  function Succ(n: SeqNum): SeqNum {
    if n < SEQ_MAX then n + 1 else SEQ_MIN
  }

  // The generator's value after k draws, which is the number that draw k (from 0) returns.
  function Nth(k: nat): SeqNum {
    if k == 0 then SEQ_MIN else Succ(Nth(k - 1))
  }

  class SequenceNumberGenerator {
    var mVal: SeqNum

    constructor ()
      ensures mVal == Nth(0)
    {
      mVal := SEQ_MIN;
    }

    method Next() returns (n: SeqNum)
      modifies this
      ensures n == old(mVal) && mVal == Succ(old(mVal))
    {
      if mVal < SEQ_MAX {
        n := mVal;
        mVal := mVal + 1;
      } else {
        mVal := SEQ_MIN;
        n := SEQ_MAX;
      }
    }
  }

  lemma {:induction false} NthIsCyclic(k: nat)
    ensures Nth(k) == SEQ_MIN + k % RANGE
  {
    if k > 0 {
      NthIsCyclic(k - 1);
      ModStep(k);
    }
  }

  lemma ModStep(k: nat)
    requires k > 0
    ensures k % RANGE == if (k - 1) % RANGE == RANGE - 1 then 0 else (k - 1) % RANGE + 1
  {
    var q, r := (k - 1) / RANGE, (k - 1) % RANGE;
    assert k == q * RANGE + r + 1;
    if r == RANGE - 1 {
      assert k == (q + 1) * RANGE;
      ModUnique(k, q + 1, 0);
    } else {
      ModUnique(k, q, r + 1);
    }
  }

  lemma ModUnique(k: nat, q: nat, r: nat)
    requires k == q * RANGE + r && r < RANGE
    ensures k % RANGE == r
  {
    var q', r' := k / RANGE, k % RANGE;
    assert k == q' * RANGE + r';
    assert (q - q') * RANGE == r' - r;
  }

  /** Two draws return the same number exactly when a whole number of cycles separates them. */
  lemma SameNumberIffWholeCycles(i: nat, j: nat)
    requires i <= j
    ensures Nth(i) == Nth(j) <==> (j - i) % RANGE == 0
  {
    hide Nth;
    NthIsCyclic(i);
    NthIsCyclic(j);
    SumModulo(i, j - i);
    SamePlaceIff(i % RANGE, (j - i) % RANGE, j % RANGE);
  }

  lemma SamePlaceIff(i: nat, d: nat, j: nat)
    requires i < RANGE && d < RANGE && j == if i + d < RANGE then i + d else i + d - RANGE
    ensures i == j <==> d == 0
  {
  }

  lemma SumModulo(i: nat, d: nat)
    ensures var r := i % RANGE + d % RANGE; (i + d) % RANGE == if r < RANGE then r else r - RANGE
  {
    var qi, ri, qd, rd := i / RANGE, i % RANGE, d / RANGE, d % RANGE;
    assert i == qi * RANGE + ri && d == qd * RANGE + rd;
    if ri + rd < RANGE {
      ModUnique(i + d, qi + qd, ri + rd);
    } else {
      ModUnique(i + d, qi + qd + 1, ri + rd - RANGE);
    }
  }
}

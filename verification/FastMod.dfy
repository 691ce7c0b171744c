/** The bit mask the queue uses instead of a division. */
module FastMod {
  import Mpmc

  /** Bitwise and. */
  function And(a: nat, b: nat): nat {
    if a == 0 || b == 0 then 0
    else 2 * And(a / 2, b / 2) + (if a % 2 == 1 && b % 2 == 1 then 1 else 0)
  }

  function Pow2(k: nat): (p: nat)
    ensures p >= 1
  {
    if k == 0 then 1 else 2 * Pow2(k - 1)
  }

  /** `n & (n - 1)` is zero exactly for the powers of two. */
  predicate IsPowerOfTwo(n: nat) {
    n > 0 && And(n, n - 1) == 0
  }

  lemma {:induction false} PowerOfTwo(n: nat) returns (k: nat)
    requires IsPowerOfTwo(n)
    ensures n == Pow2(k)
  {
    if n == 1 {
      k := 0;
    } else {
      HalvesToPower(n);
      var j := PowerOfTwo(n / 2);
      k := j + 1;
    }
  }

  lemma {:induction false} HalvesToPower(n: nat)
    requires n > 1 && And(n, n - 1) == 0
    ensures n % 2 == 0 && And(n / 2, n / 2 - 1) == 0
  {
    var h := n / 2;
    assert And(n, n - 1) >= 2 * And(h, (n - 1) / 2);
    AndSelf(h);
    assert n == 2 * h ==> (n - 1) / 2 == h - 1;
  }

  lemma {:induction false} AndSelf(a: nat)
    ensures And(a, a) == a
  {
    if a > 0 {
      AndSelf(a / 2);
    }
  }

  lemma {:induction false} PowersPass(k: nat)
    ensures IsPowerOfTwo(Pow2(k))
  {
    if k > 0 {
      PowersPass(k - 1);
      var p := Pow2(k - 1);
      assert (2 * p - 1) / 2 == p - 1 && (2 * p) / 2 == p;
    }
  }

  /** With a power-of-two capacity the mask picks the same slot as the remainder. */
  lemma {:induction false} MaskIsCell(pos: nat, k: nat)
    ensures And(pos, Pow2(k) - 1) == Mpmc.Cell(pos, Pow2(k))
  {
    if k == 0 {
      CellOne(pos);
    } else {
      var p := Pow2(k - 1);
      MaskIsCell(pos / 2, k - 1);
      assert (2 * p - 1) / 2 == p - 1 && (2 * p - 1) % 2 == 1;
      CellDoubles(pos, p);
      if pos == 0 || p == 1 {
        assert And(pos / 2, p - 1) == 0;
      }
    }
  }

  lemma {:induction false} CellOne(pos: nat)
    ensures Mpmc.Cell(pos, 1) == 0
  {
    if pos > 0 {
      CellOne(pos - 1);
    }
  }

  lemma {:induction false} CellDoubles(pos: nat, p: nat)
    requires p > 0
    ensures Mpmc.Cell(pos, 2 * p) == 2 * Mpmc.Cell(pos / 2, p) + pos % 2
    decreases pos
  {
    if pos >= 2 * p {
      CellDoubles(pos - 2 * p, p);
      assert (pos - 2 * p) / 2 == pos / 2 - p && (pos - 2 * p) % 2 == pos % 2;
    }
  }
}

/** Powers of two, the sizes of rings and the alignments of the heap. */
module Pow2 {
  import Arith

  predicate IsPow2(n: nat)
  {
    n == 1 || (n > 1 && n % 2 == 0 && IsPow2(n / 2))
  }

  function Exp2(k: nat): nat { if k == 0 then 1 else 2 * Exp2(k - 1) }

  /** The halving test finds exactly the powers of two. */
  lemma {:induction false} Pow2Is(n: nat)
    ensures IsPow2(n) <==> exists k: nat :: n == Exp2(k)
  {
    if IsPow2(n) {
      var k := Pow2Log(n);
    }
    if k: nat :| n == Exp2(k) {
      Exp2IsPow2(k);
    }
  }

  lemma {:induction false} Pow2Log(n: nat) returns (k: nat)
    requires IsPow2(n)
    ensures n == Exp2(k)
  {
    if n == 1 {
      k := 0;
    } else {
      k := Pow2Log(n / 2);
      k := k + 1;
    }
  }

  lemma {:induction false} Exp2IsPow2(k: nat)
    ensures Exp2(k) >= 1 && IsPow2(Exp2(k))
  {
    if k > 0 {
      Exp2IsPow2(k - 1);
    }
  }

  lemma {:induction false} Pow2Double(n: nat)
    requires IsPow2(n)
    ensures IsPow2(2 * n)
  {
    assert 2 * n / 2 == n;
  }

  lemma {:induction false} Pow2Gap(a: nat, b: nat)
    requires IsPow2(a) && IsPow2(b) && a < b
    ensures 2 * a <= b
  {
    if a > 1 {
      Pow2Gap(a / 2, b / 2);
    }
  }

  lemma {:induction false} Pow2Divides(a: nat, b: nat)
    requires IsPow2(a) && IsPow2(b) && a <= b
    ensures b % a == 0
  {
    if a > 1 {
      Pow2Divides(a / 2, b / 2);
      var q := (b / 2) / (a / 2);
      assert b / 2 == q * (a / 2);
      assert b == q * a;
      Arith.DivModUnique(b, a, q, 0);
    }
  }

  lemma {:induction false} Pow2Mul(a: nat, b: nat)
    requires IsPow2(a) && IsPow2(b)
    ensures a * b >= 0 && IsPow2(a * b)
  {
    if a > 1 {
      Pow2Mul(a / 2, b);
      var p := (a / 2) * b;
      assert a * b == p + p by { Arith.Distribute(a / 2, a / 2, b); }
    }
  }
}

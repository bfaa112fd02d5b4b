/** Powers of two and the mask formulas of the ring buffers, on machine words written as integers. */
module Bits {
  import opened Modular

  function Pow2(k: nat): (p: nat)
    ensures p >= 1
  {
    if k == 0 then 1 else 2 * Pow2(k - 1)
  }

  /** Bitwise `x & y` of two words of `w` bits. */
  function And(x: nat, y: nat, w: nat): nat {
    if w == 0 then 0
    else (if x % 2 == 1 && y % 2 == 1 then 1 else 0) + 2 * And(x / 2, y / 2, w - 1)
  }

  /** Bitwise `~x` of a word of `w` bits. */
  function Not(x: nat, w: nat): nat
    requires x < Pow2(w)
  {
    Pow2(w) - 1 - x
  }

  /** `(pos + alignment - 1) & ~(alignment - 1)` in words of `w` bits. */
  function Align(pos: nat, alignment: nat, w: nat): nat
    requires 1 <= alignment <= Pow2(w)
  {
    And((pos + alignment - 1) % Pow2(w), Not(alignment - 1, w), w)
  }

  lemma {:induction false} AndOnes(x: nat, w: nat)
    requires x < Pow2(w)
    ensures And(x, Pow2(w) - 1, w) == x
  {
    if w > 0 {
      assert (Pow2(w) - 1) / 2 == Pow2(w - 1) - 1 && (Pow2(w) - 1) % 2 == 1;
      AndOnes(x / 2, w - 1);
    }
  }

  lemma ModTwice(x: nat, p: nat)
    requires p >= 1
    ensures x % (2 * p) == x % 2 + 2 * ((x / 2) % p)
  {
    var h := x / 2;
    var q, r := h / p, h % p;
    assert h == p * q + r;
    assert x == (2 * p) * q + (2 * r + x % 2) by {
      assert x == 2 * h + x % 2;
      assert 2 * (p * q) == (2 * p) * q;
    }
    ModUnique(x, 2 * p, q, 2 * r + x % 2);
  }

  lemma {:induction false} AndWithHighMask(x: nat, k: nat, w: nat)
    requires k <= w && x < Pow2(w)
    ensures Pow2(k) <= Pow2(w)
    ensures And(x, Not(Pow2(k) - 1, w), w) == x - x % Pow2(k)
    decreases w, 1
  {
    PowMono(k, w);
    if k == 0 {
      AndOnes(x, w);
    } else {
      HighNext(x, k, w, Pow2(k - 1));
    }
  }

  lemma NotTwice(p: nat, w: nat)
    requires 0 < w && 0 < p && 2 * p <= Pow2(w)
    ensures p <= Pow2(w - 1)
    ensures Not(2 * p - 1, w) == 2 * Not(p - 1, w - 1)
  {
  }

  lemma {:induction false} HighNext(x: nat, k: nat, w: nat, p: nat)
    requires 0 < k <= w && x < Pow2(w) && p == Pow2(k - 1) && 2 * p <= Pow2(w)
    ensures And(x, Not(2 * p - 1, w), w) == x - x % (2 * p)
    decreases w, 0
  {
    AndWithHighMask(x / 2, k - 1, w - 1);
    HighStep(x, p, Not(p - 1, w - 1), w);
    NotTwice(p, w);
  }

  lemma HighStep(x: nat, p: nat, z: nat, w: nat)
    requires p >= 1 && w > 0
    requires And(x / 2, z, w - 1) == x / 2 - (x / 2) % p
    ensures And(x, 2 * z, w) == x - x % (2 * p)
  {
    AndEven(x, z, w);
    HighTwice(x, p);
  }

  lemma HighTwice(x: nat, p: nat)
    requires p >= 1
    ensures 2 * (x / 2 - (x / 2) % p) == x - x % (2 * p)
  {
    ModTwice(x, p);
  }

  lemma AndEven(x: nat, z: nat, w: nat)
    requires w > 0
    ensures And(x, 2 * z, w) == 2 * And(x / 2, z, w - 1)
  {
    assert (2 * z) % 2 == 0 && (2 * z) / 2 == z;
  }

  lemma {:induction false} PowMono(k: nat, w: nat)
    requires k <= w
    ensures Pow2(k) <= Pow2(w)
    decreases w
  {
    if k < w {
      PowMono(k, w - 1);
    }
  }

  ghost predicate IsPow2(a: nat) {
    exists k: nat :: a == Pow2(k)
  }

  /** The aligned position the ring uses, without the machine word. */
  function AlignUp(pos: nat, alignment: nat): (a: nat)
    requires alignment >= 1
  {
    (pos + alignment - 1) - (pos + alignment - 1) % alignment
  }

  /** The mask formula is the least multiple of a power-of-two alignment not below `pos`, when the
      sum does not overflow the word. */
  lemma AlignIsLeast(pos: nat, k: nat, w: nat)
    requires k <= w && pos + Pow2(k) - 1 < Pow2(w)
    ensures Pow2(k) <= Pow2(w)
    ensures var a := Align(pos, Pow2(k), w);
            && a == AlignUp(pos, Pow2(k))
            && a % Pow2(k) == 0 && pos <= a
            && forall b: nat :: b % Pow2(k) == 0 && pos <= b ==> a <= b
  {
    PowMono(k, w);
    var d := Pow2(k);
    var x := pos + d - 1;
    assert x % Pow2(w) == x by { ModUnique(x, Pow2(w), 0, x); }
    AndWithHighMask(x, k, w);
    AlignUpIsLeast(pos, d);
  }

  lemma AlignUpIsLeast(pos: nat, d: nat)
    requires d >= 1
    ensures AlignUp(pos, d) % d == 0 && pos <= AlignUp(pos, d) < pos + d
    ensures forall b: nat :: b % d == 0 && pos <= b ==> AlignUp(pos, d) <= b
  {
    var x := pos + d - 1;
    var q := x / d;
    assert AlignUp(pos, d) == d * q + 0;
    ModUnique(AlignUp(pos, d), d, q, 0);
    forall b: nat | b % d == 0 && pos <= b ensures AlignUp(pos, d) <= b {
      var p := b / d;
      assert b == d * p;
      if p < q {
        MulLe(d, p, q);
      } else if q < p {
        MulLe(d, q, p);
      }
    }
  }
}

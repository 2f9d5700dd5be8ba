/** Bitwise operators on unbounded integers, read as infinite two's complement.

    Kotlin's `and`, `or`, `xor`, `shl` and `shr` on `Int`, and JavaScript's `&`, `|`, `<<`
    and `>>` on int32 values, agree with these definitions whenever no 32-bit overflow
    happens. The recursion peels off the lowest bit; a value is "all zeros" (0) or
    "all ones" (-1) once every remaining bit equals its sign. */
module Bits {

  /** 2^k. */
  function Pow2(k: nat): (p: int)
    ensures p >= 1
  {
    if k == 0 then 1 else 2 * Pow2(k - 1)
  }

  /** How far `a` is from being a pure sign (0 or -1); halving shrinks it. */
  function Magnitude(a: int): nat
  {
    if a >= 0 then a else -a - 1
  }

  predicate IsSign(a: int)
  {
    a == 0 || a == -1
  }

  lemma HalfShrinks(a: int)
    ensures Magnitude(a / 2) <= Magnitude(a)
    ensures !IsSign(a) ==> Magnitude(a / 2) < Magnitude(a)
  {
  }

  /** `a and b` / `a & b`. */
  function And(a: int, b: int): int
    decreases Magnitude(a) + Magnitude(b)
  {
    if IsSign(a) && IsSign(b) then
      (if a == -1 && b == -1 then -1 else 0)
    else
      2 * And(a / 2, b / 2) + (if a % 2 == 1 && b % 2 == 1 then 1 else 0)
  }

  /** `a or b` / `a | b`. */
  function Or(a: int, b: int): int
    decreases Magnitude(a) + Magnitude(b)
  {
    if IsSign(a) && IsSign(b) then
      (if a == -1 || b == -1 then -1 else 0)
    else
      2 * Or(a / 2, b / 2) + (if a % 2 == 1 || b % 2 == 1 then 1 else 0)
  }

  /** `a xor b` / `a ^ b`. */
  function Xor(a: int, b: int): int
    decreases Magnitude(a) + Magnitude(b)
  {
    if IsSign(a) && IsSign(b) then
      (if a != b then -1 else 0)
    else
      2 * Xor(a / 2, b / 2) + (if a % 2 != b % 2 then 1 else 0)
  }

  /** Arithmetic right shift `a shr k` / `a >> k`: Dafny's `/` by a positive divisor
      rounds toward negative infinity, which is what a sign-propagating shift does. */
  function ShiftRight(a: int, k: nat): int
  {
    a / Pow2(k)
  }

  /** Left shift `a shl k` / `a << k`, without the 32-bit wrap-around. */
  function ShiftLeft(a: int, k: nat): int
  {
    a * Pow2(k)
  }

  // ---------------------------------------------------------------------------
  // Arithmetic facts about Euclidean division used below.

  /** Division and remainder are determined by any decomposition with a remainder in range. */
  lemma DivModUnique(w: int, d: int, q: int, r: int)
    requires d > 0 && w == d * q + r && 0 <= r < d
    ensures w / d == q && w % d == r
  {
    var q0, r0 := w / d, w % d;
    var t := q - q0;
    assert d * t == r0 - r by {
      assert d * q0 + r0 == d * q + r;
      assert d * t == d * q - d * q0;
    }
    if t > 0 {
      MulAtLeast(d, t);
    } else if t < 0 {
      MulAtLeast(d, -t);
    }
  }

  lemma MulAtLeast(d: int, t: int)
    requires d > 0 && t > 0
    ensures d * t >= d
  {
    assert d * t == d * (t - 1) + d;
    assert d * (t - 1) >= 0;
  }

  /** Splitting a remainder: the low `a*b` part of `w` is its low `a` part plus the next digit. */
  lemma ModSplit(w: int, a: int, b: int)
    requires a > 0 && b > 0
    ensures w / (a * b) == (w / a) / b
    ensures w % (a * b) == ((w / a) % b) * a + w % a
  {
    var q, r := w / a, w % a;
    var q2, r2 := q / b, q % b;
    Regroup(a, b, q2, r2, r);
    DigitBelow(a, b, r2, r);
    DivModUnique(w, a * b, q2, a * r2 + r);
  }

  lemma Regroup(a: int, b: int, q2: int, r2: int, r: int)
    ensures a * (b * q2 + r2) + r == (a * b) * q2 + (a * r2 + r)
  {
  }

  lemma DigitBelow(a: int, b: int, r2: int, r: int)
    requires a > 0 && 0 <= r2 < b && 0 <= r < a
    ensures 0 <= a * r2 + r < a * b
  {
    assert a * r2 <= a * (b - 1) by {
      assert a * (b - 1) - a * r2 == a * (b - 1 - r2);
    }
  }

  // ---------------------------------------------------------------------------
  // Masks.

  /** One step of each recursion; it holds for every pair of operands, pure signs included. */
  lemma Step(a: int, b: int)
    ensures And(a, b) == 2 * And(a / 2, b / 2) + (if a % 2 == 1 && b % 2 == 1 then 1 else 0)
    ensures Or(a, b) == 2 * Or(a / 2, b / 2) + (if a % 2 == 1 || b % 2 == 1 then 1 else 0)
    ensures Xor(a, b) == 2 * Xor(a / 2, b / 2) + (if a % 2 != b % 2 then 1 else 0)
  {
  }

  lemma {:induction false} AndZero(w: int)
    ensures And(w, 0) == 0
    decreases Magnitude(w)
  {
    if !IsSign(w) {
      HalfShrinks(w);
      AndZero(w / 2);
      Step(w, 0);
    }
  }

  /** Masking with k low ones keeps the remainder modulo 2^k. */
  lemma {:induction false} AndLowMask(w: int, k: nat)
    ensures And(w, Pow2(k) - 1) == w % Pow2(k)
    decreases k
  {
    if k == 0 {
      AndZero(w);
    } else {
      var p := Pow2(k - 1);
      var m := Pow2(k) - 1;
      assert m == 2 * (p - 1) + 1;
      assert m / 2 == p - 1 && m % 2 == 1;
      Step(w, m);
      AndLowMask(w / 2, k - 1);
      assert And(w, m) == 2 * ((w / 2) % p) + w % 2;
      ModSplit(w, 2, p);
    }
  }

  /** Masking with an even mask: the lowest bit of the word is dropped. */
  lemma AndEvenMask(w: int, c: int)
    ensures And(w, 2 * c) == 2 * And(w / 2, c)
  {
    Step(w, 2 * c);
    assert (2 * c) / 2 == c && (2 * c) % 2 == 0;
  }

  /** Masking with a mask shifted left by k is masking the shifted-down word, shifted back. */
  lemma {:induction false} AndShiftedMask(w: int, m: nat, k: nat)
    ensures And(w, m * Pow2(k)) == And(w / Pow2(k), m) * Pow2(k)
    decreases k
  {
    if k > 0 {
      AndShiftedMask(w / 2, m, k - 1);
      ShiftedMaskStep(w, m, Pow2(k - 1));
    }
  }

  /** The inductive step of AndShiftedMask, stated for a shift of p and then of 2p. */
  lemma ShiftedMaskStep(w: int, m: int, p: int)
    requires p >= 1
    requires And(w / 2, m * p) == And((w / 2) / p, m) * p
    ensures And(w, m * (2 * p)) == And(w / (2 * p), m) * (2 * p)
  {
    var mk := m * p;
    Doubling(m, p);
    AndEvenMask(w, mk);
    assert (w / 2) / p == w / (2 * p) by {
      ModSplit(w, 2, p);
    }
    var low := And(w / (2 * p), m);
    calc {
      And(w, m * (2 * p));
    ==
      2 * And(w / 2, mk);
    ==
      2 * (low * p);
    ==  { Doubling(low, p); }
      low * (2 * p);
    }
  }

  lemma Doubling(x: int, p: int)
    ensures 2 * (x * p) == x * (2 * p)
  {
  }

  /** A mask of `width` ones starting at bit `low` selects the corresponding digit of `w`. */
  lemma FieldMask(w: int, low: nat, width: nat)
    ensures And(w, (Pow2(width) - 1) * Pow2(low))
         == ((w / Pow2(low)) % Pow2(width)) * Pow2(low)
  {
    AndShiftedMask(w, Pow2(width) - 1, low);
    AndLowMask(w / Pow2(low), width);
  }

  // ---------------------------------------------------------------------------
  // Bit-combining properties used by the register operations.

  /** The step equations at the level of a single bit pair. */
  lemma BitArithmetic(p: int, q: int)
    requires 0 <= p <= 1 && 0 <= q <= 1
    ensures (if p == 1 || q == 1 then 1 else 0) + (if p == 1 && q == 1 then 1 else 0) == p + q
    ensures (if p != q then 1 else 0) == p + q - 2 * (if p == 1 && q == 1 then 1 else 0)
  {
  }

  /** Or and And together count every bit once: `(a or b) + (a and b) == a + b`. */
  lemma {:induction false} OrPlusAnd(a: int, b: int)
    ensures Or(a, b) + And(a, b) == a + b
    decreases Magnitude(a) + Magnitude(b)
  {
    if !(IsSign(a) && IsSign(b)) {
      HalfShrinks(a); HalfShrinks(b);
      OrPlusAnd(a / 2, b / 2);
      Step(a, b);
      BitArithmetic(a % 2, b % 2);
    }
  }

  /** Xor is the sum without the carries: `(a xor b) == a + b - 2 * (a and b)`. */
  lemma {:induction false} XorIsSumWithoutCarries(a: int, b: int)
    ensures Xor(a, b) == a + b - 2 * And(a, b)
    decreases Magnitude(a) + Magnitude(b)
  {
    if !(IsSign(a) && IsSign(b)) {
      HalfShrinks(a); HalfShrinks(b);
      XorIsSumWithoutCarries(a / 2, b / 2);
      Step(a, b);
      BitArithmetic(a % 2, b % 2);
    }
  }

  lemma {:induction false} AndSelf(a: int)
    ensures And(a, a) == a
    decreases Magnitude(a)
  {
    if !IsSign(a) {
      HalfShrinks(a);
      AndSelf(a / 2);
      Step(a, a);
    }
  }

  /** Every operator stays within [0, 2^k) when both operands do. */
  lemma {:induction false} BoundedOperands(a: int, b: int, k: nat)
    requires 0 <= a < Pow2(k) && 0 <= b < Pow2(k)
    ensures 0 <= And(a, b) < Pow2(k)
    ensures 0 <= Or(a, b) < Pow2(k)
    ensures 0 <= Xor(a, b) < Pow2(k)
    decreases k
  {
    if !(IsSign(a) && IsSign(b)) {
      assert k > 0;
      BoundedOperands(a / 2, b / 2, k - 1);
      Step(a, b);
    }
  }

  lemma {:induction false} OrZero(a: int)
    ensures Or(a, 0) == a
    decreases Magnitude(a)
  {
    if !IsSign(a) {
      HalfShrinks(a);
      OrZero(a / 2);
      Step(a, 0);
    }
  }

  /** Or with a value whose low k bits are clear places `b` into those bits: `(a shl k) or b`. */
  lemma {:induction false} OrIntoLowBits(a: int, b: int, k: nat)
    requires 0 <= b < Pow2(k)
    ensures Or(a * Pow2(k), b) == a * Pow2(k) + b
    decreases k
  {
    if k == 0 {
      assert b == 0 && a * Pow2(0) == a;
      OrZero(a);
    } else {
      var p := Pow2(k - 1);
      var c := a * p;
      assert a * Pow2(k) == 2 * c;
      Step(2 * c, b);
      assert (2 * c) / 2 == c && (2 * c) % 2 == 0;
      OrIntoLowBits(a, b / 2, k - 1);
      assert Or(2 * c, b) == 2 * (c + b / 2) + b % 2;
    }
  }
}

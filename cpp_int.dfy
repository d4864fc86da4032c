/**
 * The C++ integer semantics the header decoder relies on: a left shift on a
 * 32-bit `int` as C++20 defines it, and the conversion of an `int` to a 64-bit
 * `std::size_t`.
 */
module CppInt {

  /** The value a C++ expression evaluates to, or the fact that evaluating it
      has undefined behaviour. */
  datatype CppValue = Defined(value: int) | UndefinedBehaviour

  /** Width of `int` in bits. */
  const IntWidth: nat := 32
  /** 2^32: the modulus of `int` arithmetic. */
  const IntModulus: int := 0x1_0000_0000
  /** 2^64: the modulus of a 64-bit `std::size_t`. */
  const SizeTModulus: int := 0x1_0000_0000_0000_0000

  /** 2 to the power n. */
  function Pow2(n: nat): (r: nat)
    ensures r >= 1
  {
    if n == 0 then 1 else 2 * Pow2(n - 1)
  }

  lemma {:induction false} Pow2Add(a: nat, b: nat)
    ensures Pow2(a + b) == Pow2(a) * Pow2(b)
  {
    if a > 0 {
      Pow2Add(a - 1, b);
      calc {
        Pow2(a + b);
        2 * Pow2(a - 1 + b);
        2 * (Pow2(a - 1) * Pow2(b));
        (2 * Pow2(a - 1)) * Pow2(b);
      }
    }
  }

  lemma Pow2Monotone(a: nat, b: nat)
    requires a <= b
    ensures Pow2(a) <= Pow2(b)
  {
  }

  lemma Pow2Constants()
    ensures Pow2(10) == 0x400
    ensures Pow2(30) == 0x4000_0000
    ensures Pow2(31) == 0x8000_0000
    ensures Pow2(32) == IntModulus
  {
    assert Pow2(5) == 32;
    Pow2Add(5, 5);
    Pow2Add(10, 10);
    Pow2Add(20, 10);
    assert Pow2(31) == 2 * Pow2(30);
    assert Pow2(32) == 2 * Pow2(31);
  }

  /** The `int` a mathematical integer becomes when reduced to 32 bits: the
      unique value in [-2^31, 2^31) that is congruent to x modulo 2^32. */
  function WrapInt(x: int): (r: int)
    ensures -IntModulus / 2 <= r < IntModulus / 2
    ensures (x - r) % IntModulus == 0
  {
    var m := x % IntModulus;
    if m < IntModulus / 2 then m else m - IntModulus
  }

  /** `e1 << e2` with `int` operands (C++20 [expr.shift]): undefined when the
      shift count is at least the width of `int`, otherwise e1 * 2^e2 reduced
      modulo 2^32. */
  function ShiftLeftInt(e1: int, e2: nat): (r: CppValue)
    ensures r.UndefinedBehaviour? <==> e2 >= IntWidth
    ensures r.Defined? ==>
              && -IntModulus / 2 <= r.value < IntModulus / 2
              && (e1 * Pow2(e2) - r.value) % IntModulus == 0
  {
    if e2 >= IntWidth then UndefinedBehaviour else Defined(WrapInt(e1 * Pow2(e2)))
  }

  /** The integral conversion of an `int` to a 64-bit `std::size_t`: the
      unique value in [0, 2^64) that is congruent to x modulo 2^64. */
  function ToSizeT(x: int): (r: nat)
    ensures r < SizeTModulus
    ensures (x - r) % SizeTModulus == 0
  {
    x % SizeTModulus
  }
}

/**
 * Go `int` (64-bit) arithmetic as used by the integer objects of both value
 * models: two's-complement wrap-around, truncating division, bitwise
 * operators, shifts, and the float64 round trip the binary operators take.
 */
module Ints {
  import opened Wrappers
  import opened Faults

  const MinInt64: int := -0x8000_0000_0000_0000
  const MaxInt64: int := 0x7fff_ffff_ffff_ffff
  const Two64: int := 0x1_0000_0000_0000_0000
  /** 2^53: every integer strictly inside (-2^53, 2^53) is an exact float64. */
  const Two53: int := 0x20_0000_0000_0000

  type Int64 = x: int | MinInt64 <= x <= MaxInt64

  predicate InInt64(x: int) { MinInt64 <= x <= MaxInt64 }

  /** x is an integer that float64 represents exactly, with margin. */
  predicate Exact53(x: int) { -Two53 < x < Two53 }

  function Abs(x: int): nat { if x < 0 then -x else x }

  /** Two's-complement wrap-around of an exact result into Go's int. */
  function Wrap64(x: int): (r: Int64)
    ensures (r - x) % Two64 == 0
    ensures InInt64(x) ==> r == x
  {
    ((x - MinInt64) % Two64) + MinInt64
  }

  /** Go's `/` on integers: the quotient truncated toward zero. */
  function TruncDiv(a: int, b: int): int
    requires b != 0
  {
    if (a < 0) == (b < 0) then Abs(a) / Abs(b) else -(Abs(a) / Abs(b))
  }

  /** Go's `%` on integers: the remainder takes the sign of the dividend. */
  function TruncRem(a: int, b: int): int
    requires b != 0
  {
    if a < 0 then -(Abs(a) % Abs(b)) else Abs(a) % Abs(b)
  }

  /** The two truncating operators satisfy Go's division identity. */
  lemma {:induction false} TruncDivRem(a: int, b: int)
    requires b != 0
    ensures a == b * TruncDiv(a, b) + TruncRem(a, b)
    ensures Abs(TruncRem(a, b)) < Abs(b)
    ensures TruncRem(a, b) == 0 || (TruncRem(a, b) < 0 <==> a < 0)
    ensures Abs(TruncDiv(a, b)) <= Abs(a)
  {
    var A, B := Abs(a), Abs(b);
    var q: int, m: int := A / B, A % B;
    EuclidPositive(A, B);
    SignedProduct(b, q);
    if a >= 0 && b > 0 {
      assert TruncDiv(a, b) == q && TruncRem(a, b) == m;
    } else if a >= 0 {
      assert TruncDiv(a, b) == -q && TruncRem(a, b) == m;
      assert b * -q == B * q;
    } else if b > 0 {
      assert TruncDiv(a, b) == -q && TruncRem(a, b) == -m;
      assert b * -q == -(B * q);
    } else {
      assert TruncDiv(a, b) == q && TruncRem(a, b) == -m;
      assert b * q == -(B * q);
    }
  }

  lemma EuclidPositive(A: nat, B: nat)
    requires B > 0
    ensures A == B * (A / B) + A % B
    ensures 0 <= A % B < B
    ensures 0 <= A / B <= A
  {
    var q := A / B;
    assert B * q >= q by { MulAtLeast(B, q); }
  }

  lemma MulAtLeast(B: nat, q: nat)
    requires B >= 1
    ensures B * q >= q
  {
    assert B * q == (B - 1) * q + q;
  }

  lemma SignedProduct(b: int, q: int)
    ensures b * q == (if b < 0 then -(Abs(b) * q) else Abs(b) * q)
    ensures b * -q == -(b * q)
  {
  }

  /** The truncated remainder stays within the range of its operands. */
  lemma TruncRemInRange(a: Int64, b: Int64)
    requires b != 0
    ensures InInt64(TruncRem(a, b))
    ensures Exact53(b) ==> Exact53(TruncRem(a, b))
  {
    TruncDivRem(a, b);
  }

  /** Conversion of a float64 to int: truncation toward zero. */
  function Trunc(r: real): (n: int)
    ensures Abs(n) as real <= (if r < 0.0 then -r else r)
    ensures (if r < 0.0 then -r else r) < Abs(n) as real + 1.0
    ensures n == 0 || (n < 0 <==> r < 0.0)
  {
    if r >= 0.0 then r.Floor else -((-r).Floor)
  }

  function Pow2(n: nat): (p: nat)
    ensures p >= 1
  {
    if n == 0 then 1 else 2 * Pow2(n - 1)
  }

  // Bitwise operators act on the 64-bit two's-complement representation,
  // computed bit by bit from the least significant end.

  datatype BitOp = AndOp | OrOp | XorOp | AndNotOp

  function BitOf(op: BitOp, x: nat, y: nat): nat
    requires x < 2 && y < 2
  {
    match op
    case AndOp => if x == 1 && y == 1 then 1 else 0
    case OrOp => if x == 1 || y == 1 then 1 else 0
    case XorOp => if x != y then 1 else 0
    case AndNotOp => if x == 1 && y == 0 then 1 else 0
  }

  /** The low n bits of `x op y`. */
  function Bitwise(op: BitOp, x: nat, y: nat, n: nat): nat
  {
    if n == 0 then 0
    else 2 * Bitwise(op, x / 2, y / 2, n - 1) + BitOf(op, x % 2, y % 2)
  }

  /** The unsigned 64-bit pattern of a Go int. */
  function ToUnsigned(a: Int64): nat { if a < 0 then a + Two64 else a }

  function Bits64(op: BitOp, a: Int64, b: Int64): Int64
  {
    Wrap64(Bitwise(op, ToUnsigned(a), ToUnsigned(b), 64))
  }

  function And64(a: Int64, b: Int64): Int64 { Bits64(AndOp, a, b) }
  function Or64(a: Int64, b: Int64): Int64 { Bits64(OrOp, a, b) }
  function Xor64(a: Int64, b: Int64): Int64 { Bits64(XorOp, a, b) }
  /** Go's `&^` (bit clear). */
  function AndNot64(a: Int64, b: Int64): Int64 { Bits64(AndNotOp, a, b) }

  /** Shift counts of 64 and more behave like 64 (all bits shifted out). */
  function ShiftFactor(c: nat): (p: nat)
    ensures p >= 1
  {
    Pow2(if c < 64 then c else 64)
  }

  /** Go's `<<` on int: wraps modulo 2^64. */
  function Shl64(a: Int64, c: nat): Int64 { Wrap64(a * ShiftFactor(c)) }

  /** Go's `>>` on int: arithmetic shift, i.e. division rounding down. */
  function Shr64(a: Int64, c: nat): Int64 { Wrap64(a / ShiftFactor(c)) }

  /**
   * The numeric view of an argument that the integer binary operators take:
   * `val float64` plus the `isFloat` flag.  An argument that is neither an
   * integer nor a float leaves both at their zero values, i.e. `IntVal(0)`.
   */
  datatype Operand = IntVal(i: Int64) | FloatVal(f: real)

  /** `int(val)` where `val` is the operand's float64. */
  function IntOfOperand(arg: Operand): Result<Int64, Fault>
  {
    match arg
    case IntVal(b) => if Exact53(b) then Ok(b) else Err(OutsideExactFloatRange)
    case FloatVal(f) =>
      if InInt64(Trunc(f)) then Ok(Trunc(f))
      else Err(Unmodelled("float to int conversion out of range"))
  }

  /** `uint(val)` used as a shift count. */
  function ShiftCount(arg: Operand): Result<nat, Fault>
  {
    match arg
    case IntVal(b) =>
      if b < 0 then Err(Unmodelled("negative shift count"))
      else if Exact53(b) then Ok(b) else Err(OutsideExactFloatRange)
    case FloatVal(f) =>
      if f < 0.0 then Err(Unmodelled("negative shift count"))
      else if Trunc(f) < Two64 then Ok(Trunc(f))
      else Err(Unmodelled("float to uint conversion out of range"))
  }

  /** The result of `float64(r)` followed by the result constructor. */
  function Tagged(isFloat: bool, r: int): Result<Operand, Fault>
  {
    if !Exact53(r) then Err(OutsideExactFloatRange)
    else if isFloat then Ok(FloatVal(r as real))
    else Ok(IntVal(r))
  }

  predicate IsArithMessage(msg: string)
  {
    msg in {"__add__", "__sub__", "__mul__", "__quo__", "__rem__",
            "__and__", "__or__", "__xor__", "__shl__", "__shr__"}
  }

  /**
   * The ten binary operators an integer receiver computes through float64
   * and then wraps in an Integer (integer argument) or a Float (float
   * argument).  None for any other message.
   */
  function IntBinop(msg: string, a: Int64, arg: Operand): (r: Option<Result<Operand, Fault>>)
    ensures r.Some? <==> IsArithMessage(msg)
  {
    var isFloat := arg.FloatVal?;
    if msg == "__add__" || msg == "__sub__" || msg == "__mul__" then
      Some(if !Exact53(a) then Err(OutsideExactFloatRange)
           else match arg
             case IntVal(b) =>
               if !Exact53(b) then Err(OutsideExactFloatRange)
               else Tagged(false, if msg == "__add__" then a + b
                                  else if msg == "__sub__" then a - b else a * b)
             case FloatVal(f) =>
               Ok(FloatVal(if msg == "__add__" then a as real + f
                           else if msg == "__sub__" then a as real - f else a as real * f)))
    else if msg == "__quo__" then
      Some(if !Exact53(a) then Err(OutsideExactFloatRange)
           else match arg
             case IntVal(b) =>
               if b == 0 then Err(DivideByZero)
               else if !Exact53(b) then Err(OutsideExactFloatRange)
               else Tagged(false, TruncDiv(a, b))
             case FloatVal(f) =>
               if f == 0.0 then Err(Unmodelled("float infinity"))
               else Ok(FloatVal(a as real / f)))
    else if msg == "__rem__" || msg == "__and__" || msg == "__or__" || msg == "__xor__" then
      Some(match IntOfOperand(arg)
           case Err(e) => Err(e)
           case Ok(n) =>
             if msg == "__rem__" then
               (if n == 0 then Err(DivideByZero) else Tagged(isFloat, TruncRem(a, n)))
             else if msg == "__and__" then Tagged(isFloat, And64(a, n))
             else if msg == "__or__" then Tagged(isFloat, Or64(a, n))
             else Tagged(isFloat, Xor64(a, n)))
    else if msg == "__shl__" || msg == "__shr__" then
      Some(if a < 0 then Err(Unmodelled("shift of a negative receiver through uint"))
           else match ShiftCount(arg)
             case Err(e) => Err(e)
             case Ok(c) =>
               Tagged(isFloat, if msg == "__shl__" then (a * ShiftFactor(c)) % Two64
                               else a / ShiftFactor(c)))
    else None
  }
}

/** Runtime values (`ValueType`, aliased `Literal`) and the operators on
    them: arithmetic with Int-to-Float widening, equality and ordering, and
    the `expect_*` coercions the commands use. */
module Literals {
  import opened Results
  import opened Numerals
  import opened Floats

  datatype Literal = Float(f: F32) | Int(i: Int32) | Bool(b: bool)

  predicate IsNumeric(l: Literal) {
    !l.Bool?
  }

  /** A 32-bit result, or the overflow a debug build aborts on. */
  function CheckedInt(x: int): (r: Result<Literal>)
    ensures r.Ok? <==> InI32(x)
    ensures r.Ok? ==> r.value == Int(x)
    ensures r.Err? ==> r.error == Overflow
  {
    if InI32(x) then Ok(Int(x)) else Err(Overflow)
  }

  function Abs(x: int): nat {
    if x < 0 then -x else x
  }

  /** Integer division rounding toward zero, as `i32 / i32` does: the
      remainder is smaller than the divisor and has the dividend's sign. */
  function TruncDiv(a: int, b: int): (q: int)
    requires b != 0
    ensures Abs(a - q * b) < Abs(b)
    ensures a - q * b == 0 || (a - q * b < 0 <==> a < 0)
  {
    var m := Abs(a) / Abs(b);
    var q := if (a < 0) == (b < 0) then m else -m;
    TruncDivRemainder(a, b, m, q);
    q
  }

  lemma TruncDivRemainder(a: int, b: int, m: int, q: int)
    requires b != 0 && m == Abs(a) / Abs(b)
    requires q == if (a < 0) == (b < 0) then m else -m
    ensures a - q * b == (if a < 0 then -(Abs(a) % Abs(b)) else Abs(a) % Abs(b))
  {
    var A: int, B: int, r: int := Abs(a), Abs(b), Abs(a) % Abs(b);
    assert A == m * B + r;
    var mB := m * B;
    if a >= 0 && b > 0 {
      assert q * b == mB;
    } else if a < 0 && b < 0 {
      assert q * b == m * (-B) == -mB;
    } else if a >= 0 {
      assert q * b == (-m) * (-B) == mB;
    } else {
      assert q * b == (-m) * B == -mB;
    }
  }

  /** Widens a numeric literal to a float (`i as f32` for an Int). */
  function AsFloat(ops: FloatOps, l: Literal): F32
    requires IsNumeric(l)
  {
    if l.Int? then ops.fromInt(l.i) else l.f
  }

  /** The contract every arithmetic operator shares: a Bool operand aborts,
      and any Float operand gives a Float, the float operation applied to
      both operands widened. */
  ghost predicate Widening(ops: FloatOps, a: Literal, b: Literal, r: Result<Literal>,
                           onFloats: (F32, F32) -> F32)
  {
    && ((a.Bool? || b.Bool?) ==> r == Err(TypeMismatch))
    && (IsNumeric(a) && IsNumeric(b) && (a.Float? || b.Float?) ==>
          r == Ok(Float(onFloats(AsFloat(ops, a), AsFloat(ops, b)))))
  }

  function Add(ops: FloatOps, a: Literal, b: Literal): (r: Result<Literal>)
    ensures Widening(ops, a, b, r, ops.add)
    ensures a.Int? && b.Int? ==> r == CheckedInt(a.i + b.i)
  {
    match (a, b)
    case (Float(x), Float(y)) => Ok(Float(ops.add(x, y)))
    case (Int(x), Int(y)) => CheckedInt(x + y)
    case (Float(x), Int(y)) => Ok(Float(ops.add(x, ops.fromInt(y))))
    case (Int(x), Float(y)) => Ok(Float(ops.add(ops.fromInt(x), y)))
    case _ => Err(TypeMismatch)
  }

  function Sub(ops: FloatOps, a: Literal, b: Literal): (r: Result<Literal>)
    ensures Widening(ops, a, b, r, ops.sub)
    ensures a.Int? && b.Int? ==> r == CheckedInt(a.i - b.i)
  {
    match (a, b)
    case (Int(x), Int(y)) => CheckedInt(x - y)
    case (Float(x), Float(y)) => Ok(Float(ops.sub(x, y)))
    case (Int(x), Float(y)) => Ok(Float(ops.sub(ops.fromInt(x), y)))
    case (Float(x), Int(y)) => Ok(Float(ops.sub(x, ops.fromInt(y))))
    case _ => Err(TypeMismatch)
  }

  function Mul(ops: FloatOps, a: Literal, b: Literal): (r: Result<Literal>)
    ensures Widening(ops, a, b, r, ops.mul)
    ensures a.Int? && b.Int? ==> r == CheckedInt(a.i * b.i)
  {
    match (a, b)
    case (Int(x), Int(y)) => CheckedInt(x * y)
    case (Float(x), Float(y)) => Ok(Float(ops.mul(x, y)))
    case (Int(x), Float(y)) => Ok(Float(ops.mul(ops.fromInt(x), y)))
    case (Float(x), Int(y)) => Ok(Float(ops.mul(x, ops.fromInt(y))))
    case _ => Err(TypeMismatch)
  }

  /** Int/Int is integer division rounding toward zero; dividing by zero and
      `MIN / -1` abort. */
  function Div(ops: FloatOps, a: Literal, b: Literal): (r: Result<Literal>)
    ensures Widening(ops, a, b, r, ops.div)
    ensures a.Int? && b.Int? && b.i == 0 ==> r == Err(DivisionByZero)
    ensures a.Int? && b.Int? && r.Ok? ==>
              r.value.Int? && Abs(a.i - r.value.i * b.i) < Abs(b.i)
              && (a.i - r.value.i * b.i == 0 || (a.i - r.value.i * b.i < 0 <==> a.i < 0))
    ensures a.Int? && b.Int? && b.i != 0 && r.Err? ==> r.error == Overflow
  {
    match (a, b)
    case (Int(x), Int(y)) => if y == 0 then Err(DivisionByZero) else CheckedInt(TruncDiv(x, y))
    case (Float(x), Float(y)) => Ok(Float(ops.div(x, y)))
    case (Int(x), Float(y)) => Ok(Float(ops.div(ops.fromInt(x), y)))
    case (Float(x), Int(y)) => Ok(Float(ops.div(x, ops.fromInt(y))))
    case _ => Err(TypeMismatch)
  }

  /** `PartialEq`: numeric pairs compare after widening the Int side, Bools
      compare only with Bools, and a Bool/numeric pair aborts. */
  function Equal(ops: FloatOps, a: Literal, b: Literal): (r: Result<bool>)
    ensures r.Err? <==> a.Bool? != b.Bool?
    ensures r.Err? ==> r.error == TypeMismatch
    ensures a.Int? && b.Int? ==> r == Ok(a.i == b.i)
    ensures a.Bool? && b.Bool? ==> r == Ok(a.b == b.b)
    ensures IsNumeric(a) && IsNumeric(b) && (a.Float? || b.Float?) ==>
              r == Ok(ops.eq(AsFloat(ops, a), AsFloat(ops, b)))
  {
    match (a, b)
    case (Float(x), Float(y)) => Ok(ops.eq(x, y))
    case (Int(x), Int(y)) => Ok(x == y)
    case (Float(x), Int(y)) => Ok(ops.eq(x, ops.fromInt(y)))
    case (Int(x), Float(y)) => Ok(ops.eq(ops.fromInt(x), y))
    case (Bool(x), Bool(y)) => Ok(x == y)
    case _ => Err(TypeMismatch)
  }

  /** `ne` is the default `!eq`, so it aborts exactly when `eq` does. */
  function NotEqual(ops: FloatOps, a: Literal, b: Literal): (r: Result<bool>)
    ensures r.Err? <==> Equal(ops, a, b).Err?
    ensures r.Ok? ==> r.value == !Equal(ops, a, b).value
  {
    var e :- Equal(ops, a, b);
    Ok(!e)
  }

  /** `gt`: there is no Bool case, so any Bool operand aborts. */
  function Greater(ops: FloatOps, a: Literal, b: Literal): (r: Result<bool>)
    ensures r.Err? <==> a.Bool? || b.Bool?
    ensures r.Err? ==> r.error == TypeMismatch
    ensures a.Int? && b.Int? ==> r == Ok(a.i > b.i)
    ensures IsNumeric(a) && IsNumeric(b) && (a.Float? || b.Float?) ==>
              r == Ok(ops.gt(AsFloat(ops, a), AsFloat(ops, b)))
  {
    match (a, b)
    case (Float(x), Float(y)) => Ok(ops.gt(x, y))
    case (Int(x), Int(y)) => Ok(x > y)
    case (Float(x), Int(y)) => Ok(ops.gt(x, ops.fromInt(y)))
    case (Int(x), Float(y)) => Ok(ops.gt(ops.fromInt(x), y))
    case _ => Err(TypeMismatch)
  }

  /** `lt`: like `gt`, any Bool operand aborts, even Bool/Bool. */
  function Less(ops: FloatOps, a: Literal, b: Literal): (r: Result<bool>)
    ensures r.Err? <==> a.Bool? || b.Bool?
    ensures r.Err? ==> r.error == TypeMismatch
    ensures a.Int? && b.Int? ==> r == Ok(a.i < b.i)
    ensures IsNumeric(a) && IsNumeric(b) && (a.Float? || b.Float?) ==>
              r == Ok(ops.lt(AsFloat(ops, a), AsFloat(ops, b)))
  {
    match (a, b)
    case (Float(x), Float(y)) => Ok(ops.lt(x, y))
    case (Int(x), Int(y)) => Ok(x < y)
    case (Float(x), Int(y)) => Ok(ops.lt(x, ops.fromInt(y)))
    case (Int(x), Float(y)) => Ok(ops.lt(ops.fromInt(x), y))
    case _ => Err(TypeMismatch)
  }

  /** An Int, or a Float that survives the round trip through `i32`
      (its truncation), else nothing. */
  function ExpectInt(ops: FloatOps, l: Literal): (r: Option<Int32>)
    ensures l.Int? ==> r == Some(l.i)
    ensures l.Bool? ==> r.None?
    ensures l.Float? ==> (r.Some? <==> ops.eq(ops.fromInt(ops.truncate(l.f)), l.f))
    ensures l.Float? && r.Some? ==> r.value == ops.truncate(l.f)
  {
    match l
    case Int(i) => Some(i)
    case Float(f) => if ops.eq(ops.fromInt(ops.truncate(f)), f) then Some(ops.truncate(f)) else None
    case Bool(_) => None
  }

  /** Any numeric literal as a float; nothing for a Bool. */
  function ExpectFloat(ops: FloatOps, l: Literal): (r: Option<F32>)
    ensures r.Some? <==> IsNumeric(l)
    ensures r.Some? ==> r.value == AsFloat(ops, l)
  {
    match l
    case Float(f) => Some(f)
    case Int(i) => Some(ops.fromInt(i))
    case Bool(_) => None
  }

  function ExpectBool(l: Literal): (r: Option<bool>)
    ensures r.Some? <==> l.Bool?
    ensures r.Some? ==> r.value == l.b
  {
    match l
    case Bool(b) => Some(b)
    case _ => None
  }

  /** Whatever `ExpectInt` accepts, `ExpectFloat` accepts too, and for an Int
      the float is the widened integer. */
  lemma ExpectIntImpliesFloat(ops: FloatOps, l: Literal)
    ensures ExpectInt(ops, l).Some? ==> ExpectFloat(ops, l).Some?
    ensures l.Int? ==> ExpectFloat(ops, l) == Some(ops.fromInt(ExpectInt(ops, l).value))
  {
  }
}

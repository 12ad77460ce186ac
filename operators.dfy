/**
  * The operators the calculator knows: the symbol of each, how many operands
  * it takes from the top of the stack, and what it computes from them.
  */
module Operators {
  import opened Wrappers
  import opened Numerals

  datatype BinaryOp = Add | Subtract | Multiply | Divide

  datatype Operator = Binary(op: BinaryOp) | SquareRoot

  function Symbol(o: Operator): string {
    match o
    case Binary(Add) => "+"
    case Binary(Subtract) => "-"
    case Binary(Multiply) => "*"
    case Binary(Divide) => "/"
    case SquareRoot => "sqrt"
  }

  /** How many operands the operator takes from the top of the stack. */
  function Arity(o: Operator): nat {
    if o.Binary? then 2 else 1
  }

  /** The operator a token names, if any. */
  function Lookup(symbol: string): (r: Option<Operator>)
    ensures r.Some? ==> Symbol(r.value) == symbol
    ensures r.None? ==> forall o :: Symbol(o) != symbol
  {
    if symbol == "+" then Some(Binary(Add))
    else if symbol == "-" then Some(Binary(Subtract))
    else if symbol == "*" then Some(Binary(Multiply))
    else if symbol == "/" then Some(Binary(Divide))
    else if symbol == "sqrt" then Some(SquareRoot)
    else None
  }

  /** Every operator is found under its own symbol. */
  lemma LookupSymbol(o: Operator)
    ensures Lookup(Symbol(o)) == Some(o)
  {
  }

  lemma SquareMonotone(a: nat, b: nat)
    requires a <= b
    ensures a * a <= b * b
  {
    assert a * a <= a * b <= b * b;
  }

  /** Doubling the root of n / 4 brackets the root of n within two. */
  lemma IntSqrtStep(n: nat, s: nat)
    requires s * s <= n / 4 < (s + 1) * (s + 1)
    ensures (2 * s) * (2 * s) <= n < (2 * s + 2) * (2 * s + 2)
  {
    var q, p := s * s, (s + 1) * (s + 1);
    assert (2 * s) * (2 * s) == 4 * q;
    assert (2 * s + 2) * (2 * s + 2) == 4 * p;
    assert 4 * (n / 4) <= n < 4 * (n / 4) + 4;
  }

  /** The integer square root: the largest r with r * r <= n (IntSqrtBounds). */
  function IntSqrt(n: nat): nat {
    if n < 4 then
      if n == 0 then 0 else 1
    else
      var h := 2 * IntSqrt(n / 4);
      if (h + 1) * (h + 1) <= n then h + 1 else h
  }

  /** IntSqrt(n) is the root of n rounded down: its square is at most n and
      the square of its successor exceeds n. */
  lemma {:induction false} IntSqrtBounds(n: nat)
    ensures var r := IntSqrt(n); r * r <= n < (r + 1) * (r + 1)
  {
    if n >= 4 {
      var s := IntSqrt(n / 4);
      IntSqrtBounds(n / 4);
      IntSqrtStep(n, s);
    }
  }

  /** The integer square root is determined by its defining bounds. */
  lemma IntSqrtUnique(n: nat, r: nat)
    requires r * r <= n < (r + 1) * (r + 1)
    ensures IntSqrt(n) == r
  {
    var s := IntSqrt(n);
    IntSqrtBounds(n);
    if s < r {
      SquareMonotone(s + 1, r);
    } else if s > r {
      SquareMonotone(r + 1, s);
    }
  }

  /** The non-negative square root of x in units of 1/Scale, truncated:
      the integer square root of x * Scale^2. */
  function RootUnits(x: real): nat
    requires x >= 0.0
  {
    IntSqrt((x * 100_000_000_000_000_000_000.0).Floor)
  }

  /** The non-negative square root of x, truncated to the displayed precision. */
  function Root(x: real): real
    requires x >= 0.0
  {
    RootUnits(x) as real / 10_000_000_000.0
  }

  lemma ScaleAsReal()
    ensures Scale as real == 10_000_000_000.0
  {
  }

  /** The integer square root of x * 10^20 brackets x * 10^20 between squares. */
  lemma RootUnitsBounds(x: real)
    requires x >= 0.0
    ensures var n := RootUnits(x);
      (n * n) as real <= x * 100_000_000_000_000_000_000.0 < ((n + 1) * (n + 1)) as real
  {
    var y := x * 100_000_000_000_000_000_000.0;
    IntSqrtBounds(y.Floor);
    assert y.Floor as real <= y < y.Floor as real + 1.0;
  }

  lemma RealSquare(n: int)
    ensures (n * n) as real == n as real * n as real
  {
  }

  lemma SquareOfScaled(r: real, a: real)
    requires r == a / 10_000_000_000.0
    ensures r * r == (a * a) / 100_000_000_000_000_000_000.0
  {
  }

  lemma RootExact(x: real)
    requires x >= 0.0
    ensures Root(x) >= 0.0 && DisplayExact(Root(x))
  {
    UnitsExact(RootUnits(x));
  }

  /** A whole number of units of 10^-10 is exactly displayable. */
  lemma UnitsExact(n: nat)
    ensures DisplayExact(n as real / 10_000_000_000.0)
  {
    ScaleAsReal();
    assert (n as real / 10_000_000_000.0) * Scale as real == n as real;
  }

  lemma RootBelow(x: real)
    requires x >= 0.0
    ensures Root(x) * Root(x) <= x
  {
    var n := RootUnits(x);
    RootUnitsBounds(x);
    BelowFromUnits(Root(x), n, x);
  }

  lemma RootAbove(x: real)
    requires x >= 0.0
    ensures x < (Root(x) + 0.000_000_000_1) * (Root(x) + 0.000_000_000_1)
  {
    var n := RootUnits(x);
    RootUnitsBounds(x);
    AboveFromUnits(Root(x), n, x);
  }

  /** r, n units of 10^-10 with n^2 at most x * 10^20, squares to at most x. */
  lemma BelowFromUnits(r: real, n: nat, x: real)
    requires r == n as real / 10_000_000_000.0
    requires (n * n) as real <= x * 100_000_000_000_000_000_000.0
    ensures r * r <= x
  {
    RealSquare(n);
    SquareOfScaled(r, n as real);
  }

  /** One unit of 10^-10 above r, n units with (n + 1)^2 above x * 10^20,
      squares to more than x. */
  lemma AboveFromUnits(r: real, n: nat, x: real)
    requires r == n as real / 10_000_000_000.0
    requires x * 100_000_000_000_000_000_000.0 < ((n + 1) * (n + 1)) as real
    ensures x < (r + 0.000_000_000_1) * (r + 0.000_000_000_1)
  {
    RealSquare(n + 1);
    SquareOfScaled(r + 0.000_000_000_1, (n + 1) as real);
  }

  /** Root(x) is at most the exact square root of x and less than one
      displayed unit (10^-10) below it; it is exactly displayable. */
  lemma RootBounds(x: real)
    requires x >= 0.0
    ensures Root(x) >= 0.0 && DisplayExact(Root(x))
    ensures Root(x) * Root(x) <= x
    ensures x < (Root(x) + 0.000_000_000_1) * (Root(x) + 0.000_000_000_1)
  {
    RootExact(x);
    RootBelow(x);
    RootAbove(x);
  }

  /** The root of the square of an exactly displayable value is that value. */
  lemma RootOfSquare(q: real)
    requires q >= 0.0 && DisplayExact(q)
    ensures Root(q * q) == q
  {
    ScaleAsReal();
    var j := (q * 10_000_000_000.0).Floor;
    assert j >= 0;
    SquaredUnits(q, j);
    IntSqrtUnique(j * j, j);
  }

  /** q of j units of 10^-10 squares to j^2 units of 10^-20. */
  lemma SquaredUnits(q: real, j: int)
    requires q * 10_000_000_000.0 == j as real
    ensures (q * q) * 100_000_000_000_000_000_000.0 == (j * j) as real
  {
    RealSquare(j);
    SquareOfScaled(q, j as real);
  }

  /** The value of a binary operator on the second-from-top (lower) and the
      top operand: lower + top, lower - top, lower * top, lower / top. */
  function Combine(op: BinaryOp, lower: real, top: real): (r: real)
    requires op == Divide ==> top != 0.0
    // These clauses state no property beyond the body; they are solver hints
    // that keep the concrete test proofs within the resource limit.
    ensures op == Add ==> r - top == lower
    ensures op == Subtract ==> r + top == lower
    ensures op == Multiply ==> r == top * lower
    ensures op == Divide ==> r * top == lower
  {
    match op
    case Add => lower + top
    case Subtract => lower - top
    case Multiply => lower * top
    case Divide => lower / top
  }

  /** The value of an operator on its operands, listed bottom first; None when
      the operands are outside the operator's domain (a zero divisor, a
      negative square root). */
  function Evaluate(o: Operator, operands: seq<real>): Option<real>
    requires |operands| == Arity(o)
  {
    match o
    case Binary(op) =>
      if op == Divide && operands[1] == 0.0 then None else Some(Combine(op, operands[0], operands[1]))
    case SquareRoot =>
      if operands[0] < 0.0 then None else Some(Root(operands[0]))
  }
}

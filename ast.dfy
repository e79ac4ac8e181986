/**
 * The expression tree and its evaluator (src/parse_math/ast.rs).
 *
 * The source evaluates in f64. Here values are exact reals; a computation
 * that would leave the finite numbers (a zero divisor, or a power the given
 * `pow` leaves undefined) evaluates to `None`. `powf` itself is a parameter.
 */
module Ast {
  import opened Options

  datatype Node =
    | Element(value: real)
    | Negative(operand: Node)
    | Sum(left: Node, right: Node)
    | Subtract(left: Node, right: Node)
    | Multiply(left: Node, right: Node)
    | Divide(left: Node, right: Node)
    | Power(left: Node, right: Node)

  /** Exponentiation, left abstract: `None` where the result is not a finite number. */
  type PowerFn = (real, real) -> Option<real>

  predicate IsBinary(n: Node)
  {
    n.Sum? || n.Subtract? || n.Multiply? || n.Divide? || n.Power?
  }

  /** A tree built only from numbers, negation, sums, differences and products. */
  predicate IsPolynomial(n: Node)
  {
    match n
    case Element(_) => true
    case Negative(x) => IsPolynomial(x)
    case Sum(l, r) => IsPolynomial(l) && IsPolynomial(r)
    case Subtract(l, r) => IsPolynomial(l) && IsPolynomial(r)
    case Multiply(l, r) => IsPolynomial(l) && IsPolynomial(r)
    case Divide(_, _) => false
    case Power(_, _) => false
  }

  /**
   * The value of a tree, by structural recursion; every child is evaluated
   * once, and a node whose child is undefined is undefined. Only a quotient
   * or a power can be undefined: a tree without them always has a value.
   */
  function Eval(n: Node, pow: PowerFn): (r: Option<real>)
    ensures IsPolynomial(n) ==> r.Some?
  {
    match n
    case Element(v) => Some(v)
    case Negative(x) =>
      var a := Eval(x, pow);
      if a.Some? then Some(-a.value) else None
    case _ =>
      var a, b := Eval(n.left, pow), Eval(n.right, pow);
      if a.Some? && b.Some? then Arith(n, a.value, b.value, pow) else None
  }

  /** The operation of a binary node on its two child values. */
  function Arith(n: Node, a: real, b: real, pow: PowerFn): Option<real>
    requires IsBinary(n)
  {
    match n
    case Sum(_, _) => Some(a + b)
    case Subtract(_, _) => Some(a - b)
    case Multiply(_, _) => Some(a * b)
    case Divide(_, _) => if b == 0.0 then None else Some(a / b)
    case Power(_, _) => pow(a, b)
  }

  /** The number of `Negative` nodes stacked on top of `n`. */
  function Negations(count: nat, n: Node): Node
  {
    if count == 0 then n else Negative(Negations(count - 1, n))
  }

  /**
   * Negation is an involution: `2m` stacked negations leave the value
   * unchanged, `2m + 1` negate it.
   */
  lemma {:induction false} EvalNegations(count: nat, n: Node, pow: PowerFn)
    ensures Eval(Negations(count, n), pow)
         == (if count % 2 == 0 then Eval(n, pow)
             else match Eval(n, pow) case Some(a) => Some(-a) case None => None)
  {
    if count >= 2 {
      EvalNegations(count - 2, n, pow);
      assert Negations(count, n) == Negative(Negative(Negations(count - 2, n)));
    }
  }

  /**
   * The value of a tree depends only on the values of its children: a child
   * may be replaced by any tree with the same value.
   */
  lemma EvalCompositional(n: Node, m: Node, pow: PowerFn)
    requires IsBinary(n) && IsBinary(m)
    requires n.Sum? == m.Sum? && n.Subtract? == m.Subtract? && n.Multiply? == m.Multiply?
    requires n.Divide? == m.Divide?
    requires Eval(n.left, pow) == Eval(m.left, pow) && Eval(n.right, pow) == Eval(m.right, pow)
    ensures Eval(n, pow) == Eval(m, pow)
  {
    var a, b := Eval(n.left, pow), Eval(n.right, pow);
    if a.Some? && b.Some? {
      assert Arith(n, a.value, b.value, pow) == Arith(m, a.value, b.value, pow);
    }
  }

  /** One evaluation step on defined children, unfolded for the examples. */
  lemma EvalArithmetic(l: Node, r: Node, pow: PowerFn, a: real, b: real)
    requires Eval(l, pow) == Some(a) && Eval(r, pow) == Some(b)
    ensures Eval(Sum(l, r), pow) == Some(a + b)
    ensures Eval(Subtract(l, r), pow) == Some(a - b)
    ensures Eval(Multiply(l, r), pow) == Some(a * b)
    ensures Eval(Divide(l, r), pow) == (if b == 0.0 then None else Some(a / b))
    ensures Eval(Power(l, r), pow) == pow(a, b)
    ensures Eval(Negative(l), pow) == Some(-a)
  {
  }

  /** The examples of ast.rs, for a `pow` that gives 3^4 = 81. */
  lemma EvalExamples(pow: PowerFn)
    requires pow(3.0, 4.0) == Some(81.0)
    ensures Eval(Element(3.0), pow) == Some(3.0)
    ensures Eval(Negative(Element(3.0)), pow) == Some(-3.0)
    ensures Eval(Multiply(Element(3.0), Element(4.0)), pow) == Some(12.0)
    ensures Eval(Divide(Element(6.0), Element(2.0)), pow) == Some(3.0)
    ensures Eval(Sum(Element(3.0), Element(4.0)), pow) == Some(7.0)
    ensures Eval(Subtract(Element(3.0), Element(4.0)), pow) == Some(-1.0)
    ensures Eval(Power(Element(3.0), Element(4.0)), pow) == Some(81.0)
  {
    EvalArithmetic(Element(3.0), Element(4.0), pow, 3.0, 4.0);
    EvalArithmetic(Element(6.0), Element(2.0), pow, 6.0, 2.0);
  }
}

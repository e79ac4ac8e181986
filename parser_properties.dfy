/**
 * Properties of the parser (src/parse_math/parser.rs), stated on token
 * streams: the shape of the trees it builds, what a parenthesised group and
 * trailing tokens do, and a printer whose output it parses back.
 */
module ParserProperties {
  import opened Tokens
  import opened Ast
  import opened Errors
  import opened Parsing

  /** `ts` is one complete expression denoting `n`: the parse reads up to the EOF after it. */
  predicate Parses(ts: seq<Lexeme>, n: Node)
  {
    ParseAst(ts, 0, Default) == Step(Ok(n), |ts|)
  }

  /** `( ts )`. */
  function Group(ts: seq<Lexeme>): seq<Lexeme>
  {
    [Lexed(LeftParenthesis)] + ts + [Lexed(RightParenthesis)]
  }

  // ---------------------------------------------------------------------
  // Chains of operators of one level associate to the left
  // ---------------------------------------------------------------------

  /** `v0 op0 v1 op1 ... vn`. */
  function Chain(vals: seq<real>, ops: seq<Token>): (ts: seq<Lexeme>)
    requires |vals| == |ops| + 1
    ensures |ts| == 2 * |ops| + 1
  {
    seq(2 * |ops| + 1, i requires 0 <= i < 2 * |ops| + 1 =>
      if i % 2 == 0 then Lexed(Number(vals[i / 2])) else Lexed(ops[i / 2]))
  }

  /** The left-leaning tree over the first `count + 1` operands of a chain. */
  function FoldLeft(vals: seq<real>, ops: seq<Token>, count: nat): Node
    requires |vals| == |ops| + 1 && count <= |ops|
    requires forall i | 0 <= i < |ops| :: IsBinaryOperator(ops[i])
  {
    if count == 0 then Element(vals[0])
    else Binary(ops[count - 1], FoldLeft(vals, ops, count - 1), Element(vals[count]))
  }

  predicate SameLevel(ops: seq<Token>, level: Precedence)
  {
    forall i | 0 <= i < |ops| :: IsBinaryOperator(ops[i]) && PrecedenceOf(ops[i]) == level
  }

  /** One operator of a chain and the number after it extend the left-leaning tree by one level. */
  lemma ChainStep(vals: seq<real>, ops: seq<Token>, level: Precedence, i: nat)
    requires |vals| == |ops| + 1 && i < |ops|
    requires SameLevel(ops, level)
    ensures At(Chain(vals, ops), 2 * i + 1) == Lexed(ops[i])
    ensures ParseOperation(Chain(vals, ops), 2 * i + 1, FoldLeft(vals, ops, i))
         == Step(Ok(FoldLeft(vals, ops, i + 1)), 2 * i + 3)
  {
    var ts := Chain(vals, ops);
    assert (2 * i + 1) % 2 == 1 && (2 * i + 1) / 2 == i;
    assert (2 * i + 2) % 2 == 0 && (2 * i + 2) / 2 == i + 1;
    assert At(ts, 2 * i + 2) == Lexed(Number(vals[i + 1]));
    var operand := Element(vals[i + 1]);
    assert ParseNumber(ts, 2 * i + 2) == Step(Ok(operand), 2 * i + 3);
    if i + 1 < |ops| {
      assert (2 * i + 3) % 2 == 1 && (2 * i + 3) / 2 == i + 1;
      assert At(ts, 2 * i + 3) == Lexed(ops[i + 1]);
    }
    assert ParseLoop(ts, 2 * i + 3, level, operand) == Step(Ok(operand), 2 * i + 3);
    assert ParseAst(ts, 2 * i + 2, level) == Step(Ok(operand), 2 * i + 3);
  }

  lemma {:induction false} ChainLoop(vals: seq<real>, ops: seq<Token>, level: Precedence, i: nat)
    requires |vals| == |ops| + 1 && i <= |ops|
    requires SameLevel(ops, level)
    ensures ParseLoop(Chain(vals, ops), 2 * i + 1, Default, FoldLeft(vals, ops, i))
         == Step(Ok(FoldLeft(vals, ops, |ops|)), 2 * |ops| + 1)
    decreases |ops| - i
  {
    if i < |ops| {
      ChainStep(vals, ops, level, i);
      ChainLoop(vals, ops, level, i + 1);
    }
  }

  /**
   * Operators of one level, `^` included, build a left-leaning tree:
   * `10+20+30` is `Sum(Sum(10, 20), 30)` and `10^20^30` is `Power(Power(10, 20), 30)`.
   */
  lemma LeftAssociative(vals: seq<real>, ops: seq<Token>, level: Precedence)
    requires |vals| == |ops| + 1
    requires SameLevel(ops, level)
    ensures Parses(Chain(vals, ops), FoldLeft(vals, ops, |ops|))
  {
    var ts := Chain(vals, ops);
    assert At(ts, 0) == Lexed(Number(vals[0]));
    ChainLoop(vals, ops, level, 0);
  }

  // ---------------------------------------------------------------------
  // Two operators: the tighter one binds first
  // ---------------------------------------------------------------------

  /**
   * `a o1 b o2 c`: when `o2` binds tighter than `o1` it takes `b` as its left
   * operand (`10+20*30`); otherwise `o1` is applied first (`3^2*2`, `10-20+30`).
   */
  lemma TwoOperators(a: real, o1: Token, b: real, o2: Token, c: real)
    requires IsBinaryOperator(o1) && IsBinaryOperator(o2)
    ensures ParseTokens([Lexed(Number(a)), Lexed(o1), Lexed(Number(b)), Lexed(o2), Lexed(Number(c))])
         == if Below(PrecedenceOf(o1), PrecedenceOf(o2))
            then Ok(Binary(o1, Element(a), Binary(o2, Element(b), Element(c))))
            else Ok(Binary(o2, Binary(o1, Element(a), Element(b)), Element(c)))
  {
    var ts := [Lexed(Number(a)), Lexed(o1), Lexed(Number(b)), Lexed(o2), Lexed(Number(c))];
    var p1, p2 := PrecedenceOf(o1), PrecedenceOf(o2);
    assert ParseNumber(ts, 0) == Step(Ok(Element(a)), 1);
    assert ParseNumber(ts, 2) == Step(Ok(Element(b)), 3);
    assert ParseNumber(ts, 4) == Step(Ok(Element(c)), 5);
    assert ParseLoop(ts, 5, p2, Element(c)) == Step(Ok(Element(c)), 5);
    assert ParseAst(ts, 4, p2) == Step(Ok(Element(c)), 5);
    if Below(p1, p2) {
      var right := Binary(o2, Element(b), Element(c));
      assert ParseOperation(ts, 3, Element(b)) == Step(Ok(right), 5);
      assert ParseLoop(ts, 5, p1, right) == Step(Ok(right), 5);
      assert ParseLoop(ts, 3, p1, Element(b)) == Step(Ok(right), 5);
      assert ParseAst(ts, 2, p1) == Step(Ok(right), 5);
      var whole := Binary(o1, Element(a), right);
      assert ParseOperation(ts, 1, Element(a)) == Step(Ok(whole), 5);
      assert ParseLoop(ts, 5, Default, whole) == Step(Ok(whole), 5);
      assert ParseLoop(ts, 1, Default, Element(a)) == Step(Ok(whole), 5);
    } else {
      var left := Binary(o1, Element(a), Element(b));
      assert ParseLoop(ts, 3, p1, Element(b)) == Step(Ok(Element(b)), 3);
      assert ParseAst(ts, 2, p1) == Step(Ok(Element(b)), 3);
      assert ParseOperation(ts, 1, Element(a)) == Step(Ok(left), 3);
      var whole := Binary(o2, left, Element(c));
      assert ParseOperation(ts, 3, left) == Step(Ok(whole), 5);
      assert ParseLoop(ts, 5, Default, whole) == Step(Ok(whole), 5);
      assert ParseLoop(ts, 3, Default, left) == Step(Ok(whole), 5);
      assert ParseLoop(ts, 1, Default, Element(a)) == Step(Ok(whole), 5);
    }
  }

  // ---------------------------------------------------------------------
  // Implicit multiplication against its neighbours
  // ---------------------------------------------------------------------

  /**
   * `a op b (c)`: a `(` in operator position has the level of `*`. After `+`
   * or `-` it takes `b` (`1+2(3)` is `Sum(1, Multiply(2, 3))`); after `*`, `/`
   * or `^` the operator is applied first (`2^3(4)` is `Multiply(Power(2, 3), 4)`).
   */
  lemma OperatorThenGroup(a: real, o1: Token, b: real, c: real)
    requires IsBinaryOperator(o1)
    ensures ParseTokens([Lexed(Number(a)), Lexed(o1), Lexed(Number(b)),
                         Lexed(LeftParenthesis), Lexed(Number(c)), Lexed(RightParenthesis)])
         == if Below(PrecedenceOf(o1), MulDiv)
            then Ok(Binary(o1, Element(a), Multiply(Element(b), Element(c))))
            else Ok(Multiply(Binary(o1, Element(a), Element(b)), Element(c)))
  {
    var ts := [Lexed(Number(a)), Lexed(o1), Lexed(Number(b)),
               Lexed(LeftParenthesis), Lexed(Number(c)), Lexed(RightParenthesis)];
    var p1 := PrecedenceOf(o1);
    assert ParseNumber(ts, 0) == Step(Ok(Element(a)), 1);
    assert ParseNumber(ts, 2) == Step(Ok(Element(b)), 3);
    assert ParseNumber(ts, 4) == Step(Ok(Element(c)), 5);
    assert ParseLoop(ts, 5, Default, Element(c)) == Step(Ok(Element(c)), 5);
    assert ParseAst(ts, 4, Default) == Step(Ok(Element(c)), 5);
    if Below(p1, MulDiv) {
      var right := Multiply(Element(b), Element(c));
      assert ParseOperation(ts, 3, Element(b)) == Step(Ok(right), 6);
      assert ParseLoop(ts, 6, p1, right) == Step(Ok(right), 6);
      assert ParseLoop(ts, 3, p1, Element(b)) == Step(Ok(right), 6);
      assert ParseAst(ts, 2, p1) == Step(Ok(right), 6);
      var whole := Binary(o1, Element(a), right);
      assert ParseOperation(ts, 1, Element(a)) == Step(Ok(whole), 6);
      assert ParseLoop(ts, 6, Default, whole) == Step(Ok(whole), 6);
      assert ParseLoop(ts, 1, Default, Element(a)) == Step(Ok(whole), 6);
    } else {
      var left := Binary(o1, Element(a), Element(b));
      assert ParseLoop(ts, 3, p1, Element(b)) == Step(Ok(Element(b)), 3);
      assert ParseAst(ts, 2, p1) == Step(Ok(Element(b)), 3);
      assert ParseOperation(ts, 1, Element(a)) == Step(Ok(left), 3);
      var whole := Multiply(left, Element(c));
      assert ParseOperation(ts, 3, left) == Step(Ok(whole), 6);
      assert ParseLoop(ts, 6, Default, whole) == Step(Ok(whole), 6);
      assert ParseLoop(ts, 3, Default, left) == Step(Ok(whole), 6);
      assert ParseLoop(ts, 1, Default, Element(a)) == Step(Ok(whole), 6);
    }
  }

  /**
   * `a (b) op c`: the product with the group is complete before any
   * operator after it, `^` included: `2(3)^2` is `Power(Multiply(2, 3), 2)`.
   */
  lemma GroupThenOperator(a: real, b: real, o2: Token, c: real)
    requires IsBinaryOperator(o2)
    ensures ParseTokens([Lexed(Number(a)), Lexed(LeftParenthesis), Lexed(Number(b)),
                         Lexed(RightParenthesis), Lexed(o2), Lexed(Number(c))])
         == Ok(Binary(o2, Multiply(Element(a), Element(b)), Element(c)))
  {
    var ts := [Lexed(Number(a)), Lexed(LeftParenthesis), Lexed(Number(b)),
               Lexed(RightParenthesis), Lexed(o2), Lexed(Number(c))];
    var p2 := PrecedenceOf(o2);
    assert ParseNumber(ts, 0) == Step(Ok(Element(a)), 1);
    assert ParseNumber(ts, 2) == Step(Ok(Element(b)), 3);
    assert ParseLoop(ts, 3, Default, Element(b)) == Step(Ok(Element(b)), 3);
    assert ParseAst(ts, 2, Default) == Step(Ok(Element(b)), 3);
    var product := Multiply(Element(a), Element(b));
    assert ParseOperation(ts, 1, Element(a)) == Step(Ok(product), 4);
    assert ParseNumber(ts, 5) == Step(Ok(Element(c)), 6);
    assert ParseLoop(ts, 6, p2, Element(c)) == Step(Ok(Element(c)), 6);
    assert ParseAst(ts, 5, p2) == Step(Ok(Element(c)), 6);
    var whole := Binary(o2, product, Element(c));
    assert ParseOperation(ts, 4, product) == Step(Ok(whole), 6);
    assert ParseLoop(ts, 6, Default, whole) == Step(Ok(whole), 6);
    assert ParseLoop(ts, 4, Default, product) == Step(Ok(whole), 6);
    assert ParseLoop(ts, 1, Default, Element(a)) == Step(Ok(whole), 6);
  }

  /**
   * `a * (b) op c`: with an explicit `*`, a `^` after the group binds
   * tighter than the product: `2*(3)^2` is `Multiply(2, Power(3, 2))`.
   */
  lemma TimesGroupThenOperator(a: real, b: real, o2: Token, c: real)
    requires IsBinaryOperator(o2)
    ensures ParseTokens([Lexed(Number(a)), Lexed(Asterisk), Lexed(LeftParenthesis), Lexed(Number(b)),
                         Lexed(RightParenthesis), Lexed(o2), Lexed(Number(c))])
         == if Below(MulDiv, PrecedenceOf(o2))
            then Ok(Multiply(Element(a), Binary(o2, Element(b), Element(c))))
            else Ok(Binary(o2, Multiply(Element(a), Element(b)), Element(c)))
  {
    var ts := [Lexed(Number(a)), Lexed(Asterisk), Lexed(LeftParenthesis), Lexed(Number(b)),
               Lexed(RightParenthesis), Lexed(o2), Lexed(Number(c))];
    var p2 := PrecedenceOf(o2);
    assert ParseNumber(ts, 0) == Step(Ok(Element(a)), 1);
    assert ParseNumber(ts, 3) == Step(Ok(Element(b)), 4);
    assert ParseLoop(ts, 4, Default, Element(b)) == Step(Ok(Element(b)), 4);
    assert ParseAst(ts, 3, Default) == Step(Ok(Element(b)), 4);
    assert ParseNumber(ts, 2) == Step(Ok(Element(b)), 5);
    assert ParseNumber(ts, 6) == Step(Ok(Element(c)), 7);
    assert ParseLoop(ts, 7, p2, Element(c)) == Step(Ok(Element(c)), 7);
    assert ParseAst(ts, 6, p2) == Step(Ok(Element(c)), 7);
    if Below(MulDiv, p2) {
      var right := Binary(o2, Element(b), Element(c));
      assert ParseOperation(ts, 5, Element(b)) == Step(Ok(right), 7);
      assert ParseLoop(ts, 7, MulDiv, right) == Step(Ok(right), 7);
      assert ParseLoop(ts, 5, MulDiv, Element(b)) == Step(Ok(right), 7);
      assert ParseAst(ts, 2, MulDiv) == Step(Ok(right), 7);
      var whole := Multiply(Element(a), right);
      assert ParseOperation(ts, 1, Element(a)) == Step(Ok(whole), 7);
      assert ParseLoop(ts, 7, Default, whole) == Step(Ok(whole), 7);
      assert ParseLoop(ts, 1, Default, Element(a)) == Step(Ok(whole), 7);
    } else {
      var product := Multiply(Element(a), Element(b));
      assert ParseLoop(ts, 5, MulDiv, Element(b)) == Step(Ok(Element(b)), 5);
      assert ParseAst(ts, 2, MulDiv) == Step(Ok(Element(b)), 5);
      assert ParseOperation(ts, 1, Element(a)) == Step(Ok(product), 5);
      var whole := Binary(o2, product, Element(c));
      assert ParseOperation(ts, 5, product) == Step(Ok(whole), 7);
      assert ParseLoop(ts, 7, Default, whole) == Step(Ok(whole), 7);
      assert ParseLoop(ts, 5, Default, product) == Step(Ok(whole), 7);
      assert ParseLoop(ts, 1, Default, Element(a)) == Step(Ok(whole), 7);
    }
  }

  /**
   * Implicit and explicit multiplication part ways before `^`:
   * `a(b)^c` and `a*(b)^c` give different trees.
   */
  lemma ImplicitBeforePower(a: real, b: real, c: real)
    ensures ParseTokens([Lexed(Number(a)), Lexed(LeftParenthesis), Lexed(Number(b)),
                         Lexed(RightParenthesis), Lexed(Caret), Lexed(Number(c))])
         != ParseTokens([Lexed(Number(a)), Lexed(Asterisk), Lexed(LeftParenthesis), Lexed(Number(b)),
                         Lexed(RightParenthesis), Lexed(Caret), Lexed(Number(c))])
  {
    GroupThenOperator(a, b, Caret, c);
    TimesGroupThenOperator(a, b, Caret, c);
  }

  /** `a op b` is the operator applied to the two numbers: `1+2` is `Sum(1, 2)`. */
  lemma SingleOperator(a: real, op: Token, b: real)
    requires IsBinaryOperator(op)
    ensures Parses([Lexed(Number(a)), Lexed(op), Lexed(Number(b))], Binary(op, Element(a), Element(b)))
  {
    var ts := [Lexed(Number(a)), Lexed(op), Lexed(Number(b))];
    var whole := Binary(op, Element(a), Element(b));
    assert ParseNumber(ts, 2) == Step(Ok(Element(b)), 3);
    assert ParseLoop(ts, 3, PrecedenceOf(op), Element(b)) == Step(Ok(Element(b)), 3);
    assert ParseOperation(ts, 1, Element(a)) == Step(Ok(whole), 3);
    assert ParseLoop(ts, 3, Default, whole) == Step(Ok(whole), 3);
  }

  // ---------------------------------------------------------------------
  // Unary signs
  // ---------------------------------------------------------------------

  function MinusCount(signs: seq<Token>): nat
  {
    if signs == [] then 0 else (if signs[0] == Minus then 1 else 0) + MinusCount(signs[1..])
  }

  function SignTokens(ts: seq<Token>): (ls: seq<Lexeme>)
    ensures |ls| == |ts|
  {
    seq(|ts|, i requires 0 <= i < |ts| => Lexed(ts[i]))
  }

  lemma {:induction false} SignedOperandAt(us: seq<Lexeme>, k: nat, signs: seq<Token>, v: real)
    requires forall i | 0 <= i < |signs| :: signs[i] == Plus || signs[i] == Minus
    requires forall i | 0 <= i < |signs| :: At(us, k + i) == Lexed(signs[i])
    requires At(us, k + |signs|) == Lexed(Number(v))
    ensures ParseNumber(us, k) == Step(Ok(Negations(MinusCount(signs), Element(v))), k + |signs| + 1)
    decreases |signs|
  {
    if signs != [] {
      assert At(us, k) == Lexed(signs[0]);
      forall i | 0 <= i < |signs[1..]|
        ensures At(us, k + 1 + i) == Lexed(signs[1..][i])
      {
        assert At(us, k + (i + 1)) == Lexed(signs[i + 1]);
      }
      assert k + 1 + |signs[1..]| == k + |signs|;
      SignedOperandAt(us, k + 1, signs[1..], v);
    }
  }

  /**
   * A run of unary signs before a number: every `+` is dropped and every
   * `-` adds one `Negative` (`+1` is `Element(1)`, `-1` is `Negative(Element(1))`).
   */
  lemma {:induction false} SignedOperand(signs: seq<Token>, v: real)
    requires forall i | 0 <= i < |signs| :: signs[i] == Plus || signs[i] == Minus
    ensures Parses(SignTokens(signs) + [Lexed(Number(v))], Negations(MinusCount(signs), Element(v)))
  {
    var us := SignTokens(signs) + [Lexed(Number(v))];
    forall i | 0 <= i < |signs|
      ensures At(us, 0 + i) == Lexed(signs[i])
    {
      assert us[i] == SignTokens(signs)[i];
    }
    assert us[|signs|] == Lexed(Number(v));
    SignedOperandAt(us, 0, signs, v);
  }

  /** Unary `-` wraps only the next operand: `-2^2` is `Power(Negative(2), 2)`. */
  lemma MinusBindsOperand(v: real, op: Token, w: real)
    requires IsBinaryOperator(op)
    ensures ParseTokens([Lexed(Minus), Lexed(Number(v)), Lexed(op), Lexed(Number(w))])
         == Ok(Binary(op, Negative(Element(v)), Element(w)))
  {
    var ts := [Lexed(Minus), Lexed(Number(v)), Lexed(op), Lexed(Number(w))];
    assert ParseNumber(ts, 0) == Step(Ok(Negative(Element(v))), 2);
    assert ParseNumber(ts, 3) == Step(Ok(Element(w)), 4);
    assert ParseLoop(ts, 4, PrecedenceOf(op), Element(w)) == Step(Ok(Element(w)), 4);
    assert ParseAst(ts, 3, PrecedenceOf(op)) == Step(Ok(Element(w)), 4);
    var whole := Binary(op, Negative(Element(v)), Element(w));
    assert ParseOperation(ts, 2, Negative(Element(v))) == Step(Ok(whole), 4);
    assert ParseLoop(ts, 4, Default, whole) == Step(Ok(whole), 4);
    assert ParseLoop(ts, 2, Default, Negative(Element(v))) == Step(Ok(whole), 4);
  }

  // ---------------------------------------------------------------------
  // Errors at operand position, and the unreachable operator error
  // ---------------------------------------------------------------------

  /**
   * At operand position, EOF, `)`, `*`, `/` and `^` fail with
   * `InvalidNumber` naming the token, and an unknown character with
   * `UnableToParse`; so an empty input and `1+` both fail.
   */
  lemma OperandErrors(ts: seq<Lexeme>, k: nat)
    ensures At(ts, k) == Unknown ==> ParseNumber(ts, k).outcome == Err(UnableToParse("Number parse error"))
    ensures At(ts, k).Lexed? && At(ts, k).token in {EOF, RightParenthesis, Asterisk, Slash, Caret} ==>
      ParseNumber(ts, k).outcome == Err(InvalidNumber(DebugText(At(ts, k).token)))
    ensures ParseTokens([]) == Err(InvalidNumber("EOF"))
    ensures ParseTokens([Lexed(Number(1.0)), Lexed(Plus)]) == Err(InvalidNumber("EOF"))
  {
    var ts1 := [Lexed(Number(1.0)), Lexed(Plus)];
    assert ParseNumber(ts1, 2) == Step(Err(InvalidNumber("EOF")), 3);
    assert ParseOperation(ts1, 1, Element(1.0)).outcome == Err(InvalidNumber("EOF"));
  }

  /**
   * No parse ends with `InvalidOperator` or with the "Operator parse error"
   * case of `UnableToParse`: the loop calls `operation` only on `+ - * / ^ (`.
   * Both come from `operation` only when it is called on another token.
   */
  lemma NoOperatorErrors(ts: seq<Lexeme>, k: nat, left: Node)
    ensures forall d :: ParseTokens(ts) != Err(InvalidOperator(d))
    ensures ParseTokens(ts) != Err(UnableToParse("Operator parse error"))
    ensures At(ts, k) == Lexed(RightParenthesis) ==>
      ParseOperation(ts, k, left).outcome == Err(InvalidOperator("RightParenthesis"))
    ensures At(ts, k) == Unknown ==>
      ParseOperation(ts, k, left).outcome == Err(UnableToParse("Operator parse error"))
  {
  }

  /**
   * The token after a successful parenthesised expression is `)`, EOF or a
   * number: `ParenthesisNotBalanced` is only ever reported on EOF or a number.
   */
  lemma GroupCloser(ts: seq<Lexeme>, k: nat)
    requires ParseAst(ts, k, Default).outcome.Ok?
    ensures var x := At(ts, ParseAst(ts, k, Default).next);
            x == Lexed(RightParenthesis) || x == Lexed(EOF) || (x.Lexed? && x.token.Number?)
  {
    var x := At(ts, ParseAst(ts, k, Default).next);
    PrecedenceMap(x.token);
  }

  // ---------------------------------------------------------------------
  // Locality: a successful parse reads only its own tokens
  // ---------------------------------------------------------------------

  /** A token that ends the loop of `ast` at every level: a number, `)` or EOF. */
  predicate Halts(x: Lexeme)
  {
    x.Lexed? && PrecedenceOf(x.token) == Default
  }

  /**
   * The first `m` tokens of `ts` occur in `us` from index `d` on, and both
   * streams continue with a token that halts every loop.
   */
  predicate Embedded(ts: seq<Lexeme>, us: seq<Lexeme>, d: nat, m: nat)
  {
    && (forall i | 0 <= i < m :: At(us, d + i) == At(ts, i))
    && Halts(At(ts, m))
    && Halts(At(us, d + m))
  }

  function Shift(s: Step, d: nat): Step
  {
    Step(s.outcome, s.next + d)
  }

  lemma {:induction false} NumberEmbedded(ts: seq<Lexeme>, us: seq<Lexeme>, d: nat, m: nat, k: nat)
    requires Embedded(ts, us, d, m)
    requires ParseNumber(ts, k).outcome.Ok? && ParseNumber(ts, k).next <= m
    ensures ParseNumber(us, d + k) == Shift(ParseNumber(ts, k), d)
    decreases Measure(ts, k), 1
  {
    assert At(us, d + k) == At(ts, k);
    var x := At(ts, k);
    if x == Lexed(LeftParenthesis) {
      GroupNumberEmbedded(ts, us, d, m, k);
    } else if x == Lexed(Plus) || x == Lexed(Minus) {
      NumberEmbedded(ts, us, d, m, k + 1);
    }
  }

  /** `number` on a `(`. */
  lemma {:induction false} GroupNumberEmbedded(ts: seq<Lexeme>, us: seq<Lexeme>, d: nat, m: nat, k: nat)
    requires Embedded(ts, us, d, m)
    requires At(ts, k) == Lexed(LeftParenthesis)
    requires ParseNumber(ts, k).outcome.Ok? && ParseNumber(ts, k).next <= m
    ensures ParseNumber(us, d + k) == Shift(ParseNumber(ts, k), d)
    decreases Measure(ts, k), 0
  {
    assert At(us, d + k) == At(ts, k);
    var s := ParseAst(ts, k + 1, Default);
    AstEmbedded(ts, us, d, m, k + 1, Default);
    assert At(us, d + s.next) == At(ts, s.next);
  }

  lemma {:induction false} AstEmbedded(ts: seq<Lexeme>, us: seq<Lexeme>, d: nat, m: nat, k: nat, prec: Precedence)
    requires Embedded(ts, us, d, m)
    requires ParseAst(ts, k, prec).outcome.Ok? && ParseAst(ts, k, prec).next <= m
    ensures ParseAst(us, d + k, prec) == Shift(ParseAst(ts, k, prec), d)
    decreases Measure(ts, k), 4
  {
    var s := ParseNumber(ts, k);
    NumberEmbedded(ts, us, d, m, k);
    LoopEmbedded(ts, us, d, m, s.next, prec, s.outcome.value);
  }

  lemma {:induction false} LoopEmbedded(ts: seq<Lexeme>, us: seq<Lexeme>, d: nat, m: nat, k: nat, prec: Precedence, left: Node)
    requires Embedded(ts, us, d, m) && k <= m
    requires ParseLoop(ts, k, prec, left).outcome.Ok? && ParseLoop(ts, k, prec, left).next <= m
    ensures ParseLoop(us, d + k, prec, left) == Shift(ParseLoop(ts, k, prec, left), d)
    decreases Measure(ts, k), 3
  {
    if k < m {
      assert At(us, d + k) == At(ts, k);
      var t := At(ts, k).token;
      if !(t == EOF || AtLeast(prec, PrecedenceOf(t))) {
        LoopStepEmbedded(ts, us, d, m, k, prec, left);
      }
    }
  }

  /** The loop of `ast` where it calls `operation` and goes on. */
  lemma {:induction false} LoopStepEmbedded(ts: seq<Lexeme>, us: seq<Lexeme>, d: nat, m: nat, k: nat, prec: Precedence, left: Node)
    requires Embedded(ts, us, d, m) && k < m
    requires At(ts, k).Lexed? && !(At(ts, k).token == EOF || AtLeast(prec, PrecedenceOf(At(ts, k).token)))
    requires ParseLoop(ts, k, prec, left).outcome.Ok? && ParseLoop(ts, k, prec, left).next <= m
    ensures ParseLoop(us, d + k, prec, left) == Shift(ParseLoop(ts, k, prec, left), d)
    decreases Measure(ts, k), 2
  {
    assert At(us, d + k) == At(ts, k);
    var s := ParseOperation(ts, k, left);
    OperationEmbedded(ts, us, d, m, k, left);
    LoopEmbedded(ts, us, d, m, s.next, prec, s.outcome.value);
  }

  lemma {:induction false} OperationEmbedded(ts: seq<Lexeme>, us: seq<Lexeme>, d: nat, m: nat, k: nat, left: Node)
    requires Embedded(ts, us, d, m)
    requires ParseOperation(ts, k, left).outcome.Ok? && ParseOperation(ts, k, left).next <= m
    ensures ParseOperation(us, d + k, left) == Shift(ParseOperation(ts, k, left), d)
    decreases Measure(ts, k), 1
  {
    var x := At(ts, k);
    if x.Lexed? && IsBinaryOperator(x.token) {
      BinaryOperationEmbedded(ts, us, d, m, k, left);
    } else {
      GroupOperationEmbedded(ts, us, d, m, k, left);
    }
  }

  lemma {:induction false} BinaryOperationEmbedded(ts: seq<Lexeme>, us: seq<Lexeme>, d: nat, m: nat, k: nat, left: Node)
    requires Embedded(ts, us, d, m)
    requires At(ts, k).Lexed? && IsBinaryOperator(At(ts, k).token)
    requires ParseOperation(ts, k, left).outcome.Ok? && ParseOperation(ts, k, left).next <= m
    ensures ParseOperation(us, d + k, left) == Shift(ParseOperation(ts, k, left), d)
    decreases Measure(ts, k), 0
  {
    assert At(us, d + k) == At(ts, k);
    var t := At(ts, k).token;
    AstEmbedded(ts, us, d, m, k + 1, PrecedenceOf(t));
  }

  lemma {:induction false} GroupOperationEmbedded(ts: seq<Lexeme>, us: seq<Lexeme>, d: nat, m: nat, k: nat, left: Node)
    requires Embedded(ts, us, d, m)
    requires !(At(ts, k).Lexed? && IsBinaryOperator(At(ts, k).token))
    requires ParseOperation(ts, k, left).outcome.Ok? && ParseOperation(ts, k, left).next <= m
    ensures ParseOperation(us, d + k, left) == Shift(ParseOperation(ts, k, left), d)
    decreases Measure(ts, k), 0
  {
    assert At(us, d + k) == At(ts, k);
    var s := ParseAst(ts, k + 1, Default);
    AstEmbedded(ts, us, d, m, k + 1, Default);
    assert At(us, d + s.next) == At(ts, s.next);
  }

  /** A complete expression between `(` and `)` inside a larger stream parses to its own tree. */
  lemma GroupAt(us: seq<Lexeme>, k: nat, inner: seq<Lexeme>, n: Node, left: Node)
    requires Parses(inner, n)
    requires At(us, k) == Lexed(LeftParenthesis)
    requires forall i | 0 <= i < |inner| :: At(us, k + 1 + i) == inner[i]
    requires At(us, k + 1 + |inner|) == Lexed(RightParenthesis)
    ensures ParseNumber(us, k) == Step(Ok(n), k + |inner| + 2)
    ensures ParseOperation(us, k, left) == Step(Ok(Multiply(left, n)), k + |inner| + 2)
  {
    forall i | 0 <= i < |inner|
      ensures At(us, (k + 1) + i) == At(inner, i)
    {
      assert At(us, k + 1 + i) == inner[i];
    }
    assert Embedded(inner, us, k + 1, |inner|);
    AstEmbedded(inner, us, k + 1, |inner|, 0, Default);
  }

  lemma GroupAtStart(inner: seq<Lexeme>, rest: seq<Lexeme>, n: Node)
    requires Parses(inner, n)
    ensures ParseNumber(Group(inner) + rest, 0) == Step(Ok(n), |inner| + 2)
  {
    var us := Group(inner) + rest;
    forall i | 0 <= i < |inner|
      ensures At(us, 0 + 1 + i) == inner[i]
    {
    }
    GroupAt(us, 0, inner, n, n);
  }

  /** Parenthesising a complete expression does not change its tree: `(20+30)` is `Sum(20, 30)`. */
  lemma ParenthesesTransparent(inner: seq<Lexeme>, n: Node)
    requires Parses(inner, n)
    ensures Parses(Group(inner), n)
  {
    GroupAtStart(inner, [], n);
    assert Group(inner) + [] == Group(inner);
  }

  /** A group that ends the stream, met by the loop of `ast` after `left`: a product. */
  lemma GroupTail(us: seq<Lexeme>, k: nat, b: seq<Lexeme>, nb: Node, left: Node)
    requires Parses(b, nb)
    requires |us| == k + |b| + 2 && us[k..] == Group(b)
    ensures ParseLoop(us, k, Default, left) == Step(Ok(Multiply(left, nb)), |us|)
  {
    forall i | 0 <= i < |b|
      ensures At(us, k + 1 + i) == b[i]
    {
      assert us[k..][1 + i] == b[i];
    }
    assert us[k..][0] == Lexed(LeftParenthesis) && us[k..][|b| + 1] == Lexed(RightParenthesis);
    GroupAt(us, k, b, nb, left);
    var product := Multiply(left, nb);
    assert ParseLoop(us, |us|, Default, product) == Step(Ok(product), |us|);
  }

  /** An operator and a group that ends the stream, met by the loop of `ast` after `left`. */
  lemma OperatorGroupTail(us: seq<Lexeme>, k: nat, op: Token, b: seq<Lexeme>, nb: Node, left: Node)
    requires IsBinaryOperator(op) && Parses(b, nb)
    requires |us| == k + |b| + 3 && us[k] == Lexed(op) && us[k + 1..] == Group(b)
    ensures ParseLoop(us, k, Default, left) == Step(Ok(Binary(op, left, nb)), |us|)
  {
    forall i | 0 <= i < |b|
      ensures At(us, k + 2 + i) == b[i]
    {
      assert us[k + 1..][1 + i] == b[i];
    }
    assert us[k + 1..][0] == Lexed(LeftParenthesis) && us[k + 1..][|b| + 1] == Lexed(RightParenthesis);
    GroupAt(us, k + 1, b, nb, nb);
    assert ParseLoop(us, |us|, PrecedenceOf(op), nb) == Step(Ok(nb), |us|);
    assert ParseAst(us, k + 1, PrecedenceOf(op)) == Step(Ok(nb), |us|);
    var whole := Binary(op, left, nb);
    assert ParseOperation(us, k, left) == Step(Ok(whole), |us|);
    assert ParseLoop(us, |us|, Default, whole) == Step(Ok(whole), |us|);
  }

  /**
   * A `(` where an operator may stand multiplies: `(A)(B)` is
   * `Multiply(A, B)`, the same tree as `(A)*(B)`.
   */
  lemma ImplicitMultiplication(a: seq<Lexeme>, na: Node, b: seq<Lexeme>, nb: Node)
    requires Parses(a, na) && Parses(b, nb)
    ensures Parses(Group(a) + Group(b), Multiply(na, nb))
    ensures Parses(Group(a) + [Lexed(Asterisk)] + Group(b), Multiply(na, nb))
  {
    var g := |a| + 2;
    var implicit := Group(a) + Group(b);
    GroupAtStart(a, Group(b), na);
    assert implicit[g..] == Group(b);
    GroupTail(implicit, g, b, nb, na);

    var explicit := Group(a) + ([Lexed(Asterisk)] + Group(b));
    assert explicit == Group(a) + [Lexed(Asterisk)] + Group(b);
    GroupAtStart(a, [Lexed(Asterisk)] + Group(b), na);
    assert explicit[g + 1..] == Group(b);
    OperatorGroupTail(explicit, g, Asterisk, b, nb, na);
  }

  /** A number followed by a parenthesised expression, with or without `*`, is their product: `10*(20+30)`, `2(3)`. */
  lemma NumberTimesGroup(v: real, b: seq<Lexeme>, nb: Node)
    requires Parses(b, nb)
    ensures Parses([Lexed(Number(v))] + Group(b), Multiply(Element(v), nb))
    ensures Parses([Lexed(Number(v)), Lexed(Asterisk)] + Group(b), Multiply(Element(v), nb))
  {
    var implicit := [Lexed(Number(v))] + Group(b);
    assert ParseNumber(implicit, 0) == Step(Ok(Element(v)), 1);
    assert implicit[1..] == Group(b);
    GroupTail(implicit, 1, b, nb, Element(v));

    var explicit := [Lexed(Number(v)), Lexed(Asterisk)] + Group(b);
    assert ParseNumber(explicit, 0) == Step(Ok(Element(v)), 1);
    assert explicit[2..] == Group(b);
    OperatorGroupTail(explicit, 1, Asterisk, b, nb, Element(v));
  }

  /**
   * Parsing stops at the first number or `)` that cannot extend a complete
   * expression and leaves it unread: `1)` and `(1)2` both give `Element(1)`.
   */
  lemma TrailingTokensIgnored(ts: seq<Lexeme>, n: Node, rest: seq<Lexeme>)
    requires Parses(ts, n)
    requires |rest| > 0 && (rest[0] == Lexed(RightParenthesis) || (rest[0].Lexed? && rest[0].token.Number?))
    ensures ParseAst(ts + rest, 0, Default) == Step(Ok(n), |ts|)
  {
    var us := ts + rest;
    assert Embedded(ts, us, 0, |ts|);
    AstEmbedded(ts, us, 0, |ts|, 0, Default);
  }

  /**
   * A `(` whose expression is followed by EOF or by a number instead of `)`
   * fails with `ParenthesisNotBalanced`: `(1+2` and `(1+2 3`.
   */
  lemma UnclosedGroup(inner: seq<Lexeme>, n: Node, rest: seq<Lexeme>)
    requires Parses(inner, n)
    requires rest == [] || (rest[0].Lexed? && rest[0].token.Number?)
    ensures ParseTokens([Lexed(LeftParenthesis)] + inner + rest) == Err(ParenthesisNotBalanced)
  {
    var us := [Lexed(LeftParenthesis)] + inner + rest;
    forall i | 0 <= i < |inner|
      ensures At(us, 1 + i) == At(inner, i)
    {
    }
    assert Embedded(inner, us, 1, |inner|);
    AstEmbedded(inner, us, 1, |inner|, 0, Default);
    assert ParseAst(us, 1, Default) == Step(Ok(n), |inner| + 1);
    assert ParseNumber(us, 0).outcome == Err(ParenthesisNotBalanced);
  }

  // ---------------------------------------------------------------------
  // A printer the parser inverts
  // ---------------------------------------------------------------------

  function OperatorToken(n: Node): (t: Token)
    requires IsBinary(n)
    ensures IsBinaryOperator(t) && Binary(t, n.left, n.right) == n
  {
    match n
    case Sum(_, _) => Plus
    case Subtract(_, _) => Minus
    case Multiply(_, _) => Asterisk
    case Divide(_, _) => Slash
    case Power(_, _) => Caret
  }

  /** The fully parenthesised token stream of a tree. */
  function Print(n: Node): seq<Lexeme>
  {
    match n
    case Element(v) => [Lexed(Number(v))]
    case Negative(x) => [Lexed(Minus)] + Group(Print(x))
    case _ => Group(Print(n.left)) + [Lexed(OperatorToken(n))] + Group(Print(n.right))
  }

  lemma BinaryRoundTrip(op: Token, l: Node, r: Node, pl: seq<Lexeme>, pr: seq<Lexeme>)
    requires IsBinaryOperator(op)
    requires Parses(pl, l) && Parses(pr, r)
    ensures Parses(Group(pl) + [Lexed(op)] + Group(pr), Binary(op, l, r))
  {
    var us := Group(pl) + ([Lexed(op)] + Group(pr));
    var g := |pl| + 2;
    assert us == Group(pl) + [Lexed(op)] + Group(pr);
    GroupAtStart(pl, [Lexed(op)] + Group(pr), l);
    assert us[g + 1..] == Group(pr);
    OperatorGroupTail(us, g, op, pr, r, l);
  }

  /** Every tree is parsed back from its fully parenthesised tokens. */
  lemma {:induction false} PrintRoundTrip(n: Node)
    ensures Parses(Print(n), n)
  {
    match n
    case Element(v) =>
    case Negative(x) =>
      PrintRoundTrip(x);
      var us := Print(n);
      forall i | 0 <= i < |Print(x)|
        ensures At(us, 1 + 1 + i) == Print(x)[i]
      {
      }
      GroupAt(us, 1, Print(x), x, x);
    case _ =>
      PrintRoundTrip(n.left);
      PrintRoundTrip(n.right);
      BinaryRoundTrip(OperatorToken(n), n.left, n.right, Print(n.left), Print(n.right));
  }
}

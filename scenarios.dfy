/**
 * The examples of src/parse_math (the tests of parser.rs, ast.rs and
 * token.rs) and the parser's error cases, as statements about input lines.
 * Each family of lines is a lemma over its numbers and operator characters;
 * each example is an instance of one. They hold for every numeric class
 * that agrees with ASCII.
 */
module Scenarios {
  import opened Options
  import opened Tokens
  import opened Ast
  import opened Errors
  import opened Parsing
  import opened TokenProperties
  import opened ParserProperties

  predicate IsOperatorChar(c: char)
  {
    c == '+' || c == '-' || c == '*' || c == '/' || c == '^'
  }

  /** The operator token of an operator character. */
  function OperatorOf(c: char): (t: Token)
    requires IsOperatorChar(c)
    ensures SingleChar(c) == Lexed(t) && IsBinaryOperator(t)
  {
    match c
    case '+' => Plus
    case '-' => Minus
    case '*' => Asterisk
    case '/' => Slash
    case '^' => Caret
  }

  /** `a op b` as pieces of a line. */
  function OpPieces(a: nat, c: char, b: nat): seq<Piece>
  {
    [Num(a), Sym(c), Num(b)]
  }

  /** `( ps )` as pieces of a line. */
  function GroupPieces(ps: seq<Piece>): seq<Piece>
  {
    [Sym('(')] + ps + [Sym(')')]
  }

  /** The tokens of `a op b`. */
  function OpTokens(a: nat, c: char, b: nat): seq<Lexeme>
    requires IsOperatorChar(c)
  {
    [Lexed(Number(a as real)), Lexed(OperatorOf(c)), Lexed(Number(b as real))]
  }

  /** The tree of `a op b`. */
  function OpNode(a: nat, c: char, b: nat): Node
    requires IsOperatorChar(c)
  {
    Binary(OperatorOf(c), Element(a as real), Element(b as real))
  }

  /** `a op b` as text. */
  function OpText(a: nat, c: char, b: nat): string
  {
    NatText(a) + [c] + NatText(b)
  }

  lemma AppendAssociative<T>(x: seq<T>, y: seq<T>, z: seq<T>)
    ensures x + y + z == x + (y + z)
  {
  }

  lemma RenderCons(p: Piece, ps: seq<Piece>)
    ensures Render([p] + ps) == PieceText(p) + Render(ps)
  {
    assert ([p] + ps)[1..] == ps;
  }

  lemma RenderOne(p: Piece)
    ensures Render([p]) == PieceText(p)
  {
    assert [p][1..] == [];
  }

  lemma RenderOp(a: nat, c: char, b: nat)
    ensures Render(OpPieces(a, c, b)) == OpText(a, c, b)
  {
    assert OpPieces(a, c, b) == [Num(a)] + ([Sym(c)] + [Num(b)]);
    RenderOne(Num(b));
    RenderCons(Sym(c), [Num(b)]);
    RenderCons(Num(a), [Sym(c)] + [Num(b)]);
  }

  lemma RenderGroup(ps: seq<Piece>)
    ensures Render(GroupPieces(ps)) == "(" + Render(ps) + ")"
  {
    RenderAppend([Sym('(')], ps);
    RenderAppend([Sym('(')] + ps, [Sym(')')]);
    RenderOne(Sym('('));
    RenderOne(Sym(')'));
  }

  lemma OpPiecesTokens(a: nat, c: char, b: nat)
    requires IsOperatorChar(c)
    ensures WellFormed(OpPieces(a, c, b))
    ensures PieceTokens(OpPieces(a, c, b)) == OpTokens(a, c, b)
    ensures Parses(OpTokens(a, c, b), OpNode(a, c, b))
  {
    var ps := OpPieces(a, c, b);
    assert ps[1..] == [Sym(c), Num(b)] && ps[1..][1..] == [Num(b)] && [Num(b)][1..] == [];
    assert PieceTokens([Num(b)]) == [Lexed(Number(b as real))];
    assert PieceTokens([Sym(c), Num(b)]) == [SingleChar(c), Lexed(Number(b as real))];
    SingleOperator(a as real, OperatorOf(c), b as real);
  }

  lemma GroupPiecesTokens(ps: seq<Piece>)
    requires WellFormed(ps)
    ensures WellFormed(GroupPieces(ps))
    ensures PieceTokens(GroupPieces(ps)) == Group(PieceTokens(ps))
  {
    WellFormedAppend([Sym('(')], ps);
    WellFormedAppend([Sym('(')] + ps, [Sym(')')]);
    PieceTokensAppend([Sym('(')], ps);
    PieceTokensAppend([Sym('(')] + ps, [Sym(')')]);
  }

  /** A lone number is an expression. */
  lemma NumberParses(v: real)
    ensures Parses([Lexed(Number(v))], Element(v))
  {
    var ts := [Lexed(Number(v))];
    assert ParseNumber(ts, 0) == Step(Ok(Element(v)), 1);
    assert ParseLoop(ts, 1, Default, Element(v)) == Step(Ok(Element(v)), 1);
  }

  // ---------------------------------------------------------------------
  // Families of lines: the tokens of each
  // ---------------------------------------------------------------------

  lemma NumberTokens(numeric: NumericClass, v: nat)
    ensures Tokenize(numeric, NatText(v)) == [Lexed(Number(v as real))]
  {
    RenderOne(Num(v));
    TokenizeRender(numeric, [Num(v)]);
  }

  lemma OpLineTokens(numeric: NumericClass, a: nat, c: char, b: nat)
    requires IsOperatorChar(c)
    ensures Tokenize(numeric, OpText(a, c, b)) == OpTokens(a, c, b)
  {
    RenderOp(a, c, b);
    OpPiecesTokens(a, c, b);
    TokenizeRender(numeric, OpPieces(a, c, b));
  }

  lemma TwoOperatorTokens(numeric: NumericClass, a: nat, c1: char, b: nat, c2: char, c: nat)
    requires IsOperatorChar(c1) && IsOperatorChar(c2)
    ensures Tokenize(numeric, OpText(a, c1, b) + [c2] + NatText(c))
         == OpTokens(a, c1, b) + [Lexed(OperatorOf(c2)), Lexed(Number(c as real))]
  {
    var ops := OpPieces(a, c1, b);
    var tail := [Sym(c2), Num(c)];
    assert Render(ops + tail) == OpText(a, c1, b) + [c2] + NatText(c) by {
      RenderOp(a, c1, b);
      RenderOne(Num(c));
      RenderCons(Sym(c2), [Num(c)]);
      assert tail == [Sym(c2)] + [Num(c)];
      RenderAppend(ops, tail);
      AppendAssociative(OpText(a, c1, b), [c2], NatText(c));
    }
    assert PieceTokens(ops + tail) == OpTokens(a, c1, b) + [Lexed(OperatorOf(c2)), Lexed(Number(c as real))] by {
      OpPiecesTokens(a, c1, b);
      PieceTokensAppend(ops, tail);
    }
    assert WellFormed(ops + tail) by {
      OpPiecesTokens(a, c1, b);
      WellFormedAppend(ops, tail);
    }
    TokenizeRender(numeric, ops + tail);
  }

  lemma SignedTokens(numeric: NumericClass, c: char, v: nat)
    requires c == '+' || c == '-'
    ensures Tokenize(numeric, [c] + NatText(v)) == SignTokens([OperatorOf(c)]) + [Lexed(Number(v as real))]
  {
    var ps := [Sym(c), Num(v)];
    assert ps == [Sym(c)] + [Num(v)];
    RenderOne(Num(v));
    RenderCons(Sym(c), [Num(v)]);
    TokenizeRender(numeric, ps);
    assert PieceTokens(ps) == SignTokens([OperatorOf(c)]) + [Lexed(Number(v as real))];
  }

  lemma GroupedOperatorTokens(numeric: NumericClass, a: nat, c: char, b: nat)
    requires IsOperatorChar(c)
    ensures Tokenize(numeric, "(" + OpText(a, c, b) + ")") == Group(OpTokens(a, c, b))
  {
    RenderOp(a, c, b);
    RenderGroup(OpPieces(a, c, b));
    OpPiecesTokens(a, c, b);
    GroupPiecesTokens(OpPieces(a, c, b));
    TokenizeRender(numeric, GroupPieces(OpPieces(a, c, b)));
  }

  lemma UnclosedGroupTokens(numeric: NumericClass, a: nat, c: char, b: nat)
    requires IsOperatorChar(c)
    ensures Tokenize(numeric, "(" + OpText(a, c, b)) == [Lexed(LeftParenthesis)] + OpTokens(a, c, b)
  {
    RenderOp(a, c, b);
    RenderCons(Sym('('), OpPieces(a, c, b));
    OpPiecesTokens(a, c, b);
    WellFormedAppend([Sym('(')], OpPieces(a, c, b));
    PieceTokensAppend([Sym('(')], OpPieces(a, c, b));
    TokenizeRender(numeric, [Sym('(')] + OpPieces(a, c, b));
  }

  /** Anything well formed followed by a parenthesised group. */
  lemma PrefixGroupTokens(numeric: NumericClass, head: seq<Piece>, inner: seq<Piece>)
    requires WellFormed(head) && WellFormed(inner)
    ensures Tokenize(numeric, Render(head) + ("(" + Render(inner) + ")"))
         == PieceTokens(head) + Group(PieceTokens(inner))
  {
    var group := GroupPieces(inner);
    RenderGroup(inner);
    RenderAppend(head, group);
    GroupPiecesTokens(inner);
    WellFormedAppend(head, group);
    PieceTokensAppend(head, group);
    TokenizeRender(numeric, head + group);
  }

  lemma NumberTimesGroupTokens(numeric: NumericClass, v: nat, a: nat, c: char, b: nat)
    requires IsOperatorChar(c)
    ensures Tokenize(numeric, NatText(v) + "*" + ("(" + OpText(a, c, b) + ")"))
         == [Lexed(Number(v as real)), Lexed(Asterisk)] + Group(OpTokens(a, c, b))
  {
    var head := [Num(v), Sym('*')];
    assert Render(head) == NatText(v) + "*" by {
      RenderOne(Sym('*'));
      RenderCons(Num(v), [Sym('*')]);
      assert head == [Num(v)] + [Sym('*')];
    }
    assert head[1..] == [Sym('*')] && [Sym('*')][1..] == [];
    assert PieceTokens(head) == [Lexed(Number(v as real)), Lexed(Asterisk)] by {
      assert PieceTokens([Sym('*')]) == [Lexed(Asterisk)];
    }
    assert WellFormed(head);
    RenderOp(a, c, b);
    OpPiecesTokens(a, c, b);
    PrefixGroupTokens(numeric, head, OpPieces(a, c, b));
  }

  lemma NumberGroupTokens(numeric: NumericClass, v: nat, a: nat, c: char, b: nat)
    requires IsOperatorChar(c)
    ensures Tokenize(numeric, NatText(v) + ("(" + OpText(a, c, b) + ")"))
         == [Lexed(Number(v as real))] + Group(OpTokens(a, c, b))
  {
    RenderOne(Num(v));
    RenderOp(a, c, b);
    OpPiecesTokens(a, c, b);
    PrefixGroupTokens(numeric, [Num(v)], OpPieces(a, c, b));
  }

  lemma AdjacentGroupsTokens(numeric: NumericClass, inner1: seq<Piece>, inner2: seq<Piece>)
    requires WellFormed(inner1) && WellFormed(inner2)
    ensures Tokenize(numeric, "(" + Render(inner1) + ")" + ("(" + Render(inner2) + ")"))
         == Group(PieceTokens(inner1)) + Group(PieceTokens(inner2))
  {
    RenderGroup(inner1);
    GroupPiecesTokens(inner1);
    PrefixGroupTokens(numeric, GroupPieces(inner1), inner2);
  }

  // ---------------------------------------------------------------------
  // Families of lines: their trees
  // ---------------------------------------------------------------------

  /** A number alone. */
  lemma NumberLine(numeric: NumericClass, line: string, v: nat)
    requires line == NatText(v)
    ensures ParseText(numeric, line) == Ok(Element(v as real))
  {
    NumberTokens(numeric, v);
    NumberParses(v as real);
  }

  /** `a op b`. */
  lemma SingleOperatorLine(numeric: NumericClass, line: string, a: nat, c: char, b: nat)
    requires IsOperatorChar(c)
    requires line == OpText(a, c, b)
    ensures ParseText(numeric, line) == Ok(Binary(OperatorOf(c), Element(a as real), Element(b as real)))
  {
    OpLineTokens(numeric, a, c, b);
    OpPiecesTokens(a, c, b);
  }

  /** `a o1 b o2 c`: the tighter operator binds first, and equal levels lean to the left. */
  lemma TwoOperatorLine(numeric: NumericClass, line: string, a: nat, c1: char, b: nat, c2: char, c: nat)
    requires IsOperatorChar(c1) && IsOperatorChar(c2)
    requires line == OpText(a, c1, b) + [c2] + NatText(c)
    ensures var o1, o2 := OperatorOf(c1), OperatorOf(c2);
      ParseText(numeric, line)
      == if Below(PrecedenceOf(o1), PrecedenceOf(o2))
         then Ok(Binary(o1, Element(a as real), Binary(o2, Element(b as real), Element(c as real))))
         else Ok(Binary(o2, Binary(o1, Element(a as real), Element(b as real)), Element(c as real)))
  {
    TwoOperatorTokens(numeric, a, c1, b, c2, c);
    assert OpTokens(a, c1, b) + [Lexed(OperatorOf(c2)), Lexed(Number(c as real))]
        == [Lexed(Number(a as real)), Lexed(OperatorOf(c1)), Lexed(Number(b as real)),
            Lexed(OperatorOf(c2)), Lexed(Number(c as real))];
    TwoOperators(a as real, OperatorOf(c1), b as real, OperatorOf(c2), c as real);
  }

  /** A sign before a number: `-v` negates it, `+v` is the number itself. */
  lemma SignedLine(numeric: NumericClass, line: string, c: char, v: nat)
    requires c == '+' || c == '-'
    requires line == [c] + NatText(v)
    ensures ParseText(numeric, line) == Ok(if c == '-' then Negative(Element(v as real)) else Element(v as real))
  {
    var sign := OperatorOf(c);
    SignedTokens(numeric, c, v);
    SignedOperand([sign], v as real);
    assert MinusCount([sign]) == if c == '-' then 1 else 0 by {
      assert MinusCount([sign][1..]) == 0;
    }
    assert Negations(1, Element(v as real)) == Negative(Element(v as real));
  }

  /** `(a op b)`. */
  lemma GroupedOperatorLine(numeric: NumericClass, line: string, a: nat, c: char, b: nat)
    requires IsOperatorChar(c)
    requires line == "(" + OpText(a, c, b) + ")"
    ensures ParseText(numeric, line) == Ok(Binary(OperatorOf(c), Element(a as real), Element(b as real)))
  {
    GroupedOperatorTokens(numeric, a, c, b);
    OpPiecesTokens(a, c, b);
    ParenthesesTransparent(OpTokens(a, c, b), OpNode(a, c, b));
  }

  /** `(a op b` with no closing parenthesis. */
  lemma UnclosedGroupLine(numeric: NumericClass, line: string, a: nat, c: char, b: nat)
    requires IsOperatorChar(c)
    requires line == "(" + OpText(a, c, b)
    ensures ParseText(numeric, line) == Err(ParenthesisNotBalanced)
  {
    UnclosedGroupTokens(numeric, a, c, b);
    OpPiecesTokens(a, c, b);
    UnclosedGroup(OpTokens(a, c, b), OpNode(a, c, b), []);
    assert [Lexed(LeftParenthesis)] + OpTokens(a, c, b) + [] == [Lexed(LeftParenthesis)] + OpTokens(a, c, b);
  }

  /** `v*(a op b)`: the number times the group. */
  lemma NumberTimesGroupLine(numeric: NumericClass, line: string, v: nat, a: nat, c: char, b: nat)
    requires IsOperatorChar(c)
    requires line == NatText(v) + "*" + ("(" + OpText(a, c, b) + ")")
    ensures ParseText(numeric, line)
         == Ok(Multiply(Element(v as real), Binary(OperatorOf(c), Element(a as real), Element(b as real))))
  {
    NumberTimesGroupTokens(numeric, v, a, c, b);
    OpPiecesTokens(a, c, b);
    NumberTimesGroup(v as real, OpTokens(a, c, b), OpNode(a, c, b));
  }

  /** `v(a op b)`: a number directly before a group multiplies it, as if `*` stood between them. */
  lemma NumberGroupLine(numeric: NumericClass, line: string, v: nat, a: nat, c: char, b: nat)
    requires IsOperatorChar(c)
    requires line == NatText(v) + ("(" + OpText(a, c, b) + ")")
    ensures ParseText(numeric, line)
         == Ok(Multiply(Element(v as real), Binary(OperatorOf(c), Element(a as real), Element(b as real))))
  {
    NumberGroupTokens(numeric, v, a, c, b);
    OpPiecesTokens(a, c, b);
    NumberTimesGroup(v as real, OpTokens(a, c, b), OpNode(a, c, b));
  }

  /** `(a)(b)`. */
  lemma AdjacentNumberGroupsLine(numeric: NumericClass, line: string, a: nat, b: nat)
    requires line == "(" + NatText(a) + ")" + ("(" + NatText(b) + ")")
    ensures ParseText(numeric, line) == Ok(Multiply(Element(a as real), Element(b as real)))
  {
    RenderOne(Num(a));
    RenderOne(Num(b));
    AdjacentGroupsTokens(numeric, [Num(a)], [Num(b)]);
    assert PieceTokens([Num(a)]) == [Lexed(Number(a as real))];
    assert PieceTokens([Num(b)]) == [Lexed(Number(b as real))];
    NumberParses(a as real);
    NumberParses(b as real);
    ImplicitMultiplication([Lexed(Number(a as real))], Element(a as real), [Lexed(Number(b as real))], Element(b as real));
  }

  /** `(a1 op1 b1)(a2 op2 b2)`. */
  lemma AdjacentGroupsLine(numeric: NumericClass, line: string, a1: nat, c1: char, b1: nat, a2: nat, c2: char, b2: nat)
    requires IsOperatorChar(c1) && IsOperatorChar(c2)
    requires line == "(" + OpText(a1, c1, b1) + ")" + ("(" + OpText(a2, c2, b2) + ")")
    ensures ParseText(numeric, line)
         == Ok(Multiply(Binary(OperatorOf(c1), Element(a1 as real), Element(b1 as real)),
                        Binary(OperatorOf(c2), Element(a2 as real), Element(b2 as real))))
  {
    RenderOp(a1, c1, b1);
    RenderOp(a2, c2, b2);
    OpPiecesTokens(a1, c1, b1);
    OpPiecesTokens(a2, c2, b2);
    AdjacentGroupsTokens(numeric, OpPieces(a1, c1, b1), OpPieces(a2, c2, b2));
    ImplicitMultiplication(OpTokens(a1, c1, b1), OpNode(a1, c1, b1), OpTokens(a2, c2, b2), OpNode(a2, c2, b2));
  }

  // ---------------------------------------------------------------------
  // Families of lines that do not parse completely
  // ---------------------------------------------------------------------

  lemma TrailingOperatorTokens(numeric: NumericClass, a: nat, c: char)
    requires IsOperatorChar(c)
    ensures Tokenize(numeric, NatText(a) + [c]) == [Lexed(Number(a as real)), Lexed(OperatorOf(c))]
  {
    var ps := [Num(a), Sym(c)];
    assert Render(ps) == NatText(a) + [c] by {
      RenderOne(Sym(c));
      RenderCons(Num(a), [Sym(c)]);
      assert ps == [Num(a)] + [Sym(c)];
    }
    TokenizeRender(numeric, ps);
  }

  /** `a op` with nothing after the operator: the missing operand is reported as EOF. */
  lemma TrailingOperatorLine(numeric: NumericClass, line: string, a: nat, c: char)
    requires IsOperatorChar(c)
    requires line == NatText(a) + [c]
    ensures ParseText(numeric, line) == Err(InvalidNumber("EOF"))
  {
    var ts := [Lexed(Number(a as real)), Lexed(OperatorOf(c))];
    TrailingOperatorTokens(numeric, a, c);
    assert ParseNumber(ts, 0) == Step(Ok(Element(a as real)), 1);
    assert ParseNumber(ts, 2) == Step(Err(InvalidNumber("EOF")), 3);
    assert ParseAst(ts, 2, PrecedenceOf(OperatorOf(c))).outcome == Err(InvalidNumber("EOF"));
    assert ParseOperation(ts, 1, Element(a as real)).outcome == Err(InvalidNumber("EOF"));
    assert ParseLoop(ts, 1, Default, Element(a as real)).outcome == Err(InvalidNumber("EOF"));
  }

  /** `a)`: the stray `)` ends the expression and is never read. */
  lemma ClosingParenthesisLine(numeric: NumericClass, line: string, a: nat)
    requires line == NatText(a) + ")"
    ensures ParseText(numeric, line) == Ok(Element(a as real))
  {
    var ps := [Num(a), Sym(')')];
    assert Render(ps) == line by {
      RenderOne(Sym(')'));
      RenderCons(Num(a), [Sym(')')]);
      assert ps == [Num(a)] + [Sym(')')];
    }
    TokenizeRender(numeric, ps);
    assert PieceTokens(ps) == [Lexed(Number(a as real))] + [Lexed(RightParenthesis)];
    NumberParses(a as real);
    TrailingTokensIgnored([Lexed(Number(a as real))], Element(a as real), [Lexed(RightParenthesis)]);
  }

  /** `(a)b`: the number after the group ends the expression and is never read. */
  lemma GroupThenNumberLine(numeric: NumericClass, line: string, a: nat, b: nat)
    requires line == "(" + NatText(a) + ")" + NatText(b)
    ensures ParseText(numeric, line) == Ok(Element(a as real))
  {
    var g := GroupPieces([Num(a)]);
    assert Render(g + [Num(b)]) == line by {
      RenderOne(Num(a));
      RenderOne(Num(b));
      RenderGroup([Num(a)]);
      RenderAppend(g, [Num(b)]);
    }
    assert WellFormed(g + [Num(b)]) && PieceTokens(g + [Num(b)]) == Group([Lexed(Number(a as real))]) + [Lexed(Number(b as real))] by {
      GroupPiecesTokens([Num(a)]);
      WellFormedAppend(g, [Num(b)]);
      PieceTokensAppend(g, [Num(b)]);
      assert PieceTokens([Num(a)]) == [Lexed(Number(a as real))];
    }
    TokenizeRender(numeric, g + [Num(b)]);
    NumberParses(a as real);
    ParenthesesTransparent([Lexed(Number(a as real))], Element(a as real));
    TrailingTokensIgnored(Group([Lexed(Number(a as real))]), Element(a as real), [Lexed(Number(b as real))]);
  }

  /** A character the tokenizer does not know, where an operand is expected. */
  lemma UnknownOperandLine(numeric: NumericClass, line: string, u: char)
    requires !IsAsciiDigit(u) && !IsSymbol(u) && !IsAsciiWhitespace(u)
    requires line == [u]
    ensures ParseText(numeric, line) == Err(UnableToParse("Number parse error"))
  {
    StripNoWhitespace(line);
    assert Tokenize(numeric, line) == [Unknown];
    OperandErrors([Unknown], 0);
  }

  lemma UnknownAfterNumberTokens(numeric: NumericClass, a: nat, u: char)
    requires EndsNumber(u) && !IsSymbol(u) && !IsAsciiWhitespace(u)
    ensures Tokenize(numeric, NatText(a) + [u]) == [Lexed(Number(a as real)), Unknown]
  {
    var line := NatText(a) + [u];
    var q := |NatText(a)|;
    NatTextValue(a);
    assert line[0..q] == NatText(a);
    assert forall i | 0 <= i < q :: IsAsciiDigit(line[i]) by {
      assert forall i | 0 <= i < q :: line[i] == NatText(a)[i];
    }
    StripNoWhitespace(line);
    LexDigits(numeric, line, 0, q);
    assert TokensFrom(numeric, line, q) == [Unknown];
  }

  /** A character the tokenizer does not know, after a number. */
  lemma UnknownAfterNumberLine(numeric: NumericClass, line: string, a: nat, u: char)
    requires EndsNumber(u) && !IsSymbol(u) && !IsAsciiWhitespace(u)
    requires line == NatText(a) + [u]
    ensures ParseText(numeric, line) == Err(UnableToParse("Unknown char"))
  {
    var ts := [Lexed(Number(a as real)), Unknown];
    UnknownAfterNumberTokens(numeric, a, u);
    assert ParseNumber(ts, 0) == Step(Ok(Element(a as real)), 1);
    assert ParseLoop(ts, 1, Default, Element(a as real)) == Step(Err(UnableToParse("Unknown char")), 1);
  }

  // ---------------------------------------------------------------------
  // The examples of parser.rs, and a few more lines
  // ---------------------------------------------------------------------

  /** The numerals the examples use. */
  lemma Numerals()
    ensures NatText(1) == "1" && NatText(2) == "2" && NatText(3) == "3"
    ensures NatText(10) == "10" && NatText(12) == "12" && NatText(20) == "20"
    ensures NatText(30) == "30" && NatText(40) == "40"
  {
    assert NatText(10) == NatText(1) + [DigitChar(0)];
    assert NatText(12) == NatText(1) + [DigitChar(2)];
    assert NatText(20) == NatText(2) + [DigitChar(0)];
    assert NatText(30) == NatText(3) + [DigitChar(0)];
    assert NatText(40) == NatText(4) + [DigitChar(0)];
  }

  lemma NegativeExample(numeric: NumericClass)
    ensures ParseText(numeric, "-1") == Ok(Negative(Element(1.0)))
  {
    Numerals();
    SignedLine(numeric, "-1", '-', 1);
  }

  lemma TrimPlusExample(numeric: NumericClass)
    ensures ParseText(numeric, "+1") == Ok(Element(1.0))
  {
    Numerals();
    SignedLine(numeric, "+1", '+', 1);
  }

  lemma SumTwoExample(numeric: NumericClass)
    ensures ParseText(numeric, "1+2") == Ok(Sum(Element(1.0), Element(2.0)))
  {
    Numerals();
    SingleOperatorLine(numeric, "1+2", 1, '+', 2);
  }

  lemma MultiplyTwoExample(numeric: NumericClass)
    ensures ParseText(numeric, "1*2") == Ok(Multiply(Element(1.0), Element(2.0)))
  {
    Numerals();
    SingleOperatorLine(numeric, "1*2", 1, '*', 2);
  }

  lemma DivideTwoExample(numeric: NumericClass)
    ensures ParseText(numeric, "1/2") == Ok(Divide(Element(1.0), Element(2.0)))
  {
    Numerals();
    SingleOperatorLine(numeric, "1/2", 1, '/', 2);
  }

  lemma SubtractTwoExample(numeric: NumericClass)
    ensures ParseText(numeric, "1-2") == Ok(Subtract(Element(1.0), Element(2.0)))
  {
    Numerals();
    SingleOperatorLine(numeric, "1-2", 1, '-', 2);
  }

  lemma PowerTwoExample(numeric: NumericClass)
    ensures ParseText(numeric, "1^2") == Ok(Node.Power(Element(1.0), Element(2.0)))
  {
    Numerals();
    SingleOperatorLine(numeric, "1^2", 1, '^', 2);
  }

  lemma SumManyExample(numeric: NumericClass)
    ensures ParseText(numeric, "10+20+30") == Ok(Sum(Sum(Element(10.0), Element(20.0)), Element(30.0)))
  {
    Numerals();
    TwoOperatorLine(numeric, "10+20+30", 10, '+', 20, '+', 30);
  }

  lemma MultiplyManyExample(numeric: NumericClass)
    ensures ParseText(numeric, "10*20*30") == Ok(Multiply(Multiply(Element(10.0), Element(20.0)), Element(30.0)))
  {
    Numerals();
    TwoOperatorLine(numeric, "10*20*30", 10, '*', 20, '*', 30);
  }

  lemma DivideManyExample(numeric: NumericClass)
    ensures ParseText(numeric, "10/20/30") == Ok(Divide(Divide(Element(10.0), Element(20.0)), Element(30.0)))
  {
    Numerals();
    TwoOperatorLine(numeric, "10/20/30", 10, '/', 20, '/', 30);
  }

  lemma SubtractManyExample(numeric: NumericClass)
    ensures ParseText(numeric, "10-20-30") == Ok(Subtract(Subtract(Element(10.0), Element(20.0)), Element(30.0)))
  {
    Numerals();
    TwoOperatorLine(numeric, "10-20-30", 10, '-', 20, '-', 30);
  }

  /** `^` leans to the left like the other operators. */
  lemma PowManyExample(numeric: NumericClass)
    ensures ParseText(numeric, "10^20^30") == Ok(Node.Power(Node.Power(Element(10.0), Element(20.0)), Element(30.0)))
  {
    Numerals();
    TwoOperatorLine(numeric, "10^20^30", 10, '^', 20, '^', 30);
  }

  lemma CombinePowExample(numeric: NumericClass)
    ensures ParseText(numeric, "3^2*2") == Ok(Multiply(Node.Power(Element(3.0), Element(2.0)), Element(2.0)))
  {
    Numerals();
    assert !Below(PrecedenceOf(Caret), PrecedenceOf(Asterisk));
    TwoOperatorLine(numeric, "3^2*2", 3, '^', 2, '*', 2);
  }

  lemma CombineSumProductExample(numeric: NumericClass)
    ensures ParseText(numeric, "10+20*30") == Ok(Sum(Element(10.0), Multiply(Element(20.0), Element(30.0))))
  {
    Numerals();
    assert Below(PrecedenceOf(Plus), PrecedenceOf(Asterisk));
    TwoOperatorLine(numeric, "10+20*30", 10, '+', 20, '*', 30);
  }

  lemma CombineProductSumExample(numeric: NumericClass)
    ensures ParseText(numeric, "10*20+30") == Ok(Sum(Multiply(Element(10.0), Element(20.0)), Element(30.0)))
  {
    Numerals();
    assert !Below(PrecedenceOf(Asterisk), PrecedenceOf(Plus));
    TwoOperatorLine(numeric, "10*20+30", 10, '*', 20, '+', 30);
  }

  lemma ParenthesisExample(numeric: NumericClass)
    ensures ParseText(numeric, "(20+30)") == Ok(Sum(Element(20.0), Element(30.0)))
  {
    Numerals();
    GroupedOperatorLine(numeric, "(20+30)", 20, '+', 30);
  }

  lemma CombineParenthesisExample(numeric: NumericClass)
    ensures ParseText(numeric, "10*(20+30)") == Ok(Multiply(Element(10.0), Sum(Element(20.0), Element(30.0))))
  {
    Numerals();
    NumberTimesGroupLine(numeric, "10*(20+30)", 10, 20, '+', 30);
  }

  lemma ImplicitProductExample(numeric: NumericClass)
    ensures ParseText(numeric, "10(20+30)") == Ok(Multiply(Element(10.0), Sum(Element(20.0), Element(30.0))))
  {
    Numerals();
    NumberGroupLine(numeric, "10(20+30)", 10, 20, '+', 30);
  }

  lemma ParenthesisMultiplyNumbersExample(numeric: NumericClass)
    ensures ParseText(numeric, "(10)(20)") == Ok(Multiply(Element(10.0), Element(20.0)))
  {
    Numerals();
    AdjacentNumberGroupsLine(numeric, "(10)(20)", 10, 20);
  }

  lemma ParenthesisMultiplySumsExample(numeric: NumericClass)
    ensures ParseText(numeric, "(10+20)(30+40)")
         == Ok(Multiply(Sum(Element(10.0), Element(20.0)), Sum(Element(30.0), Element(40.0))))
  {
    Numerals();
    assert "(10+20)(30+40)" == "(" + OpText(10, '+', 20) + ")" + ("(" + OpText(30, '+', 40) + ")");
    AdjacentGroupsLine(numeric, "(10+20)(30+40)", 10, '+', 20, 30, '+', 40);
  }

  /** `(10+20)(30+40)` evaluates to the product of the two sums, 2100. */
  lemma ParenthesisMultiplySumsValue(numeric: NumericClass, pow: PowerFn)
    ensures EvaluateText(numeric, pow, "(10+20)(30+40)") == Ok(Some(2100.0))
  {
    var sum1, sum2 := Sum(Element(10.0), Element(20.0)), Sum(Element(30.0), Element(40.0));
    EvalArithmetic(Element(10.0), Element(20.0), pow, 10.0, 20.0);
    EvalArithmetic(Element(30.0), Element(40.0), pow, 30.0, 40.0);
    EvalArithmetic(sum1, sum2, pow, 30.0, 70.0);
    ParenthesisMultiplySumsExample(numeric);
  }

  lemma EmptyLineExample(numeric: NumericClass)
    ensures ParseText(numeric, "") == Err(InvalidNumber("EOF"))
  {
    OperandErrors([], 0);
  }

  lemma TrailingOperatorExample(numeric: NumericClass)
    ensures ParseText(numeric, "1+") == Err(InvalidNumber("EOF"))
  {
    Numerals();
    TrailingOperatorLine(numeric, "1+", 1, '+');
  }

  lemma UnclosedParenthesisExample(numeric: NumericClass)
    ensures ParseText(numeric, "(1+2") == Err(ParenthesisNotBalanced)
  {
    Numerals();
    UnclosedGroupLine(numeric, "(1+2", 1, '+', 2);
  }

  lemma StrayParenthesisExample(numeric: NumericClass)
    ensures ParseText(numeric, "1)") == Ok(Element(1.0))
  {
    Numerals();
    ClosingParenthesisLine(numeric, "1)", 1);
  }

  lemma GroupThenNumberExample(numeric: NumericClass)
    ensures ParseText(numeric, "(1)2") == Ok(Element(1.0))
  {
    Numerals();
    GroupThenNumberLine(numeric, "(1)2", 1, 2);
  }

  lemma UnknownOperandExample(numeric: NumericClass)
    ensures ParseText(numeric, "$") == Err(UnableToParse("Number parse error"))
  {
    UnknownOperandLine(numeric, "$", '$');
  }

  lemma UnknownAfterNumberExample(numeric: NumericClass)
    ensures ParseText(numeric, "1$") == Err(UnableToParse("Unknown char"))
  {
    Numerals();
    UnknownAfterNumberLine(numeric, "1$", 1, '$');
  }

  lemma StripSpaces()
    ensures StripWhitespace("1 2") == "12"
    ensures StripWhitespace(" 1 + 2 ") == "1+2"
  {
    assert StripWhitespace("2 ") == "2";
    assert StripWhitespace("+ 2 ") == "+2";
    assert StripWhitespace("1 + 2 ") == "1+2";
  }

  /** A space does not separate numbers: `1 2` is the number twelve. */
  lemma SpaceJoinsDigitsExample(numeric: NumericClass)
    ensures ParseText(numeric, "1 2") == Ok(Element(12.0))
  {
    StripSpaces();
    TokenizeStripped(numeric, "1 2");
    Numerals();
    NumberLine(numeric, "12", 12);
  }

  lemma SpacesIgnoredExample(numeric: NumericClass)
    ensures ParseText(numeric, " 1 + 2 ") == Ok(Sum(Element(1.0), Element(2.0)))
  {
    StripSpaces();
    TokenizeStripped(numeric, " 1 + 2 ");
    SumTwoExample(numeric);
  }

  lemma TwoDotsScan(numeric: NumericClass)
    ensures ScanNumber(numeric, "1.2.3", 1) == 5
  {
    assert numeric('2') && numeric('3');
  }

  lemma TwoDotsNotFloat()
    ensures !IsFloatText("1.2.3")
  {
    assert DotIndex("1.2.3") == 1;
    assert "1.2.3"[3] == '.';
  }

  lemma TwoDotsTokens(numeric: NumericClass)
    ensures Tokenize(numeric, "1.2.3") == [Malformed("1.2.3")]
  {
    var cs := "1.2.3";
    StripNoWhitespace(cs);
    TwoDotsScan(numeric);
    TwoDotsNotFloat();
    assert cs[0..5] == cs;
    assert Lex(numeric, cs, 0) == (Malformed(cs), 5);
  }

  /** A number with two dots is a lexeme the float parser rejects: the source panics. */
  lemma TwoDotsExample(numeric: NumericClass)
    ensures ParseText(numeric, "1.2.3") == Panic("1.2.3")
  {
    TwoDotsTokens(numeric);
    assert ParseNumber([Malformed("1.2.3")], 0) == Step(Panic("1.2.3"), 1);
  }

  /** A numeral with a point is one number token with its decimal value: `2.5` is 2.5 and `1.` is 1. */
  lemma DecimalTokens(numeric: NumericClass)
    ensures Tokenize(numeric, "2.5") == [Lexed(Number(2.5))]
    ensures Tokenize(numeric, "1.") == [Lexed(Number(1.0))]
  {
    DecimalExamples();
    StripNoWhitespace("2.5");
    assert "2.5"[0..3] == "2.5";
    LexDecimal(numeric, "2.5", 0, 3);
    StripNoWhitespace("1.");
    assert "1."[0..2] == "1.";
    LexDecimal(numeric, "1.", 0, 2);
  }
}

/**
 * The precedence-climbing parser (src/parse_math/parser.rs).
 *
 * `ParseNumber`, `ParseAst`/`ParseLoop` and `ParseOperation` give the
 * meaning of the source's `number`, `ast` and `operation` on the token
 * stream of the input, read at an index; the `Parser` class runs the same
 * steps on the lazy tokenizer with one token of lookahead and is proved to
 * agree with them.
 */
module Parsing {
  import opened Options
  import opened Tokens
  import opened Ast
  import opened Errors

  /**
   * The result of a parse: a value, a parse error, or the panic of the
   * tokenizer's `unwrap` on a malformed number lexeme.
   */
  datatype Outcome<+T> = Ok(value: T) | Err(error: ParseError) | Panic(text: string)
  {
    predicate IsFailure()
    {
      !Ok?
    }

    function PropagateFailure<U>(): Outcome<U>
      requires !Ok?
    {
      if Err? then Err(error) else Panic(text)
    }

    function Extract(): T
      requires Ok?
    {
      value
    }
  }

  /** An outcome together with the number of tokens read when it was reached. */
  datatype Step = Step(outcome: Outcome<Node>, next: nat)

  /** Tokens still to come before the stream yields only EOF. */
  function Measure(ts: seq<Lexeme>, k: nat): nat
  {
    if k < |ts| then |ts| - k else 0
  }

  predicate IsBinaryOperator(t: Token)
  {
    t == Plus || t == Minus || t == Asterisk || t == Slash || t == Caret
  }

  /** The node a binary operator builds from its two operands. */
  function Binary(op: Token, left: Node, right: Node): Node
    requires IsBinaryOperator(op)
  {
    match op
    case Plus => Sum(left, right)
    case Minus => Subtract(left, right)
    case Asterisk => Multiply(left, right)
    case Slash => Divide(left, right)
    case Caret => Node.Power(left, right)
  }

  /**
   * The lookahead at which the loop of `ast` at level `prec` ends with the
   * operand it holds: EOF, or a token that binds no tighter than `prec`.
   */
  predicate StopsAt(x: Lexeme, prec: Precedence)
  {
    x.Lexed? && (x.token == EOF || AtLeast(prec, PrecedenceOf(x.token)))
  }

  /** A lookahead that lets the loop of `ast` call `operation`: one of `+ - * / ^ (`. */
  predicate IsOperatorLookahead(x: Lexeme)
  {
    x.Lexed? && Below(Default, PrecedenceOf(x.token))
  }

  /** The texts `InvalidNumber` can carry: the tokens that cannot start an operand. */
  predicate IsOperandError(detail: string)
  {
    detail == "EOF" || detail == "RightParenthesis" || detail == "Asterisk" || detail == "Slash" || detail == "Caret"
  }

  /**
   * The errors a parse can end with. `InvalidOperator` and the
   * "Operator parse error" case of `UnableToParse` are not among them.
   */
  predicate IsReachableError(e: ParseError)
  {
    || e == UnableToParse("Unknown char")
    || e == UnableToParse("Number parse error")
    || e == ParenthesisNotBalanced
    || (e.InvalidNumber? && IsOperandError(e.detail))
  }

  /** Reads the `)` that must follow a parenthesised expression. */
  function ExpectClose(ts: seq<Lexeme>, inner: Step): (r: Step)
    requires inner.outcome.Ok?
    ensures r.next == inner.next + 1
    ensures r.outcome.Ok? <==> At(ts, inner.next) == Lexed(RightParenthesis)
    ensures r.outcome.Ok? ==> r.outcome == inner.outcome
    ensures r.outcome.Err? ==> r.outcome.error == ParenthesisNotBalanced
  {
    match At(ts, inner.next)
    case Lexed(RightParenthesis) => Step(inner.outcome, inner.next + 1)
    case Malformed(text) => Step(Panic(text), inner.next + 1)
    case _ => Step(Err(ParenthesisNotBalanced), inner.next + 1)
  }

  /**
   * `number`: an operand at index `k`. Unary `+` is dropped, unary `-`
   * wraps the next operand, a `(` opens a group that must be closed.
   * It always reads at least one token and only ends with reachable errors.
   */
  function ParseNumber(ts: seq<Lexeme>, k: nat): (r: Step)
    ensures k < r.next
    ensures r.outcome.Err? ==> IsReachableError(r.outcome.error)
    decreases Measure(ts, k), 0
  {
    match At(ts, k)
    case Malformed(text) => Step(Panic(text), k + 1)
    case Unknown => Step(Err(UnableToParse("Number parse error")), k + 1)
    case Lexed(t) =>
      match t
      case Plus => ParseNumber(ts, k + 1)
      case Minus =>
        var s := ParseNumber(ts, k + 1);
        if s.outcome.Ok? then Step(Ok(Negative(s.outcome.value)), s.next) else s
      case Number(v) => Step(Ok(Element(v)), k + 1)
      case LeftParenthesis =>
        var s := ParseAst(ts, k + 1, Default);
        if s.outcome.Ok? then ExpectClose(ts, s) else s
      case _ => Step(Err(InvalidNumber(DebugText(t))), k + 1)
  }

  /**
   * `ast`: an operand followed by every operator that binds tighter than
   * `prec`. A success ends where the lookahead stops a loop at `prec`.
   */
  function ParseAst(ts: seq<Lexeme>, k: nat, prec: Precedence): (r: Step)
    ensures k < r.next
    ensures r.outcome.Ok? ==> StopsAt(At(ts, r.next), prec)
    ensures r.outcome.Err? ==> IsReachableError(r.outcome.error)
    decreases Measure(ts, k), 2
  {
    var s := ParseNumber(ts, k);
    if s.outcome.Ok? then ParseLoop(ts, s.next, prec, s.outcome.value) else s
  }

  /** The loop of `ast`, holding the operand `left` built so far. */
  function ParseLoop(ts: seq<Lexeme>, k: nat, prec: Precedence, left: Node): (r: Step)
    ensures k <= r.next
    ensures r.outcome.Ok? ==> StopsAt(At(ts, r.next), prec)
    ensures r.outcome.Err? ==> IsReachableError(r.outcome.error)
    decreases Measure(ts, k), 1
  {
    match At(ts, k)
    case Malformed(text) => Step(Panic(text), k)
    case Unknown => Step(Err(UnableToParse("Unknown char")), k)
    case Lexed(t) =>
      if t == EOF || AtLeast(prec, PrecedenceOf(t)) then Step(Ok(left), k)
      else
        var s := ParseOperation(ts, k, left);
        if s.outcome.Ok? then ParseLoop(ts, s.next, prec, s.outcome.value) else s
  }

  /**
   * `operation`: the operator at index `k` and its right operand, combined
   * with `left`. A binary operator parses its right side at its own level;
   * a `(` multiplies by the parenthesised expression. Called on one of
   * `+ - * / ^ (`, as the loop of `ast` does, it only ends with reachable errors.
   */
  function ParseOperation(ts: seq<Lexeme>, k: nat, left: Node): (r: Step)
    ensures k < r.next
    ensures r.outcome.Err? && IsOperatorLookahead(At(ts, k)) ==> IsReachableError(r.outcome.error)
    decreases Measure(ts, k), 0
  {
    match At(ts, k)
    case Malformed(text) => Step(Panic(text), k + 1)
    case Unknown => Step(Err(UnableToParse("Operator parse error")), k + 1)
    case Lexed(t) =>
      if IsBinaryOperator(t) then
        var s := ParseAst(ts, k + 1, PrecedenceOf(t));
        if s.outcome.Ok? then Step(Ok(Binary(t, left, s.outcome.value)), s.next) else s
      else if t == LeftParenthesis then
        var s := ParseAst(ts, k + 1, Default);
        if s.outcome.Ok? then
          var c := ExpectClose(ts, s);
          if c.outcome.Ok? then Step(Ok(Multiply(left, c.outcome.value)), c.next) else c
        else s
      else Step(Err(InvalidOperator(DebugText(t))), k + 1)
  }

  /** `parse`: an expression at the lowest level, from the start of a stream. */
  function ParseTokens(ts: seq<Lexeme>): (r: Outcome<Node>)
    ensures r.Err? ==> IsReachableError(r.error)
  {
    ParseAst(ts, 0, Default).outcome
  }

  /** Parsing a line of text. */
  function ParseText(numeric: NumericClass, input: string): Outcome<Node>
  {
    ParseTokens(Tokenize(numeric, input))
  }

  /**
   * `evaluate`: parse, then evaluate the tree. A parse failure is passed
   * through; a tree without quotients or powers always has a value.
   */
  function EvaluateOutcome(o: Outcome<Node>, pow: PowerFn): (r: Outcome<Option<real>>)
    ensures r.Ok? <==> o.Ok?
    ensures o.Ok? && IsPolynomial(o.value) ==> r.value.Some?
  {
    match o
    case Ok(n) => Ok(Eval(n, pow))
    case Err(e) => Err(e)
    case Panic(text) => Panic(text)
  }

  /** Evaluating a line of text: it fails exactly when parsing fails, and only with a reachable error. */
  function EvaluateText(numeric: NumericClass, pow: PowerFn, input: string): (r: Outcome<Option<real>>)
    ensures r.Ok? <==> ParseText(numeric, input).Ok?
    ensures r.Err? ==> IsReachableError(r.error)
  {
    EvaluateOutcome(ParseText(numeric, input), pow)
  }

  /** Where a tokenizer whose calls start from `stops` stands after `k` calls. */
  function StopAfter(stops: seq<nat>, k: nat): nat
    requires |stops| > 0
  {
    if k < |stops| then stops[k] else stops[|stops| - 1]
  }

  /**
   * The parser: the tokenizer behind a one-token lookahead buffer.
   * `tokens` is the stream the tokenizer produces, `stops` the positions its
   * calls start from, and `consumed` the number of tokens taken from the
   * stream; the buffer holds the next one when it was peeked.
   */
  class Parser {
    const tokenizer: Tokenizer
    var peeked: Option<Lexeme>
    ghost const tokens: seq<Lexeme>
    ghost const stops: seq<nat>
    ghost var consumed: nat

    ghost predicate Valid()
      reads this, tokenizer
    {
      && tokenizer.Valid()
      && |stops| == |tokens| + 1
      && stops[|tokens|] == |tokenizer.chars|
      && (forall i | 0 <= i < |stops| :: stops[i] <= |tokenizer.chars|)
      && (forall i {:trigger Lex(tokenizer.numeric, tokenizer.chars, stops[i])} | 0 <= i < |tokens| ::
            Lex(tokenizer.numeric, tokenizer.chars, stops[i]) == (tokens[i], stops[i + 1]))
      && match peeked
         case None =>
           tokenizer.pos == StopAfter(stops, consumed)
         case Some(x) =>
           && x == At(tokens, consumed)
           && tokenizer.pos == StopAfter(stops, consumed + 1)
    }

    constructor (value: string, numeric: NumericClass)
      ensures Valid() && fresh(tokenizer)
      ensures tokens == Tokenize(numeric, value) && consumed == 0
    {
      tokenizer := new Tokenizer(value, numeric);
      peeked := None;
      tokens := Tokenize(numeric, value);
      stops := Stops(numeric, StripWhitespace(value), 0);
      consumed := 0;
      StopsLex(numeric, StripWhitespace(value), 0);
    }

    /** The lookahead's `next`: the buffered token, or a fresh one from the tokenizer. */
    method NextToken() returns (x: Lexeme)
      requires Valid()
      modifies this, tokenizer
      ensures Valid()
      ensures x == At(tokens, old(consumed)) && consumed == old(consumed) + 1
    {
      if peeked.Some? {
        x := peeked.value;
        peeked := None;
      } else {
        x := Pull();
      }
      consumed := consumed + 1;
    }

    /** One call of the tokenizer, with nothing buffered: the next token of the stream. */
    method Pull() returns (x: Lexeme)
      requires Valid() && peeked.None?
      modifies tokenizer
      ensures tokenizer.Valid()
      ensures x == At(tokens, consumed) && tokenizer.pos == StopAfter(stops, consumed + 1)
    {
      ghost var k := consumed;
      x := tokenizer.Next();
      if k < |tokens| {
        assert Lex(tokenizer.numeric, tokenizer.chars, stops[k]) == (tokens[k], stops[k + 1]);
      } else {
        assert old(tokenizer.pos) == |tokenizer.chars|;
      }
    }

    /** The lookahead's `peek`: fills the buffer if it is empty; consumes nothing. */
    method PeekToken() returns (x: Lexeme)
      requires Valid()
      modifies this, tokenizer
      ensures Valid()
      ensures x == At(tokens, consumed) && consumed == old(consumed)
    {
      if peeked.None? {
        var y := Pull();
        peeked := Some(y);
      }
      x := peeked.value;
    }

    /** `evaluate`. */
    method Evaluate(pow: PowerFn) returns (r: Outcome<Option<real>>)
      requires Valid()
      modifies this, tokenizer
      ensures Valid()
      ensures r == EvaluateOutcome(ParseAst(tokens, old(consumed), Default).outcome, pow)
    {
      var tree :- Parse();
      r := Ok(Eval(tree, pow));
    }

    /** `parse`. */
    method Parse() returns (r: Outcome<Node>)
      requires Valid()
      modifies this, tokenizer
      ensures Valid()
      ensures Step(r, consumed) == ParseAst(tokens, old(consumed), Default)
    {
      r := Ast(Default);
    }

    /** `ast`: an operand, then the loop over the operators that follow it. */
    method Ast(prec: Precedence) returns (r: Outcome<Node>)
      requires Valid()
      modifies this, tokenizer
      ensures Valid()
      ensures Step(r, consumed) == ParseAst(tokens, old(consumed), prec)
      decreases Measure(tokens, consumed), 2
    {
      var left :- Number();
      r := AstLoop(prec, left);
    }

    /**
     * The loop of `ast`: while the lookahead is an operator that binds
     * tighter than `prec`, `operation` extends `left`.
     */
    method AstLoop(prec: Precedence, left: Node) returns (r: Outcome<Node>)
      requires Valid()
      modifies this, tokenizer
      ensures Valid()
      ensures Step(r, consumed) == ParseLoop(tokens, old(consumed), prec, left)
      decreases Measure(tokens, consumed), 1
    {
      ghost var start := consumed;
      var tree := left;
      while true
        invariant Valid()
        invariant start <= consumed
        invariant ParseLoop(tokens, consumed, prec, tree) == ParseLoop(tokens, start, prec, left)
        decreases Measure(tokens, consumed)
      {
        var lookahead := PeekToken();
        match lookahead
        case Malformed(text) =>
          return Panic(text);
        case Unknown =>
          return Err(UnableToParse("Unknown char"));
        case Lexed(t) =>
          if t == EOF || AtLeast(prec, PrecedenceOf(t)) {
            break;
          }
          ghost var k := consumed;
          var s := Operation(tree);
          assert ParseLoop(tokens, k, prec, tree) ==
            if s.Ok? then ParseLoop(tokens, consumed, prec, s.value) else Step(s, consumed);
          tree :- s;
      }
      return Ok(tree);
    }

    /** `number`. */
    method Number() returns (r: Outcome<Node>)
      requires Valid()
      modifies this, tokenizer
      ensures Valid()
      ensures Step(r, consumed) == ParseNumber(tokens, old(consumed))
      decreases Measure(tokens, consumed), 0
    {
      var current := NextToken();
      match current
      case Malformed(text) =>
        r := Panic(text);
      case Unknown =>
        r := Err(UnableToParse("Number parse error"));
      case Lexed(t) =>
        match t
        case Plus =>
          r := Number();
        case Minus =>
          var operand :- Number();
          r := Ok(Negative(operand));
        case Number(v) =>
          r := Ok(Element(v));
        case LeftParenthesis =>
          r := Group();
        case _ =>
          r := Err(InvalidNumber(DebugText(t)));
    }

    /** `operation`. */
    method Operation(left: Node) returns (r: Outcome<Node>)
      requires Valid()
      modifies this, tokenizer
      ensures Valid()
      ensures Step(r, consumed) == ParseOperation(tokens, old(consumed), left)
      decreases Measure(tokens, consumed), 0
    {
      var current := NextToken();
      match current
      case Malformed(text) =>
        r := Panic(text);
      case Unknown =>
        r := Err(UnableToParse("Operator parse error"));
      case Lexed(t) =>
        if IsBinaryOperator(t) {
          var right :- Ast(PrecedenceOf(t));
          r := Ok(Binary(t, left, right));
        } else if t == LeftParenthesis {
          var right :- Group();
          r := Ok(Multiply(left, right));
        } else {
          r := Err(InvalidOperator(DebugText(t)));
        }
    }

    /**
     * The body of a parenthesised expression, after its `(`, shared by
     * `number` and `operation`: an expression at the lowest level, then the
     * `)` that must follow it.
     */
    method Group() returns (r: Outcome<Node>)
      requires Valid()
      modifies this, tokenizer
      ensures Valid()
      ensures Step(r, consumed) ==
        var s := ParseAst(tokens, old(consumed), Default);
        if s.outcome.Ok? then ExpectClose(tokens, s) else s
      decreases Measure(tokens, consumed), 3
    {
      var inner :- Ast(Default);
      var closing := NextToken();
      match closing
      case Lexed(RightParenthesis) =>
        r := Ok(inner);
      case Malformed(text) =>
        r := Panic(text);
      case _ =>
        r := Err(ParenthesisNotBalanced);
    }
  }

  /** Runs the evaluator on one input line, as the command-line loop does for each line it reads. */
  method EvaluateLine(input: string, numeric: NumericClass, pow: PowerFn) returns (r: Outcome<Option<real>>)
    ensures r == EvaluateText(numeric, pow, input)
  {
    var parser := new Parser(input, numeric);
    r := parser.Evaluate(pow);
  }
}

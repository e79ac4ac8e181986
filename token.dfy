/**
 * Tokens, operator precedence and the tokenizer of the expression evaluator
 * (src/parse_math/token.rs).
 *
 * The tokenizer removes ASCII whitespace from the input, then yields one
 * token per call: a maximal number lexeme, a single-character operator or
 * parenthesis, `Unknown` when it meets any other character (the source's
 * `None`), and `EOF` for every call made once the input is exhausted.
 */
module Tokens {

  // ---------------------------------------------------------------------
  // Precedence levels
  // ---------------------------------------------------------------------

  /** Precedence levels, in declaration order. */
  datatype Precedence = Default | AddSub | MulDiv | Power
  {
    /** Position in the declaration, which is what the derived ordering compares. */
    function Rank(): nat
    {
      match this
      case Default => 0
      case AddSub => 1
      case MulDiv => 2
      case Power => 3
    }
  }

  /** `a < b` under the derived ordering. */
  predicate Below(a: Precedence, b: Precedence)
  {
    a.Rank() < b.Rank()
  }

  /** `a >= b` under the derived ordering. */
  predicate AtLeast(a: Precedence, b: Precedence)
  {
    a.Rank() >= b.Rank()
  }

  /** The levels are totally and strictly ordered as declared, and `>=` is the negation of `<`. */
  lemma PrecedenceOrder()
    ensures Below(Default, AddSub) && Below(AddSub, MulDiv) && Below(MulDiv, Precedence.Power)
    ensures forall a: Precedence :: !Below(a, a)
    ensures forall a: Precedence, b: Precedence :: a == b || Below(a, b) || Below(b, a)
    ensures forall a: Precedence, b: Precedence, c: Precedence :: Below(a, b) && Below(b, c) ==> Below(a, c)
    ensures forall a: Precedence, b: Precedence :: AtLeast(a, b) <==> !Below(a, b)
    ensures forall a: Precedence :: AtLeast(a, Default)
  {
  }

  // ---------------------------------------------------------------------
  // Tokens
  // ---------------------------------------------------------------------

  datatype Token =
    | Number(value: real)
    | Plus
    | Minus
    | Asterisk
    | Slash
    | Caret
    | LeftParenthesis
    | RightParenthesis
    | EOF

  /**
   * The precedence a token has when it stands where an operator may follow.
   * Exactly the six tokens that can continue an operand rank above Default.
   */
  function PrecedenceOf(t: Token): (p: Precedence)
    ensures Below(Default, p) <==> t in {Plus, Minus, Asterisk, Slash, Caret, LeftParenthesis}
  {
    match t
    case Plus | Minus => AddSub
    case Asterisk | Slash | LeftParenthesis => MulDiv
    case Caret => Precedence.Power
    case _ => Default
  }

  /** Exactly `+ - * / ^ (` rank above Default; numbers, `)` and EOF rank Default. */
  lemma PrecedenceMap(t: Token)
    ensures PrecedenceOf(t) == AddSub <==> t == Plus || t == Minus
    ensures PrecedenceOf(t) == MulDiv <==> t == Asterisk || t == Slash || t == LeftParenthesis
    ensures PrecedenceOf(t) == Precedence.Power <==> t == Caret
    ensures PrecedenceOf(t) == Default <==> t.Number? || t == RightParenthesis || t == EOF
  {
  }

  /**
   * The derived `Debug` text of a token, used as the payload of error messages.
   * For a number the f64 formatting of the payload is not modelled (see README).
   */
  function DebugText(t: Token): string
  {
    match t
    case Number(_) => "Number"
    case Plus => "Plus"
    case Minus => "Minus"
    case Asterisk => "Asterisk"
    case Slash => "Slash"
    case Caret => "Caret"
    case LeftParenthesis => "LeftParenthesis"
    case RightParenthesis => "RightParenthesis"
    case EOF => "EOF"
  }

  // ---------------------------------------------------------------------
  // Characters
  // ---------------------------------------------------------------------

  predicate IsAsciiDigit(c: char)
  {
    '0' <= c <= '9'
  }

  /** Space, tab, line feed, form feed and carriage return. */
  predicate IsAsciiWhitespace(c: char)
  {
    c == ' ' || c == '\t' || c == '\n' || c == '\U{000C}' || c == '\r'
  }

  /**
   * A stand-in for Unicode's numeric class: it must agree with it on ASCII,
   * where exactly the ten digits are numeric; beyond ASCII it is left open.
   */
  type NumericClass = f: char -> bool | forall c: char :: c < '\U{0080}' ==> (f(c) <==> IsAsciiDigit(c))
    witness IsAsciiDigit

  /** A character the number loop appends to the current lexeme. */
  predicate ContinuesNumber(numeric: NumericClass, c: char)
  {
    numeric(c) || c == '.'
  }

  /** Removes every ASCII whitespace character, keeping the others in order. */
  function StripWhitespace(s: string): (r: string)
    ensures |r| <= |s|
    ensures forall i | 0 <= i < |r| :: !IsAsciiWhitespace(r[i])
  {
    if s == [] then []
    else (if IsAsciiWhitespace(s[0]) then [] else [s[0]]) + StripWhitespace(s[1..])
  }

  // ---------------------------------------------------------------------
  // Number lexemes
  // ---------------------------------------------------------------------

  /**
   * The end of the run of number characters that starts at `p`: every
   * character before it continues the number, and the one at it (if any) does not.
   */
  function ScanNumber(numeric: NumericClass, cs: seq<char>, p: nat): (q: nat)
    requires p <= |cs|
    ensures p <= q <= |cs|
    ensures forall i | p <= i < q :: ContinuesNumber(numeric, cs[i])
    ensures q == |cs| || !ContinuesNumber(numeric, cs[q])
    decreases |cs| - p
  {
    if p < |cs| && ContinuesNumber(numeric, cs[p]) then ScanNumber(numeric, cs, p + 1) else p
  }

  /** Index of the first `.` in `s`, or `|s|` when there is none. */
  function DotIndex(s: string): (d: nat)
    ensures d <= |s|
    ensures d < |s| ==> s[d] == '.'
    ensures forall i | 0 <= i < d :: s[i] != '.'
  {
    if s == [] then 0
    else if s[0] == '.' then 0
    else 1 + DotIndex(s[1..])
  }

  /**
   * A lexeme the f64 parser accepts: ASCII digits with at most one `.`
   * (a lexeme always starts with a digit, so it has one).
   */
  predicate IsFloatText(s: string)
  {
    && (forall i | 0 <= i < |s| :: IsAsciiDigit(s[i]) || s[i] == '.')
    && (forall i | DotIndex(s) < i < |s| :: s[i] != '.')
  }

  function DigitValue(c: char): nat
    requires IsAsciiDigit(c)
  {
    (c as int) - ('0' as int)
  }

  /** The value of a string of decimal digits, most significant first. */
  function DigitsValue(ds: string): nat
    requires forall i | 0 <= i < |ds| :: IsAsciiDigit(ds[i])
  {
    if ds == [] then 0 else 10 * DigitsValue(ds[..|ds| - 1]) + DigitValue(ds[|ds| - 1])
  }

  /** The value of the digits after a decimal point: `25` stands for 0.25. */
  function FractionValue(ds: string): (r: real)
    requires forall i | 0 <= i < |ds| :: IsAsciiDigit(ds[i])
    ensures 0.0 <= r <= 1.0
  {
    if ds == [] then 0.0 else (DigitValue(ds[0]) as real + FractionValue(ds[1..])) / 10.0
  }

  /**
   * The exact decimal value of a float lexeme: integer part plus fraction.
   * It lies between the value of the digits before the point and one more.
   */
  function DecimalValue(s: string): (r: real)
    requires IsFloatText(s)
    ensures DigitsValue(s[..DotIndex(s)]) as real <= r <= DigitsValue(s[..DotIndex(s)]) as real + 1.0
  {
    var d := DotIndex(s);
    var whole := DigitsValue(s[..d]) as real;
    if d < |s| then whole + FractionValue(s[d + 1..]) else whole
  }

  /** The value is exact, and a point with no digits after it is allowed. */
  lemma DecimalExamples()
    ensures IsFloatText("2.5") && DecimalValue("2.5") == 2.5
    ensures IsFloatText("1.") && DecimalValue("1.") == 1.0
    ensures IsFloatText("10.25") && DecimalValue("10.25") == 10.25
  {
  }

  // ---------------------------------------------------------------------
  // One tokenizer step
  // ---------------------------------------------------------------------

  /**
   * What one tokenizer call yields: a token, `Unknown` for a character it
   * does not recognise (the source's `None`), or `Malformed` for a number
   * lexeme the f64 parser rejects (where the source's `unwrap` panics).
   */
  datatype Lexeme = Lexed(token: Token) | Unknown | Malformed(text: string)

  /** The text a token other than a number stands for; EOF stands for no text. */
  function Glyph(t: Token): string
  {
    match t
    case Number(_) => ""
    case Plus => "+"
    case Minus => "-"
    case Asterisk => "*"
    case Slash => "/"
    case Caret => "^"
    case LeftParenthesis => "("
    case RightParenthesis => ")"
    case EOF => ""
  }

  /**
   * The token of a character that is not a digit: the seven operator and
   * parenthesis characters are recognised, each as the token written with
   * it; every other character is not.
   */
  function SingleChar(c: char): (r: Lexeme)
    ensures r.Lexed? <==> c in "+-*/^()"
    ensures r.Lexed? || r.Unknown?
    ensures r.Lexed? ==> !r.token.Number? && r.token != EOF && Glyph(r.token) == [c]
  {
    match c
    case '+' => Lexed(Plus)
    case '-' => Lexed(Minus)
    case '*' => Lexed(Asterisk)
    case '/' => Lexed(Slash)
    case '^' => Lexed(Caret)
    case '(' => Lexed(LeftParenthesis)
    case ')' => Lexed(RightParenthesis)
    case _ => Unknown
  }

  /**
   * One tokenizer call on the stripped characters `cs` from position `p`:
   * the lexeme it yields and the position after it.
   */
  function Lex(numeric: NumericClass, cs: seq<char>, p: nat): (r: (Lexeme, nat))
    requires p <= |cs|
    ensures p <= r.1 <= |cs|
    ensures p < |cs| <==> p < r.1
    ensures r.0 == Lexed(EOF) <==> p == |cs|
  {
    if p == |cs| then (Lexed(EOF), p)
    else if IsAsciiDigit(cs[p]) then
      var q := ScanNumber(numeric, cs, p + 1);
      var text := cs[p..q];
      (if IsFloatText(text) then Lexed(Number(DecimalValue(text))) else Malformed(text), q)
    else
      (SingleChar(cs[p]), p + 1)
  }

  // ---------------------------------------------------------------------
  // The token stream
  // ---------------------------------------------------------------------

  /**
   * The lexemes of all calls made from position `p` while characters remain.
   * Every one of them consumes a character, so none is EOF; every later
   * call yields EOF.
   */
  function TokensFrom(numeric: NumericClass, cs: seq<char>, p: nat): (ts: seq<Lexeme>)
    requires p <= |cs|
    ensures |ts| <= |cs| - p
    ensures forall i | 0 <= i < |ts| :: ts[i] != Lexed(EOF)
    decreases |cs| - p
  {
    if p == |cs| then []
    else
      var r := Lex(numeric, cs, p);
      [r.0] + TokensFrom(numeric, cs, r.1)
  }

  /** The lexemes of a whole input line. */
  function Tokenize(numeric: NumericClass, input: string): seq<Lexeme>
  {
    TokensFrom(numeric, StripWhitespace(input), 0)
  }

  /** The `k`-th lexeme of a stream; EOF for every read past its end. */
  function At(ts: seq<Lexeme>, k: nat): Lexeme
  {
    if k < |ts| then ts[k] else Lexed(EOF)
  }

  /**
   * The positions the tokenizer's calls start from, beginning at `p`: one
   * per lexeme of the stream, then the end of the line, where every later
   * call starts.
   */
  function Stops(numeric: NumericClass, cs: seq<char>, p: nat): (ps: seq<nat>)
    requires p <= |cs|
    ensures |ps| == |TokensFrom(numeric, cs, p)| + 1
    ensures ps[0] == p && ps[|ps| - 1] == |cs|
    decreases |cs| - p
  {
    if p == |cs| then [p] else [p] + Stops(numeric, cs, Lex(numeric, cs, p).1)
  }

  /**
   * A call from each stop yields the stream's lexeme there and moves to the
   * next stop: the lazy tokenizer and the stream agree.
   */
  lemma {:induction false} StopsLex(numeric: NumericClass, cs: seq<char>, p: nat)
    requires p <= |cs|
    ensures forall i | 0 <= i < |TokensFrom(numeric, cs, p)| ::
      Stops(numeric, cs, p)[i] <= |cs| &&
      Lex(numeric, cs, Stops(numeric, cs, p)[i]) == (TokensFrom(numeric, cs, p)[i], Stops(numeric, cs, p)[i + 1])
    decreases |cs| - p
  {
    if p < |cs| {
      var q := Lex(numeric, cs, p).1;
      var ts, ps := TokensFrom(numeric, cs, p), Stops(numeric, cs, p);
      StopsLex(numeric, cs, q);
      forall i | 0 <= i < |ts|
        ensures ps[i] <= |cs| && Lex(numeric, cs, ps[i]) == (ts[i], ps[i + 1])
      {
        if i > 0 {
          assert ps[i] == Stops(numeric, cs, q)[i - 1] && ps[i + 1] == Stops(numeric, cs, q)[i];
          assert ts[i] == TokensFrom(numeric, cs, q)[i - 1];
        }
      }
    }
  }

  // ---------------------------------------------------------------------
  // The tokenizer object
  // ---------------------------------------------------------------------

  /** The tokenizer: the whitespace-free characters and a cursor into them. */
  class Tokenizer {
    const numeric: NumericClass
    const chars: seq<char>
    var pos: nat

    ghost predicate Valid()
      reads this
    {
      pos <= |chars|
    }

    constructor (expression: string, numeric: NumericClass)
      ensures Valid()
      ensures this.numeric == numeric && chars == StripWhitespace(expression) && pos == 0
    {
      this.numeric := numeric;
      chars := StripWhitespace(expression);
      pos := 0;
    }

    /** One call of the iterator: reads the next lexeme and advances past it. */
    method Next() returns (r: Lexeme)
      requires Valid()
      modifies this
      ensures Valid()
      ensures (r, pos) == Lex(numeric, chars, old(pos))
    {
      if pos == |chars| {
        return Lexed(EOF);
      }
      var c := chars[pos];
      pos := pos + 1;
      if IsAsciiDigit(c) {
        ghost var start := pos;
        var number := [c];
        while pos < |chars|
          invariant start <= pos <= |chars|
          invariant number == chars[start - 1..pos]
          invariant ScanNumber(numeric, chars, pos) == ScanNumber(numeric, chars, start)
          decreases |chars| - pos
        {
          var next := chars[pos];
          if ContinuesNumber(numeric, next) {
            number := number + [next];
            pos := pos + 1;
          } else {
            break;
          }
        }
        if IsFloatText(number) {
          r := Lexed(Number(DecimalValue(number)));
        } else {
          r := Malformed(number);
        }
      } else {
        r := SingleChar(c);
      }
    }
  }
}

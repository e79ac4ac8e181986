/**
 * Properties of the tokenizer (src/parse_math/token.rs): whitespace is
 * invisible, and a line rendered from numbers and operator characters is
 * tokenized back into exactly those numbers and operators.
 */
module TokenProperties {
  import opened Tokens

  // ---------------------------------------------------------------------
  // Whitespace
  // ---------------------------------------------------------------------

  /** Filtering distributes over concatenation. */
  lemma {:induction false} StripConcat(a: string, b: string)
    ensures StripWhitespace(a + b) == StripWhitespace(a) + StripWhitespace(b)
    decreases |a|
  {
    if a != [] {
      assert (a + b)[1..] == a[1..] + b;
      StripConcat(a[1..], b);
    } else {
      assert a + b == b;
    }
  }

  /** A line without whitespace is kept as it is. */
  lemma {:induction false} StripNoWhitespace(s: string)
    requires forall i | 0 <= i < |s| :: !IsAsciiWhitespace(s[i])
    ensures StripWhitespace(s) == s
    decreases |s|
  {
    if s != [] {
      StripNoWhitespace(s[1..]);
    }
  }

  /** Filtering twice is filtering once. */
  lemma StripIdempotent(s: string)
    ensures StripWhitespace(StripWhitespace(s)) == StripWhitespace(s)
  {
    StripNoWhitespace(StripWhitespace(s));
  }

  /**
   * A whitespace character anywhere in a line does not change its tokens;
   * it does not separate numbers either: `1 2` is tokenized as `12`.
   */
  lemma WhitespaceIgnored(numeric: NumericClass, a: string, w: char, b: string)
    requires IsAsciiWhitespace(w)
    ensures Tokenize(numeric, a + [w] + b) == Tokenize(numeric, a + b)
  {
    StripConcat(a + [w], b);
    StripConcat(a, [w]);
    StripConcat(a, b);
    assert StripWhitespace([w]) == [];
    assert StripWhitespace(a) + [] == StripWhitespace(a);
  }

  /** The tokens of a line are those of the line with its whitespace removed. */
  lemma TokenizeStripped(numeric: NumericClass, s: string)
    ensures Tokenize(numeric, s) == Tokenize(numeric, StripWhitespace(s))
  {
    StripIdempotent(s);
  }

  // ---------------------------------------------------------------------
  // Numbers
  // ---------------------------------------------------------------------

  /** A character that ends a number lexeme whatever the numeric class beyond ASCII is. */
  predicate EndsNumber(c: char)
  {
    c < '\U{0080}' && !IsAsciiDigit(c) && c != '.'
  }

  /** The number loop runs over ASCII digits and points up to the first character that ends a number. */
  lemma {:induction false} ScanDigits(numeric: NumericClass, cs: seq<char>, p: nat, q: nat)
    requires p <= q <= |cs|
    requires forall i | p <= i < q :: IsAsciiDigit(cs[i]) || cs[i] == '.'
    requires q == |cs| || EndsNumber(cs[q])
    ensures ScanNumber(numeric, cs, p) == q
    decreases q - p
  {
    if p < q {
      assert ContinuesNumber(numeric, cs[p]);
      ScanDigits(numeric, cs, p + 1, q);
    } else if q < |cs| {
      assert !numeric(cs[q]);
    }
  }

  /** A run of ASCII digits ended by a non-number character is one number token, its decimal value. */
  lemma LexDigits(numeric: NumericClass, cs: seq<char>, p: nat, q: nat)
    requires p < q <= |cs|
    requires forall i | p <= i < q :: IsAsciiDigit(cs[i])
    requires q == |cs| || EndsNumber(cs[q])
    ensures Lex(numeric, cs, p) == (Lexed(Number(DigitsValue(cs[p..q]) as real)), q)
  {
    ScanDigits(numeric, cs, p + 1, q);
    var text := cs[p..q];
    assert forall i | 0 <= i < |text| :: text[i] != '.' by {
      forall i | 0 <= i < |text| ensures text[i] != '.' {
        assert text[i] == cs[p + i];
      }
    }
    assert DotIndex(text) == |text|;
    assert text[..|text|] == text;
  }

  /**
   * A lexeme the float parser accepts, ended by the end of the line or a
   * character that ends a number, is one number token carrying its exact
   * decimal value: `2.5` is 2.5 and `1.` is 1.
   */
  lemma LexDecimal(numeric: NumericClass, cs: seq<char>, p: nat, q: nat)
    requires p < q <= |cs| && IsAsciiDigit(cs[p])
    requires IsFloatText(cs[p..q])
    requires q == |cs| || EndsNumber(cs[q])
    ensures Lex(numeric, cs, p) == (Lexed(Number(DecimalValue(cs[p..q]))), q)
  {
    forall i | p + 1 <= i < q
      ensures IsAsciiDigit(cs[i]) || cs[i] == '.'
    {
      assert cs[i] == cs[p..q][i - p];
    }
    ScanDigits(numeric, cs, p + 1, q);
  }

  function DigitChar(d: nat): (c: char)
    requires d < 10
    ensures IsAsciiDigit(c) && DigitValue(c) == d
  {
    ('0' as int + d) as char
  }

  /** The decimal numeral of a natural number, without leading zeros. */
  function NatText(n: nat): (s: string)
    ensures |s| > 0
  {
    if n < 10 then [DigitChar(n)] else NatText(n / 10) + [DigitChar(n % 10)]
  }

  /** A numeral consists of ASCII digits, and reading it back gives the number. */
  lemma {:induction false} NatTextValue(n: nat)
    ensures forall i | 0 <= i < |NatText(n)| :: IsAsciiDigit(NatText(n)[i])
    ensures DigitsValue(NatText(n)) == n
  {
    var s := NatText(n);
    if n >= 10 {
      NatTextValue(n / 10);
      assert s[..|s| - 1] == NatText(n / 10);
    } else {
      assert s[..|s| - 1] == [];
    }
  }

  // ---------------------------------------------------------------------
  // Rendering and tokenizing
  // ---------------------------------------------------------------------

  /** A piece of an input line: a natural number, or one operator or parenthesis character. */
  datatype Piece = Num(n: nat) | Sym(c: char)

  predicate IsSymbol(c: char)
  {
    c == '+' || c == '-' || c == '*' || c == '/' || c == '^' || c == '(' || c == ')'
  }

  /** Symbols are recognised characters, and no two numbers are adjacent (they would merge). */
  predicate WellFormed(ps: seq<Piece>)
  {
    && (forall i | 0 <= i < |ps| :: ps[i].Sym? ==> IsSymbol(ps[i].c))
    && (forall i | 0 <= i < |ps| - 1 :: !(ps[i].Num? && ps[i + 1].Num?))
  }

  function PieceText(p: Piece): string
  {
    match p
    case Num(n) => NatText(n)
    case Sym(c) => [c]
  }

  /** The line made of the pieces, in order, without spaces. */
  function Render(ps: seq<Piece>): string
  {
    if ps == [] then [] else PieceText(ps[0]) + Render(ps[1..])
  }

  /** Rendering distributes over concatenation. */
  lemma {:induction false} RenderAppend(ps: seq<Piece>, qs: seq<Piece>)
    ensures Render(ps + qs) == Render(ps) + Render(qs)
    decreases |ps|
  {
    if ps == [] {
      assert ps + qs == qs;
    } else {
      assert (ps + qs)[1..] == ps[1..] + qs;
      RenderAppend(ps[1..], qs);
    }
  }

  function PieceToken(p: Piece): Lexeme
  {
    match p
    case Num(n) => Lexed(Number(n as real))
    case Sym(c) => SingleChar(c)
  }

  /** The tokens the pieces stand for. */
  function PieceTokens(ps: seq<Piece>): (ts: seq<Lexeme>)
    ensures |ts| == |ps|
  {
    if ps == [] then [] else [PieceToken(ps[0])] + PieceTokens(ps[1..])
  }

  /** Tokens of pieces distribute over concatenation. */
  lemma {:induction false} PieceTokensAppend(ps: seq<Piece>, qs: seq<Piece>)
    ensures PieceTokens(ps + qs) == PieceTokens(ps) + PieceTokens(qs)
    decreases |ps|
  {
    if ps == [] {
      assert ps + qs == qs;
    } else {
      assert (ps + qs)[1..] == ps[1..] + qs;
      PieceTokensAppend(ps[1..], qs);
    }
  }

  /** Two well-formed lines joined where no two numbers meet are well formed. */
  lemma WellFormedAppend(ps: seq<Piece>, qs: seq<Piece>)
    requires WellFormed(ps) && WellFormed(qs)
    requires ps != [] && qs != [] ==> !(ps[|ps| - 1].Num? && qs[0].Num?)
    ensures WellFormed(ps + qs)
  {
    var s := ps + qs;
    forall i | 0 <= i < |s|
      ensures s[i].Sym? ==> IsSymbol(s[i].c)
    {
      if i < |ps| {
        assert s[i] == ps[i];
      } else {
        assert s[i] == qs[i - |ps|];
      }
    }
    forall i | 0 <= i < |s| - 1
      ensures !(s[i].Num? && s[i + 1].Num?)
    {
      if i + 1 < |ps| {
        assert s[i] == ps[i] && s[i + 1] == ps[i + 1];
      } else if i >= |ps| {
        assert s[i] == qs[i - |ps|] && s[i + 1] == qs[i + 1 - |ps|];
      }
    }
  }

  /** Dropping the first piece keeps a line well formed. */
  lemma WellFormedTail(ps: seq<Piece>)
    requires WellFormed(ps) && ps != []
    ensures WellFormed(ps[1..])
  {
    assert forall i | 0 <= i < |ps| - 1 :: ps[1..][i] == ps[i + 1];
  }

  lemma {:induction false} RenderHasNoWhitespace(ps: seq<Piece>)
    requires WellFormed(ps)
    ensures forall i | 0 <= i < |Render(ps)| :: !IsAsciiWhitespace(Render(ps)[i])
    ensures ps != [] && ps[0].Sym? ==> Render(ps)[0] == ps[0].c
    decreases |ps|
  {
    if ps != [] {
      WellFormedTail(ps);
      RenderHasNoWhitespace(ps[1..]);
      var t := PieceText(ps[0]);
      if ps[0].Num? {
        NatTextValue(ps[0].n);
      }
      forall i | 0 <= i < |Render(ps)|
        ensures !IsAsciiWhitespace(Render(ps)[i])
      {
        if i >= |t| {
          assert Render(ps)[i] == Render(ps[1..])[i - |t|];
        }
      }
    }
  }

  /** A numeral followed by the end of the line or a character that ends a number is lexed as its value. */
  lemma LexNumeral(numeric: NumericClass, cs: seq<char>, p: nat, n: nat)
    requires p + |NatText(n)| <= |cs| && cs[p..p + |NatText(n)|] == NatText(n)
    requires p + |NatText(n)| == |cs| || EndsNumber(cs[p + |NatText(n)|])
    ensures Lex(numeric, cs, p) == (Lexed(Number(n as real)), p + |NatText(n)|)
  {
    var q := p + |NatText(n)|;
    NatTextValue(n);
    forall i | p <= i < q
      ensures IsAsciiDigit(cs[i])
    {
      assert cs[i] == cs[p..q][i - p];
    }
    LexDigits(numeric, cs, p, q);
  }

  /** A line whose rest from `p` renders the pieces holds the first piece's text at `p`, then the rest rendered. */
  lemma SuffixSplit(cs: seq<char>, p: nat, ps: seq<Piece>)
    requires ps != [] && p <= |cs| && cs[p..] == Render(ps)
    ensures p + |PieceText(ps[0])| <= |cs|
    ensures cs[p..p + |PieceText(ps[0])|] == PieceText(ps[0])
    ensures cs[p + |PieceText(ps[0])|..] == Render(ps[1..])
  {
    var t := PieceText(ps[0]);
    assert cs[p..] == t + Render(ps[1..]);
    assert cs[p..p + |t|] == cs[p..][..|t|];
    assert cs[p + |t|..] == cs[p..][|t|..];
  }

  /** The first piece of the pieces rendered from `p` is lexed as that piece's token. */
  lemma LexPiece(numeric: NumericClass, cs: seq<char>, p: nat, ps: seq<Piece>)
    requires WellFormed(ps) && ps != [] && p <= |cs| && cs[p..] == Render(ps)
    ensures Lex(numeric, cs, p) == (PieceToken(ps[0]), p + |PieceText(ps[0])|)
  {
    SuffixSplit(cs, p, ps);
    var q := p + |PieceText(ps[0])|;
    match ps[0]
    case Sym(c) =>
      assert IsSymbol(c);
      assert cs[p] == cs[p..q][0] == c;
    case Num(n) =>
      var rest := ps[1..];
      if rest != [] {
        WellFormedTail(ps);
        RenderHasNoWhitespace(rest);
        assert !(ps[0].Num? && ps[1].Num?);
        assert cs[q] == cs[q..][0] == rest[0].c;
      }
      LexNumeral(numeric, cs, p, n);
  }

  /** A call from `p` that yields `x` and moves to `q` puts `x` at the head of the stream from `p`. */
  lemma TokensFromStep(numeric: NumericClass, cs: seq<char>, p: nat, x: Lexeme, q: nat)
    requires p < |cs| && Lex(numeric, cs, p) == (x, q)
    ensures TokensFrom(numeric, cs, p) == [x] + TokensFrom(numeric, cs, q)
  {
  }

  /** The stream from a position where the pieces are rendered is the pieces' tokens. */
  lemma {:induction false} TokensOfRender(numeric: NumericClass, cs: seq<char>, p: nat, ps: seq<Piece>)
    requires WellFormed(ps) && p <= |cs| && cs[p..] == Render(ps)
    ensures TokensFrom(numeric, cs, p) == PieceTokens(ps)
    decreases |ps|
  {
    if ps == [] {
      assert p == |cs|;
    } else {
      var rest := ps[1..];
      var q := p + |PieceText(ps[0])|;
      WellFormedTail(ps);
      SuffixSplit(cs, p, ps);
      LexPiece(numeric, cs, p, ps);
      TokensFromStep(numeric, cs, p, PieceToken(ps[0]), q);
      TokensOfRender(numeric, cs, q, rest);
    }
  }

  /** Tokenizing a rendered line gives back the pieces' tokens: the tokenizer inverts rendering. */
  lemma TokenizeRender(numeric: NumericClass, ps: seq<Piece>)
    requires WellFormed(ps)
    ensures Tokenize(numeric, Render(ps)) == PieceTokens(ps)
  {
    RenderHasNoWhitespace(ps);
    StripNoWhitespace(Render(ps));
    TokensOfRender(numeric, Render(ps), 0, ps);
  }
}

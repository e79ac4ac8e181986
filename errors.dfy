/** Parse errors and their display text (src/parse_math/errors.rs). */
module Errors {
  import opened Options

  datatype ParseError =
    | UnableToParse(detail: string)
    | ParenthesisNotBalanced
    | InvalidOperator(detail: string)
    | InvalidNumber(detail: string)

  const UnableToParsePrefix: string := "Error in evaluating "
  const NotBalancedText: string := "Balance parenthesis error"
  const InvalidOperatorPrefix: string := "Invalid operator: "
  const InvalidNumberPrefix: string := "Invalid number: "

  /**
   * The `Display` text: a fixed prefix and the payload, or a fixed sentence.
   * Only `ParenthesisNotBalanced` shows the sentence; every other error
   * ends with its payload, verbatim.
   */
  function Message(e: ParseError): (r: string)
    ensures r == NotBalancedText <==> e.ParenthesisNotBalanced?
    ensures !e.ParenthesisNotBalanced? ==> |e.detail| <= |r| && r[|r| - |e.detail|..] == e.detail
  {
    match e
    case UnableToParse(d) =>
      assert (UnableToParsePrefix + d)[0] != NotBalancedText[0];
      UnableToParsePrefix + d
    case ParenthesisNotBalanced => NotBalancedText
    case InvalidOperator(d) =>
      assert (InvalidOperatorPrefix + d)[0] != NotBalancedText[0];
      InvalidOperatorPrefix + d
    case InvalidNumber(d) =>
      assert (InvalidNumberPrefix + d)[0] != NotBalancedText[0];
      InvalidNumberPrefix + d
  }

  /** Recovers an error from its display text, when the text is one. */
  function Decode(m: string): Option<ParseError>
  {
    if m == NotBalancedText then Some(ParenthesisNotBalanced)
    else if |UnableToParsePrefix| <= |m| && m[..|UnableToParsePrefix|] == UnableToParsePrefix then
      Some(UnableToParse(m[|UnableToParsePrefix|..]))
    else if |InvalidOperatorPrefix| <= |m| && m[..|InvalidOperatorPrefix|] == InvalidOperatorPrefix then
      Some(InvalidOperator(m[|InvalidOperatorPrefix|..]))
    else if |InvalidNumberPrefix| <= |m| && m[..|InvalidNumberPrefix|] == InvalidNumberPrefix then
      Some(InvalidNumber(m[|InvalidNumberPrefix|..]))
    else None
  }

  /** Every message names its error: decoding the display text gives the error back. */
  lemma DecodeMessage(e: ParseError)
    ensures Decode(Message(e)) == Some(e)
  {
    var m := Message(e);
    match e
    case UnableToParse(d) =>
      assert m[0] == 'E' != NotBalancedText[0];
      assert m[..|UnableToParsePrefix|] == UnableToParsePrefix;
      assert m[|UnableToParsePrefix|..] == d;
    case ParenthesisNotBalanced =>
    case InvalidOperator(d) =>
      assert m[0] == 'I' != NotBalancedText[0];
      assert |m| >= |UnableToParsePrefix| ==> m[..|UnableToParsePrefix|][0] != UnableToParsePrefix[0];
      assert m[..|InvalidOperatorPrefix|] == InvalidOperatorPrefix;
      assert m[|InvalidOperatorPrefix|..] == d;
    case InvalidNumber(d) =>
      assert m[0] == 'I' != NotBalancedText[0];
      assert |m| >= |UnableToParsePrefix| ==> m[..|UnableToParsePrefix|][0] != UnableToParsePrefix[0];
      assert |m| >= |InvalidOperatorPrefix| ==> m[..|InvalidOperatorPrefix|][8] != InvalidOperatorPrefix[8];
      assert m[..|InvalidNumberPrefix|] == InvalidNumberPrefix;
      assert m[|InvalidNumberPrefix|..] == d;
  }

  /** Distinct errors are displayed differently. */
  lemma MessageInjective(e1: ParseError, e2: ParseError)
    requires Message(e1) == Message(e2)
    ensures e1 == e2
  {
    DecodeMessage(e1);
    DecodeMessage(e2);
  }
}

# Arithmetic expression evaluator, modelled in Dafny

This project models the core of a small Rust arithmetic evaluator
(`src/parse_math`). The core takes one line of text through three stages:

- **Tokenizer** (`token.rs`). It drops ASCII whitespace. It then yields one token per call:
  - a maximal number lexeme;
  - one of `+ - * / ^ ( )`;
  - "gave up" (`None`) on any other character;
  - `EOF` on every call once the line is used up.
- **Parser** (`parser.rs`). A precedence-climbing parser. Its mutually recursive `ast`, `number` and `operation` pull tokens through a one-token lookahead.
- **Evaluator** (`ast.rs`). Evaluates the expression tree. `errors.rs` holds the error type and its display texts.

Files and modules:

| file | module | what it holds |
|---|---|---|
| `options.dfy` | `Options` | the option type |
| `token.dfy` | `Tokens` | precedence levels and their order; tokens; whitespace removal; one tokenizer step `Lex`; the token stream `TokensFrom`; the `Tokenizer` class, whose `Next` runs the number loop imperatively and is proved equal to `Lex` |
| `ast.dfy` | `Ast` | the tree `Node` and `Eval`, over exact reals, with `pow` as a parameter |
| `errors.dfy` | `Errors` | `ParseError` and its display text `Message` |
| `parser.dfy` | `Parsing` | `ParseNumber`, `ParseAst`/`ParseLoop` and `ParseOperation` (see below); the `Parser` class |
| `token_properties.dfy` | `TokenProperties` | whitespace is invisible; tokenizing a rendered line gives back its tokens |
| `parser_properties.dfy` | `ParserProperties` | tree shapes, error reachability, locality of a parse, and a printer the parser inverts |
| `scenarios.dfy` | `Scenarios` | every test in parser.rs, as a statement about its input line, plus the error cases and the whitespace and malformed-number cases (the evaluator tests of ast.rs are `Ast.EvalExamples`) |

`ParseNumber`, `ParseAst`/`ParseLoop` and `ParseOperation` define what `number`, `ast` and `operation` compute on the token stream at an index. They return the outcome and how many tokens were read.

The `Parser` class keeps the real state: the tokenizer, and the peeked token in a one-slot buffer. Each of its methods is proved to do exactly what its function says on the stream the tokenizer produces.

Termination of the mutual recursion is proved. The measure is the tokens still to come. Every `number` and `operation` reads at least one token before it recurses.

Implicit multiplication does not behave as `*` in general. The `(` arm of `operation` returns the product as soon as the group closes, so `2(3)^2` is `Power(Multiply(2, 3), 2)` while `2*(3)^2` is `Multiply(2, Power(3, 2))`. `ParserProperties.GroupThenOperator` and `ParserProperties.TimesGroupThenOperator` state both shapes.

An unknown character makes only that one tokenizer call give up; the parser stops at the first such call.

## Model

| member | source | states |
|---|---|---|
| Tokens.PrecedenceOrder | src/parse_math/token.rs:4-10 | Default < AddSub < MulDiv < Power is a strict total order, `>=` is the negation of `<`, and every level is `>=` Default |
| Tokens.PrecedenceOf | src/parse_math/token.rs:25-34 | exactly `+ - * / ^ (`, the tokens that can continue an operand, rank above Default |
| Tokens.PrecedenceMap | src/parse_math/token.rs:25-34 | `+ -` are AddSub, `* / (` are MulDiv, `^` is Power, and exactly numbers, `)` and EOF are Default (each direction of each case) |
| Tokens.StripWhitespace | src/parse_math/token.rs:41-47 | the filtered line is no longer than the input and contains no ASCII whitespace |
| Tokens.ScanNumber | src/parse_math/token.rs:66-72 | the number loop stops at the first character that is neither numeric nor `.`; everything before it continues the number |
| Tokens.FractionValue | src/parse_math/token.rs:74 | the digits after the decimal point stand for a value in [0, 1] |
| Tokens.SingleChar | src/parse_math/token.rs:76-85 | exactly the seven characters `+ - * / ^ ( )` give a token, and each gives the token written with that character (`+` is Plus, `(` is LeftParenthesis); never a number or EOF; any other character gives up |
| Tokens.DecimalValue | src/parse_math/token.rs:74 | the value of a float lexeme lies between the value of its digits before the point and one more |
| Tokens.DecimalExamples | src/parse_math/token.rs:74 | `2.5` is accepted with value 2.5, `1.` with value 1 and `10.25` with value 10.25 |
| Tokens.Lex | src/parse_math/token.rs:59-89 | one call advances past at least one character exactly when characters remain, and yields EOF exactly at the end of the line |
| Tokens.TokensFrom | src/parse_math/token.rs:53-55 | the stream has at most one lexeme per remaining character and no EOF inside it |
| Tokens.Stops | src/parse_math/token.rs:53-55 | the start positions of the calls: one per lexeme, from the first position to the end of the line |
| Tokens.StopsLex | src/parse_math/token.rs:53-55 | a call from the i-th start yields the i-th lexeme of the stream and moves to the next start; the lazy tokenizer and the stream agree |
| Tokens.Tokenizer.constructor | src/parse_math/token.rs:41-47 | the tokenizer holds the whitespace-free line and has read nothing |
| Tokens.Tokenizer.Next | src/parse_math/token.rs:59-89 | one call, including the loop that appends number characters, yields `Lex` at the old cursor and moves the cursor to `Lex`'s end position |
| Ast.Eval | src/parse_math/ast.rs:13-23 | evaluation by structural recursion; a tree without quotients or powers always has a value |
| Ast.EvalNegations | src/parse_math/ast.rs:16 | an even stack of negations leaves the value unchanged, an odd stack negates it |
| Ast.EvalCompositional | src/parse_math/ast.rs:13-23 | a binary node's value depends only on its kind and its children's values |
| Ast.EvalExamples | src/parse_math/ast.rs:30-70 | the ast.rs tests: 3, -3, 3*4 = 12, 6/2 = 3, 3+4 = 7, 3-4 = -1, and 3^4 = 81 for a `pow` that gives 81 |
| Errors.Message | src/parse_math/errors.rs:11-20 | only ParenthesisNotBalanced shows the fixed sentence; every other error's text ends with its payload verbatim |
| Errors.DecodeMessage | src/parse_math/errors.rs:11-20 | each display text is its fixed prefix plus the payload, or the fixed sentence; decoding that text gives the error back |
| Errors.MessageInjective | src/parse_math/errors.rs:11-20 | distinct errors have distinct display texts |
| Parsing.ExpectClose | src/parse_math/parser.rs:63-65 | the token after a group's expression is read; the group succeeds, with the inner tree, exactly when it is `)`, and otherwise fails with ParenthesisNotBalanced |
| Parsing.ParseNumber | src/parse_math/parser.rs:50-75 | `number` reads at least one token and fails only with a reachable error |
| Parsing.ParseAst | src/parse_math/parser.rs:29-48 | `ast` reads at least one token; a success stops at EOF or at a token that binds no tighter than the level; errors are reachable ones |
| Parsing.ParseLoop | src/parse_math/parser.rs:32-46 | the loop of `ast` never moves back; it stops at EOF or at a token of level at most `prec`; errors are reachable ones |
| Parsing.ParseOperation | src/parse_math/parser.rs:77-119 | `operation` reads at least one token; called on `+ - * / ^ (` it fails only with a reachable error |
| Parsing.ParseTokens | src/parse_math/parser.rs:23-25 | `parse` from the start of a stream ends only with reachable errors |
| Parsing.EvaluateOutcome | src/parse_math/parser.rs:17-21 | evaluation succeeds exactly when the parse did, and a tree without quotients or powers has a value |
| Parsing.EvaluateText | src/parse_math/parser.rs:17-21 | evaluating a line fails exactly when parsing it fails, and only with a reachable error |
| Parsing.Parser.constructor | src/parse_math/parser.rs:11-15 | the parser's stream is the tokens of the line and nothing has been read |
| Parsing.Parser.Pull | src/parse_math/parser.rs:33 | a tokenizer call with an empty buffer yields the next token of the stream |
| Parsing.Parser.NextToken | src/parse_math/parser.rs:51-54 | the lookahead's `next` gives the next token of the stream (buffered or fresh) and consumes it |
| Parsing.Parser.PeekToken | src/parse_math/parser.rs:33 | the lookahead's `peek` gives the next token of the stream and consumes nothing |
| Parsing.Parser.Evaluate | src/parse_math/parser.rs:17-21 | `evaluate` is `parse` followed by `Eval`, with parse errors passed through |
| Parsing.Parser.Parse | src/parse_math/parser.rs:23-25 | `parse` is `ast` at the Default level |
| Parsing.Parser.Ast | src/parse_math/parser.rs:29-48 | the method's result and tokens read equal `ParseAst` from the tokens read before it |
| Parsing.Parser.AstLoop | src/parse_math/parser.rs:32-47 | the `loop` of `ast` equals `ParseLoop` |
| Parsing.Parser.Number | src/parse_math/parser.rs:50-75 | the method equals `ParseNumber` |
| Parsing.Parser.Operation | src/parse_math/parser.rs:77-119 | the method equals `ParseOperation` |
| Parsing.Parser.Group | src/parse_math/parser.rs:60-68 | a group reads an expression at Default level and then demands `)`: ParenthesisNotBalanced on any other token |
| Parsing.EvaluateLine | src/main.rs:12-16 | evaluating a line with a fresh parser gives `EvaluateText` of that line |
| ParserProperties.ChainStep | src/parse_math/parser.rs:86-103 | in a chain of one level, an operator and its right number extend the left-leaning tree by one node |
| ParserProperties.ChainLoop | src/parse_math/parser.rs:32-46 | the loop of `ast` folds the rest of a one-level chain onto the tree so far, from the left |
| ParserProperties.LeftAssociative | src/parse_math/parser.rs:36-40 | any chain of operators of one level, `^` included, parses to the left-leaning tree |
| ParserProperties.TwoOperators | src/parse_math/parser.rs:36-40 | in `a o1 b o2 c`, `o2` takes `b` exactly when it binds tighter than `o1`; otherwise `o1` is applied first |
| ParserProperties.OperatorThenGroup | src/parse_math/parser.rs:105-111 | in `a op b (c)` the `(` has the level of `*`: after `+ -` it takes `b`, after `* / ^` the operator is applied first |
| ParserProperties.GroupThenOperator | src/parse_math/parser.rs:105-111 | in `a (b) op c` the product with the group is complete before `op`, `^` included |
| ParserProperties.TimesGroupThenOperator | src/parse_math/parser.rs:93-96 | in `a * (b) op c` a `^` binds tighter than the product, any other operator does not |
| ParserProperties.ImplicitBeforePower | src/parse_math/parser.rs:93-111 | `a(b)^c` and `a*(b)^c` parse to different trees |
| ParserProperties.SingleOperator | src/parse_math/parser.rs:84-104 | `a op b` is the operator's node over the two numbers |
| ParserProperties.SignedOperandAt | src/parse_math/parser.rs:57-58 | at any position, a run of signs before a number gives one Negative per `-` and drops every `+` |
| ParserProperties.SignedOperand | src/parse_math/parser.rs:57-58 | a line of signs and a number parses to one Negative per `-` and nothing for `+` |
| ParserProperties.MinusBindsOperand | src/parse_math/parser.rs:58 | unary `-` wraps only the next operand: `-v op w` is `op(Negative(v), w)` |
| ParserProperties.OperandErrors | src/parse_math/parser.rs:51-71 | at operand position a gave-up point fails with UnableToParse, and EOF, `)`, `*`, `/` or `^` with InvalidNumber naming it; the empty line and `1+` fail |
| ParserProperties.NoOperatorErrors | src/parse_math/parser.rs:77-115 | no parse ends in InvalidOperator or in "Operator parse error"; `operation` would report them only on `)` or a gave-up point |
| ParserProperties.GroupCloser | src/parse_math/parser.rs:60-65 | after a successful inner expression the next token is `)`, EOF or a number |
| ParserProperties.NumberEmbedded | src/parse_math/parser.rs:50-75 | a successful `number` gives the same result wherever its tokens are embedded |
| ParserProperties.GroupNumberEmbedded | src/parse_math/parser.rs:60-67 | the same, for `number` on a `(` |
| ParserProperties.AstEmbedded | src/parse_math/parser.rs:29-48 | the same, for `ast` |
| ParserProperties.LoopEmbedded | src/parse_math/parser.rs:32-46 | the same, for the loop of `ast` |
| ParserProperties.LoopStepEmbedded | src/parse_math/parser.rs:35-40 | the same, for a loop turn that calls `operation` |
| ParserProperties.OperationEmbedded | src/parse_math/parser.rs:77-119 | the same, for `operation` |
| ParserProperties.BinaryOperationEmbedded | src/parse_math/parser.rs:85-103 | the same, for `operation` on a binary operator |
| ParserProperties.GroupOperationEmbedded | src/parse_math/parser.rs:105-111 | the same, for `operation` on a `(` |
| ParserProperties.GroupAt | src/parse_math/parser.rs:60-67 | `( e )` inside any stream is read as `e`'s tree by `number`, and as a product with the left operand by `operation` |
| ParserProperties.GroupAtStart | src/parse_math/parser.rs:60-67 | a group at the head of a stream is read as its inner tree |
| ParserProperties.ParenthesesTransparent | src/parse_math/parser.rs:60-67 | parenthesising a complete expression does not change its tree |
| ParserProperties.GroupTail | src/parse_math/parser.rs:105-111 | a `(` in operator position multiplies the operand so far by the group |
| ParserProperties.OperatorGroupTail | src/parse_math/parser.rs:84-103 | an operator followed by a group applies the operator to the operand so far and the group's tree |
| ParserProperties.ImplicitMultiplication | src/parse_math/parser.rs:105-111 | as whole expressions, `(A)(B)` and `(A)*(B)` both parse to Multiply(A, B) |
| ParserProperties.NumberTimesGroup | src/parse_math/parser.rs:105-111 | as whole expressions, `v(B)` and `v*(B)` both parse to Multiply(v, B) |
| ParserProperties.TrailingTokensIgnored | src/parse_math/parser.rs:34-38 | a complete expression followed by a number or `)` parses to its own tree, and the parse stops before that token |
| ParserProperties.UnclosedGroup | src/parse_math/parser.rs:63-65 | `( e` followed by EOF or by a number fails with ParenthesisNotBalanced |
| ParserProperties.OperatorToken | src/parse_math/parser.rs:84-103 | every binary node is built by the operator token chosen for it |
| ParserProperties.BinaryRoundTrip | src/parse_math/parser.rs:84-111 | `(l) op (r)` parses to the operator's node over the two trees |
| ParserProperties.PrintRoundTrip | src/parse_math/parser.rs:29-119 | every tree is parsed back from its fully parenthesised tokens |
| TokenProperties.StripConcat | src/parse_math/token.rs:42-45 | the whitespace filter distributes over concatenation |
| TokenProperties.StripNoWhitespace | src/parse_math/token.rs:42-45 | a line without whitespace passes through the filter unchanged |
| TokenProperties.StripIdempotent | src/parse_math/token.rs:42-45 | filtering twice is filtering once |
| TokenProperties.WhitespaceIgnored | src/parse_math/token.rs:42-45 | inserting a whitespace character anywhere does not change the tokens, even between digits |
| TokenProperties.TokenizeStripped | src/parse_math/token.rs:42-45 | a line's tokens equal those of the line with its whitespace removed |
| TokenProperties.ScanDigits | src/parse_math/token.rs:66-72 | the number loop runs over ASCII digits and points up to the first character that ends a number |
| TokenProperties.LexDigits | src/parse_math/token.rs:63-74 | a run of digits is one number token carrying its decimal value |
| TokenProperties.LexDecimal | src/parse_math/token.rs:63-74 | a lexeme with a point that the float parser accepts, ended by the end of the line or a character that ends a number, is one number token carrying its exact decimal value |
| TokenProperties.NatTextValue | src/parse_math/token.rs:74 | a decimal numeral is all digits and reads back as its number |
| TokenProperties.LexNumeral | src/parse_math/token.rs:63-74 | a numeral followed by the end or by a number-ending character lexes as its value |
| TokenProperties.LexPiece | src/parse_math/token.rs:59-89 | the first number or symbol of a rendered line is lexed as its own token |
| TokenProperties.TokensOfRender | src/parse_math/token.rs:59-89 | the stream from any position where pieces are rendered is those pieces' tokens |
| TokenProperties.TokenizeRender | src/parse_math/token.rs:40-89 | the tokenizer inverts rendering: a line built from natural numerals and symbols gives back exactly their tokens |
| Scenarios.NumberTokens | src/parse_math/token.rs:63-74 | a natural numeral is one number token |
| Scenarios.OpLineTokens | src/parse_math/token.rs:59-89 | `a op b` gives number, operator, number |
| Scenarios.TwoOperatorTokens | src/parse_math/token.rs:59-89 | `a o1 b o2 c` gives its five tokens |
| Scenarios.SignedTokens | src/parse_math/token.rs:76-77 | a sign and a numeral give the sign token and the number |
| Scenarios.GroupedOperatorTokens | src/parse_math/token.rs:81-82 | `(a op b)` gives the parenthesised tokens |
| Scenarios.UnclosedGroupTokens | src/parse_math/token.rs:81 | `(a op b` gives `(` and the three tokens |
| Scenarios.PrefixGroupTokens | src/parse_math/token.rs:59-89 | any well-formed line followed by a group gives its tokens then the group's |
| Scenarios.NumberTimesGroupTokens | src/parse_math/token.rs:59-89 | `v*(a op b)` gives the number, `*` and the group's tokens |
| Scenarios.NumberGroupTokens | src/parse_math/token.rs:59-89 | `v(a op b)` gives the number and the group's tokens |
| Scenarios.AdjacentGroupsTokens | src/parse_math/token.rs:59-89 | two adjacent groups give the two groups' tokens |
| Scenarios.TrailingOperatorTokens | src/parse_math/token.rs:76-80 | `a op` gives the number and the operator |
| Scenarios.UnknownAfterNumberTokens | src/parse_math/token.rs:83-85 | a number followed by an unknown character gives the number and "gave up" |
| Scenarios.NumberParses | src/parse_math/parser.rs:59 | a lone number token parses to its Element |
| Scenarios.NumberLine | src/parse_math/parser.rs:59 | a natural numeral line parses to its Element |
| Scenarios.SingleOperatorLine | src/parse_math/parser.rs:84-104 | `a op b` parses to the operator's node over the two numbers |
| Scenarios.TwoOperatorLine | src/parse_math/parser.rs:36-40 | `a o1 b o2 c` groups the tighter operator first, and leans left on equal levels |
| Scenarios.SignedLine | src/parse_math/parser.rs:57-58 | `-v` is Negative(v) and `+v` is v |
| Scenarios.GroupedOperatorLine | src/parse_math/parser.rs:60-67 | `(a op b)` parses to the same tree as `a op b` |
| Scenarios.UnclosedGroupLine | src/parse_math/parser.rs:63-65 | `(a op b` fails with ParenthesisNotBalanced |
| Scenarios.NumberTimesGroupLine | src/parse_math/parser.rs:93-96 | `v*(a op b)` is Multiply(v, a op b) |
| Scenarios.NumberGroupLine | src/parse_math/parser.rs:105-111 | `v(a op b)` is Multiply(v, a op b) |
| Scenarios.AdjacentNumberGroupsLine | src/parse_math/parser.rs:105-111 | `(a)(b)` is Multiply(a, b) |
| Scenarios.AdjacentGroupsLine | src/parse_math/parser.rs:105-111 | `(a1 o1 b1)(a2 o2 b2)` is the product of the two trees |
| Scenarios.TrailingOperatorLine | src/parse_math/parser.rs:69-71 | `a op` fails with InvalidNumber("EOF") |
| Scenarios.ClosingParenthesisLine | src/parse_math/parser.rs:34-38 | `a)` is Ok(a): the stray `)` is never read |
| Scenarios.GroupThenNumberLine | src/parse_math/parser.rs:34-38 | `(a)b` is Ok(a): the number after the group is never read |
| Scenarios.UnknownOperandLine | src/parse_math/parser.rs:51-54 | an unknown character where an operand is expected fails with UnableToParse("Number parse error") |
| Scenarios.UnknownAfterNumberLine | src/parse_math/parser.rs:42-44 | an unknown character after a number fails with UnableToParse("Unknown char") |
| Scenarios.NegativeExample | src/parse_math/parser.rs:126-132 | `-1` is Negative(Element(1)) |
| Scenarios.TrimPlusExample | src/parse_math/parser.rs:134-140 | `+1` is Element(1) |
| Scenarios.SumTwoExample | src/parse_math/parser.rs:142-148 | `1+2` is Sum(1, 2) |
| Scenarios.SumManyExample | src/parse_math/parser.rs:150-157 | `10+20+30` is Sum(Sum(10, 20), 30) |
| Scenarios.MultiplyTwoExample | src/parse_math/parser.rs:159-165 | `1*2` is Multiply(1, 2) |
| Scenarios.MultiplyManyExample | src/parse_math/parser.rs:167-174 | `10*20*30` is Multiply(Multiply(10, 20), 30) |
| Scenarios.DivideTwoExample | src/parse_math/parser.rs:176-182 | `1/2` is Divide(1, 2) |
| Scenarios.DivideManyExample | src/parse_math/parser.rs:184-191 | `10/20/30` is Divide(Divide(10, 20), 30) |
| Scenarios.SubtractTwoExample | src/parse_math/parser.rs:193-199 | `1-2` is Subtract(1, 2) |
| Scenarios.SubtractManyExample | src/parse_math/parser.rs:201-208 | `10-20-30` is Subtract(Subtract(10, 20), 30) |
| Scenarios.PowerTwoExample | src/parse_math/parser.rs:210-216 | `1^2` is Power(1, 2) |
| Scenarios.PowManyExample | src/parse_math/parser.rs:218-225 | `10^20^30` is Power(Power(10, 20), 30) |
| Scenarios.CombinePowExample | src/parse_math/parser.rs:227-234 | `3^2*2` is Multiply(Power(3, 2), 2) |
| Scenarios.CombineSumProductExample | src/parse_math/parser.rs:236-243 | `10+20*30` is Sum(10, Multiply(20, 30)) |
| Scenarios.CombineProductSumExample | src/parse_math/parser.rs:245-252 | `10*20+30` is Sum(Multiply(10, 20), 30) |
| Scenarios.ParenthesisExample | src/parse_math/parser.rs:254-260 | `(20+30)` is Sum(20, 30) |
| Scenarios.CombineParenthesisExample | src/parse_math/parser.rs:262-269 | `10*(20+30)` is Multiply(10, Sum(20, 30)) |
| Scenarios.ImplicitProductExample | src/parse_math/parser.rs:105-111 | `10(20+30)` is Multiply(10, Sum(20, 30)) |
| Scenarios.ParenthesisMultiplyNumbersExample | src/parse_math/parser.rs:271-277 | `(10)(20)` is Multiply(10, 20) |
| Scenarios.ParenthesisMultiplySumsExample | src/parse_math/parser.rs:279-287 | `(10+20)(30+40)` is Multiply(Sum(10, 20), Sum(30, 40)) |
| Scenarios.ParenthesisMultiplySumsValue | src/parse_math/parser.rs:17-21 | evaluating `(10+20)(30+40)` gives 2100 |
| Scenarios.EmptyLineExample | src/parse_math/parser.rs:69-71 | the empty line fails with InvalidNumber("EOF") |
| Scenarios.TrailingOperatorExample | src/parse_math/parser.rs:69-71 | `1+` fails with InvalidNumber("EOF") |
| Scenarios.UnclosedParenthesisExample | src/parse_math/parser.rs:63-65 | `(1+2` fails with ParenthesisNotBalanced |
| Scenarios.StrayParenthesisExample | src/parse_math/parser.rs:34-38 | `1)` is Ok(Element(1)) |
| Scenarios.GroupThenNumberExample | src/parse_math/parser.rs:34-38 | `(1)2` is Ok(Element(1)) |
| Scenarios.UnknownOperandExample | src/parse_math/parser.rs:51-54 | `$` fails with UnableToParse("Number parse error") |
| Scenarios.UnknownAfterNumberExample | src/parse_math/parser.rs:42-44 | `1$` fails with UnableToParse("Unknown char") |
| Scenarios.StripSpaces | src/parse_math/token.rs:42-45 | the filter turns `1 2` into `12` and ` 1 + 2 ` into `1+2` |
| Scenarios.SpaceJoinsDigitsExample | src/parse_math/token.rs:42-45 | `1 2` parses to the number 12 |
| Scenarios.SpacesIgnoredExample | src/parse_math/token.rs:42-45 | ` 1 + 2 ` parses to Sum(1, 2) |
| Scenarios.TwoDotsScan | src/parse_math/token.rs:66-72 | the number loop takes all of `1.2.3` |
| Scenarios.TwoDotsNotFloat | src/parse_math/token.rs:74 | `1.2.3` is not float text |
| Scenarios.TwoDotsTokens | src/parse_math/token.rs:74 | `1.2.3` is one malformed lexeme |
| Scenarios.DecimalTokens | src/parse_math/token.rs:63-74 | `2.5` and `1.` each tokenize to one number token, 2.5 and 1 |
| Scenarios.TwoDotsExample | src/parse_math/token.rs:74 | parsing `1.2.3` ends in the panic of the float conversion |

## Left out

- Floating point. Numbers are exact reals, so f64 rounding is not modelled. For example, `1234567890.1234567890` keeps all its digits, and the float test of token.rs has no counterpart. A zero divisor, or a power that `pow` leaves undefined, makes the whole enclosing expression `None`. f64 infinities and NaN are not modelled: `x/inf` is 0 in f64 and `None` here, an f64 overflow to infinity is a finite value here, and `0*inf` is NaN in f64. Signed zeros are not distinguished.
- `powf` is a parameter `pow` of type `PowerFn`. The model assumes nothing about it beyond what a lemma states.
- `char::is_numeric` is the parameter `numeric` of type `NumericClass`. It must agree with ASCII on ASCII characters, where exactly the ten digits are numeric. Beyond ASCII it is left open, and every tokenizer and parser lemma holds whatever it is.
- TokenProperties.TokenizeRender: the round trip covers lines whose numbers are natural numerals. Numerals with a point are covered one lexeme at a time by `TokenProperties.LexDecimal`.
- Tokens.DebugText: the `{:?}` text of a number token (`Number(1.0)`) is shortened to `Number`, because f64 formatting is not modelled. This text appears only in `InvalidNumber` and `InvalidOperator` payloads. No reachable error carries it, since a number never stands where those errors arise.
- `main.rs` reads stdin and prints in an endless loop. That is I/O and is not modelled. `Parsing.EvaluateLine` stands for one turn of the loop.
- Rust's `Peekable`, `Filter` and `Chars` iterators are replaced. The whitespace filter is applied eagerly to the whole line, which the tokenizer sees only through `next`, so nothing can tell the two apart. The `Peekable` is an explicit one-token buffer (`Parser.peeked`).
- A panic is not a crash here. The `unwrap` on a number lexeme the f64 parser rejects (such as `1.2.3`) is the `Malformed` lexeme, which the parser turns into the `Panic` outcome.
- The tokenizer tests in token.rs (lines 101-102, 111 and 119) expect `None` after the last number. The code yields `EOF` on every call past the end, and the parser relies on that. The model follows the code.

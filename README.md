# Front end of the Biza expression language, modelled in Dafny

This project models the front end of a small expression language with two
types (32-bit integers and booleans):

- **Lexer** (`lexer.dfy`, module `Lexing`). A cursor over an immutable source
  string that returns one token per call. It consumes digit, whitespace and
  letter runs maximally. It classifies letter runs as keywords or identifiers.
  It uses one character of lookahead to tell `&& || == !=` from `! =`. It
  reports overflowing numbers and bad characters as diagnostics, and still
  returns a token and advances.
  - `Scan` is the pure specification of one call.
  - Class `Lexer` holds `position` and the append-only `diagnostics`, and
    `Lexer.Lex` is proved to follow `Scan`.
  - `Tokens` is an exhaustive scan. Its lemmas give termination within
    length + 1 calls, contiguity, and the round trip: the token texts
    concatenate back to the source.
- **Binder** (`binder.dfy`, module `Binding`). A recursive walk from a syntax
  tree to a typed bound tree.
  - It resolves each operator through operator-resolution functions, which
    are parameters of the model.
  - It appends one diagnostic per operator that does not resolve.
  - On a failed unary operator it returns the bound operand. On a failed
    binary operator it returns the bound left operand.
  - `Bind` is the pure specification. Class `Binder` keeps the diagnostics
    list, and its three methods are proved to follow `Bind`.
  - Lemmas relate `Bind` to an independent type computation (`TypeOf`) and
    to a count of failed nodes (`Failures`). They also prove that nodes are
    dropped exactly when something is reported, and that consistent operator
    tables give a well-typed tree.
- **Syntax facts** (`syntax_facts.dfy`, module `SyntaxFacts`). The unary and
  binary precedence tables and keyword classification.
- **Syntax tree** (`syntax.dfy`, module `Syntax`). Token kinds, tokens and
  the expression nodes. A unary node is an immutable value whose children are
  the operator token followed by the operand.

Two details of the code that the model keeps:

- An overflowing number token carries `int.TryParse`'s default 0 as its
  value (Lexer.cs:52,55). It is not an absent value.
- The binder's diagnostics are messages that begin "Unary operator …" or
  "Binary operator …" (Binder.cs:31,52). Here each one is a record of the
  operator text and the operand types.

Layout of the lexer model:

- The three `while (...) Next();` loops of `Lex` share one helper method,
  `Lexer.SkipRun`.
- Each branch of `Lex` after the end-of-file test is its own method: the
  digit branch is `Lexer.LexNumber`, the whitespace and letter branches are
  `Lexer.LexWord`, and the operator switch with the bad-character tail is
  `Lexer.LexPunctuation`. `Lexer.Lex` tests the current character in the
  source's order and calls them. This keeps each proof small.
- Inside the switch, the cursor moves exactly as in the source. Single
  characters move it with `position := position + 1` in their own arm. `&&`,
  `||`, `==`, `!=` and `=` move it through `addPosition`.

## Model

| member | source | states |
|---|---|---|
| `Syntax.ExpressionSyntax.Kind` | src/Biza/CodeAnalysis/Syntax/UnaryExpressionSyntax.cs:17 | a node's kind is UnaryExpression exactly when it is a unary node |
| `Syntax.ExpressionSyntax.GetChildren` | src/Biza/CodeAnalysis/Syntax/UnaryExpressionSyntax.cs:21-25 | a unary node has exactly two children: the operator token first, then the operand |
| `Syntax.UnaryExpressionConstruction` | src/Biza/CodeAnalysis/Syntax/UnaryExpressionSyntax.cs:11-19 | construction stores the operator token and operand unchanged, the kind is UnaryExpression, and the node can be rebuilt from its children |
| `Syntax.UnaryChildrenDetermineNode` | src/Biza/CodeAnalysis/Syntax/UnaryExpressionSyntax.cs:21-25 | two unary nodes with equal children are equal (GetChildren loses nothing) |
| `SyntaxFacts.GetUnaryOperatorPrecedence` | src/bc/CodeAnalysis/Syntax/SyntaxFacts.cs:11-15 | the result is 0 or 6, and it is nonzero exactly for `+`, `-` and `!` |
| `SyntaxFacts.GetBinaryOperatorPrecedence` | src/bc/CodeAnalysis/Syntax/SyntaxFacts.cs:17-25 | the result is at most 5, and it is nonzero exactly for the eight infix operator kinds |
| `SyntaxFacts.GetKeywordKind` | src/bc/CodeAnalysis/Syntax/SyntaxFacts.cs:27-32 | the result is a keyword or an identifier; TrueKeyword exactly for "true", FalseKeyword exactly for "false" |
| `SyntaxFacts.BinaryPrecedenceOrder` | src/bc/CodeAnalysis/Syntax/SyntaxFacts.cs:19-24 | `*` = `/` > `+` = `-` > `==` = `!=` > `&&` > the double pipe > 0 |
| `SyntaxFacts.UnaryBindsTighterThanBinary` | src/bc/CodeAnalysis/Syntax/SyntaxFacts.cs:11-25 | every nonzero unary precedence exceeds every binary precedence |
| `SyntaxFacts.PrecedenceRanges` | src/bc/CodeAnalysis/Syntax/SyntaxFacts.cs:11-25 | both tables are total with results in [0, 6]; `!` has binary precedence 0; `*` and `/` have unary precedence 0 |
| `SyntaxFacts.KeywordsAreExact` | src/bc/CodeAnalysis/Syntax/SyntaxFacts.cs:27-32 | matching is exact and case-sensitive: "True", "tru", "FALSE" and "" are identifiers |
| `Lexing.RunEnd` | src/Biza/CodeAnalysis/Syntax/Lexer.cs:44-47 | the end of a run lies between its start and the text's end; every character before it is in the class and the character at it is not |
| `Lexing.DecimalValue` | src/Biza/CodeAnalysis/Syntax/Lexer.cs:52 | the value of a digit run, which `int.TryParse` reads: it is below 10 to the power of the run's length, and its last decimal digit is the run's last digit |
| `Lexing.TryParseInt32` | src/Biza/CodeAnalysis/Syntax/Lexer.cs:52 | parsing succeeds exactly when the decimal value is at most 2^31-1; on success the value is the numeral's, otherwise 0 |
| `Lexing.ShortNumbersParse` | src/Biza/CodeAnalysis/Syntax/Lexer.cs:52-55 | a digit run of at most nine digits always parses, so only longer runs can be reported |
| `Lexing.MatchOperator` | src/Biza/CodeAnalysis/Syntax/Lexer.cs:81-96 | a matched lexeme is one or two characters, starts with the current character and, when two long, continues with the lookahead; its kind is the one the table `OperatorKinds` gives it (`+` PlusToken, `*` StarToken, `&&` AmpersandAmpersandToken, `=` EqualsToken, and so on); no lexeme matches exactly when the character is none of `+-*/()!=` and does not begin `&&` or the double pipe |
| `Lexing.NumberStep` | src/Biza/CodeAnalysis/Syntax/Lexer.cs:44-56 | a digit run yields a NumberToken at the start position whose text is the consumed characters; at most one diagnostic |
| `Lexing.WordStep` | src/Biza/CodeAnalysis/Syntax/Lexer.cs:58-79 | a whitespace or letter run yields a whitespace, keyword or identifier token whose text is the consumed characters; nothing is reported; the token carries no value |
| `Lexing.OperatorStep` | src/Biza/CodeAnalysis/Syntax/Lexer.cs:81-104 | an operator or bad token at the start position, with text equal to the consumed characters and progress of at least one; a non-bad token has the kind `OperatorKinds` gives its text; a diagnostic is reported exactly when the token is bad, and at most one; the token carries no value |
| `Lexing.Scan` | src/Biza/CodeAnalysis/Syntax/Lexer.cs:35-105 | at the end: an EndOfFile token at the cursor with text "\0", no move, nothing reported; otherwise the cursor moves forward but not past the end, the token text is the text moved over, its position is the old cursor, it is never EndOfFile, and at most one diagnostic is added, only for number or bad tokens |
| `Lexing.ScanRunIsMaximal` | src/Biza/CodeAnalysis/Syntax/Lexer.cs:44-79 | digit, whitespace and letter runs are maximal; the kinds are NumberToken, WhitespaceToken and GetKeywordKind of the text; whitespace and letter tokens carry no value |
| `Lexing.ScanNumber` | src/Biza/CodeAnalysis/Syntax/Lexer.cs:44-56 | a fitting run carries its value and reports nothing; an overflowing run reports exactly one invalid number spanning (start, length) and carries 0 |
| `Lexing.ScanTwoCharacterOperator` | src/Biza/CodeAnalysis/Syntax/Lexer.cs:89-92 | `&&`, the double pipe, `==` and `!=` are read as one token of the kind `OperatorKinds` gives that lexeme, advancing by 2 with no report; the token carries no value |
| `Lexing.ScanOneCharacterOperator` | src/Biza/CodeAnalysis/Syntax/Lexer.cs:83-94 | `+ - * / ( ) ! =` not followed by a completing character are one-character tokens of the kind `OperatorKinds` gives them, advancing by 1 with no report; the token carries no value |
| `Lexing.ScanLoneAmpersandOrPipe` | src/Biza/CodeAnalysis/Syntax/Lexer.cs:89-104 | a lone `&` or pipe falls through to the bad-character path |
| `Lexing.ScanBadCharacter` | src/Biza/CodeAnalysis/Syntax/Lexer.cs:100-104 | a character that starts no token yields a BadToken of that one character, one bad-character diagnostic at its position, and a one-step advance |
| `Lexing.Tokens` | src/Biza/CodeAnalysis/Syntax/Lexer.cs:35-105 | an exhaustive scan from any cursor ends with EndOfFile at the text's length within (length - cursor + 1) calls; no earlier token is EndOfFile |
| `Lexing.TokensRoundTrip` | src/Biza/CodeAnalysis/Syntax/Lexer.cs:42-104 | the texts of the tokens before EndOfFile concatenate to the rest of the source |
| `Lexing.TokensAreContiguous` | src/Biza/CodeAnalysis/Syntax/Lexer.cs:42-104 | the first token starts at the cursor and each later one starts where the previous one's text ends |
| `Lexing.Reports` | src/Biza/CodeAnalysis/Syntax/Lexer.cs:52-104 | the diagnostic bag after an exhaustive scan, in scan order; every diagnostic points into the scanned text: an invalid-number span lies inside it, and a bad-character diagnostic names the character actually at its position |
| `Lexing.ReportsBound` | src/Biza/CodeAnalysis/Syntax/Lexer.cs:52-104 | an exhaustive scan reports at most one diagnostic per token before EndOfFile |
| `Lexing.ScansSumOfNumbers` | src/Biza/CodeAnalysis/Syntax/Lexer.cs:35-105 | "12+3" scans as Number 12, Plus, Number 3, EndOfFile at 4, with no diagnostics |
| `Lexing.ScansOverflowingNumber` | src/Biza/CodeAnalysis/Syntax/Lexer.cs:44-56 | "9999999999" gives one invalid-number diagnostic over (0, 10) and a number token carrying 0 |
| `Lexing.ScansBadCharacter` | src/Biza/CodeAnalysis/Syntax/Lexer.cs:100-104 | "@" gives a bad token "@" at 0, one bad-character diagnostic at 0, and the cursor at 1 |
| `Lexing.Lexer.constructor` | src/Biza/CodeAnalysis/Syntax/Lexer.cs:12-15 | the lexer starts at position 0 over the given text with no diagnostics |
| `Lexing.Lexer.Peek` | src/Biza/CodeAnalysis/Syntax/Lexer.cs:23-31 | the character at cursor + offset, or '\0' at or past the end |
| `Lexing.Lexer.Current` | src/Biza/CodeAnalysis/Syntax/Lexer.cs:19 | a current character in any class is a real character of the text, so runs stop at the end |
| `Lexing.Lexer.Lookahead` | src/Biza/CodeAnalysis/Syntax/Lexer.cs:21 | a lookahead that can complete a two-character operator is a real character of the text |
| `Lexing.Lexer.Next` | src/Biza/CodeAnalysis/Syntax/Lexer.cs:33 | the cursor moves by one |
| `Lexing.Lexer.SkipRun` | src/Biza/CodeAnalysis/Syntax/Lexer.cs:46-47 | the cursor ends at the end of the maximal run of the class (the loops at lines 46-47, 60-61 and 71-72) |
| `Lexing.Lexer.LexPunctuation` | src/Biza/CodeAnalysis/Syntax/Lexer.cs:81-104 | the token, new cursor and appended diagnostics are those OperatorStep specifies |
| `Lexing.Lexer.LexNumber` | src/Biza/CodeAnalysis/Syntax/Lexer.cs:44-56 | the token, new cursor and appended diagnostics are those NumberStep specifies |
| `Lexing.Lexer.LexWord` | src/Biza/CodeAnalysis/Syntax/Lexer.cs:58-79 | the token and new cursor are those WordStep specifies; no diagnostic is added |
| `Lexing.Lexer.Lex` | src/Biza/CodeAnalysis/Syntax/Lexer.cs:35-105 | the token, the new cursor and the diagnostics (old ones followed by the new ones) are those Scan specifies; the cursor stays within the text |
| `Binding.BindLiteralExpression` | src/bc/CodeAnalysis/Binding/Binder.cs:38-42 | a literal binds to its own value, or to integer 0 (of type Int32) when it has none |
| `Binding.Bind` | src/bc/CodeAnalysis/Binding/Binder.cs:16-57 | the pure specification of binding a tree: the bound tree and the diagnostics added, operands first; its own contract says it adds fewer diagnostics than the tree has nodes; the `Binder` methods are proved equal to it, and the `Bind*` lemmas below state its properties (the exact count of diagnostics is `BindReportsEachFailure`) |
| `Binding.BindHasPredictedType` | src/bc/CodeAnalysis/Binding/Binder.cs:24-57 | the bound tree's type is TypeOf: a resolved operator's result type, or the surviving operand's type after recovery |
| `Binding.BindReportsEachFailure` | src/bc/CodeAnalysis/Binding/Binder.cs:24-57 | the number of diagnostics equals the number of unary and binary nodes whose resolution fails |
| `Binding.BindNeverGrows` | src/bc/CodeAnalysis/Binding/Binder.cs:24-57 | the bound tree never has more nodes than the syntax tree |
| `Binding.BindKeepsShapeIffNoDiagnostics` | src/bc/CodeAnalysis/Binding/Binder.cs:24-57 | the bound tree keeps every node if and only if no diagnostic was added |
| `Binding.BindIsWellTyped` | src/bc/CodeAnalysis/Binding/Binder.cs:24-57 | with consistent operator tables, every operator in the bound tree gets operands of the types it takes |
| `Binding.UndefinedBinaryKeepsLeft` | src/bc/CodeAnalysis/Binding/Binder.cs:44-54 | `1 + true` with no (Int32, Boolean) `+`: exactly one diagnostic, and the result is the bound literal 1 |
| `Binding.UndefinedUnaryKeepsOperand` | src/bc/CodeAnalysis/Binding/Binder.cs:24-33 | `!5` with no Int32 `!`: exactly one diagnostic naming `!` and Int32, and the result is the bound literal 5 |
| `Binding.Binder.constructor` | src/bc/CodeAnalysis/Binding/Binder.cs:12 | a new binder has no diagnostics |
| `Binding.Binder.BindExpression` | src/bc/CodeAnalysis/Binding/Binder.cs:16-22 | only literal, unary and binary trees are accepted; the result is Bind's tree, and Bind's diagnostics are appended after the earlier ones, which are unchanged |
| `Binding.Binder.BindUnaryExpression` | src/bc/CodeAnalysis/Binding/Binder.cs:24-36 | the operand's diagnostics come first; on failure exactly one diagnostic (operator text, operand type) follows and the result is the bound operand; on success the result wraps the resolved operator and bound operand and nothing more is added |
| `Binding.Binder.BindBinaryExpression` | src/bc/CodeAnalysis/Binding/Binder.cs:44-57 | left diagnostics, then right, then the node's own; on failure exactly one diagnostic (operator text, both types) and the result is the bound left operand; on success the result is (bound left, operator, bound right) |

## Left out

- Character classes are ASCII only: digits `0`-`9`, letters `a`-`z` and `A`-`Z`, and whitespace space plus tab through carriage return. Other Unicode digits, letters and whitespace, which .NET also accepts, are bad characters in the model. `int.TryParse` is modelled as "the decimal value fits in a signed 32-bit integer", which is exact for ASCII digit runs.
- The message texts of the lexer diagnostics are not modelled. The internals of `DiagnosticBag.ReportInvalidNumber` and `ReportBadCharacter` are not part of this model. Each report is a record: the invalid number's span, or the bad character's position and value. The source text and `typeof(int)` passed to `ReportInvalidNumber` are not recorded.
- The binder's messages, which interpolate .NET type names, are structured records: the operator text with the operand type or types.
- `BoundUnaryOperator.Bind` and `BoundBinaryOperator.Bind` are not part of this model. The binder takes operator resolution as two function parameters. Every binder property holds for any resolution functions, and `BindIsWellTyped` assumes only that they are consistent.
- The exception for an unexpected node kind is a precondition (`Bindable`): no parenthesized node may appear anywhere in the tree.
- `GetChildren` is modelled for unary nodes only. The other node classes, the parser, the evaluator and the console are not part of this model.
- The lexer keeps its diagnostic bag as a sequence field that `Lex` reassigns. Aliasing of the bag object returned by `Diagnostics` is not modelled.
- `_position` is an unbounded natural number. The source's 32-bit `int` cannot overflow because the cursor never passes the string's length.
- Lexer.cs:76 calls the Biza project's own `SyntaxFacts.GetKeywordKind`, which is not part of this model. The model uses the bc project's `GetKeywordKind` in its place and assumes the two agree.
- Text is a sequence of Unicode scalar values, while .NET strings index UTF-16 code units. A character outside the Basic Multilingual Plane is one bad token and one bad-character diagnostic here, but two (one per surrogate) in the source, and every later token position is one smaller here than in the source.

/** Operator precedences and keyword classification: pure lookup tables. */
module SyntaxFacts {
  import opened Syntax

  /** Precedence of a token used as a prefix operator; 0 means "not a unary operator". */
  function GetUnaryOperatorPrecedence(kind: SyntaxKind): (p: nat)
    ensures p == 0 || p == 6
    ensures p != 0 <==> kind in {PlusToken, MinusToken, BangToken}
  {
    match kind
    case PlusToken | MinusToken | BangToken => 6
    case _ => 0
  }

  /** Precedence of a token used as an infix operator; 0 means "not a binary operator". */
  function GetBinaryOperatorPrecedence(kind: SyntaxKind): (p: nat)
    ensures p <= 5
    ensures p != 0 <==> kind in {StarToken, SlashToken, PlusToken, MinusToken,
                                 EqualsEqualsToken, BangEqualsToken,
                                 AmpersandAmpersandToken, PipePipeToken}
  {
    match kind
    case StarToken | SlashToken => 5
    case PlusToken | MinusToken => 4
    case EqualsEqualsToken | BangEqualsToken => 3
    case AmpersandAmpersandToken => 2
    case PipePipeToken => 1
    case _ => 0
  }

  /** Classifies a letter run: exactly "true" and "false" are keywords, anything else an identifier. */
  function GetKeywordKind(text: string): (k: SyntaxKind)
    ensures k in {TrueKeyword, FalseKeyword, IdentifierToken}
    ensures k == TrueKeyword <==> text == "true"
    ensures k == FalseKeyword <==> text == "false"
  {
    if text == "true" then TrueKeyword
    else if text == "false" then FalseKeyword
    else IdentifierToken
  }

  /** The binary levels are strictly ordered: multiplicative, additive, equality,
      logical and, logical or, and then everything that is not a binary operator. */
  lemma BinaryPrecedenceOrder()
    ensures GetBinaryOperatorPrecedence(StarToken) == GetBinaryOperatorPrecedence(SlashToken)
    ensures GetBinaryOperatorPrecedence(PlusToken) == GetBinaryOperatorPrecedence(MinusToken)
    ensures GetBinaryOperatorPrecedence(EqualsEqualsToken) == GetBinaryOperatorPrecedence(BangEqualsToken)
    ensures GetBinaryOperatorPrecedence(StarToken) > GetBinaryOperatorPrecedence(PlusToken)
              > GetBinaryOperatorPrecedence(EqualsEqualsToken)
              > GetBinaryOperatorPrecedence(AmpersandAmpersandToken)
              > GetBinaryOperatorPrecedence(PipePipeToken) > 0
  {
  }

  /** A prefix operator binds tighter than any infix operator. */
  lemma UnaryBindsTighterThanBinary(unary: SyntaxKind, binary: SyntaxKind)
    requires GetUnaryOperatorPrecedence(unary) != 0
    ensures GetUnaryOperatorPrecedence(unary) > GetBinaryOperatorPrecedence(binary)
  {
  }

  /** Both tables are total with results in [0, 6]; `!` is not an infix operator
      and `*`, `/` are not prefix operators. */
  lemma PrecedenceRanges(kind: SyntaxKind)
    ensures 0 <= GetUnaryOperatorPrecedence(kind) <= 6
    ensures 0 <= GetBinaryOperatorPrecedence(kind) <= 6
    ensures GetBinaryOperatorPrecedence(BangToken) == 0
    ensures GetUnaryOperatorPrecedence(StarToken) == 0 && GetUnaryOperatorPrecedence(SlashToken) == 0
  {
  }

  /** Keyword matching is exact and case-sensitive. */
  lemma KeywordsAreExact()
    ensures GetKeywordKind("true") == TrueKeyword && GetKeywordKind("false") == FalseKeyword
    ensures GetKeywordKind("True") == IdentifierToken && GetKeywordKind("tru") == IdentifierToken
    ensures GetKeywordKind("FALSE") == IdentifierToken && GetKeywordKind("") == IdentifierToken
  {
  }
}

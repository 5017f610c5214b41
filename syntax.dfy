/** Tokens and syntax trees of the expression language: the values the lexer
    produces and the (external) parser assembles for the binder. */
module Syntax {

  datatype Option<+T> = None | Some(value: T)

  /** A signed 32-bit integer, the width of the language's integer literals. */
  newtype int32 = x: int | -0x8000_0000 <= x < 0x8000_0000

  /** Every kind of token and syntax node. */
  datatype SyntaxKind =
    | EndOfFileToken | BadToken | WhitespaceToken | NumberToken | IdentifierToken
    | TrueKeyword | FalseKeyword
    | PlusToken | MinusToken | StarToken | SlashToken
    | OpenParenthesisToken | CloseParenthesisToken
    | BangToken | EqualsToken
    | AmpersandAmpersandToken | PipePipeToken | EqualsEqualsToken | BangEqualsToken
    | LiteralExpression | UnaryExpression | BinaryExpression | ParenthesizedExpression

  /** A region of the source text: `length` characters from offset `start`. */
  datatype TextSpan = TextSpan(start: nat, length: nat)

  /** The value a literal token or literal node carries (the source boxes it as an object). */
  datatype LiteralValue = IntValue(i: int32) | BoolValue(b: bool)

  /** One lexical unit: its kind, its offset in the source, the exact text it
      covers and an optional literal value. */
  datatype SyntaxToken = SyntaxToken(kind: SyntaxKind, position: nat, text: string, value: Option<LiteralValue>)

  /** Expression nodes. Each is immutable and owns its children; the binder
      accepts only the first three variants. */
  datatype ExpressionSyntax =
    | LiteralExpressionSyntax(literalToken: SyntaxToken, value: Option<LiteralValue>)
    | UnaryExpressionSyntax(operatorToken: SyntaxToken, operand: ExpressionSyntax)
    | BinaryExpressionSyntax(left: ExpressionSyntax, operationToken: SyntaxToken, right: ExpressionSyntax)
    | ParenthesizedExpressionSyntax(openParenthesisToken: SyntaxToken, expression: ExpressionSyntax,
                                    closeParenthesisToken: SyntaxToken)
  {
    /** The node's kind; a unary node, and only a unary node, reports UnaryExpression. */
    function Kind(): (k: SyntaxKind)
      ensures k == UnaryExpression <==> UnaryExpressionSyntax?
      ensures k in {LiteralExpression, UnaryExpression, BinaryExpression, ParenthesizedExpression}
    {
      match this
      case LiteralExpressionSyntax(_, _) => LiteralExpression
      case UnaryExpressionSyntax(_, _) => UnaryExpression
      case BinaryExpressionSyntax(_, _, _) => BinaryExpression
      case ParenthesizedExpressionSyntax(_, _, _) => ParenthesizedExpression
    }

    /** The children of a unary node, in source order: the operator token, then the operand. */
    function GetChildren(): (children: seq<SyntaxNode>)
      requires UnaryExpressionSyntax?
      ensures |children| == 2
      ensures children[0] == TokenNode(operatorToken) && children[1] == ExpressionNode(operand)
    {
      [TokenNode(operatorToken), ExpressionNode(operand)]
    }
  }

  /** A child of a syntax node: a token or an expression. */
  datatype SyntaxNode = TokenNode(token: SyntaxToken) | ExpressionNode(expression: ExpressionSyntax)

  /** Rebuilds a unary node from a child sequence shaped like the one GetChildren yields. */
  function UnaryFromChildren(children: seq<SyntaxNode>): (e: Option<ExpressionSyntax>)
    ensures e.Some? <==> |children| == 2 && children[0].TokenNode? && children[1].ExpressionNode?
    ensures e.Some? ==> e.value.UnaryExpressionSyntax?
  {
    if |children| == 2 && children[0].TokenNode? && children[1].ExpressionNode? then
      Some(UnaryExpressionSyntax(children[0].token, children[1].expression))
    else
      None
  }

  /** Constructing a unary node stores the operator token and the operand
      unchanged, its kind is UnaryExpression, and its children give it back. */
  lemma UnaryExpressionConstruction(operatorToken: SyntaxToken, operand: ExpressionSyntax)
    ensures var e := UnaryExpressionSyntax(operatorToken, operand);
      && e.Kind() == UnaryExpression
      && e.operatorToken == operatorToken && e.operand == operand
      && UnaryFromChildren(e.GetChildren()) == Some(e)
  {
  }

  /** GetChildren loses nothing: two unary nodes with the same children are the same node. */
  lemma UnaryChildrenDetermineNode(a: ExpressionSyntax, b: ExpressionSyntax)
    requires a.UnaryExpressionSyntax? && b.UnaryExpressionSyntax?
    requires a.GetChildren() == b.GetChildren()
    ensures a == b
  {
    assert UnaryFromChildren(a.GetChildren()) == Some(a);
    assert UnaryFromChildren(b.GetChildren()) == Some(b);
  }
}

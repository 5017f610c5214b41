/** The binder: walks a syntax tree bottom-up, resolves each operator against
    its operands' types and builds the typed bound tree. An operator that does
    not resolve is reported and the node collapses to a subtree. */
module Binding {
  import opened Syntax

  /** The two types of the language. */
  datatype BoundType = Int32Type | BooleanType

  function TypeOfValue(v: LiteralValue): BoundType {
    match v
    case IntValue(_) => Int32Type
    case BoolValue(_) => BooleanType
  }

  datatype BoundUnaryOperatorKind = Identity | Negation | LogicalNegation

  datatype BoundBinaryOperatorKind =
    | Addition | Subtraction | Multiplication | Division
    | LogicalAnd | LogicalOr | Equality | Inequality

  /** A resolved prefix operator: the token kind it was written with, what it
      does, the operand type it takes and the type it yields. */
  datatype BoundUnaryOperator =
    BoundUnaryOperator(syntaxKind: SyntaxKind, kind: BoundUnaryOperatorKind,
                       operandType: BoundType, resultType: BoundType)

  /** A resolved infix operator. */
  datatype BoundBinaryOperator =
    BoundBinaryOperator(syntaxKind: SyntaxKind, kind: BoundBinaryOperatorKind,
                        leftType: BoundType, rightType: BoundType, resultType: BoundType)

  /** Operator resolution: the operator defined for a token kind and operand
      type(s), or None when there is none. The tables themselves are not part
      of this model; the binder is stated for every pair of them. */
  type UnaryResolver = (SyntaxKind, BoundType) -> Option<BoundUnaryOperator>
  type BinaryResolver = (SyntaxKind, BoundType, BoundType) -> Option<BoundBinaryOperator>

  /** The typed tree the binder builds. */
  datatype BoundExpression =
    | BoundLiteralExpression(value: LiteralValue)
    | BoundUnaryExpression(unaryOp: BoundUnaryOperator, operand: BoundExpression)
    | BoundBinaryExpression(left: BoundExpression, binaryOp: BoundBinaryOperator, right: BoundExpression)
  {
    /** A literal has its value's type; an operator node has its operator's result type. */
    function Type(): BoundType {
      match this
      case BoundLiteralExpression(v) => TypeOfValue(v)
      case BoundUnaryExpression(op, _) => op.resultType
      case BoundBinaryExpression(_, op, _) => op.resultType
    }
  }

  /** A binder diagnostic: an operator (by its text) that is not defined for
      the type(s) of its operand(s). */
  datatype Diagnostic =
    | UndefinedUnaryOperator(operatorText: string, operandType: BoundType)
    | UndefinedBinaryOperator(operatorText: string, leftType: BoundType, rightType: BoundType)

  /** The binder knows literal, unary and binary nodes only; any other node
      anywhere in the tree is a programming error. */
  predicate Bindable(e: ExpressionSyntax) {
    match e
    case LiteralExpressionSyntax(_, _) => true
    case UnaryExpressionSyntax(_, operand) => Bindable(operand)
    case BinaryExpressionSyntax(left, _, right) => Bindable(left) && Bindable(right)
    case ParenthesizedExpressionSyntax(_, _, _) => false
  }

  /** Number of nodes of a syntax tree and of a bound tree. */
  function Size(e: ExpressionSyntax): nat {
    match e
    case LiteralExpressionSyntax(_, _) => 1
    case UnaryExpressionSyntax(_, operand) => 1 + Size(operand)
    case BinaryExpressionSyntax(left, _, right) => 1 + Size(left) + Size(right)
    case ParenthesizedExpressionSyntax(_, inner, _) => 1 + Size(inner)
  }

  function BoundSize(b: BoundExpression): nat {
    match b
    case BoundLiteralExpression(_) => 1
    case BoundUnaryExpression(_, operand) => 1 + BoundSize(operand)
    case BoundBinaryExpression(left, _, right) => 1 + BoundSize(left) + BoundSize(right)
  }

  /** The type a syntax tree binds to, computed without building the tree:
      a literal's own type (Int32 when it has no value); an operator's result
      type, or when it does not resolve, the type of the operand or left side. */
  function TypeOf(e: ExpressionSyntax, ru: UnaryResolver, rb: BinaryResolver): BoundType
    requires Bindable(e)
  {
    match e
    case LiteralExpressionSyntax(_, v) => if v.None? then Int32Type else TypeOfValue(v.value)
    case UnaryExpressionSyntax(opToken, operand) =>
      var t := TypeOf(operand, ru, rb);
      (match ru(opToken.kind, t)
       case Some(op) => op.resultType
       case None => t)
    case BinaryExpressionSyntax(left, opToken, right) =>
      var tl, tr := TypeOf(left, ru, rb), TypeOf(right, ru, rb);
      match rb(opToken.kind, tl, tr)
      case Some(op) => op.resultType
      case None => tl
  }

  /** The number of operator nodes whose operator does not resolve. */
  function Failures(e: ExpressionSyntax, ru: UnaryResolver, rb: BinaryResolver): nat
    requires Bindable(e)
  {
    match e
    case LiteralExpressionSyntax(_, _) => 0
    case UnaryExpressionSyntax(opToken, operand) =>
      Failures(operand, ru, rb) + (if ru(opToken.kind, TypeOf(operand, ru, rb)).None? then 1 else 0)
    case BinaryExpressionSyntax(left, opToken, right) =>
      Failures(left, ru, rb) + Failures(right, ru, rb)
        + (if rb(opToken.kind, TypeOf(left, ru, rb), TypeOf(right, ru, rb)).None? then 1 else 0)
  }

  /** The result of binding a tree: the bound tree and the diagnostics it adds, in order. */
  datatype Bound = Bound(tree: BoundExpression, diagnostics: seq<Diagnostic>)

  /** A literal node binds to its value, or to the integer 0 when it has none. */
  function BindLiteralExpression(literal: ExpressionSyntax): (b: BoundExpression)
    requires literal.LiteralExpressionSyntax?
    ensures b.BoundLiteralExpression?
    ensures literal.value.None? ==> b.value == IntValue(0) && b.Type() == Int32Type
    ensures literal.value.Some? ==> b.value == literal.value.value
  {
    BoundLiteralExpression(if literal.value.None? then IntValue(0) else literal.value.value)
  }

  /** What binding `e` yields: operands are bound first, the left before the
      right, and their diagnostics come before the node's own. Each operator
      node adds at most one diagnostic and a literal adds none, so there are
      fewer diagnostics than nodes. */
  function Bind(e: ExpressionSyntax, ru: UnaryResolver, rb: BinaryResolver): (b: Bound)
    requires Bindable(e)
    ensures |b.diagnostics| < Size(e)
  {
    match e
    case LiteralExpressionSyntax(_, _) => Bound(BindLiteralExpression(e), [])
    case UnaryExpressionSyntax(opToken, operand) =>
      var x := Bind(operand, ru, rb);
      (match ru(opToken.kind, x.tree.Type())
       case None => Bound(x.tree, x.diagnostics + [UndefinedUnaryOperator(opToken.text, x.tree.Type())])
       case Some(op) => Bound(BoundUnaryExpression(op, x.tree), x.diagnostics))
    case BinaryExpressionSyntax(left, opToken, right) =>
      var l := Bind(left, ru, rb);
      var r := Bind(right, ru, rb);
      match rb(opToken.kind, l.tree.Type(), r.tree.Type())
      case None =>
        Bound(l.tree, l.diagnostics + r.diagnostics
                        + [UndefinedBinaryOperator(opToken.text, l.tree.Type(), r.tree.Type())])
      case Some(op) => Bound(BoundBinaryExpression(l.tree, op, r.tree), l.diagnostics + r.diagnostics)
  }

  /** The bound tree has the type TypeOf predicts. */
  lemma {:induction false} BindHasPredictedType(e: ExpressionSyntax, ru: UnaryResolver, rb: BinaryResolver)
    requires Bindable(e)
    ensures Bind(e, ru, rb).tree.Type() == TypeOf(e, ru, rb)
  {
    match e
    case LiteralExpressionSyntax(_, _) =>
    case UnaryExpressionSyntax(_, operand) =>
      BindHasPredictedType(operand, ru, rb);
    case BinaryExpressionSyntax(left, _, right) =>
      BindHasPredictedType(left, ru, rb);
      BindHasPredictedType(right, ru, rb);
  }

  /** Binding adds exactly one diagnostic per operator node that does not resolve. */
  lemma {:induction false} BindReportsEachFailure(e: ExpressionSyntax, ru: UnaryResolver, rb: BinaryResolver)
    requires Bindable(e)
    ensures |Bind(e, ru, rb).diagnostics| == Failures(e, ru, rb)
  {
    match e
    case LiteralExpressionSyntax(_, _) =>
    case UnaryExpressionSyntax(_, operand) =>
      BindReportsEachFailure(operand, ru, rb);
      BindHasPredictedType(operand, ru, rb);
    case BinaryExpressionSyntax(left, _, right) =>
      BindReportsEachFailure(left, ru, rb);
      BindReportsEachFailure(right, ru, rb);
      BindHasPredictedType(left, ru, rb);
      BindHasPredictedType(right, ru, rb);
  }

  /** Binding never adds nodes: the bound tree is at most as large as the syntax tree. */
  lemma {:induction false} BindNeverGrows(e: ExpressionSyntax, ru: UnaryResolver, rb: BinaryResolver)
    requires Bindable(e)
    ensures BoundSize(Bind(e, ru, rb).tree) <= Size(e)
  {
    match e
    case LiteralExpressionSyntax(_, _) =>
    case UnaryExpressionSyntax(_, operand) =>
      BindNeverGrows(operand, ru, rb);
    case BinaryExpressionSyntax(left, _, right) =>
      BindNeverGrows(left, ru, rb);
      BindNeverGrows(right, ru, rb);
  }

  /** Recovery discards nodes exactly when something was reported: the bound
      tree is as large as the syntax tree if and only if no diagnostic was added. */
  lemma {:induction false} BindKeepsShapeIffNoDiagnostics(e: ExpressionSyntax, ru: UnaryResolver, rb: BinaryResolver)
    requires Bindable(e)
    ensures var b := Bind(e, ru, rb); BoundSize(b.tree) == Size(e) <==> b.diagnostics == []
  {
    match e
    case LiteralExpressionSyntax(_, _) =>
    case UnaryExpressionSyntax(_, operand) =>
      BindKeepsShapeIffNoDiagnostics(operand, ru, rb);
      BindNeverGrows(operand, ru, rb);
    case BinaryExpressionSyntax(left, _, right) =>
      BindKeepsShapeIffNoDiagnostics(left, ru, rb);
      BindKeepsShapeIffNoDiagnostics(right, ru, rb);
      BindNeverGrows(left, ru, rb);
      BindNeverGrows(right, ru, rb);
  }

  /** Operator tables that are consistent: an operator found for some operand
      type(s) takes exactly those types. */
  ghost predicate ConsistentResolvers(ru: UnaryResolver, rb: BinaryResolver) {
    && (forall k, t :: ru(k, t).Some? ==> ru(k, t).value.operandType == t)
    && (forall k, tl, tr :: rb(k, tl, tr).Some? ==>
          rb(k, tl, tr).value.leftType == tl && rb(k, tl, tr).value.rightType == tr)
  }

  /** A bound tree in which every operator is applied to operands of the types it takes. */
  predicate WellTyped(b: BoundExpression) {
    match b
    case BoundLiteralExpression(_) => true
    case BoundUnaryExpression(op, operand) =>
      op.operandType == operand.Type() && WellTyped(operand)
    case BoundBinaryExpression(left, op, right) =>
      op.leftType == left.Type() && op.rightType == right.Type() && WellTyped(left) && WellTyped(right)
  }

  /** With consistent operator tables, binding always yields a well-typed tree,
      whatever it had to discard on the way. */
  lemma {:induction false} BindIsWellTyped(e: ExpressionSyntax, ru: UnaryResolver, rb: BinaryResolver)
    requires Bindable(e) && ConsistentResolvers(ru, rb)
    ensures WellTyped(Bind(e, ru, rb).tree)
  {
    match e
    case LiteralExpressionSyntax(_, _) =>
    case UnaryExpressionSyntax(_, operand) =>
      BindIsWellTyped(operand, ru, rb);
    case BinaryExpressionSyntax(left, _, right) =>
      BindIsWellTyped(left, ru, rb);
      BindIsWellTyped(right, ru, rb);
  }

  /** `1 + true` when `+` is not defined for Int32 and Boolean: one diagnostic,
      and the result is the bound left operand, the literal 1. */
  lemma UndefinedBinaryKeepsLeft(plus: SyntaxToken, one: SyntaxToken, t: SyntaxToken,
                                 ru: UnaryResolver, rb: BinaryResolver)
    requires plus.kind == PlusToken && plus.text == "+"
    requires rb(PlusToken, Int32Type, BooleanType).None?
    ensures var e := BinaryExpressionSyntax(LiteralExpressionSyntax(one, Some(IntValue(1))), plus,
                                            LiteralExpressionSyntax(t, Some(BoolValue(true))));
      Bindable(e) && Bind(e, ru, rb) == Bound(BoundLiteralExpression(IntValue(1)),
                                              [UndefinedBinaryOperator("+", Int32Type, BooleanType)])
  {
    assert Bindable(LiteralExpressionSyntax(one, Some(IntValue(1))));
    assert Bindable(LiteralExpressionSyntax(t, Some(BoolValue(true))));
  }

  /** `!5` when `!` is not defined for Int32: one diagnostic naming `!` and
      Int32, and the result is the bound literal 5. */
  lemma UndefinedUnaryKeepsOperand(bang: SyntaxToken, five: SyntaxToken, ru: UnaryResolver, rb: BinaryResolver)
    requires bang.kind == BangToken && bang.text == "!"
    requires ru(BangToken, Int32Type).None?
    ensures var e := UnaryExpressionSyntax(bang, LiteralExpressionSyntax(five, Some(IntValue(5))));
      Bind(e, ru, rb) == Bound(BoundLiteralExpression(IntValue(5)), [UndefinedUnaryOperator("!", Int32Type)])
  {
  }

  /** The binder object: it owns the list of diagnostics it has reported so far. */
  class Binder {
    const resolveUnary: UnaryResolver
    const resolveBinary: BinaryResolver
    var diagnostics: seq<Diagnostic>

    constructor (resolveUnary: UnaryResolver, resolveBinary: BinaryResolver)
      ensures this.resolveUnary == resolveUnary && this.resolveBinary == resolveBinary
      ensures diagnostics == []
    {
      this.resolveUnary := resolveUnary;
      this.resolveBinary := resolveBinary;
      diagnostics := [];
    }

    /** Binds any literal, unary or binary tree; earlier diagnostics stay as
        they were and the new ones are appended after them. */
    method BindExpression(syntax: ExpressionSyntax) returns (r: BoundExpression)
      requires Bindable(syntax)
      modifies this
      ensures var b := Bind(syntax, resolveUnary, resolveBinary);
        r == b.tree && diagnostics == old(diagnostics) + b.diagnostics
      decreases syntax, 1
    {
      match syntax
      case LiteralExpressionSyntax(_, _) =>
        r := BindLiteralExpression(syntax);
      case UnaryExpressionSyntax(_, _) =>
        r := BindUnaryExpression(syntax);
      case BinaryExpressionSyntax(_, _, _) =>
        r := BindBinaryExpression(syntax);
    }

    /** Binds the operand, then resolves the operator against its type. If that
        fails, one diagnostic is appended and the bound operand is the result. */
    method BindUnaryExpression(syntax: ExpressionSyntax) returns (r: BoundExpression)
      requires syntax.UnaryExpressionSyntax? && Bindable(syntax)
      modifies this
      ensures var operand := Bind(syntax.operand, resolveUnary, resolveBinary);
        var t := operand.tree.Type();
        match resolveUnary(syntax.operatorToken.kind, t)
        case None =>
          r == operand.tree
          && diagnostics == old(diagnostics) + operand.diagnostics
                              + [UndefinedUnaryOperator(syntax.operatorToken.text, t)]
        case Some(op) =>
          r == BoundUnaryExpression(op, operand.tree)
          && diagnostics == old(diagnostics) + operand.diagnostics
      decreases syntax, 0
    {
      var boundOperand := BindExpression(syntax.operand);
      var boundOperator := resolveUnary(syntax.operatorToken.kind, boundOperand.Type());

      if boundOperator.None? {
        diagnostics := diagnostics + [UndefinedUnaryOperator(syntax.operatorToken.text, boundOperand.Type())];
        return boundOperand;
      }

      return BoundUnaryExpression(boundOperator.value, boundOperand);
    }

    /** Binds the left operand, then the right, then resolves the operator
        against both types. If that fails, one diagnostic is appended and the
        bound left operand is the result; the right operand is dropped. */
    method BindBinaryExpression(syntax: ExpressionSyntax) returns (r: BoundExpression)
      requires syntax.BinaryExpressionSyntax? && Bindable(syntax)
      modifies this
      ensures var left := Bind(syntax.left, resolveUnary, resolveBinary);
        var right := Bind(syntax.right, resolveUnary, resolveBinary);
        var tl, tr := left.tree.Type(), right.tree.Type();
        match resolveBinary(syntax.operationToken.kind, tl, tr)
        case None =>
          r == left.tree
          && diagnostics == old(diagnostics) + left.diagnostics + right.diagnostics
                              + [UndefinedBinaryOperator(syntax.operationToken.text, tl, tr)]
        case Some(op) =>
          r == BoundBinaryExpression(left.tree, op, right.tree)
          && diagnostics == old(diagnostics) + left.diagnostics + right.diagnostics
      decreases syntax, 0
    {
      var boundLeft := BindExpression(syntax.left);
      var boundRight := BindExpression(syntax.right);
      var boundOperator := resolveBinary(syntax.operationToken.kind, boundLeft.Type(), boundRight.Type());

      if boundOperator.None? {
        diagnostics := diagnostics
          + [UndefinedBinaryOperator(syntax.operationToken.text, boundLeft.Type(), boundRight.Type())];
        return boundLeft;
      }

      return BoundBinaryExpression(boundLeft, boundOperator.value, boundRight);
    }
  }
}

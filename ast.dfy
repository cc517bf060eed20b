/** The parsed-expression tree the transformer builds, and the errors it throws. */
module Ast {
  import opened Wrappers

  /** Schema of an unqualified call: "resolve later", distinct from the default schema. */
  const INVALID_SCHEMA: string := ""
  const DEFAULT_SCHEMA: string := "main"

  /** The expression types this core assigns (a subset of `ExpressionType`). */
  datatype ExpressionType =
    | Invalid
    | WindowAggregate
    | WindowRank
    | WindowRankDense
    | WindowNtile
    | WindowPercentRank
    | WindowCumeDist
    | WindowRowNumber
    | WindowFirstValue
    | WindowLastValue
    | WindowLead
    | WindowLag
    | OperatorCoalesce

  datatype WindowBoundary =
    | Invalid
    | UnboundedPreceding
    | UnboundedFollowing
    | CurrentRowRange
    | CurrentRowRows
    | ExprPreceding
    | ExprFollowing

  datatype OrderByNode = OrderByNode(descending: bool, nullsFirst: bool, expression: ParsedExpression)

  datatype CaseCheck = CaseCheck(whenExpr: ParsedExpression, thenExpr: ParsedExpression)

  /** `location` is `None` where the source leaves `query_location` at its default. */
  datatype ParsedExpression =
    | Other(id: nat)  // an expression kind only the sibling transformers build
    | Function(
        schema: string,
        name: string,
        children: seq<ParsedExpression>,
        filter: Option<ParsedExpression>,
        distinct: bool,
        location: Option<int>)
    | Window(
        kind: ExpressionType,
        schema: string,
        name: string,
        children: seq<ParsedExpression>,
        partitions: seq<ParsedExpression>,
        orders: seq<OrderByNode>,
        start: WindowBoundary,
        end: WindowBoundary,
        startExpr: Option<ParsedExpression>,
        endExpr: Option<ParsedExpression>,
        offsetExpr: Option<ParsedExpression>,
        defaultExpr: Option<ParsedExpression>)
    | Case(checks: seq<CaseCheck>, elseExpr: ParsedExpression)
    | Operator(op: ExpressionType, children: seq<ParsedExpression>)

  /** An exception raised inside a sibling transformer, passed through unchanged. */
  datatype SiblingFailure = SiblingFailure(code: nat)

  datatype Error =
    | AggregateOrderBy                   // "ORDER BY is not implemented for aggregates"
    | DistinctWindow                     // "DISTINCT is not implemented for window functions!"
    | UnknownWindowFunction              // "Unknown/unsupported window function"
    | WindowChildrenFailed               // "Failed to transform window function children"
    | WindowDoesNotExist(window: string) // "window \"%s\" does not exist"
    | NonsensicalFrame                   // unbounded following start / unbounded preceding end
    | BoundaryExpressionMissing          // "Failed to transform window boundary expression"
    | WrongArgumentsToIf
    | WrongArgumentsToIfNull
    | UnknownSQLValueFunction(code: int)
    | Propagated(failure: SiblingFailure)
}

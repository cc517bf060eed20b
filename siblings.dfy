/** The sibling transformers this core calls but does not define. They are arbitrary
    functions: every property proved here holds whatever they compute. */
module Siblings {
  import opened Wrappers
  import opened Syntax
  import opened Ast

  /** What `TransformExpressionList` leaves behind: its boolean result and the
      expressions it appended to the output vector. */
  datatype ListResult = ListResult(ok: bool, items: seq<ParsedExpression>)

  datatype Siblings = Siblings(
    expression: RawNode -> Result<ParsedExpression, SiblingFailure>,
    expressionList: seq<RawNode> -> Result<ListResult, SiblingFailure>,
    orderBy: seq<RawNode> -> Result<seq<OrderByNode>, SiblingFailure>)

  /** `TransformExpression` on a non-null node. */
  function Expression(s: Siblings, node: RawNode): Result<ParsedExpression, Error>
  {
    match s.expression(node)
    case Success(e) => Success(e)
    case Failure(f) => Failure(Propagated(f))
  }

  /** `TransformExpression` on a possibly-null node: null in, null out. */
  function OptionalExpression(s: Siblings, node: Option<RawNode>): Result<Option<ParsedExpression>, Error>
  {
    match node
    case None => Success(None)
    case Some(n) =>
      match s.expression(n)
      case Success(e) => Success(Some(e))
      case Failure(f) => Failure(Propagated(f))
  }

  function ExpressionList(s: Siblings, list: seq<RawNode>): Result<ListResult, Error>
  {
    match s.expressionList(list)
    case Success(r) => Success(r)
    case Failure(f) => Failure(Propagated(f))
  }

  function OrderBy(s: Siblings, list: seq<RawNode>): Result<seq<OrderByNode>, Error>
  {
    match s.orderBy(list)
    case Success(r) => Success(r)
    case Failure(f) => Failure(Propagated(f))
  }
}

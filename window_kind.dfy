/** Classification of a lower-cased function name called with OVER. */
module WindowKind {
  import opened Ast

  /** The expression types a window expression can carry. */
  predicate IsWindowKind(t: ExpressionType)
  {
    t != ExpressionType.Invalid && t != OperatorCoalesce
  }

  /** The names with a dedicated window-function kind, aliases included. */
  const WindowFunctions: map<string, ExpressionType> := map[
    "rank" := WindowRank,
    "rank_dense" := WindowRankDense,
    "dense_rank" := WindowRankDense,
    "percent_rank" := WindowPercentRank,
    "row_number" := WindowRowNumber,
    "first_value" := WindowFirstValue,
    "first" := WindowFirstValue,
    "last_value" := WindowLastValue,
    "last" := WindowLastValue,
    "cume_dist" := WindowCumeDist,
    "lead" := WindowLead,
    "lag" := WindowLag,
    "ntile" := WindowNtile]

  /** `WindowToExpressionType`: never INVALID, so every name is accepted. */
  function WindowToExpressionType(funName: string): (r: ExpressionType)
    ensures IsWindowKind(r)
  {
    if funName == "rank" then WindowRank
    else if funName == "rank_dense" || funName == "dense_rank" then WindowRankDense
    else if funName == "percent_rank" then WindowPercentRank
    else if funName == "row_number" then WindowRowNumber
    else if funName == "first_value" || funName == "first" then WindowFirstValue
    else if funName == "last_value" || funName == "last" then WindowLastValue
    else if funName == "cume_dist" then WindowCumeDist
    else if funName == "lead" then WindowLead
    else if funName == "lag" then WindowLag
    else if funName == "ntile" then WindowNtile
    else WindowAggregate
  }

  /** The if-chain is the lookup table with WINDOW_AGGREGATE as its fall-back. */
  lemma ClassifiedByTable(funName: string)
    ensures WindowToExpressionType(funName) ==
              if funName in WindowFunctions then WindowFunctions[funName] else WindowAggregate
  {
  }

  /** Exactly the names outside the table are window aggregates (sum, avg, ...). */
  lemma AggregateIffNotInTable(funName: string)
    ensures WindowToExpressionType(funName) == WindowAggregate <==> funName !in WindowFunctions
  {
    ClassifiedByTable(funName);
  }

  lemma AliasesClassifyAlike()
    ensures WindowToExpressionType("dense_rank") == WindowToExpressionType("rank_dense") == WindowRankDense
    ensures WindowToExpressionType("first") == WindowToExpressionType("first_value") == WindowFirstValue
    ensures WindowToExpressionType("last") == WindowToExpressionType("last_value") == WindowLastValue
  {
  }
}

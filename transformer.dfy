/** The transformer's imperative side: the window expression it fills in field by field and
    the function-call entry point. */
module Transform {
  import opened Wrappers
  import opened Strings
  import opened Syntax
  import opened Ast
  import opened Siblings
  import opened WindowKind
  import opened Frame
  import opened WindowSpec
  import opened FunctionCall

  /** A snapshot of every field of a window expression under construction. */
  datatype WindowState = WindowState(
    kind: ExpressionType,
    schema: string,
    functionName: string,
    children: seq<ParsedExpression>,
    partitions: seq<ParsedExpression>,
    orders: seq<OrderByNode>,
    start: WindowBoundary,
    end: WindowBoundary,
    startExpr: Option<ParsedExpression>,
    endExpr: Option<ParsedExpression>,
    offsetExpr: Option<ParsedExpression>,
    defaultExpr: Option<ParsedExpression>)
  {
    function Expression(): ParsedExpression
    {
      Window(kind, schema, functionName, children, partitions, orders, start, end,
             startExpr, endExpr, offsetExpr, defaultExpr)
    }
  }

  /** A `WindowExpression` under construction. */
  class WindowExpression {
    var kind: ExpressionType
    var schema: string
    var functionName: string
    var children: seq<ParsedExpression>
    var partitions: seq<ParsedExpression>
    var orders: seq<OrderByNode>
    var start: WindowBoundary
    var end: WindowBoundary
    var startExpr: Option<ParsedExpression>
    var endExpr: Option<ParsedExpression>
    var offsetExpr: Option<ParsedExpression>
    var defaultExpr: Option<ParsedExpression>

    /** A new window expression has no children, partitions or orders, no optional
        expressions and both boundaries INVALID. */
    constructor (kind: ExpressionType, schema: string, functionName: string)
      ensures State() == WindowState(kind, schema, functionName, [], [], [],
                                     WindowBoundary.Invalid, WindowBoundary.Invalid, None, None, None, None)
    {
      this.kind, this.schema, this.functionName := kind, schema, functionName;
      children, partitions, orders := [], [], [];
      start, end := WindowBoundary.Invalid, WindowBoundary.Invalid;
      startExpr, endExpr, offsetExpr, defaultExpr := None, None, None, None;
    }

    function State(): WindowState
      reads this
    {
      WindowState(kind, schema, functionName, children, partitions, orders, start, end,
                  startExpr, endExpr, offsetExpr, defaultExpr)
    }
  }

  class Transformer {
    /** The named windows of the current statement, keyed by lower-cased name; read-only here. */
    const windowClauses: map<string, WindowDef>
    const siblings: Siblings

    constructor (windowClauses: map<string, WindowDef>, siblings: Siblings)
      ensures this.windowClauses == windowClauses && this.siblings == siblings
    {
      this.windowClauses := windowClauses;
      this.siblings := siblings;
    }

    /** Appends the window's partition and order lists to `expr`; nothing else changes. */
    method TransformWindowDef(windowSpec: WindowDef, expr: WindowExpression) returns (o: Outcome<Error>)
      modifies expr
      ensures match WindowDefinition(siblings, windowSpec)
              case Failure(e) => o == Fail(e)
              case Success(d) =>
                o == Pass &&
                expr.State() == old(expr.State()).(partitions := old(expr.partitions) + d.partitions,
                                                   orders := old(expr.orders) + d.orders)
    {
      var parts := ExpressionList(siblings, windowSpec.partitionClause);
      if parts.Failure? {
        return Fail(parts.error);
      }
      expr.partitions := expr.partitions + parts.value.items;
      var orders := OrderBy(siblings, windowSpec.orderClause);
      if orders.Failure? {
        return Fail(orders.error);
      }
      expr.orders := expr.orders + orders.value;
      o := Pass;
    }

    /** The two cascades of the frame decoder: each boundary is assigned by the first of its
        bits that is set; when none is, the field keeps its value. */
    method AssignBoundaries(f: set<FrameOption>, expr: WindowExpression)
      modifies expr
      ensures expr.State() == old(expr.State()).(start := Overwrite(StartBoundary(f), old(expr.start)),
                                                 end := Overwrite(EndBoundary(f), old(expr.end)))
    {
      if StartUnboundedPreceding in f {
        expr.start := UnboundedPreceding;
      } else if StartUnboundedFollowing in f {
        expr.start := UnboundedFollowing;
      } else if StartValuePreceding in f {
        expr.start := ExprPreceding;
      } else if StartValueFollowing in f {
        expr.start := ExprFollowing;
      } else if StartCurrentRow in f && Range in f {
        expr.start := CurrentRowRange;
      } else if StartCurrentRow in f && Rows in f {
        expr.start := CurrentRowRows;
      }

      if EndUnboundedPreceding in f {
        expr.end := UnboundedPreceding;
      } else if EndUnboundedFollowing in f {
        expr.end := UnboundedFollowing;
      } else if EndValuePreceding in f {
        expr.end := ExprPreceding;
      } else if EndValueFollowing in f {
        expr.end := ExprFollowing;
      } else if EndCurrentRow in f && Range in f {
        expr.end := CurrentRowRange;
      } else if EndCurrentRow in f && Rows in f {
        expr.end := CurrentRowRows;
      }
    }

    /** Sets both offset expressions, then, unless the bits are nonsensical, each boundary
        whose cascade matches a bit, and finally rejects an EXPR_PRECEDING boundary without
        an offset expression. */
    method TransformWindowFrame(windowSpec: WindowDef, expr: WindowExpression) returns (o: Outcome<Error>)
      modifies expr
      ensures var f := windowSpec.frameOptions;
              var so := OptionalExpression(siblings, windowSpec.startOffset);
              var eo := OptionalExpression(siblings, windowSpec.endOffset);
              if so.Failure? then o == Fail(so.error)
              else if eo.Failure? then o == Fail(eo.error)
              else if Nonsensical(f) then o == Fail(NonsensicalFrame)
              else
                var st := Overwrite(StartBoundary(f), old(expr.start));
                var en := Overwrite(EndBoundary(f), old(expr.end));
                expr.State() == old(expr.State()).(start := st, end := en,
                                                   startExpr := so.value, endExpr := eo.value) &&
                o == if MissingOffset(st, so.value) || MissingOffset(en, eo.value)
                     then Fail(BoundaryExpressionMissing) else Pass
      ensures old(expr.start) == WindowBoundary.Invalid && old(expr.end) == WindowBoundary.Invalid ==>
                match DecodeFrame(siblings, windowSpec)
                case Failure(e) => o == Fail(e)
                case Success(w) =>
                  o == Pass &&
                  expr.State() == old(expr.State()).(start := w.start, end := w.end,
                                                     startExpr := w.startExpr, endExpr := w.endExpr)
    {
      DecodeFrameOutcome(siblings, windowSpec);
      var startOffset := OptionalExpression(siblings, windowSpec.startOffset);
      if startOffset.Failure? {
        return Fail(startOffset.error);
      }
      expr.startExpr := startOffset.value;
      var endOffset := OptionalExpression(siblings, windowSpec.endOffset);
      if endOffset.Failure? {
        return Fail(endOffset.error);
      }
      expr.endExpr := endOffset.value;

      var f := windowSpec.frameOptions;
      if EndUnboundedPreceding in f || StartUnboundedFollowing in f {
        return Fail(NonsensicalFrame);
      }

      AssignBoundaries(f, expr);

      if ((expr.start == ExprPreceding || expr.start == ExprPreceding) && expr.startExpr.None?) ||
         ((expr.end == ExprPreceding || expr.end == ExprPreceding) && expr.endExpr.None?) {
        return Fail(BoundaryExpressionMissing);
      }
      o := Pass;
    }

    /** `TransformFuncCall`: the expression `CallExpression` describes, or its error. */
    method TransformFuncCall(root: FuncCall) returns (r: Result<ParsedExpression, Error>)
      requires |root.funcname| >= 1
      ensures r == CallExpression(windowClauses, siblings, root)
    {
      var schema, functionName;
      if |root.funcname| == 2 {
        schema, functionName := root.funcname[0], root.funcname[1];
      } else {
        schema, functionName := INVALID_SCHEMA, root.funcname[0];
      }
      var lowercaseName := Lower(functionName);

      if |root.aggOrder| > 0 {
        return Failure(AggregateOrderBy);
      }
      if root.over.Some? {
        r := TransformWindowCall(root, schema, lowercaseName);
      } else {
        r := TransformPlainCall(root, schema, lowercaseName);
      }
    }

    /** Stores a window call's transformed arguments: all of them as children for an
        aggregate, otherwise the first as the child, the second as the offset and the third
        as the default. */
    method PushWindowArguments(kind: ExpressionType, functionList: seq<ParsedExpression>, expr: WindowExpression)
      modifies expr
      ensures var w := DistributeArguments(kind, functionList);
              expr.State() == old(expr.State()).(
                children := old(expr.children) + w.children,
                offsetExpr := if w.offsetExpr.Some? then w.offsetExpr else old(expr.offsetExpr),
                defaultExpr := if w.defaultExpr.Some? then w.defaultExpr else old(expr.defaultExpr))
    {
      if kind == WindowAggregate {
        ghost var initial := expr.State();
        var i := 0;
        while i < |functionList|
          invariant 0 <= i <= |functionList|
          invariant expr.State() == initial.(children := initial.children + functionList[..i])
        {
          expr.children := expr.children + [functionList[i]];
          i := i + 1;
        }
        assert functionList[..i] == functionList;
      } else {
        if |functionList| > 0 {
          expr.children := expr.children + [functionList[0]];
        }
        if |functionList| > 1 {
          expr.offsetExpr := Some(functionList[1]);
        }
        if |functionList| > 2 {
          expr.defaultExpr := Some(functionList[2]);
        }
      }
    }

    /** The OVER path of `TransformFuncCall`. */
    method TransformWindowCall(root: FuncCall, schema: string, lowercaseName: string)
      returns (r: Result<ParsedExpression, Error>)
      requires root.over.Some?
      ensures r == WindowCall(windowClauses, siblings, root, schema, lowercaseName)
    {
      if root.aggDistinct {
        return Failure(DistinctWindow);
      }
      var winFunType := WindowToExpressionType(lowercaseName);
      if winFunType == ExpressionType.Invalid {
        return Failure(UnknownWindowFunction);
      }
      var expr := new WindowExpression(winFunType, schema, lowercaseName);

      if |root.args| > 0 {
        var res := ExpressionList(siblings, root.args);
        if res.Failure? {
          return Failure(res.error);
        }
        if !res.value.ok {
          return Failure(WindowChildrenFailed);
        }
        PushWindowArguments(winFunType, res.value.items, expr);
      }
      ghost var wargs := WindowArguments(siblings, winFunType, root.args).value;
      assert expr.State() == WindowState(winFunType, schema, lowercaseName, wargs.children, [], [],
                                    WindowBoundary.Invalid, WindowBoundary.Invalid, None, None,
                                    wargs.offsetExpr, wargs.defaultExpr);

      var resolved := ResolveWindowSpec(root.over.value);
      if resolved.Failure? {
        return Failure(resolved.error);
      }
      var windowSpec, windowRef := resolved.value.frameSource, resolved.value.orderSource;
      ghost var defs := WindowDefinition(siblings, windowRef);
      ghost var frame := DecodeFrame(siblings, windowSpec);

      var o := TransformWindowDef(windowRef, expr);
      if o.Fail? {
        return Failure(o.error);
      }
      assert defs.Success?;
      assert expr.State() == WindowState(winFunType, schema, lowercaseName, wargs.children,
                                         defs.value.partitions, defs.value.orders,
                                         WindowBoundary.Invalid, WindowBoundary.Invalid, None, None,
                                         wargs.offsetExpr, wargs.defaultExpr);
      o := TransformWindowFrame(windowSpec, expr);
      DecodeFrameOutcome(siblings, windowSpec);
      if o.Fail? {
        return Failure(o.error);
      }
      assert frame.Success?;
      return Success(expr.State().Expression());
    }

    /** Resolves the OVER clause: the window it names (or the clause itself) gives the frame,
        and that window's reference (or the window itself) gives partitions and orders. */
    method ResolveWindowSpec(over: WindowDef) returns (r: Result<ResolvedWindow, Error>)
      ensures r == ResolveWindow(windowClauses, over)
    {
      var windowSpec := over;
      if windowSpec.name.Some? {
        var key := Lower(windowSpec.name.value);
        if key !in windowClauses {
          return Failure(WindowDoesNotExist(windowSpec.name.value));
        }
        windowSpec := windowClauses[key];
      }
      var windowRef := windowSpec;
      if windowRef.refname.Some? {
        var key := Lower(windowSpec.refname.value);
        if key !in windowClauses {
          return Failure(WindowDoesNotExist(windowSpec.refname.value));
        }
        windowRef := windowClauses[key];
      }
      r := Success(ResolvedWindow(windowSpec, windowRef));
    }

    /** The path of `TransformFuncCall` without OVER. */
    method TransformPlainCall(root: FuncCall, schema: string, name: string)
      returns (r: Result<ParsedExpression, Error>)
      ensures r == PlainCall(siblings, root, schema, name)
    {
      var children: seq<ParsedExpression> := [];
      var i := 0;
      while i < |root.args|
        invariant 0 <= i <= |root.args|
        invariant TransformAll(siblings, root.args[..i]) == Success(children)
      {
        var childExpr := Expression(siblings, root.args[i]);
        assert root.args[..i + 1][..i] == root.args[..i];
        if childExpr.Failure? {
          TransformAllPrefixFailure(siblings, root.args, i + 1);
          return Failure(childExpr.error);
        }
        children := children + [childExpr.value];
        i := i + 1;
      }
      assert root.args[..i] == root.args;

      var filterExpr: Option<ParsedExpression> := None;
      if root.aggFilter.Some? {
        var filter := Expression(siblings, root.aggFilter.value);
        if filter.Failure? {
          return Failure(filter.error);
        }
        filterExpr := Some(filter.value);
      }

      var lowercaseName := name;
      if lowercaseName == "count" && |children| == 0 {
        lowercaseName := "count_star";
      }

      if lowercaseName == "if" {
        if |children| != 3 {
          return Failure(WrongArgumentsToIf);
        }
        var check := CaseCheck(children[0], children[1]);
        return Success(Case([check], children[2]));
      } else if lowercaseName == "ifnull" {
        if |children| != 2 {
          return Failure(WrongArgumentsToIfNull);
        }
        return Success(Operator(OperatorCoalesce, [children[0], children[1]]));
      }

      r := Success(Function(schema, lowercaseName, children, filterExpr, root.aggDistinct, Some(root.location)));
    }
  }
}

/** What `TransformFuncCall` computes, as functions, and the properties proved about it. */
module FunctionCall {
  import opened Wrappers
  import opened Strings
  import opened Syntax
  import opened Ast
  import opened Siblings
  import opened WindowKind
  import opened Frame
  import opened WindowSpec

  /** (schema, function name) from the name path: a two-part path is schema-qualified; any
      other path gives the unresolved schema and its first element. */
  function SplitName(funcname: seq<string>): (string, string)
    requires |funcname| >= 1
  {
    if |funcname| == 2 then (funcname[0], funcname[1]) else (INVALID_SCHEMA, funcname[0])
  }

  // ----- Transforming every argument of a plain call, left to right.

  function TransformAll(s: Siblings, nodes: seq<RawNode>): Result<seq<ParsedExpression>, Error>
    decreases |nodes|
  {
    if nodes == [] then Success([])
    else
      var prefix :- TransformAll(s, nodes[..|nodes| - 1]);
      var last :- Expression(s, nodes[|nodes| - 1]);
      Success(prefix + [last])
  }

  /** On success, argument k is transformed into child k. */
  lemma {:induction false} TransformAllSuccess(s: Siblings, nodes: seq<RawNode>, children: seq<ParsedExpression>)
    requires TransformAll(s, nodes) == Success(children)
    ensures |children| == |nodes|
    ensures forall k :: 0 <= k < |nodes| ==> Expression(s, nodes[k]) == Success(children[k])
  {
    if nodes != [] {
      var n := |nodes| - 1;
      var prefix := TransformAll(s, nodes[..n]).value;
      assert children == prefix + [Expression(s, nodes[n]).value];
      TransformAllSuccess(s, nodes[..n], prefix);
      assert forall k :: 0 <= k < n ==> nodes[..n][k] == nodes[k];
    }
  }

  /** The transform succeeds exactly when every argument does. */
  lemma {:induction false} TransformAllSucceedsIff(s: Siblings, nodes: seq<RawNode>)
    ensures TransformAll(s, nodes).Success? <==> forall k :: 0 <= k < |nodes| ==> Expression(s, nodes[k]).Success?
  {
    if nodes != [] {
      var n := |nodes| - 1;
      TransformAllSucceedsIff(s, nodes[..n]);
      assert forall k :: 0 <= k < n ==> nodes[..n][k] == nodes[k];
    }
  }

  /** A failure reports the error of the first argument that fails. */
  lemma {:induction false} TransformAllFirstError(s: Siblings, nodes: seq<RawNode>, k: nat)
    requires k < |nodes| && Expression(s, nodes[k]).Failure?
    requires forall j :: 0 <= j < k ==> Expression(s, nodes[j]).Success?
    ensures TransformAll(s, nodes) == Failure(Expression(s, nodes[k]).error)
  {
    var n := |nodes| - 1;
    assert forall j :: 0 <= j < n ==> nodes[..n][j] == nodes[j];
    if k < n {
      TransformAllFirstError(s, nodes[..n], k);
    } else {
      TransformAllSucceedsIff(s, nodes[..n]);
    }
  }

  /** A failing prefix decides the result for every extension. */
  lemma {:induction false} TransformAllPrefixFailure(s: Siblings, nodes: seq<RawNode>, i: nat)
    requires i <= |nodes| && TransformAll(s, nodes[..i]).Failure?
    ensures TransformAll(s, nodes) == TransformAll(s, nodes[..i])
  {
    if i < |nodes| {
      var n := |nodes| - 1;
      assert nodes[..n][..i] == nodes[..i];
      TransformAllPrefixFailure(s, nodes[..n], i);
    } else {
      assert nodes[..i] == nodes;
    }
  }

  // ----- Window arguments.

  datatype WindowArgs = WindowArgs(
    children: seq<ParsedExpression>,
    offsetExpr: Option<ParsedExpression>,
    defaultExpr: Option<ParsedExpression>)

  /** How a window call's transformed argument list is stored. */
  function DistributeArguments(kind: ExpressionType, list: seq<ParsedExpression>): WindowArgs
  {
    if kind == WindowAggregate then WindowArgs(list, None, None)
    else
      WindowArgs(
        if |list| > 0 then [list[0]] else [],
        if |list| > 1 then Some(list[1]) else None,
        if |list| > 2 then Some(list[2]) else None)
  }

  function OptionToSeq(o: Option<ParsedExpression>): seq<ParsedExpression>
  {
    if o.Some? then [o.value] else []
  }

  /** The stored arguments in order: children, then offset, then default. */
  function Flatten(w: WindowArgs): seq<ParsedExpression>
  {
    w.children + OptionToSeq(w.offsetExpr) + OptionToSeq(w.defaultExpr)
  }

  /** The debug assertions on window arguments: more than one argument only for LEAD/LAG,
      and at most three. */
  predicate ArgumentsWellFormed(kind: ExpressionType, list: seq<ParsedExpression>)
  {
    kind == WindowAggregate || (|list| <= 3 && (|list| > 1 ==> kind == WindowLead || kind == WindowLag))
  }

  /** Distribution keeps every argument in order, except that a non-aggregate window keeps only
      the first three; offset and default are only ever filled for a non-aggregate. */
  lemma DistributionRoundTrip(kind: ExpressionType, list: seq<ParsedExpression>)
    ensures kind == WindowAggregate ==> Flatten(DistributeArguments(kind, list)) == list
    ensures kind != WindowAggregate ==>
              Flatten(DistributeArguments(kind, list)) == list[..if |list| < 3 then |list| else 3]
    ensures ArgumentsWellFormed(kind, list) ==> Flatten(DistributeArguments(kind, list)) == list
    ensures kind != WindowAggregate ==>
              var w := DistributeArguments(kind, list);
              |w.children| == (if |list| > 0 then 1 else 0) &&
              (w.offsetExpr.Some? <==> |list| > 1) && (w.defaultExpr.Some? <==> |list| > 2)
    ensures kind == WindowAggregate ==>
              DistributeArguments(kind, list).offsetExpr.None? && DistributeArguments(kind, list).defaultExpr.None?
    ensures ArgumentsWellFormed(kind, list) && DistributeArguments(kind, list).offsetExpr.Some? ==>
              kind == WindowLead || kind == WindowLag
    ensures ArgumentsWellFormed(kind, list) && DistributeArguments(kind, list).defaultExpr.Some? ==>
              kind == WindowLead || kind == WindowLag
  {
    var w := DistributeArguments(kind, list);
    if kind != WindowAggregate {
      if |list| == 0 { assert Flatten(w) == []; }
      else if |list| == 1 { assert Flatten(w) == [list[0]]; }
      else if |list| == 2 { assert Flatten(w) == [list[0], list[1]]; }
      else { assert Flatten(w) == [list[0], list[1], list[2]]; }
    }
  }

  /** The window call's arguments: absent arguments give no children; otherwise the list
      transform must succeed. */
  function WindowArguments(s: Siblings, kind: ExpressionType, args: seq<RawNode>): Result<WindowArgs, Error>
  {
    if |args| == 0 then Success(WindowArgs([], None, None))
    else
      var res :- ExpressionList(s, args);
      if !res.ok then Failure(WindowChildrenFailed)
      else Success(DistributeArguments(kind, res.items))
  }

  // ----- The two paths and the entry point.

  /** The OVER path. */
  function WindowCall(clauses: map<string, WindowDef>, s: Siblings, root: FuncCall,
                      schema: string, name: string): Result<ParsedExpression, Error>
    requires root.over.Some?
  {
    if root.aggDistinct then Failure(DistinctWindow)
    else
      var kind := WindowToExpressionType(name);
      if kind == ExpressionType.Invalid then Failure(UnknownWindowFunction)
      else
        var wargs :- WindowArguments(s, kind, root.args);
        var rw :- ResolveWindow(clauses, root.over.value);
        var def :- WindowDefinition(s, rw.orderSource);
        var frame :- DecodeFrame(s, rw.frameSource);
        Success(Window(kind, schema, name, wargs.children, def.partitions, def.orders,
                       frame.start, frame.end, frame.startExpr, frame.endExpr,
                       wargs.offsetExpr, wargs.defaultExpr))
  }

  /** The name after the bare-COUNT rewrite. */
  function RewrittenName(name: string, argumentCount: nat): string
  {
    if name == "count" && argumentCount == 0 then "count_star" else name
  }

  /** The path without OVER: arguments, then FILTER, then the sugar rewrites, then the
      generic function expression. */
  function PlainCall(s: Siblings, root: FuncCall, schema: string, name: string): Result<ParsedExpression, Error>
  {
    var children :- TransformAll(s, root.args);
    var filter :- OptionalExpression(s, root.aggFilter);
    var name' := RewrittenName(name, |children|);
    if name' == "if" then
      if |children| != 3 then Failure(WrongArgumentsToIf)
      else Success(Case([CaseCheck(children[0], children[1])], children[2]))
    else if name' == "ifnull" then
      if |children| != 2 then Failure(WrongArgumentsToIfNull)
      else Success(Operator(OperatorCoalesce, [children[0], children[1]]))
    else
      Success(Function(schema, name', children, filter, root.aggDistinct, Some(root.location)))
  }

  /** `TransformFuncCall`. */
  function CallExpression(clauses: map<string, WindowDef>, s: Siblings, root: FuncCall): Result<ParsedExpression, Error>
    requires |root.funcname| >= 1
  {
    var (schema, functionName) := SplitName(root.funcname);
    var name := Lower(functionName);
    if |root.aggOrder| > 0 then Failure(AggregateOrderBy)
    else if root.over.Some? then WindowCall(clauses, s, root, schema, name)
    else PlainCall(s, root, schema, name)
  }

  // ----- Properties of the entry point.

  /** An aggregate ORDER BY is rejected before anything else is looked at. */
  lemma OrderByGateFirst(clauses: map<string, WindowDef>, s: Siblings, root: FuncCall)
    requires |root.funcname| >= 1 && |root.aggOrder| > 0
    ensures CallExpression(clauses, s, root) == Failure(AggregateOrderBy)
  {
  }

  /** DISTINCT with OVER is rejected before the arguments are transformed. */
  lemma DistinctWindowRejected(clauses: map<string, WindowDef>, s: Siblings, root: FuncCall)
    requires |root.funcname| >= 1 && |root.aggOrder| == 0
    requires root.over.Some? && root.aggDistinct
    ensures CallExpression(clauses, s, root) == Failure(DistinctWindow)
  {
  }

  lemma {:induction false} TransformAllErrorsPropagated(s: Siblings, nodes: seq<RawNode>)
    ensures TransformAll(s, nodes).Failure? ==> TransformAll(s, nodes).error.Propagated?
  {
    if nodes != [] {
      TransformAllErrorsPropagated(s, nodes[..|nodes| - 1]);
    }
  }

  lemma WindowCallErrors(clauses: map<string, WindowDef>, s: Siblings, root: FuncCall, schema: string, name: string)
    requires root.over.Some?
    ensures WindowCall(clauses, s, root, schema, name).Failure? ==>
              var e := WindowCall(clauses, s, root, schema, name).error;
              !e.UnknownWindowFunction? && !e.UnknownSQLValueFunction?
  {
    var kind := WindowToExpressionType(name);
    assert kind != ExpressionType.Invalid;
  }

  lemma PlainCallErrors(s: Siblings, root: FuncCall, schema: string, name: string)
    ensures PlainCall(s, root, schema, name).Failure? ==>
              var e := PlainCall(s, root, schema, name).error;
              !e.UnknownWindowFunction? && !e.UnknownSQLValueFunction?
  {
    TransformAllErrorsPropagated(s, root.args);
  }

  /** The "Unknown/unsupported window function" error is never raised (the classifier never
      answers INVALID), nor is the SQL-value-function error. */
  lemma UnreachableErrors(clauses: map<string, WindowDef>, s: Siblings, root: FuncCall)
    requires |root.funcname| >= 1
    ensures CallExpression(clauses, s, root) != Failure(UnknownWindowFunction)
    ensures CallExpression(clauses, s, root).Failure? ==>
              !CallExpression(clauses, s, root).error.UnknownSQLValueFunction?
  {
    var (schema, functionName) := SplitName(root.funcname);
    if |root.aggOrder| == 0 {
      if root.over.Some? {
        WindowCallErrors(clauses, s, root, schema, Lower(functionName));
      } else {
        PlainCallErrors(s, root, schema, Lower(functionName));
      }
    }
  }

  /** The shape of a successful OVER call: its kind, schema and name, its arguments as
      distributed from the list transform, its partitions and orders from the window that
      `ResolveWindow` picks for them and its frame from the window it picks for the frame. */
  lemma WindowResult(clauses: map<string, WindowDef>, s: Siblings, root: FuncCall, w: ParsedExpression)
    requires |root.funcname| >= 1 && root.over.Some?
    requires CallExpression(clauses, s, root) == Success(w)
    ensures w.Window? && |root.aggOrder| == 0 && !root.aggDistinct
    ensures w.kind == WindowToExpressionType(Lower(SplitName(root.funcname).1))
    ensures w.schema == SplitName(root.funcname).0 && w.name == Lower(SplitName(root.funcname).1)
    ensures |root.args| == 0 ==> w.children == [] && w.offsetExpr.None? && w.defaultExpr.None?
    ensures |root.args| > 0 ==>
              ExpressionList(s, root.args).Success? && ExpressionList(s, root.args).value.ok &&
              DistributeArguments(w.kind, ExpressionList(s, root.args).value.items) ==
                WindowArgs(w.children, w.offsetExpr, w.defaultExpr)
    ensures ResolveWindow(clauses, root.over.value).Success?
    ensures var rw := ResolveWindow(clauses, root.over.value).value;
            WindowDefinition(s, rw.orderSource) == Success(Definition(w.partitions, w.orders)) &&
            DecodeFrame(s, rw.frameSource) == Success(WindowFrame(w.start, w.end, w.startExpr, w.endExpr))
  {
  }

  /** LEAD or LAG with three arguments: the first is the only child, the second the offset and
      the third the default. */
  lemma LeadLagArguments(clauses: map<string, WindowDef>, s: Siblings, root: FuncCall,
                         items: seq<ParsedExpression>, w: ParsedExpression)
    requires |root.funcname| >= 1 && root.over.Some?
    requires Lower(SplitName(root.funcname).1) == "lead" || Lower(SplitName(root.funcname).1) == "lag"
    requires |root.args| > 0 && ExpressionList(s, root.args) == Success(ListResult(true, items))
    requires |items| == 3
    requires CallExpression(clauses, s, root) == Success(w)
    ensures w.Window? && (w.kind == WindowLead || w.kind == WindowLag)
    ensures w.children == [items[0]] && w.offsetExpr == Some(items[1]) && w.defaultExpr == Some(items[2])
  {
    WindowResult(clauses, s, root, w);
  }

  /** OVER a, with a declared as referencing b: partitions and orders are b's, the frame is a's. */
  lemma CallDivergentInheritance(clauses: map<string, WindowDef>, s: Siblings, root: FuncCall,
                                 a: string, b: string, w: ParsedExpression)
    requires |root.funcname| >= 1 && root.over.Some? && root.over.value.name == Some(a)
    requires Lower(a) in clauses && clauses[Lower(a)].refname == Some(b) && Lower(b) in clauses
    requires CallExpression(clauses, s, root) == Success(w)
    ensures w.Window?
    ensures WindowDefinition(s, clauses[Lower(b)]) == Success(Definition(w.partitions, w.orders))
    ensures DecodeFrame(s, clauses[Lower(a)]) == Success(WindowFrame(w.start, w.end, w.startExpr, w.endExpr))
  {
    WindowResult(clauses, s, root, w);
    DivergentInheritance(clauses, root.over.value, a, b);
  }

  /** A window call whose argument-list transform reports failure throws before the OVER
      clause is resolved. */
  lemma WindowChildrenFailure(clauses: map<string, WindowDef>, s: Siblings, root: FuncCall,
                              items: seq<ParsedExpression>)
    requires |root.funcname| >= 1 && |root.aggOrder| == 0 && !root.aggDistinct && root.over.Some?
    requires |root.args| > 0 && ExpressionList(s, root.args) == Success(ListResult(false, items))
    ensures CallExpression(clauses, s, root) == Failure(WindowChildrenFailed)
  {
  }

  /** OVER naming an undeclared window fails with that name, once the arguments are transformed. */
  lemma MissingWindowReported(clauses: map<string, WindowDef>, s: Siblings, root: FuncCall, a: string)
    requires |root.funcname| >= 1 && |root.aggOrder| == 0 && !root.aggDistinct
    requires root.over.Some? && root.over.value.name == Some(a) && Lower(a) !in clauses
    requires |root.args| == 0 || (ExpressionList(s, root.args).Success? && ExpressionList(s, root.args).value.ok)
    ensures CallExpression(clauses, s, root) == Failure(WindowDoesNotExist(a))
  {
  }

  /** A bare COUNT without arguments becomes the generic function count_star. */
  lemma CountStar(clauses: map<string, WindowDef>, s: Siblings, root: FuncCall, filter: Option<ParsedExpression>)
    requires |root.funcname| >= 1 && |root.aggOrder| == 0 && root.over.None?
    requires Lower(SplitName(root.funcname).1) == "count" && root.args == []
    requires OptionalExpression(s, root.aggFilter) == Success(filter)
    ensures CallExpression(clauses, s, root) ==
              Success(Function(SplitName(root.funcname).0, "count_star", [], filter,
                               root.aggDistinct, Some(root.location)))
  {
  }

  /** IF(c, t, e) becomes CASE WHEN c THEN t ELSE e END; any other argument count fails.
      The filter and DISTINCT are dropped. */
  lemma IfRewrite(clauses: map<string, WindowDef>, s: Siblings, root: FuncCall, children: seq<ParsedExpression>)
    requires |root.funcname| >= 1 && |root.aggOrder| == 0 && root.over.None?
    requires Lower(SplitName(root.funcname).1) == "if"
    requires TransformAll(s, root.args) == Success(children)
    requires OptionalExpression(s, root.aggFilter).Success?
    ensures |children| == |root.args|
    ensures CallExpression(clauses, s, root) ==
              if |root.args| == 3 then Success(Case([CaseCheck(children[0], children[1])], children[2]))
              else Failure(WrongArgumentsToIf)
  {
    TransformAllSuccess(s, root.args, children);
  }

  /** IFNULL(a, b) becomes COALESCE over [a, b]; any other argument count fails. */
  lemma IfNullRewrite(clauses: map<string, WindowDef>, s: Siblings, root: FuncCall, children: seq<ParsedExpression>)
    requires |root.funcname| >= 1 && |root.aggOrder| == 0 && root.over.None?
    requires Lower(SplitName(root.funcname).1) == "ifnull"
    requires TransformAll(s, root.args) == Success(children)
    requires OptionalExpression(s, root.aggFilter).Success?
    ensures |children| == |root.args|
    ensures CallExpression(clauses, s, root) ==
              if |root.args| == 2 then Success(Operator(OperatorCoalesce, [children[0], children[1]]))
              else Failure(WrongArgumentsToIfNull)
  {
    TransformAllSuccess(s, root.args, children);
  }

  /** The window path only builds window expressions. */
  lemma WindowCallIsWindow(clauses: map<string, WindowDef>, s: Siblings, root: FuncCall,
                           schema: string, name: string)
    requires root.over.Some?
    ensures WindowCall(clauses, s, root, schema, name).Success? ==>
              WindowCall(clauses, s, root, schema, name).value.Window?
  {
  }

  lemma RewrittenNameFacts(name: string, n: nat)
    requires IsLower(name)
    ensures IsLower(RewrittenName(name, n))
    ensures RewrittenName(name, n) == "count" ==> n > 0
  {
    if name == "count" && n == 0 {
      assert RewrittenName(name, n) == "count_star";
    }
  }

  lemma PlainCallFunction(s: Siblings, root: FuncCall, schema: string, name: string, f: ParsedExpression)
    requires IsLower(name)
    requires PlainCall(s, root, schema, name) == Success(f) && f.Function?
    ensures f.schema == schema && f.name == RewrittenName(name, |root.args|) && IsLower(f.name)
    ensures |f.children| == |root.args|
    ensures forall k :: 0 <= k < |root.args| ==> Expression(s, root.args[k]) == Success(f.children[k])
    ensures OptionalExpression(s, root.aggFilter) == Success(f.filter)
    ensures f.distinct == root.aggDistinct && f.location == Some(root.location)
    ensures f.name != "if" && f.name != "ifnull" && (f.name == "count" ==> |f.children| > 0)
  {
    var children := TransformAll(s, root.args).value;
    TransformAllSuccess(s, root.args, children);
    RewrittenNameFacts(name, |children|);
  }

  /** What a generic function expression carries: the schema of the name path, the lower-cased
      (possibly count_star) name, the arguments transformed in order, the filter, the DISTINCT
      flag and the source location. It is never named if or ifnull, nor a zero-argument count. */
  lemma GenericFunction(clauses: map<string, WindowDef>, s: Siblings, root: FuncCall, f: ParsedExpression)
    requires |root.funcname| >= 1
    requires CallExpression(clauses, s, root) == Success(f) && f.Function?
    ensures root.over.None? && |root.aggOrder| == 0
    ensures f.schema == SplitName(root.funcname).0
    ensures f.name == RewrittenName(Lower(SplitName(root.funcname).1), |root.args|) && IsLower(f.name)
    ensures |f.children| == |root.args|
    ensures forall k :: 0 <= k < |root.args| ==> Expression(s, root.args[k]) == Success(f.children[k])
    ensures OptionalExpression(s, root.aggFilter) == Success(f.filter)
    ensures f.distinct == root.aggDistinct && f.location == Some(root.location)
    ensures f.name != "if" && f.name != "ifnull" && (f.name == "count" ==> |f.children| > 0)
  {
    var (schema, functionName) := SplitName(root.funcname);
    var name := Lower(functionName);
    LowerIsLower(functionName);
    if root.over.Some? {
      WindowCallIsWindow(clauses, s, root, schema, name);
    }
    assert PlainCall(s, root, schema, name) == Success(f);
    PlainCallFunction(s, root, schema, name, f);
  }

  /** An unqualified (or more than two-part) name keeps the unresolved schema, never the default one. */
  lemma UnqualifiedSchema(clauses: map<string, WindowDef>, s: Siblings, root: FuncCall, e: ParsedExpression)
    requires |root.funcname| >= 1 && |root.funcname| != 2
    requires CallExpression(clauses, s, root) == Success(e) && (e.Function? || e.Window?)
    ensures e.schema == INVALID_SCHEMA && e.schema != DEFAULT_SCHEMA
  {
  }

  /** Without OVER, the first argument that fails to transform decides the error, before the
      filter and before any argument-count check. */
  lemma PlainErrorPrecedence(clauses: map<string, WindowDef>, s: Siblings, root: FuncCall, k: nat)
    requires |root.funcname| >= 1 && |root.aggOrder| == 0 && root.over.None?
    requires k < |root.args| && Expression(s, root.args[k]).Failure?
    requires forall j :: 0 <= j < k ==> Expression(s, root.args[j]).Success?
    ensures CallExpression(clauses, s, root) == Failure(Expression(s, root.args[k]).error)
  {
    TransformAllFirstError(s, root.args, k);
  }

  /** The function name is matched case-insensitively: two calls whose names lower-case alike
      (with the same schema part) transform alike. */
  lemma NameCaseInsensitive(clauses: map<string, WindowDef>, s: Siblings, root: FuncCall, funcname: seq<string>)
    requires |root.funcname| >= 1 && |funcname| == |root.funcname|
    requires SplitName(funcname).0 == SplitName(root.funcname).0
    requires Lower(SplitName(funcname).1) == Lower(SplitName(root.funcname).1)
    ensures CallExpression(clauses, s, root.(funcname := funcname)) == CallExpression(clauses, s, root)
  {
  }
}

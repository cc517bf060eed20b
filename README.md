# Function-call transformation of a SQL parser, modelled in Dafny

This project models the part of DuckDB's parser transformer that turns one grammar node for a
SQL function call into a parsed-expression node. It covers `src/parser/transform/expression/transform_function.cpp`:

- the window-kind classifier (`WindowToExpressionType`);
- the frame decoder (`TransformWindowFrame`), which turns frame-option bits and optional offsets
  into a start and an end `WindowBoundary`;
- named-window resolution and the partition/order lists (`TransformWindowDef`);
- the entry point `TransformFuncCall`, which handles name splitting, the ORDER BY and DISTINCT
  gates, window arguments, the sugar rewrites `count` to `count_star`, `if` to CASE and `ifnull`
  to COALESCE, and the generic function expression;
- the SQL value functions (`SQLValueOpToString`, `TransformSQLValueFunction`).

## Layout

| file | module | what it holds |
|---|---|---|
| wrappers.dfy | `Wrappers` | `Option`, `Result` (for thrown exceptions), `Outcome` |
| strings.dfy | `Strings` | ASCII `Lower`, the model of `StringUtil::Lower` |
| syntax.dfy | `Syntax` | the raw grammar nodes: `FuncCall`, `WindowDef`, `FrameOption`, `SQLValueFunction` |
| ast.dfy | `Ast` | `ParsedExpression` (function, window, case and operator nodes), `WindowBoundary`, `ExpressionType`, `Error` |
| siblings.dfy | `Siblings` | the sibling transformers, as function values |
| window_kind.dfy | `WindowKind` | the classifier and its reference table |
| frame.dfy | `Frame` | the boundary cascades, `DecodeFrame` and a rule-list reference definition |
| window_spec.dfy | `WindowSpec` | `LookupWindow`, `ResolveWindow`, `WindowDefinition` |
| function_call.dfy | `FunctionCall` | `CallExpression`, the functional specification of `TransformFuncCall`, with its lemmas |
| sql_value.dfy | `SqlValue` | the SQL value function mapper and its inverse |
| transformer.dfy | `Transform` | class `WindowExpression` (the node filled in field by field) and class `Transformer` (its methods) |

The pure parts of the source are Dafny functions: the classifier's if-chain, the SQL value
switch, and the frame cascades as `StartBoundary`/`EndBoundary`. The parts that work by updating
state are methods of class `Transformer`:

- `TransformWindowFrame`, `AssignBoundaries` and `TransformWindowDef` assign the fields of a
  `WindowExpression` object.
- `TransformFuncCall`, with its two paths `TransformWindowCall` and `TransformPlainCall`, loops
  over the arguments.

Each method's contract ties its result or its new state to a specification function:

- `TransformFuncCall`, `TransformWindowCall`, `TransformPlainCall` and `ResolveWindowSpec` are
  proved equal to `CallExpression`, `WindowCall`, `PlainCall` and `ResolveWindow`.
- `TransformWindowDef` is tied to `WindowDefinition`.
- `PushWindowArguments` is tied to `DistributeArguments`.
- `AssignBoundaries` is tied to the cascades `StartBoundary` and `EndBoundary`.
- `TransformWindowFrame` is tied to the cascades for any prior state. On an expression whose
  boundaries are still INVALID, as a new one's are, it is tied to `DecodeFrame`.

The lemmas state the source's promises about those functions.

The sibling transformers (`TransformExpression`, `TransformExpressionList`, `TransformOrderBy`)
are not part of this model. A `Siblings` value stands for them: three arbitrary total functions
that return a value or a `SiblingFailure`. Every lemma holds for every choice of them.

- A null node passed to `TransformExpression` gives null (`OptionalExpression`).
- `TransformExpressionList` reports a success flag and the expressions it appended.
- The core passes a sibling's failure on unchanged, as `Error.Propagated`.

The named-window table `window_clauses` is a field `windowClauses: map<string, WindowDef>` of the
transformer, keyed by lower-cased name. No method here writes it. Every result is a function of
the call node, the table and the siblings. Transforming the same node twice therefore gives the
same expression.

Three details of the code are modelled as written:

- The check after decoding (lines 96-99) compares the boundary with EXPR_PRECEDING twice. So an
  EXPR_FOLLOWING boundary without an offset expression is accepted, with a null offset.
  `Frame.MissingOffset` keeps the comparison as written, and `Frame.FollowingOffsetNotRequired`
  proves the consequence.
- A name path of any length other than two, including three parts, gives `INVALID_SCHEMA` and
  the path's first element as the function name (lines 107-116).
- The boolean result of the partition-list transform is ignored (line 45). Whatever it appended
  is kept (`WindowSpec.DefinitionIgnoresListFlag`).

## Model

| member | source | states |
|---|---|---|
| `Strings.Lower` | src/parser/transform/expression/transform_function.cpp:118 | the lower-cased name has the same length and lower-cases each ASCII letter in place, leaving other characters alone |
| `Strings.LowerIdempotent` | src/parser/transform/expression/transform_function.cpp:163 | lower-casing an already lower-cased name changes nothing, so lower-cased keys are found by lower-cased lookups |
| `WindowKind.WindowToExpressionType` | src/parser/transform/expression/transform_function.cpp:14-38 | the kind is always a window kind, never INVALID |
| `WindowKind.ClassifiedByTable` | src/parser/transform/expression/transform_function.cpp:14-38 | the if-chain agrees with the fixed name-to-kind table, and any name outside it gives WINDOW_AGGREGATE |
| `WindowKind.AggregateIffNotInTable` | src/parser/transform/expression/transform_function.cpp:37 | a name gives WINDOW_AGGREGATE exactly when it is not in the table |
| `WindowKind.AliasesClassifyAlike` | src/parser/transform/expression/transform_function.cpp:17-26 | dense_rank/rank_dense, first/first_value and last/last_value classify alike |
| `FunctionCall.UnreachableErrors` | src/parser/transform/expression/transform_function.cpp:129-132 | no call ever fails with "Unknown/unsupported window function" (nor with the SQL-value-function error) |
| `Frame.StartIsFirstMatch` | src/parser/transform/expression/transform_function.cpp:63-77 | the start boundary is the first rule that fires in the order unbounded preceding, unbounded following, value preceding, value following, current row + RANGE, current row + ROWS; INVALID if none fires |
| `Frame.EndIsFirstMatch` | src/parser/transform/expression/transform_function.cpp:79-93 | the same priority list decides the end boundary from the END_* bits |
| `Frame.DecodedIndependently` | src/parser/transform/expression/transform_function.cpp:63-93 | the start depends only on START_* and mode bits, the end only on END_* and mode bits |
| `Frame.WellFormedIff` | src/parser/transform/expression/transform_function.cpp:95 | the debug assertion (both boundaries set) holds exactly when some start rule and some end rule fire |
| `Frame.OffsetFailuresFirst` | src/parser/transform/expression/transform_function.cpp:54-55 | a failing start offset decides the error whatever the frame bits, then a failing end offset |
| `Frame.MissingPrecedingOffsetRejected` | src/parser/transform/expression/transform_function.cpp:96-100 | a sensible frame with an EXPR_PRECEDING boundary and no offset for it, on either side, fails with the boundary-expression error |
| `Frame.DecodeSucceedsIff` | src/parser/transform/expression/transform_function.cpp:54-101 | decoding succeeds exactly when both offsets transform, neither nonsensical bit is set and every EXPR_PRECEDING boundary has its offset |
| `Frame.NonsensicalAlwaysRejected` | src/parser/transform/expression/transform_function.cpp:57-61 | END_UNBOUNDED_PRECEDING or START_UNBOUNDED_FOLLOWING rejects the frame whatever the other bits are |
| `Frame.DecodedFrameFacts` | src/parser/transform/expression/transform_function.cpp:54-101 | on success the start is never UNBOUNDED_FOLLOWING and the end never UNBOUNDED_PRECEDING; an EXPR_PRECEDING boundary has its offset; both offsets are always transformed from the spec's offsets (null exactly when absent); boundaries are set exactly when the assertion's condition holds |
| `Frame.FollowingOffsetNotRequired` | src/parser/transform/expression/transform_function.cpp:96-101 | as written, EXPR_FOLLOWING boundaries without offset expressions are accepted with null offsets |
| `Frame.UnboundedFrame` | src/parser/transform/expression/transform_function.cpp:63-82 | UNBOUNDED PRECEDING to UNBOUNDED FOLLOWING decodes to that pair with no offsets required |
| `WindowSpec.LookupIgnoresCase` | src/parser/transform/expression/transform_function.cpp:163 | two window names that lower-case alike find the same declared window |
| `WindowSpec.LookupMiss` | src/parser/transform/expression/transform_function.cpp:163-166 | a lookup fails exactly when the lower-cased name is undeclared, reporting the name in its original case |
| `WindowSpec.ResolvedViews` | src/parser/transform/expression/transform_function.cpp:161-178 | the frame comes from the window named in OVER (or OVER itself), partitions and orders from its reference (or itself); a reference's own reference is never followed |
| `WindowSpec.DivergentInheritance` | src/parser/transform/expression/transform_function.cpp:167-178 | OVER a with a referencing b resolves to frame source a and partition/order source b |
| `WindowSpec.ResolveFailures` | src/parser/transform/expression/transform_function.cpp:162-175 | an undeclared OVER name fails with that name before the reference is looked at; an undeclared reference fails with the reference's name |
| `WindowSpec.DefinitionIgnoresListFlag` | src/parser/transform/expression/transform_function.cpp:40-47 | the partition list is what the list transform appended even when it reports failure, and the orders are the ORDER BY transform's |
| `FunctionCall.TransformAllSuccess` | src/parser/transform/expression/transform_function.cpp:186-192 | on success there is one child per argument and child k is argument k transformed |
| `FunctionCall.TransformAllSucceedsIff` | src/parser/transform/expression/transform_function.cpp:186-192 | the argument loop succeeds exactly when every argument transforms |
| `FunctionCall.TransformAllFirstError` | src/parser/transform/expression/transform_function.cpp:188-191 | the loop fails with the error of the first argument that fails |
| `FunctionCall.TransformAllPrefixFailure` | src/parser/transform/expression/transform_function.cpp:188-191 | once a prefix of the arguments fails, the remaining arguments do not change the outcome |
| `FunctionCall.DistributionRoundTrip` | src/parser/transform/expression/transform_function.cpp:142-159 | aggregates keep all arguments as children in order, with no offset or default; other kinds keep at most one child (argument 0), an offset exactly when there are two or more arguments (argument 1) and a default exactly when there are three or more (argument 2), dropping the rest; under the debug assertions nothing is dropped and only LEAD/LAG get an offset or a default |
| `FunctionCall.LeadLagArguments` | src/parser/transform/expression/transform_function.cpp:147-157 | a successful LEAD/LAG call whose three arguments transform to a0, a1, a2 has children [a0], offset a1 and default a2 |
| `FunctionCall.OrderByGateFirst` | src/parser/transform/expression/transform_function.cpp:120-122 | an aggregate ORDER BY fails the call before any other check |
| `FunctionCall.DistinctWindowRejected` | src/parser/transform/expression/transform_function.cpp:124-127 | OVER together with DISTINCT fails |
| `FunctionCall.WindowResult` | src/parser/transform/expression/transform_function.cpp:124-183 | a successful OVER call yields a window expression with the classified kind, the split schema, the lower-cased name, the distributed arguments (none without arguments), partitions/orders from the reference view and the frame from the named view |
| `FunctionCall.CallDivergentInheritance` | src/parser/transform/expression/transform_function.cpp:161-180 | OVER a, a referencing b: partitions and orders are b's, the frame bits and offsets are a's |
| `FunctionCall.WindowChildrenFailure` | src/parser/transform/expression/transform_function.cpp:136-141 | a window argument list whose transform reports failure makes the call fail |
| `FunctionCall.MissingWindowReported` | src/parser/transform/expression/transform_function.cpp:162-166 | OVER naming an undeclared window fails with "window does not exist" carrying that name |
| `FunctionCall.RewrittenNameFacts` | src/parser/transform/expression/transform_function.cpp:199-201 | the rewritten name stays lower case and is "count" only with arguments |
| `FunctionCall.CountStar` | src/parser/transform/expression/transform_function.cpp:198-201 | count without arguments and without OVER becomes the generic function count_star with no children |
| `FunctionCall.IfRewrite` | src/parser/transform/expression/transform_function.cpp:203-214 | if with exactly 3 arguments becomes a CASE with one check (when argument 0, then argument 1) and else argument 2; any other count fails |
| `FunctionCall.IfNullRewrite` | src/parser/transform/expression/transform_function.cpp:216-226 | ifnull with exactly 2 arguments becomes COALESCE over [argument 0, argument 1]; any other count fails |
| `FunctionCall.GenericFunction` | src/parser/transform/expression/transform_function.cpp:104-231 | a generic result carries the split schema, the lower-cased (possibly count_star) name, the arguments in order, the filter, the DISTINCT flag and the location, and is never named if/ifnull nor a zero-argument count |
| `FunctionCall.UnqualifiedSchema` | src/parser/transform/expression/transform_function.cpp:111-116 | a name path that is not two parts long gives INVALID_SCHEMA, never DEFAULT_SCHEMA |
| `FunctionCall.PlainErrorPrecedence` | src/parser/transform/expression/transform_function.cpp:186-196 | without OVER the first failing argument decides the error, before the filter and before any argument-count check |
| `FunctionCall.NameCaseInsensitive` | src/parser/transform/expression/transform_function.cpp:118 | names that lower-case alike (same schema part) transform alike |
| `SqlValue.UnknownCodesFail` | src/parser/transform/expression/transform_function.cpp:266-267 | exactly the codes outside the 15 listed operations throw, with the code |
| `SqlValue.NamesRoundTrip` | src/parser/transform/expression/transform_function.cpp:234-265 | the name determines the operation back (inverse table) |
| `SqlValue.NamesLowerCase` | src/parser/transform/expression/transform_function.cpp:234-265 | every mapped name is lower case |
| `SqlValue.NamesDistinct` | src/parser/transform/expression/transform_function.cpp:234-265 | no two operations share a name |
| `SqlValue.SQLValueFunctionResult` | src/parser/transform/expression/transform_function.cpp:271-278 | null gives null; an unknown code fails; otherwise a zero-argument function in DEFAULT_SCHEMA, without filter or DISTINCT, whose name maps back to the operation |
| `Transform.WindowExpression.constructor` | src/parser/transform/expression/transform_function.cpp:134 | a new window expression carries kind, schema and name, is otherwise empty and has both boundaries INVALID |
| `Transform.Transformer.TransformWindowDef` | src/parser/transform/expression/transform_function.cpp:40-47 | appends the partition and order lists of the reference window and changes nothing else, or fails as the siblings do |
| `Transform.Transformer.AssignBoundaries` | src/parser/transform/expression/transform_function.cpp:63-93 | each boundary field is assigned by its cascade, and keeps its value when no bit matches |
| `Transform.Transformer.TransformWindowFrame` | src/parser/transform/expression/transform_function.cpp:49-102 | sets both offset expressions, rejects nonsensical bits, assigns the decoded boundaries and rejects a missing EXPR_PRECEDING offset; nothing else changes; on an expression with INVALID boundaries the outcome and new frame fields are exactly `DecodeFrame`'s |
| `Transform.Transformer.PushWindowArguments` | src/parser/transform/expression/transform_function.cpp:142-159 | appends the distributed children and sets offset/default as distributed, by a loop for aggregates |
| `Transform.Transformer.ResolveWindowSpec` | src/parser/transform/expression/transform_function.cpp:161-178 | computes exactly `ResolveWindow` on the transformer's window table |
| `Transform.Transformer.TransformWindowCall` | src/parser/transform/expression/transform_function.cpp:124-183 | the OVER path builds exactly the window expression (or error) `WindowCall` describes |
| `Transform.Transformer.TransformPlainCall` | src/parser/transform/expression/transform_function.cpp:185-231 | the path without OVER loops over the arguments and yields exactly `PlainCall`'s result |
| `Transform.Transformer.TransformFuncCall` | src/parser/transform/expression/transform_function.cpp:104-232 | the transformer returns exactly `CallExpression` of its window table, its siblings and the call node |

## Left out

- libpgquery's raw structures are not modelled. `PGList` traversal, `reinterpret_cast` to `PGValue`
  and the numeric values of `FRAMEOPTION_*` and `PG_SVFOP_*` come from headers that are not part
  of this model. Lists are sequences (NIL is the empty sequence), frame options are a set of
  tags, and an operation code outside the enumeration is `OtherOp(code)`.
- Frame-option bits the code never tests (BETWEEN, NONDEFAULT, ...) are not represented.
- The sibling transformers are arbitrary functions (see above). The model assumes that
  `TransformExpression` never returns null for a non-null node.
- `StringUtil::Lower` is ASCII-only. Unicode case mapping is out of scope.
- `unique_ptr`, `make_unique` and `move` are not modelled: results are immutable values.
- Exceptions are `Error` variants. Only the window name and the operation code of their messages
  are kept. Whether an error is a `ParserException` or a plain `Exception` is not modelled.
- The `D_ASSERT`s (lines 95, 151, 155 and 158) are debug-only. The model follows a build without
  them. Their conditions appear in lemmas: `FrameWellFormed` in an equivalence of `Frame.DecodedFrameFacts`
  and `ArgumentsWellFormed` as a premise in `FunctionCall.DistributionRoundTrip`.
- `INVALID_SCHEMA` (the empty string), `DEFAULT_SCHEMA` ("main") and the default field values of a
  new `WindowExpression` come from headers that are not part of this model. The lemmas rely only
  on `INVALID_SCHEMA != DEFAULT_SCHEMA`.
- `query_location` is modelled only where this code sets it: the generic function expression.
- Transform.Transformer.TransformWindowDef: its contract says nothing about `expr` after a
  failure, because a thrown exception discards the half-built expression.
- Transform.Transformer.TransformWindowFrame: its contract says nothing about `expr` after a
  failure, for the same reason.
- The recursion depth of nested expressions is not modelled: the recursion lives in the sibling
  transformers.

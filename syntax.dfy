/** The raw nodes the SQL grammar hands to the transformer (read-only here). */
module Syntax {
  import opened Wrappers

  /** A grammar node this core never inspects: it passes it to a sibling transformer
      (a function argument, a FILTER condition, a PARTITION BY or ORDER BY item, a frame offset). */
  datatype RawNode = RawNode(id: nat)

  /** The frame-option bits the decoder tests, one tag per `FRAMEOPTION_*` flag it reads. */
  datatype FrameOption =
    | Range
    | Rows
    | StartUnboundedPreceding
    | EndUnboundedPreceding
    | StartUnboundedFollowing
    | EndUnboundedFollowing
    | StartCurrentRow
    | EndCurrentRow
    | StartValuePreceding
    | EndValuePreceding
    | StartValueFollowing
    | EndValueFollowing

  /** A window specification (`PGWindowDef`): an empty list stands for the grammar's NIL list. */
  datatype WindowDef = WindowDef(
    name: Option<string>,
    refname: Option<string>,
    partitionClause: seq<RawNode>,
    orderClause: seq<RawNode>,
    frameOptions: set<FrameOption>,
    startOffset: Option<RawNode>,
    endOffset: Option<RawNode>)

  /** A function call (`PGFuncCall`): `funcname` is the dotted name path, `aggOrder` the
      ORDER BY inside an aggregate's parentheses, `over` the OVER clause. */
  datatype FuncCall = FuncCall(
    funcname: seq<string>,
    args: seq<RawNode>,
    aggOrder: seq<RawNode>,
    aggFilter: Option<RawNode>,
    aggDistinct: bool,
    over: Option<WindowDef>,
    location: int)

  /** The parameterless SQL value functions; `OtherOp` is any code outside the enumeration. */
  datatype SQLValueFunctionOp =
    | CurrentDate
    | CurrentTime
    | CurrentTimeN
    | CurrentTimestamp
    | CurrentTimestampN
    | LocalTime
    | LocalTimeN
    | LocalTimestamp
    | LocalTimestampN
    | CurrentRole
    | CurrentUser
    | User
    | SessionUser
    | CurrentCatalog
    | CurrentSchema
    | OtherOp(code: int)

  datatype SQLValueFunction = SQLValueFunction(op: SQLValueFunctionOp)
}

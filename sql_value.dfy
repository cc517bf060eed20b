/** SQL value functions (CURRENT_DATE, USER, ...) as zero-argument function expressions. */
module SqlValue {
  import opened Wrappers
  import opened Strings
  import opened Syntax
  import opened Ast

  /** `SQLValueOpToString`: the canonical name of each operation; unknown codes throw. */
  function SQLValueOpToString(op: SQLValueFunctionOp): Result<string, Error>
  {
    match op
    case CurrentDate => Success("current_date")
    case CurrentTime => Success("current_time")
    case CurrentTimeN => Success("current_time_n")
    case CurrentTimestamp => Success("current_timestamp")
    case CurrentTimestampN => Success("current_timestamp_n")
    case LocalTime => Success("current_localtime")
    case LocalTimeN => Success("current_localtime_n")
    case LocalTimestamp => Success("current_localtimestamp")
    case LocalTimestampN => Success("current_localtimestamp_n")
    case CurrentRole => Success("current_role")
    case CurrentUser => Success("current_user")
    case User => Success("user")
    case SessionUser => Success("session_user")
    case CurrentCatalog => Success("current_catalog")
    case CurrentSchema => Success("current_schema")
    case OtherOp(code) => Failure(UnknownSQLValueFunction(code))
  }

  /** The inverse of the name table. */
  function OpOfName(name: string): Option<SQLValueFunctionOp>
  {
    match name
    case "current_date" => Some(CurrentDate)
    case "current_time" => Some(CurrentTime)
    case "current_time_n" => Some(CurrentTimeN)
    case "current_timestamp" => Some(CurrentTimestamp)
    case "current_timestamp_n" => Some(CurrentTimestampN)
    case "current_localtime" => Some(LocalTime)
    case "current_localtime_n" => Some(LocalTimeN)
    case "current_localtimestamp" => Some(LocalTimestamp)
    case "current_localtimestamp_n" => Some(LocalTimestampN)
    case "current_role" => Some(CurrentRole)
    case "current_user" => Some(CurrentUser)
    case "user" => Some(User)
    case "session_user" => Some(SessionUser)
    case "current_catalog" => Some(CurrentCatalog)
    case "current_schema" => Some(CurrentSchema)
    case _ => None
  }

  /** Exactly the codes outside the enumeration fail, and the error carries the code. */
  lemma UnknownCodesFail(op: SQLValueFunctionOp)
    ensures op.OtherOp? <==> SQLValueOpToString(op).Failure?
    ensures op.OtherOp? ==> SQLValueOpToString(op) == Failure(UnknownSQLValueFunction(op.code))
  {
  }

  /** The name determines the operation: `OpOfName` undoes the table. */
  lemma NamesRoundTrip(op: SQLValueFunctionOp)
    ensures SQLValueOpToString(op).Success? ==> OpOfName(SQLValueOpToString(op).value) == Some(op)
  {
  }

  lemma NamesLowerCase(op: SQLValueFunctionOp)
    ensures SQLValueOpToString(op).Success? ==> IsLower(SQLValueOpToString(op).value)
  {
  }

  /** No two operations share a name. */
  lemma NamesDistinct(op1: SQLValueFunctionOp, op2: SQLValueFunctionOp)
    requires SQLValueOpToString(op1).Success? && SQLValueOpToString(op2).Success?
    requires SQLValueOpToString(op1) == SQLValueOpToString(op2)
    ensures op1 == op2
  {
    NamesRoundTrip(op1);
    NamesRoundTrip(op2);
  }

  /** `TransformSQLValueFunction`: null in, null out; otherwise a zero-argument call in the
      default schema. */
  function TransformSQLValueFunction(node: Option<SQLValueFunction>): Result<Option<ParsedExpression>, Error>
  {
    match node
    case None => Success(None)
    case Some(n) =>
      var fname :- SQLValueOpToString(n.op);
      Success(Some(Function(DEFAULT_SCHEMA, fname, [], None, false, None)))
  }

  /** The result is null exactly for a null node, an error exactly for an unknown code, and
      otherwise the function whose name maps back to the operation. */
  lemma SQLValueFunctionResult(node: Option<SQLValueFunction>)
    ensures node.None? ==> TransformSQLValueFunction(node) == Success(None)
    ensures node.Some? && node.value.op.OtherOp? ==>
              TransformSQLValueFunction(node) == Failure(UnknownSQLValueFunction(node.value.op.code))
    ensures node.Some? && !node.value.op.OtherOp? ==>
              TransformSQLValueFunction(node).Success? &&
              var r := TransformSQLValueFunction(node).value;
              r.Some? && r.value.Function? && r.value.schema == DEFAULT_SCHEMA &&
              r.value.children == [] && r.value.filter.None? && !r.value.distinct &&
              OpOfName(r.value.name) == Some(node.value.op)
  {
    if node.Some? {
      UnknownCodesFail(node.value.op);
      NamesRoundTrip(node.value.op);
    }
  }
}

/** Named-window resolution and the partition/order part of a window (`TransformWindowDef`). */
module WindowSpec {
  import opened Wrappers
  import opened Strings
  import opened Syntax
  import opened Ast
  import opened Siblings

  /** `window_clauses` lookup: keys are lower-cased names; a miss reports the name as written. */
  function LookupWindow(clauses: map<string, WindowDef>, name: string): Result<WindowDef, Error>
  {
    var key := Lower(name);
    if key in clauses then Success(clauses[key]) else Failure(WindowDoesNotExist(name))
  }

  /** The two views of an OVER clause: `window_spec` gives the frame, `window_ref` gives
      partitions and orders. */
  datatype ResolvedWindow = ResolvedWindow(frameSource: WindowDef, orderSource: WindowDef)

  function ResolveWindow(clauses: map<string, WindowDef>, over: WindowDef): Result<ResolvedWindow, Error>
  {
    var spec :- if over.name.Some? then LookupWindow(clauses, over.name.value) else Success(over);
    var ref :- if spec.refname.Some? then LookupWindow(clauses, spec.refname.value) else Success(spec);
    Success(ResolvedWindow(spec, ref))
  }

  /** The partition and order lists `TransformWindowDef` appends. */
  datatype Definition = Definition(partitions: seq<ParsedExpression>, orders: seq<OrderByNode>)

  function WindowDefinition(s: Siblings, spec: WindowDef): Result<Definition, Error>
  {
    var parts :- ExpressionList(s, spec.partitionClause);
    var orders :- OrderBy(s, spec.orderClause);
    Success(Definition(parts.items, orders))
  }

  /** Window names are matched case-insensitively. */
  lemma LookupIgnoresCase(clauses: map<string, WindowDef>, n1: string, n2: string)
    requires Lower(n1) == Lower(n2)
    ensures LookupWindow(clauses, n1).Success? == LookupWindow(clauses, n2).Success?
    ensures LookupWindow(clauses, n1).Success? ==> LookupWindow(clauses, n1) == LookupWindow(clauses, n2)
  {
  }

  /** A lookup fails exactly when the lower-cased name is not declared, and then names the
      window in its original case. */
  lemma LookupMiss(clauses: map<string, WindowDef>, name: string)
    ensures LookupWindow(clauses, name).Failure? <==> Lower(name) !in clauses
    ensures LookupWindow(clauses, name).Failure? ==>
              LookupWindow(clauses, name) == Failure(WindowDoesNotExist(name))
  {
  }

  /** Which windows a successful resolution picks: the frame comes from the window named in
      OVER (or the OVER clause itself), partitions and orders from that window's reference
      if it has one. The reference's own reference is never followed. */
  lemma ResolvedViews(clauses: map<string, WindowDef>, over: WindowDef, rw: ResolvedWindow)
    requires ResolveWindow(clauses, over) == Success(rw)
    ensures over.name.None? ==> rw.frameSource == over
    ensures over.name.Some? ==> Lower(over.name.value) in clauses &&
                                rw.frameSource == clauses[Lower(over.name.value)]
    ensures rw.frameSource.refname.None? ==> rw.orderSource == rw.frameSource
    ensures rw.frameSource.refname.Some? ==> Lower(rw.frameSource.refname.value) in clauses &&
                                             rw.orderSource == clauses[Lower(rw.frameSource.refname.value)]
  {
  }

  /** OVER a, where a is declared with reference b: frame from a, partitions and orders from b. */
  lemma DivergentInheritance(clauses: map<string, WindowDef>, over: WindowDef, a: string, b: string)
    requires over.name == Some(a) && Lower(a) in clauses
    requires clauses[Lower(a)].refname == Some(b) && Lower(b) in clauses
    ensures ResolveWindow(clauses, over) == Success(ResolvedWindow(clauses[Lower(a)], clauses[Lower(b)]))
  {
  }

  /** Resolution fails exactly on an undeclared name, checking the OVER name first and the
      reference second. */
  lemma ResolveFailures(clauses: map<string, WindowDef>, over: WindowDef)
    ensures over.name.Some? && Lower(over.name.value) !in clauses ==>
              ResolveWindow(clauses, over) == Failure(WindowDoesNotExist(over.name.value))
    ensures over.name.Some? && Lower(over.name.value) in clauses &&
            clauses[Lower(over.name.value)].refname.Some? &&
            Lower(clauses[Lower(over.name.value)].refname.value) !in clauses ==>
              ResolveWindow(clauses, over) ==
                Failure(WindowDoesNotExist(clauses[Lower(over.name.value)].refname.value))
    ensures over.name.None? && over.refname.Some? && Lower(over.refname.value) !in clauses ==>
              ResolveWindow(clauses, over) == Failure(WindowDoesNotExist(over.refname.value))
    ensures ResolveWindow(clauses, over).Failure? ==>
              (over.name.Some? && Lower(over.name.value) !in clauses) ||
              (over.name.Some? && Lower(over.name.value) in clauses &&
               clauses[Lower(over.name.value)].refname.Some? &&
               Lower(clauses[Lower(over.name.value)].refname.value) !in clauses) ||
              (over.name.None? && over.refname.Some? && Lower(over.refname.value) !in clauses)
  {
  }

  /** The boolean result of the partition-list transform is ignored: whatever it appended is kept. */
  lemma DefinitionIgnoresListFlag(s: Siblings, spec: WindowDef, flag: bool,
                                  items: seq<ParsedExpression>, orders: seq<OrderByNode>)
    requires ExpressionList(s, spec.partitionClause) == Success(ListResult(flag, items))
    requires OrderBy(s, spec.orderClause) == Success(orders)
    ensures WindowDefinition(s, spec) == Success(Definition(items, orders))
  {
  }
}

/** Decoding of a window frame: frame-option bits plus optional offsets to a pair of boundaries. */
module Frame {
  import opened Wrappers
  import opened Syntax
  import opened Ast
  import opened Siblings

  /** The start boundary: the first matching bit of the cascade wins; INVALID if none matches. */
  function StartBoundary(f: set<FrameOption>): WindowBoundary
  {
    if StartUnboundedPreceding in f then UnboundedPreceding
    else if StartUnboundedFollowing in f then UnboundedFollowing
    else if StartValuePreceding in f then ExprPreceding
    else if StartValueFollowing in f then ExprFollowing
    else if StartCurrentRow in f && Range in f then CurrentRowRange
    else if StartCurrentRow in f && Rows in f then CurrentRowRows
    else WindowBoundary.Invalid
  }

  /** The end boundary, decoded by the same cascade over the END_* bits. */
  function EndBoundary(f: set<FrameOption>): WindowBoundary
  {
    if EndUnboundedPreceding in f then UnboundedPreceding
    else if EndUnboundedFollowing in f then UnboundedFollowing
    else if EndValuePreceding in f then ExprPreceding
    else if EndValueFollowing in f then ExprFollowing
    else if EndCurrentRow in f && Range in f then CurrentRowRange
    else if EndCurrentRow in f && Rows in f then CurrentRowRows
    else WindowBoundary.Invalid
  }

  /** The combinations rejected before decoding: a frame ending in UNBOUNDED PRECEDING or
      starting with UNBOUNDED FOLLOWING. */
  predicate Nonsensical(f: set<FrameOption>)
  {
    EndUnboundedPreceding in f || StartUnboundedFollowing in f
  }

  /** The post-decoding rejection as the code writes it: EXPR_PRECEDING is compared twice, so
      an EXPR_FOLLOWING boundary without an offset expression is never rejected. */
  predicate MissingOffset(b: WindowBoundary, offset: Option<ParsedExpression>)
  {
    (b == ExprPreceding || b == ExprPreceding) && offset.None?
  }

  /** The condition the debug assertion after decoding checks: both boundaries were set. */
  predicate FrameWellFormed(f: set<FrameOption>)
  {
    StartBoundary(f) != WindowBoundary.Invalid && EndBoundary(f) != WindowBoundary.Invalid
  }

  /** A field assignment made only when a bit matched: otherwise the field keeps its value. */
  function Overwrite(decoded: WindowBoundary, previous: WindowBoundary): WindowBoundary
  {
    if decoded == WindowBoundary.Invalid then previous else decoded
  }

  datatype WindowFrame = WindowFrame(
    start: WindowBoundary,
    end: WindowBoundary,
    startExpr: Option<ParsedExpression>,
    endExpr: Option<ParsedExpression>)

  /** `TransformWindowFrame` on a freshly constructed window expression (both boundaries INVALID). */
  function DecodeFrame(s: Siblings, spec: WindowDef): Result<WindowFrame, Error>
  {
    var startExpr :- OptionalExpression(s, spec.startOffset);
    var endExpr :- OptionalExpression(s, spec.endOffset);
    var f := spec.frameOptions;
    if Nonsensical(f) then Failure(NonsensicalFrame)
    else
      var start := StartBoundary(f);
      var end := EndBoundary(f);
      if MissingOffset(start, startExpr) || MissingOffset(end, endExpr) then
        Failure(BoundaryExpressionMissing)
      else
        Success(WindowFrame(start, end, startExpr, endExpr))
  }

  // ----- An independent reference definition of the cascades: a priority list of rules.

  /** A rule fires when its bit is set and, for a current-row rule, its frame mode too. */
  datatype Rule = Rule(bit: FrameOption, mode: Option<FrameOption>, boundary: WindowBoundary)

  predicate Fires(r: Rule, f: set<FrameOption>)
  {
    r.bit in f && (r.mode.None? || r.mode.value in f)
  }

  function FirstMatch(rules: seq<Rule>, f: set<FrameOption>): WindowBoundary
  {
    if rules == [] then WindowBoundary.Invalid
    else if Fires(rules[0], f) then rules[0].boundary
    else FirstMatch(rules[1..], f)
  }

  const StartRules: seq<Rule> := [
    Rule(StartUnboundedPreceding, None, UnboundedPreceding),
    Rule(StartUnboundedFollowing, None, UnboundedFollowing),
    Rule(StartValuePreceding, None, ExprPreceding),
    Rule(StartValueFollowing, None, ExprFollowing),
    Rule(StartCurrentRow, Some(Range), CurrentRowRange),
    Rule(StartCurrentRow, Some(Rows), CurrentRowRows)]

  const EndRules: seq<Rule> := [
    Rule(EndUnboundedPreceding, None, UnboundedPreceding),
    Rule(EndUnboundedFollowing, None, UnboundedFollowing),
    Rule(EndValuePreceding, None, ExprPreceding),
    Rule(EndValueFollowing, None, ExprFollowing),
    Rule(EndCurrentRow, Some(Range), CurrentRowRange),
    Rule(EndCurrentRow, Some(Rows), CurrentRowRows)]

  lemma FirstMatchStep(rules: seq<Rule>, i: nat, f: set<FrameOption>)
    requires i < |rules|
    ensures FirstMatch(rules[i..], f) ==
              if Fires(rules[i], f) then rules[i].boundary else FirstMatch(rules[i + 1..], f)
  {
    assert rules[i..][1..] == rules[i + 1..];
  }

  /** The start boundary is the first rule of its priority list that fires: unbounded preceding,
      unbounded following, value preceding, value following, current row with RANGE, current
      row with ROWS. */
  lemma StartIsFirstMatch(f: set<FrameOption>)
    ensures StartBoundary(f) == FirstMatch(StartRules, f)
  {
    var s := StartRules;
    assert s[0..] == s && s[6..] == [];
    FirstMatchStep(s, 0, f); FirstMatchStep(s, 1, f); FirstMatchStep(s, 2, f);
    FirstMatchStep(s, 3, f); FirstMatchStep(s, 4, f); FirstMatchStep(s, 5, f);
  }

  /** The end boundary follows the same priority list over the END_* bits. */
  lemma EndIsFirstMatch(f: set<FrameOption>)
    ensures EndBoundary(f) == FirstMatch(EndRules, f)
  {
    var e := EndRules;
    assert e[0..] == e && e[6..] == [];
    FirstMatchStep(e, 0, f); FirstMatchStep(e, 1, f); FirstMatchStep(e, 2, f);
    FirstMatchStep(e, 3, f); FirstMatchStep(e, 4, f); FirstMatchStep(e, 5, f);
  }

  /** The bits each boundary may depend on. */
  const StartView: set<FrameOption> := {Range, Rows, StartUnboundedPreceding, StartUnboundedFollowing,
                                        StartValuePreceding, StartValueFollowing, StartCurrentRow}
  const EndView: set<FrameOption> := {Range, Rows, EndUnboundedPreceding, EndUnboundedFollowing,
                                      EndValuePreceding, EndValueFollowing, EndCurrentRow}

  /** Start and end are decoded independently: the END_* bits never affect the start and
      the START_* bits never affect the end. */
  lemma DecodedIndependently(f: set<FrameOption>, g: set<FrameOption>)
    ensures f * StartView == g * StartView ==> StartBoundary(f) == StartBoundary(g)
    ensures f * EndView == g * EndView ==> EndBoundary(f) == EndBoundary(g)
  {
    if f * StartView == g * StartView {
      forall o | o in StartView ensures (o in f) == (o in g) {
        assert (o in f) == (o in f * StartView);
      }
    }
    if f * EndView == g * EndView {
      forall o | o in EndView ensures (o in f) == (o in g) {
        assert (o in f) == (o in f * EndView);
      }
    }
  }

  /** The debug assertion holds exactly when some start bit and some end bit match. */
  lemma WellFormedIff(f: set<FrameOption>)
    ensures FrameWellFormed(f) <==>
              (StartUnboundedPreceding in f || StartUnboundedFollowing in f || StartValuePreceding in f ||
               StartValueFollowing in f || (StartCurrentRow in f && (Range in f || Rows in f))) &&
              (EndUnboundedPreceding in f || EndUnboundedFollowing in f || EndValuePreceding in f ||
               EndValueFollowing in f || (EndCurrentRow in f && (Range in f || Rows in f)))
  {
  }

  /** When decoding succeeds or fails, and with which error: the offset transforms come first
      (start before end), then the nonsensical-bits check, then the missing-offset check. */
  lemma DecodeFrameOutcome(s: Siblings, spec: WindowDef)
    ensures var f := spec.frameOptions;
            var so, eo := OptionalExpression(s, spec.startOffset), OptionalExpression(s, spec.endOffset);
            DecodeFrame(s, spec) ==
              if so.Failure? then Failure(so.error)
              else if eo.Failure? then Failure(eo.error)
              else if Nonsensical(f) then Failure(NonsensicalFrame)
              else if (StartBoundary(f) == ExprPreceding && spec.startOffset.None?) ||
                      (EndBoundary(f) == ExprPreceding && spec.endOffset.None?) then
                Failure(BoundaryExpressionMissing)
              else
                Success(WindowFrame(StartBoundary(f), EndBoundary(f), so.value, eo.value))
  {
  }

  /** The offset expressions are transformed before any bit is looked at: a failing start
      offset decides the error, then a failing end offset, whatever the frame bits are. */
  lemma OffsetFailuresFirst(s: Siblings, spec: WindowDef)
    ensures OptionalExpression(s, spec.startOffset).Failure? ==>
              DecodeFrame(s, spec) == Failure(OptionalExpression(s, spec.startOffset).error)
    ensures OptionalExpression(s, spec.startOffset).Success? &&
            OptionalExpression(s, spec.endOffset).Failure? ==>
              DecodeFrame(s, spec) == Failure(OptionalExpression(s, spec.endOffset).error)
  {
  }

  /** A sensible frame with an EXPR_PRECEDING boundary and no offset expression for it is
      rejected, on either side. */
  lemma MissingPrecedingOffsetRejected(s: Siblings, spec: WindowDef)
    requires OptionalExpression(s, spec.startOffset).Success?
    requires OptionalExpression(s, spec.endOffset).Success?
    requires !Nonsensical(spec.frameOptions)
    requires (StartBoundary(spec.frameOptions) == ExprPreceding && spec.startOffset.None?) ||
             (EndBoundary(spec.frameOptions) == ExprPreceding && spec.endOffset.None?)
    ensures DecodeFrame(s, spec) == Failure(BoundaryExpressionMissing)
  {
  }

  /** Decoding succeeds exactly when both offsets transform, the bits make sense and every
      EXPR_PRECEDING boundary has its offset expression. */
  lemma DecodeSucceedsIff(s: Siblings, spec: WindowDef)
    ensures DecodeFrame(s, spec).Success? <==>
              OptionalExpression(s, spec.startOffset).Success? &&
              OptionalExpression(s, spec.endOffset).Success? &&
              !Nonsensical(spec.frameOptions) &&
              (StartBoundary(spec.frameOptions) == ExprPreceding ==> spec.startOffset.Some?) &&
              (EndBoundary(spec.frameOptions) == ExprPreceding ==> spec.endOffset.Some?)
  {
  }

  /** END_UNBOUNDED_PRECEDING or START_UNBOUNDED_FOLLOWING rejects whatever the other bits are. */
  lemma NonsensicalAlwaysRejected(s: Siblings, spec: WindowDef)
    requires Nonsensical(spec.frameOptions)
    requires OptionalExpression(s, spec.startOffset).Success?
    requires OptionalExpression(s, spec.endOffset).Success?
    ensures DecodeFrame(s, spec) == Failure(NonsensicalFrame)
  {
  }

  /** What a successful decoding guarantees. */
  lemma DecodedFrameFacts(s: Siblings, spec: WindowDef, w: WindowFrame)
    requires DecodeFrame(s, spec) == Success(w)
    ensures w.start == StartBoundary(spec.frameOptions) && w.end == EndBoundary(spec.frameOptions)
    ensures w.start != UnboundedFollowing && w.end != UnboundedPreceding
    ensures w.start == ExprPreceding ==> w.startExpr.Some?
    ensures w.end == ExprPreceding ==> w.endExpr.Some?
    ensures Success(w.startExpr) == OptionalExpression(s, spec.startOffset)
    ensures Success(w.endExpr) == OptionalExpression(s, spec.endOffset)
    ensures w.startExpr.Some? <==> spec.startOffset.Some?
    ensures w.endExpr.Some? <==> spec.endOffset.Some?
    ensures FrameWellFormed(spec.frameOptions) <==>
              w.start != WindowBoundary.Invalid && w.end != WindowBoundary.Invalid
  {
  }

  /** As written, an EXPR_FOLLOWING boundary needs no offset expression. */
  lemma FollowingOffsetNotRequired(s: Siblings, spec: WindowDef)
    requires StartBoundary(spec.frameOptions) == ExprFollowing && spec.startOffset.None?
    requires EndBoundary(spec.frameOptions) == ExprFollowing && spec.endOffset.None?
    ensures DecodeFrame(s, spec) == Success(WindowFrame(ExprFollowing, ExprFollowing, None, None))
  {
  }

  /** UNBOUNDED PRECEDING to UNBOUNDED FOLLOWING decodes with no offsets required. */
  lemma UnboundedFrame(s: Siblings, spec: WindowDef)
    requires StartUnboundedPreceding in spec.frameOptions && EndUnboundedFollowing in spec.frameOptions
    requires !Nonsensical(spec.frameOptions)
    requires spec.startOffset.None? && spec.endOffset.None?
    ensures DecodeFrame(s, spec) == Success(WindowFrame(UnboundedPreceding, UnboundedFollowing, None, None))
  {
  }
}

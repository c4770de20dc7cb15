/**
 The error wrappers of internal/controller/accounts/errors.go.

 An error is a chain: a result wrapper says whether to requeue, a condition wrapper says how to
 mark a condition, a plain wrap only adds text. Constructors, AsResult and the unwrapping are
 pure; MarkCondition calls back.
 */
module Errors {
  import opened Texts

  datatype Err =
    | Plain(fault: Fault)
    | Wrap(inner: Err)
    | ConditionErr(failure: bool, reason: Reason, inner: Err)
    | ResultErr(requeue: bool, inner: Err)

  datatype CtrlResult = CtrlResult(requeue: bool)

  const Done: CtrlResult := CtrlResult(false)
  const Requeue: CtrlResult := CtrlResult(true)

  function ConditionFailed(reason: Reason, e: Err): Err { ConditionErr(true, reason, e) }

  function ConditionUncertain(reason: Reason, e: Err): Err { ConditionErr(false, reason, e) }

  function TerminalError(e: Err): Err { ResultErr(false, e) }

  function TemporaryError(e: Err): Err { ResultErr(true, e) }

  // err.Error(): the text of the innermost fault.
  function Report(e: Err): Message {
    match e
    case Plain(fault) => Reports(fault)
    case Wrap(inner) => Report(inner)
    case ConditionErr(_, _, inner) => Report(inner)
    case ResultErr(_, inner) => Report(inner)
  }

  // errors.Into[*resultError]
  function IntoResult(e: Err): Option<CtrlResult> {
    match e
    case Plain(_) => None
    case Wrap(inner) => IntoResult(inner)
    case ConditionErr(_, _, inner) => IntoResult(inner)
    case ResultErr(requeue, _) => Some(CtrlResult(requeue))
  }

  datatype MarkCall = MarkCall(failure: bool, reason: Reason, message: Message)

  // errors.Into[*conditionError], and the mark it stands for
  function IntoCondition(e: Err): Option<MarkCall> {
    match e
    case Plain(_) => None
    case Wrap(inner) => IntoCondition(inner)
    case ConditionErr(failure, reason, inner) => Some(MarkCall(failure, reason, Report(inner)))
    case ResultErr(_, inner) => IntoCondition(inner)
  }

  function AsResult(e: Err): (CtrlResult, Option<Err>) {
    match IntoResult(e)
    case Some(r) => (r, None)
    case None => (Done, Some(e))
  }

  function Verdict(e: Err): MarkCall {
    match IntoCondition(e)
    case Some(call) => call
    case None => MarkCall(false, UnknownError, Report(e))
  }

  // The two callbacks of MarkCondition, recorded.
  class Marker {
    var calls: seq<MarkCall>

    constructor ()
      ensures calls == []
    {
      calls := [];
    }

    method Failure(reason: Reason, message: Message)
      modifies this
      ensures calls == old(calls) + [MarkCall(true, reason, message)]
    {
      calls := calls + [MarkCall(true, reason, message)];
    }

    method Unknown(reason: Reason, message: Message)
      modifies this
      ensures calls == old(calls) + [MarkCall(false, reason, message)]
    {
      calls := calls + [MarkCall(false, reason, message)];
    }
  }

  method MarkCondition(e: Err, marker: Marker)
    modifies marker
    ensures marker.calls == old(marker.calls) + [Verdict(e)]
  {
    var cond := IntoCondition(e);
    if cond.Some? {
      if cond.value.failure {
        marker.Failure(cond.value.reason, cond.value.message);
      } else {
        marker.Unknown(cond.value.reason, cond.value.message);
      }
    } else {
      marker.Unknown(UnknownError, Report(e));
    }
  }

  /******* Nesting *******/

  datatype Layer = Terminal | Temporary | Fails(reason: Reason) | Uncertain(reason: Reason) | Text

  function Nest(layers: seq<Layer>, core: Err): Err {
    if layers == [] then core
    else
      var inner := Nest(layers[1..], core);
      match layers[0]
      case Terminal => TerminalError(inner)
      case Temporary => TemporaryError(inner)
      case Fails(reason) => ConditionFailed(reason, inner)
      case Uncertain(reason) => ConditionUncertain(reason, inner)
      case Text => Wrap(inner)
  }

  predicate DecidesResult(l: Layer) { l.Terminal? || l.Temporary? }

  predicate DecidesCondition(l: Layer) { l.Fails? || l.Uncertain? }

  // The outermost result wrapper alone decides requeue.
  lemma {:induction false} OutermostResultDecides(layers: seq<Layer>, core: Err, i: nat)
    requires i < |layers| && DecidesResult(layers[i])
    requires forall j :: 0 <= j < i ==> !DecidesResult(layers[j])
    ensures AsResult(Nest(layers, core)) == (CtrlResult(layers[i].Temporary?), None)
  {
    if i > 0 { OutermostResultDecides(layers[1..], core, i - 1); }
  }

  // The outermost condition wrapper alone decides the mark; the text is the innermost fault.
  lemma {:induction false} OutermostConditionDecides(layers: seq<Layer>, core: Err, i: nat)
    requires i < |layers| && DecidesCondition(layers[i])
    requires forall j :: 0 <= j < i ==> !DecidesCondition(layers[j])
    ensures Verdict(Nest(layers, core)) == MarkCall(layers[i].Fails?, layers[i].reason, Report(core))
  {
    if i > 0 {
      OutermostConditionDecides(layers[1..], core, i - 1);
    } else {
      ReportNested(layers[1..], core);
    }
  }

  lemma {:induction false} ReportNested(layers: seq<Layer>, core: Err)
    ensures Report(Nest(layers, core)) == Report(core)
  {
    if layers != [] { ReportNested(layers[1..], core); }
  }

  // An error without a result wrapper is handed to the runtime, and one without a condition
  // wrapper marks the condition unknown.
  lemma {:induction false} NoWrapperFallsThrough(layers: seq<Layer>, fault: Fault)
    ensures (forall l :: l in layers ==> !DecidesResult(l)) ==>
              AsResult(Nest(layers, Plain(fault))) == (Done, Some(Nest(layers, Plain(fault))))
    ensures (forall l :: l in layers ==> !DecidesCondition(l)) ==>
              Verdict(Nest(layers, Plain(fault))) == MarkCall(false, UnknownError, Reports(fault))
  {
    if layers != [] {
      assert layers[0] in layers && forall l :: l in layers[1..] ==> l in layers;
      NoWrapperFallsThrough(layers[1..], fault);
    }
  }
}

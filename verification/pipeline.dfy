/** `filterDataor`: validate the request body against the schema and, only
    if it passes, run the filter over its `payload`. Exactly one of three
    things happens: the body is rejected (the error callback gets the fixed
    message, and the validator's violations are what is logged), the
    filtered list is returned, or the filter throws on a kept record that
    has no `image`. `HandleStrict` is the corrected handler, which turns
    that last case into a rejection. */
module Pipeline {
  import opened Wrappers
  import opened Json
  import opened Report
  import opened ShowSchema
  import opened Validator
  import opened Filter

  /** The `error` text handed to the callback for a body that fails the
      schema. */
  const DecodeFailureMessage: string := "Could not decode request: JSON parsing failed"

  /** How a request ends when it does not produce a list. */
  datatype Failure =
    | Rejected(message: string, detail: seq<Violation>)
    | Thrown(fault: Fault)

  /** `params.payload` of a body that passed the schema: a non-empty array
      of records, each of which passed the schema too. */
  function Payload(body: Value): (items: seq<Value>)
    requires ValidEnvelope(body)
    ensures body.Obj? && Get(body.members, "payload") == Some(Arr(items))
    ensures 1 <= |items| && AllValid(items)
  {
    assert EnvelopeProperties[0] == Property("payload", ShowList, true);
    DeclaredProperty(EnvelopeProperties, body, 0);
    Get(body.members, "payload").value.items
  }

  /** The handler as written: reject, or reduce the payload. */
  function Handle(body: Value): (r: Result<seq<Projected>, Failure>)
    ensures (r.Failure? && r.error.Rejected?) <==> !ValidEnvelope(body)
    ensures r.Failure? && r.error.Rejected? ==>
      r.error.message == DecodeFailureMessage && r.error.detail == Violations(body) && r.error.detail != []
    ensures r.Success? ==>
      && ValidEnvelope(body)
      && (forall i :: 0 <= i < |Payload(body)| && Qualifies(Payload(body)[i]) ==> HasImage(Payload(body)[i]))
    ensures r.Failure? && r.error.Thrown? ==>
      && ValidEnvelope(body)
      && r.error.fault.record < |Payload(body)|
      && Qualifies(Payload(body)[r.error.fault.record])
      && !HasImage(Payload(body)[r.error.fault.record])
  {
    if !ValidEnvelope(body) then Failure(Rejected(DecodeFailureMessage, Violations(body)))
    else
      match Select(Payload(body))
      case Success(out) => Success(out)
      case Failure(f) => Failure(Thrown(f))
  }

  /** What an accepted body yields: the k-th element is the projection of
      the k-th record, in payload order, that has `drm` true and a positive
      `episodeCount`. */
  lemma HandleProjects(body: Value)
    requires Handle(body).Success?
    ensures |Handle(body).value| == |Kept(Payload(body))| <= |Payload(body)|
    ensures forall k :: 0 <= k < |Kept(Payload(body))| ==>
      ProjectionOf(Handle(body).value[k], Payload(body)[Kept(Payload(body))[k]])
  {
    SelectProjects(Payload(body));
  }

  /** The corrected handler: a kept record without `image` is reported as a
      missing required `image` at `.payload[i]` instead of crashing. */
  function HandleStrict(body: Value): (r: Result<seq<Projected>, Failure>)
    ensures r.Failure? ==> r.error.Rejected? && r.error.message == DecodeFailureMessage && r.error.detail != []
    ensures r.Success? <==>
      ValidEnvelope(body) &&
      forall i :: 0 <= i < |Payload(body)| && Qualifies(Payload(body)[i]) ==> HasImage(Payload(body)[i])
  {
    if !ValidEnvelope(body) then Failure(Rejected(DecodeFailureMessage, Violations(body)))
    else
      match Select(Payload(body))
      case Success(out) => Success(out)
      case Failure(ImageUndefined(i)) =>
        Failure(Rejected(DecodeFailureMessage, [Violation(Required("image"), [Key("payload"), Index(i)])]))
  }

  /** The corrected handler differs from the handler as written only where
      that one throws. */
  lemma HandleStrictAgrees(body: Value)
    ensures !(Handle(body).Failure? && Handle(body).error.Thrown?) ==> HandleStrict(body) == Handle(body)
    ensures Handle(body).Failure? && Handle(body).error.Thrown? ==>
      HandleStrict(body) == Failure(Rejected(DecodeFailureMessage,
        [Violation(Required("image"), [Key("payload"), Index(Handle(body).error.fault.record)])]))
  {
  }
}

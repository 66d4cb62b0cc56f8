/** Single-hop interval reference resolution as `parse.hpp` performs it
    (`extract_stream_interval`, `parse_interval` and the checks they use). */
module Interval {
  import opened Wrappers
  import opened Strings
  import opened Xml
  import opened References

  /** Resolution failures; the payloads are what the messages of this revision report. */
  datatype IntervalError =
    | MalformedReference
    | SelfReference
    | InvalidAttribute(attr: string)
    | StreamNotFound(target: string)
    | MissingAttribute(attr: string, target: string)
    | UnresolvableReference

  /** Replaces a `stream:<target>:<attr>` reference by the target's attribute value;
      any other text is returned as it is. */
  function ExtractStreamInterval(interval: string, intervalType: string, streamId: string,
                                 cat: Catalog): (r: Result<string, IntervalError>)
    ensures !IsReference(interval) ==> r == Success(interval)
    ensures r.Failure? ==> IsReference(interval)
    ensures r == Failure(MalformedReference) <==> IsReference(interval) && ':' !in interval[|Prefix|..]
    ensures r.Success? && IsReference(interval) ==> IsFinal(r.value)
    ensures r.Success? ==> !IsReference(r.value)
  {
    if !IsReference(interval) then Success(interval)
    else
      match SplitReference(interval[|Prefix|..])
      case None => Failure(MalformedReference)
      case Some((target, attr)) =>
        if IsSelfLoop(streamId, intervalType, target, attr) then Failure(SelfReference)
        else if !IsIntervalName(attr) then Failure(InvalidAttribute(attr))
        else
          match LookupTarget(cat, target)
          case None => Failure(StreamNotFound(target))
          case Some(k) =>
            if attr !in cat[k].attrs then Failure(MissingAttribute(attr, target))
            else if !IsFinal(cat[k].attrs[attr]) then Failure(UnresolvableReference)
            else Success(cat[k].attrs[attr])
  }

  /** `parse_interval`: the empty text resolves to itself without a lookup. */
  function ParseInterval(interval: string, intervalType: string, streamId: string,
                         cat: Catalog): (r: Result<string, IntervalError>)
    ensures interval == "" ==> r == Success("")
    ensures !IsReference(interval) ==> r == Success(interval)
    ensures r.Success? ==> !IsReference(r.value)
  {
    if interval == "" then Success("")
    else ExtractStreamInterval(interval, intervalType, streamId, cat)
  }

  /** The empty-text guard of `parse_interval` changes nothing: it agrees with
      `extract_stream_interval` on every input. */
  lemma EmptyGuardRedundant(interval: string, intervalType: string, streamId: string, cat: Catalog)
    ensures ParseInterval(interval, intervalType, streamId, cat)
         == ExtractStreamInterval(interval, intervalType, streamId, cat)
  {
  }

  /** The failures of resolving the well-formed reference `stream:<target>:<attr>`,
      stated against the catalog lookup, error by error. */
  lemma {:induction false} ResolveReference(target: string, attr: string, intervalType: string,
                                            streamId: string, cat: Catalog)
    requires ':' !in target
    ensures var r := ExtractStreamInterval(Reference(target, attr), intervalType, streamId, cat);
            && (r == Failure(SelfReference) <==> target == streamId && attr == intervalType)
            && (r == Failure(InvalidAttribute(attr)) <==>
                  !(target == streamId && attr == intervalType) && attr !in ValidAttrs)
            && (r == Failure(StreamNotFound(target)) <==>
                  !(target == streamId && attr == intervalType) && attr in ValidAttrs
                  && LookupTarget(cat, target).None?)
            && (r == Failure(MissingAttribute(attr, target)) <==>
                  && !(target == streamId && attr == intervalType)
                  && attr in ValidAttrs
                  && LookupTarget(cat, target).Some?
                  && attr !in cat[LookupTarget(cat, target).value].attrs)
            && (r == Failure(UnresolvableReference) <==>
                  && !(target == streamId && attr == intervalType)
                  && attr in ValidAttrs
                  && LookupTarget(cat, target).Some?
                  && attr in cat[LookupTarget(cat, target).value].attrs
                  && !IsFinal(cat[LookupTarget(cat, target).value].attrs[attr]))
  {
    ReferenceRest(target, attr);
    SplitJoin(target, attr);
  }

  /** Exactly when resolving `stream:<target>:<attr>` succeeds, and what it yields:
      the attribute's value on the first matching stream. */
  lemma {:induction false} ResolveReferenceValue(target: string, attr: string, intervalType: string,
                                                 streamId: string, cat: Catalog)
    requires ':' !in target
    ensures var r := ExtractStreamInterval(Reference(target, attr), intervalType, streamId, cat);
            && (r.Success? <==>
                  && !(target == streamId && attr == intervalType)
                  && attr in ValidAttrs
                  && LookupTarget(cat, target).Some?
                  && attr in cat[LookupTarget(cat, target).value].attrs
                  && IsFinal(cat[LookupTarget(cat, target).value].attrs[attr]))
            && (r.Success? ==> r.value == cat[LookupTarget(cat, target).value].attrs[attr])
  {
    ReferenceRest(target, attr);
    SplitJoin(target, attr);
  }

  /** A stream's interval that names itself is rejected, whatever the catalog holds. */
  lemma SelfReferenceRejected(streamId: string, intervalType: string, cat: Catalog)
    requires ':' !in streamId
    ensures ExtractStreamInterval(Reference(streamId, intervalType), intervalType, streamId, cat)
         == Failure(SelfReference)
  {
    ResolveReference(streamId, intervalType, intervalType, streamId, cat);
  }

  /** A stream id holding ':' defeats the self-loop check: the split at the first
      ':' cuts the id short, and the rest of the id joins the attribute, which is
      then no valid attribute name. */
  lemma ColonInIdIsInvalidAttribute(a: string, b: string, intervalType: string, cat: Catalog)
    requires ':' !in a
    ensures ExtractStreamInterval(Reference(a + ":" + b, intervalType), intervalType, a + ":" + b, cat)
         == Failure(InvalidAttribute(b + ":" + intervalType))
  {
    var attr := b + ":" + intervalType;
    assert Reference(a + ":" + b, intervalType) == Reference(a, attr);
    assert attr[|b|] == ':';
    assert ':' !in InputInterval && ':' !in OutputInterval;
    ResolveReference(a, attr, intervalType, a + ":" + b, cat);
  }

  /** A reference to the other interval of the same stream is not a self-loop:
      it resolves like any other reference. */
  lemma OtherIntervalOfSelfResolves(streamId: string, intervalType: string, attr: string, cat: Catalog)
    requires ':' !in streamId && attr in ValidAttrs && attr != intervalType
    requires LookupTarget(cat, streamId).Some?
    requires attr in cat[LookupTarget(cat, streamId).value].attrs
    requires IsFinal(cat[LookupTarget(cat, streamId).value].attrs[attr])
    ensures ExtractStreamInterval(Reference(streamId, attr), intervalType, streamId, cat)
         == Success(cat[LookupTarget(cat, streamId).value].attrs[attr])
  {
    ResolveReferenceValue(streamId, attr, intervalType, streamId, cat);
  }

  /** A target whose attribute is itself an interval name or a reference ends
      resolution with an error: no second hop is taken. */
  lemma SecondHopRejected(target: string, attr: string, intervalType: string, streamId: string,
                          cat: Catalog)
    requires ':' !in target && attr in ValidAttrs && !(target == streamId && attr == intervalType)
    requires LookupTarget(cat, target).Some?
    requires attr in cat[LookupTarget(cat, target).value].attrs
    requires !IsFinal(cat[LookupTarget(cat, target).value].attrs[attr])
    ensures ExtractStreamInterval(Reference(target, attr), intervalType, streamId, cat)
         == Failure(UnresolvableReference)
  {
    ResolveReference(target, attr, intervalType, streamId, cat);
  }

  /** Resolution is idempotent: a resolved value resolves to itself in any context. */
  lemma ResolvedIsFixpoint(interval: string, intervalType: string, streamId: string, cat: Catalog,
                           intervalType': string, streamId': string, cat': Catalog)
    requires ParseInterval(interval, intervalType, streamId, cat).Success?
    ensures var v := ParseInterval(interval, intervalType, streamId, cat).value;
            ParseInterval(v, intervalType', streamId', cat') == Success(v)
  {
  }
}

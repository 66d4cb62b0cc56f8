/** The second revision of the resolver (`interval_resolver.hpp`): the same checks
    in the same order, with errors that carry no detail. */
module IntervalResolver {
  import opened Wrappers
  import opened Xml
  import opened References
  import Interval

  datatype Fault =
    | Malformed
    | SelfReferencing
    | InvalidReferencedAttribute
    | ReferencedStreamNotFound
    | MissingReferencedAttribute
    | Unexpandable

  /** `extract_stream_interval_impl`. */
  function ExtractStreamIntervalImpl(interval: string, intervalType: string, streamId: string,
                                     cat: Catalog): (r: Result<string, Fault>)
    ensures !IsReference(interval) ==> r == Success(interval)
    ensures r == Failure(Malformed) <==> IsReference(interval) && ':' !in interval[|Prefix|..]
    ensures r.Success? && IsReference(interval) ==> IsFinal(r.value)
  {
    if !IsReference(interval) then Success(interval)
    else
      match SplitReference(interval[|Prefix|..])
      case None => Failure(Malformed)
      case Some((target, attr)) =>
        if IsSelfLoop(streamId, intervalType, target, attr) then Failure(SelfReferencing)
        else if !IsIntervalName(attr) then Failure(InvalidReferencedAttribute)
        else
          match LookupTarget(cat, target)
          case None => Failure(ReferencedStreamNotFound)
          case Some(k) =>
            if attr !in cat[k].attrs then Failure(MissingReferencedAttribute)
            else if !IsFinal(cat[k].attrs[attr]) then Failure(Unexpandable)
            else Success(cat[k].attrs[attr])
  }

  /** What is left of a detailed error once its payload is dropped. */
  function Plain(e: Interval.IntervalError): Fault {
    match e
    case MalformedReference => Malformed
    case SelfReference => SelfReferencing
    case InvalidAttribute(_) => InvalidReferencedAttribute
    case StreamNotFound(_) => ReferencedStreamNotFound
    case MissingAttribute(_, _) => MissingReferencedAttribute
    case UnresolvableReference => Unexpandable
  }

  /** The two revisions agree on every input: the same values, and the same
      failures once the detail of the error messages is dropped. */
  lemma {:induction false} RevisionsAgree(interval: string, intervalType: string, streamId: string, cat: Catalog)
    ensures var a := ExtractStreamIntervalImpl(interval, intervalType, streamId, cat);
            var b := Interval.ExtractStreamInterval(interval, intervalType, streamId, cat);
            && (a.Success? <==> b.Success?)
            && (a.Success? ==> a.value == b.value)
            && (a.Failure? ==> a.error == Plain(b.error))
  {
    if IsReference(interval) {
      match SplitReference(interval[|Prefix|..])
      case None =>
      case Some((target, attr)) =>
        AgreeOnSplit(interval, intervalType, streamId, cat, target, attr);
    }
  }

  /** The agreement on a reference that splits into `target` and `attr`. */
  lemma {:induction false} AgreeOnSplit(interval: string, intervalType: string, streamId: string, cat: Catalog,
                                        target: string, attr: string)
    requires IsReference(interval) && SplitReference(interval[|Prefix|..]) == Some((target, attr))
    ensures var a := ExtractStreamIntervalImpl(interval, intervalType, streamId, cat);
            var b := Interval.ExtractStreamInterval(interval, intervalType, streamId, cat);
            && (a.Success? <==> b.Success?)
            && (a.Success? ==> a.value == b.value)
            && (a.Failure? ==> a.error == Plain(b.error))
  {
    if !IsSelfLoop(streamId, intervalType, target, attr) && IsIntervalName(attr) {
      match LookupTarget(cat, target)
      case None =>
      case Some(k) =>
    }
  }
}

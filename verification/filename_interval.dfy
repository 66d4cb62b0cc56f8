/** Derivation of the single filename-interval token (`parse_filename_interval`). */
module FilenameInterval {
  import opened Wrappers
  import opened Strings
  import opened Xml
  import opened References
  import opened Categorical
  import opened Interval

  const NoInterval := "none"

  /** A resolved interval that can name a file period: non-empty and not a sentinel. */
  predicate IsReal(s: string) {
    s != "" && s != "initial_only" && s != "final_only" && s != "none"
  }

  /** `s` when it is real, the `none` token otherwise. */
  function RealOrNone(s: string): string {
    if IsReal(s) then s else NoInterval
  }

  /** The first real interval of `a`, `b`, or the empty text. */
  function PickInterval(a: string, b: string): (r: string)
    ensures r == "" || IsReal(r)
    ensures r != "" ==> r == a || r == b
    ensures IsReal(a) ==> r == a
    ensures r == "" <==> !IsReal(a) && !IsReal(b)
  {
    if IsReal(a) then a else if IsReal(b) then b else ""
  }

  /** The filename interval from the direction text, the resolved input and output
      intervals and the explicit `filename_interval` attribute. */
  function DeriveFilenameInterval(direction: string, resolvedIn: string, resolvedOut: string,
                                  explicit: string): (r: string)
    ensures r != ""
    ensures explicit != "" && !IsIntervalName(explicit) ==> r == explicit
    ensures explicit == "" || IsIntervalName(explicit) ==>
              r == NoInterval || (IsReal(r) && (r == resolvedIn || r == resolvedOut))
    ensures explicit == InputInterval ==> r == RealOrNone(resolvedIn)
    ensures explicit == OutputInterval ==> r == RealOrNone(resolvedOut)
    ensures explicit == "" ==>
              var d := ParseDirection(direction);
              && (d == 1 ==> r == RealOrNone(resolvedIn))
              && (d == 2 ==> r == RealOrNone(resolvedOut))
              && (d == 3 ==> r == (if IsReal(resolvedIn) then resolvedIn else RealOrNone(resolvedOut)))
              && (d == 4 ==> r == NoInterval)
  {
    var forInput := Contains(direction, "input");
    var forOutput := Contains(direction, "output");
    var result :=
      if explicit == "" then
        if forInput && forOutput then PickInterval(resolvedIn, resolvedOut)
        else if forInput then (if IsReal(resolvedIn) then resolvedIn else "")
        else if forOutput then (if IsReal(resolvedOut) then resolvedOut else "")
        else ""
      else if explicit == InputInterval then (if IsReal(resolvedIn) then resolvedIn else "")
      else if explicit == OutputInterval then (if IsReal(resolvedOut) then resolvedOut else "")
      else explicit;
    if result == "" then NoInterval else result
  }

  /** A selected interval is never a sentinel: when the token is chosen from the
      resolved intervals it is a real one or the `none` collapse. */
  lemma SentinelsNeverChosen(direction: string, resolvedIn: string, resolvedOut: string, explicit: string)
    requires explicit == "" || IsIntervalName(explicit)
    ensures var r := DeriveFilenameInterval(direction, resolvedIn, resolvedOut, explicit);
            r != "initial_only" && r != "final_only" && r != ""
  {
  }

  /** With both directions present and no explicit value the input interval wins. */
  lemma InputPreferred(direction: string, resolvedIn: string, resolvedOut: string)
    requires Contains(direction, "input") && Contains(direction, "output")
    requires IsReal(resolvedIn)
    ensures DeriveFilenameInterval(direction, resolvedIn, resolvedOut, "") == resolvedIn
  {
  }

  /** The `parse.hpp` revision: resolve both raw intervals of stream `streamId`,
      then derive. A resolution error is reported even when the explicit value
      would have made the resolved intervals irrelevant. */
  function ParseFilenameInterval(direction: string, intervalIn: string, intervalOut: string,
                                 filenameInterval: string, streamId: string,
                                 cat: Catalog): (r: Result<string, IntervalError>)
    ensures var rin := ParseInterval(intervalIn, InputInterval, streamId, cat);
            var rout := ParseInterval(intervalOut, OutputInterval, streamId, cat);
            && (r.Success? <==> rin.Success? && rout.Success?)
            && (rin.Failure? ==> r == Failure(rin.error))
            && (rin.Success? && rout.Failure? ==> r == Failure(rout.error))
            && (r.Success? ==> r.value == DeriveFilenameInterval(direction, rin.value, rout.value, filenameInterval))
    ensures r.Success? ==> r.value != ""
    ensures r.Success? && filenameInterval != "" && !IsIntervalName(filenameInterval) ==>
              r.value == filenameInterval
  {
    var resolvedIn :- ParseInterval(intervalIn, InputInterval, streamId, cat);
    var resolvedOut :- ParseInterval(intervalOut, OutputInterval, streamId, cat);
    Success(DeriveFilenameInterval(direction, resolvedIn, resolvedOut, filenameInterval))
  }
}

/** The vocabulary of interval references, `stream:<target>:<attribute>`,
    shared by both resolver revisions. */
module References {
  import opened Wrappers
  import opened Strings

  const Prefix := "stream:"
  const InputInterval := "input_interval"
  const OutputInterval := "output_interval"

  /** The closed set of attributes a reference may name. */
  const ValidAttrs := [InputInterval, OutputInterval]

  predicate IsIntervalName(s: string) {
    s in ValidAttrs
  }

  predicate IsReference(s: string) {
    StartsWith(s, Prefix)
  }

  /** A reference from interval `kind` of stream `id` to that very interval. */
  predicate IsSelfLoop(id: string, kind: string, target: string, attr: string) {
    target == id && attr == kind
  }

  /** A value that needs no further dereference: neither an interval name nor a reference. */
  predicate IsFinal(v: string) {
    !IsIntervalName(v) && !IsReference(v)
  }

  /** The text after the `stream:` marker, split at its first ':' into target and attribute. */
  function SplitReference(rest: string): (r: Option<(string, string)>)
    ensures r.Some? ==> rest == r.value.0 + ":" + r.value.1 && ':' !in r.value.0
    ensures r.None? <==> ':' !in rest
  {
    match IndexOf(rest, ':')
    case None => None
    case Some(pos) =>
      assert rest == rest[..pos] + ":" + rest[pos + 1..];
      Some((rest[..pos], rest[pos + 1..]))
  }

  /** Splitting inverts joining whenever the target holds no ':'. */
  lemma {:induction false} SplitJoin(target: string, attr: string)
    requires ':' !in target
    ensures SplitReference(target + ":" + attr) == Some((target, attr))
  {
    var rest := target + ":" + attr;
    assert rest[|target|] == ':';
    var r := SplitReference(rest);
    assert r.Some?;
    var pos := IndexOf(rest, ':').value;
    assert pos == |target| by {
      if pos < |target| {
        assert false;
      } else if pos > |target| {
        assert false;
      }
    }
    assert rest[..pos] == target;
    assert rest[pos + 1..] == attr;
  }

  /** The reference text a target and attribute spell. */
  function Reference(target: string, attr: string): string {
    Prefix + target + ":" + attr
  }

  /** The text after the marker of a spelled reference is the joined pair. */
  lemma ReferenceRest(target: string, attr: string)
    ensures IsReference(Reference(target, attr))
    ensures Reference(target, attr)[|Prefix|..] == target + ":" + attr
  {
    assert Reference(target, attr)[..|Prefix|] == Prefix;
  }
}

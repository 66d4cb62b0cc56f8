/** The stream assembler (`Stream::load_from_xml`): one record plus the
    catalog give the typed settings of that stream. */
module StreamLoader {
  import opened Wrappers
  import opened Xml
  import opened References
  import opened Categorical
  import opened Interval
  import opened FilenameInterval

  datatype Stream = Stream(
    streamId: string,
    itype: int,
    filenameTemplate: string,
    filenameInterval: string,
    referenceTime: string,
    recordInterval: string,
    immutable: int,
    iprec: int,
    iclobber: int,
    iIoType: int)

  datatype LoadError = MissingRequiredAttribute(attr: string) | Resolution(cause: IntervalError)

  /** The resolved input interval of a record named `id`. */
  function ResolvedIn(record: Node, id: string, cat: Catalog): Result<string, IntervalError> {
    ParseInterval(Attribute(record, InputInterval), InputInterval, id, cat)
  }

  /** The resolved output interval of a record named `id`. */
  function ResolvedOut(record: Node, id: string, cat: Catalog): Result<string, IntervalError> {
    ParseInterval(Attribute(record, OutputInterval), OutputInterval, id, cat)
  }

  function LoadFromXml(record: Node, cat: Catalog): (r: Result<Stream, LoadError>)
    ensures "name" !in record.attrs ==> r == Failure(MissingRequiredAttribute("name"))
    ensures "name" in record.attrs ==>
              var id := record.attrs["name"];
              && (r.Success? <==> ResolvedIn(record, id, cat).Success? && ResolvedOut(record, id, cat).Success?)
              && (ResolvedIn(record, id, cat).Failure? ==>
                    r == Failure(Resolution(ResolvedIn(record, id, cat).error)))
              && (ResolvedIn(record, id, cat).Success? && ResolvedOut(record, id, cat).Failure? ==>
                    r == Failure(Resolution(ResolvedOut(record, id, cat).error)))
    ensures r.Success? ==>
              var s := r.value;
              && "name" in record.attrs && s.streamId == record.attrs["name"]
              && (s.immutable == 1 <==> record.tag == ImmutableTag)
              && (s.immutable == 0 <==> record.tag != ImmutableTag)
              && s.filenameTemplate == Attribute(record, "filename_template")
              && s.filenameInterval != ""
              && s.filenameInterval == DeriveFilenameInterval(
                   Attribute(record, "type"),
                   ResolvedIn(record, s.streamId, cat).value,
                   ResolvedOut(record, s.streamId, cat).value,
                   Attribute(record, "filename_interval"))
              && s.itype == ParseDirection(Attribute(record, "type"))
              && s.referenceTime == ParseReferenceTime(Attribute(record, "reference_time"))
              && s.recordInterval == ParseRecordInterval(Attribute(record, "record_interval"))
              && s.iprec == ParsePrecisionBytes(Attribute(record, "precision"))
              && s.iIoType == ParseIoType(Attribute(record, "io_type"))
              && s.iclobber == ParseClobberMode(Attribute(record, "clobber_mode"))
  {
    if "name" !in record.attrs then Failure(MissingRequiredAttribute("name"))
    else
      var id := record.attrs["name"];
      match ResolvedIn(record, id, cat)
      case Failure(e) => Failure(Resolution(e))
      case Success(resolvedIn) =>
        match ResolvedOut(record, id, cat)
        case Failure(e) => Failure(Resolution(e))
        case Success(resolvedOut) =>
          var direction := Attribute(record, "type");
          Success(Stream(
            streamId := id,
            itype := ParseDirection(direction),
            filenameTemplate := Attribute(record, "filename_template"),
            filenameInterval := DeriveFilenameInterval(direction, resolvedIn, resolvedOut,
                                                       Attribute(record, "filename_interval")),
            referenceTime := ParseReferenceTime(Attribute(record, "reference_time")),
            recordInterval := ParseRecordInterval(Attribute(record, "record_interval")),
            immutable := if record.tag == ImmutableTag then 1 else 0,
            iprec := ParsePrecisionBytes(Attribute(record, "precision")),
            iclobber := ParseClobberMode(Attribute(record, "clobber_mode")),
            iIoType := ParseIoType(Attribute(record, "io_type"))))
  }

  /** Every attribute but `name` is read with a default: leaving it out and
      setting it to the empty text load identically. */
  lemma AbsentActsAsEmpty(tag: string, attrs: map<string, string>, key: string, cat: Catalog)
    requires key != "name" && key !in attrs
    ensures LoadFromXml(Node(tag, attrs), cat) == LoadFromXml(Node(tag, attrs[key := ""]), cat)
  {
    var a := Node(tag, attrs);
    var b := Node(tag, attrs[key := ""]);
    forall k | true
      ensures Attribute(a, k) == Attribute(b, k)
    {
    }
  }

  /** `name` is the one required attribute: present but empty, the stream still
      loads whenever its intervals resolve; absent, it never loads. */
  lemma NameRequired(tag: string, attrs: map<string, string>, cat: Catalog)
    requires "name" !in attrs
    ensures LoadFromXml(Node(tag, attrs), cat).Failure?
    ensures var n := Node(tag, attrs["name" := ""]);
            LoadFromXml(n, cat).Success? <==> ResolvedIn(n, "", cat).Success? && ResolvedOut(n, "", cat).Success?
  {
  }

  /** The two revisions of the filename-interval step agree: deriving from the
      intervals the assembler resolved gives what `parse.hpp`'s resolving
      `parse_filename_interval` gives from the raw texts. */
  lemma FilenameIntervalRevisionsAgree(record: Node, cat: Catalog)
    requires "name" in record.attrs
    ensures var pfi := ParseFilenameInterval(
              Attribute(record, "type"), Attribute(record, InputInterval), Attribute(record, OutputInterval),
              Attribute(record, "filename_interval"), record.attrs["name"], cat);
            var r := LoadFromXml(record, cat);
            && (r.Success? <==> pfi.Success?)
            && (r.Success? ==> r.value.filenameInterval == pfi.value)
            && (r.Failure? ==> r.error == Resolution(pfi.error))
  {
  }
}

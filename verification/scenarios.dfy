/** The documented example streams and parser cases, each proved of the model. */
module Scenarios {
  import opened Wrappers
  import opened Strings
  import opened Xml
  import opened References
  import opened Interval
  import opened FilenameInterval
  import opened StreamLoader

  /** The filename-interval test document, streams s1 to s18 in document order. */
  const Doc: Catalog := [
    Node(ImmutableTag, map["name" := "s1", "input_interval" := "3h", "type" := "input"]),
    Node(ImmutableTag, map["name" := "s2", "input_interval" := Reference("s1", InputInterval), "type" := "input"]),
    Node(ImmutableTag, map["name" := "s3", "input_interval" := Reference("s1", InputInterval), "type" := "output"]),
    Node(ImmutableTag, map["name" := "s4", "output_interval" := "6h", "type" := "output"]),
    Node(ImmutableTag, map["name" := "s5", "output_interval" := Reference("s4", OutputInterval), "type" := "output"]),
    Node(ImmutableTag, map["name" := "s6", "output_interval" := Reference("s4", OutputInterval), "type" := "input"]),
    Node(ImmutableTag, map["name" := "s7", "output_interval" := Reference("s4", OutputInterval), "type" := "input:output"]),
    Node(ImmutableTag, map["name" := "s8", "input_interval" := Reference("s1", InputInterval), "type" := "input:output"]),
    Node(ImmutableTag, map["name" := "s9", "output_interval" := Reference("s1", InputInterval), "type" := "input:output"]),
    Node(ImmutableTag, map["name" := "s10", "input_interval" := Reference("s1", InputInterval)]),
    Node(ImmutableTag, map["name" := "s11", "filename_interval" := "input_interval",
                           "input_interval" := "initial_only", "type" := "input"]),
    Node(ImmutableTag, map["name" := "s12", "filename_interval" := "input_interval",
                           "input_interval" := "final_only", "type" := "input"]),
    Node(ImmutableTag, map["name" := "s13", "filename_interval" := "output_interval",
                           "output_interval" := "initial_only", "type" := "output"]),
    Node(ImmutableTag, map["name" := "s14", "filename_interval" := "output_interval",
                           "output_interval" := "final_only", "type" := "output"]),
    Node(ImmutableTag, map["name" := "s15", "filename_interval" := "output_interval",
                           "output_interval" := "4h", "type" := "output"]),
    Node(ImmutableTag, map["name" := "s16", "filename_interval" := "input_interval",
                           "input_interval" := "4h", "type" := "input"]),
    Node(ImmutableTag, map["name" := "s17", "filename_interval" := "output_interval",
                           "output_interval" := Reference("s4", OutputInterval), "type" := "output"]),
    Node(ImmutableTag, map["name" := "s18", "filename_interval" := "input_interval",
                           "input_interval" := Reference("s1", InputInterval), "type" := "input"])
  ]

  /** The filename interval stream `Doc[i]` loads with. */
  function FilenameIntervalOf(i: nat): Option<string>
    requires i < |Doc|
  {
    match LoadFromXml(Doc[i], Doc)
    case Success(s) => Some(s.filenameInterval)
    case Failure(_) => None
  }

  /** Loading stream `Doc[i]` once both of its intervals are known. */
  lemma LoadsWith(i: nat, resolvedIn: string, resolvedOut: string)
    requires i < |Doc| && "name" in Doc[i].attrs
    requires ResolvedIn(Doc[i], Doc[i].attrs["name"], Doc) == Success(resolvedIn)
    requires ResolvedOut(Doc[i], Doc[i].attrs["name"], Doc) == Success(resolvedOut)
    ensures FilenameIntervalOf(i) == Some(DeriveFilenameInterval(
              Attribute(Doc[i], "type"), resolvedIn, resolvedOut, Attribute(Doc[i], "filename_interval")))
  {
  }

  /** Text that does not open with 's' is literal. */
  lemma NotReference(s: string)
    requires |s| > 0 && s[0] != 's'
    ensures !IsReference(s)
  {
    if |Prefix| <= |s| {
      assert s[..|Prefix|][0] == s[0];
    }
  }

  lemma LookupS1()
    ensures LookupTarget(Doc, "s1") == Some(0)
  {
    assert Named(Doc[0], "s1", ImmutableTag);
  }

  lemma LookupS4()
    ensures LookupTarget(Doc, "s4") == Some(3)
  {
    assert !Named(Doc[0], "s4", ImmutableTag);
    assert !Named(Doc[1], "s4", ImmutableTag);
    assert !Named(Doc[2], "s4", ImmutableTag);
    assert Named(Doc[3], "s4", ImmutableTag);
  }

  lemma DirectionWords()
    ensures Contains("input", "input") && !Contains("input", "output")
    ensures Contains("output", "output") && !Contains("output", "input")
    ensures Contains("input:output", "input") && Contains("input:output", "output")
    ensures !Contains("", "input") && !Contains("", "output")
  {
    assert OccursAt("input", "input", 0);
    assert OccursAt("output", "output", 0);
    assert OccursAt("input:output", "input", 0);
    assert OccursAt("input:output", "output", 6);
    NotContainsMissingChar("output", "input", 0);
  }

  lemma ResolveS1Input(intervalType: string, streamId: string)
    requires streamId != "s1"
    ensures ParseInterval(Reference("s1", InputInterval), intervalType, streamId, Doc) == Success("3h")
  {
    LookupS1();
    ResolveReferenceValue("s1", InputInterval, intervalType, streamId, Doc);
  }

  lemma ResolveS4Output(intervalType: string, streamId: string)
    requires streamId != "s4"
    ensures ParseInterval(Reference("s4", OutputInterval), intervalType, streamId, Doc) == Success("6h")
  {
    LookupS4();
    assert OutputInterval in Doc[3].attrs && Doc[3].attrs[OutputInterval] == "6h";
    ResolveReferenceValue("s4", OutputInterval, intervalType, streamId, Doc);
  }

  lemma ScenarioS1()
    ensures FilenameIntervalOf(0) == Some("3h")
  {
    DirectionWords();
    assert Attribute(Doc[0], InputInterval) == "3h" && Attribute(Doc[0], OutputInterval) == "";
    LoadsWith(0, "3h", "");
  }

  lemma ScenarioS2()
    ensures FilenameIntervalOf(1) == Some("3h")
  {
    DirectionWords();
    assert Attribute(Doc[1], InputInterval) == Reference("s1", InputInterval);
    assert Attribute(Doc[1], OutputInterval) == "";
    ResolveS1Input(InputInterval, "s2");
    LoadsWith(1, "3h", "");
  }

  lemma ScenarioS3()
    ensures FilenameIntervalOf(2) == Some("none")
  {
    DirectionWords();
    assert Attribute(Doc[2], InputInterval) == Reference("s1", InputInterval);
    assert Attribute(Doc[2], OutputInterval) == "";
    ResolveS1Input(InputInterval, "s3");
    LoadsWith(2, "3h", "");
  }

  lemma ScenarioS4()
    ensures FilenameIntervalOf(3) == Some("6h")
  {
    DirectionWords();
    assert Attribute(Doc[3], InputInterval) == "" && Attribute(Doc[3], OutputInterval) == "6h";
    LoadsWith(3, "", "6h");
  }

  lemma ScenarioS5()
    ensures FilenameIntervalOf(4) == Some("6h")
  {
    DirectionWords();
    assert Attribute(Doc[4], InputInterval) == "";
    assert Attribute(Doc[4], OutputInterval) == Reference("s4", OutputInterval);
    ResolveS4Output(OutputInterval, "s5");
    LoadsWith(4, "", "6h");
  }

  lemma ScenarioS6()
    ensures FilenameIntervalOf(5) == Some("none")
  {
    DirectionWords();
    assert Attribute(Doc[5], InputInterval) == "";
    assert Attribute(Doc[5], OutputInterval) == Reference("s4", OutputInterval);
    ResolveS4Output(OutputInterval, "s6");
    LoadsWith(5, "", "6h");
  }

  lemma ScenarioS7()
    ensures FilenameIntervalOf(6) == Some("6h")
  {
    DirectionWords();
    assert Attribute(Doc[6], InputInterval) == "";
    assert Attribute(Doc[6], OutputInterval) == Reference("s4", OutputInterval);
    ResolveS4Output(OutputInterval, "s7");
    assert DeriveFilenameInterval("input:output", "", "6h", "") == "6h";
    LoadsWith(6, "", "6h");
  }

  lemma ScenarioS8()
    ensures FilenameIntervalOf(7) == Some("3h")
  {
    DirectionWords();
    assert Attribute(Doc[7], InputInterval) == Reference("s1", InputInterval);
    assert Attribute(Doc[7], OutputInterval) == "";
    ResolveS1Input(InputInterval, "s8");
    assert DeriveFilenameInterval("input:output", "3h", "", "") == "3h";
    LoadsWith(7, "3h", "");
  }

  lemma ScenarioS9()
    ensures FilenameIntervalOf(8) == Some("3h")
  {
    DirectionWords();
    assert Attribute(Doc[8], InputInterval) == "";
    assert Attribute(Doc[8], OutputInterval) == Reference("s1", InputInterval);
    ResolveS1Input(OutputInterval, "s9");
    assert DeriveFilenameInterval("input:output", "", "3h", "") == "3h";
    LoadsWith(8, "", "3h");
  }

  lemma ScenarioS10()
    ensures FilenameIntervalOf(9) == Some("none")
  {
    DirectionWords();
    assert Attribute(Doc[9], InputInterval) == Reference("s1", InputInterval);
    assert Attribute(Doc[9], OutputInterval) == "";
    ResolveS1Input(InputInterval, "s10");
    LoadsWith(9, "3h", "");
  }

  lemma ScenarioS11()
    ensures FilenameIntervalOf(10) == Some("none")
  {
    assert Attribute(Doc[10], InputInterval) == "initial_only" && Attribute(Doc[10], OutputInterval) == "";
    NotReference("initial_only");
    LoadsWith(10, "initial_only", "");
  }

  lemma ScenarioS12()
    ensures FilenameIntervalOf(11) == Some("none")
  {
    assert Attribute(Doc[11], InputInterval) == "final_only" && Attribute(Doc[11], OutputInterval) == "";
    NotReference("final_only");
    LoadsWith(11, "final_only", "");
  }

  lemma ScenarioS13()
    ensures FilenameIntervalOf(12) == Some("none")
  {
    assert Attribute(Doc[12], InputInterval) == "" && Attribute(Doc[12], OutputInterval) == "initial_only";
    NotReference("initial_only");
    LoadsWith(12, "", "initial_only");
  }

  lemma ScenarioS14()
    ensures FilenameIntervalOf(13) == Some("none")
  {
    assert Attribute(Doc[13], InputInterval) == "" && Attribute(Doc[13], OutputInterval) == "final_only";
    NotReference("final_only");
    LoadsWith(13, "", "final_only");
  }

  lemma ScenarioS15()
    ensures FilenameIntervalOf(14) == Some("4h")
  {
    assert Attribute(Doc[14], InputInterval) == "" && Attribute(Doc[14], OutputInterval) == "4h";
    LoadsWith(14, "", "4h");
  }

  lemma ScenarioS16()
    ensures FilenameIntervalOf(15) == Some("4h")
  {
    assert Attribute(Doc[15], InputInterval) == "4h" && Attribute(Doc[15], OutputInterval) == "";
    LoadsWith(15, "4h", "");
  }

  lemma ScenarioS17()
    ensures FilenameIntervalOf(16) == Some("6h")
  {
    assert Attribute(Doc[16], InputInterval) == "";
    assert Attribute(Doc[16], OutputInterval) == Reference("s4", OutputInterval);
    ResolveS4Output(OutputInterval, "s17");
    LoadsWith(16, "", "6h");
  }

  lemma ScenarioS18()
    ensures FilenameIntervalOf(17) == Some("3h")
  {
    assert Attribute(Doc[17], InputInterval) == Reference("s1", InputInterval);
    assert Attribute(Doc[17], OutputInterval) == "";
    ResolveS1Input(InputInterval, "s18");
    LoadsWith(17, "3h", "");
  }

  /** A stream whose input interval names its own absent output interval. */
  const Lone := Node(MutableTag, map["name" := "s", "input_interval" := Reference("s", OutputInterval)])

  /** The same stream with its output interval set to the empty text. */
  const LoneEmpty := Node(MutableTag, map["name" := "s", "input_interval" := Reference("s", OutputInterval),
                                          "output_interval" := ""])

  /** Inside the catalog, a left-out attribute is not the empty text: a reference
      to it fails with the missing-attribute error, while an empty value resolves. */
  lemma AbsentTargetIsNotEmpty()
    ensures LoadFromXml(Lone, [Lone]) == Failure(Resolution(MissingAttribute(OutputInterval, "s")))
    ensures LoadFromXml(LoneEmpty, [LoneEmpty]).Success?
  {
    assert Named(Lone, "s", MutableTag) && !Named(Lone, "s", ImmutableTag);
    assert LookupTarget([Lone], "s") == Some(0);
    assert Attribute(Lone, InputInterval) == Reference("s", OutputInterval);
    assert Attribute(Lone, OutputInterval) == "";
    ResolveReference("s", OutputInterval, InputInterval, "s", [Lone]);
    assert Named(LoneEmpty, "s", MutableTag) && !Named(LoneEmpty, "s", ImmutableTag);
    assert LookupTarget([LoneEmpty], "s") == Some(0);
    assert Attribute(LoneEmpty, InputInterval) == Reference("s", OutputInterval);
    assert Attribute(LoneEmpty, OutputInterval) == "";
    assert LoneEmpty.attrs[OutputInterval] == "";
    assert IsFinal("");
    ResolveReferenceValue("s", OutputInterval, InputInterval, "s", [LoneEmpty]);
  }
}
